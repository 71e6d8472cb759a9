/**
 How the tags of `run` in src/api.py relate to the standalone parsers of src/parsers.py.
 Four sections agree exactly; chapters differ only in their names; speaker tags agree
 once the timestamps interleaved with them are filtered out; the timestamps themselves
 follow a different rule; and only the parser guards a missing utterance list.
 */
module Divergence {
  import opened Wrappers
  import opened Transcript
  import opened Seqs
  import opened Offsets
  import opened Tags
  import opened Rules
  import opened Numerals
  import P = Parsers
  import A = Api
  import opened BlockFacts

  /** Entities, sentiments, topic summary and topics: the static methods of the blockifier
      and the standalone parsers return the same tags and raise the same errors. */
  lemma SharedParsersAgree(resp: Response)
    ensures A.ParseEntities(resp) == P.ParseEntities(resp)
    ensures A.ParseSentiments(resp) == P.ParseSentiments(resp)
    ensures A.ParseSummary(resp) == P.ParseSummary(resp)
    ensures A.ParseTopics(resp) == P.ParseTopics(resp)
  {
  }

  /** Both chapter rules succeed and fail together; where they succeed the tags agree except
      that the standalone parser names tag `k` with `k` in decimal and `run` leaves it unnamed. */
  lemma ChapterNamesDiffer(resp: Response)
    ensures A.ParseChapters(resp).Failure? <==> P.ParseChapters(resp).Failure?
    ensures A.ParseChapters(resp).Failure? ==> A.ParseChapters(resp).error == P.ParseChapters(resp).error
    ensures A.ParseChapters(resp).Success? ==>
      && |A.ParseChapters(resp).value| == |P.ParseChapters(resp).value|
      && forall k :: 0 <= k < |A.ParseChapters(resp).value| ==>
           P.ParseChapters(resp).value[k] == A.ParseChapters(resp).value[k].(name := Some(Decimal(k)))
  {
  }

  /** Without a usable utterance list the parser returns no speaker tags, while `run` with
      speaker detection on raises on the unguarded lookup. */
  lemma SpeakerGuardDiffers(resp: Response)
    requires !resp.utterances.Present?
    ensures P.ParseSpeakerTags(resp) == []
    ensures resp.utterances.Absent? ==> A.BuildTags(resp, true) == Failure(KeyMissing("utterances"))
    ensures resp.utterances.Null? ==> A.BuildTags(resp, true) == Failure(NullValue("utterances"))
  {
  }

  /** One utterance's group holds its speaker tag and then only timestamps. */
  lemma GroupSpeakers(us: seq<Utterance>, i: nat)
    requires i < |us|
    ensures OfKind(A.UtteranceGroups(us)[i], Speaker) == [A.UtteranceGroups(us)[i][0]]
  {
    var g := A.UtteranceGroups(us)[i];
    var words := A.UtteranceWordTags(us[i]);
    assert g == [g[0]] + words;
    OfKindAppend([g[0]], words, Speaker);
    OfKindAllOrNothing(words, Speaker);
    assert OfKind([g[0]], Speaker) == [g[0]] by {
      assert [g[0]][1..] == [];
    }
  }

  /** Dropping the interleaved timestamps from the nested loop's output leaves exactly the
      speaker tags the standalone parser builds. */
  lemma NestedSpeakerFilter(us: seq<Utterance>)
    ensures OfKind(A.NestedSpeakerTags(us), Speaker) == SpeakerTags(us)
  {
    var groups := A.UtteranceGroups(us);
    var filtered := seq(|groups|, i requires 0 <= i < |groups| => OfKind(groups[i], Speaker));
    OfKindFlatten(groups, Speaker);
    forall i | 0 <= i < |groups| ensures |filtered[i]| == 1 && filtered[i][0] == groups[i][0] {
      GroupSpeakers(us, i);
    }
    FlattenSingletons(filtered);
    var spans := Layout(UtteranceTexts(us), 0);
    assert SpeakerTags(us) == seq(|us|, i requires 0 <= i < |us| => SpeakerTag(us[i], spans[i]));
  }

  /** Within a whole run, the speaker tags of the block are exactly the standalone parser's. */
  lemma RunSpeakersMatchParser(resp: Response)
    requires resp.utterances.Present? && A.BuildTags(resp, true).Success?
    ensures OfKind(A.BuildTags(resp, true).value, Speaker) == P.ParseSpeakerTags(resp)
  {
    TagsByKind(resp, true);
    NestedSpeakerFilter(resp.utterances.value);
  }

  /** Two one-word utterances whose words also form the top-level word list: the parser lays
      the second word out after the first, names it by the word and values it with its times;
      the nested loop restarts at 0 for each utterance, names the tag by the speaker and
      gives it no value. */
  lemma TimestampRulesDiffer()
    ensures var w0 := Word("hi", 0.0, 0.5);
      var w1 := Word("yo", 0.5, 1.0);
      var us := [Utterance("hi", "A", [w0]), Utterance("yo", "B", [w1])];
      var flat := TimestampTags([w0, w1]);
      var nested := A.NestedSpeakerTags(us);
      && |flat| == 2 && |nested| == 4
      && flat[1] == Tag(Timestamp, Some("yo"), Some(WordTimes(w1)), Some(3), Some(5))
      && nested[3] == Tag(Timestamp, Some("B"), None, Some(0), Some(2))
  {
    var w0 := Word("hi", 0.0, 0.5);
    var w1 := Word("yo", 0.5, 1.0);
    var us := [Utterance("hi", "A", [w0]), Utterance("yo", "B", [w1])];
    var nested := A.NestedSpeakerTags(us);
    A.NestedTagsShape(us);
    assert A.GroupStart(us, 1) == 2;
    assert A.WordTagAtGroup(nested, us, 1, 0);
    assert WordTexts([w0, w1]) == ["hi", "yo"];
    assert Offset(["hi", "yo"], 1) == 3;
    assert IsTimestampTagFor(TimestampTags([w0, w1])[1], [w0, w1], 1);
  }
}

/**
 Concrete transcription replies and the tags the model produces for them.
 */
module Scenarios {
  import opened Wrappers
  import opened Transcript
  import opened Offsets
  import opened Tags
  import opened Rules
  import P = Parsers
  import A = Api

  /** A reply with only the given top-level keys set; every other key is absent. */
  function Reply(text: Field<string>, utterances: Field<seq<Utterance>>,
                 sentiments: Field<seq<SentimentResult>>, iab: Field<IabCategories>): Response
  {
    Response("completed", text, utterances, Absent, Absent, Absent, sentiments, iab)
  }

  /** One utterance covering the whole text: one speaker tag over characters [0, 21) of the
      21-character text. */
  lemma OneUtterance()
    ensures var text := "Hello there. Goodbye.";
      var resp := Reply(Present(text), Present([Utterance(text, "A", [])]), Absent, Absent);
      && |text| == 21
      && P.ParseSpeakerTags(resp) == [Tag(Speaker, Some("A"), None, Some(0), Some(21))]
  {
    var text := "Hello there. Goodbye.";
    var us := [Utterance(text, "A", [])];
    assert UtteranceTexts(us) == [text];
    assert IsSpeakerTagFor(SpeakerTags(us)[0], us, 0);
  }

  /** Two sentiment results: the second span starts one separator after the first ends. */
  lemma TwoSentiments()
    ensures var ss := [SentimentResult("Good", "POSITIVE", 0.9), SentimentResult("Bad", "NEGATIVE", 0.8)];
      var r := P.ParseSentiments(Reply(Absent, Absent, Present(ss), Absent));
      && r.Success? && |r.value| == 2
      && AnchoredAt(r.value[0], 0, 4) && r.value[0].name == Some("POSITIVE")
      && AnchoredAt(r.value[1], 5, 8) && r.value[1].name == Some("NEGATIVE")
  {
    var ss := [SentimentResult("Good", "POSITIVE", 0.9), SentimentResult("Bad", "NEGATIVE", 0.8)];
    var tags := SentimentTags(ss);
    assert SentimentTexts(ss) == ["Good", "Bad"];
    assert Offset(["Good", "Bad"], 1) == 5;
    assert IsSentimentTagFor(tags[0], ss, 0);
    assert IsSentimentTagFor(tags[1], ss, 1);
  }

  /** A topic summary of two topics: two unanchored tags, in the summary's iteration order. */
  lemma TwoSummaryTopics()
    ensures var entries := [("Sports", 0.7), ("Music", 0.3)];
      var r := P.ParseSummary(Reply(Absent, Absent, Absent, Present(IabCategories(Present(entries), Absent))));
      && r.Success? && |r.value| == 2
      && r.value[0].name == Some("Sports") && Unanchored(r.value[0])
      && r.value[1].name == Some("Music") && Unanchored(r.value[1])
  {
  }

  /** A reply holding only the text: no tags when speaker detection is off, but with it on
      the unguarded utterance lookup raises. */
  lemma OnlyText()
    ensures var resp := Reply(Present("hi"), Absent, Absent, Absent);
      && A.MakeBlock(resp, false) == Success(A.Block(Some("hi"), []))
      && A.MakeBlock(resp, true) == Failure(KeyMissing("utterances"))
  {
    var resp := Reply(Present("hi"), Absent, Absent, Absent);
    assert A.BuildTags(resp, false) == Success([]) by {
      var empty: seq<Tag> := [];
      assert empty + empty + empty + empty + empty + empty == [];
    }
  }
}

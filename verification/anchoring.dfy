/**
 What the offsets of the span-anchored tags mean: read against the pseudo-text that joins
 the fragments with single spaces, every tag's span cuts out exactly the text of the
 fragment it was made for, and consecutive fragments are one separator apart.
 */
module Anchoring {
  import opened Transcript
  import opened Offsets
  import opened Tags
  import opened Rules
  import opened Api

  /** `t`'s offsets are a valid range of `text` that holds exactly `fragment`. */
  predicate Locates(t: Tag, text: string, fragment: string) {
    && t.startIdx.Some? && t.endIdx.Some?
    && 0 <= t.startIdx.value <= t.endIdx.value <= |text|
    && text[t.startIdx.value..t.endIdx.value] == fragment
  }

  /** A tag covering fragment `i` locates that fragment in the joined pseudo-text. */
  lemma CoveredLocates(t: Tag, texts: seq<string>, i: nat)
    requires i < |texts| && CoversFragment(t, texts, i)
    ensures Locates(t, Join(texts), texts[i])
  {
    JoinLocates(texts, i);
  }

  /** The gap between the spans of fragments `i` and `i + 1` is one separator wide, and that
      separator is a space of the pseudo-text. */
  lemma CoveredAdjacent(t: Tag, t': Tag, texts: seq<string>, i: nat)
    requires i + 1 < |texts| && CoversFragment(t, texts, i) && CoversFragment(t', texts, i + 1)
    ensures t.endIdx.value + 1 == t'.startIdx.value
    ensures t.endIdx.value < |Join(texts)| && Join(texts)[t.endIdx.value] == ' '
  {
    JoinLocates(texts, i);
  }

  /** Each speaker tag picks its utterance's text out of the utterances joined by spaces. */
  lemma SpeakerTagsLocate(tags: seq<Tag>, us: seq<Utterance>)
    requires AreSpeakerTags(tags, us)
    ensures forall i :: 0 <= i < |us| ==> Locates(tags[i], Join(UtteranceTexts(us)), us[i].text)
  {
    forall i | 0 <= i < |us| ensures Locates(tags[i], Join(UtteranceTexts(us)), us[i].text) {
      CoveredLocates(tags[i], UtteranceTexts(us), i);
    }
  }

  /** Consecutive speaker tags are one separator apart: no overlap and no other gap. */
  lemma SpeakerTagsAdjacent(tags: seq<Tag>, us: seq<Utterance>)
    requires AreSpeakerTags(tags, us)
    ensures forall i :: 0 <= i && i + 1 < |tags| ==> tags[i].endIdx.value + 1 == tags[i + 1].startIdx.value
  {
    forall i | 0 <= i && i + 1 < |tags| ensures tags[i].endIdx.value + 1 == tags[i + 1].startIdx.value {
      CoveredAdjacent(tags[i], tags[i + 1], UtteranceTexts(us), i);
    }
  }

  /** Each timestamp tag of the top-level word list picks its word out of all words joined
      by spaces. */
  lemma TimestampTagsLocate(tags: seq<Tag>, ws: seq<Word>)
    requires AreTimestampTags(tags, ws)
    ensures forall i :: 0 <= i < |ws| ==> Locates(tags[i], Join(WordTexts(ws)), ws[i].text)
  {
    forall i | 0 <= i < |ws| ensures Locates(tags[i], Join(WordTexts(ws)), ws[i].text) {
      CoveredLocates(tags[i], WordTexts(ws), i);
    }
  }

  /** Each sentiment tag picks its result's text out of the result texts joined by spaces. */
  lemma SentimentTagsLocate(tags: seq<Tag>, ss: seq<SentimentResult>)
    requires AreSentimentTags(tags, ss)
    ensures forall i :: 0 <= i < |ss| ==> Locates(tags[i], Join(SentimentTexts(ss)), ss[i].text)
  {
    forall i | 0 <= i < |ss| ensures Locates(tags[i], Join(SentimentTexts(ss)), ss[i].text) {
      CoveredLocates(tags[i], SentimentTexts(ss), i);
    }
  }

  /** The tag for label `k` of fragment `i` locates the fragment's text. */
  predicate TopicLabelLocated(tags: seq<Tag>, frags: seq<TopicFragment>, i: nat, k: nat)
    requires i < |frags| && k < |frags[i].labels|
  {
    LabelsBefore(frags, i) + k < |tags|
    && Locates(tags[LabelsBefore(frags, i) + k], Join(FragmentTexts(frags)), frags[i].text)
  }

  /** Every label tag of a fragment picks that fragment's text out of the fragment texts
      joined by spaces. */
  lemma TopicTagsLocate(tags: seq<Tag>, frags: seq<TopicFragment>)
    requires AreTopicTags(tags, frags)
    ensures forall i, k :: 0 <= i < |frags| && 0 <= k < |frags[i].labels| ==> TopicLabelLocated(tags, frags, i, k)
  {
    forall i, k | 0 <= i < |frags| && 0 <= k < |frags[i].labels| ensures TopicLabelLocated(tags, frags, i, k) {
      assert TopicTagAtLabel(tags, frags, i, k);
      CoveredLocates(tags[LabelsBefore(frags, i) + k], FragmentTexts(frags), i);
    }
  }

  /** Word tag `k` of utterance `i` locates the word in that utterance's words joined by spaces. */
  predicate NestedWordLocated(tags: seq<Tag>, us: seq<Utterance>, i: nat, k: nat)
    requires i < |us| && k < |us[i].words|
  {
    GroupStart(us, i) + 1 + k < |tags|
    && Locates(tags[GroupStart(us, i) + 1 + k], Join(WordTexts(us[i].words)), us[i].words[k].text)
  }

  /** In the nested loop of `run`, word tag `k` of utterance `i` locates the word in the
      words of that utterance alone, joined by spaces. */
  lemma NestedWordTagsLocate(tags: seq<Tag>, us: seq<Utterance>)
    requires AreNestedTags(tags, us)
    ensures forall i, k :: 0 <= i < |us| && 0 <= k < |us[i].words| ==> NestedWordLocated(tags, us, i, k)
  {
    forall i, k | 0 <= i < |us| && 0 <= k < |us[i].words| ensures NestedWordLocated(tags, us, i, k) {
      assert WordTagAtGroup(tags, us, i, k);
      CoveredLocates(tags[GroupStart(us, i) + 1 + k], WordTexts(us[i].words), k);
    }
  }
}

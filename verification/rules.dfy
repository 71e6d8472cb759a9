/**
 The per-kind extraction rules both implementations share: how one fragment becomes
 a tag, the cursor fold that lays a list of fragments out, and the shape each rule's
 output is proved to have. The shapes are stated against the closed-form offsets of
 module Offsets, not against the fold.
 */
module Rules {
  import opened Wrappers
  import opened Transcript
  import opened Offsets
  import opened Seqs
  import opened Tags

  /** `t` covers fragment `i` of `texts` in the space-joined pseudo-text. */
  predicate CoversFragment(t: Tag, texts: seq<string>, i: nat)
    requires i < |texts|
  {
    AnchoredAt(t, Offset(texts, i), Offset(texts, i) + |texts[i]|)
  }

  // ---------------------------------------------------------------- speaker

  function SpeakerTag(u: Utterance, sp: Span): Tag {
    Tag(Speaker, Some(u.speaker), None, Some(sp.start), Some(sp.end))
  }

  /** The speaker tag of utterance `i`: named by its speaker, no value, covering its text. */
  predicate IsSpeakerTagFor(t: Tag, us: seq<Utterance>, i: nat)
    requires i < |us|
  {
    && t.kind == Speaker
    && t.name == Some(us[i].speaker)
    && t.value == None
    && CoversFragment(t, UtteranceTexts(us), i)
  }

  /** Exactly one speaker tag per utterance, in utterance order. */
  predicate AreSpeakerTags(tags: seq<Tag>, us: seq<Utterance>) {
    |tags| == |us| && forall i :: 0 <= i < |us| ==> IsSpeakerTagFor(tags[i], us, i)
  }

  function SpeakerTags(us: seq<Utterance>): (tags: seq<Tag>)
    ensures AreSpeakerTags(tags, us)
    ensures Uniform(tags, Speaker)
  {
    var texts := UtteranceTexts(us);
    var spans := Layout(texts, 0);
    var tags := seq(|us|, i requires 0 <= i < |us| => SpeakerTag(us[i], spans[i]));
    assert AreSpeakerTags(tags, us) && Uniform(tags, Speaker) by {
      forall i | 0 <= i < |us| ensures IsSpeakerTagFor(tags[i], us, i) && WellFormed(tags[i]) {
        LayoutClosedForm(texts, 0, i);
      }
    }
    tags
  }

  // ---------------------------------------------------------------- timestamp (top-level words)

  /** `{"start_time": word["start"], "end_time": word["end"]}` */
  function WordTimes(w: Word): (m: map<string, Datum>)
    ensures m.Keys == {"start_time", "end_time"}
    ensures m["start_time"] == Num(w.start) && m["end_time"] == Num(w.end)
  {
    map["start_time" := Num(w.start), "end_time" := Num(w.end)]
  }

  function TimestampTag(w: Word, sp: Span): Tag {
    Tag(Timestamp, Some(w.text), Some(WordTimes(w)), Some(sp.start), Some(sp.end))
  }

  /** The timestamp tag of word `i`: named by the word, valued with its times, covering the
      word in the pseudo-text of all words. */
  predicate IsTimestampTagFor(t: Tag, ws: seq<Word>, i: nat)
    requires i < |ws|
  {
    && t.kind == Timestamp
    && t.name == Some(ws[i].text)
    && t.value == Some(WordTimes(ws[i]))
    && CoversFragment(t, WordTexts(ws), i)
  }

  predicate AreTimestampTags(tags: seq<Tag>, ws: seq<Word>) {
    |tags| == |ws| && forall i :: 0 <= i < |ws| ==> IsTimestampTagFor(tags[i], ws, i)
  }

  function TimestampTags(ws: seq<Word>): (tags: seq<Tag>)
    ensures AreTimestampTags(tags, ws)
    ensures Uniform(tags, Timestamp)
  {
    var texts := WordTexts(ws);
    var spans := Layout(texts, 0);
    var tags := seq(|ws|, i requires 0 <= i < |ws| => TimestampTag(ws[i], spans[i]));
    assert AreTimestampTags(tags, ws) && Uniform(tags, Timestamp) by {
      forall i | 0 <= i < |ws| ensures IsTimestampTagFor(tags[i], ws, i) && WellFormed(tags[i]) {
        LayoutClosedForm(texts, 0, i);
      }
    }
    tags
  }

  // ---------------------------------------------------------------- sentiments

  /** `{"span_text": sentiment["text"], "confidence": sentiment["confidence"]}` */
  function SentimentValue(s: SentimentResult): (m: map<string, Datum>)
    ensures m.Keys == {"span_text", "confidence"}
    ensures m["span_text"] == Str(s.text) && m["confidence"] == Num(s.confidence)
  {
    map["span_text" := Str(s.text), "confidence" := Num(s.confidence)]
  }

  function SentimentTag(s: SentimentResult, sp: Span): Tag {
    Tag(Sentiments, Some(s.sentiment), Some(SentimentValue(s)), Some(sp.start), Some(sp.end))
  }

  /** The tag of sentiment result `i`: named by its sentiment label, valued with its text and
      confidence, covering its text. */
  predicate IsSentimentTagFor(t: Tag, ss: seq<SentimentResult>, i: nat)
    requires i < |ss|
  {
    && t.kind == Sentiments
    && t.name == Some(ss[i].sentiment)
    && t.value == Some(SentimentValue(ss[i]))
    && CoversFragment(t, SentimentTexts(ss), i)
  }

  predicate AreSentimentTags(tags: seq<Tag>, ss: seq<SentimentResult>) {
    |tags| == |ss| && forall i :: 0 <= i < |ss| ==> IsSentimentTagFor(tags[i], ss, i)
  }

  function SentimentTags(ss: seq<SentimentResult>): (tags: seq<Tag>)
    ensures AreSentimentTags(tags, ss)
    ensures Uniform(tags, Sentiments)
  {
    var texts := SentimentTexts(ss);
    var spans := Layout(texts, 0);
    var tags := seq(|ss|, i requires 0 <= i < |ss| => SentimentTag(ss[i], spans[i]));
    assert AreSentimentTags(tags, ss) && Uniform(tags, Sentiments) by {
      forall i | 0 <= i < |ss| ensures IsSentimentTagFor(tags[i], ss, i) && WellFormed(tags[i]) {
        LayoutClosedForm(texts, 0, i);
      }
    }
    tags
  }

  // ---------------------------------------------------------------- topics

  /** `{"span_text": fragment["text"], "relevance": label["relevance"]}` */
  function TopicValue(f: TopicFragment, l: Label): (m: map<string, Datum>)
    ensures m.Keys == {"span_text", "relevance"}
    ensures m["span_text"] == Str(f.text) && m["relevance"] == Num(l.relevance)
  {
    map["span_text" := Str(f.text), "relevance" := Num(l.relevance)]
  }

  function TopicTag(f: TopicFragment, l: Label, sp: Span): Tag {
    Tag(Topic, Some(l.name), Some(TopicValue(f, l)), Some(sp.start), Some(sp.end))
  }

  /** The number of labels on the fragments before fragment `i`. */
  function LabelsBefore(frags: seq<TopicFragment>, i: nat): nat
    requires i <= |frags|
  {
    if i == 0 then 0 else LabelsBefore(frags, i - 1) + |frags[i - 1].labels|
  }

  /** The tag for label `k` of fragment `i`: named by the label, valued with the fragment's
      text and the label's relevance, covering the fragment's text. */
  predicate IsTopicTagFor(t: Tag, frags: seq<TopicFragment>, i: nat, k: nat)
    requires i < |frags| && k < |frags[i].labels|
  {
    && t.kind == Topic
    && t.name == Some(frags[i].labels[k].name)
    && t.value == Some(TopicValue(frags[i], frags[i].labels[k]))
    && CoversFragment(t, FragmentTexts(frags), i)
  }

  /** The tag for label `k` of fragment `i` sits at `LabelsBefore(frags, i) + k`. */
  predicate TopicTagAtLabel(tags: seq<Tag>, frags: seq<TopicFragment>, i: nat, k: nat)
    requires i < |frags| && k < |frags[i].labels|
  {
    LabelsBefore(frags, i) + k < |tags| && IsTopicTagFor(tags[LabelsBefore(frags, i) + k], frags, i, k)
  }

  /** Fragment `i` with L labels owns the L consecutive tags starting at
      `LabelsBefore(frags, i)`, one per label in label order. */
  predicate AreTopicTags(tags: seq<Tag>, frags: seq<TopicFragment>) {
    && |tags| == LabelsBefore(frags, |frags|)
    && forall i, k :: 0 <= i < |frags| && 0 <= k < |frags[i].labels| ==> TopicTagAtLabel(tags, frags, i, k)
  }

  /** The tags of one fragment: one per label, all with the fragment's span. */
  function LabelGroup(f: TopicFragment, sp: Span): seq<Tag> {
    seq(|f.labels|, k requires 0 <= k < |f.labels| => TopicTag(f, f.labels[k], sp))
  }

  function TopicGroups(frags: seq<TopicFragment>): seq<seq<Tag>> {
    var spans := Layout(FragmentTexts(frags), 0);
    seq(|frags|, i requires 0 <= i < |frags| => LabelGroup(frags[i], spans[i]))
  }

  function TopicTags(frags: seq<TopicFragment>): (tags: seq<Tag>)
    ensures AreTopicTags(tags, frags)
    ensures Uniform(tags, Topic)
  {
    TopicTagsShape(frags);
    Flatten(TopicGroups(frags))
  }

  lemma {:induction false} GroupsBefore(frags: seq<TopicFragment>, i: nat)
    requires i <= |frags|
    ensures Before(TopicGroups(frags), i) == LabelsBefore(frags, i)
  {
    if i > 0 {
      GroupsBefore(frags, i - 1);
    }
  }

  lemma TopicTagsShape(frags: seq<TopicFragment>)
    ensures AreTopicTags(Flatten(TopicGroups(frags)), frags)
    ensures Uniform(Flatten(TopicGroups(frags)), Topic)
  {
    var groups := TopicGroups(frags);
    var tags := Flatten(groups);
    FlattenLength(groups);
    GroupsBefore(frags, |frags|);
    forall i, k | 0 <= i < |frags| && 0 <= k < |frags[i].labels|
      ensures TopicTagAtLabel(tags, frags, i, k)
    {
      TopicTagAt(frags, i, k);
    }
    forall n | 0 <= n < |tags|
      ensures tags[n].kind == Topic && WellFormed(tags[n])
    {
      TopicTagWellFormed(frags, tags[n]);
    }
  }

  lemma TopicTagAt(frags: seq<TopicFragment>, i: nat, k: nat)
    requires i < |frags| && k < |frags[i].labels|
    ensures LabelsBefore(frags, i) + k < |Flatten(TopicGroups(frags))|
    ensures IsTopicTagFor(Flatten(TopicGroups(frags))[LabelsBefore(frags, i) + k], frags, i, k)
  {
    var texts := FragmentTexts(frags);
    var groups := TopicGroups(frags);
    GroupsBefore(frags, i);
    FlattenAt(groups, i, k);
    LayoutClosedForm(texts, 0, i);
    assert groups[i][k] == TopicTag(frags[i], frags[i].labels[k], Layout(texts, 0)[i]);
  }

  lemma TopicTagWellFormed(frags: seq<TopicFragment>, t: Tag)
    requires t in Flatten(TopicGroups(frags))
    ensures t.kind == Topic && WellFormed(t)
  {
    var groups := TopicGroups(frags);
    var texts := FragmentTexts(frags);
    FlattenMembers(groups, t);
    var i :| 0 <= i < |groups| && t in groups[i];
    LayoutClosedForm(texts, 0, i);
  }

  // ---------------------------------------------------------------- topic summary

  /** `{"relevance": relevance}` */
  function RelevanceValue(relevance: real): (m: map<string, Datum>)
    ensures m.Keys == {"relevance"} && m["relevance"] == Num(relevance)
  {
    map["relevance" := Num(relevance)]
  }

  function SummaryTag(entry: (string, real)): Tag {
    Tag(TopicSummary, Some(entry.0), Some(RelevanceValue(entry.1)), None, None)
  }

  /** One unanchored tag per summary item, in iteration order, named by the topic and
      valued with its relevance. */
  predicate AreSummaryTags(tags: seq<Tag>, entries: seq<(string, real)>) {
    && |tags| == |entries|
    && forall i :: 0 <= i < |entries| ==>
         && tags[i].kind == TopicSummary
         && tags[i].name == Some(entries[i].0)
         && tags[i].value == Some(RelevanceValue(entries[i].1))
         && Unanchored(tags[i])
  }

  function SummaryTags(entries: seq<(string, real)>): (tags: seq<Tag>)
    ensures AreSummaryTags(tags, entries)
    ensures Uniform(tags, TopicSummary)
  {
    seq(|entries|, i requires 0 <= i < |entries| => SummaryTag(entries[i]))
  }

  // ---------------------------------------------------------------- chapters

  /** The chapter's texts and times, with `start` and `end` renamed. */
  function ChapterValue(c: Chapter): (m: map<string, Datum>)
    ensures m.Keys == {"summary", "headline", "gist", "start_time", "end_time"}
    ensures m["summary"] == Str(c.summary) && m["headline"] == Str(c.headline) && m["gist"] == Str(c.gist)
    ensures m["start_time"] == Num(c.start) && m["end_time"] == Num(c.end)
  {
    map["summary" := Str(c.summary), "headline" := Str(c.headline), "gist" := Str(c.gist),
        "start_time" := Num(c.start), "end_time" := Num(c.end)]
  }

  function ChapterTag(c: Chapter, name: Option<string>): Tag {
    Tag(Kind.Chapter, name, Some(ChapterValue(c)), None, None)
  }

  /** One unanchored tag per chapter, in order, valued with the chapter's texts and times;
      names are up to each implementation. */
  predicate AreChapterTags(tags: seq<Tag>, cs: seq<Chapter>) {
    && |tags| == |cs|
    && forall k :: 0 <= k < |cs| ==>
         && tags[k].kind == Kind.Chapter
         && tags[k].value == Some(ChapterValue(cs[k]))
         && Unanchored(tags[k])
  }

  // ---------------------------------------------------------------- entities

  /** `{"value": entity["text"]}` */
  function EntityValue(e: Entity): (m: map<string, Datum>)
    ensures m.Keys == {"value"} && m["value"] == Str(e.text)
  {
    map["value" := Str(e.text)]
  }

  function EntityTag(e: Entity): Tag {
    Tag(Entities, Some(e.entityType), Some(EntityValue(e)), None, None)
  }

  /** One unanchored tag per entity, in order, named by its type and valued with its text. */
  predicate AreEntityTags(tags: seq<Tag>, es: seq<Entity>) {
    && |tags| == |es|
    && forall i :: 0 <= i < |es| ==>
         && tags[i].kind == Entities
         && tags[i].name == Some(es[i].entityType)
         && tags[i].value == Some(EntityValue(es[i]))
         && Unanchored(tags[i])
  }

  function EntityTags(es: seq<Entity>): (tags: seq<Tag>)
    ensures AreEntityTags(tags, es)
    ensures Uniform(tags, Entities)
  {
    seq(|es|, i requires 0 <= i < |es| => EntityTag(es[i]))
  }
}

/**
 Properties of the tag list `run` puts in its block: the fixed category order, the offset
 invariant of every tag, and which section each kind of tag comes from.
 */
module BlockFacts {
  import opened Wrappers
  import opened Transcript
  import opened Tags
  import opened Rules
  import opened Api

  /** A successful run got every section and concatenated them in category order. */
  lemma BuildTagsParts(resp: Response, sd: bool)
    requires BuildTags(resp, sd).Success?
    ensures SpeakerSection(resp, sd).Success? && ParseTopics(resp).Success? && ParseSummary(resp).Success?
    ensures ParseSentiments(resp).Success? && ParseChapters(resp).Success? && ParseEntities(resp).Success?
    ensures BuildTags(resp, sd).value
         == SpeakerSection(resp, sd).value + ParseTopics(resp).value + ParseSummary(resp).value
          + ParseSentiments(resp).value + ParseChapters(resp).value + ParseEntities(resp).value
  {
  }

  /** `run` raises exactly when one of its sections raises, and then with the error of the
      first section, in category order, that raises. */
  lemma BuildTagsFailsFirst(resp: Response, sd: bool)
    ensures BuildTags(resp, sd).Failure? <==>
      SpeakerSection(resp, sd).Failure? || ParseTopics(resp).Failure? || ParseSummary(resp).Failure?
      || ParseSentiments(resp).Failure? || ParseChapters(resp).Failure? || ParseEntities(resp).Failure?
    ensures SpeakerSection(resp, sd).Failure? ==> BuildTags(resp, sd) == Failure(SpeakerSection(resp, sd).error)
    ensures SpeakerSection(resp, sd).Success? && ParseTopics(resp).Failure? ==>
      BuildTags(resp, sd) == Failure(ParseTopics(resp).error)
    ensures SpeakerSection(resp, sd).Success? && ParseTopics(resp).Success? && ParseSummary(resp).Failure? ==>
      BuildTags(resp, sd) == Failure(ParseSummary(resp).error)
    ensures (SpeakerSection(resp, sd).Success? && ParseTopics(resp).Success? && ParseSummary(resp).Success?
             && ParseSentiments(resp).Failure?) ==>
      BuildTags(resp, sd) == Failure(ParseSentiments(resp).error)
    ensures (SpeakerSection(resp, sd).Success? && ParseTopics(resp).Success? && ParseSummary(resp).Success?
             && ParseSentiments(resp).Success? && ParseChapters(resp).Failure?) ==>
      BuildTags(resp, sd) == Failure(ParseChapters(resp).error)
    ensures (SpeakerSection(resp, sd).Success? && ParseTopics(resp).Success? && ParseSummary(resp).Success?
             && ParseSentiments(resp).Success? && ParseChapters(resp).Success? && ParseEntities(resp).Failure?) ==>
      BuildTags(resp, sd) == Failure(ParseEntities(resp).error)
  {
  }

  /** A block is built only from a reply whose tags succeed and that has a `text` key; a
      failing tag section is reported before a missing text. */
  lemma MakeBlockFails(resp: Response, sd: bool)
    ensures MakeBlock(resp, sd).Success? <==> BuildTags(resp, sd).Success? && !resp.text.Absent?
    ensures BuildTags(resp, sd).Failure? ==> MakeBlock(resp, sd) == Failure(BuildTags(resp, sd).error)
    ensures BuildTags(resp, sd).Success? && resp.text.Absent? ==> MakeBlock(resp, sd) == Failure(KeyMissing("text"))
  {
  }

  /** Speaker and timestamp tags are the only kinds the speaker section emits. */
  lemma SpeakerSectionKinds(resp: Response, sd: bool)
    requires SpeakerSection(resp, sd).Success?
    ensures forall t :: t in SpeakerSection(resp, sd).value ==>
      (t.kind == Speaker || t.kind == Timestamp) && WellFormed(t)
  {
  }

  lemma UniformMembers(tags: seq<Tag>, k: Kind)
    requires Uniform(tags, k)
    ensures forall t :: t in tags ==> t.kind == k && WellFormed(t)
  {
  }

  /** Six lists whose kinds have ranks 0 to 5, in that order, concatenate to a ranked list. */
  lemma RankedSix(a: seq<Tag>, b: seq<Tag>, c: seq<Tag>, d: seq<Tag>, e: seq<Tag>, f: seq<Tag>)
    requires forall t :: t in a ==> Rank(t.kind) == 0
    requires forall t :: t in b ==> Rank(t.kind) == 1
    requires forall t :: t in c ==> Rank(t.kind) == 2
    requires forall t :: t in d ==> Rank(t.kind) == 3
    requires forall t :: t in e ==> Rank(t.kind) == 4
    requires forall t :: t in f ==> Rank(t.kind) == 5
    ensures RankedBy(a + b + c + d + e + f)
  {
    assert RankedBy(a) && RanksAtMost(a, 0);
    RankedAppend(a, b, 1);
    RankedAppend(a + b, c, 2);
    RankedAppend(a + b + c, d, 3);
    RankedAppend(a + b + c + d, e, 4);
    RankedAppend(a + b + c + d + e, f, 5);
  }

  /** The block's tags come in category order: speaker/timestamp, topic, topic summary,
      sentiments, chapter, entities. */
  lemma TagsInCategoryOrder(resp: Response, sd: bool)
    requires BuildTags(resp, sd).Success?
    ensures RankedBy(BuildTags(resp, sd).value)
  {
    BuildTagsParts(resp, sd);
    SpeakerSectionKinds(resp, sd);
    UniformMembers(ParseTopics(resp).value, Topic);
    UniformMembers(ParseSummary(resp).value, TopicSummary);
    UniformMembers(ParseSentiments(resp).value, Sentiments);
    UniformMembers(ParseChapters(resp).value, Kind.Chapter);
    UniformMembers(ParseEntities(resp).value, Entities);
    RankedSix(SpeakerSection(resp, sd).value, ParseTopics(resp).value, ParseSummary(resp).value,
              ParseSentiments(resp).value, ParseChapters(resp).value, ParseEntities(resp).value);
  }

  /** Every tag of the block satisfies the offset invariant: anchored kinds have
      0 <= start <= end, topic summaries, chapters and entities have no offsets. */
  lemma TagsWellFormed(resp: Response, sd: bool)
    requires BuildTags(resp, sd).Success?
    ensures forall t :: t in BuildTags(resp, sd).value ==> WellFormed(t)
  {
    BuildTagsParts(resp, sd);
    SpeakerSectionKinds(resp, sd);
    UniformMembers(ParseTopics(resp).value, Topic);
    UniformMembers(ParseSummary(resp).value, TopicSummary);
    UniformMembers(ParseSentiments(resp).value, Sentiments);
    UniformMembers(ParseChapters(resp).value, Kind.Chapter);
    UniformMembers(ParseEntities(resp).value, Entities);
  }

  lemma OfKindUniform(tags: seq<Tag>, k: Kind, k': Kind)
    requires Uniform(tags, k)
    ensures OfKind(tags, k') == if k == k' then tags else []
  {
    OfKindAllOrNothing(tags, k');
  }

  lemma OfKindSix(a: seq<Tag>, b: seq<Tag>, c: seq<Tag>, d: seq<Tag>, e: seq<Tag>, f: seq<Tag>, k: Kind)
    ensures OfKind(a + b + c + d + e + f, k)
         == OfKind(a, k) + OfKind(b, k) + OfKind(c, k) + OfKind(d, k) + OfKind(e, k) + OfKind(f, k)
  {
    OfKindAppend(a, b, k);
    OfKindAppend(a + b, c, k);
    OfKindAppend(a + b + c, d, k);
    OfKindAppend(a + b + c + d, e, k);
    OfKindAppend(a + b + c + d + e, f, k);
  }

  /** The section of the block a kind of tag comes from. */
  function SectionOf(k: Kind, a: seq<Tag>, b: seq<Tag>, c: seq<Tag>, d: seq<Tag>, e: seq<Tag>, f: seq<Tag>): seq<Tag> {
    match k
    case Speaker => OfKind(a, Speaker)
    case Timestamp => OfKind(a, Timestamp)
    case Topic => b
    case TopicSummary => c
    case Sentiments => d
    case Chapter => e
    case Entities => f
  }

  /** Concatenating six lists of which all but one are empty gives that one. */
  lemma ConcatOne(xs: seq<Tag>, ys: seq<Tag>, zs: seq<Tag>, us: seq<Tag>, vs: seq<Tag>, ws: seq<Tag>, i: nat)
    requires i < 6
    requires i != 0 ==> xs == []
    requires i != 1 ==> ys == []
    requires i != 2 ==> zs == []
    requires i != 3 ==> us == []
    requires i != 4 ==> vs == []
    requires i != 5 ==> ws == []
    ensures xs + ys + zs + us + vs + ws == [xs, ys, zs, us, vs, ws][i]
  {
  }

  /** The concatenation step of `SelectKind`, stated over what each section's filter gives. */
  lemma SelectFiltered(a: seq<Tag>, b: seq<Tag>, c: seq<Tag>, d: seq<Tag>, e: seq<Tag>, f: seq<Tag>, k: Kind)
    requires k.Speaker? || k.Timestamp? || OfKind(a, k) == []
    requires OfKind(b, k) == if k == Topic then b else []
    requires OfKind(c, k) == if k == TopicSummary then c else []
    requires OfKind(d, k) == if k == Sentiments then d else []
    requires OfKind(e, k) == if k == Kind.Chapter then e else []
    requires OfKind(f, k) == if k == Entities then f else []
    ensures OfKind(a + b + c + d + e + f, k) == SectionOf(k, a, b, c, d, e, f)
  {
    OfKindSix(a, b, c, d, e, f, k);
    ConcatOne(OfKind(a, k), OfKind(b, k), OfKind(c, k), OfKind(d, k), OfKind(e, k), OfKind(f, k), Rank(k));
  }

  lemma SelectKind(a: seq<Tag>, b: seq<Tag>, c: seq<Tag>, d: seq<Tag>, e: seq<Tag>, f: seq<Tag>, k: Kind)
    requires forall t :: t in a ==> t.kind == Speaker || t.kind == Timestamp
    requires Uniform(b, Topic) && Uniform(c, TopicSummary) && Uniform(d, Sentiments)
    requires Uniform(e, Kind.Chapter) && Uniform(f, Entities)
    ensures OfKind(a + b + c + d + e + f, k) == SectionOf(k, a, b, c, d, e, f)
  {
    OfKindUniform(b, Topic, k);
    OfKindUniform(c, TopicSummary, k);
    OfKindUniform(d, Sentiments, k);
    OfKindUniform(e, Kind.Chapter, k);
    OfKindUniform(f, Entities, k);
    OfKindAllOrNothing(a, k);
    SelectFiltered(a, b, c, d, e, f, k);
  }

  /** Selecting one kind from the block gives back exactly what that kind's section produced;
      speaker and timestamp tags all come from the speaker section. */
  lemma TagsByKind(resp: Response, sd: bool)
    requires BuildTags(resp, sd).Success?
    ensures var tags := BuildTags(resp, sd).value;
      && OfKind(tags, Speaker) == OfKind(SpeakerSection(resp, sd).value, Speaker)
      && OfKind(tags, Timestamp) == OfKind(SpeakerSection(resp, sd).value, Timestamp)
      && OfKind(tags, Topic) == ParseTopics(resp).value
      && OfKind(tags, TopicSummary) == ParseSummary(resp).value
      && OfKind(tags, Sentiments) == ParseSentiments(resp).value
      && OfKind(tags, Kind.Chapter) == ParseChapters(resp).value
      && OfKind(tags, Entities) == ParseEntities(resp).value
  {
    BuildTagsParts(resp, sd);
    var a := SpeakerSection(resp, sd).value;
    var b := ParseTopics(resp).value;
    var c := ParseSummary(resp).value;
    var d := ParseSentiments(resp).value;
    var e := ParseChapters(resp).value;
    var f := ParseEntities(resp).value;
    SpeakerSectionKinds(resp, sd);
    SelectKind(a, b, c, d, e, f, Speaker);
    SelectKind(a, b, c, d, e, f, Timestamp);
    SelectKind(a, b, c, d, e, f, Topic);
    SelectKind(a, b, c, d, e, f, TopicSummary);
    SelectKind(a, b, c, d, e, f, Sentiments);
    SelectKind(a, b, c, d, e, f, Kind.Chapter);
    SelectKind(a, b, c, d, e, f, Entities);
  }

  /** With speaker detection off there are no speaker or timestamp tags at all. */
  lemma NoSpeakerTagsWithoutDetection(resp: Response)
    requires BuildTags(resp, false).Success?
    ensures forall t :: t in BuildTags(resp, false).value ==> t.kind != Speaker && t.kind != Timestamp
  {
    BuildTagsParts(resp, false);
    UniformMembers(ParseTopics(resp).value, Topic);
    UniformMembers(ParseSummary(resp).value, TopicSummary);
    UniformMembers(ParseSentiments(resp).value, Sentiments);
    UniformMembers(ParseChapters(resp).value, Kind.Chapter);
    UniformMembers(ParseEntities(resp).value, Entities);
  }

  /** The block's text is the reply's `text`, verbatim, whatever the tags. */
  lemma BlockTextVerbatim(resp: Response, sd: bool)
    requires MakeBlock(resp, sd).Success?
    ensures resp.text.Present? ==> MakeBlock(resp, sd).value.text == Some(resp.text.value)
    ensures resp.text.Null? ==> MakeBlock(resp, sd).value.text == None
    ensures !resp.text.Absent?
    ensures MakeBlock(resp, sd).value.tags == BuildTags(resp, sd).value
  {
  }
}

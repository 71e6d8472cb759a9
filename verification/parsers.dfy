/**
 The standalone parser functions of src/parsers.py: one per tag kind, each a pure
 function of the transcription reply. A key guarded by an `in` test yields no tags
 when it is absent; using a key that is present but null raises, as Python does.
 */
module Parsers {
  import opened Wrappers
  import opened Transcript
  import opened Tags
  import opened Rules
  import opened Numerals

  /** `parse_speaker_tags`: guarded by `"utterances" in r` and by `or []`, so it never raises. */
  function ParseSpeakerTags(resp: Response): (tags: seq<Tag>)
    ensures !resp.utterances.Present? ==> tags == []
    ensures resp.utterances.Present? ==> AreSpeakerTags(tags, resp.utterances.value)
    ensures Uniform(tags, Speaker)
  {
    match resp.utterances
    case Present(us) => SpeakerTags(us)
    case _ => []
  }

  /** `parse_timestamps`: reads `r["words"]` without a guard. */
  function ParseTimestamps(resp: Response): (r: Result<seq<Tag>, Error>)
    ensures resp.words.Absent? ==> r == Failure(KeyMissing("words"))
    ensures resp.words.Null? ==> r == Failure(NullValue("words"))
    ensures resp.words.Present? ==> r.Success? && AreTimestampTags(r.value, resp.words.value)
    ensures r.Success? ==> Uniform(r.value, Timestamp)
  {
    match resp.words
    case Absent => Failure(KeyMissing("words"))
    case Null => Failure(NullValue("words"))
    case Present(ws) => Success(TimestampTags(ws))
  }

  /** `parse_entities` */
  function ParseEntities(resp: Response): (r: Result<seq<Tag>, Error>)
    ensures resp.entities.Absent? ==> r == Success([])
    ensures resp.entities.Null? ==> r == Failure(NullValue("entities"))
    ensures resp.entities.Present? ==> r.Success? && AreEntityTags(r.value, resp.entities.value)
    ensures r.Success? ==> Uniform(r.value, Entities)
  {
    match resp.entities
    case Absent => Success([])
    case Null => Failure(NullValue("entities"))
    case Present(es) => Success(EntityTags(es))
  }

  /** `parse_chapters`: tag `k` is named by `f"{k}"`. */
  function ParseChapters(resp: Response): (r: Result<seq<Tag>, Error>)
    ensures resp.chapters.Absent? ==> r == Success([])
    ensures resp.chapters.Null? ==> r == Failure(NullValue("chapters"))
    ensures resp.chapters.Present? ==> r.Success? && AreChapterTags(r.value, resp.chapters.value)
    ensures r.Success? ==> Uniform(r.value, Kind.Chapter)
    ensures r.Success? ==> forall k :: 0 <= k < |r.value| ==> r.value[k].name == Some(Decimal(k))
  {
    match resp.chapters
    case Absent => Success([])
    case Null => Failure(NullValue("chapters"))
    case Present(cs) => Success(seq(|cs|, k requires 0 <= k < |cs| => ChapterTag(cs[k], Some(Decimal(k)))))
  }

  /** `parse_sentiments` */
  function ParseSentiments(resp: Response): (r: Result<seq<Tag>, Error>)
    ensures resp.sentimentAnalysisResults.Absent? ==> r == Success([])
    ensures resp.sentimentAnalysisResults.Null? ==> r == Failure(NullValue("sentiment_analysis_results"))
    ensures resp.sentimentAnalysisResults.Present? ==>
      r.Success? && AreSentimentTags(r.value, resp.sentimentAnalysisResults.value)
    ensures r.Success? ==> Uniform(r.value, Sentiments)
  {
    match resp.sentimentAnalysisResults
    case Absent => Success([])
    case Null => Failure(NullValue("sentiment_analysis_results"))
    case Present(ss) => Success(SentimentTags(ss))
  }

  /** `parse_summary`: `r.get("iab_categories_result", {})` turns an absent key into an empty
      object, but a null one makes the `in` test raise. */
  function ParseSummary(resp: Response): (r: Result<seq<Tag>, Error>)
    ensures resp.iabCategoriesResult.Absent? ==> r == Success([])
    ensures resp.iabCategoriesResult.Null? ==> r == Failure(NullValue("iab_categories_result"))
    ensures resp.iabCategoriesResult.Present? && resp.iabCategoriesResult.value.summary.Absent? ==>
      r == Success([])
    ensures resp.iabCategoriesResult.Present? && resp.iabCategoriesResult.value.summary.Null? ==>
      r == Failure(NullValue("summary"))
    ensures resp.iabCategoriesResult.Present? && resp.iabCategoriesResult.value.summary.Present? ==>
      r.Success? && AreSummaryTags(r.value, resp.iabCategoriesResult.value.summary.value)
    ensures r.Success? ==> Uniform(r.value, TopicSummary)
  {
    match resp.iabCategoriesResult
    case Absent => Success([])
    case Null => Failure(NullValue("iab_categories_result"))
    case Present(iab) =>
      match iab.summary
      case Absent => Success([])
      case Null => Failure(NullValue("summary"))
      case Present(entries) => Success(SummaryTags(entries))
  }

  /** `parse_topics`: the same guard as `parse_summary`, on the `results` key. */
  function ParseTopics(resp: Response): (r: Result<seq<Tag>, Error>)
    ensures resp.iabCategoriesResult.Absent? ==> r == Success([])
    ensures resp.iabCategoriesResult.Null? ==> r == Failure(NullValue("iab_categories_result"))
    ensures resp.iabCategoriesResult.Present? && resp.iabCategoriesResult.value.results.Absent? ==>
      r == Success([])
    ensures resp.iabCategoriesResult.Present? && resp.iabCategoriesResult.value.results.Null? ==>
      r == Failure(NullValue("results"))
    ensures resp.iabCategoriesResult.Present? && resp.iabCategoriesResult.value.results.Present? ==>
      r.Success? && AreTopicTags(r.value, resp.iabCategoriesResult.value.results.value)
    ensures r.Success? ==> Uniform(r.value, Topic)
  {
    match resp.iabCategoriesResult
    case Absent => Success([])
    case Null => Failure(NullValue("iab_categories_result"))
    case Present(iab) =>
      match iab.results
      case Absent => Success([])
      case Null => Failure(NullValue("results"))
      case Present(frags) => Success(TopicTags(frags))
  }

  /** The chapter names are the chapter indices written in decimal: reading a name back gives
      its position, so no two chapter tags share a name. */
  lemma ChapterNamesIdentify(resp: Response)
    requires ParseChapters(resp).Success?
    ensures var tags := ParseChapters(resp).value;
      && (forall k :: 0 <= k < |tags| ==> tags[k].name.Some? && AllDigits(tags[k].name.value)
                                           && Value(tags[k].name.value) == k)
      && (forall j, k :: 0 <= j < k < |tags| ==> tags[j].name != tags[k].name)
  {
    var tags := ParseChapters(resp).value;
    forall k | 0 <= k < |tags|
      ensures Value(Decimal(k)) == k
    {
      DecimalRoundTrip(k);
    }
    forall j, k | 0 <= j < k < |tags|
      ensures tags[j].name != tags[k].name
    {
      DecimalInjective(j, k);
    }
  }
}

/**
 `AssemblyAIBlockifier` of src/api.py: the mime-type allow-list, the tag-building part of
 `run` (with its own nested speaker/timestamp loop), and the static `_parse_*` methods.
 The S3 upload, the presigned URL and the transcription request are left out; the wait
 loop is modelled by module Polling.
 */
module Api {
  import opened Wrappers
  import opened Transcript
  import opened Offsets
  import opened Seqs
  import opened Tags
  import opened Rules
  import opened Polling

  /** The configuration fields the modelled code reads. */
  datatype Config = Config(speakerDetection: bool, maxRetries: int)

  /** The output block: the reply's `text` verbatim and the tags. */
  datatype Block = Block(text: Option<string>, tags: seq<Tag>)

  /** `SUPPORTED_MIME_TYPES`; the framework's MP3 and WAV constants are audio/mp3 and audio/wav. */
  const SupportedMimeTypes: seq<string> :=
    ["audio/mp3", "audio/wav", "video/mp4", "audio/mp4", "audio/webm", "video/webm"]

  /** Every accepted type is an audio or video type with a non-empty subtype, which `run`
      takes as the uploaded file's extension. */
  predicate IsSupported(mime: string): (b: bool)
    ensures b ==> 6 < |mime| && (mime[..6] == "audio/" || mime[..6] == "video/")
  {
    mime in SupportedMimeTypes
  }

  // ---------------------------------------------------------------- the static _parse_* methods

  function ParseEntities(resp: Response): (r: Result<seq<Tag>, Error>)
    ensures resp.entities.Absent? ==> r == Success([])
    ensures resp.entities.Null? ==> r == Failure(NullValue("entities"))
    ensures resp.entities.Present? ==> r.Success? && AreEntityTags(r.value, resp.entities.value)
    ensures r.Success? ==> Uniform(r.value, Entities)
  {
    if resp.entities.Absent? then Success([])
    else if resp.entities.Null? then Failure(NullValue("entities"))
    else
      var entities := resp.entities.value;
      Success(EntityTags(entities))
  }

  /** `_parse_chapters` builds the same tags as `parse_chapters` but gives them no name. */
  function ParseChapters(resp: Response): (r: Result<seq<Tag>, Error>)
    ensures resp.chapters.Absent? ==> r == Success([])
    ensures resp.chapters.Null? ==> r == Failure(NullValue("chapters"))
    ensures resp.chapters.Present? ==> r.Success? && AreChapterTags(r.value, resp.chapters.value)
    ensures r.Success? ==> Uniform(r.value, Kind.Chapter)
    ensures r.Success? ==> forall k :: 0 <= k < |r.value| ==> r.value[k].name == None
  {
    if resp.chapters.Absent? then Success([])
    else if resp.chapters.Null? then Failure(NullValue("chapters"))
    else
      var chapters := resp.chapters.value;
      Success(seq(|chapters|, k requires 0 <= k < |chapters| => ChapterTag(chapters[k], None)))
  }

  function ParseSentiments(resp: Response): (r: Result<seq<Tag>, Error>)
    ensures resp.sentimentAnalysisResults.Absent? ==> r == Success([])
    ensures resp.sentimentAnalysisResults.Null? ==> r == Failure(NullValue("sentiment_analysis_results"))
    ensures resp.sentimentAnalysisResults.Present? ==>
      r.Success? && AreSentimentTags(r.value, resp.sentimentAnalysisResults.value)
    ensures r.Success? ==> Uniform(r.value, Sentiments)
  {
    if resp.sentimentAnalysisResults.Absent? then Success([])
    else if resp.sentimentAnalysisResults.Null? then Failure(NullValue("sentiment_analysis_results"))
    else
      var results := resp.sentimentAnalysisResults.value;
      Success(SentimentTags(results))
  }

  function ParseSummary(resp: Response): (r: Result<seq<Tag>, Error>)
    ensures resp.iabCategoriesResult.Absent? ==> r == Success([])
    ensures resp.iabCategoriesResult.Null? ==> r == Failure(NullValue("iab_categories_result"))
    ensures resp.iabCategoriesResult.Present? && resp.iabCategoriesResult.value.summary.Absent? ==>
      r == Success([])
    ensures resp.iabCategoriesResult.Present? && resp.iabCategoriesResult.value.summary.Null? ==>
      r == Failure(NullValue("summary"))
    ensures resp.iabCategoriesResult.Present? && resp.iabCategoriesResult.value.summary.Present? ==>
      r.Success? && AreSummaryTags(r.value, resp.iabCategoriesResult.value.summary.value)
    ensures r.Success? ==> Uniform(r.value, TopicSummary)
  {
    match resp.iabCategoriesResult
    case Absent => Success([])
    case Null => Failure(NullValue("iab_categories_result"))
    case Present(iab) =>
      if iab.summary.Absent? then Success([])
      else if iab.summary.Null? then Failure(NullValue("summary"))
      else
        var summary := iab.summary.value;
        Success(SummaryTags(summary))
  }

  function ParseTopics(resp: Response): (r: Result<seq<Tag>, Error>)
    ensures resp.iabCategoriesResult.Absent? ==> r == Success([])
    ensures resp.iabCategoriesResult.Null? ==> r == Failure(NullValue("iab_categories_result"))
    ensures resp.iabCategoriesResult.Present? && resp.iabCategoriesResult.value.results.Absent? ==>
      r == Success([])
    ensures resp.iabCategoriesResult.Present? && resp.iabCategoriesResult.value.results.Null? ==>
      r == Failure(NullValue("results"))
    ensures resp.iabCategoriesResult.Present? && resp.iabCategoriesResult.value.results.Present? ==>
      r.Success? && AreTopicTags(r.value, resp.iabCategoriesResult.value.results.value)
    ensures r.Success? ==> Uniform(r.value, Topic)
  {
    match resp.iabCategoriesResult
    case Absent => Success([])
    case Null => Failure(NullValue("iab_categories_result"))
    case Present(iab) =>
      if iab.results.Absent? then Success([])
      else if iab.results.Null? then Failure(NullValue("results"))
      else
        var topics := iab.results.value;
        Success(TopicTags(topics))
  }

  // ---------------------------------------------------------------- the nested speaker/timestamp loop

  /** The word tags `run` emits after utterance `u`'s speaker tag: the word cursor restarts
      at 0, each tag is named by the utterance's speaker and has no value. */
  function UtteranceWordTags(u: Utterance): seq<Tag> {
    var spans := Layout(WordTexts(u.words), 0);
    seq(|u.words|, k requires 0 <= k < |u.words| =>
      Tag(Timestamp, Some(u.speaker), None, Some(spans[k].start), Some(spans[k].end)))
  }

  /** One utterance's contribution: its speaker tag, then its word tags. */
  function UtteranceGroups(us: seq<Utterance>): seq<seq<Tag>> {
    var spans := Layout(UtteranceTexts(us), 0);
    seq(|us|, i requires 0 <= i < |us| => [SpeakerTag(us[i], spans[i])] + UtteranceWordTags(us[i]))
  }

  function NestedSpeakerTags(us: seq<Utterance>): seq<Tag> {
    Flatten(UtteranceGroups(us))
  }

  /** Where utterance `i`'s speaker tag lands: after one speaker tag and the word tags of
      each earlier utterance. */
  function GroupStart(us: seq<Utterance>, i: nat): nat
    requires i <= |us|
  {
    if i == 0 then 0 else GroupStart(us, i - 1) + 1 + |us[i - 1].words|
  }

  /** Word tag `k` of utterance `i`: a timestamp named by the utterance's speaker, with no
      value, covering the word in the pseudo-text of that utterance's words only. */
  predicate IsNestedWordTagFor(t: Tag, us: seq<Utterance>, i: nat, k: nat)
    requires i < |us| && k < |us[i].words|
  {
    && t.kind == Timestamp
    && t.name == Some(us[i].speaker)
    && t.value == None
    && CoversFragment(t, WordTexts(us[i].words), k)
  }

  predicate SpeakerTagAtGroup(tags: seq<Tag>, us: seq<Utterance>, i: nat)
    requires i < |us|
  {
    GroupStart(us, i) < |tags| && IsSpeakerTagFor(tags[GroupStart(us, i)], us, i)
  }

  predicate WordTagAtGroup(tags: seq<Tag>, us: seq<Utterance>, i: nat, k: nat)
    requires i < |us| && k < |us[i].words|
  {
    GroupStart(us, i) + 1 + k < |tags| && IsNestedWordTagFor(tags[GroupStart(us, i) + 1 + k], us, i, k)
  }

  /** Speaker and timestamp tags interleave: each utterance's speaker tag is immediately
      followed by exactly its word tags. */
  predicate AreNestedTags(tags: seq<Tag>, us: seq<Utterance>) {
    && |tags| == GroupStart(us, |us|)
    && (forall i :: 0 <= i < |us| ==> SpeakerTagAtGroup(tags, us, i))
    && (forall i, k :: 0 <= i < |us| && 0 <= k < |us[i].words| ==> WordTagAtGroup(tags, us, i, k))
    && (forall n :: 0 <= n < |tags| ==> (tags[n].kind == Speaker || tags[n].kind == Timestamp) && WellFormed(tags[n]))
  }

  lemma {:induction false} GroupsBefore(us: seq<Utterance>, i: nat)
    requires i <= |us|
    ensures Before(UtteranceGroups(us), i) == GroupStart(us, i)
  {
    if i > 0 {
      GroupsBefore(us, i - 1);
    }
  }

  lemma NestedSpeakerAt(us: seq<Utterance>, i: nat)
    requires i < |us|
    ensures SpeakerTagAtGroup(NestedSpeakerTags(us), us, i)
  {
    var groups := UtteranceGroups(us);
    GroupsBefore(us, i);
    FlattenAt(groups, i, 0);
    LayoutClosedForm(UtteranceTexts(us), 0, i);
  }

  lemma NestedWordAt(us: seq<Utterance>, i: nat, k: nat)
    requires i < |us| && k < |us[i].words|
    ensures WordTagAtGroup(NestedSpeakerTags(us), us, i, k)
  {
    var groups := UtteranceGroups(us);
    GroupsBefore(us, i);
    FlattenAt(groups, i, 1 + k);
    assert groups[i][1 + k] == UtteranceWordTags(us[i])[k];
    LayoutClosedForm(WordTexts(us[i].words), 0, k);
  }

  lemma NestedMember(us: seq<Utterance>, t: Tag)
    requires t in NestedSpeakerTags(us)
    ensures (t.kind == Speaker || t.kind == Timestamp) && WellFormed(t)
  {
    var groups := UtteranceGroups(us);
    FlattenMembers(groups, t);
    var i :| 0 <= i < |groups| && t in groups[i];
    LayoutClosedForm(UtteranceTexts(us), 0, i);
    if t != groups[i][0] {
      var k :| 0 <= k < |us[i].words| && t == UtteranceWordTags(us[i])[k];
      LayoutClosedForm(WordTexts(us[i].words), 0, k);
    }
  }

  /** The nested loop of `run` (lines 158-182) produces the interleaved layout. */
  lemma NestedTagsShape(us: seq<Utterance>)
    ensures AreNestedTags(NestedSpeakerTags(us), us)
  {
    var tags := NestedSpeakerTags(us);
    FlattenLength(UtteranceGroups(us));
    GroupsBefore(us, |us|);
    forall i | 0 <= i < |us| ensures SpeakerTagAtGroup(tags, us, i) {
      NestedSpeakerAt(us, i);
    }
    forall i, k | 0 <= i < |us| && 0 <= k < |us[i].words| ensures WordTagAtGroup(tags, us, i, k) {
      NestedWordAt(us, i, k);
    }
    forall n | 0 <= n < |tags|
      ensures (tags[n].kind == Speaker || tags[n].kind == Timestamp) && WellFormed(tags[n])
    {
      NestedMember(us, tags[n]);
    }
  }

  /** The speaker section of `run`: nothing when speaker detection is off, otherwise an
      unguarded `transcription_response["utterances"]` followed by the nested loop. */
  function SpeakerSection(resp: Response, speakerDetection: bool): (r: Result<seq<Tag>, Error>)
    ensures !speakerDetection ==> r == Success([])
    ensures speakerDetection && resp.utterances.Absent? ==> r == Failure(KeyMissing("utterances"))
    ensures speakerDetection && resp.utterances.Null? ==> r == Failure(NullValue("utterances"))
    ensures speakerDetection && resp.utterances.Present? ==>
      r.Success? && AreNestedTags(r.value, resp.utterances.value)
  {
    if !speakerDetection then Success([])
    else
      match resp.utterances
      case Absent => Failure(KeyMissing("utterances"))
      case Null => Failure(NullValue("utterances"))
      case Present(us) =>
        NestedTagsShape(us);
        Success(NestedSpeakerTags(us))
  }

  // ---------------------------------------------------------------- run

  /** The tag list of `run`: speaker/timestamp, topics, summary, sentiments, chapters,
      entities, in that order; the first section that raises aborts the whole run. */
  function BuildTags(resp: Response, speakerDetection: bool): (r: Result<seq<Tag>, Error>)
    ensures r.Success? <==>
      && SpeakerSection(resp, speakerDetection).Success? && ParseTopics(resp).Success?
      && ParseSummary(resp).Success? && ParseSentiments(resp).Success?
      && ParseChapters(resp).Success? && ParseEntities(resp).Success?
    ensures r.Success? ==>
      |r.value| == |SpeakerSection(resp, speakerDetection).value| + |ParseTopics(resp).value|
                 + |ParseSummary(resp).value| + |ParseSentiments(resp).value|
                 + |ParseChapters(resp).value| + |ParseEntities(resp).value|
  {
    var speakers :- SpeakerSection(resp, speakerDetection);
    var topics :- ParseTopics(resp);
    var summary :- ParseSummary(resp);
    var sentiments :- ParseSentiments(resp);
    var chapters :- ParseChapters(resp);
    var entities :- ParseEntities(resp);
    Success(speakers + topics + summary + sentiments + chapters + entities)
  }

  /** `transcription_response["text"]`: a KeyError when absent, None when null. */
  function BlockText(resp: Response): (r: Result<Option<string>, Error>)
    ensures resp.text.Absent? <==> r == Failure(KeyMissing("text"))
    ensures resp.text.Null? <==> r == Success(None)
    ensures resp.text.Present? ==> r == Success(Some(resp.text.value))
  {
    match resp.text
    case Absent => Failure(KeyMissing("text"))
    case Null => Success(None)
    case Present(s) => Success(Some(s))
  }

  /** The single block `run` returns for a completed transcription. */
  function MakeBlock(resp: Response, speakerDetection: bool): (r: Result<Block, Error>)
    ensures r.Success? <==> BuildTags(resp, speakerDetection).Success? && !resp.text.Absent?
    ensures r.Success? ==> r.value.tags == BuildTags(resp, speakerDetection).value
    ensures r.Success? && resp.text.Present? ==> r.value.text == Some(resp.text.value)
    ensures r.Success? && resp.text.Null? ==> r.value.text == None
  {
    var tags :- BuildTags(resp, speakerDetection);
    var text :- BlockText(resp);
    Success(Block(text, tags))
  }

  /**
   `run`: reject an unsupported mime type before anything is uploaded, then (upload and
   request left out) wait for the transcript and turn it into one block; a wait that
   returns None makes `run` raise. `uploaded` records whether the upload step was reached.
   */
  method Run(config: Config, mime: string, poll: nat -> Response)
    returns (r: Result<Block, Error>, uploaded: bool, polls: nat)
    ensures uploaded <==> IsSupported(mime)
    ensures !IsSupported(mime) ==> r == Failure(UnsupportedMimeType(mime)) && polls == 0
    ensures polls <= Budget(config.maxRetries)
    ensures r.Success? ==>
      0 < polls && poll(polls - 1).status == Completed && r == MakeBlock(poll(polls - 1), config.speakerDetection)
    ensures IsSupported(mime) && config.maxRetries <= 0 ==> r == Failure(TranscriptionUnsuccessful)
    ensures IsSupported(mime) ==>
      ((forall k :: 0 <= k < config.maxRetries ==> !(FirstTerminalAt(poll, k) && poll(k).status == Completed))
       <==> r == Failure(TranscriptionUnsuccessful))
    ensures IsSupported(mime) ==> forall j :: 0 <= j < polls - 1 ==> !IsTerminal(poll(j).status)
    ensures IsSupported(mime) && polls < Budget(config.maxRetries) ==> 0 < polls && IsTerminal(poll(polls - 1).status)
    ensures IsSupported(mime) && r != Failure(TranscriptionUnsuccessful) ==>
      0 < polls && poll(polls - 1).status == Completed && r == MakeBlock(poll(polls - 1), config.speakerDetection)
  {
    if !IsSupported(mime) {
      return Failure(UnsupportedMimeType(mime)), false, 0;
    }
    uploaded := true;
    var transcription;
    transcription, polls := WaitForTranscript(config.maxRetries, poll);
    if transcription.Some? {
      r := MakeBlock(transcription.value, config.speakerDetection);
      assert r != Failure(TranscriptionUnsuccessful);
    } else {
      r := Failure(TranscriptionUnsuccessful);
    }
  }
}

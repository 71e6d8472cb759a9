# AssemblyAI speech-to-text blockifier: tag mapping, in Dafny

This project models the part of the AssemblyAI blockifier that decides things. It covers:

- the mime-type allow-list check;
- the decision logic of the loop that waits for a transcript;
- the mapping from the transcription service's JSON reply to one block of tags. The block holds the transcript text plus speaker, timestamp, topic, topic-summary, sentiment, chapter and entity tags.

Both implementations of that mapping are modelled:

- the standalone parsers of `src/parsers.py`;
- the `run` method and the static `_parse_*` methods of `src/api.py`.

## How the model is organised

- **Reply.** `Transcript` holds the reply. Every top-level key the code reads is a `Field`: `Absent`, `Null` or `Present(value)`. The source treats the three cases differently:
  - a key guarded by an `in` test yields no tags when absent;
  - `or []` also turns `null` into no tags;
  - iterating over `null`, or calling `.items()` on it, raises (error `NullValue(key)`);
  - an unguarded `[...]` on a missing key raises (error `KeyMissing(key)`).
- **Offsets.** `Offsets` is the shared offset scheme. Each fragment gets the span `[cursor, cursor + len)` and the cursor then moves `len + 1`.
  - `Layout` is the fold the code performs.
  - `Offset` is an independent closed form: the sum of `len + 1` over the earlier fragments.
  - `Join` is the pseudo-text the spans index into, namely the fragments joined by single spaces.
- **Tags.** `Tags` holds the tag record, the offset invariant `WellFormed`, the kind filter `OfKind` and the category order `Rank`.
- **Rules.** `Rules` builds one tag per fragment for each kind. It also has a shape predicate per kind (`AreSpeakerTags`, `AreTopicTags`, …) that states name, value and offsets against the closed form.
- **Implementations.** `Parsers` and `Api` are the two implementations. `Api.SpeakerSection` is `run`'s own nested speaker/word loop, and `Api.BuildTags` / `Api.MakeBlock` / `Api.Run` are the rest of `run`.
- **Wait loop.** `Polling.WaitForTranscript` is the wait loop. It is written over `poll: nat -> Response`, the reply to the n-th status request.
- **Properties.** `BlockFacts`, `Anchoring` and `Divergence` state properties of the output:
  - category order and the offset invariant;
  - which section each kind comes from;
  - that spans locate their fragments in the joined pseudo-text;
  - how `run` differs from the standalone parsers.

  `Scenarios` gives concrete replies:
  - `Scenarios.OneUtterance`: the 21-character text "Hello there. Goodbye." gets the span [0, 21);
  - `Scenarios.OnlyText`: a reply holding only `text` gives no tags with speaker detection off, and a KeyError on `utterances` with it on (the default).

## Model

| member | source | states |
|---|---|---|
| Parsers.ParseSpeakerTags | src/parsers.py:5-21 | an absent or null `utterances` gives no tags and never raises; otherwise one speaker tag per utterance, in order, named by the speaker, with no value, covering the utterance's text in the joined pseudo-text |
| Parsers.ParseTimestamps | src/parsers.py:24-40 | a missing `words` key raises KeyError and a null one raises; otherwise one timestamp tag per word, named by the word, valued with its start and end times, covering the word in all words joined by spaces |
| Parsers.ParseEntities | src/parsers.py:43-57 | absent key gives no tags, null raises; otherwise one unanchored tag per entity, named by its type, valued with its text |
| Parsers.ParseChapters | src/parsers.py:60-80 | absent key gives no tags, null raises; otherwise one unanchored tag per chapter valued with summary, headline, gist and the times renamed start_time/end_time, tag k named by k in decimal |
| Parsers.ChapterNamesIdentify | src/parsers.py:64-68 | every chapter name is a string of digits whose value is the chapter's index, so no two chapter tags share a name |
| Parsers.ParseSentiments | src/parsers.py:83-100 | absent key gives no tags, null raises; otherwise one tag per result, named by the sentiment label, valued with its text and confidence, covering its text |
| Parsers.ParseSummary | src/parsers.py:103-118 | absent `iab_categories_result` or absent `summary` gives no tags; null in either place raises; otherwise one unanchored tag per summary item in iteration order, named by the topic, valued with its relevance |
| Parsers.ParseTopics | src/parsers.py:121-143 | the same guards on `results`; otherwise label k of fragment i becomes the tag at position (labels of earlier fragments) + k, named by the label, valued with the fragment text and label relevance, covering the fragment text |
| Rules.SpeakerTags | src/parsers.py:9-20 | the speaker loop's output has one tag per utterance at the closed-form offsets, all speaker tags satisfying the offset invariant |
| Rules.TimestampTags | src/parsers.py:27-39 | the word loop's output has one tag per word at the closed-form offsets, all well-formed timestamp tags |
| Rules.SentimentTags | src/parsers.py:87-99 | the sentiment loop's output has one tag per result at the closed-form offsets, all well-formed |
| Rules.TopicTags | src/parsers.py:125-141 | the nested fragment/label loop emits one tag per label and all labels of a fragment share that fragment's span; the cursor moves once per fragment |
| Rules.TopicTagAt | src/parsers.py:126-141 | the tag for label k of fragment i sits at (labels of earlier fragments) + k and carries that label and that fragment's span |
| Rules.SummaryTags | src/parsers.py:108-117 | one unanchored topic-summary tag per item, in order |
| Rules.EntityTags | src/parsers.py:47-56 | one unanchored entity tag per entity, in order |
| Offsets.LayoutClosedForm | src/parsers.py:9-20 | the cursor fold places fragment i at the cursor plus the sum of (length + 1) over the earlier fragments, with width equal to its length |
| Offsets.LayoutContiguous | src/parsers.py:15-20 | spans start at the cursor, are as wide as their fragments, and consecutive spans leave exactly one position between them |
| Offsets.JoinLength | src/parsers.py:15-20 | the space-joined pseudo-text ends exactly where the last span ends |
| Offsets.JoinLocates | src/parsers.py:15-20 | the span of fragment i cuts exactly fragment i out of the space-joined pseudo-text and a space follows it unless it is last |
| Numerals.DecimalRoundTrip | src/parsers.py:68 | reading back the decimal name `f"{ix}"` gives ix |
| Numerals.DecimalInjective | src/parsers.py:68 | distinct indices get distinct decimal names |
| Polling.WaitForTranscript | src/api.py:101-120 | at most max_retries polls (none when it is 0 or less); every poll before the last is non-terminal; stopping early means the last poll was `completed` or `error`; the reply is returned exactly when the first terminal status within the budget is `completed` |
| Api.Run | src/api.py:122-211 | an unsupported mime type raises before anything is uploaded or polled; otherwise the block is built from the completed reply, and the run fails as unsuccessful exactly when no completed first-terminal reply arrives within the budget |
| Api.IsSupported | src/api.py:49-56 | every accepted mime type is an audio or video type with a non-empty subtype, the part `run` uses as the file extension |
| Api.BuildTags | src/api.py:153-193 | the tag list exists exactly when all six sections succeed, and its length is the sum of the sections' lengths |
| Api.MakeBlock | src/api.py:195-203 | a block exists exactly when the tags succeed and the reply has a `text` key; it carries the tag list and the reply's text verbatim, None when null |
| Api.ParseEntities | src/api.py:213-228 | same contract as the standalone entity parser |
| Api.ParseChapters | src/api.py:230-250 | same as the standalone chapter parser except that every tag has no name |
| Api.ParseSentiments | src/api.py:252-270 | same contract as the standalone sentiment parser |
| Api.ParseSummary | src/api.py:272-287 | same contract as the standalone summary parser |
| Api.ParseTopics | src/api.py:289-312 | same contract as the standalone topic parser |
| Api.SpeakerSection | src/api.py:156-182 | no speaker tags with speaker detection off; with it on, a missing `utterances` raises KeyError and a null one raises; otherwise the interleaved speaker/word layout |
| Api.NestedTagsShape | src/api.py:158-182 | each utterance's speaker tag is immediately followed by exactly its word tags; word tags restart at 0 per utterance, are named by the speaker and carry no value |
| Api.NestedSpeakerAt | src/api.py:158-168 | utterance i's speaker tag sits after the speaker and word tags of the earlier utterances and covers its text at the utterance cursor |
| Api.NestedWordAt | src/api.py:170-182 | word k of utterance i sits right after that utterance's speaker tag and earlier words and covers the word within that utterance's words |
| Api.NestedMember | src/api.py:158-182 | every tag of the nested loop is a speaker or timestamp tag satisfying the offset invariant |
| Api.BlockText | src/api.py:200 | the block text is the reply's `text` verbatim, None when null, and a missing key raises KeyError |
| BlockFacts.BuildTagsParts | src/api.py:153-193 | a successful run concatenates speaker/timestamp, topic, summary, sentiment, chapter and entity sections in that order |
| BlockFacts.BuildTagsFailsFirst | src/api.py:153-193 | the run raises exactly when some section raises, with the error of the first section that raises |
| BlockFacts.MakeBlockFails | src/api.py:185-203 | a block is produced exactly when every section succeeds and the reply has a `text` key; section errors come first |
| BlockFacts.TagsInCategoryOrder | src/api.py:156-193 | the block's tags are ordered by category: speaker/timestamp, topic, topic summary, sentiments, chapter, entities |
| BlockFacts.TagsWellFormed | src/api.py:153-193 | every tag of the block has 0 <= start <= end when anchored and no offsets when document-level |
| BlockFacts.TagsByKind | src/api.py:153-193 | selecting one kind from the block gives exactly that kind's section output |
| BlockFacts.NoSpeakerTagsWithoutDetection | src/api.py:156 | with speaker detection off the block holds no speaker or timestamp tags |
| BlockFacts.BlockTextVerbatim | src/api.py:195-203 | the block's text is the reply's text, unchanged, and its tags are the run's tag list |
| Anchoring.SpeakerTagsLocate | src/parsers.py:9-20 | each speaker tag's offsets cut its utterance's text out of the utterances joined by spaces |
| Anchoring.SpeakerTagsAdjacent | src/parsers.py:15-20 | consecutive speaker tags are exactly one separator apart |
| Anchoring.TimestampTagsLocate | src/parsers.py:27-39 | each timestamp tag's offsets cut its word out of the words joined by spaces |
| Anchoring.SentimentTagsLocate | src/parsers.py:87-99 | each sentiment tag's offsets cut its result's text out of the result texts joined by spaces |
| Anchoring.TopicTagsLocate | src/parsers.py:125-141 | each label tag's offsets cut its fragment's text out of the fragment texts joined by spaces |
| Anchoring.NestedWordTagsLocate | src/api.py:170-182 | in the nested loop a word tag's offsets locate the word only within its own utterance's words |
| Divergence.SharedParsersAgree | src/api.py:213-312 | for entities, sentiments, topic summary and topics the static methods and the standalone parsers give the same result on every reply |
| Divergence.ChapterNamesDiffer | src/api.py:230-250 | both chapter rules fail together with the same error; on success tag k differs only in its name, decimal k against none |
| Divergence.SpeakerGuardDiffers | src/api.py:156-157 | where the parser returns no speaker tags for a missing or null `utterances`, the run with speaker detection raises |
| Divergence.NestedSpeakerFilter | src/api.py:158-182 | removing the interleaved timestamps from the nested loop leaves exactly the standalone parser's speaker tags |
| Divergence.RunSpeakersMatchParser | src/api.py:153-193 | the speaker tags of a run's block equal the standalone parser's speaker tags for the same reply |
| Divergence.TimestampRulesDiffer | src/api.py:170-182 | for two one-word utterances the flat parser puts the second word at [3, 5), named by the word and valued with its times, while the nested loop puts it at [0, 2), named by the speaker and with no value |
| Scenarios.OneUtterance | src/parsers.py:5-21 | one utterance "Hello there. Goodbye." by speaker A gives one speaker tag over [0, 21) |
| Scenarios.TwoSentiments | src/parsers.py:83-100 | results "Good" and "Bad" give spans [0, 4) and [5, 8) |
| Scenarios.TwoSummaryTopics | src/parsers.py:103-118 | summary {Sports, Music} gives two unanchored tags in that order |
| Scenarios.OnlyText | src/api.py:153-203 | a reply with only `text` gives a block with that text and no tags when speaker detection is off, and a KeyError on `utterances` when it is on |

## Left out

- Uploading to S3, the presigned URL and the time/uuid object key are left out. They are I/O whose results only feed the transcription request.
- The HTTP requests are left out: the initial POST, the transcript id and the status GETs. Poll replies are a parameter of the model.
- The sleep between polls and the logging are left out. They do not change any result.
- The plugin request/response envelopes of the framework and `create_handler` are left out. They are framework glue.
- Credentials, `enable_audio_intelligence` and `retry_timeout` are left out. They only shape the transcription request or the sleep between polls, never the tags.
- `language_code` is left out. It is declared in the configuration but never read; the request always asks for language detection.
- Missing or null values inside list entries are left out. Entries are typed records that carry a non-null value for every field the code reads, which excludes two different behaviours:
  - A missing field, or a null field that the code iterates over or measures, raises. Examples: an utterance without `text`, a label without `relevance`, a null `text` whose `len` is taken, a null `words` list in an utterance. The model does not include that KeyError or TypeError.
  - A null scalar field that is only copied does not raise. It reaches the tag as a None name or value. Examples: a null `speaker`, `entity_type`, entity `text`, `confidence` or `relevance`. The model has no such tags.
- A poll reply without `status` is left out. Every reply carries one, so `if transcription_response:` is modelled as "a reply was returned".
- Times, confidences and relevances are Python floats. Here they are `real`, only copied and never computed on.
- Lengths are counted in Dafny characters (Unicode scalar values), while Python's `len` counts code points. The two counts can differ only on strings holding lone surrogates.
- The topic summary mapping is given as its list of (topic, relevance) items in iteration order. The model does not enforce that topics are distinct.
- The test files are not modelled. They drive a live service.

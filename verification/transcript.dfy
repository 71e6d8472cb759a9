/**
 The transcription service's JSON reply, as the tag mapper reads it.

 Only the top-level keys the mapper looks up are optional: each is absent, present
 with `null`, or present with a value, because the source treats those three cases
 differently. The records inside the lists always carry the fields they are read for.
 Numbers (times, relevance, confidence) are only copied, never computed on.
 */
module Transcript {

  /** One top-level key of a JSON object. */
  datatype Field<+T> = Absent | Null | Present(value: T)

  datatype Word = Word(text: string, start: real, end: real)

  datatype Utterance = Utterance(text: string, speaker: string, words: seq<Word>)

  datatype Entity = Entity(entityType: string, text: string)

  datatype Chapter = Chapter(summary: string, headline: string, gist: string, start: real, end: real)

  datatype SentimentResult = SentimentResult(text: string, sentiment: string, confidence: real)

  /** One entry of a fragment's `labels` list; `name` holds its `label` key. */
  datatype Label = Label(name: string, relevance: real)

  datatype TopicFragment = TopicFragment(text: string, labels: seq<Label>)

  /** The `iab_categories_result` object. Its `summary` mapping is kept as the list of
      its (topic, relevance) items in iteration order. */
  datatype IabCategories = IabCategories(
    summary: Field<seq<(string, real)>>,
    results: Field<seq<TopicFragment>>)

  /** A reply of the transcript endpoint: the job status and whatever results it carries. */
  datatype Response = Response(
    status: string,
    text: Field<string>,
    utterances: Field<seq<Utterance>>,
    words: Field<seq<Word>>,
    entities: Field<seq<Entity>>,
    chapters: Field<seq<Chapter>>,
    sentimentAnalysisResults: Field<seq<SentimentResult>>,
    iabCategoriesResult: Field<IabCategories>)

  /** What the blockifier raises. */
  datatype Error =
    | KeyMissing(key: string)          // a KeyError on an unguarded lookup
    | NullValue(key: string)           // a TypeError or AttributeError from using a null value
    | UnsupportedMimeType(mime: string)
    | TranscriptionUnsuccessful        // the poll loop returned None

  function UtteranceTexts(us: seq<Utterance>): seq<string>
  {
    seq(|us|, i requires 0 <= i < |us| => us[i].text)
  }

  function WordTexts(ws: seq<Word>): seq<string>
  {
    seq(|ws|, i requires 0 <= i < |ws| => ws[i].text)
  }

  function SentimentTexts(ss: seq<SentimentResult>): seq<string>
  {
    seq(|ss|, i requires 0 <= i < |ss| => ss[i].text)
  }

  function FragmentTexts(fs: seq<TopicFragment>): seq<string>
  {
    seq(|fs|, i requires 0 <= i < |fs| => fs[i].text)
  }
}

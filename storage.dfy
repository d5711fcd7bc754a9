/**
  Browser local storage as the components use it: a key-value store whose
  values are whole lists, written with `setItem` and dropped with
  `removeItem`. JSON serialisation is not modelled, so a stored value is the
  typed list itself.
*/
module Storage {
  import opened Types

  /** What a key can hold: one constructor per persisted list. */
  datatype Value =
    | MoodEntries(moods: seq<MoodEntry>)
    | DiaryEntries(diary: seq<DiaryEntry>)
    | TestResults(results: seq<TestResult>)
    | CompletedStrategies(completed: seq<CompletedStrategy>)
    | Transcripts(messages: seq<Message>)

  const MoodKey: string := "mindfull-entries"
  const DiaryKey: string := "mindally-diary"
  const TestResultsKey: string := "mindally-test-results"
  const StrategiesKey: string := "mindally-completed-strategies"
  const TranscriptsKey: string := "mindally-transcripts"

  class LocalStorage {
    var items: map<string, Value>

    /** A page opened on whatever the browser has kept under each key. */
    constructor (saved: map<string, Value>)
      ensures items == saved
    {
      items := saved;
    }

    method SetItem(key: string, value: Value)
      modifies this
      ensures items == old(items)[key := value]
    {
      items := items[key := value];
    }

    method RemoveItem(key: string)
      modifies this
      ensures items == old(items) - {key}
      ensures key !in items
    {
      items := items - {key};
    }
  }
}

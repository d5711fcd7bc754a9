/**
  The records the app keeps, as in src/types.ts, together with the record
  types that Diary.tsx, Transcripts.tsx and CopingStrategies.tsx declare for
  themselves. Ids and timestamps are opaque strings.
*/
module Types {
  import opened Wrappers

  /** The closed five-value mood scale of a MoodEntry. */
  datatype Mood = Great | Good | Okay | Bad | Terrible

  datatype MoodEntry = MoodEntry(id: string, date: string, mood: Mood, journal: Option<string>)

  /** A mood entry before the store gives it an id (`Omit<MoodEntry, 'id'>`). */
  datatype MoodDraft = MoodDraft(date: string, mood: Mood, journal: Option<string>)

  /** An answer choice; `labelText` is the source's `label` (a reserved word in Dafny). */
  datatype AnswerOption = AnswerOption(value: int, labelText: string)

  datatype Question = Question(id: string, text: string, options: seq<AnswerOption>)

  /** One severity band of a questionnaire: `min` and `max` are both inclusive. */
  datatype Range = Range(min: int, max: int, severity: string, description: string)

  datatype Test = Test(
    id: string,
    name: string,
    description: string,
    timeToComplete: string,
    questions: seq<Question>,
    ranges: seq<Range>)

  datatype TestResult = TestResult(
    id: string,
    testId: string,
    date: string,
    score: int,
    severity: string,
    answers: map<string, int>)

  datatype DiaryEntry = DiaryEntry(id: string, content: string, emoji: string, timestamp: string)

  /** A transcript line; `sender` is whatever the widget sent, so it is not narrowed to 'user' | 'ai'. */
  datatype Message = Message(id: string, content: string, sender: string, timestamp: string)

  datatype CompletedStrategy = CompletedStrategy(id: string, lastCompleted: string)
}

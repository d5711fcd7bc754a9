# Wellness app state, modelled in Dafny

This project models the state-changing core of a client-side wellness web app. It covers six parts:

- the screening questionnaires (PHQ-9 and GAD-7): the answer map, score, severity band, completion guard and stored results;
- the diary;
- the transcript bridge, which turns chat-widget messages into a stored log;
- the coping-strategy checklist;
- the mood log;
- the mood form.

Every handler is one atomic step on a class. The class fields are the component's state cells. A shared `LocalStorage` object holds `items: map<string, Value>`, where each key holds one whole list. Fresh ids and timestamps are method parameters.

Modules follow the source files: `Tests`, `Diary`, `Transcripts`, `CopingStrategies`, `App` and `MoodTracker`. Shared modules:

- `Types`: the records of `src/types.ts`, plus the record types the components declare for themselves;
- `Storage`: the storage keys, the `Value` kinds and the `LocalStorage` class;
- `Seqs`: the JavaScript `find`, `some` and `filter`, written once;
- `Text`: ECMAScript `trim`;
- `Wrappers`: `Option`.

Each component class that reads and writes storage (`AssessmentSession`, `DiaryStore`, `TranscriptLog`, `StrategyTracker`, `MoodStore`) has a `Valid()` predicate. It says the in-memory list is what a reload of the storage key gives. Every handler keeps it, and every write changes only that component's key. `MoodStore` also keeps a ghost record of the entries loaded on mount and of those saved since, which `Valid()` ties to the log.

The diary's emoji palette (src/components/Diary.tsx:12) is kept as the strings the file holds. They are emoji whose UTF-8 bytes were read back as Windows-1254 text, so each saved entry's `emoji` field holds that garbled text, and so does the initial selection (src/components/Diary.tsx:17). `MoodTracker.MoodForm` holds form state only; it has no storage and no `Valid()`.

## Answers carry over between tests

`Back` (src/components/Tests.tsx:182) and "Take Test" (src/components/Tests.tsx:250) only change the selected test; neither clears the in-progress answers. The answers carry over only while the Tests panel stays open: switching to another view and back mounts the panel afresh, with no answers. Two facts make this visible:

- both tests use question ids "1" to "3";
- the score adds every value in the map (src/components/Tests.tsx:141).

`Tests.StaleAnswersScenario` proves the consequence. Answer every PHQ-9 question with 3, go back and open GAD-7. "Complete" is enabled at once, and the recorded GAD-7 result has score 15 ("Severe"), while GAD-7's own three answers add up to 9 ("Mild").

## Model

| member | source | states |
|---|---|---|
| `Tests.Score` | src/components/Tests.tsx:140-142 | the score of an empty answer map is 0 |
| `Tests.CalculateScore` | src/components/Tests.tsx:140-142 | the fold over the map's values returns the sum of every value in the map, in any order of keys |
| `Tests.ScoreAfterAnswer` | src/components/Tests.tsx:133-141 | recording an answer changes the score by the new value minus the value it replaces (0 if the question was unanswered) |
| `Tests.ScoreCountsEveryKey` | src/components/Tests.tsx:141 | the score is the sum over the test's own question ids plus the sum over all other keys in the map |
| `Tests.SumOverBounds` | src/components/Tests.tsx:16-21 | with option values 0 to 3, a sum over n answers lies between 0 and 3n |
| `Tests.SeverityIndex` | src/components/Tests.tsx:144-149 | the chosen band is the first in list order that holds the score; if none holds it, the chosen band is the first band |
| `Tests.GetSeverity` | src/components/Tests.tsx:144-149 | the result is one of the test's bands: when some band holds the score, a band holding it with no earlier band holding it; when none does, the first band |
| `Tests.SeverityIsTheOnlyBand` | src/components/Tests.tsx:144-149 | for contiguous bands, every score from the lowest minimum to the highest maximum lies in exactly one band, and that band is chosen |
| `Tests.CatalogBandsAreContiguous` | src/components/Tests.tsx:64-117 | PHQ-9 bands cover 0 to 27 and GAD-7 bands cover 0 to 21, each without gaps or overlaps |
| `Tests.Phq9SeverityExamples` | src/components/Tests.tsx:65-70 | on PHQ-9, 0 reads Minimal, 7 reads Mild and 20 reads Severe |
| `Tests.Gad7SeverityExamples` | src/components/Tests.tsx:111-116 | on GAD-7, 0 reads Minimal, 7 reads Mild and 20 reads Severe |
| `Tests.OutOfRangeFallsBackToFirst` | src/components/Tests.tsx:148 | a score below 0 or above the last band's maximum reads as the first band, Minimal |
| `Tests.CatalogScoreRange` | src/components/Tests.tsx:16-21 | an answer map whose keys are catalog question ids ("1" to "5") and whose values are option values (0 to 3) scores from 0 to 15 |
| `Tests.CatalogBandHolds` | src/components/Tests.tsx:65-70 | in both catalog tests, some band holds every score from 0 to 15, and that band is the one picked |
| `Tests.CatalogScoresStayInBands` | src/components/Tests.tsx:144-149 | for any answer map a session can build from the catalog, the picked band holds the score, so the fallback to the first band is never taken |
| `Tests.CatalogQuestionIds` | src/components/Tests.tsx:12-108 | PHQ-9 asks ids "1" to "5" and GAD-7 asks ids "1" to "3" |
| `Tests.CanComplete` | src/components/Tests.tsx:218-220 | the Complete button is enabled exactly when every question id of the test is a key of the answer map |
| `Tests.AssessmentSession.CompleteEnabled` | src/components/Tests.tsx:218-220 | the button is enabled exactly when a test is open and every one of its question ids is a key of the current answers |
| `Tests.AnsweredPhq9EnablesGad7` | src/components/Tests.tsx:79-101 | any answer map that enables Complete for PHQ-9 also enables it for GAD-7 |
| `Tests.LatestResult` | src/components/Tests.tsx:174-176 | returns nothing exactly when no result has the test id; otherwise returns the first result in list order with that test id |
| `Tests.LatestAfterPrepend` | src/components/Tests.tsx:166-176 | after a result is prepended, it is the latest for its own test, and every other test's latest result is unchanged |
| `Tests.CompletedResult` | src/components/Tests.tsx:157-164 | the record carries the fresh id, the open test's id, the time, the score of every answer in the map, the label of the first band holding the score, or of the first band when none holds it, and the answer map itself |
| `Tests.LoadResults` | src/components/Tests.tsx:126-131 | a missing key loads as no results; a stored list loads as itself |
| `Tests.AssessmentSession.constructor` | src/components/Tests.tsx:121-131 | on mount, no test is selected, there are no answers, and the results come from storage |
| `Tests.AssessmentSession.SelectTest` | src/components/Tests.tsx:250 | opens the test and keeps the answers and results as they were |
| `Tests.AssessmentSession.Back` | src/components/Tests.tsx:182 | closes the test and keeps the answers and results as they were |
| `Tests.AssessmentSession.HandleAnswer` | src/components/Tests.tsx:133-138 | the new value replaces only that question's answer, all other answers are kept, and the score moves accordingly |
| `Tests.AssessmentSession.HandleComplete` | src/components/Tests.tsx:151-172 | with no test open, nothing changes; otherwise one result (test id, score, band label, answers) is prepended, the same list is stored, and the selection and answers are cleared |
| `Tests.AssessmentSession.PressComplete` | src/components/Tests.tsx:218-220 | a click while the button is disabled changes nothing; otherwise it has the effect of `HandleComplete` |
| `Tests.StaleAnswersScenario` | src/components/Tests.tsx:133-250 | PHQ-9 answered all 3, then Back and GAD-7, gives a GAD-7 result with score 15 ("Severe"), while its own answers sum to 9 ("Mild") |
| `Text.Trim` | src/components/Diary.tsx:27 | the result is the slice of the text left after cutting a blank prefix and a blank suffix; it is empty exactly when the input is blank, and otherwise it neither starts nor ends with white space |
| `Diary.LoadDiary` | src/components/Diary.tsx:19-24 | a missing key loads as an empty diary; a stored list loads as itself |
| `Diary.WithoutEntry` | src/components/Diary.tsx:43 | keeps exactly the entries whose id differs from the given one |
| `Diary.DeleteAbsentIsNoOp` | src/components/Diary.tsx:43 | deleting an id that no entry has leaves the list identical |
| `Diary.DeleteKeepsOrder` | src/components/Diary.tsx:43 | deletion distributes over concatenation, so the surviving entries keep their relative order |
| `Diary.DeleteUndoesSave` | src/components/Diary.tsx:36-43 | deleting the fresh id of an entry just saved gives back the previous list |
| `Diary.DiaryStore.constructor` | src/components/Diary.tsx:14-24 | on mount, the draft is empty, the first palette emoji is selected, and the entries come from storage |
| `Diary.DiaryStore.EditDraft` | src/components/Diary.tsx:72 | sets the draft and changes nothing else |
| `Diary.DiaryStore.SelectEmoji` | src/components/Diary.tsx:60 | selects a palette emoji and changes nothing else |
| `Diary.DiaryStore.HandleSave` | src/components/Diary.tsx:26-40 | a blank draft changes nothing; otherwise one entry (the draft as typed, the selected emoji) is prepended, the list is stored, the draft is cleared and the emoji is kept |
| `Diary.DiaryStore.HandleDelete` | src/components/Diary.tsx:42-46 | the list becomes the entries with a different id, in order, and that list is stored |
| `Transcripts.LoadTranscripts` | src/components/Transcripts.tsx:15-20 | a missing key loads as an empty transcript; a stored list loads as itself |
| `Transcripts.ClearedReloadsEmpty` | src/components/Transcripts.tsx:49-52 | removing the key is a different stored state from storing an empty list, but both reload as empty |
| `Transcripts.TranscriptLog.constructor` | src/components/Transcripts.tsx:12-20 | on mount, the transcript comes from storage |
| `Transcripts.TranscriptLog.HandleMessage` | src/components/Transcripts.tsx:23-43 | an event from another origin, or one with a payload type other than "message", changes nothing; otherwise one line with the payload's content and sender copied verbatim is prepended and the list is stored |
| `Transcripts.TranscriptLog.ClearTranscripts` | src/components/Transcripts.tsx:49-52 | the transcript becomes empty and the key is removed, with no other key touched |
| `CopingStrategies.LoadCompleted` | src/components/CopingStrategies.tsx:37-42 | a missing key loads as no completed strategies; a stored list loads as itself |
| `CopingStrategies.IsCompleted` | src/components/CopingStrategies.tsx:73 | a strategy is completed exactly when some record has its id |
| `CopingStrategies.LastCompleted` | src/components/CopingStrategies.tsx:60-63 | returns nothing exactly when the strategy is not completed; otherwise returns the timestamp of the first record with its id |
| `CopingStrategies.OtherThan` | src/components/CopingStrategies.tsx:48 | keeps exactly the records of other strategies |
| `CopingStrategies.Toggle` | src/components/CopingStrategies.tsx:44-54 | flips whether the strategy is completed and leaves the records of other strategies identical and in order; a newly completed strategy gets one record at the end, stamped with the given time, which is then its last-completed time |
| `CopingStrategies.ToggleTwiceRestoresMembership` | src/components/CopingStrategies.tsx:47-54 | two toggles of the same id restore its completed state and leave the other records unchanged |
| `CopingStrategies.ToggleTwiceFromAbsentIsIdentity` | src/components/CopingStrategies.tsx:47-54 | for a strategy that was not completed, two toggles give back exactly the original list |
| `CopingStrategies.ToggleTwiceFromPresentRestamps` | src/components/CopingStrategies.tsx:47-54 | for a completed strategy, two toggles leave one record at the end, stamped with the second time |
| `CopingStrategies.OtherThanKeepsUniqueIds` | src/components/CopingStrategies.tsx:48 | removing one strategy's records keeps the ids unique |
| `CopingStrategies.ToggleKeepsUniqueIds` | src/components/CopingStrategies.tsx:47-53 | if ids are unique before a toggle, they are unique after it |
| `CopingStrategies.StrategyTracker.constructor` | src/components/CopingStrategies.tsx:34-42 | on mount, the completed records come from storage |
| `CopingStrategies.StrategyTracker.ToggleStrategy` | src/components/CopingStrategies.tsx:44-58 | the list becomes its toggled form and that list is stored |
| `MoodTracker.JournalField` | src/components/MoodTracker.tsx:26 | a blank journal gives no journal; otherwise the journal is the trimmed text, which is non-empty and has no white space at either end |
| `MoodTracker.JournalFieldStable` | src/components/MoodTracker.tsx:26 | trimming a saved journal again gives the same journal |
| `MoodTracker.MoodForm.constructor` | src/components/MoodTracker.tsx:18-19 | on mount, no mood is selected and the journal is empty |
| `MoodTracker.MoodForm.SelectMood` | src/components/MoodTracker.tsx:41 | selects one of the five moods and keeps the journal |
| `MoodTracker.MoodForm.EditJournal` | src/components/MoodTracker.tsx:53 | sets the journal and keeps the mood |
| `MoodTracker.MoodForm.HandleSave` | src/components/MoodTracker.tsx:21-30 | with no mood selected, nothing is emitted and nothing changes; otherwise exactly one draft (time, selected mood, trimmed journal or none) is emitted and the form is reset |
| `App.LoadMoods` | src/App.tsx:10-15 | a missing key loads as an empty mood log; a stored list loads as itself |
| `App.WithId` | src/App.tsx:18-21 | the entry has the given id and the draft's date, mood and journal |
| `App.MoodStore.constructor` | src/App.tsx:7-15 | on mount, the mood log comes from storage, and no entry has been saved since |
| `App.MoodStore.HandleSaveMood` | src/App.tsx:17-25 | one entry (fresh id plus the draft's date, mood and journal) is prepended, the old entries follow unchanged, the length grows by 1, only the mood key is written, and the entry joins the record of entries saved since mount |
| `App.MoodStore.SavesNewestFirst` | src/App.tsx:22 | after any run of saves, the log lists the saved entries newest first, followed by the entries loaded on mount in their stored order |
| `App.SubmitMoodForm` | src/components/Layout.tsx:37 | the form's save feeds the store: with a mood selected, the log gains exactly that one entry; otherwise neither changes |
| `Seqs.Reverse` | src/App.tsx:22 | position i of the result holds the element at position n-1-i of the input |
| `Seqs.PrependAllSnoc` | src/App.tsx:22 | prepending one more element to the result of a run of prepends is the run extended by that element |
| `Seqs.PrependAllReverses` | src/App.tsx:22 | a run of prepends lists the added elements in reverse order, followed by the original list in its order |
| `Storage.LocalStorage.SetItem` | src/components/Diary.tsx:38 | the key now holds the given value and every other key is unchanged |
| `Storage.LocalStorage.RemoveItem` | src/components/Transcripts.tsx:51 | the key is absent afterwards and every other key is unchanged |
| `Seqs.FirstIndex` | src/components/Tests.tsx:145 | returns the first index whose element passes the test, or nothing exactly when no element passes |
| `Seqs.Find` | src/components/Tests.tsx:175 | returns nothing exactly when no element passes the test; otherwise the first element in list order that passes (also used at src/components/CopingStrategies.tsx:61) |
| `Seqs.Any` | src/components/Tests.tsx:220 | true exactly when some element passes the test (also used at src/components/CopingStrategies.tsx:47 and :73) |
| `Seqs.Filter` | src/components/Diary.tsx:43 | an element is in the result exactly when it is in the input and passes the test, and the result is no longer than the input; that the order is kept is proved by `Seqs.FilterAppend` |
| `Seqs.FilterAppend` | src/components/CopingStrategies.tsx:48 | filtering distributes over concatenation, which preserves order |

## Left out

- Rendering, styling, icons, date formatting and the mood history list are left out. They only display state.
- The view switch (src/components/Layout.tsx:32-48) is not modelled. It shows one panel at a time, so leaving a view unmounts its panel and coming back mounts it afresh. In the model that is a new `constructor` call on a fresh object: the open test and the answers, the diary draft and emoji, and the mood form start over, and each list is reloaded from storage. For the same reason the chat frame (src/components/Chat.tsx) and the transcript listener (src/components/Transcripts.tsx:45) are never mounted at the same time; the model does not capture that.
- Subscribing to and unsubscribing from window `message` events (src/components/Transcripts.tsx:45-46) is left out. React's scheduling of state updates is also left out. Each handler is one atomic step.
- The chat page's relay (src/components/Chat.tsx) is not part of this model. It re-posts frame messages with `window.postMessage`.
- `crypto.randomUUID()` and `new Date().toISOString()` are parameters (`freshId`, `now`). The model does not prove that ids are fresh.
- JSON serialisation is not modelled: storage holds the typed lists themselves.
- A crash on malformed stored JSON (src/components/Tests.tsx:129 and the other loads) is not modelled. A value of another kind under a key is the model's stand-in for bad data, and it loads as an empty list.
- Transcripts.TranscriptLog.HandleMessage: payload fields are strings. The model does not capture a `null` or `undefined` payload, which makes the destructuring at src/components/Transcripts.tsx:28 throw, nor a string or number payload, whose `type` reads as `undefined` so that line 29 drops it, nor a `content`/`sender` that is missing or not a string. The payload's `type` field is called `kind`, because `type` is a reserved word in Dafny.
- JavaScript numbers are modelled as unbounded `int`. Scores and option values are small non-negative integers.
- Storage writes from other tabs are not modelled.

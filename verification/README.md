# Dev tracker: a Dafny model of the progress store, the company list and the dashboard figures

The tracker is a browser application in which a learner follows a fixed DSA curriculum (topics
with subtopic checklists), three default daily tasks, a streak of consecutive visiting days,
interview-subject ratings and a list of companies applied to. Everything lives in local storage.
This project models the three pieces of the client that hold real logic:

- **The progress store** (`client/src/hooks/use-store.ts`). It holds one document (`AppState`):
  topics, daily tasks, interview subjects, streak, last visit and notes.
  - On mount it loads the stored document. On a new calendar day it applies the streak rule,
    replaces the daily tasks by the seed tasks dated today, and records today as the last visit.
    With nothing stored it builds the seed document.
  - The named mutations are `toggleSubtopic`, `toggleDailyTask`, `updateSubject`, `updateNotes`
    and `resetProgress`. Each replaces the document and is written back to storage.
  - Module `StoreModel` holds the document, the seed catalogue and every transformation as a
    function. Module `Store` holds the class `ProgressStore`, with the state field and the storage
    cell, whose methods are proved against those functions.
- **The company tracker page** (`client/src/pages/CompanyTracker.tsx`). It keeps a list of
  companies, each with interview rounds, and its handlers add, rename, re-status, review and delete
  companies and rounds.
  - Module `CompanyList` holds the list transformations.
  - Module `CompanyTrackerPage` holds the class `CompanyTracker`: the list, its storage cell and the
    form fields the handlers read and clear. `saveCompanies` adopts a new list only after the
    storage write succeeds.
- **The dashboard figures** (`client/src/pages/Dashboard.tsx`): total and completed subtopics, the
  overall percentage and the average interview confidence. They live in module `Dashboard`.

Shared pieces:
- `Rounding`: `Math.round` of a quotient, computed exactly.
- `Text`: JavaScript `trim` and the decimal rendering of a number.
- `Dates`: calendar days as integer ordinals, with an injective date-key encoding.
- `Common`: `Option`, `filter`, and the subsequence relation.

Clocks, random UUIDs and storage-write outcomes are parameters:
- `today` and the module-load day are day ordinals.
- Fresh ids are passed in, and must not already be in use.
- `writeOk` says whether `localStorage.setItem` succeeded.

Notes on the behaviour modelled, where the code is not what one might expect:
- The streak grows by one on any visit exactly one calendar day after the last one. It is reset
  to 1 after a longer gap. It is kept when the difference is zero or negative, or when the stored
  last visit is not a parsable date (the difference is then NaN and both comparisons fail).
  Whether the previous day's tasks were completed plays no part.
- `INITIAL_TASKS` is dated when the module loads. A first visit and `resetProgress` store those
  tasks as they are. Only the day rollover re-dates them to today.
- `resetProgress` has no guard against an unloaded state. The other mutations do nothing until
  a document is loaded.
- `toggleSubtopic` recomputes the percentage without the `|| 0` guard the dashboard uses. A topic
  with no subtopics therefore gets a NaN progress, and `Num` models that value.
- The company handlers return early on a blank name, and then leave the editor open. Once past
  that check they clear the form even when the storage write fails. `saveReview` treats an empty
  selected id as no selection, because the empty string is falsy.

The store keeps no per-day calendar map and does not migrate older documents. Its streak rule
ignores whether the previous day's tasks were done. It defines no `getDayData`, `addTask`,
`removeTask` or `toggleCoreItem`, although other pages call them.

## Model

| member | source | states |
|---|---|---|
| `StoreModel.SeedTopic` | client/src/hooks/use-store.ts:25-109 | a seed topic has the given id, progress 0, and one open subtopic per declared entry |
| `StoreModel.SeedCatalogue` | client/src/hooks/use-store.ts:25-123 | ten seed topics with ids 1..10, each non-empty, nothing completed, progress 0 and consistent; three open tasks with ids 1..3 dated the given day; five subjects with ids 1..5 and confidence in 1..5 |
| `StoreModel.SeedState` | client/src/hooks/use-store.ts:159-166 | the first-visit / reset document has consistent topic progress, three open tasks dated the module-load day, streak 1, today as last visit and no notes |
| `StoreModel.CompletedCount` | client/src/hooks/use-store.ts:189 | the number of completed subtopics is at most the list length, is 0 exactly when none is completed and equals the length exactly when all are |
| `StoreModel.CompletionPercent` | client/src/hooks/use-store.ts:188-190 | a non-empty list gets a percentage in [0,100], 0 when nothing and 100 when everything is completed; an empty list gets NaN |
| `StoreModel.FlipSubtopic` | client/src/hooks/use-store.ts:184-186 | exactly the subtopics with the given id change their completed flag; ids and names are kept |
| `StoreModel.ToggleSubtopic` | client/src/hooks/use-store.ts:182-195 | topics with other ids are unchanged; a targeted topic gets the flipped subtopic list and a progress consistent with it, and no other field changes; consistent progress everywhere is preserved |
| `StoreModel.FlipSubtopicTwice` | client/src/hooks/use-store.ts:184-186 | flipping a subtopic twice restores the list |
| `StoreModel.ToggleSubtopicTwice` | client/src/hooks/use-store.ts:179-198 | toggling twice restores every subtopic list, and the whole topic list when the targeted topics' progress was consistent |
| `StoreModel.ToggleTask` | client/src/hooks/use-store.ts:202-204 | completed flips exactly on the tasks with the given id; no other field of any task changes |
| `StoreModel.ToggleTaskTwice` | client/src/hooks/use-store.ts:200-206 | toggling a task is an involution |
| `StoreModel.Redate` | client/src/hooks/use-store.ts:152 | each task keeps everything but its date, which becomes the given key |
| `StoreModel.ApplyUpdate` | client/src/hooks/use-store.ts:211 | each field present in the partial update replaces the subject's field; absent fields are kept |
| `StoreModel.UpdateSubject` | client/src/hooks/use-store.ts:210-212 | subjects with other ids are unchanged; subjects with the id get exactly the update's fields |
| `StoreModel.EmptyUpdateIsIdentity` | client/src/hooks/use-store.ts:208-214 | an update carrying no field leaves the subjects unchanged |
| `StoreModel.UpdateSubjectIdempotent` | client/src/hooks/use-store.ts:208-214 | applying the same update twice equals applying it once, even when it rewrites the id |
| `StoreModel.NextStreak` | client/src/hooks/use-store.ts:145-149 | the streak becomes one more, 1, or stays; a streak of at least 1 stays positive and grows exactly on a one-day gap; one above 1 drops exactly on a longer gap |
| `StoreModel.Rollover` | client/src/hooks/use-store.ts:138-154 | on the last-visit day the document is returned unchanged; on any other day the tasks become the seed tasks dated today and today becomes the last visit; topics, subjects and notes never change |
| `StoreModel.RolloverStreak` | client/src/hooks/use-store.ts:141-149 | a one-day gap adds one to the streak, a longer gap resets it to 1, a last visit today or later or an unparsable one keeps it |
| `StoreModel.RolloverIdempotent` | client/src/hooks/use-store.ts:139-153 | loading twice on the same day gives the same document as loading once |
| `StoreModel.RolloverKeepsStreakPositive` | client/src/hooks/use-store.ts:145-149 | a positive streak stays positive across a load |
| `Dates.KeyOf` | client/src/hooks/use-store.ts:133 | the key of a day parses back to that day, so the encoding is injective |
| `Dates.CalendarDaysSince` | client/src/hooks/use-store.ts:141-142 | the difference from a day's key is today minus that day; an unparsable key gives NaN (None) |
| `Store.ProgressStore.constructor` | client/src/hooks/use-store.ts:128 | the store starts with no document and storage as found |
| `Store.ProgressStore.IsLoading` | client/src/hooks/use-store.ts:236 | loading exactly while no document is held |
| `Store.ProgressStore.Commit` | client/src/hooks/use-store.ts:173-177 | a new document becomes the state and is written to storage |
| `Store.ProgressStore.Load` | client/src/hooks/use-store.ts:131-170 | a stored document becomes its rollover to today; with nothing stored, the seed document with today's last visit and the module-load task dates; either way it is written back |
| `Store.ProgressStore.ToggleSubtopic` | client/src/hooks/use-store.ts:179-198 | no effect without a document; otherwise only the topics change, as `ToggleSubtopic` says, and the result is stored |
| `Store.ProgressStore.ToggleDailyTask` | client/src/hooks/use-store.ts:200-206 | no effect without a document; otherwise only the daily tasks change, as `ToggleTask` says, and the result is stored |
| `Store.ProgressStore.UpdateSubject` | client/src/hooks/use-store.ts:208-214 | no effect without a document; otherwise only the subjects change, as `UpdateSubject` says, and the result is stored |
| `Store.ProgressStore.UpdateNotes` | client/src/hooks/use-store.ts:216-219 | no effect without a document; otherwise only the notes change, and the result is stored |
| `Store.ProgressStore.ResetProgress` | client/src/hooks/use-store.ts:221-232 | whatever the prior state, the seed document with streak 1, today's last visit and empty notes becomes the state and is stored |
| `Store.FreshInstallScenario` | client/src/hooks/use-store.ts:131-170 | fresh install, reload the same day, visit the next day: streak 2, seed topics, seed tasks dated the new day |
| `Rounding.RoundRatio` | client/src/pages/Dashboard.tsx:18 | the result is the integer nearest to p/q, a half rounded up |
| `Rounding.RoundRatioUnique` | client/src/pages/Dashboard.tsx:18 | that characterisation determines the rounded value |
| `Rounding.RoundRatioMonotone` | client/src/pages/Dashboard.tsx:18 | a larger numerator never rounds lower |
| `Rounding.RoundRatioBetween` | client/src/pages/Dashboard.tsx:18 | a quotient between lo and hi rounds into [lo, hi] |
| `Rounding.RoundRatioExact` | client/src/pages/Dashboard.tsx:18 | a whole quotient rounds to itself |
| `Dashboard.TotalSubtopics` | client/src/pages/Dashboard.tsx:16 | every topic's subtopic count is at most the total, which is 0 exactly when no topic has subtopics |
| `Dashboard.CompletedSubtopics` | client/src/pages/Dashboard.tsx:17 | every topic's completed count is at most the overall completed count, which never exceeds the total |
| `Dashboard.AllCompletedIffFull` | client/src/pages/Dashboard.tsx:16-17 | completed equals total if and only if every subtopic of every topic is completed |
| `Dashboard.NoneCompletedIffEmpty` | client/src/pages/Dashboard.tsx:17 | completed is 0 if and only if no subtopic is completed |
| `Dashboard.TotalProgress` | client/src/pages/Dashboard.tsx:18 | the overall percentage lies in [0,100]; it is 0 without subtopics or when nothing is completed, and 100 when everything is |
| `Dashboard.CompletedCountMonotone` | client/src/pages/Dashboard.tsx:17 | completing more subtopics of a list never lowers its completed count |
| `Dashboard.MoreCompleteCounts` | client/src/pages/Dashboard.tsx:16-17 | completing more subtopics keeps the total and never lowers the completed count |
| `Dashboard.TotalProgressMonotone` | client/src/pages/Dashboard.tsx:17-18 | completing more subtopics never lowers the overall percentage |
| `Dashboard.ToggleOpenSubtopicRaisesProgress` | client/src/pages/Dashboard.tsx:17-18 | toggling an open subtopic never lowers the overall percentage |
| `Dashboard.ConfidenceSum` | client/src/pages/Dashboard.tsx:21 | n confidences in 1..5 sum to between n and 5n |
| `Dashboard.AvgInterviewConfidence` | client/src/pages/Dashboard.tsx:21 | the average confidence is 0 when there are no subjects |
| `Dashboard.AvgInterviewConfidenceBounds` | client/src/pages/Dashboard.tsx:21 | with confidences in 1..5 the average lies in [20,100] |
| `Dashboard.SeedTotalSubtopics` | client/src/pages/Dashboard.tsx:16 | the seed topics hold 33 subtopics |
| `Dashboard.SeedTotalProgress` | client/src/pages/Dashboard.tsx:17-18 | the seed topics give a 0% overall progress |
| `Dashboard.SeedAvgInterviewConfidence` | client/src/pages/Dashboard.tsx:21 | the seed subjects average to 48 |
| `Common.Filter` | client/src/pages/CompanyTracker.tsx:114 | the result is no longer than the input; it holds only input elements that pass the test, each element that passes as many times as in the input, and none that fails |
| `Common.FilterIsSubsequence` | client/src/pages/CompanyTracker.tsx:114 | filtering keeps the relative order of what it keeps |
| `Text.IsBlank` | client/src/pages/CompanyTracker.tsx:72 | a string is blank exactly when the scan over leading whitespace reaches its end |
| `Text.Trim` | client/src/pages/CompanyTracker.tsx:72 | the result is the middle slice of the input after its leading whitespace, with no whitespace at either end; what is cut off on both sides is whitespace; it is empty exactly when the input is blank |
| `Text.TrimIdempotent` | client/src/pages/CompanyTracker.tsx:128 | trimming a trimmed string changes nothing |
| `Text.NatToString` | client/src/pages/CompanyTracker.tsx:192 | the decimal text is digits only, has no leading zero, and reads back as the number |
| `CompanyList.FindCompany` | client/src/pages/CompanyTracker.tsx:187 | absent exactly when no company has the id; otherwise the position of the first one that has it |
| `CompanyList.AddCompany` | client/src/pages/CompanyTracker.tsx:74-86 | existing entries are kept and exactly one company is appended, with the trimmed name, status pending, empty review and three pending rounds with the given ids, named "Round 1".."Round 3" |
| `CompanyList.SetApplicationStatus` | client/src/pages/CompanyTracker.tsx:92-95 | the status changes on exactly the companies with the id; length, order and every other field are kept |
| `CompanyList.RemoveCompany` | client/src/pages/CompanyTracker.tsx:113-114 | the result holds no company with the id, and every other company of the input as many times as the input does |
| `CompanyList.RenameCompany` | client/src/pages/CompanyTracker.tsx:127-129 | the trimmed name is set on exactly the companies with the id; nothing else changes |
| `CompanyList.SetReview` | client/src/pages/CompanyTracker.tsx:167-169 | the review text, untrimmed, is set on exactly the companies with the id; nothing else changes |
| `CompanyList.MapRound` | client/src/pages/CompanyTracker.tsx:104-106 | the rounds with the id are transformed, the others kept, in place |
| `CompanyList.SetRoundStatus` | client/src/pages/CompanyTracker.tsx:99-111 | only the status of the named round within the named companies changes; other companies, rounds and fields are kept |
| `CompanyList.RenameRound` | client/src/pages/CompanyTracker.tsx:143-152 | only the name of the named round within the named companies changes, to the trimmed text |
| `CompanyList.RemoveRound` | client/src/pages/CompanyTracker.tsx:177-184 | the named companies lose exactly their rounds with the id, keep every other round as many times as before, and no other field changes; other companies are unchanged |
| `CompanyList.AddRound` | client/src/pages/CompanyTracker.tsx:186-198 | absent for an unknown company; otherwise each named company gets one pending round with the fresh id appended, every one named "Round n+1" after the first such company's n rounds; other companies are unchanged |
| `CompanyList.RemoveCompanyKeepsOrder` | client/src/pages/CompanyTracker.tsx:113-114 | deleting keeps the remaining companies in their relative order |
| `CompanyList.RemoveAfterAdd` | client/src/pages/CompanyTracker.tsx:74-114 | deleting a just-added company under its fresh id restores the previous list |
| `CompanyList.RemoveRoundKeepsOrder` | client/src/pages/CompanyTracker.tsx:180 | deleting a round keeps every company's remaining rounds in order |
| `CompanyList.RemoveRoundAfterAddRound` | client/src/pages/CompanyTracker.tsx:177-198 | deleting a just-added round under its fresh id restores the previous list |
| `CompanyList.SetApplicationStatusLastWins` | client/src/pages/CompanyTracker.tsx:92-95 | of two status changes to the same company, the later wins |
| `CompanyList.RenameCompanyStable` | client/src/pages/CompanyTracker.tsx:124-129 | a renamed company's name has no surrounding whitespace, and renaming again to it changes nothing |
| `CompanyTrackerPage.CompanyTracker.constructor` | client/src/pages/CompanyTracker.tsx:36-44 | the page starts with an empty list, empty forms and storage as found |
| `CompanyTrackerPage.CompanyTracker.LoadCompanies` | client/src/pages/CompanyTracker.tsx:51-60 | a stored list is adopted; with nothing stored the list is kept |
| `CompanyTrackerPage.CompanyTracker.SaveCompanies` | client/src/pages/CompanyTracker.tsx:62-69 | a successful write stores and adopts the list; a failed write leaves list and storage unchanged; list and storage stay in sync |
| `CompanyTrackerPage.CompanyTracker.AddCompany` | client/src/pages/CompanyTracker.tsx:71-90 | a blank name changes nothing; otherwise the input is cleared, and on a successful write the new company is appended and the list stored; a failed write leaves list and storage alone |
| `CompanyTrackerPage.CompanyTracker.UpdateApplicationStatus` | client/src/pages/CompanyTracker.tsx:92-97 | the list becomes `SetApplicationStatus` of it and is stored when the write succeeds; a failed write leaves list and storage unchanged |
| `CompanyTrackerPage.CompanyTracker.UpdateRoundStatus` | client/src/pages/CompanyTracker.tsx:99-111 | the list becomes `SetRoundStatus` of it and is stored when the write succeeds; a failed write leaves list and storage unchanged |
| `CompanyTrackerPage.CompanyTracker.DeleteCompany` | client/src/pages/CompanyTracker.tsx:113-117 | the list becomes `RemoveCompany` of it and is stored when the write succeeds; a failed write leaves list and storage unchanged |
| `CompanyTrackerPage.CompanyTracker.StartEditingCompany` | client/src/pages/CompanyTracker.tsx:119-122 | the name editor opens on the company with its current name |
| `CompanyTrackerPage.CompanyTracker.SaveCompanyName` | client/src/pages/CompanyTracker.tsx:124-133 | a blank edited name changes nothing and keeps the editor open; otherwise the editor is closed, and on a successful write the trimmed name is set and the list stored; a failed write leaves list and storage alone |
| `CompanyTrackerPage.CompanyTracker.StartEditingRound` | client/src/pages/CompanyTracker.tsx:135-138 | the round editor opens on the round with its current name |
| `CompanyTrackerPage.CompanyTracker.SaveRoundName` | client/src/pages/CompanyTracker.tsx:140-156 | a blank edited name changes nothing and keeps the editor open; otherwise the editor is closed, and on a successful write the trimmed round name is set and the list stored; a failed write leaves list and storage alone |
| `CompanyTrackerPage.CompanyTracker.OpenReviewDialog` | client/src/pages/CompanyTracker.tsx:158-162 | the review dialog opens on the company with its current review |
| `CompanyTrackerPage.CompanyTracker.SaveReview` | client/src/pages/CompanyTracker.tsx:164-175 | with no (or an empty) selected id nothing changes; otherwise the dialog is closed and cleared, and on a successful write the review is set verbatim and the list stored; a failed write leaves list and storage alone |
| `CompanyTrackerPage.CompanyTracker.DeleteRound` | client/src/pages/CompanyTracker.tsx:177-184 | the list becomes `RemoveRound` of it and is stored when the write succeeds; a failed write leaves list and storage unchanged |
| `CompanyTrackerPage.CompanyTracker.AddRound` | client/src/pages/CompanyTracker.tsx:186-200 | an unknown company changes nothing and saves nothing; otherwise a successful write makes the list `AddRound` of it and stores it, and a failed write leaves list and storage alone |

## Left out

- Rounding.RoundRatio: the source divides in floating point before rounding; the model divides exactly. The two differ only where the float quotient lands just below a half, e.g. 29 of 200 subtopics gives 14.499999999999998 and rounds to 14 where the exact value rounds to 15.
- JSON serialisation: storage cells hold the document itself. A corrupt stored document cannot be represented. In the store, `JSON.parse` would throw and nothing catches it. In `loadCompanies` the error is caught and logged, and the list is kept.
- Store.ProgressStore.Commit: every write succeeds. A `localStorage.setItem` that throws inside the store's save effect is not modelled. For the company list, failed writes are modelled through `writeOk`.
- date-fns: `format`, `parseISO` and `differenceInCalendarDays` are replaced by day ordinals, an injective key encoding and their difference. Time zones and the local-time reading of `new Date()` are not modelled.
- React: effect scheduling is left out. So is the fact that every component calling `useStore()` holds its own copy of the state. The store is one object whose operations run one at a time.
- Toasts, `console.error` logging and all rendering are left out.
- Numbers: streaks, ids, progress and confidence values are unbounded integers. Non-integer or null values that JSON could carry are not represented. A `Partial` update whose field is present but `undefined` is treated as absent.
- Random UUIDs are caller-supplied fresh ids. `CompanyTrackerPage.CompanyTracker.AddCompany` requires the company id to be unused.
- The job tracker page (a REST client), the server routes and storage, and the monthly, weekly, interview-prep, daily, settings and topic pages are not part of this model. So are the progress ring and the navigation components. Those pages call store operations that `use-store.ts` does not define.

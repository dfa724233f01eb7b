# Learning-dashboard logic, modelled in Dafny

The repository holds two React front ends for a maths-learning site. Most of
it is layout, but seven files hold small pieces of logic, and this project
models those:

- the attention and emotion classifier that turns facial landmarks into an
  attention score and an emotion record (`emotionUtils.ts`);
- the face-detection session hook, with start, per-frame and stop steps
  (`useFaceDetection.ts`);
- the study dashboard's to-do list, task filter, pomodoro timer and `m:ss`
  time display (`Dashboard.tsx`);
- the practice page's scoring, its game break after every third correct
  answer, and its explanation toggle (`Practice.tsx`);
- the AI tutor's catalogue lookup, question history, starring and
  favourites view (`AITutor.tsx`);
- the resource catalogue's bookmark toggle and its two-stage
  difficulty/bookmark and search filter (`Resources.tsx`);
- the formula library's bookmark toggle, per-category search and tab keys
  (`Formulas.tsx`).

Modules:

- `Wrappers` holds `Option`.
- `Seqs` holds a generic `Filter` and its laws: membership, subsequence,
  partition, composition and commutation.
- `Text` holds the string operations the pages use over ASCII: `toLowerCase`,
  `includes`, `trim`, decimal rendering, `padStart(2, '0')` and
  `split(' ')[0]`.
- `Bookmarks` holds the include-or-remove toggle that both bookmark lists use.
- `EmotionUtils`, `FaceDetection`, `Dashboard`, `Practice`, `AITutor`,
  `Resources` and `Formulas` hold one model each, one per source file.

How the models are built:

- A pure computation is a function, and a lemma states its properties.
- Component state that handlers update becomes a class. Its fields are the
  component's `useState` variables.
- Each handler becomes a method whose `modifies` clause names the fields the
  handler sets. Its `ensures` clause gives the new state in terms of the old.

Inputs that the model takes as method parameters:

- the detector's outcome for a frame (no face, a landmark set, or an
  exception);
- whether detector creation succeeded;
- the id `Date.now()` would give a new task;
- the question `generateQuestion()` would produce;
- the attention report the analyser component hands back.

Numbers are modelled as follows:

- Attention scores and confidences are exact `real`s.
- The eye-aspect ratio is a `Ratio`: either a finite value, or the
  Infinity/NaN that JavaScript produces for a zero horizontal eye distance.
- Timer values and scores are unbounded integers.

## Model

| member | source | states |
|---|---|---|
| EmotionUtils.CalculateAttention | AI-MATH/src/utils/emotionUtils.ts:57-97 | the score always lies in [0,1] and is one of 1.0, 0.7, 0.6, 0.3 or 0.5 |
| EmotionUtils.NoLandmarksIff | AI-MATH/src/utils/emotionUtils.ts:58 | the score is 0.5 exactly when the landmarks are null or empty |
| EmotionUtils.PenaltiesIff | AI-MATH/src/utils/emotionUtils.ts:74-92 | for a non-empty landmark list, the closed-eye penalty applies (score 0.6 or 0.3) iff the ratio is below 0.15; the turned-away penalty applies (score 0.7 or 0.3) iff the head is not facing the camera |
| EmotionUtils.TurnedAwayIff | AI-MATH/src/utils/emotionUtils.ts:70-71 | the head counts as turned away iff the nose landmark exists and abs(z) >= 0.1; a missing nose counts as facing |
| EmotionUtils.RatioReadsOnly | AI-MATH/src/utils/emotionUtils.ts:35-48 | two landmark lists that agree on landmarks 33, 160, 133, 144, 362, 385, 263 and 380 give the same eye ratio |
| EmotionUtils.MissingRatioLandmark | AI-MATH/src/utils/emotionUtils.ts:51-54 | when any of those eight landmarks is missing, the ratio is the fallback 0.3, which never counts as closed eyes |
| EmotionUtils.FlatEyeNoPenalty | AI-MATH/src/utils/emotionUtils.ts:43-50 | a zero horizontal distance gives a non-finite ratio, and no closed-eye penalty |
| EmotionUtils.Gather | AI-MATH/src/utils/emotionUtils.ts:35-36 | position k of an eye holds the landmark at the k-th index, or nothing when the index is out of range |
| EmotionUtils.EyeRatio | AI-MATH/src/utils/emotionUtils.ts:38-48 | one eye's ratio is missing exactly when one of positions 0, 1, 3 or 5 is missing; it is non-finite exactly when positions 0 and 3 share their x; a finite ratio is non-negative |
| EmotionUtils.EyeAspectRatio | AI-MATH/src/utils/emotionUtils.ts:33-55 | when either eye's ratio is missing, the result is the fallback 0.3; a finite result is non-negative |
| EmotionUtils.FaceEyeRatio | AI-MATH/src/utils/emotionUtils.ts:33-55 | the ratio over the face-mesh eye indices is non-negative when finite |
| EmotionUtils.EyesClosed | AI-MATH/src/utils/emotionUtils.ts:76-77 | a ratio of 0 counts as closed eyes; the fallback 0.3 and a non-finite ratio never do |
| EmotionUtils.FacingCamera | AI-MATH/src/utils/emotionUtils.ts:70-71 | with no nose landmark the head counts as facing; with one, it faces iff -0.1 < z < 0.1 |
| EmotionUtils.Abs | AI-MATH/src/utils/emotionUtils.ts:39-44 | the absolute value is non-negative and equals x or -x |
| EmotionUtils.Clamp | AI-MATH/src/utils/emotionUtils.ts:92 | the result lies in [0,1]; it is x inside the range and the nearest bound outside it |
| EmotionUtils.DetectEmotion | AI-MATH/src/utils/emotionUtils.ts:99-110 | every returned key has an entry in the description table |
| EmotionUtils.DetectEmotionCases | AI-MATH/src/utils/emotionUtils.ts:102-109 | attentive iff a > 0.8, distracted iff a < 0.4, tired iff 0.4 <= a < 0.6, neutral iff 0.6 <= a <= 0.8; confidences a, 1-a, 0.7 and 0.6 |
| EmotionUtils.DetectEmotionBoundaries | AI-MATH/src/utils/emotionUtils.ts:102-109 | 0.8 gives neutral, 0.6 gives neutral and 0.4 gives tired |
| EmotionUtils.ConfidenceBounds | AI-MATH/src/utils/emotionUtils.ts:102-109 | for a score in [0,1], the confidence lies in [0.6, 1] |
| EmotionUtils.DescriptionsCapitalised | AI-MATH/src/utils/emotionUtils.ts:9-30 | the table has exactly the four keys, and each entry's `emotion` is its key capitalised |
| EmotionUtils.AttentionToEmotion | AI-MATH/src/utils/emotionUtils.ts:74-110 | composed with the classifier: 1.0 gives attentive, 0.7 and 0.6 give neutral, 0.3 gives distracted with confidence 0.7, and tired happens exactly when there are no landmarks |
| EmotionUtils.WithConfidence | AI-MATH/src/hooks/useFaceDetection.ts:78-81 | the record shows the key with its first letter capitalised, carries the given confidence, and takes the table's description and colour for that key |
| EmotionUtils.AnalyseFace | AI-MATH/src/hooks/useFaceDetection.ts:72-81 | a face frame's score is the classifier's score, so one of 1.0, 0.7, 0.6, 0.3 or 0.5; its record is one of the four emotions with a confidence in [0.6, 1]; it is "Tired" exactly when the frame has no keypoints |
| FaceDetection.FaceDetectionState.constructor | AI-MATH/src/hooks/useFaceDetection.ts:19-26 | the session starts inactive and not loading, with no emotion, score 0, an empty history and no detector |
| FaceDetection.FaceDetectionState.BeginStart | AI-MATH/src/hooks/useFaceDetection.ts:30 | starting first sets isLoading, and changes nothing else |
| FaceDetection.FaceDetectionState.FinishStart | AI-MATH/src/hooks/useFaceDetection.ts:36-56 | loading ends either way; the session is active with a detector only if creation succeeded; on failure, activity, emotion, score and history are unchanged |
| FaceDetection.FaceDetectionState.StartAnalysis | AI-MATH/src/hooks/useFaceDetection.ts:29-57 | the whole start: isLoading ends false; the session becomes active iff the detector was created; otherwise nothing else changes |
| FaceDetection.FaceDetectionState.Frame | AI-MATH/src/hooks/useFaceDetection.ts:60-101 | one frame for a given activity flag: with video, detector and that flag set, a face sets the emotion and score, appends exactly that record to the history, notifies with it, and schedules another frame; no face changes no state and schedules another frame; an exception or a failed guard changes nothing and schedules nothing |
| FaceDetection.FaceDetectionState.StartAnalysisAsWritten | AI-MATH/src/hooks/useFaceDetection.ts:29-97 | the loop as written: a failed detector creation runs no frame and changes no emotion, score or history; otherwise the frame reads the activity flag from before the start, so a fresh session, even with the detector created, analyses nothing and schedules no further frame, while an already active one runs the frame as `Frame` does |
| FaceDetection.FaceDetectionState.DetectFace | AI-MATH/src/hooks/useFaceDetection.ts:60-101 | the corrected loop, reading the current isActive: with video, detector and an active session, a face sets the emotion and score, appends exactly that record to the history, notifies with it, and schedules another frame; no face changes no state and schedules another frame; an exception or a failed guard changes nothing and schedules nothing; isActive and isLoading are never touched |
| FaceDetection.FaceDetectionState.StopAnalysis | AI-MATH/src/hooks/useFaceDetection.ts:106-112 | stopping clears isActive and the emotion, and keeps the score and history |
| Dashboard.ToggleCompleted | AI-MATH/src/pages/Dashboard.tsx:73-77 | only tasks with that id change their `completed` flag; length, order, ids and texts are kept |
| Dashboard.ToggleCompletedTwice | AI-MATH/src/pages/Dashboard.tsx:73-77 | toggling the same id twice is the identity |
| Dashboard.RemoveTask | AI-MATH/src/pages/Dashboard.tsx:79-80 | no task with the id is left, only tasks of the list remain, and an id no task has changes nothing |
| Dashboard.RemoveTaskSpec | AI-MATH/src/pages/Dashboard.tsx:79-80 | the result holds exactly those tasks whose id differs, as an order-preserving subsequence; removed and kept tasks add up to the original length |
| Dashboard.RenameTask | AI-MATH/src/pages/Dashboard.tsx:92-95 | tasks with that id get the new text, untrimmed; ids, flags, order and other tasks are kept |
| Dashboard.RenameTaskIdempotent | AI-MATH/src/pages/Dashboard.tsx:92-95 | saving the same text twice is the same as saving it once |
| Dashboard.RenameToggleCommute | AI-MATH/src/pages/Dashboard.tsx:73-95 | renaming and toggling commute |
| Dashboard.Shows | AI-MATH/src/pages/Dashboard.tsx:104-108 | "all" shows every task; "completed" shows exactly the done tasks and "incomplete" exactly the others |
| Dashboard.FilterTasks | AI-MATH/src/pages/Dashboard.tsx:104-108 | a view is no longer than the list and holds only tasks of the list that its filter shows |
| Dashboard.FilterTasksSpec | AI-MATH/src/pages/Dashboard.tsx:104-108 | each view is an order-preserving subsequence; "all" is the identity; "completed" and "incomplete" partition the list (lengths and multisets) and hold exactly the done and not-done tasks |
| Dashboard.FormatTime | AI-MATH/src/pages/Dashboard.tsx:110-114 | at least four characters, with the colon three places from the end |
| Dashboard.FormatTimeShort | AI-MATH/src/pages/Dashboard.tsx:110-114 | the text is the four characters of `m:ss` exactly when the time is below ten minutes |
| Dashboard.FormatTimeReadsBack | AI-MATH/src/pages/Dashboard.tsx:110-114 | the text is digits, a colon three places from the end, and two digits; read back, the groups are the whole minutes and the remaining seconds (below 60, with 60*mins + secs the input) |
| Dashboard.FormatTimePomodoro | AI-MATH/src/pages/Dashboard.tsx:20 | the starting 1500 seconds show as "25:00" |
| Dashboard.DashboardState.constructor | AI-MATH/src/pages/Dashboard.tsx:18-24 | no tasks, empty input, 1500 seconds, timer stopped, no edit, filter "all" |
| Dashboard.DashboardState.SetNewTask | AI-MATH/src/pages/Dashboard.tsx:19 | the input field holds the typed text |
| Dashboard.DashboardState.AddTask | AI-MATH/src/pages/Dashboard.tsx:61-71 | a non-blank input appends one task with the trimmed text, not completed, and clears the input; a blank input changes nothing |
| Dashboard.DashboardState.ToggleTask | AI-MATH/src/pages/Dashboard.tsx:73-77 | the list of tasks becomes `ToggleCompleted` of the old list |
| Dashboard.DashboardState.DeleteTask | AI-MATH/src/pages/Dashboard.tsx:79-85 | the list of tasks becomes the old list without those of that id |
| Dashboard.DashboardState.StartEditTask | AI-MATH/src/pages/Dashboard.tsx:87-90 | the edit state holds the id and the text |
| Dashboard.DashboardState.SetEditTaskText | AI-MATH/src/pages/Dashboard.tsx:23 | the edit field holds the typed text |
| Dashboard.DashboardState.SaveEditTask | AI-MATH/src/pages/Dashboard.tsx:92-102 | matching tasks get the edit text, and the edit state is cleared |
| Dashboard.DashboardState.SetFilter | AI-MATH/src/pages/Dashboard.tsx:24 | the filter is the chosen one |
| Dashboard.DashboardState.ToggleTimer | AI-MATH/src/pages/Dashboard.tsx:44-54 | the timer runs afterwards iff it was stopped and time is left; when it is at 0, the effect stops it again at once |
| Dashboard.DashboardState.ResetTimer | AI-MATH/src/pages/Dashboard.tsx:55-58 | back to 1500 seconds and stopped |
| Dashboard.DashboardState.Tick | AI-MATH/src/pages/Dashboard.tsx:38-52 | a running timer with time left loses one second and stops when it reaches 0; otherwise nothing changes; the time stays within [0, 1500] |
| Practice.ToggleExplanation | learnify-tutor-io/src/pages/Practice.tsx:190 | the explanation shown becomes `id` iff it was not `id`, and becomes none iff it was `id` |
| Practice.ToggleExplanationTwice | learnify-tutor-io/src/pages/Practice.tsx:190 | from none or `id`, toggling twice restores the value |
| Practice.ToggleExplanationTwiceOther | learnify-tutor-io/src/pages/Practice.tsx:190 | from another question's explanation, toggling twice gives none |
| Practice.PracticeState.constructor | learnify-tutor-io/src/pages/Practice.tsx:14-20 | no answer, no explanation, no game, score 0, no session, no report |
| Practice.PracticeState.HandleAnswerSubmit | learnify-tutor-io/src/pages/Practice.tsx:39-69 | a correct answer adds exactly 1 to the score and clears the explanation; when the new score is a multiple of 3, the game break starts and the session pauses; otherwise a new question comes and the answer is cleared; a wrong answer only records the answer |
| Practice.PracticeState.HandleGameComplete | learnify-tutor-io/src/pages/Practice.tsx:71-81 | the game ends, a new question comes, the answer is cleared and the session resumes; the score is kept |
| Practice.PracticeState.HandleSessionStart | learnify-tutor-io/src/pages/Practice.tsx:83-86 | the session is active and the report is cleared |
| Practice.PracticeState.HandleReportGenerated | learnify-tutor-io/src/pages/Practice.tsx:88-95 | the given report is stored |
| Practice.PracticeState.OnToggleExplanation | learnify-tutor-io/src/pages/Practice.tsx:190 | the explanation state becomes `ToggleExplanation` of the old one |
| AITutor.Flatten | learnify-tutor-io/src/pages/AITutor.tsx:159-160 | the flattened catalogue holds exactly the questions of all topics |
| AITutor.FindIndex | learnify-tutor-io/src/pages/AITutor.tsx:161 | the first index whose question equals the text; none iff no question matches |
| AITutor.Lookup | learnify-tutor-io/src/pages/AITutor.tsx:159-161 | a found entry has exactly the submitted text |
| AITutor.LookupFirstMatch | learnify-tutor-io/src/pages/AITutor.tsx:159-161 | the hit is the first exact match in flattened topic order; a miss means no question matches |
| AITutor.LookupHitIff | learnify-tutor-io/src/pages/AITutor.tsx:159-163 | the lookup hits iff some catalogue question has exactly that text |
| AITutor.ToggleStarAt | learnify-tutor-io/src/pages/AITutor.tsx:188-191 | only the item at the index flips `starred`; the length and other items are kept |
| AITutor.ToggleStarTwice | learnify-tutor-io/src/pages/AITutor.tsx:188-191 | toggling the same index twice is the identity |
| AITutor.Favourites | learnify-tutor-io/src/pages/AITutor.tsx:355 | the view is no longer than the history; a starred newest entry heads it, and an unstarred newest entry makes it shorter than the history |
| AITutor.FavouritesSpec | learnify-tutor-io/src/pages/AITutor.tsx:355 | the favourites view is the order-preserving subsequence of exactly the starred items, each as many times as the history holds it |
| AITutor.FavouritesCons | learnify-tutor-io/src/pages/AITutor.tsx:355 | the favourites of a list are its first item's (when starred) followed by the rest's |
| AITutor.FavouriteToggleAsWrittenMisses | learnify-tutor-io/src/pages/AITutor.tsx:355-363 | as written, the favourites tab passes its list position to `toggleStarred`: with an unstarred first item and a starred second, pressing the only favourite's star stars the first item instead of unstarring the second |
| AITutor.FavouriteIndex | learnify-tutor-io/src/pages/AITutor.tsx:355 | the history position of the k-th favourite: it is starred, holds that favourite, and has exactly k favourites before it |
| AITutor.UnstarRemoves | learnify-tutor-io/src/pages/AITutor.tsx:188-191 | unstarring a starred item that has k favourites before it removes exactly the k-th favourite from the view |
| AITutor.FavouriteToggleRemoves | learnify-tutor-io/src/pages/AITutor.tsx:355-363 | with the position translated, pressing the k-th favourite's star removes exactly that favourite and keeps the others in order |
| AITutor.TutorState.constructor | learnify-tutor-io/src/pages/AITutor.tsx:24-28 | empty question, not loading, no response, empty history, "ask" tab |
| AITutor.TutorState.SetQuestion | learnify-tutor-io/src/pages/AITutor.tsx:24 | the question field holds the typed text |
| AITutor.TutorState.PickQuestion | learnify-tutor-io/src/pages/AITutor.tsx:311-314 | picking a popular question copies its text and switches to the "ask" tab |
| AITutor.TutorState.SetActiveTab | learnify-tutor-io/src/pages/AITutor.tsx:28 | the chosen tab is active |
| AITutor.TutorState.HandleSubmit | learnify-tutor-io/src/pages/AITutor.tsx:154-186 | on a hit, the found response is shown and an unstarred entry is put at the front of the history; on a miss, the response and history are kept; loading ends false either way |
| AITutor.TutorState.ToggleStarred | learnify-tutor-io/src/pages/AITutor.tsx:188-191 | the history becomes `ToggleStarAt` of the old one at that index |
| AITutor.TutorState.ToggleFavourite | learnify-tutor-io/src/pages/AITutor.tsx:363 | the corrected favourites-tab button: the k-th favourite is unstarred and disappears from the view, and no other favourite changes |
| Bookmarks.Toggle | learnify-tutor-io/src/pages/Resources.tsx:59-62 | a bookmarked key is gone afterwards and the list is shorter; a new key is appended behind the unchanged list |
| Bookmarks.ToggleMembership | learnify-tutor-io/src/pages/Resources.tsx:59-62 | afterwards the key is in the list iff it was not before; every other element keeps its membership |
| Bookmarks.ToggleTwiceMembership | learnify-tutor-io/src/pages/Resources.tsx:59-62 | toggling the same key twice restores every element's membership |
| Bookmarks.ToggleAbsentTwice | learnify-tutor-io/src/pages/Resources.tsx:59-62 | adding an absent key and then removing it restores the list exactly |
| Bookmarks.FilterNoDuplicates | learnify-tutor-io/src/pages/Resources.tsx:61 | filtering a duplicate-free list keeps it duplicate-free |
| Bookmarks.ToggleNoDuplicates | learnify-tutor-io/src/pages/Resources.tsx:59-62 | toggling keeps a duplicate-free list duplicate-free |
| Resources.MatchesFilter | learnify-tutor-io/src/pages/Resources.tsx:108-112 | "all" keeps every resource; "bookmarked" keeps exactly the resources whose id is bookmarked; a filter other than "all", "bookmarked" or a lower-case difficulty keeps none |
| Resources.AnyTagIncludes | learnify-tutor-io/src/pages/Resources.tsx:119 | an empty query is found in a resource's tags iff it has any tag |
| Resources.MatchesSearch | learnify-tutor-io/src/pages/Resources.tsx:114-120 | an empty search keeps every resource; a query equal, in any case, to the title or to one of the tags finds it |
| Resources.MatchesSearchIff | learnify-tutor-io/src/pages/Resources.tsx:113-121 | a resource passes the search exactly when the query is empty or, lower-cased, occurs in the lower-cased title, description or one of the tags |
| Resources.FilterResources | learnify-tutor-io/src/pages/Resources.tsx:107-121 | the list is no longer than the catalogue and holds only catalogue entries that pass both stages |
| Resources.FilterResourcesSpec | learnify-tutor-io/src/pages/Resources.tsx:107-121 | the two-stage filter equals one filter by the conjunction and the stages in the other order; the result is an order-preserving subsequence of the catalogue holding exactly the resources that pass both tests |
| Resources.AllUnfiltered | learnify-tutor-io/src/pages/Resources.tsx:107-121 | filter "all" with an empty search keeps the whole catalogue |
| Resources.LowerDifficultyName | learnify-tutor-io/src/pages/Resources.tsx:111 | each difficulty name lower-cases to its filter key "beginner", "intermediate" or "advanced" |
| Resources.DifficultyFilterIff | learnify-tutor-io/src/pages/Resources.tsx:111 | the filter key of a difficulty keeps exactly the resources of that difficulty |
| Resources.SearchIgnoresQueryCase | learnify-tutor-io/src/pages/Resources.tsx:115 | the search gives the same answer for a query and its lower-cased form |
| Resources.ResourcesPage.constructor | learnify-tutor-io/src/pages/Resources.tsx:13-15 | filter "all", empty search, no bookmarks |
| Resources.ResourcesPage.HandleBookmark | learnify-tutor-io/src/pages/Resources.tsx:58-76 | the bookmark list becomes the toggle of the old one; the id is bookmarked iff it was not; the list stays duplicate-free |
| Resources.ResourcesPage.SetFilter | learnify-tutor-io/src/pages/Resources.tsx:14 | the filter is the chosen one |
| Resources.ResourcesPage.SetSearchQuery | learnify-tutor-io/src/pages/Resources.tsx:13 | the search field holds the typed text |
| Formulas.FormulaMatches | learnify-tutor-io/src/pages/Formulas.tsx:131-136 | an empty query matches every formula; a query equal, in any case, to the formula's name matches it |
| Formulas.FormulaMatchesIff | learnify-tutor-io/src/pages/Formulas.tsx:131-136 | a formula matches exactly when the query is empty or, lower-cased, occurs in the lower-cased name, formula or explanation |
| Formulas.FilterFormulas | learnify-tutor-io/src/pages/Formulas.tsx:131-136 | a category's list is no longer than before and holds only its own formulas that match |
| Formulas.FilterCategories | learnify-tutor-io/src/pages/Formulas.tsx:129-137 | every category is kept, in order and under its name, even when none of its formulas match; each keeps the filtered formulas |
| Formulas.FilterCategoriesSpec | learnify-tutor-io/src/pages/Formulas.tsx:131-136 | each category's formulas are an order-preserving subsequence holding exactly the matching ones, each as many times as the category lists it |
| Formulas.EmptyQueryKeepsAll | learnify-tutor-io/src/pages/Formulas.tsx:132 | an empty query changes nothing |
| Formulas.ExampleNotSearched | learnify-tutor-io/src/pages/Formulas.tsx:133-135 | changing a formula's example never changes whether it matches |
| Formulas.TabKey | learnify-tutor-io/src/pages/Formulas.tsx:197 | the key is no longer than the name and has no space and no capital; a name without a space gives the whole name in lower case |
| Formulas.TabKeysMatchTriggers | learnify-tutor-io/src/pages/Formulas.tsx:174-197 | the three categories get the tab keys "basic", "reciprocal" and "pythagorean", matching the tab triggers |
| Formulas.BasicTab | learnify-tutor-io/src/pages/Formulas.tsx:176-197 | "Basic Ratios" is shown under "basic" |
| Formulas.ReciprocalTab | learnify-tutor-io/src/pages/Formulas.tsx:182-197 | "Reciprocal Functions" is shown under "reciprocal" |
| Formulas.PythagoreanTab | learnify-tutor-io/src/pages/Formulas.tsx:188-197 | "Pythagorean Identities" is shown under "pythagorean" |
| Formulas.WordKey | learnify-tutor-io/src/pages/Formulas.tsx:197 | a capitalised ASCII word followed by a space gives that word in lower case as its key |
| Formulas.FormulasPage.constructor | learnify-tutor-io/src/pages/Formulas.tsx:24-25 | empty search, no bookmarks |
| Formulas.FormulasPage.HandleBookmark | learnify-tutor-io/src/pages/Formulas.tsx:100-118 | the bookmark list becomes the toggle of the old one; the name is bookmarked iff it was not; the list stays duplicate-free |
| Formulas.FormulasPage.SetSearchQuery | learnify-tutor-io/src/pages/Formulas.tsx:24 | the search field holds the typed text |
| Text.ToLower | learnify-tutor-io/src/pages/Resources.tsx:111-119 | same length, and each character is lowered |
| Text.ToLowerIdempotent | learnify-tutor-io/src/pages/Resources.tsx:115-119 | lower-casing twice is lower-casing once |
| Text.LowerChar | learnify-tutor-io/src/pages/Resources.tsx:111 | the result is never an upper-case letter; other characters are kept; upper-case letters move 32 code points down |
| Text.UpperChar | AI-MATH/src/utils/emotionUtils.ts:9-30 | the result is never a lower-case letter; other characters are kept |
| Text.Includes | learnify-tutor-io/src/pages/Resources.tsx:117-119 | a string is only found in one at least as long, and the empty string is found in every string |
| Text.IncludesIff | learnify-tutor-io/src/pages/Resources.tsx:117-119 | `includes` holds iff the query occurs at some position |
| Text.TrimStart | AI-MATH/src/pages/Dashboard.tsx:63-64 | a suffix of the input, with only whitespace removed before it and no whitespace at its front |
| Text.TrimEnd | AI-MATH/src/pages/Dashboard.tsx:63-64 | a prefix of the input, with only whitespace removed after it and no whitespace at its end |
| Text.Trim | AI-MATH/src/pages/Dashboard.tsx:63-64 | the result is empty, or starts and ends with a non-whitespace character |
| Text.TrimOffset | AI-MATH/src/pages/Dashboard.tsx:63-64 | where the trimmed text starts in the input |
| Text.TrimIsSlice | AI-MATH/src/pages/Dashboard.tsx:63-64 | the trimmed text is a block of the input with only whitespace before and after it |
| Text.TrimEmptyIff | AI-MATH/src/pages/Dashboard.tsx:63 | the trimmed text is empty iff the input is all whitespace |
| Text.TrimIdempotent | AI-MATH/src/pages/Dashboard.tsx:63-64 | trimming twice is trimming once |
| Text.NatToString | AI-MATH/src/pages/Dashboard.tsx:113 | the rendering is non-empty decimal digits without a leading zero, and has one digit iff the number is below 10 |
| Text.NatToStringRoundTrip | AI-MATH/src/pages/Dashboard.tsx:113 | reading the rendering back gives the number |
| Text.PadTwo | AI-MATH/src/pages/Dashboard.tsx:113 | a string of two or more characters is kept; a shorter one is padded with zeros on the left to length 2 |
| Text.LeadingZeroValue | AI-MATH/src/pages/Dashboard.tsx:113 | a leading zero does not change the value |
| Text.FirstWord | learnify-tutor-io/src/pages/Formulas.tsx:197 | a prefix of the input with no space in it, ending at the first space or at the end |

## Left out

- The TensorFlow/MediaPipe detector and the webcam are foreign code. The model receives detector creation and each frame's outcome as parameters (`useFaceDetection.ts:32-44`, `:64-65`).
- React scheduling has no model value. `setState` batching, `requestAnimationFrame`, the 1.5 s `setTimeout` in the tutor, `setInterval` and effect cleanup (`useFaceDetection.ts:114-121`) are all left out. Each handler is one atomic step, and the tutor's delayed answer arrives in the same step as the submit.
- A frame still in flight after `stopAnalysis` is not modelled. After awaiting the detector (`useFaceDetection.ts:65`), the hook does not check activity again, so a result that arrives after a stop is still applied. In the model each frame is one atomic step, so no frame can straddle a stop.
- The loop reads `state.isActive` through the closure `startAnalysis` was created with (`useFaceDetection.ts:61`, `:95`). That value is the one from before the start, which is false, so as written the first frame returns at the guard and no frame is ever analysed (see Findings). Conversely, a loop started, with a successful detector creation, while the session is already active captures `true` and keeps running after a later `stopAnalysis`; `StartAnalysisAsWritten` states both first-frame outcomes, but the model does not follow the captured loop beyond that frame. `DetectFace`, which the rest of the model uses, reads the session's current `isActive`.
- An exception inside a frame ends the loop, because the reschedule sits inside the `try`. No frame after it runs (see `DetectFace`).
- The `catch` of `calculateAttention` (`emotionUtils.ts:93-96`) has no counterpart. With landmark records that always carry x, y and z, nothing in its body can throw, so 0.5 comes only from null or empty landmarks.
- IEEE-754 arithmetic is left out. Scores are exact reals, and a zero eye width becomes a non-finite ratio. The ratio's division is not evaluated further.
- `Math.round` display formatting in the report (`Practice.tsx:157-170`) is left out, and so is the chart data (`Dashboard.tsx:27-35`).
- Toasts, `console` output, the clipboard (`copyFormula`, `Formulas.tsx:120-127`), link creation and `window.open` (`Resources.tsx:87-103`) are side effects with no state to model.
- `Date` timestamps are left out. A history item carries no timestamp, and a new task's `Date.now()` id is a parameter.
- `Text.ToLower`: only ASCII letters change case, because JavaScript's full Unicode case mapping is not modelled.
- `Text.Trim`: only ASCII whitespace is removed, because JavaScript's Unicode whitespace classes are not modelled.
- `Dashboard.FormatTime` is defined on non-negative seconds only. The timer never holds a negative value.
- `generateQuestion`, `QuestionCard`, `GameBreak` and the analyser that builds attention reports are only referenced in the source, not shown. They are not part of this model. A question is an opaque integer handle, and the report is an input.
- The merge-conflict regions of `Resources.tsx` are left out, because the file does not compile as shown. Only the logic outside the markers is modelled, with the catalogue from `data/resources.ts`. The `icon` field of a resource is dropped.
- `Navigation.tsx`, `ResourceCard.tsx`, `FilterButtons.tsx`, `SearchBar.tsx` and `Index.tsx` are layout only and are not part of this model.

## Findings

| source | as written | input that shows it | evidently intended | confidence | as-written member | corrected member |
|---|---|---|---|---|---|---|
| learnify-tutor-io/src/pages/AITutor.tsx:355-363 | the favourites tab numbers its filtered list and passes that position to `toggleStarred`, which flips `history[position]` | history [unstarred a, starred b]: the favourites list is [b]; pressing b's star flips `history[0]`, so a becomes starred and b stays | the star of the k-th favourite unstars that favourite, so it leaves the view | not executed | AITutor.FavouriteToggleAsWrittenMisses | AITutor.FavouriteToggleRemoves |
| AI-MATH/src/hooks/useFaceDetection.ts:59-97 | `detectFace` tests `state.isActive` through the closure of the render that called `startAnalysis`, both at the guard and before rescheduling | a fresh, inactive session; the detector is created, the video is ready and the first frame has a face: `detectFace` returns at the guard, so nothing is recorded and no further frame is requested | while the session is active, each frame is analysed and the next one requested | not executed | FaceDetection.FaceDetectionState.StartAnalysisAsWritten | FaceDetection.FaceDetectionState.DetectFace |

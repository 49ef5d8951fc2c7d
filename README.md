# Confi: challenge lifecycle and per-user storage, in Dafny

Confi is a single-page personal-growth coaching application. It keeps all of
its state in the browser's key/value store, under keys namespaced by the
logged-in user. This project models the parts of it that hold state and
rules:

- **Per-user storage adapter** (`Storage`, file `storage.dfy`). The class
  `StorageService` holds the current user id and the browser store. The store
  is a map from key to a stored list. Challenges are appended, replaced
  first-by-id and deleted all-by-id. Affirmations are prepended and capped at
  ten. Journal entries are prepended without a cap. With no user, and that
  includes the empty id that logout installs, every read returns `[]` and
  every write leaves the store alone. `Valid()` says that every slot holds the
  kind of list its key prefix names and that no affirmation list is longer
  than ten.
- **Identity lookup** (`Auth`, file `auth.dfy`). `FindUser` is `login`'s
  case-insensitive search. `Register` is `signup` as a function of the stored
  user list. The class `AuthService` keeps that list and updates it the way
  the source does.
- **Challenge lifecycle** (`Hub`, file `challenge_hub.dfy`). A plan becomes a
  challenge. `Toggled` flips sub-tasks and re-derives the status. The class
  `ChallengeHub` holds the component's challenge list and form, and passes
  every change on to the storage service.
- **Progress summary** (`Progress`, file `progress_tracker.dfy`). It counts
  challenges by status and builds the padded status chart. It also saves
  journal entries.
- `Types` (`types.dfy`) holds the records. `Text` (`text.dfy`) holds ASCII
  `toLowerCase`, `trim` and the decimal rendering used in identifiers.
  `Wrappers` (`wrappers.dfy`) holds `Option` and `Result`.

The status rule is this: a challenge is Completed exactly when every sub-task
is done, and Active otherwise. A toggle re-establishes it every time
(`Toggled`'s contract). A challenge built from a plan with no sub-tasks starts
Active, even though its empty sub-task list counts as all done. So it breaks
the rule until its first toggle, which makes it Completed (`BuiltStatusRule`,
`ToggleEmptyCompletes`).

Where the design notes and the code disagree, the model follows the code:

- Keys have the form `confi_challenges_<id>`, `confi_affirmations_<id>` and
  `confi_journal_<id>`, not `confi_<id>_challenges`.
- The signup error reads "Username already exists".
- A toggle with an unknown sub-task id is not a no-op. It still rewrites the
  challenge with its status re-derived.

## Model

| member | source | states |
|---|---|---|
| `Text.ToLower` | services/authService.ts:15 | lower-casing keeps the length, leaves no upper-case letter, moves each upper-case letter down by 32 and keeps every other character |
| `Text.TrimStart` | components/ChallengeHub.tsx:30 | the result is a suffix of the input that does not start with white space, and everything dropped was white space |
| `Text.TrimEnd` | components/ChallengeHub.tsx:30 | the result is a prefix of the input that does not end with white space, and everything dropped was white space |
| `Text.TrimEmptyIffBlank` | components/ChallengeHub.tsx:30 | `trim` yields the empty string exactly when the input is all white space, which is the guard that skips generation and saving |
| `Text.DecimalString` | components/ChallengeHub.tsx:41 | the numeral is non-empty, made of digits, and one digit long exactly for numbers below ten |
| `Text.DecimalStringInjective` | components/ChallengeHub.tsx:41 | different numbers print differently |
| `Storage.Namespace` | services/storageService.ts:10-12 | the key suffix is never empty, and it is the user id whenever a user is set |
| `Storage.KeysSeparateUsers` | services/storageService.ts:10-12 | distinct non-empty user ids get distinct challenge, affirmation and journal keys |
| `Storage.KeyKindsNeverCollide` | services/storageService.ts:10-12 | a challenge key, an affirmation key and a journal key never coincide for any user ids, and none of them is the users key |
| `Storage.FindIndex` | services/storageService.ts:39 | the result is -1 exactly when no element has the id, and otherwise the position of the first one that does |
| `Storage.ReplaceFirstOnlyTouchesFirstMatch` | services/storageService.ts:39-43 | updating overwrites only the first element with the id; the length and all other elements, later duplicates included, stay |
| `Storage.ReplaceFirstWithoutMatch` | services/storageService.ts:39-43 | updating a list that has no element with the id leaves it unchanged |
| `Storage.RemoveById` | services/storageService.ts:50 | the survivors are exactly the elements without the id, the length never grows, and it shrinks when the id was present |
| `Storage.RemoveByIdConcat` | services/storageService.ts:50 | deleting distributes over concatenation, so survivors keep their relative order |
| `Storage.RemoveByIdWithoutMatch` | services/storageService.ts:50 | deleting an absent id returns the list whole |
| `Storage.RemoveByIdIdempotent` | services/storageService.ts:50 | deleting twice is the same as deleting once, because all matches go in one pass |
| `Storage.Take` | services/storageService.ts:65 | `slice(0, n)` gives the prefix of length `min(n, length)` |
| `Storage.PrependCapped` | services/storageService.ts:65 | the new affirmation is first, at most ten are kept, the rest is a prefix of the old list, and nothing is dropped when fewer than ten were stored |
| `Storage.SaveAllCapped` | services/storageService.ts:60-67 | after any non-empty series of saves, at most ten affirmations are stored and the last one saved is first |
| `Storage.SavedChallengeReadsBack` | services/storageService.ts:27-33 | reading back after a save gives the old challenges plus the new one at the end, and the user's affirmations and journal are untouched |
| `Storage.StorageService.constructor` | services/storageService.ts:8 | the service starts with no user and an empty store that satisfies the slot invariant |
| `Storage.StorageService.SetContext` | services/storageService.ts:16-18 | the current user id becomes the given string, and the store is unchanged |
| `Storage.StorageService.GetChallenges` | services/storageService.ts:20-25 | returns `[]` with no user (null or empty id), and otherwise the list under the user's challenge key |
| `Storage.StorageService.SaveChallenge` | services/storageService.ts:27-33 | with no user the store is unchanged; otherwise the challenge key holds the old list plus the challenge, and every other key is kept, so the same user's affirmations and journal read back unchanged |
| `Storage.StorageService.UpdateChallenge` | services/storageService.ts:35-44 | with no user or no matching id nothing is written; otherwise the first match is replaced in place, and the slot invariant is kept |
| `Storage.StorageService.DeleteChallenge` | services/storageService.ts:46-52 | with no user the store is unchanged; otherwise the challenge key holds the list without every element of the id, and is written even when nothing matched |
| `Storage.StorageService.GetAffirmations` | services/storageService.ts:54-58 | returns `[]` with no user, otherwise the stored list, and never more than ten entries |
| `Storage.StorageService.SaveAffirmation` | services/storageService.ts:60-67 | with no user the store is unchanged; otherwise the key holds the capped prepend of the old list, and the ten-entry bound is kept |
| `Storage.StorageService.GetJournalEntries` | services/storageService.ts:69-74 | returns `[]` with no user, and otherwise the stored journal |
| `Storage.StorageService.SaveJournalEntry` | services/storageService.ts:76-83 | with no user the store is unchanged; otherwise the journal key holds the entry followed by the old journal, with no cap |
| `Auth.FindUser` | services/authService.ts:15 | the lookup fails exactly when no stored username matches case-insensitively, and a found user is stored and matches |
| `Auth.FindUserFirst` | services/authService.ts:15 | the lookup returns the first matching user |
| `Auth.Register` | services/authService.ts:19-37 | signup fails with "Username already exists" exactly when a stored user matches case-insensitively, leaving the list as it was; otherwise it appends one user with the username verbatim |
| `Auth.RegisterKeepsNamesDistinct` | services/authService.ts:24-35 | for every user list: if usernames were pairwise distinct case-insensitively, they still are after signup |
| `Auth.LoginAfterSignup` | services/authService.ts:15-35 | after a successful `signup(u)`, `login(v)` returns the new user for every `v` equal to `u` up to case |
| `Auth.SecondSignupDifferingInCaseFails` | services/authService.ts:24-25 | `signup("Alice")` followed by `signup("alice")` makes the second call fail and keeps exactly the one new user |
| `Auth.AuthService.constructor` | services/authService.ts:13 | an absent users key reads as the empty list |
| `Auth.AuthService.Login` | services/authService.ts:10-17 | returns the first case-insensitive match, or none when nobody matches; the list is unchanged |
| `Auth.AuthService.Signup` | services/authService.ts:19-37 | the result and the new user list are those of `Register`, and case-insensitive uniqueness is preserved |
| `Hub.DerivedStatus` | components/ChallengeHub.tsx:68-69 | the derived status is never Pending, and it is Completed exactly when every sub-task is done (true of none) |
| `Hub.ToggleSubTasks` | components/ChallengeHub.tsx:64-66 | a toggle flips the sub-tasks with the id, and keeps ids, titles, order, length and every other sub-task |
| `Hub.Toggled` | components/ChallengeHub.tsx:64-71 | the toggled challenge obeys the status rule, and every field except sub-tasks and status is kept |
| `Hub.ToggleSubTasksTwice` | components/ChallengeHub.tsx:64-66 | toggling the same id twice restores the sub-task list |
| `Hub.ToggleTwice` | components/ChallengeHub.tsx:64-71 | two toggles restore the challenge with its status re-derived, so a challenge that obeyed the rule returns unchanged |
| `Hub.ToggleUnknownTask` | components/ChallengeHub.tsx:64-71 | an unknown sub-task id changes no sub-task but still re-derives the status |
| `Hub.ToggleEmptyCompletes` | components/ChallengeHub.tsx:68-69 | a challenge with no sub-tasks becomes Completed on any toggle |
| `Hub.FindChallenge` | components/ChallengeHub.tsx:61-62 | none exactly when no challenge has the id, and otherwise the first one that does |
| `Hub.ReplaceById` | components/ChallengeHub.tsx:73 | the in-memory update keeps the length, replaces every challenge with the id and keeps all others |
| `Hub.ToggleInListEffect` | components/ChallengeHub.tsx:60-73 | an unknown challenge id leaves the list alone; otherwise only challenges with that id change, and each then obeys the status rule |
| `Hub.SubTaskIdsDistinct` | components/ChallengeHub.tsx:41 | `st-<now>-<i>` differs for different `i` |
| `Hub.BuildChallenge` | components/ChallengeHub.tsx:34-42 | a built challenge keeps the plan's title and description, is Active, spans 14 days of 86400000 ms from `now`, and has one uncompleted sub-task per plan title in order |
| `Hub.BuiltSubTaskIdsDistinct` | components/ChallengeHub.tsx:41 | the sub-tasks of a built challenge have pairwise distinct ids |
| `Hub.BuiltStatusRule` | components/ChallengeHub.tsx:38-41 | a built challenge obeys the status rule exactly when the plan has at least one sub-task |
| `Hub.ThreeTaskScenario` | components/ChallengeHub.tsx:60-75 | with sub-tasks A, B, C: after toggling A the challenge is Active with A done, and after toggling B and C it is Completed |
| `Hub.ChallengeHub.constructor` | components/ChallengeHub.tsx:9-16 | the component starts with no challenges, the form hidden, an empty goal and no plan |
| `Hub.ChallengeHub.LoadChallenges` | components/ChallengeHub.tsx:22-27 | the in-memory list becomes what storage returns, and the form is untouched |
| `Hub.ChallengeHub.HandleGeneratePlan` | components/ChallengeHub.tsx:29-48 | a blank goal or a failed generation leaves the plan as it was; otherwise the plan becomes the challenge built at `now` |
| `Hub.ChallengeHub.HandleSaveChallenge` | components/ChallengeHub.tsx:50-58 | with no plan nothing changes, form fields included; otherwise storage (when someone is signed in, and only then) holds the old challenges plus the plan under the user's key and nothing else, the form is reset and the list is reloaded |
| `Hub.ChallengeHub.ToggleTask` | components/ChallengeHub.tsx:60-75 | the form fields never change; an unknown challenge id changes nothing; otherwise the list holds the toggled challenge, and storage is written only when someone is signed in and has a stored challenge with that id, replacing its first match under the user's key |
| `Hub.ChallengeHub.HandleDelete` | components/ChallengeHub.tsx:77-82 | the form fields never change; without confirmation nothing changes; with it every challenge with the id leaves the list, and storage (when someone is signed in, and only then) loses them under the user's key and nothing else |
| `Progress.CountStatus` | components/ProgressTracker.tsx:35-36 | a count is at most the list length, zero exactly when no challenge has the status, and the full length exactly when all have it |
| `Progress.CountsPartition` | components/ProgressTracker.tsx:35-36 | the Active, Completed and Pending counts add up to the length, so Active plus Completed never exceeds it and Pending challenges count in neither |
| `Progress.CountStatusConcat` | components/ProgressTracker.tsx:35-36 | counting distributes over concatenation |
| `Progress.PieData` | components/ProgressTracker.tsx:38-42 | the chart has the Active and Completed counts, and a Pending slice that pads them to five, or is zero when they reach five |
| `Progress.PieTotal` | components/ProgressTracker.tsx:38-42 | the slices sum to five when at most five are counted and to the count otherwise, never more than five or the number of challenges, whichever is larger |
| `Progress.PromptOrDefault` | components/ProgressTracker.tsx:61 | the saved prompt is never empty: it is the reflection prompt, or "Self Reflection" when that is empty |
| `Progress.NewEntry` | components/ProgressTracker.tsx:57-63 | a new entry carries the time as id and date, the prompt or the default prompt when it is empty (so never empty), and the text as written |
| `Progress.ProgressTracker.constructor` | components/ProgressTracker.tsx:15-18 | the component starts with empty lists and empty text fields |
| `Progress.ProgressTracker.LoadData` | components/ProgressTracker.tsx:26-33 | the lists become what storage returns for challenges and the journal |
| `Progress.ProgressTracker.HandleGetPrompt` | components/ProgressTracker.tsx:46-51 | the reflection prompt becomes the generated text, and nothing else changes |
| `Progress.ProgressTracker.HandleSaveEntry` | components/ProgressTracker.tsx:53-70 | blank text changes nothing; otherwise the new entry is prepended in memory and, when someone is signed in and only then, in storage under the user's journal key and nothing else; both text fields are cleared |

## Left out

- Rendering, styling, loading flags and `useEffect` wiring are left out, because they hold no state the rules depend on. This covers Sidebar, ConfiAvatar, Loader, LearningCenter, Login and App's view switching.
- The generative-text gateway (services/aiService.ts) and the Dashboard chat are left out, because they call an external service. A generated plan is a `Plan` parameter, and a failed generation (the `alert` path) is `None`. A generated prompt is a string parameter.
- Serialisation, the simulated `delay`s and the asynchronous interleaving of handlers are left out. The store is an in-memory map, and each handler runs to completion. The lost update of two quick toggles is therefore not modelled.
- `confirm` is a boolean parameter, and `alert` is not modelled.
- Dates are integer milliseconds, not ISO strings. Each handler uses one `now`, although the source reads the clock separately for the challenge id, the end date and every sub-task id.
- `toLowerCase` and `trim` are modelled for ASCII only, because Unicode case mapping and white space are not modelled.
- Text.DecimalString renders only non-negative integers, which is all that `Date.now()` and array indices produce.
- The `userId` field that ProgressTracker and AffirmationZone put on new entries is not part of the records, because types.ts does not declare it.
- Storage.StorageService.constructor starts from an empty store. Data left by earlier sessions is assumed to have been written by this service, which `Valid()` states.
- Auth.AuthService keeps the users list as a field, not as the `confi_users` slot of the shared store. `KeyKindsNeverCollide` shows the two never share a key.
- components/AffirmationZone.tsx is not part of this model. Its in-memory prepend is uncapped; only the stored list is capped.

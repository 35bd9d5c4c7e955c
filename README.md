# HyMatch core, modelled in Dafny

HyMatch is a mobile app for finding part-time jobs. Job cards are swiped
right (chosen) or left (refused). Every swipe becomes an application in an
in-memory ledger, and the Chosen and Refused tabs list the matching jobs.
The app also has a filter screen, a profile editor with a required-field
check, a translation table for Japanese, English and Uzbek, and a reminder
that asks the user to complete their profile.

This project models that in-memory bookkeeping. There is one Dafny module
per core source file, plus shared helpers (`ListToggle`, `NumberParsing` for
JavaScript's built-in `parseInt`, and `UserContext` for the user holder):

- `Types` (`types.dfy`): the job, application and user records of `types/`.
- `JobContext` (`job_context.dfy`): the catalogue, the append-only ledger,
  the chosen and refused views, and the shared filter and sort settings
  (`contexts/JobContext.tsx`).
- `SwipeCards` (`swipe_cards.dfy`): the undecided jobs, the cursor, the
  window of three cards, the two commit handlers and the card stack
  (`components/SwipeCards.tsx`).
- `SwipeableCard` (`swipeable_card.dfy`): the gesture handlers and the
  three-way release decision (`components/SwipeableCard.tsx`).
- `FilterModal` (`filter.dfy`) and `ListToggle` (`list_toggle.dfy`): the
  filter screen's local copy, its toggles, reset and apply
  (`app/filter.tsx`). The toggle is shared with the profile editor.
- `ProfileEdit` (`profile_edit.dfy`), `NumberParsing` (`parse_int.dfy`) and
  `UserContext` (`user_context.dfy`): the profile draft, its defaults, the
  age input, the save check and the save itself (`app/profile/edit.tsx`).
- `LanguageContext` (`language_context.dfy`): the three translation tables
  and the lookup that falls back to the key (`contexts/LanguageContext.tsx`).
- `ProfileIncompleteModal` (`profile_incomplete_modal.dfy`): the reminder's
  visibility flag (`components/ProfileIncompleteModal.tsx`).
- `JobListItem` (`job_list_item.dfy`): the row of at most four work-day
  badges plus a "+N" label (`components/JobListItem.tsx`).

React state that a handler replaces becomes a field of a class, and the
handler becomes a method with a `modifies` clause. Pure expressions (the
views, the window, the toggles, the checks, the lookup) become functions.
The properties are lemmas about those functions. Each method's `ensures`
ties its new state to them. Clock readings (`Date.now()`, `new Date()`)
are parameters. The model does not assume they are unique.

`addApplication` (`contexts/JobContext.tsx:40-49`) appends unconditionally.
`JobContext.JobStore.AddApplication` and `JobContext.AddTwice` keep that
behaviour. Only the exclusion in `SwipeCards` keeps a job from being
recorded twice.

## Model

| member | source | states |
|---|---|---|
| JobContext.JobStore.constructor | contexts/JobContext.tsx:30-38 | the store starts with the given catalogue, no applications, empty filter lists, wage range (0, 5000) and sort key `date`, which are the initial filters a reset restores; the catalogue is a constant with no setter |
| JobContext.JobStore.AddApplication | contexts/JobContext.tsx:40-49 | exactly one record is appended at the end; earlier records are unchanged; it carries the given job id and status and the user id "current-user" |
| JobContext.JobStore.ChosenJobs | contexts/JobContext.tsx:51-56 | a job is listed exactly when it is in the catalogue and has a `chosen` record |
| JobContext.JobStore.RefusedJobs | contexts/JobContext.tsx:58-63 | a job is listed exactly when it is in the catalogue and has a `refused` record |
| JobContext.JobStore.SetFilters | contexts/JobContext.tsx:13 | the shared filters become the given ones; nothing else in the store changes |
| JobContext.JobStore.SetSortBy | contexts/JobContext.tsx:15 | the shared sort key becomes the given one; nothing else in the store changes |
| JobContext.AddTwice | contexts/JobContext.tsx:40-49 | two calls with the same job id leave two records for it: there is no duplicate check |
| JobContext.IdsWithStatus | contexts/JobContext.tsx:52-54 | an id is in the list exactly when some application with that status names it |
| JobContext.JobsWithStatus | contexts/JobContext.tsx:51-63 | a view is no longer than the catalogue and holds a job exactly when the catalogue does and some application with the view's status names it |
| JobContext.JobsWithStatusSpec | contexts/JobContext.tsx:51-63 | each view is a subsequence of the catalogue in catalogue order; it holds each entry with a matching application as often as the catalogue does, and nothing else |
| JobContext.InViewIff | contexts/JobContext.tsx:55 | a job is in a view exactly when it is in the catalogue and has an application with that status; it is never listed more often than in the catalogue |
| JobContext.DuplicateRecordKeepsViews | contexts/JobContext.tsx:51-63 | a second record for the same job and status adds a ledger entry but does not change the view |
| JobContext.Select | contexts/JobContext.tsx:55 | a selection by id list is no longer than the catalogue, and every job it keeps comes from the catalogue with its id listed (or not listed) as asked |
| JobContext.SelectSpec | contexts/JobContext.tsx:55 | a selection is a subsequence of the catalogue and keeps each entry as often as the catalogue does when its id matches, else never |
| SwipeCards.AvailableJobsSpec | components/SwipeCards.tsx:15-16 | the undecided list keeps catalogue order and holds exactly the entries that no application names |
| SwipeCards.AvailableJobs | components/SwipeCards.tsx:15-16 | the undecided list is no longer than the catalogue and holds a job exactly when the catalogue does and no application names it |
| SwipeCards.Commit | components/SwipeCards.tsx:18-32 | with the cursor inside the undecided list, one record is appended for the job at the cursor with the given status, earlier records are kept and the cursor advances by one; otherwise the session is unchanged |
| SwipeCards.VisibleJobs | components/SwipeCards.tsx:34 | the window holds at most 3 jobs, `min(3, remaining)` of them; it is empty exactly when the cursor is at or past the end; card i is undecided job cursor + i |
| SwipeCards.CommitRecordsTopCard | components/SwipeCards.tsx:18-32 | with a non-empty window, a commit appends one application for the top card and advances the cursor by one; with an empty window it changes nothing |
| SwipeCards.ReplayMonotone | components/SwipeCards.tsx:22 | over any series of commits the cursor never decreases, the ledger only grows at its end, and both move by the same amount, at most once per commit |
| SwipeCards.CommittedJobLeavesPool | components/SwipeCards.tsx:16-21 | a committed job appears in the view of its status, not in the other view, and no longer among the undecided jobs |
| SwipeCards.SwipeCards.constructor | components/SwipeCards.tsx:11-12 | the session starts with the cursor at 0 on the shared store |
| SwipeCards.SwipeCards.HandleSwipeRight | components/SwipeCards.tsx:18-24 | inside the list, the job at the cursor is recorded as chosen and the cursor advances by one; past its end, neither the ledger nor the cursor changes |
| SwipeCards.SwipeCards.HandleSwipeLeft | components/SwipeCards.tsx:26-32 | the same, with the job recorded as refused |
| SwipeCards.SwipeCards.ReleaseTopCard | components/SwipeableCard.tsx:53-68 | releasing the top card commits right, commits left or returns, as the release decision says, and the session changes only on a commit |
| SwipeCards.EveryOtherJobRecorded | components/SwipeCards.tsx:16-30 | for a catalogue with distinct ids, from an empty ledger, the k-th commit records the job at index 2k; afterwards the undecided list is the skipped odd-index jobs followed by the rest of the catalogue |
| SwipeCards.TopCardAfterCommits | components/SwipeCards.tsx:20-34 | for a catalogue with distinct ids, after k commits from an empty ledger the top card is the job at index 2k |
| SwipeCards.SessionEndsEarly | components/SwipeCards.tsx:34-36 | for a catalogue with distinct ids, with 2k jobs, after k commits the window is empty and the placeholder shows, while the k odd-index jobs are still undecided |
| SwipeCards.Odds | components/SwipeCards.tsx:16 | the skipped jobs are those at indices 1, 3, …, 2k - 1 |
| SwipeCards.IntendedRecordsEveryJob | components/SwipeCards.tsx:18-32 | for a catalogue with distinct ids, with the corrected commit, the k-th commit records the k-th job and the undecided list is the rest of the catalogue |
| SwipeCards.IntendedTopCard | components/SwipeCards.tsx:34-36 | for a catalogue with distinct ids, with the corrected commit, the top card after k commits is job k, and the window is empty only once every job is recorded |
| SwipeCards.CardStack | components/SwipeCards.tsx:58-64 | the stack has one card per visible job, card i showing job i with stacking order (number of cards) - i; only card 0 is on top |
| SwipeCards.Render | components/SwipeCards.tsx:36-56 | the placeholder, showing the "no more jobs" card, is rendered exactly when the window is empty; otherwise one card per job in the window |
| SwipeCards.CardStackOrder | components/SwipeCards.tsx:58-64 | only the first card is on top; its stacking order strictly decreases down the stack and never falls below 1 |
| SwipeCards.RenderSpec | components/SwipeCards.tsx:36-56 | the placeholder shows exactly when the cursor has reached the end of the undecided list; otherwise 1 to 3 cards are shown and the top card is the job a commit would record |
| SwipeCards.AppliedIds | components/SwipeCards.tsx:15 | the ids list has one entry per application, its job id |
| SwipeableCard.Decide | components/SwipeableCard.tsx:53-54 | release commits right exactly when the displacement is above 100, commits left exactly below -100, and returns otherwise, including at exactly ±100 |
| SwipeableCard.Callbacks | components/SwipeableCard.tsx:56-68 | a release invokes at most one callback: onSwipeRight exactly on a right commit, onSwipeLeft exactly on a left commit |
| SwipeableCard.ReleaseFiresAtMostOnce | components/SwipeableCard.tsx:53-68 | a commit invokes exactly one callback, a return none, and never both |
| SwipeableCard.DecideMirror | components/SwipeableCard.tsx:53-54 | the decision is symmetric: negating the displacement swaps right and left and keeps return |
| SwipeableCard.DecideMonotone | components/SwipeableCard.tsx:53-54 | moving further right never turns a right commit into something else, and the same to the left |
| SwipeableCard.Rotation | components/SwipeableCard.tsx:46-50 | the tilt is ±15 degrees at ±300 and has the sign of the displacement |
| SwipeableCard.SwipeableCard.constructor | components/SwipeableCard.tsx:34-37 | a card starts at rest: no offset or rotation, scale 1 |
| SwipeableCard.SwipeableCard.OnStart | components/SwipeableCard.tsx:40-42 | a grab on the top card shrinks it to 0.95; other cards take no gesture |
| SwipeableCard.SwipeableCard.OnActive | components/SwipeableCard.tsx:43-51 | the top card follows the finger and tilts with it; the scale is unchanged; other cards do not move |
| SwipeableCard.SwipeableCard.OnEnd | components/SwipeableCard.tsx:52-70 | on the top card, a commit sends it to ±600 and keeps the release's vertical offset; a return sends it back to 0, 0 and no tilt; the scale is reset to 1 and the callbacks are those of the decision; a card that is not on top is untouched and invokes nothing |
| ListToggle.RemoveAll | app/filter.tsx:45 | removing an item removes every occurrence and keeps every other item |
| ListToggle.Toggle | app/filter.tsx:44-46 | a toggle flips the toggled item's membership and keeps every other item's |
| ListToggle.ToggleAbsentAppends | app/filter.tsx:46 | toggling an absent item appends it at the end |
| ListToggle.RemoveAllAbsent | app/filter.tsx:45 | removing an absent item leaves the list as it is |
| ListToggle.RemoveAllAppend | app/filter.tsx:45 | removing an item distributes over concatenation |
| ListToggle.ToggleTwiceAbsent | app/filter.tsx:44-46 | toggling an absent item twice restores the list exactly |
| ListToggle.ToggleTwicePresent | app/filter.tsx:44-46 | toggling a present item twice restores the set of items but moves the item to the end |
| ListToggle.RemoveAllNoDuplicates | app/filter.tsx:45 | removing an item keeps a list free of duplicates |
| ListToggle.TogglePreservesNoDuplicates | app/filter.tsx:44-46 | a toggle keeps a list free of duplicates |
| FilterModal.WithJobTypeToggled | app/filter.tsx:41-48 | the job-type toggle flips that type only and changes no other list and not the wage range |
| FilterModal.WithJapaneseLevelToggled | app/filter.tsx:50-57 | the level toggle flips that level only and changes no other list and not the wage range |
| FilterModal.WithWorkDayToggled | app/filter.tsx:59-66 | the work-day toggle flips that day only and changes no other list and not the wage range |
| FilterModal.TogglesKeepWellFormed | app/filter.tsx:41-66 | every toggle keeps the three filter lists free of duplicates |
| FilterModal.ToggleWorkDayTwice | app/filter.tsx:59-66 | toggling an unselected work day twice gives the filters back exactly |
| FilterModal.FilterModal.constructor | app/filter.tsx:12-13 | the screen opens on a copy of the shared filters and sort key |
| FilterModal.FilterModal.ToggleJobType | app/filter.tsx:41-48 | the local filters become the job-type toggle of the old ones |
| FilterModal.FilterModal.ToggleJapaneseLevel | app/filter.tsx:50-57 | the local filters become the level toggle of the old ones |
| FilterModal.FilterModal.ToggleWorkDay | app/filter.tsx:59-66 | the local filters become the work-day toggle of the old ones |
| FilterModal.FilterModal.SelectSort | app/filter.tsx:90 | the local sort key becomes the pressed option; nothing else changes |
| FilterModal.FilterModal.HandleReset | app/filter.tsx:30-39 | the local settings become the store's initial ones: empty lists, wage range (0, 5000), sort key `date` |
| FilterModal.FilterModal.HandleApply | app/filter.tsx:24-28 | both local settings are copied into the store; the ledger is untouched |
| FilterModal.EditThenApply | app/filter.tsx:12-28 | local edits leave the shared settings alone until apply copies both the filters and the sort key |
| ProfileEdit.InitialForm | app/profile/edit.tsx:12-33 | without a user the draft is empty text, age 20, walk times 5, gender male, level N5 and no preferences; with one it is the user's fields, where a zero age or walk time takes the same defaults |
| ProfileEdit.AgeFromInput | app/profile/edit.tsx:128 | the stored age is never 0: NaN or a zero parse becomes 20, any other parse is kept |
| ProfileEdit.AgeFromDecimal | app/profile/edit.tsx:128 | typing the decimal numeral of an age stores that age, except that 0 becomes 20 |
| ProfileEdit.MissingFields | app/profile/edit.tsx:37-38 | the missing list is empty exactly when first name, last name, email and phone are all non-empty, and names each empty one; only presence is checked |
| ProfileEdit.SaveResult | app/profile/edit.tsx:35-51 | a save goes through exactly when no required field is missing, and a refused save reports the missing fields |
| ProfileEdit.SaveSpec | app/profile/edit.tsx:35-51 | a save goes through exactly when the four required fields are non-empty; the saved user is the draft unchanged, marked complete, with the current id if non-empty and otherwise the fresh one, and no pictures |
| ProfileEdit.SaveThenReopen | app/profile/edit.tsx:12-49 | opening the editor on a user just saved shows the draft it was saved from |
| ProfileEdit.EditProfileModal.constructor | app/profile/edit.tsx:12-33 | the editor opens on the initial draft for the current user |
| ProfileEdit.EditProfileModal.SetFirstName | app/profile/edit.tsx:107 | the first name becomes the typed text; no other field changes |
| ProfileEdit.EditProfileModal.SetLastName | app/profile/edit.tsx:116 | the last name becomes the typed text; no other field changes |
| ProfileEdit.EditProfileModal.SetNationality | app/profile/edit.tsx:161 | the nationality becomes the typed text; no other field changes |
| ProfileEdit.EditProfileModal.SetEmail | app/profile/edit.tsx:173 | the email becomes the typed text; no other field changes |
| ProfileEdit.EditProfileModal.SetPhone | app/profile/edit.tsx:182 | the phone number becomes the typed text; no other field changes |
| ProfileEdit.EditProfileModal.SetGender | app/profile/edit.tsx:143 | the gender becomes the pressed option; no other field changes |
| ProfileEdit.EditProfileModal.SetJapaneseLevel | app/profile/edit.tsx:200 | the Japanese level becomes the pressed option; no other field changes |
| ProfileEdit.EditProfileModal.SetAge | app/profile/edit.tsx:128 | the age field becomes the parsed input with its fallback; no other field changes |
| ProfileEdit.EditProfileModal.ToggleDay | app/profile/edit.tsx:60-67 | one preferred day flips; no other draft field changes |
| ProfileEdit.EditProfileModal.ToggleJobType | app/profile/edit.tsx:69-76 | one preferred job type flips; no other draft field changes |
| ProfileEdit.EditProfileModal.HandleSave | app/profile/edit.tsx:35-53 | with a required field empty the user is alerted and the stored user is unchanged; otherwise the saved record replaces the user as a whole |
| NumberParsing.TrimStart | app/profile/edit.tsx:128 | the trimmed text is a suffix of the input, everything cut off is white space, and it does not start with white space |
| NumberParsing.DigitPrefix | app/profile/edit.tsx:128 | the digit run is the longest prefix made of digits of the base |
| NumberParsing.ParseInt | app/profile/edit.tsx:128 | text that is empty or only white space gives NaN, and a negative result needs a leading minus after the white space |
| NumberParsing.ParseDecimal | app/profile/edit.tsx:128 | parsing the decimal numeral of any natural number gives that number back |
| NumberParsing.ParseStopsAtNonDigit | app/profile/edit.tsx:128 | a number's decimal numeral followed by text that does not start with a digit reads as that number, unless the text turns a lone 0 into a `0x` prefix |
| NumberParsing.DigitPrefixStops | app/profile/edit.tsx:128 | the digit run ends where the first non-digit starts |
| NumberParsing.ParseBareHexPrefix | app/profile/edit.tsx:128 | `0x` or `0X` followed by anything that does not start with a hex digit gives NaN, not 0 |
| NumberParsing.ParseNegative | app/profile/edit.tsx:128 | a minus in front of the decimal numeral of any natural number gives its negation |
| NumberParsing.ParseHex | app/profile/edit.tsx:128 | `0x` or `0X` followed by a run of hex digits reads as the base-16 value of the run, whatever follows the run |
| NumberParsing.ParseHexExample | app/profile/edit.tsx:128 | "0x1A" reads as 26 |
| NumberParsing.ParseNoDigits | app/profile/edit.tsx:128 | empty text, and any text whose first character is neither white space, a sign nor a decimal digit, gives NaN |
| NumberParsing.LeadingWhiteSpaceIgnored | app/profile/edit.tsx:128 | white space in front of the number changes nothing |
| LanguageContext.T | contexts/LanguageContext.tsx:85-87 | the lookup returns the table's entry when it is present and non-empty, and the key itself otherwise; it is total |
| LanguageContext.JaKeys | contexts/LanguageContext.tsx:12-33 | the Japanese table defines exactly the twenty keys |
| LanguageContext.EnKeys | contexts/LanguageContext.tsx:34-55 | the English table defines exactly the twenty keys |
| LanguageContext.UzKeys | contexts/LanguageContext.tsx:56-77 | the Uzbek table defines exactly the twenty keys |
| LanguageContext.JaNonEmpty | contexts/LanguageContext.tsx:12-33 | no Japanese entry is empty |
| LanguageContext.EnNonEmpty | contexts/LanguageContext.tsx:34-55 | no English entry is empty |
| LanguageContext.UzNonEmpty | contexts/LanguageContext.tsx:56-77 | no Uzbek entry is empty |
| LanguageContext.TwentyKeys | contexts/LanguageContext.tsx:11-78 | there are twenty distinct keys |
| LanguageContext.FallbackIsUniform | contexts/LanguageContext.tsx:11-87 | the lookup falls back to the key exactly when the key is not one of the twenty, so it falls back in one language exactly when it does in every language |
| LanguageContext.LanguageProvider.constructor | contexts/LanguageContext.tsx:83 | the language starts as Japanese |
| LanguageContext.LanguageProvider.SetLanguage | contexts/LanguageContext.tsx:83 | the language is replaced |
| LanguageContext.LanguageProvider.Translate | contexts/LanguageContext.tsx:85-87 | `t` is the lookup in the current language; it falls back exactly for keys that are not among the twenty, and then returns the key |
| UserContext.UserStore.constructor | app/profile/edit.tsx:10 | the holder starts with the given user, possibly none |
| UserContext.UserStore.SetUser | app/profile/edit.tsx:51 | the stored user becomes the given one |
| ProfileIncompleteModal.ProfileIncompleteModal.constructor | components/ProfileIncompleteModal.tsx:12-20 | the state after mounting, once the effect has run for the current user: the reminder is visible exactly when there is no user or its profile is incomplete |
| ProfileIncompleteModal.ProfileIncompleteModal.OnUserChanged | components/ProfileIncompleteModal.tsx:14-20 | after a user change the reminder is visible exactly when there is no user or its profile is incomplete |
| ProfileIncompleteModal.ProfileIncompleteModal.HandleDismiss | components/ProfileIncompleteModal.tsx:27-29 | dismissing hides the reminder and touches nothing else |
| ProfileIncompleteModal.ProfileIncompleteModal.HandleComplete | components/ProfileIncompleteModal.tsx:22-25 | completing hides the reminder and leads to the route "/profile/edit" |
| ProfileIncompleteModal.ProfileIncompleteModal.Render | components/ProfileIncompleteModal.tsx:31-57 | nothing is rendered exactly when the reminder is hidden; otherwise its title and button are the translations of "profile.incomplete" and "profile.complete" |
| ProfileIncompleteModal.SavedUserNeedsNoReminder | components/ProfileIncompleteModal.tsx:15-19 | a user written by a successful save never calls for the reminder |
| ProfileIncompleteModal.ReminderTextsTranslated | components/ProfileIncompleteModal.tsx:50-56 | both of the reminder's texts have a translation in every language and never fall back to the key |
| ProfileIncompleteModal.SaveThenRemind | components/ProfileIncompleteModal.tsx:14-20 | the save is refused exactly when a required field is missing; after a save that goes through the reminder is hidden; after a refused save the user is unchanged and the reminder keeps its visibility, because the effect runs only on a user change |
| JobListItem.ShownDays | components/JobListItem.tsx:40 | the badges are the first min(4, n) work days, in order |
| JobListItem.MoreLabel | components/JobListItem.tsx:43-44 | a "+k" label is shown exactly when there are more than four days, and then k is at least 1 |
| JobListItem.RowAccountsForEveryDay | components/JobListItem.tsx:40-44 | without a label the badges are all the days; with one, the badges and the label's count add up to n, and the badges followed by the hidden days are the days |

## Left out

- Navigation (`router.push`, `router.back`) and `Alert.alert` are platform side effects. `HandleSave` returns an `alerted` flag and `HandleComplete` returns the route instead.
- The spring animation (`withSpring`) is not modelled. Each handler sets the target value the spring moves towards. The SwipeIndicator opacity interpolation is left out. The tilt is modelled by its linear formula on the displacement, which is what the interpolation gives without clamping.
- Gesture-handler and reanimated threading (`runOnJS`, shared values) are concurrency in foreign libraries. The model runs each handler as one atomic step.
- `Date.now()` and `new Date()` are parameters (`id`, `appliedAt`, `freshId`). Nothing is assumed about their uniqueness or order.
- The stored filters and sort key are never applied to a job list in the source, so no filter or sort predicate is modelled.
- `contexts/UserContext.tsx` and `data/mockJobs` are not part of this model. The user is an `Option<User>` in a small holder, and the catalogue is an arbitrary sequence.
- JavaScript numbers are modelled as unbounded integers (ages, walk times, the wage range) or exact reals (displacements, scale). There is no floating-point rounding.
- NumberParsing.ParseInt: `parseInt` values above 2^53 are exact here, but in JavaScript they lose precision.
- The profile editor has no input for stations, walk times, postal code, prefecture, city, address, visa type or work experience. Those fields are carried from the user into the save, except that a walk time of 0 becomes 5 (`InitialForm`). Without a user they start as "" and 5.
- The profile picture and visa image controls are not modelled. `SaveResult` writes no pictures because the draft holds none.
- The contact screen and the pure presentation components (job card, icons, badges, swipe indicator) carry no logic and are left out.
- The translation tables are copied into the model whole. Two of their keys, `tabs.settings` and `filter.wage`, are looked up by no screen modelled here.
- LanguageContext.T: the table is modelled as a map holding only the twenty keys. In the source it is a plain object, so a key naming an inherited object property (`toString`, `constructor`, `__proto__`) finds that property instead of falling back to the key.
- FallbackIsUniform: holds for the map model only. Keys naming inherited object properties are outside it, for the reason given under `LanguageContext.T`.
- LanguageContext.LanguageProvider.Translate: is `T` in the current language, so it leaves out inherited object properties for the reason given under `LanguageContext.T`.
- SwipeCards.SwipeCards: the class keeps the cursor step as written. The corrected step is modelled as `CommitIntended` and `ReplayIntended`, with its own lemmas.

## Findings

| source | as written | input that shows it | evidently intended | confidence | as-written member | corrected member |
|---|---|---|---|---|---|---|
| components/SwipeCards.tsx:16-30 | a commit records the job at the cursor, which removes it from `availableJobs`, and also advances `currentIndex`, so the next job slides under the cursor and is jumped over | a catalogue of two jobs with distinct ids and an empty ledger: one swipe records job 0, the window is then empty and job 1 is never shown | the cursor stays put (or the list is not recomputed), so every undecided job is shown once, in order | high, not executed | SwipeCards.SessionEndsEarly | SwipeCards.IntendedRecordsEveryJob |

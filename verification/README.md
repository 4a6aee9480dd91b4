# Noor: local state stores and decision rules

Noor is a prayer-companion mobile app. Almost all of it is screens and static
devotional content; the logic it has lives in two state providers and two small
rules, and that is what this Dafny project models:

- **The app data store** (`AppProvider`): today's five-prayer checklist (generated
  from the fixed prayer table, or reloaded if the stored one is dated today), the
  journal (new entries first, deletion by id) and the tasbih (dhikr counter)
  history, each written through to the device's key-value store; and two derived
  counts, the prayers already prayed today ("streak") and today's dhikr total.
- **The onboarding store** (`OnboardingProvider`): the location, calculation
  method and notification choices, a completion flag persisted as the text
  `"true"`, a completion step that only takes effect when both writes land and
  rethrows otherwise, and a reset that swallows failures.
- **The root redirect rule** (`app/_layout.tsx`): a loading view while the
  onboarding store loads; then users who have not finished onboarding are sent to
  the welcome screen and users who have are sent out of the onboarding screens.
- **The progress dots** (`OnboardingProgress`): each step index is completed,
  active or inactive relative to the current step.

Files: `key_value.dfy` (the storage slots and outcomes), `seqs.dfy` (JavaScript's
`filter` and its laws), `noor_types.dfy` (records and the prayer table),
`app_store.dfy`, `onboarding_store.dfy`, `root_layout.dfy`,
`onboarding_progress.dfy`.

The clock is a parameter: `today`, ids and timestamps are passed in. Storage is a
set of typed slots, one per key, each `Absent` (missing or empty text), `Corrupt`
(text on which `JSON.parse` throws) or `Present(value)`; the onboarding completion
flag is the exception, kept as the unparsed text itself (`Option<string>`, absent
or the text found), since the code compares it with `"true"` without parsing it; a rejected read and the
success of each write or removal are boolean parameters. The stores are classes
whose fields are the provider's state plus the slots; each method states its
whole new state.

Three behaviours of the code worth noting, modelled as written: `addJournalEntry`
validates nothing (empty content is accepted); this onboarding store keeps no
user profile; and a failed `resetOnboarding` or `completeOnboarding` leaves memory
unchanged even when one of its two storage calls landed, so storage and memory can
disagree until the next load.

## Model

| member | source | states |
|---|---|---|
| AppStore.GenerateTodayPrayers | noor-master/noor-master/providers/AppProvider.tsx:13-22 | one record per row of the prayer table, in table order; each is pending, has the table's name, Arabic name and fixed time, and the id `<today>-<table id>` |
| AppStore.GeneratedIdsDistinct | noor-master/noor-master/providers/AppProvider.tsx:16 | no two records of a generated checklist share an id |
| AppStore.GeneratedStreakZero | noor-master/noor-master/providers/AppProvider.tsx:13-22 | a generated checklist has a streak of 0 |
| AppStore.PrayerStreak | noor-master/noor-master/providers/AppProvider.tsx:116-119 | the number of prayers on time or late, never more than the list's length; see StreakBounds, StreakAppend, StreakAfterUpdate |
| AppStore.StreakBounds | noor-master/noor-master/providers/AppProvider.tsx:116-119 | the streak lies in 0..length, equals the length iff every prayer is on time or late, and is 0 iff none is |
| AppStore.StreakAppend | noor-master/noor-master/providers/AppProvider.tsx:117 | the streak is additive over concatenation |
| AppStore.StreakAfterUpdate | noor-master/noor-master/providers/AppProvider.tsx:69-80 | updating the one record with an id changes the streak by that record's contribution alone (old status out, new status in) |
| AppStore.WithStatus | noor-master/noor-master/providers/AppProvider.tsx:71-73 | the list with the new status on every record carrying the id; same length and ids; see UpdateFrame, UpdateUnknownId, UpdateLastWins |
| AppStore.UpdateFrame | noor-master/noor-master/providers/AppProvider.tsx:71-73 | the update keeps length, order, ids, names and times, sets the new status on matching ids and keeps every other status |
| AppStore.UpdateUnknownId | noor-master/noor-master/providers/AppProvider.tsx:71-73 | an id no record carries leaves the list unchanged |
| AppStore.UpdateLastWins | noor-master/noor-master/providers/AppProvider.tsx:71-73 | two updates of the same id equal the later one alone |
| AppStore.UpdateGenerated | noor-master/noor-master/providers/AppProvider.tsx:69-80 | on a generated checklist, updating a table prayer's id changes exactly that record's status |
| AppStore.LoadedPrayers | noor-master/noor-master/providers/AppProvider.tsx:42-52 | a stored checklist dated today verbatim, otherwise five all-pending records; see LoadKeepsOnlyToday |
| AppStore.LoadKeepsOnlyToday | noor-master/noor-master/providers/AppProvider.tsx:42-52 | a stored checklist dated today is used verbatim; otherwise a fresh all-pending five-record checklist with streak 0 |
| AppStore.NewJournalEntry | noor-master/noor-master/providers/AppProvider.tsx:83-88 | the new entry keeps the caller's date, content and mood and takes the given id and timestamps |
| AppStore.WithoutEntry | noor-master/noor-master/providers/AppProvider.tsx:98 | the entries whose id differs from the given one, never more than before; see DeleteRemovesId, DeleteAbsent, DeleteAppend |
| AppStore.DeleteRemovesId | noor-master/noor-master/providers/AppProvider.tsx:96-102 | deletion drops every entry with the id, keeps every other one, never lengthens the list, and shortens it iff the id was present |
| AppStore.DeleteAbsent | noor-master/noor-master/providers/AppProvider.tsx:98 | deleting an absent id leaves the list unchanged |
| AppStore.DeleteAppend | noor-master/noor-master/providers/AppProvider.tsx:98 | deletion keeps relative order: it distributes over concatenation |
| AppStore.DeleteUnique | noor-master/noor-master/providers/AppProvider.tsx:96-102 | deleting the id of the only entry carrying it removes exactly that entry |
| AppStore.DeleteUndoesAdd | noor-master/noor-master/providers/AppProvider.tsx:82-102 | adding an entry with a new id and deleting that id restores the list |
| AppStore.NewTasbihSession | noor-master/noor-master/providers/AppProvider.tsx:105-108 | the new session keeps every field the caller gave and takes the given id |
| AppStore.TodayTasbihCount | noor-master/noor-master/providers/AppProvider.tsx:121-126 | the sum of the counts of the sessions dated today, never negative when no count is; see TodayCountPrepend, TodayCountAppend, TodayCountBounds |
| AppStore.TodayCountPrepend | noor-master/noor-master/providers/AppProvider.tsx:104-126 | saving a session raises today's total by its count if dated today, and leaves it unchanged otherwise, completed or not |
| AppStore.TodayCountAppend | noor-master/noor-master/providers/AppProvider.tsx:121-126 | today's total is additive over concatenated histories |
| AppStore.TodayCountBounds | noor-master/noor-master/providers/AppProvider.tsx:121-126 | with no session dated today the total is 0 |
| AppStore.AppData.constructor | noor-master/noor-master/providers/AppProvider.tsx:25-28 | the store starts with empty lists and loading |
| AppStore.AppData.LoadData | noor-master/noor-master/providers/AppProvider.tsx:34-67 | today's stored checklist or a fresh one; any read or parse error regenerates the prayers; stored journal and history replace the lists unless an earlier blob failed; loading ends on every path; storage untouched |
| AppStore.AppData.UpdatePrayerStatus | noor-master/noor-master/providers/AppProvider.tsx:69-80 | new list is the status update of the old; `{today, list}` is persisted if the write lands, so a same-day reload gives back the list; nothing else changes |
| AppStore.AppData.AddJournalEntry | noor-master/noor-master/providers/AppProvider.tsx:82-94 | the new entry at index 0, the old list unchanged at 1..n, length +1, persisted if the write lands; nothing else changes |
| AppStore.AppData.DeleteJournalEntry | noor-master/noor-master/providers/AppProvider.tsx:96-102 | new list is the filter of the old by id, persisted if the write lands; nothing else changes |
| AppStore.AppData.SaveTasbihSession | noor-master/noor-master/providers/AppProvider.tsx:104-114 | the new session first, the history after it; for every day the total grows by the session's count exactly on its own date; persisted if the write lands |
| AppStore.UpdateThenReload | noor-master/noor-master/providers/AppProvider.tsx:34-80 | a landed status update followed by a successful same-day load keeps the updated list, unless the journal or history key holds unparseable text, in which case a fresh checklist is generated |
| OnboardingStore.DefaultsAreBlank | noor/providers/OnboardingProvider.tsx:28-37 | defaults: no location, method `isna`, reminders disabled for no prayer at 15 minutes, no completion time |
| OnboardingStore.WithLocation | noor/providers/OnboardingProvider.tsx:68-73 | sets the location and keeps the other three fields |
| OnboardingStore.WithCalculationMethod | noor/providers/OnboardingProvider.tsx:75-80 | sets the calculation method and keeps the other three fields |
| OnboardingStore.WithNotificationSettings | noor/providers/OnboardingProvider.tsx:82-87 | sets the notification settings and keeps the other three fields |
| OnboardingStore.SettersCommute | noor/providers/OnboardingProvider.tsx:68-87 | the three setters touch disjoint fields, so their order does not matter |
| OnboardingStore.Completed | noor/providers/OnboardingProvider.tsx:91-94 | the final data is the current data with `completedAt` set to now |
| OnboardingStore.LoadedFlag | noor/providers/OnboardingProvider.tsx:48-66 | the loaded flag is true iff the read succeeded, the data parsed and the stored text is exactly `"true"` |
| OnboardingStore.OnboardingState.constructor | noor/providers/OnboardingProvider.tsx:40-42 | the flag starts unknown (null), the data at the defaults, loading |
| OnboardingStore.OnboardingState.CheckOnboardingStatus | noor/providers/OnboardingProvider.tsx:48-66 | flag from the loaded text (false on any error), saved data replaces the current data, loading ends on every path |
| OnboardingStore.OnboardingState.SetLocationData | noor/providers/OnboardingProvider.tsx:68-73 | only the location changes; flag, loading and storage untouched |
| OnboardingStore.OnboardingState.SetCalculationMethod | noor/providers/OnboardingProvider.tsx:75-80 | only the calculation method changes; flag, loading and storage untouched |
| OnboardingStore.OnboardingState.SetNotificationSettings | noor/providers/OnboardingProvider.tsx:82-87 | only the notification settings change; flag, loading and storage untouched |
| OnboardingStore.OnboardingState.CompleteOnboarding | noor/providers/OnboardingProvider.tsx:89-107 | succeeds iff both writes land; on success the data is stamped and the flag true; on failure the error is returned and memory is unchanged; each key holds what its own write stored |
| OnboardingStore.OnboardingState.ResetOnboarding | noor/providers/OnboardingProvider.tsx:109-121 | when both removals land, defaults and a false flag; otherwise memory unchanged and no error; each key is gone iff its removal landed |
| OnboardingStore.CompleteThenReload | noor/providers/OnboardingProvider.tsx:48-107 | a completion whose two writes land, followed by a successful load, passes and leaves the flag true and the data stamped with the completion time |
| OnboardingStore.ResetThenReload | noor/providers/OnboardingProvider.tsx:48-121 | a reset whose two removals land, followed by any load, leaves the flag false and the default data |
| RootLayout.Redirect | noor/app/_layout.tsx:20-32 | no redirect while loading; to the welcome screen iff not complete (null included) and outside onboarding; to the tabs iff complete and inside onboarding; otherwise none |
| RootLayout.View | noor/app/_layout.tsx:40-46 | the loading view is shown exactly while loading |
| RootLayout.PathMatchesSegments | noor/app/_layout.tsx:27-30 | the path the rule pushes for a route is the slash-joined list of the segments it is checked against |
| RootLayout.RedirectSettles | noor/app/_layout.tsx:23-31 | after following a redirect the rule asks for no further one |
| RootLayout.RedirectMatchesFlag | noor/app/_layout.tsx:23-31 | a redirect happens only when the group disagrees with the flag, and moves to the group that agrees |
| OnboardingProgress.Classify | noor/components/onboarding/OnboardingProgress.tsx:18-22 | completed iff index < current, active iff equal, inactive iff greater |
| OnboardingProgress.Dots | noor/components/onboarding/OnboardingProgress.tsx:13 | exactly `max(totalSteps, 0)` dots |
| OnboardingProgress.DotAt | noor/components/onboarding/OnboardingProgress.tsx:13-22 | dot `i` of 0..totalSteps-1 is classified by comparing `i` with the current step |
| OnboardingProgress.CompletedPrefix | noor/components/onboarding/OnboardingProgress.tsx:18-22 | completed dots form a prefix |
| OnboardingProgress.CompletedCount | noor/components/onboarding/OnboardingProgress.tsx:18-22 | the number of completed dots is `min(max(currentStep, 0), max(totalSteps, 0))` |
| OnboardingProgress.ActiveCount | noor/components/onboarding/OnboardingProgress.tsx:18-22 | one active dot when `0 <= currentStep < totalSteps`, none otherwise |
| OnboardingProgress.ClassesPartition | noor/components/onboarding/OnboardingProgress.tsx:18-22 | completed, active and inactive dots together number the whole row |

## Left out

- JSON text: stored values are already decoded; a blob whose JSON parses but has the wrong shape (say, a journal key holding an object) is not modelled, only a missing, unparseable or well-typed one.
- Clock: `Date.now()` and `new Date().toISOString()` are parameters, so the model does not claim that ids are unique or that `createdAt` equals `updatedAt`.
- Time zones: `today` is an opaque string; how the app derives it from UTC is not modelled.
- React machinery: hooks, context, functional state updates, batching, and races between back-to-back writes; each method runs to completion on the state it is given.
- Fire-and-forget writes in the app store: the outcome of each `setItem` is a parameter that decides whether the key changes; the failure is never reported, as in the code.
- Navigation and splash screen: `router.replace` and `SplashScreen` calls; the rule returns the route instead.
- Number types: counts, targets and minutes are unbounded integers and coordinates are reals carried unchanged. JavaScript numbers are doubles, so the sum in `getTodayTasbihCount` (`acc + s.count`) is exact only below 2^53; TodayTasbihCount sums exactly and does not model rounding above that.
- OnboardingProgress.Dots: `totalSteps` is an integer (a negative one gives no dots, as `Array.from` does); a fractional length, which `Array.from` truncates, and a length of 2^32 or more, for which it throws, are not modelled. Every call site passes the literal 5 or 16.
- Screens: journal content validation lives in the journal screen (noor-master/noor-master/app/(tabs)/journal.tsx:30-38, which rejects blank content and passes the trimmed text) and the dhikr counting state machine in the tasbih screens (app/(tabs)/tasbih.tsx); neither is in AppProvider.tsx, OnboardingProvider.tsx, app/_layout.tsx or OnboardingProgress.tsx, and neither is modelled. The Qibla bearing calculation is not part of this model.
- Presentation: the pattern backgrounds, colour tables, static devotional content (except the prayer table), buttons and the other screens.

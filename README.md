# ArchipelagoOverlays in Dafny

This project models the core of ArchipelagoOverlays. That is a browser overlay for Archipelago multiworld streams. It shows alerts for received items, deaths, goals, hints and countdowns, one at a time, as timed and animated banners. A settings layer lets the user override each alert's color, timeout, media and animation through a shareable URL.

The model covers these parts of the repository:

- **Scheduling.**
  - The two-lane priority queue (`src/utils/queue.ts`).
  - The display schedulers (`src/lib/display.ts`, `src/display/DisplayManager.ts`).
  - The two alert queues (`src/alert/alert.ts`, `src/alert.ts`).
- **Settings stores.**
  - The base class `src/settings/SettingsManager.ts`, with its animation store `src/settings/AnimationManager.ts`.
  - The alert store of the `Alerts` application (`Alerts/src/AlertManager.ts`).
  - The library stores for alerts, fonts and the Archipelago connection (`src/lib/alert.ts`, `src/lib/alertManager.ts`, `src/lib/font.ts`, `src/lib/archipelagoConnection.ts`, `src/lib/archipelago/config.ts`).
  - The three older settings readers (`src/SettingsManager.ts`, `src/settingsManager.ts`, `src/settings.ts`).
- **URL codecs.**
  - `src/URLParser.ts`.
  - The versioned migration of `src/utils/urlParser.ts`, with its semantic versions.
  - The helpers in `src/utils/`: search-parameter writers, value equality, array equality, number parsing and override values.
- **Rendering helpers.**
  - The keyframe and animation code (`src/lib/animation.ts`, `src/animation.ts`, `src/util.ts`).
  - The media registry (`src/lib/media.ts`).
  - The translation templating (`src/lib/textParser.ts`).

Code that updates state in place is modelled as a class:

- Its fields hold the state.
- A pure `State()` value describes them.
- Each method states the new state as a function of the old one (`State() == old(State()).Op(...)`).
- The properties the source promises are proved as lemmas about those functions.

Pure code becomes datatypes, functions and lemmas. JavaScript's platform objects are modelled as values:

- `Map` (`JsMaps`): a dictionary that remembers the order keys were first set in.
- `URLSearchParams` (`SearchParams`).
- `split`, `join` and `trim`, decimal integer text, and `Number`/`parseInt` on integers (`Strings`, `NumberParsing`).
- `undefined` and `null` (`Js`).

The DOM, `fetch`, timers, `window.location` and `import.meta.glob` are not modelled. What they would deliver is passed in as a parameter: a fetched configuration, the URL's parameters, or the event that a display finished. Style writes are returned as lists of assignments.

## Where the code differs from the design

This model follows the code in each of these places:

- The design describes URL decoding as a sparse overlay that leaves absent fields alone. The `deconstructURL` of `src/settings/AnimationManager.ts` and of `Alerts/src/AlertManager.ts` instead replaces each configured name's whole override. Every absent parameter becomes `null` (`AnimationSettings.UrlOverrides`, `AlertSettings.ReadOverride`).
- The design calls the URL round trip lossless. In the code, empty text is never written, because it is falsy. A color loses its first "#". A media list of only unknown names reads back as an empty list. So each round-trip lemma states the conditions under which it holds: `AnimationSettings.RoundTrip`, `AlertSettings.RoundTrip`, `LibAlert.ConstructDeconstructRoundTrip` and the `UrlParams` round trips.
- The design says a load fully replaces the earlier state. The code does not do this:
  - `createConfigs` in `Alerts/src/AlertManager.ts` and in `src/settings/AnimationManager.ts` sets entries over the maps without clearing them (`AlertSettings.LoadCreatesFirstConfig`).
  - `loadedAnimations` of `src/lib/animation.ts` is never cleared (`KeyframeLoader.LoadTwiceListsTwice`).
  - Only `changeConfig` starts from empty maps (`AlertSettings.ChangeConfigForgetsEarlierAlerts`).
- The design describes a malformed number falling back to the previous value. The code stores the URL's timeout and duration texts as they are. Only the older readers of `src/SettingsManager.ts` and `src/settingsManager.ts` fall back, and they fall back to the configured value, via `parseInt` (`OverlaySettings.TimeoutRule`, `AnimatedOverlaySettings.DurationRule`).
- The queue's lanes are named CRITICAL and LOW in the code. The design calls them CRITICAL and NORMAL.

## Model

| member | source | states |
|---|---|---|
| Queues.Lanes.Push | src/utils/queue.ts:16-19 | the item goes to the tail of the chosen lane; the other lane and the lock flag are unchanged |
| Queues.Lanes.Pop | src/utils/queue.ts:21-29 | an item comes out exactly when CRITICAL is non-empty or the queue is unlocked with LOW items; it is the head of what was pending and the rest stays in order; `null` exactly when locked with CRITICAL empty, and then nothing changes; the LOW lane is untouched while CRITICAL has items or the queue is locked |
| Queues.DrainUnlocked | src/utils/queue.ts:21-26 | popping an unlocked queue until it is empty yields every CRITICAL item and then every LOW item, each lane oldest first |
| Queues.DrainLocked | src/utils/queue.ts:21-29 | a locked queue yields exactly its CRITICAL items and keeps its LOW lane as it was |
| Queues.PushAllLanes | src/utils/queue.ts:16-19 | pushing several items at one priority appends them, in order, to that lane only |
| Queues.CriticalFirstEachInPushOrder | src/utils/queue.ts:16-26 | items pushed at LOW and then at CRITICAL leave as all CRITICAL items, then all LOW items, each lane in push order |
| Queues.LockHoldsLowItems | src/utils/queue.ts:31-37 | locking holds the LOW items back; after unlocking they leave in their original order |
| Queues.LockedWithOnlyLowItems | src/utils/queue.ts:21-41 | a locked queue holding only LOW items is not empty, yet `pop` yields `null` and changes nothing |
| Queues.Queue.constructor | src/utils/queue.ts:9-14 | both lanes empty, unlocked |
| Queues.Queue.Push | src/utils/queue.ts:16-19 | the object's lanes become those of `Lanes.Push` |
| Queues.Queue.Pop | src/utils/queue.ts:21-29 | the item returned and the new lanes are those of `Lanes.Pop` |
| Queues.Queue.Lock | src/utils/queue.ts:31-33 | only the lock flag is set |
| Queues.Queue.Unlock | src/utils/queue.ts:35-37 | only the lock flag is cleared |
| Queues.Queue.IsEmpty | src/utils/queue.ts:39-41 | true exactly when both lanes are empty, whatever the lock |
| Queues.Queue.Clear | src/utils/queue.ts:43-48 | both lanes emptied, the lock flag kept |
| Displays.DisplayState.DrainStep | src/lib/display.ts:45-57 | one turn of the `displayItem` loop leaves the log of cancelled items and the container's `display` as they were |
| Displays.InitialDisplay | src/lib/display.ts:13-25 | a new display satisfies the invariant: a drain runs exactly while an item is displayed, that item is the current one and the container is visible |
| Displays.PushKeepsInv | src/lib/display.ts:27-31 | `push` keeps the invariant |
| Displays.FinishKeepsInv | src/lib/display.ts:40-57 | an item finishing keeps the invariant |
| Displays.CancelKeepsInv | src/lib/display.ts:60-69 | `cancel` keeps the invariant |
| Displays.LockingKeepsInv | src/lib/display.ts:71-77 | `lockQueue` and `unlockQueue` keep the invariant |
| Displays.PushOrder | src/lib/display.ts:27-31 | a LOW push joins the end of the display order; a `skipQueue` push goes after the CRITICAL items already waiting, before every LOW item |
| Displays.FinishAndCancelKeepOrder | src/lib/display.ts:45-69 | finishing or cancelling an item neither loses nor reorders anything still to be shown |
| Displays.HangsOnlyWhenLockedWithLowItems | src/lib/display.ts:46-50 | the loop stops making progress only when the queue is locked and holds nothing but LOW items |
| Displays.FinishShowsNext | src/lib/display.ts:40-57 | with the queue unlocked, a finished item is followed at once by the next one, shown with the container visible, or the drain ends with the container hidden |
| Displays.FinishKeepsCurrent | src/lib/display.ts:52-57 | an item that finishes on its own stays recorded as the current item |
| Displays.CancelEffects | src/lib/display.ts:60-69 | without a current item `cancel` does nothing; otherwise that item's `cancel` is called once, and with nothing else waiting the current item is cleared, the container hidden and the drain over |
| Displays.LockingOnlySetsFlag | src/lib/display.ts:71-77 | `lockQueue`/`unlockQueue` only set the queue's flag and do not restart the drain |
| Displays.Display.constructor | src/lib/display.ts:13-25 | the initial display state |
| Displays.Display.DrainStep | src/lib/display.ts:45-57 | the object's state becomes `DisplayState.DrainStep` of the old one |
| Displays.Display.ProcessQueue | src/lib/display.ts:33-43 | the object's state becomes `DisplayState.ProcessQueue` of the old one |
| Displays.Display.Push | src/lib/display.ts:27-31 | the object's state becomes `DisplayState.Push` of the old one |
| Displays.Display.Finish | src/lib/display.ts:55-57 | the object's state becomes `DisplayState.Finish` of the old one |
| Displays.Display.Cancel | src/lib/display.ts:60-69 | the object's state becomes `DisplayState.Cancel` of the old one |
| Displays.Display.LockQueue | src/lib/display.ts:71-73 | the object's state becomes `DisplayState.LockQueue` of the old one |
| Displays.Display.UnlockQueue | src/lib/display.ts:75-77 | the object's state becomes `DisplayState.UnlockQueue` of the old one |
| DisplayManagers.ManagerState.Round | src/display/DisplayManager.ts:25-42 | nothing while `isAnimating`; otherwise at most one item goes on screen, and it is added to the items shown |
| DisplayManagers.InitialManager | src/display/DisplayManager.ts:3-14 | a new manager has at most one item on screen, exactly while `isAnimating` is set, with the container visible |
| DisplayManagers.RoundShowsPoppedItem | src/display/DisplayManager.ts:29-42 | a round shows the item `pop` yields with the container visible; when nothing is popped the container is hidden and `isAnimating` cleared |
| DisplayManagers.PushStartsRound | src/display/DisplayManager.ts:16-23 | a push without `skipQueue` only enqueues at LOW while a round is on; a `skipQueue` push clears `isAnimating` and starts a round that shows the oldest CRITICAL item |
| DisplayManagers.CorrectedKeepsOneAtATime | src/display/DisplayManager.ts:32-42 | with the round ending once it starts the next one, pushes without `skipQueue`, finishes and lock changes keep one item on screen at a time (a `skipQueue` push starts a round regardless, see `PushStartsRound`) |
| DisplayManagers.FallThroughShowsTwoAtOnce | src/display/DisplayManager.ts:34-42 | as written, after an item finishes the next one is on screen while the container is hidden and `isAnimating` is clear, so a further push puts a second item on screen beside it |
| DisplayManagers.DisplayManager.constructor | src/display/DisplayManager.ts:3-14 | the initial manager state |
| DisplayManagers.DisplayManager.ProcessQueue | src/display/DisplayManager.ts:25-42 | the object's state becomes `ManagerState.Round` of the old one |
| DisplayManagers.DisplayManager.Push | src/display/DisplayManager.ts:16-23 | the object's state becomes `ManagerState.Push` of the old one |
| DisplayManagers.DisplayManager.Finish | src/display/DisplayManager.ts:35-42 | the object's state becomes `ManagerState.Finish` of the old one |
| DisplayManagers.DisplayManager.LockQueue | src/display/DisplayManager.ts:45-47 | the object's state becomes `ManagerState.LockQueue` of the old one |
| DisplayManagers.DisplayManager.UnlockQueue | src/display/DisplayManager.ts:49-51 | the object's state becomes `ManagerState.UnlockQueue` of the old one |
| AlertQueue.AlertQueueState.DrainStep | src/alert/alert.ts:27-33 | one turn of the loop keeps the order in which the alerts are shown |
| AlertQueue.InitialAlertQueue | src/alert/alert.ts:5-13 | a new manager is idle with nothing queued, and satisfies the invariant: a drain runs exactly while an alert is on display, the container is visible during a drain, and an idle manager has nothing queued |
| AlertQueue.PushKeepsInv | src/alert/alert.ts:15-18 | `push` keeps the invariant |
| AlertQueue.FinishKeepsInv | src/alert/alert.ts:27-33 | an alert finishing keeps the invariant |
| AlertQueue.ShownInPushOrder | src/alert/alert.ts:15-30 | a push appends to the end of the display order and finishing reorders nothing |
| AlertQueue.PushWhenIdleShows | src/alert/alert.ts:15-30 | a push to an idle manager is displayed at once with the container visible; during a drain it waits at the tail |
| AlertQueue.LastFinishEndsDrain | src/alert/alert.ts:32-33 | once the last alert finishes, the container is hidden and `running` is cleared |
| AlertQueue.PushAllKeepsInv | src/alert/alert.ts:15-18 | several pushes keep the invariant, append in order and leave a drain running |
| AlertQueue.FinishingDrainsQueue | src/alert/alert.ts:27-33 | finishing each alert in turn shows every queued alert in order, then the manager is idle with the container hidden |
| AlertQueue.AllPushedAlertsAreShown | src/alert/alert.ts:15-33 | every alert pushed to an idle manager is eventually shown, in push order, and the manager ends idle with the container hidden |
| AlertQueue.AlertManager.constructor | src/alert/alert.ts:5-13 | the initial state |
| AlertQueue.AlertManager.DrainStep | src/alert/alert.ts:27-33 | the object's state becomes `AlertQueueState.DrainStep` of the old one |
| AlertQueue.AlertManager.ProcessQueue | src/alert/alert.ts:20-33 | the object's state becomes `AlertQueueState.ProcessQueue` of the old one |
| AlertQueue.AlertManager.Push | src/alert/alert.ts:15-18 | the object's state becomes `AlertQueueState.Push` of the old one |
| AlertQueue.AlertManager.Finish | src/alert/alert.ts:29-33 | the object's state becomes `AlertQueueState.Finish` of the old one |
| LegacyAlertQueue.LegacyState.DrainStep | src/alert.ts:26-29 | one turn of the loop keeps the display order and `running` |
| LegacyAlertQueue.LegacyShownInPushOrder | src/alert.ts:15-29 | a push appends to the end of the display order and finishing reorders nothing |
| LegacyAlertQueue.StalledForGood | src/alert.ts:20-30 | once the first drain has ended, a push only grows the queue and the manager stays stalled |
| LegacyAlertQueue.SecondAlertAfterDrainIsNeverShown | src/alert.ts:20-30 | the first alert is shown; an alert pushed after it finished is queued and never shown |
| LegacyAlertQueue.LegacyAlertManager.constructor | src/alert.ts:5-13 | the initial state |
| LegacyAlertQueue.LegacyAlertManager.DrainStep | src/alert.ts:26-29 | the object's state becomes `LegacyState.DrainStep` of the old one |
| LegacyAlertQueue.LegacyAlertManager.ProcessQueue | src/alert.ts:20-30 | the object's state becomes `LegacyState.ProcessQueue` of the old one |
| LegacyAlertQueue.LegacyAlertManager.Push | src/alert.ts:15-18 | the object's state becomes `LegacyState.Push` of the old one |
| LegacyAlertQueue.LegacyAlertManager.Finish | src/alert.ts:28-29 | the object's state becomes `LegacyState.Finish` of the old one |
| ArraysEqual.ArraysEqual | src/utils/arraysEqual.ts:1-12 | false when either list is missing; for two lists, true exactly when they hold the same strings the same number of times, whatever the order |
| ArraysEqual.SortedCopy | src/utils/arraysEqual.ts:8-9 | the sorted copy is a permutation of the list and is sorted in code-unit order |
| ArraysEqual.SortedUnique | src/utils/arraysEqual.ts:8-11 | two sorted lists holding the same strings are the same list, so comparing sorted copies position by position compares contents |
| ArraysEqual.ArraysEqualSymmetricReflexive | src/utils/arraysEqual.ts:1-12 | the relation is symmetric, and every defined list equals itself |
| ArraysEqual.DifferentLengths | src/utils/arraysEqual.ts:5-6 | lists of different lengths are never equal |
| ArraysEqual.OrderInsensitive | src/utils/arraysEqual.ts:8-11 | `[x, y]` equals `[y, x]`; a repeated name is counted, so `[x, x]` differs from `[x, y]` |
| ValueEquality.ValueEquals | src/utils/valueEquals.ts:1-13 | an unset value always matches; a match between defined values never mixes an array with a non-array |
| ValueEquality.ValueEqualsIsIdentity | src/utils/valueEquals.ts:1-13 | on values whose JSON text loses nothing, the relation is "unset, or identical to the base" |
| ValueEquality.ArraysCompareInOrder | src/utils/valueEquals.ts:5-7 | two string arrays match exactly when they are equal element by element, in order |
| ValueEquality.UndefinedElementEqualsNull | src/utils/valueEquals.ts:5-7 | `[undefined]` matches `[null]`, because JSON text writes both as `null` |
| ValueEquality.NotSymmetric | src/utils/valueEquals.ts:2-10 | `1` does not match `undefined`, while `undefined` matches `1` |
| ValueEquality.NoNumberStringCoercion | src/utils/valueEquals.ts:9-10 | a number never matches its own decimal text |
| JsValues.StrListText | src/utils/searchParams.ts:9 | `String` of a string array is its elements joined with "," |
| JsValues.JsonCanonOfSafe | src/utils/valueEquals.ts:6 | a value whose JSON text loses nothing reads back from that text as itself |
| NumberParsing.JsNumber | src/utils/stringToNumber.ts:5 | `Number` gives 0 for the empty text and reads an optionally signed run of digits as its value; anything else is `NaN` |
| NumberParsing.StringToNumber | src/utils/stringToNumber.ts:1-11 | the fallback for `null` or text that is not a number; otherwise the number the text spells |
| NumberParsing.StringToNumberOfText | src/utils/stringToNumber.ts:1-11 | the text of an integer converts back to that integer, whatever the fallback |
| NumberParsing.EmptyIsZero | src/utils/stringToNumber.ts:5-7 | the empty text is 0, not the fallback; "abc" gives the fallback |
| NumberParsing.DigitPrefix | src/SettingsManager.ts:86-91 | the longest run of digits at the start of the text: a prefix made of digits, followed by a non-digit or the end |
| NumberParsing.ParseIntAgreesWithNumber | src/SettingsManager.ts:86-91 | on decimal integer text, `parseInt` and `Number` agree |
| NumberParsing.ParseIntStopsAtNonDigit | src/SettingsManager.ts:86-91 | `parseInt("12px")` is 12, where `Number` gives `NaN` |
| NumberParsing.ParseIntWithoutDigits | src/SettingsManager.ts:86-91 | text without a leading digit is `NaN` for `parseInt` |
| OverrideValues.OverrideValues | src/utils/overrideInterfaceValues.ts:1-3 | the merged record has the keys of both; an overridden key takes the override, any other keeps the original |
| OverrideValues.OverrideIdempotent | src/utils/overrideInterfaceValues.ts:1-3 | merging the same overrides twice is the same as merging them once |
| OverrideValues.OverrideWithNothing | src/utils/overrideInterfaceValues.ts:1-3 | merging `{}` gives back the original |
| OverrideValues.ExplicitUndefinedReplaces | src/utils/overrideInterfaceValues.ts:2 | a property given as `undefined` replaces a defined original value |
| SearchParamHelpers.MatchesSome | src/utils/searchParams.ts:6 | true exactly when some alternative `valueEquals` the value |
| SearchParamHelpers.Alternatives | src/utils/searchParams.ts:4 | a base that is not an array is the only alternative |
| SearchParamHelpers.WithIfMatch | src/utils/searchParams.ts:3-10 | the key is set to the value's text exactly when the value matches an alternative; every other key is unchanged |
| SearchParamHelpers.WithIfNoMatch | src/utils/searchParams.ts:12-19 | the key is set to the value's text exactly when the value matches no alternative; every other key is unchanged |
| SearchParamHelpers.AddIfMatch | src/utils/searchParams.ts:3-10 | the parameters become `WithIfMatch` of the old ones |
| SearchParamHelpers.AddIfNoMatch | src/utils/searchParams.ts:12-19 | the parameters become `WithIfNoMatch` of the old ones |
| SearchParamHelpers.ExactlyOneWrites | src/utils/searchParams.ts:3-19 | on the same inputs exactly one of the two writes the key and the other leaves the parameters as they were |
| SearchParamHelpers.UnsetIsNeverWritten | src/utils/searchParams.ts:12-19 | with at least one alternative, `addIfNoMatch` never writes an unset value |
| SearchParamHelpers.EmptyBaseWritesUndefined | src/utils/searchParams.ts:12-19 | with `[]` as base, `addIfNoMatch` writes `undefined` as the text "undefined" |
| SearchParamHelpers.ArrayBaseIsAlternatives | src/utils/searchParams.ts:4-6 | an array base is read as alternatives, so `[x]` never matches a base `[x]` |
| SearchParamHelpers.MatchesUnsetOrBase | src/utils/searchParams.ts:4-6 | against `[undefined, b]` a value matches exactly when it is unset or `valueEquals` `b` |
| SearchParamHelpers.SetIfTruthy | src/URLParser.ts:224-237 | the key reads back as the value's text when the value is truthy; otherwise, and for every other key, the parameters read as before |
| SearchParamHelpers.TextReadBack | src/URLParser.ts:224-232 | a string field reads back exactly when it is truthy, and then as itself |
| AddToSearchParamIfMatch.WithIfEqual | src/utils/addToSearchParamIfMatch.ts:3-6 | the key is set to the value's text exactly when the value `valueEquals` the base; every other key is unchanged |
| AddToSearchParamIfMatch.AddToSearchParamIfMatch | src/utils/addToSearchParamIfMatch.ts:3-6 | the parameters become `WithIfEqual` of the old ones |
| AddToSearchParamIfMatch.UnsetIsWrittenAsText | src/utils/addToSearchParamIfMatch.ts:3-6 | an unset value always matches, so it is written as the text "undefined" or "null" |
| AddToSearchParamIfMatch.DifferentValueIsNotWritten | src/utils/addToSearchParamIfMatch.ts:3-6 | a defined value different from its base is never written |
| AlertOverrides.Resolve | src/lib/alert.ts:120-132 | with no override the base is returned as is; otherwise each field is the override's when set and the base's when `undefined` or `null` |
| AlertOverrides.BlankResolvesToBase | src/lib/alert.ts:20-32 | a blank override, or one whose fields are all `null`, resolves to the base |
| AlertOverrides.ResolveFieldByField | src/lib/alert.ts:120-132 | changing one field of the override changes only that field of the resolved alert |
| AlertOverrides.Suffix | src/lib/alert.ts:46-53 | every key suffix starts with "-" and has at least one more character |
| AlertOverrides.KeysOfOtherName | src/lib/alert.ts:46-53 | the keys of two different alert names never meet |
| AlertOverrides.KeyInjective | src/lib/alert.ts:46-53 | a key determines both the alert name and the field |
| AlertOverrides.SplitList | src/lib/alert.ts:47-48 | `undefined` without text; otherwise the pieces of the text split on "," |
| AlertOverrides.DecodeNothing | src/lib/alert.ts:44-73 | an alert none of whose keys is in the URL decodes to an override that resolves to its base |
| AlertOverrides.NumberFieldRoundTrip | src/lib/alert.ts:55-57 | a number written only when it differs from the base reads back, with the base as fallback, as the number the override resolves to |
| AlertOverrides.TextFieldRoundTrip | src/lib/alert.ts:50-53 | a string written only when it differs from the base reads back, an absent key as `null`, as the string the override resolves to |
| AlertOverrides.ListFieldRoundTrip | src/lib/alert.ts:47-48 | a non-empty, comma-free list written joined only when it differs from the base reads back as the list the override resolves to |
| AlertOverrides.DecodeDiffering | src/lib/alert.ts:44-73 | decoding parameters that hold, under each of an alert's keys, what the reference rule writes gives an override that resolves like the one written |
| LibAlert.ConfigEntries | src/lib/alert.ts:10-18 | one base per entry, in list order, carrying the entry's name and fields |
| LibAlert.BlankEntries | src/lib/alert.ts:20-32 | one blank override per entry, in list order |
| LibAlert.Merge | src/lib/alert.ts:102-110 | each key the patch gives replaces the stored one and each key it omits is kept; the animation is merged one level deeper |
| LibAlert.MergeIdempotent | src/lib/alert.ts:95-111 | merging the same patch twice is merging it once, and an empty patch changes nothing |
| LibAlert.StepLookup | src/lib/alert.ts:82-91 | one `addIfNoMatch` changes only its own key |
| LibAlert.EncodeOneAt | src/lib/alert.ts:82-91 | under each of an alert's seven keys, the write for that field decides what the key holds |
| LibAlert.EncodeOneElsewhere | src/lib/alert.ts:82-91 | the writes for one alert leave every other key alone |
| LibAlert.EncodedIsDiffering | src/lib/alert.ts:82-91 | into an empty key, `addIfNoMatch` with `[undefined, base]` writes exactly a value that is set and differs from the base, as text, with lists comma-joined |
| LibAlert.Store.Initialize | src/lib/alert.ts:9-36 | afterwards the names with a base and the names with an override are exactly the earlier ones plus the list's |
| LibAlert.Store.GetAlert | src/lib/alert.ts:113-133 | `null` exactly when the name has no base; otherwise the alert carries the name and the base's translations, and its fields are the override resolved over the base |
| LibAlert.Store.GetAlerts | src/lib/alert.ts:135-137 | one alert per configured name, in configuration order, each as `getAlert` reads it |
| LibAlert.Store.SetAlertOverride | src/lib/alert.ts:95-111 | nothing changes for a name without an override; otherwise that name's override becomes the merged one and every other name's is unchanged; the bases never change |
| LibAlert.Store.DecodedEntries | src/lib/alert.ts:44-72 | one override per configured name, in configuration order, read from the parameters against that name's base |
| LibAlert.Store.DeconstructAlertParams | src/lib/alert.ts:44-73 | the bases are unchanged |
| LibAlert.Reloaded | src/lib/alert.ts:38-42 | the maps after `reload` are consistent dictionaries |
| LibAlert.ReloadGivesBlankOverrides | src/lib/alert.ts:38-42 | after `reload` the names are exactly those of the list, every override is blank and every alert reads as its base |
| LibAlert.ReloadKeepsEntries | src/lib/alert.ts:38-42 | with distinct names, each alert's base is its own entry and the names are in list order |
| LibAlert.OverrideTimeoutOnly | src/lib/alert.ts:95-133 | setting only the timeout of a blank override changes only the alert's timeout |
| LibAlert.ConstructNamesLookup | src/lib/alert.ts:75-93 | after the writes for a list of distinct names, a key of a name in the list with both a base and an override holds what that alert's write gives; every other key is as before |
| LibAlert.DeconstructSetsDecoded | src/lib/alert.ts:44-73 | a configured alert's override becomes the one read from the parameters; the others are untouched |
| LibAlert.ConstructDeconstructRoundTrip | src/lib/alert.ts:44-93 | the parameters `constructAlertParams` writes, read back by `deconstructAlertParams` into a store with the same bases, give every alert as it was, provided the media lists are non-empty and comma-free |
| LibAlert.AlertStore.constructor | src/lib/alert.ts:6-9 | the maps are as `initializeAlerts` leaves them at module load |
| LibAlert.AlertStore.Initialize | src/lib/alert.ts:9-36 | the maps become `Store.Initialize` of the old ones |
| LibAlert.AlertStore.Reload | src/lib/alert.ts:38-42 | the maps become `Reloaded` of the list |
| LibAlert.AlertStore.DeconstructAlertParams | src/lib/alert.ts:44-73 | the maps become `Store.DeconstructAlertParams` of the old ones |
| LibAlert.AlertStore.ConstructAlertParams | src/lib/alert.ts:75-93 | the parameters become `Store.ConstructAlertParams` of the old ones |
| LibAlert.AlertStore.AddAlertParams | src/lib/alert.ts:82-91 | the parameters become the seven writes for one alert applied to the old ones |
| LibAlert.AlertStore.SetAlertOverride | src/lib/alert.ts:95-111 | the maps become `Store.SetAlertOverride` of the old ones |
| LibAlertManager.ConfigEntries | src/lib/alertManager.ts:98-108 | one base per entry, in list order, carrying the entry's name and fields |
| LibAlertManager.BlankEntries | src/lib/alertManager.ts:110-124 | one blank override per entry, in list order |
| LibAlertManager.Apply | src/lib/alertManager.ts:136-150 | each field the patch gives with a non-null value wins; every other field keeps its resolved value |
| LibAlertManager.Pinned | src/lib/alertManager.ts:136-152 | the override stored sets every field, and resolves to the patch applied to the alert as it read |
| LibAlertManager.ApplyIdempotent | src/lib/alertManager.ts:128-153 | applying the same patch a second time changes nothing more |
| LibAlertManager.IfDiffIsIfNoMatch | src/lib/alertManager.ts:59-71 | `addIfDiff` writes exactly when `addIfNoMatch` with `[undefined, base]` would |
| LibAlertManager.WriteLookup | src/lib/alertManager.ts:73-91 | each write sets only its own key, and only when the field has a text to write |
| LibAlertManager.EncodeAlertLookup | src/lib/alertManager.ts:73-91 | after one alert's writes, each of its keys holds that field's text when it has one and is otherwise as before; other keys are untouched |
| LibAlertManager.ReorderedListIsNotWritten | src/lib/alertManager.ts:75-81 | a media list that only reorders the base is not written, so reading back gives the base's order |
| LibAlertManager.ListManagerRoundTrip | src/lib/alertManager.ts:75-81 | a list written only when it holds other elements than the base reads back with the same elements as the list the override resolves to |
| LibAlertManager.DecodeManagerText | src/lib/alertManager.ts:14-91 | reading back what was written for an alert gives an override that resolves like the written one, up to the order of the media lists |
| LibAlertManager.Store.CreateConfigs | src/lib/alertManager.ts:97-126 | the maps are not cleared: afterwards the names with a base and those with an override are the earlier ones plus the list's |
| LibAlertManager.Store.GetAlert | src/lib/alertManager.ts:163-185 | not found when the name has neither a base nor an override; the access to the base throws when there is only an override; found exactly when there is a base, and then the base's fixed fields with the override resolved over it |
| LibAlertManager.Store.SetAlertOverride | src/lib/alertManager.ts:128-153 | nothing unless the alert is found; then its override becomes the pinned one and every other name's is unchanged; the bases never change |
| LibAlertManager.Store.DecodedEntries | src/lib/alertManager.ts:18-47 | one override per configured name, in configuration order, read from the parameters against that name's base |
| LibAlertManager.Store.DeconstructUrlParams | src/lib/alertManager.ts:14-48 | the bases are unchanged |
| LibAlertManager.EmptyStore | src/lib/alertManager.ts:6-7 | the empty maps are consistent: every override has a base |
| LibAlertManager.ConsistentNeverThrows | src/lib/alertManager.ts:97-185 | while every override has a base, `getAlert` never throws, and `createConfigs`, `setAlertOverride` and `deconstructUrlParams` keep that so |
| LibAlertManager.OrphanOverrideThrows | src/lib/alertManager.ts:167-171 | an override whose name has no base makes `getAlert` throw |
| LibAlertManager.CreateConfigsKeepsEarlierNames | src/lib/alertManager.ts:97-126 | a name not in the list keeps its earlier base |
| LibAlertManager.SetAlertOverrideEffect | src/lib/alertManager.ts:128-185 | afterwards the alert reads as the patch applied to its old reading, other alerts read as before, and a second identical call changes nothing |
| LibAlertManager.DeconstructSetsDecoded | src/lib/alertManager.ts:18-47 | a configured alert's override becomes the one read from the parameters |
| LibAlertManager.ConstructNamesLookup | src/lib/alertManager.ts:50-95 | after the writes for a list of distinct names, a key of a listed name with a base and an override holds that field's text, and is otherwise absent |
| LibAlertManager.ConstructDeconstructRoundTrip | src/lib/alertManager.ts:14-95 | the parameters `constructUrlParams` builds, read back by `deconstructUrlParams` into a store with the same bases, give every found alert as it was, up to the order of its media lists, provided those are non-empty and comma-free |
| LibAlertManager.AlertManagerStore.constructor | src/lib/alertManager.ts:6-7 | both maps empty |
| LibAlertManager.AlertManagerStore.CreateConfigs | src/lib/alertManager.ts:97-126 | the maps become `Store.CreateConfigs` of the old ones |
| LibAlertManager.AlertManagerStore.DeconstructUrlParams | src/lib/alertManager.ts:14-48 | the maps become `Store.DeconstructUrlParams` of the old ones |
| LibAlertManager.AlertManagerStore.AddIfDiff | src/lib/alertManager.ts:59-71 | the parameters become `WithIfDiff` of the old ones |
| LibAlertManager.AlertManagerStore.AddListIfDiffers | src/lib/alertManager.ts:75-81 | a list is written, comma-joined, only when it is set and holds other elements than the base |
| LibAlertManager.AlertManagerStore.AddAlertParams | src/lib/alertManager.ts:73-91 | the parameters become one alert's writes applied to the old ones |
| LibAlertManager.AlertManagerStore.ConstructUrlParams | src/lib/alertManager.ts:50-95 | fresh parameters holding `Store.ConstructUrlParams` |
| LibAlertManager.AlertManagerStore.SetAlertOverride | src/lib/alertManager.ts:128-153 | the maps become `Store.SetAlertOverride` of the old ones |
| Font.FontKeysDistinct | src/lib/font.ts:26-29 | the four fields travel under four different keys |
| Font.FontState.GetFont | src/lib/font.ts:61-68 | each field is the override's when set, and the base's otherwise |
| Font.FontState.SetFontOverride | src/lib/font.ts:50-59 | the base is unchanged; every override field is pinned to the given value, or else to the font as it currently reads |
| Font.FontState.DeconstructUrlParams | src/lib/font.ts:23-37 | the base is unchanged; every override field is the parameter when present and the base's value otherwise |
| Font.InitialFont | src/lib/font.ts:7-21 | the base and the font read are Arial, 12, bold, no shadow, and nothing is overridden |
| Font.SetFontOverridePins | src/lib/font.ts:23-68 | after `setFontOverride` or `deconstructUrlParams` no field is unset, and after `setFontOverride` the font reads as the given fields over the font as it read before |
| Font.ConstructLookup | src/lib/font.ts:39-48 | as written, a key holds the field's text exactly when the field `valueEquals` the base, and is absent otherwise |
| Font.ChangedFontIsLost | src/lib/font.ts:39-48 | as written, a family changed away from the base is never emitted, and a freshly loaded font emits "undefined", which reads back as the family "undefined" |
| Font.ConstructChangedLookup | src/lib/font.ts:39-48 | corrected: a key holds the override's value exactly when it is set and differs from the base |
| Font.CorrectedFontRoundTrip | src/lib/font.ts:23-48 | corrected: reading the written parameters back gives the font as it read before |
| Font.FontStore.LoadFont | src/lib/font.ts:7-21 | the state becomes `InitialFont` |
| Font.FontStore.DeconstructUrlParams | src/lib/font.ts:23-37 | the state becomes `FontState.DeconstructUrlParams` of the old one |
| Font.FontStore.ConstructUrlParams | src/lib/font.ts:39-48 | fresh parameters holding `FontState.ConstructUrlParams` |
| Font.FontStore.SetFontOverride | src/lib/font.ts:50-59 | the state becomes `FontState.SetFontOverride` of the old one |
| ArchipelagoParams.InitialConfig | src/lib/archipelago/config.ts:5-9 | url, slots and password all `undefined` |
| ArchipelagoParams.Deconstruct | src/lib/archipelago/config.ts:11-17 | url and password are the parameters, or `null` when absent; slots is always a list, empty exactly when `ap-slots` is absent |
| ArchipelagoParams.TextMatch | src/lib/archipelago/config.ts:23-25 | a text matches `[undefined, ""]` exactly when it is not set to non-empty text |
| ArchipelagoParams.SlotsMatch | src/lib/archipelago/config.ts:24 | a slot list matches `[undefined, []]` exactly when it is not a non-empty list |
| ArchipelagoParams.ConstructLookup | src/lib/archipelago/config.ts:19-26 | each key is written exactly when its field is set and non-empty, slots comma-joined; every other key is untouched |
| ArchipelagoParams.ReadBack | src/lib/archipelago/config.ts:11-26 | the read-back url and password are set exactly when written; slots are a list, empty exactly when not written |
| ArchipelagoParams.ConstructDeconstruct | src/lib/archipelago/config.ts:11-26 | reading back the written parameters gives `ReadBack` of the configuration, when the URL held none of the keys before and no slot name holds a comma |
| ArchipelagoParams.RoundTrip | src/lib/archipelago/config.ts:11-26 | the round trip is exact for a non-empty url and password and a non-empty list of comma-free slot names |
| ArchipelagoParams.WithOverride | src/lib/archipelago/config.ts:28-30 | a key the override gives replaces the field, even with `undefined`; the others are kept |
| ArchipelagoParams.PatchRecord | src/lib/archipelago/config.ts:28-30 | the override record holds only the three configuration keys |
| ArchipelagoParams.SetIsOverrideValues | src/lib/archipelago/config.ts:28-30 | the typed merge is the generic `overrideValues` on records |
| ArchipelagoParams.SetIdempotent | src/lib/archipelago/config.ts:28-30 | merging the same override twice is merging it once; an empty override changes nothing |
| ArchipelagoParams.ArchipelagoParamsStore.constructor | src/lib/archipelago/config.ts:5-9 | the configuration starts as `InitialConfig` |
| ArchipelagoParams.ArchipelagoParamsStore.DeconstructArchipelagoParams | src/lib/archipelago/config.ts:11-17 | the configuration becomes `Deconstruct` of the parameters |
| ArchipelagoParams.ArchipelagoParamsStore.ConstructArchipelagoParams | src/lib/archipelago/config.ts:19-26 | the parameters become `Construct` of the configuration over the old ones |
| ArchipelagoParams.ArchipelagoParamsStore.SetArchipelagoConfig | src/lib/archipelago/config.ts:28-30 | the configuration becomes `WithOverride` of the old one |
| ArchipelagoParams.ArchipelagoParamsStore.GetArchipelagoConfig | src/lib/archipelago/config.ts:32-34 | returns the configuration |
| ArchipelagoSettings.Decode | src/lib/archipelagoConnection.ts:20-32 | url and password are the parameters, or `null` when absent; slots is always a list, empty exactly when `archipelago-slots` is absent |
| ArchipelagoSettings.Load | src/lib/archipelagoConnection.ts:8-18 | the loaded configuration is well formed and is the page's parameters decoded |
| ArchipelagoSettings.Encode | src/lib/archipelagoConnection.ts:34-43 | nothing without a configuration; otherwise all three keys are written, each as `String` of its field, slots comma-joined, and every other key is untouched |
| ArchipelagoSettings.SetSettings | src/lib/archipelagoConnection.ts:45-51 | before a load the given settings become the configuration when all three fields are set, and it throws otherwise; after a load each field is the given one when set, else the current one |
| ArchipelagoSettings.OperationsKeepValid | src/lib/archipelagoConnection.ts:8-51 | every operation keeps the slots a list once loaded, so `construct` never throws on them; a `setArchipelagoSettings` that throws leaves the configuration as it was |
| ArchipelagoSettings.EncodeDecode | src/lib/archipelagoConnection.ts:20-43 | decoding what was encoded gives back a set url and password and a non-empty list of comma-free slot names |
| ArchipelagoSettings.NullUrlReadsBackAsText | src/lib/archipelagoConnection.ts:40 | a `null` url is written as the text "null" and reads back as that text |
| ArchipelagoSettings.ArchipelagoSettingsStore.constructor | src/lib/archipelagoConnection.ts:6 | no configuration yet |
| ArchipelagoSettings.ArchipelagoSettingsStore.LoadArchipelagoConfig | src/lib/archipelagoConnection.ts:8-18 | the configuration becomes `Load` of the page's parameters |
| ArchipelagoSettings.ArchipelagoSettingsStore.DeconstructArchipelagoUrlParams | src/lib/archipelagoConnection.ts:20-32 | the configuration becomes `Decode` of the parameters |
| ArchipelagoSettings.ArchipelagoSettingsStore.ConstructArchipelagoUrlParams | src/lib/archipelagoConnection.ts:34-43 | without a configuration the given (or fresh, empty) parameters are returned; with one they are written and nothing is returned |
| ArchipelagoSettings.ArchipelagoSettingsStore.SetArchipelagoSettings | src/lib/archipelagoConnection.ts:45-51 | it throws exactly when `SetSettings` does, and the configuration becomes `AfterSet` of the old one |
| ArchipelagoSettings.ArchipelagoSettingsStore.GetArchipelagoConfig | src/lib/archipelagoConnection.ts:53-55 | returns the configuration |
| SemVers.Trichotomy | src/utils/urlParser.ts:24 | two versions are equal or one comes before the other, never both, and none comes before itself |
| SemVers.BeforeTransitive | src/utils/urlParser.ts:24 | the version order is transitive |
| SemVers.UnpaddedIsTrim | src/utils/urlParser.ts:8-9 | the white space `new SemVer` trims off is exactly what `String.prototype.trim` removes |
| SemVers.ParseCanonical | src/utils/urlParser.ts:8-9 | three numerals read as a version only when the text is that version's canonical text, so no leading zeros and nothing around them |
| SemVers.ParseVersion | src/utils/urlParser.ts:8-9 | text read as a version is at most 256 characters, has every field at most `Number.MAX_SAFE_INTEGER`, and, trimmed and stripped of one leading "v", is the version's canonical text |
| SemVers.ParsePadded | src/utils/urlParser.ts:8-9 | every version within the field bound reads back from its canonical text with an optional "v" in front and white space around it, when the whole fits in 256 characters |
| SemVers.ParseVersionText | src/utils/urlParser.ts:8-9 | every version within the field bound reads back from its canonical text |
| SemVers.SameVersion | src/utils/urlParser.ts:22-28 | two readable texts give the same version exactly when they agree once trimmed and stripped of a leading "v" |
| SemVers.PrefixedVersion | src/utils/urlParser.ts:8 | `v2.0.0` reads as the version 2.0.0 |
| SemVers.EqualsPrefixIsRefused | src/utils/urlParser.ts:8 | `=2.0.0` does not read, so `new SemVer` throws on it |
| UrlMigration.UrlVersionText | src/utils/urlParser.ts:8 | the `v` parameter, or "1.0.0" without one |
| UrlMigration.Insert | src/utils/urlParser.ts:24 | inserting into a sorted list keeps it sorted and adds exactly that version |
| UrlMigration.Sort | src/utils/urlParser.ts:24 | the versions come out ascending, and as a permutation of the input |
| UrlMigration.Within | src/utils/urlParser.ts:25 | the filtered list stays sorted and keeps every copy of each version above the URL's version and at most the parser's, and nothing else |
| UrlMigration.ParseAll | src/utils/urlParser.ts:22-23 | defined exactly when every key reads as a version; then one version per key, in key order |
| UrlMigration.Plan | src/utils/urlParser.ts:21-25 | undefined exactly when some registered key cannot be read as a version, where `new SemVer` throws; otherwise ascending, holding each in-range version as often as keys read as it, and no other |
| UrlMigration.PlanIsExact | src/utils/urlParser.ts:21-25 | a version is planned exactly when some key reads as it and it lies above the URL's version and at most the parser's |
| UrlMigration.CanonicalPlan | src/utils/urlParser.ts:21-28 | with keys written as versions write themselves, the plan exists, is strictly ascending, and every planned version's step is found under its text |
| UrlMigration.RunPlanFinds | src/utils/urlParser.ts:27-36 | a run in which every planned version's step is found never throws |
| UrlMigration.NothingToMigrate | src/utils/urlParser.ts:8-19 | a URL as recent as the parser succeeds with the parameters untouched; a migration the user denies fails with them untouched |
| UrlMigration.MigrateRunsPlan | src/utils/urlParser.ts:11-40 | an older URL, not denied, runs the plan, and the parser's version is stamped exactly when every step succeeded |
| UrlMigration.CanonicalKeysNeverThrow | src/utils/urlParser.ts:5-41 | with readable versions and keys written as versions write themselves, the migration never throws |
| UrlMigration.PrefixedUrlVersionMigrates | src/utils/urlParser.ts:8 | a URL stamped `v2.0.0` migrates without throwing when the keys are written as versions write themselves |
| UrlMigration.NonCanonicalKeyInRangeThrows | src/utils/urlParser.ts:22-30 | a step registered as `v2.0.0` is planned but looked up as "2.0.0", so migrating a URL without `v` to 2.0.0 throws |
| UrlMigration.NonCanonicalKeyOutOfRangeIsHarmless | src/utils/urlParser.ts:22-38 | a step registered as `v1.0.0` is out of range for a URL without `v`, so migrating to 2.0.0 succeeds and only stamps `v` |
| UrlMigration.DuplicateVersionIsPlannedTwice | src/utils/urlParser.ts:22-25 | keys `2.0.0` and `v2.0.0` plan version 2.0.0 twice |
| UrlMigration.RunStepAppend | src/utils/urlParser.ts:30-33 | a step's functions run in list order and the first failing one ends the run |
| UrlMigration.RunPlanAppend | src/utils/urlParser.ts:27-36 | steps run in plan order; a failing or throwing step ends the run, keeping what the steps before it did, `v` stamps included |
| UrlMigration.RunPlanStampsLast | src/utils/urlParser.ts:27-36 | after a successful non-empty plan `v` holds the last step's version |
| UrlMigration.MigrateTwice | src/utils/urlParser.ts:5-41 | after a successful migration the URL is as recent as the parser, so a second migration succeeds and changes nothing |
| UrlMigration.DeconstructAllAppend | src/utils/urlParser.ts:43-48 | the readers run in list order, each on the settings the previous ones left |
| UrlMigration.ConstructAllLeavesVersion | src/utils/urlParser.ts:55-56 | writers that leave `v` alone leave it alone together |
| UrlMigration.ConstructedUrlIsCurrent | src/utils/urlParser.ts:5-12 | a URL written by `constructUrl` needs no migration, as long as the writers leave `v` alone |
| UrlMigration.ApplyStep | src/utils/urlParser.ts:30-33 | the success flag and the parameters are those of `RunStep` |
| UrlMigration.ApplyPlan | src/utils/urlParser.ts:27-36 | the outcome (a throw where a step is not found) and the parameters are those of `RunPlan` |
| UrlMigration.TryUrlMigration | src/utils/urlParser.ts:5-41 | the outcome and the parameters are those of `Migrate` on the old parameters |
| UrlMigration.DeconstructUrl | src/utils/urlParser.ts:43-48 | the settings are the readers applied in order |
| UrlMigration.ConstructUrl | src/utils/urlParser.ts:50-57 | the parameters become `v` set to the parser's version, then the writers applied in order |
| UrlParams.ListReadBack | src/URLParser.ts:162-163 | a list reads back set exactly when it was set, and a non-empty list reads back as itself |
| UrlParams.ListReadsBack | src/URLParser.ts:162-163 | a comma-free list written joined when truthy reads back, split on ",", as `ListReadBack` of the list |
| UrlParams.ReadConfig | src/URLParser.ts:140-147 | never empty; a non-empty `config` parameter is taken as it is |
| UrlParams.WriteConfig | src/URLParser.ts:216-218 | the `config` key is always written |
| UrlParams.ConfigRoundTrip | src/URLParser.ts:140-218 | a written configuration name reads back as itself, the empty name as "config" |
| UrlParams.AlertKeyInjective | src/URLParser.ts:159-163 | an alert key determines the alert and the field |
| UrlParams.ReadAlert | src/URLParser.ts:156-163 | the record carries the alert's name; a field is unset exactly when its key is absent, and a present key reads so that the field's text is the parameter again |
| UrlParams.ReadAlerts | src/URLParser.ts:149-167 | after the reader the map holds exactly one entry per configured alert, read from the parameters, whatever it held before |
| UrlParams.ReadAlertsStep | src/URLParser.ts:156-166 | one more configured alert is one more `set` |
| UrlParams.WriteAlertFieldsLookup | src/URLParser.ts:224-237 | after writing some of an alert's fields, a key of a written field holds its text when the field is truthy; every other key is as before |
| UrlParams.WriteAlertLookup | src/URLParser.ts:224-237 | after an alert's writes, each of its keys holds the field's text exactly when the field is truthy; other alerts' keys are as before |
| UrlParams.WriteAlert | src/URLParser.ts:221-238 | one alert's truthy fields are written under its own name, lists comma-joined; no other alert's keys change |
| UrlParams.WriteAlertsLookup | src/URLParser.ts:220-239 | after writing the map, a key of a mapped alert holds that field's text when truthy, and every other key is as before |
| UrlParams.AlertReadBack | src/URLParser.ts:149-239 | an alert reads back under its own name, with the same fields truthy |
| UrlParams.AlertsRoundTrip | src/URLParser.ts:149-239 | reading back the written alerts gives each configured alert its record as it reads back, or an unset record when the map had none |
| UrlParams.ReadAlertOf | src/URLParser.ts:156-163 | an alert's keys holding its truthy fields read back as `AlertReadBack` of the alert |
| UrlParams.ReadAlertUnset | src/URLParser.ts:156-163 | an alert none of whose keys is present reads back unset |
| UrlParams.AnimationKeyInjective | src/URLParser.ts:178-180 | an animation key determines the animation and the field |
| UrlParams.ReadAnimation | src/URLParser.ts:175-183 | the record carries the animation's name; each field is the parameter when present and `null` otherwise |
| UrlParams.ReadAnimations | src/URLParser.ts:169-184 | after the reader the map holds exactly one entry per configured animation, whatever it held before |
| UrlParams.ReadAnimationsStep | src/URLParser.ts:175-183 | one more configured animation is one more `set` |
| UrlParams.WriteAnimation | src/URLParser.ts:242-253 | one animation's truthy fields are written under its own name; no other animation's keys change |
| UrlParams.WriteAnimationsStep | src/URLParser.ts:241-254 | one more entry of the map is one more animation's writes |
| UrlParams.WriteAnimationsLookup | src/URLParser.ts:241-254 | after writing the map, a key of a mapped animation holds that field when truthy, and every other key is as before |
| UrlParams.AnimationReadBack | src/URLParser.ts:169-254 | an animation reads back under its own name, each field as `TextReadBack` of the written one |
| UrlParams.AnimationsRoundTrip | src/URLParser.ts:169-254 | reading back the written animations gives each configured animation its record as it reads back, or an all-`null` record when the map had none |
| UrlParams.ReadWrittenAnimation | src/URLParser.ts:169-254 | one animation read back from the written parameters, as `AnimationReadBack` or all `null` |
| UrlParams.FontKeysDistinct | src/URLParser.ts:188-192 | the five font keys differ |
| UrlParams.OrDefault | src/URLParser.ts:188-192 | the parameter when present and non-empty, otherwise the default |
| UrlParams.ReadFont | src/URLParser.ts:186-194 | each field is the parameter when present and non-empty, and otherwise its default: Arial, normal, 12, 0, none |
| UrlParams.SetIfNotDefault | src/URLParser.ts:257-270 | the key is written, as the value's text, exactly when the value differs from the default; other keys are unchanged |
| UrlParams.WriteFont | src/URLParser.ts:256-271 | a font key is written exactly when its value differs from the default |
| UrlParams.FontRoundTrip | src/URLParser.ts:186-271 | with every field set and non-empty, reading back the written font gives it back |
| UrlParams.Interpolated | src/URLParser.ts:198 | a present parameter as it is, an absent one as the text "null" |
| UrlParams.ReadArchipelago | src/URLParser.ts:196-202 | the url always holds ":" because `url` and `port` are joined even when absent; slots are unset exactly when `slots` is absent; the password is the parameter or `null` |
| UrlParams.WriteArchipelago | src/URLParser.ts:273-284 | it throws exactly when the url or the slots are unset; an unset url throws before anything is written; otherwise `url` holds the part of the url before the first ":" |
| UrlParams.SplitAtColon | src/URLParser.ts:275 | a host and a port without ":" split back apart |
| UrlParams.ArchipelagoRoundTrip | src/URLParser.ts:196-284 | a url of one host and a non-empty port, non-empty comma-free slots and a password read back unchanged |
| UrlParams.PortlessUrlReadsBackWithNull | src/URLParser.ts:196-284 | a url without a port reads back with ":null" appended |
| UrlParams.ReadImage | src/URLParser.ts:204-210 | each value is the parameter when present and `null` otherwise, with no default |
| UrlParams.WriteImage | src/URLParser.ts:286-299 | every value other than "100" is written, an unset one as its text |
| UrlParams.ImageReadBack | src/URLParser.ts:204-299 | an image value reads back set exactly when it is not "100" |
| UrlParams.ImageRoundTrip | src/URLParser.ts:204-299 | each image value reads back as `ImageReadBack` of the written one |
| UrlParams.MissingImageWidthBecomesText | src/URLParser.ts:288-290 | a missing width is written as "null" and reads back as that text |
| UrlParams.UrlParser.constructor | src/URLParser.ts:42-49 | the maps empty and every other field `undefined` |
| UrlParams.UrlParser.DeconstructConfigParams | src/URLParser.ts:140-147 | the configuration name becomes `ReadConfig` of the parameters; nothing else changes |
| UrlParams.UrlParser.CollectAlerts | src/URLParser.ts:154-166 | the map built is `ReadAlerts` of the parameters |
| UrlParams.UrlParser.DeconstructAlertParams | src/URLParser.ts:149-167 | the alert map becomes `ReadAlerts` of the parameters; nothing else changes |
| UrlParams.UrlParser.CollectAnimations | src/URLParser.ts:173-183 | the map built is `ReadAnimations` of the parameters |
| UrlParams.UrlParser.DeconstructAnimationParams | src/URLParser.ts:169-184 | the animation map becomes `ReadAnimations` of the parameters; nothing else changes |
| UrlParams.UrlParser.DeconstructFontParams | src/URLParser.ts:186-194 | the font fields become `ReadFont` of the parameters; nothing else changes |
| UrlParams.UrlParser.DeconstructArchipelagoParams | src/URLParser.ts:196-202 | the connection fields become `ReadArchipelago` of the parameters; nothing else changes |
| UrlParams.UrlParser.DeconstructImageParams | src/URLParser.ts:204-210 | the image fields become `ReadImage` of the parameters; nothing else changes |
| UrlParams.UrlParser.ConstructConfigParams | src/URLParser.ts:216-218 | the parameters become `WriteConfig` of the old ones |
| UrlParams.UrlParser.ConstructAlertParams | src/URLParser.ts:220-239 | the parameters become every mapped alert's writes, in map order, over the old ones |
| UrlParams.UrlParser.ConstructAnimationParams | src/URLParser.ts:241-254 | the parameters become every mapped animation's writes, in map order, over the old ones |
| UrlParams.UrlParser.ConstructFontParams | src/URLParser.ts:256-271 | the parameters become `WriteFont` of the old ones |
| UrlParams.UrlParser.ConstructArchipelagoParams | src/URLParser.ts:273-284 | the parameters and the exception are those of `WriteArchipelago` |
| UrlParams.UrlParser.ConstructImageParams | src/URLParser.ts:286-299 | the parameters become `WriteImage` of the old ones |
| AlertSettings.MediaTable | Alerts/src/AlertManager.ts:64-70 | one medium per entry of the name-to-link table, in entry order, each filed under its own name with its link |
| AlertSettings.Resolve | Alerts/src/AlertManager.ts:76-77 | at most one medium per name, each one held by the table |
| AlertSettings.ResolveAppend | Alerts/src/AlertManager.ts:76-77 | resolving a concatenation resolves each part |
| AlertSettings.ResolveAllKnown | Alerts/src/AlertManager.ts:76-77 | when every name is known nothing is dropped: one medium per name, in order |
| AlertSettings.ResolveUnknown | Alerts/src/AlertManager.ts:76-77 | names missing from the table leave no trace |
| AlertSettings.Names | Alerts/src/AlertManager.ts:146-149 | one name per medium, in order |
| AlertSettings.ResolveNames | Alerts/src/AlertManager.ts:76-149 | media drawn from a table come back when their names are resolved in it again |
| AlertSettings.BaseEntry | Alerts/src/AlertManager.ts:73-80 | the entry carries the alert's name |
| AlertSettings.BaseEntryFields | Alerts/src/AlertManager.ts:73-80 | every field is set: color and animation as configured, the timeout text reads back as the configured number, and the image list keeps the known names in configured order |
| AlertSettings.BaseEntries | Alerts/src/AlertManager.ts:72-90 | the configs after the alerts loop stay a consistent dictionary |
| AlertSettings.BaseEntriesGet | Alerts/src/AlertManager.ts:72-81 | each alert of the loop gets its base entry; other names keep theirs |
| AlertSettings.NullOverrides | Alerts/src/AlertManager.ts:82-89 | the overrides after the alerts loop stay a consistent dictionary |
| AlertSettings.NullOverridesGet | Alerts/src/AlertManager.ts:82-89 | each alert of the loop gets an all-`null` override; other names keep theirs |
| AlertSettings.CreatedStep | Alerts/src/AlertManager.ts:72-90 | one more alert of the loop is one more `set` in each map |
| AlertSettings.Created | Alerts/src/AlertManager.ts:63-91 | the maps stay consistent and the loaded configurations are unchanged |
| AlertSettings.ParamList | Alerts/src/AlertManager.ts:198-200 | `[]` for an absent parameter; otherwise comma-free pieces that join back to the parameter |
| AlertSettings.ReadOverride | Alerts/src/AlertManager.ts:96-128 | the override carries the name and always holds media arrays, empty when the parameter is absent; each text field is `null` exactly when its parameter is absent |
| AlertSettings.UrlOverrides | Alerts/src/AlertManager.ts:96-129 | each configured alert's override is replaced by the one read; other names keep theirs |
| AlertSettings.Deconstruct | Alerts/src/AlertManager.ts:93-130 | only the overrides change; the configs, media tables and loaded configurations are kept |
| AlertSettings.FieldText | Alerts/src/AlertManager.ts:136-149 | media lists are written whenever they are arrays, even empty; timeout and animation exactly when truthy and as they are; the color when truthy, without its first "#" |
| AlertSettings.WriteFieldsLookup | Alerts/src/AlertManager.ts:136-149 | after some of an override's writes, each written field's key holds its text when there is one; other keys are as before |
| AlertSettings.EveryFieldWritten | Alerts/src/AlertManager.ts:136-149 | all five fields are written |
| AlertSettings.WriteOverrideUnfolded | Alerts/src/AlertManager.ts:136-149 | the five writes of one override happen in the source's order |
| AlertSettings.WriteOverrideLookup | Alerts/src/AlertManager.ts:136-149 | after one override's writes, each of its keys holds the field's text when there is one; every other key is as before |
| AlertSettings.WriteOverridesLookup | Alerts/src/AlertManager.ts:135-151 | after the loop over distinct names, a listed name's key holds that field's text when there is one, and every other key is as before |
| AlertSettings.ConstructLookup | Alerts/src/AlertManager.ts:132-154 | the alert keys written are exactly the field texts of the stored overrides |
| AlertSettings.CreateKeepsConsistent | Alerts/src/AlertManager.ts:63-91 | `createConfigs` keeps the invariant: the same names configured and overridden, every entry and medium filed under its own name |
| AlertSettings.DeconstructKeepsConsistent | Alerts/src/AlertManager.ts:93-130 | `deconstructURL` keeps the invariant |
| AlertSettings.DeconstructedWritesBothMediaKeys | Alerts/src/AlertManager.ts:101-149 | after `deconstructURL`, `constructSearchParams` writes both media keys of every configured alert, even when the URL named no known medium |
| AlertSettings.ColorLosesItsHash | Alerts/src/AlertManager.ts:97-137 | a color written with a leading "#" reads back without it |
| AlertSettings.MediaReadBack | Alerts/src/AlertManager.ts:101-149 | a list of media written as its comma-joined names reads back as the same list, when no medium is named "" |
| AlertSettings.DeconstructUnchanged | Alerts/src/AlertManager.ts:96-129 | overrides that already equal what would be read are left as they are |
| AlertSettings.RoundTrip | Alerts/src/AlertManager.ts:93-154 | reading back the written parameters gives the same state, when every override travels and no medium is named "" |
| AlertSettings.Switched | Alerts/src/AlertManager.ts:184-196 | an unknown name changes nothing, and the loaded configurations are never changed |
| AlertSettings.ChangeConfigForgetsEarlierAlerts | Alerts/src/AlertManager.ts:184-196 | after switching to a loaded configuration exactly its alerts are configured, with its own media tables and all-`null` overrides; no earlier alert survives |
| AlertSettings.ChangeConfigKeepsConsistent | Alerts/src/AlertManager.ts:184-196 | `changeConfig` keeps the invariant |
| AlertSettings.Loaded | Alerts/src/AlertManager.ts:49-61 | the configurations found are stored; it throws exactly when there are none, and then the maps are unchanged |
| AlertSettings.LoadCreatesFirstConfig | Alerts/src/AlertManager.ts:49-61 | after a load that did not throw, the first configuration's alerts are set over what was configured before, with all-`null` overrides |
| AlertSettings.AlertManager.constructor | Alerts/src/AlertManager.ts:33-40 | empty maps; the media tables and the loaded configurations not yet assigned |
| AlertSettings.AlertManager.CreateEntries | Alerts/src/AlertManager.ts:72-90 | the maps become `BaseEntries` and `NullOverrides` of the old ones over the configured names |
| AlertSettings.AlertManager.CreateConfigs | Alerts/src/AlertManager.ts:63-91 | the state becomes `Created` of the old one, and the media tables are assigned |
| AlertSettings.AlertManager.GetParamList | Alerts/src/AlertManager.ts:198-200 | returns `ParamList` of the parameters |
| AlertSettings.AlertManager.CollectMedia | Alerts/src/AlertManager.ts:101-119 | returns `Resolve` of the names |
| AlertSettings.AlertManager.ReadOverrides | Alerts/src/AlertManager.ts:96-129 | returns `UrlOverrides` of the parameters |
| AlertSettings.AlertManager.DeconstructUrl | Alerts/src/AlertManager.ts:93-130 | the state becomes `Deconstruct` of the old one; before the media tables are assigned no alert is configured and nothing changes |
| AlertSettings.AlertManager.WriteOne | Alerts/src/AlertManager.ts:136-149 | returns one override's writes over the given parameters |
| AlertSettings.AlertManager.ConstructSearchParams | Alerts/src/AlertManager.ts:132-154 | fresh parameters holding `Construct` of the state |
| AlertSettings.AlertManager.ChangeConfig | Alerts/src/AlertManager.ts:184-196 | throws, changing nothing, exactly before any load; otherwise the state becomes `Switched` of the old one, and the media tables are assigned when the name was loaded |
| AlertSettings.AlertManager.Load | Alerts/src/AlertManager.ts:49-61 | the state and the failure flag are those of `Loaded`; the configurations are assigned, and the media tables too unless it threw |
| AlertSettings.AlertManager.GetAlert | Alerts/src/AlertManager.ts:156-158 | the base entry of the name, if any |
| AlertSettings.AlertManager.GetAlerts | Alerts/src/AlertManager.ts:160-162 | every base entry, in configuration order |
| AlertSettings.AlertManager.GetAudio | Alerts/src/AlertManager.ts:164-166 | throws exactly before the tables are assigned; otherwise a medium exactly when the name is in the audio table, filed under that name |
| AlertSettings.AlertManager.GetAudios | Alerts/src/AlertManager.ts:168-170 | throws exactly before the tables are assigned; otherwise every audio medium, in table order |
| AlertSettings.AlertManager.GetImage | Alerts/src/AlertManager.ts:172-174 | throws exactly before the tables are assigned; otherwise a medium exactly when the name is in the image table, filed under that name |
| AlertSettings.AlertManager.GetImages | Alerts/src/AlertManager.ts:176-178 | throws exactly before the tables are assigned; otherwise every image medium, in table order |
| AlertSettings.AlertManager.GetLoadedConfigs | Alerts/src/AlertManager.ts:180-182 | throws exactly before any load; otherwise the names of the loaded configurations, in load order |
| AnimationSettings.BaseEntry | src/settings/AnimationManager.ts:38-43 | the base entry carries the animation's name |
| AnimationSettings.BaseEntryText | src/settings/AnimationManager.ts:38-43 | the timing is kept as configured, and duration and iterations are decimal text that reads back as the configured numbers |
| AnimationSettings.BaseEntries | src/settings/AnimationManager.ts:35-51 | the configs after the loop stay a consistent dictionary |
| AnimationSettings.BaseEntriesGet | src/settings/AnimationManager.ts:35-44 | each configured animation gets its base entry; other names keep theirs |
| AnimationSettings.NullOverrides | src/settings/AnimationManager.ts:45-50 | the overrides after the loop stay a consistent dictionary |
| AnimationSettings.NullOverridesGet | src/settings/AnimationManager.ts:45-50 | each configured animation gets an all-`null` override; other names keep theirs |
| AnimationSettings.KeyframeBlocks | src/settings/AnimationManager.ts:33-37 | one `@keyframes` block per animation, in configuration order, each built from that animation's keyframes |
| AnimationSettings.KeyframeBlocksStep | src/settings/AnimationManager.ts:36-37 | one more animation pushes one more block |
| AnimationSettings.CreatedStep | src/settings/AnimationManager.ts:35-51 | one more animation is one more `set` in each map |
| AnimationSettings.Created | src/settings/AnimationManager.ts:32-54 | both maps stay consistent dictionaries |
| AnimationSettings.UrlOverrides | src/settings/AnimationManager.ts:59-70 | each configured animation's override is replaced by the one its three URL parameters give, `null` where absent; other names keep theirs |
| AnimationSettings.Deconstruct | src/settings/AnimationManager.ts:56-71 | the configs are untouched |
| AnimationSettings.CreateKeepsConsistent | src/settings/AnimationManager.ts:32-54 | `createConfigs` keeps the invariant: the same names configured and overridden, each override filed under its own name |
| AnimationSettings.DeconstructKeepsConsistent | src/settings/AnimationManager.ts:56-71 | `deconstructURL` keeps the invariant |
| AnimationSettings.UrlOverridesAt | src/settings/AnimationManager.ts:59-70 | after `deconstructURL` a name is overridden exactly when it was configured or already overridden; a read override carries its name, any other is kept |
| AnimationSettings.LoadReadsEveryConfiguredName | src/settings/AnimationManager.ts:32-71 | because the configs are created before the URL is read, every configured animation ends with its base entry and the override the URL gives it |
| AnimationSettings.DeconstructUnchanged | src/settings/AnimationManager.ts:59-70 | overrides that already equal what would be read are left as they are |
| AnimationSettings.RoundTrip | src/settings/AnimationManager.ts:56-89 | reading back the written parameters gives the same store, when every override field is `null` or non-empty text |
| AnimationSettings.ApplyAsWritten | src/settings/AnimationManager.ts:127-137 | no element or an unknown animation sets nothing; a known animation without an override record throws |
| AnimationSettings.Apply | src/settings/AnimationManager.ts:127-137 | the same skip and throw cases as written |
| AnimationSettings.DurationOverrideBecomesTiming | src/settings/AnimationManager.ts:135 | as written, overriding only the duration sets the timing function to the duration's text instead of the configured timing |
| AnimationSettings.ApplyResolvesEachField | src/settings/AnimationManager.ts:133-136 | corrected, the name is the animation's and each property is its override when set and its base otherwise; the duration gets "ms" |
| AnimationSettings.AnimationManager.constructor | src/settings/AnimationManager.ts:22 | empty maps and an empty style tag |
| AnimationSettings.AnimationManager.CreateEntries | src/settings/AnimationManager.ts:35-51 | returns `BaseEntries`, `NullOverrides` and `KeyframeBlocks` over the configured names |
| AnimationSettings.AnimationManager.CreateConfigs | src/settings/AnimationManager.ts:32-54 | the state becomes `Created` of the old one, and the style tag holds every block joined by newlines plus a final newline |
| AnimationSettings.AnimationManager.ReadOverrides | src/settings/AnimationManager.ts:59-70 | returns `UrlOverrides` of the parameters |
| AnimationSettings.AnimationManager.DeconstructUrl | src/settings/AnimationManager.ts:56-71 | the state becomes `Deconstruct` of the old one; the style tag is kept |
| AnimationSettings.AnimationManager.ConstructSearchParams | src/settings/AnimationManager.ts:73-89 | fresh parameters holding `Construct` of the state |
| AnimationSettings.AnimationManager.Load | src/settings/SettingsManager.ts:11-14 | the state becomes `Loaded` of the old one |
| AnimationSettings.AnimationManager.GetAnimation | src/settings/AnimationManager.ts:91-93 | the base entry of the name, if any |
| AnimationSettings.AnimationManager.GetAnimations | src/settings/AnimationManager.ts:95-97 | every base entry, in configuration order |
| SettingsStores.Settings.GetConfig | src/settings/SettingsManager.ts:16-18 | an entry exactly when the name is configured, and then the configured one |
| SettingsStores.Settings.GetOverride | src/settings/SettingsManager.ts:24-26 | an entry exactly when the name is overridden, and then the stored override |
| SettingsStores.Settings.GetConfigs | src/settings/SettingsManager.ts:20-22 | one entry per configured name, in the order the names were first set, each the entry `getConfig` gives for that name |
| SettingsStores.Settings.GetOverrides | src/settings/SettingsManager.ts:28-30 | one override per overridden name, in the order the names were first set |
| SettingsStores.GetConfigsListsEveryEntry | src/settings/SettingsManager.ts:20-22 | every configured entry appears in `getConfigs()` at its name's position |
| TextParser.WordRun | src/lib/textParser.ts:20 | the longest run of word characters at the start: all of it word characters, and the next character is not one |
| TextParser.TextRun | src/lib/textParser.ts:27 | the longest run without "]" at the start, ended by a "]" when anything follows |
| TextParser.MatchVar | src/lib/textParser.ts:20 | a match is "{{", a non-empty word and "}}" at the start of the text |
| TextParser.VarsUnchanged | src/lib/textParser.ts:20-25 | text where the placeholder pattern matches nowhere comes back unchanged |
| TextParser.NoBraceUnchanged | src/lib/textParser.ts:20-25 | text without "{" comes back unchanged |
| TextParser.VarsPrefix | src/lib/textParser.ts:20-25 | text before the first "{" is copied as it is |
| TextParser.VarReplaced | src/lib/textParser.ts:20-25 | a placeholder becomes its span (the variable's value, or its name when it has none) and the scan goes on after it |
| TextParser.WordRunOfWord | src/lib/textParser.ts:20 | a word followed by a non-word character is matched exactly to its end |
| TextParser.MatchTag | src/lib/textParser.ts:27 | a match is "[[", a non-empty word, ":", a non-empty value without "]" and "]]" at the start of the text |
| TextParser.TagsUnchanged | src/lib/textParser.ts:27-29 | text where the tag pattern matches nowhere comes back unchanged |
| TextParser.NoBracketUnchanged | src/lib/textParser.ts:27-29 | text without "[" comes back unchanged |
| TextParser.TagsPrefix | src/lib/textParser.ts:27-29 | text before the first "[" is copied as it is |
| TextParser.TextRunOfText | src/lib/textParser.ts:27 | a value without "]" followed by "]" is matched exactly to its end |
| TextParser.MatchTagOf | src/lib/textParser.ts:27 | a well-formed tag matches with its own key and value lengths |
| TextParser.TagReplaced | src/lib/textParser.ts:27-29 | a tag becomes its span and the scan goes on after it |
| TextParser.ReplaceTagsAtMatch | src/lib/textParser.ts:27-29 | where a tag matches, its span is written and the scan resumes after the match |
| TextParser.PlainTextUnchanged | src/lib/textParser.ts:19-32 | text with neither "{" nor "[" comes back unchanged |
| TextParser.TagInsideSpan | src/lib/textParser.ts:27-29 | a tag wrapped in a placeholder's span is expanded inside the span |
| TextParser.SubstitutedTagsExpand | src/lib/textParser.ts:19-32 | since placeholders are replaced first, a tag held in a variable's value is expanded too |
| TextParser.ChosenText | src/lib/textParser.ts:11 | the current language's text when it is non-empty, else the English text, if any |
| TextParser.Parse | src/lib/textParser.ts:7-17 | "" without an alert, without translations or without a non-empty chosen text; otherwise both replacements of the chosen text |
| TextParser.ParseTexts | src/lib/textParser.ts:7-17 | with neither text given the result is ""; a plain English text comes back as it is |
| VariantSettings.TypeEntry | src/settings.ts:52 | the alert type's entry exactly when the configuration, its `alerts` and the type all exist |
| VariantSettings.ChosenFields | src/settings.ts:49-53 | a variant's fields when a non-empty variant name is given and the type has it; otherwise the type's own; nothing for an unknown type |
| VariantSettings.GetAlertSettings | src/settings.ts:48-62 | every field is the chosen object's, or its default (white, no sources, no animation, 2000 ms) when missing |
| VariantSettings.UnknownTypeDefaults | src/settings.ts:48-62 | an unknown type, or no configuration, gives every default whatever the variant |
| VariantSettings.EmptyVariantIsNoVariant | src/settings.ts:49 | an empty variant name is the same as none |
| VariantSettings.UnknownVariantFallsBack | src/settings.ts:49-53 | a variant the type does not have falls back to the type's fields |
| VariantSettings.VariantDoesNotInherit | src/settings.ts:49-60 | a variant replaces the type's fields as a whole: a field it lacks takes the default, not the type's value |
| VariantSettings.GetAnimationRaw | src/settings.ts:64-76 | `null` exactly when the animation is missing; otherwise the requested name and each field or its default |
| VariantSettings.EmptyAnimationDefaults | src/settings.ts:69-75 | an entry without fields gives duration 2000, no timing, one iteration and no keyframes |
| Media.Item | src/lib/media.ts:17-25 | the item carries its name and every field of the JSON entry, one to one |
| Media.ItemEntries | src/lib/media.ts:16-26 | one item per JSON entry, in entry order, each under its own name |
| Media.Created | src/lib/media.ts:15-27 | the store stays a consistent dictionary |
| Media.CreatedGet | src/lib/media.ts:15-27 | every JSON entry is stored under its name and every other name keeps what it had; the map is not cleared |
| Media.CreatedFromEmpty | src/lib/media.ts:15-27 | created from empty, a store holds exactly the JSON's entries in the JSON's order |
| Media.StoreOf | src/lib/media.ts:37-40 | only "audio" and "image" name a store, each its own |
| Media.Initialized | src/lib/media.ts:9-13 | both stores stay consistent |
| Media.Reloaded | src/lib/media.ts:29-34 | both stores stay consistent |
| Media.ReloadIsExactlyTheJson | src/lib/media.ts:29-34 | after `reload` each store holds exactly its JSON table, in its order, whatever was stored before |
| Media.GetMedia | src/lib/media.ts:36-43 | undefined for an unknown type; otherwise the store's item for the name, if any |
| Media.GetMedias | src/lib/media.ts:45-52 | [] for an unknown type; otherwise every item in insertion order |
| Media.GetMediaNames | src/lib/media.ts:54-61 | [] for an unknown type; otherwise the names in insertion order |
| Media.ReloadedNamesGiveTheirEntries | src/lib/media.ts:29-61 | after `reload` the image names listed are the JSON's, and each gives back its JSON entry |
| Media.MediaStores.constructor | src/lib/media.ts:4-7 | empty stores, then `initializeMedia()`: the state is `Reloaded` of the JSON |
| Media.MediaStores.CreateMediaEntries | src/lib/media.ts:15-27 | returns `Created` of the store and the JSON table |
| Media.MediaStores.InitializeMedia | src/lib/media.ts:9-13 | the state becomes `Initialized` of the old one |
| Media.MediaStores.Reload | src/lib/media.ts:29-34 | the state becomes `Reloaded` of the JSON |
| CssText.IterationText | src/animation.ts:37 | "infinite" for an infinite count; otherwise decimal text that reads back as the count |
| CssText.IterationTextIsToken | src/animation.ts:37 | an iteration count's text holds no white space, colon or semicolon, so it survives being read back from a property line |
| CssText.CamelCase | src/animation.ts:73 | never longer than its input |
| CssText.CamelCaseWithoutDash | src/animation.ts:73 | text without a dash is left as it is |
| CssText.CamelCasePrefix | src/animation.ts:73 | a dash-free prefix is copied as it is |
| CssText.CamelCaseDash | src/animation.ts:73 | a dash followed by a lower-case letter becomes that letter in upper case |
| CssText.CamelCaseTwoWords | src/animation.ts:73 | in a text of three dash-separated words, the two dashes each give way to the next letter in upper case |
| CssText.AnimationPropertyNames | src/animation.ts:34-37 | the four CSS animation properties camel-case to the names `element.style` uses for them |
| Keyframes.Declarations | src/lib/animation.ts:31-33 | one declaration per entry, in entry order |
| Keyframes.KeyframeLines | src/lib/animation.ts:27-41 | the block's lines: the header, one line per keyframe in entry order, and "}" |
| Keyframes.KeyframeCssLines | src/lib/animation.ts:27-41 | split at its newlines, the block gives back exactly those lines, when nothing in it holds a newline |
| Keyframes.BuildKeyframeCss | src/lib/animation.ts:27-41 | the block built line by line by the loop equals the block's specification |
| Keyframes.BlockTexts | src/lib/animation.ts:18-20 | one block text per entry, in order |
| Keyframes.JoinedBlocksJoinTheirLines | src/lib/animation.ts:24 | joining the blocks with newlines is joining all their lines |
| Keyframes.BlocksCssLines | src/lib/animation.ts:24 | the joined blocks split back into every block's lines, block after block |
| KeyframeLoader.ConfigBlocks | src/lib/animation.ts:18 | one pair per entry of the record, in entry order |
| KeyframeLoader.Created | src/lib/animation.ts:15-25 | the names are appended to `loadedAnimations` after the earlier ones, in entry order, and the style text is replaced by the joined blocks and a newline |
| KeyframeLoader.LoadTwiceListsTwice | src/lib/animation.ts:9-25 | `loadedAnimations` is never cleared: loading the same record twice lists its names twice; the text is that of the last load |
| KeyframeLoader.StyleTextLines | src/lib/animation.ts:15-53 | read line by line, the style text after a load is every block's lines in entry order, then the empty line after the final newline |
| KeyframeLoader.AppliedWrites | src/lib/animation.ts:59-68 | nothing without an element or an animation; otherwise the name, the duration in ms, the timing function and the iteration count, in that order |
| KeyframeLoader.RemovedWrites | src/lib/animation.ts:70-78 | nothing without an element; otherwise the four animation properties emptied |
| KeyframeLoader.RemoveResetsApplied | src/lib/animation.ts:59-78 | removing empties exactly the properties applying sets, in the same order |
| KeyframeLoader.AgreesWithRegistry | src/lib/animation.ts:59-68 | its assignments are the ones the registry of src/animation.ts reads back from its own generated CSS for the same animation |
| KeyframeLoader.AnimationLoader.constructor | src/lib/animation.ts:9 | no names loaded; the style tag holds what the page put there |
| KeyframeLoader.AnimationLoader.CreateConfigs | src/lib/animation.ts:15-25 | the state becomes `Created` of the old one |
| KeyframeLoader.AnimationLoader.CreatedStep | src/lib/animation.ts:18-22 | one more entry of the loop collects its block and pushes its name |
| KeyframeLoader.AnimationLoader.AnimationNames | src/lib/animation.ts:55-57 | the loaded names, every load's in order |
| PageAnimations.PropertyLines | src/animation.ts:33-38 | exactly four property lines |
| PageAnimations.GenerateAnimationCss | src/animation.ts:18-41 | the keyframe block built line by line and the property lines joined by newlines |
| PageAnimations.GeneratedKeyframeLines | src/animation.ts:21-31 | the keyframe text splits back into the header, one line per keyframe in entry order, and "}" |
| PageAnimations.GeneratedPropertyLines | src/animation.ts:33-38 | the animation text splits back into its four property lines |
| PageAnimations.Cleared | src/animation.ts:47-48 | the cleared registry is a consistent dictionary |
| PageAnimations.Registered | src/animation.ts:50-58 | registering keeps the registry consistent and does not create the style tag |
| PageAnimations.Register | src/animation.ts:51-57 | one config keeps the registry consistent and does not create the style tag |
| PageAnimations.Loaded | src/animation.ts:43-59 | nothing changes without a style tag; otherwise the configs are registered into the cleared registry |
| PageAnimations.RegisteredNames | src/animation.ts:50-58 | a name is registered exactly when some config carries it |
| PageAnimations.NamedSnoc | src/animation.ts:50 | some config carries a name exactly when one before the last does or the last one does |
| PageAnimations.RegisteredStep | src/animation.ts:50-58 | one more config registers its name and keeps the others |
| PageAnimations.FirstOccurrenceWins | src/animation.ts:53-57 | the first config with a name is the one registered under it; later ones with that name are skipped |
| PageAnimations.RegisterGet | src/animation.ts:53-57 | a new name is mapped to its generated CSS; a registered name keeps what it had |
| PageAnimations.Names | src/animation.ts:50 | one name per config, in order |
| PageAnimations.DistinctNamesAllRegistered | src/animation.ts:43-59 | with no repeated name every config is registered: the names in config order, and every block in the style text in config order |
| PageAnimations.LastNameIsNew | src/animation.ts:53 | with no repeated name, the last config's name is not registered by the ones before it |
| PageAnimations.RegisterNew | src/animation.ts:56-57 | a config with a new name goes last, and its block and a newline are appended to the style text |
| PageAnimations.DropFinalSemicolon | src/animation.ts:72 | one trailing semicolon removed, and nothing else |
| PageAnimations.SplitPropertyLine | src/animation.ts:68 | a line `prop: value;` splits at its one colon |
| PageAnimations.TrimPropertyValue | src/animation.ts:72 | the value part trims to the value and its semicolon |
| PageAnimations.PropertyLineWrite | src/animation.ts:67-75 | a line `prop: value;` gives the camel-cased property and the value |
| PageAnimations.TrimmedPropertyLines | src/animation.ts:67 | the trimmed animation text splits into the four property lines |
| PageAnimations.PropertyLinesWrites | src/animation.ts:67-75 | each of the four property lines reads back as its assignment |
| PageAnimations.ParsedGeneratedWrites | src/animation.ts:33-75 | reading back the generated text gives the four assignments of name, duration in ms, timing function and iteration count, when the name and timing function are CSS tokens |
| PageAnimations.ApplyAfterLoad | src/animation.ts:43-76 | after loading, applying a name whose first config is `c` makes exactly the four assignments of `c` |
| PageAnimations.UnknownNameAppliesNothing | src/animation.ts:61-65 | a name no config carries makes no assignment |
| PageAnimations.RemovedWrites | src/animation.ts:78-83 | the four animation properties emptied, in the order applying writes them |
| PageAnimations.AnimationRegistry.constructor | src/animation.ts:3-11 | the style tag exists from then on, keeping the text of one already on the page; the map starts empty |
| PageAnimations.AnimationRegistry.LoadAnimations | src/animation.ts:43-59 | the state becomes `Loaded` of the old one |
| PageAnimations.AnimationRegistry.ApplyAnimation | src/animation.ts:61-76 | the assignments are `AppliedWrites` of the registry and the name |
| InlineAnimations.TimingText | src/util.ts:20 | "null" for a missing timing function, otherwise the function itself |
| InlineAnimations.GenerateAnimationCss | src/util.ts:3-26 | the text built with `+=` in two nested loops equals the generated text |
| InlineAnimations.AppendKeyframes | src/util.ts:7-13 | the outer loop appends each keyframe's text in entry order |
| InlineAnimations.AppendDeclarations | src/util.ts:9-11 | the inner loop appends each declaration in entry order |
| InlineAnimations.LinesOf | src/util.ts:7-13 | one line per keyframe, in entry order |
| InlineAnimations.InlineKeyframeLines | src/util.ts:6-14 | the header, one line per keyframe in entry order, and "}" |
| InlineAnimations.InlineKeyframeCssLines | src/util.ts:6-14 | read line by line, the keyframe text is exactly those lines |
| InlineAnimations.InlineKeyframeCssLoneBreaks | src/util.ts:6-14 | the keyframe text holds no blank line |
| InlineAnimations.AnimPropsLoneBreaks | src/util.ts:17-22 | the property text holds no blank line |
| InlineAnimations.SplitGenerated | src/util.ts:25-33 | splitting the generated text at "\n\n" gives the keyframe text and the property text back |
| InlineAnimations.IncludesOccurs | src/util.ts:44 | `includes` holds exactly when the text occurs somewhere |
| InlineAnimations.IncludesAppended | src/util.ts:44-46 | text just appended is included |
| InlineAnimations.InlineLineWrite | src/util.ts:50-55 | an assignment exactly when the line has two colon-separated pieces that trim to non-empty text |
| InlineAnimations.Applied | src/util.ts:28-57 | nothing for a missing or empty text; otherwise the keyframe part is in the style tag afterwards, added only when not already included, and the assignments come from the trimmed property lines |
| InlineAnimations.AppliedTwiceAddsOnce | src/util.ts:44-46 | applying the same text again leaves the style tag as it is |
| InlineAnimations.TrimmedProps | src/util.ts:17-22 | the trimmed property text has four lines |
| InlineAnimations.AnimPropsLines | src/util.ts:17-22 | trimmed and split, the property text gives its four lines |
| InlineAnimations.RemoveFinalSemicolon | src/util.ts:54 | removing the first ";" of a value ending in its only ";" leaves the value |
| InlineAnimations.GeneratedWritesRead | src/util.ts:49-56 | the four generated property lines read back as the four assignments |
| InlineAnimations.ApplyGenerated | src/util.ts:3-57 | applying generated CSS adds its keyframe block once and makes the four assignments of name, duration in ms, timing function ("null" when missing) and iteration count |
| InlineAnimations.AgreesWithRegistry | src/util.ts:3-57 | for a config with a timing function, the registry of src/animation.ts reads the same four assignments back from its own CSS |
| InlineAnimations.ReadStyleLines | src/util.ts:49-56 | the `forEach` makes one assignment per line with a property and a value, in order |
| InlineAnimations.StyleTag.constructor | src/util.ts:36-41 | the tag holds the given text |
| InlineAnimations.StyleTag.ApplyAnimationToElement | src/util.ts:28-57 | the new tag text, the assignments and whether it threw are those of `Applied` |
| Strings.SplitJoin | src/URLParser.ts:162-163 | a list of at least one comma-free piece, joined with "," and split again, comes back unchanged |
| Strings.JoinSplit | src/URLParser.ts:234-237 | joining the pieces of a split gives the text back |
| Strings.ParseIntToString | src/URLParser.ts:160 | an integer's decimal text reads back as the same integer |
| SearchParams.UrlSearchParams.Get | src/URLParser.ts:159-163 | a value exactly when the key is set, and then its value |
| SearchParams.UrlSearchParams.Set | src/URLParser.ts:234-237 | the key now holds the value and every other key is as before |
| OverlaySettings.Entry | src/SettingsManager.ts:73-76 | the type's entry exactly when the configuration lists the type with a non-null entry |
| OverlaySettings.AlertOf | src/SettingsManager.ts:72-76 | no alert exactly for an unknown type or a null entry; otherwise the alert carries the type's name |
| OverlaySettings.MediaIn | src/SettingsManager.ts:174-184 | `{name, link}` exactly when the table holds the name with a truthy link, and then under that name |
| OverlaySettings.PositiveParam | src/SettingsManager.ts:86-91 | a value exactly when the parameter is given and `parseInt` reads it as a positive number, and then that number |
| OverlaySettings.Defaults | src/SettingsManager.ts:80-84 | an entry without fields and no parameters gives timeout 2500, no animation, white and no media |
| OverlaySettings.TimeoutRule | src/SettingsManager.ts:86-91 | the `-timeout` parameter replaces the timeout exactly when `parseInt` reads it as positive; otherwise the entry's timeout, or 2500, stays |
| OverlaySettings.TimeoutReadsLeadingDigits | src/SettingsManager.ts:86-91 | `parseInt` reads the digits before a unit: "12px" is a timeout of 12 |
| OverlaySettings.TextParamsRule | src/SettingsManager.ts:93-98 | a given `-animation` replaces the animation and a given `-color` becomes the color with "#" in front; absent or empty ones leave the entry's value or the default |
| OverlaySettings.ImageSourcesAreKnown | src/SettingsManager.ts:100-104 | the images are exactly the listed names the image table knows with a truthy link; the list is the parameter's whenever it is present |
| OverlaySettings.AudioSourcesAreKnown | src/SettingsManager.ts:106-110 | the audios are exactly the listed names the audio table knows with a truthy link; the list is the parameter's whenever it is present |
| OverlaySettings.EmptyImagesParamClearsImages | src/SettingsManager.ts:100-104 | an empty `-images` parameter still replaces the list, so the alert shows no image whatever the entry lists |
| OverlaySettings.AllAlertsAreTheirTypes | src/SettingsManager.ts:52-70 | `getAlerts()` lists exactly the alerts `getAlert` gives for the configured types |
| OverlaySettings.OneAlertPerType | src/SettingsManager.ts:52-70 | without null entries there is one alert per configured type, in entry order |
| OverlaySettings.AllMediaAreKnown | src/SettingsManager.ts:122-140 | `getAudios()` and `getImages()` list exactly the table's entries with a truthy link, each as `{name, link}` |
| OverlaySettings.SettingsManager.constructor | src/SettingsManager.ts:19-21 | no configuration before `loadConfig` |
| OverlaySettings.SettingsManager.LoadConfig | src/SettingsManager.ts:48-50 | the configuration is what was fetched, or none when the fetch failed |
| OverlaySettings.SettingsManager.GetAudio | src/SettingsManager.ts:142-152 | `{name, link}` exactly for a name the audio table knows with a truthy link |
| OverlaySettings.SettingsManager.GetImage | src/SettingsManager.ts:174-184 | `{name, link}` exactly for a name the image table knows with a truthy link |
| OverlaySettings.SettingsManager.GetAlert | src/SettingsManager.ts:72-120 | the result is `AlertOf` of the configuration and the parameters |
| OverlaySettings.SettingsManager.GetAlerts | src/SettingsManager.ts:52-70 | every configured type's alert in entry order, null entries skipped |
| OverlaySettings.SettingsManager.GetAudios | src/SettingsManager.ts:122-140 | `AllMedia` of the audio table |
| OverlaySettings.SettingsManager.GetImages | src/SettingsManager.ts:154-172 | `AllMedia` of the image table |
| OverlaySettings.SettingsManager.CollectMedia | src/SettingsManager.ts:122-140 | each name of the table with a truthy link, in entry order |
| AnimatedOverlaySettings.Entry | src/settingsManager.ts:84-87 | the type's entry exactly when the configuration lists the type with a non-null entry |
| AnimatedOverlaySettings.LinkIn | src/settingsManager.ts:133-139 | the link exactly when the table holds the name with a non-null link, an empty link included |
| AnimatedOverlaySettings.AlertOf | src/settingsManager.ts:83-87 | no alert exactly for an unknown type or a null entry; otherwise the alert carries the type's name |
| AnimatedOverlaySettings.AnimationAt | src/settingsManager.ts:151-173 | an animation exactly for a non-null entry of the `animations` table, carrying its name, each field or its default, and the `-duration` override |
| AnimatedOverlaySettings.Defaults | src/settingsManager.ts:91-95 | an entry without fields and no parameters gives timeout 2500, no animation, white and no media |
| AnimatedOverlaySettings.ParamsRule | src/settingsManager.ts:97-105 | the animation comes from a given `-anim` parameter (not `-animation`), the timeout from a `-timeout` that `parseInt` reads as positive, the color from a given `-color` with "#" in front |
| AnimatedOverlaySettings.EmptyImagesParamKeepsList | src/settingsManager.ts:111-115 | an empty `-images` parameter counts as absent: the entry's own list stays |
| AnimatedOverlaySettings.ImageSourcesAreLinks | src/settingsManager.ts:111-121 | the images are exactly the links of the listed names the image table knows with a non-null link |
| AnimatedOverlaySettings.AllAlertsAreTheirTypes | src/settingsManager.ts:63-81 | `getAlerts()` lists exactly the alerts `getAlert` gives for the configured types |
| AnimatedOverlaySettings.NoAnimationsTable | src/settingsManager.ts:141-145 | without an `animations` table there is no animation |
| AnimatedOverlaySettings.AnimationDefaults | src/settingsManager.ts:167-173 | an entry without fields and no `-duration` gives 2500 ms, "ease-in" and one iteration |
| AnimatedOverlaySettings.DurationRule | src/settingsManager.ts:158-165 | the `-duration` parameter replaces the duration exactly when `parseInt` reads it as positive |
| AnimatedOverlaySettings.AllAnimationsAreTheirNames | src/settingsManager.ts:141-180 | `getAnimations()` lists exactly the animations of the non-null entries, each under its own name |
| AnimatedOverlaySettings.LoadRegistersConfigured | src/settingsManager.ts:53-61 | after `loadConfig` on a page with a style tag, the registry holds a name exactly when the configuration has a non-null animation of that name |
| AnimatedOverlaySettings.AnimatedSettingsManager.constructor | src/settingsManager.ts:25-27 | no configuration before `loadConfig` |
| AnimatedOverlaySettings.AnimatedSettingsManager.LoadConfig | src/settingsManager.ts:53-61 | the configuration is stored, then its animations are loaded into the registry, even when there are none |
| AnimatedOverlaySettings.AnimatedSettingsManager.GetAudio | src/settingsManager.ts:133-135 | the link exactly when the audio table holds the name with a non-null link |
| AnimatedOverlaySettings.AnimatedSettingsManager.GetImage | src/settingsManager.ts:137-139 | the link exactly when the image table holds the name with a non-null link |
| AnimatedOverlaySettings.AnimatedSettingsManager.GetAlert | src/settingsManager.ts:83-131 | the result is `AlertOf` of the configuration and the parameters |
| AnimatedOverlaySettings.AnimatedSettingsManager.GetAlerts | src/settingsManager.ts:63-81 | every configured type's alert in entry order, null entries skipped |
| AnimatedOverlaySettings.AnimatedSettingsManager.GetAnimations | src/settingsManager.ts:141-180 | each non-null entry's animation, in entry order |

## Left out

- DOM rendering is not modelled. This covers the `Alert` and toast classes, element creation, style-tag creation and `element.offsetWidth`. A display is an abstract start step and a finish step, and `cancel()` is an abstract event. Style writes are returned as lists of assignments.
- `removeAnimation` of `src/settings/AnimationManager.ts:139-147` makes the same four emptying assignments as `KeyframeLoader.RemovedWrites`. It is not modelled a second time. The same holds for `removeAnimationFromElement` of `src/util.ts:59-64`, which matches `PageAnimations.RemovedWrites`.
- I/O is replaced by parameters, and its text is not modelled. This covers `fetch` in `getLocalConfig` and `loadConfig`, `loadAnimation`, `window.location`, `import.meta.glob`, the JSON module imports and `console.log`. The configuration, the URL's parameters and the JSON tables are passed in.
- `getInstance` and the other singletons are not modelled. The classes are constructed explicitly.
- `deconstructCurrentParams`, `constructUrl`, `initializeDefaultParams` and `getInstance` of `src/URLParser.ts` are not modelled. They read `window`, fetch files or call the settings managers; the readers and writers they call are modelled.
- Loading the named configuration file in `deconstructConfigParams` of `src/URLParser.ts` is not modelled; only the name is read.
- UrlParams.UrlParser.ConstructFontParams requires that the font reader has run. Without it the source throws on the undefined field; that throw is not modelled.
- UrlParams.UrlParser.ConstructArchipelagoParams requires that the Archipelago reader has run, for the same reason.
- UrlParams.UrlParser.ConstructImageParams requires that the image reader has run, for the same reason.
- `URLSearchParams` is modelled as a map from key to value. Repeated keys and key order are not modelled.
- JavaScript enumerates integer-like object keys before the others. The model enumerates every record in insertion order.
- JSON values other than the typed fields each reader expects are not modelled. This covers a number where text is expected, nested objects in place of arrays, and so on.
- A keyframe record is required in `AnimationJson` of `src/settings/AnimationManager.ts`. A configured animation without one makes `Object.entries(undefined)` throw, which is not modelled.
- In `src/settings.ts` a variant is looked up in the same object as the alert's fields. The model keeps variants in a map of their own, so a variant named like a field (`color`, `timeout`) is not modelled.
- `Number()` and `parseInt` are modelled on decimal integer text with an optional sign. Fractions, exponents, hexadecimal, surrounding white space and Infinity are not modelled. Durations, timeouts and counts are integers.
- `stringToHue` and `pickRandom` are left out, because they use floats and randomness.
- In `src/lib/display.ts:68`, `cancel` starts a second `displayItem` loop while the first may still be awaiting. This interleaving is not modelled. The model has one drain loop, and `cancel` ends the current item the way a finish does.
- Maps that the source updates inside a `forEach` are modelled as a loop over a local value, assigned to the field after the loop. Aliasing of the maps with other objects is not modelled.
- The connection code of `src/lib/archipelagoConnection.ts` from line 59 on is not modelled, because it is a network client of archipelago.js.
- Imports whose names do not match their exports are not modelled; the function bodies are modelled as written. These are `StrToNumber` versus `stringToNumber`, the missing `parseText`/`loadLanguage`, and the out-of-scope `alert` at `src/URLParser.ts:124`.
- SemVers.ParseVersion: versions with a pre-release or build part (`1.2.3-beta`, `1.2.3+b`), which strict `new SemVer` accepts, read as `None` (a throw) here, because the ordering of pre-release versions is not modelled.
- The default parameters of `tryUrlMigration` and `constructUrl`, `new URL(window.location.origin).searchParams`, are not modelled; both take the parameters. Those of the page's origin never hold a query, so without parameters the URL reads as version 1.0.0 and what is written is dropped.
- The language of `src/lib/textParser.ts` is the module's constant "en". No setter exists, and none is modelled.

## Findings

| source | as written | input that shows it | evidently intended | confidence | as-written member | corrected member |
|---|---|---|---|---|---|---|
| src/settings/AnimationManager.ts:135 | the timing function is taken from `overrides.duration ?? animation.timing` | an animation with timing "ease-in" and an override with only the duration "500" set: the timing function becomes "500" | `overrides.timing ?? animation.timing` | not executed | AnimationSettings.DurationOverrideBecomesTiming | AnimationSettings.ApplyResolvesEachField |
| src/display/DisplayManager.ts:41-42 | after an item finishes, `processQueue()` recurses and the finished round then falls through to hide the container and clear `isAnimating` | push a, push b; a finishes: b starts in the recursive round, then the old round clears `isAnimating`, so push c starts c while b is still showing | return after the recursive call, so only a round that pops nothing hides the container | not executed | DisplayManagers.FallThroughShowsTwoAtOnce | DisplayManagers.CorrectedKeepsOneAtATime |
| src/lib/font.ts:39-48 | `constructUrlParams` uses `addToSearchParamIfMatch`, which writes a field only when it equals the base or is unset | a font family overridden from "Arial" to "Verdana" is not written, so the override is lost on the round trip; an unset family is written as "undefined" | write the fields that differ from the base | not executed | Font.ChangedFontIsLost | Font.CorrectedFontRoundTrip |
| src/alert.ts:20-30 | `running` is set to true and never reset | push a; a is shown and the queue drains; push b: `processQueue` returns at once, so b is never shown | reset `running` (and hide the container) once the queue is empty, as src/alert/alert.ts:32-33 does | not executed | LegacyAlertQueue.StalledForGood | AlertQueue.AllPushedAlertsAreShown |

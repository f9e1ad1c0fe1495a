# Ezan Saati Pro — verified model of the app's logic

This project models, in Dafny, the parts of the Ezan Saati Pro prayer-times
app that carry decisions of their own:

- **The Google Maps config plugin** (`plugins/withGoogleMaps.js`): how the iOS
  Podfile text is rewritten so that the Google Maps pods follow the first
  `use_expo_modules!` line, or are appended when that line is missing.
  Module `PodfilePatch` in `podfile_patch.dfy`.
- **The prayer store** (`store/prayerStore.ts`): the five store fields, the
  Qibla angle stored beside the location, and the `setLocation` / `fetchData`
  actions with their loading, success and failure states. Module
  `PrayerStore` in `prayer_store.dfy`.
- **Notifications** (`services/notifications.ts`): when the notification
  module is usable, the permission registration, the test notification, and
  the six daily prayer reminders scheduled from `"HH:MM (TZ)"` texts. Module
  `Notifications` in `notifications.dfy`.
- **The interstitial ad** (`components/AdInterstitial.tsx`): the choice of ad
  unit, the real-ad request and its events, and the mock ad's five-second
  countdown before it can be closed. Module `AdInterstitial` in
  `ad_interstitial.dfy`.

`wrappers.dfy` holds the `Option` type used for JavaScript's `null`, and
`platforms.dfy` the `Platform.OS` values shared by the notification and ad
modules.

Each piece keeps the form of its source. Pure text computations are
functions. Mutable state is a class whose methods say exactly what the new
state is. The store and the ad component also have pure transition functions
over a state value, and their invariants and multi-step properties are proved
as lemmas about those functions. Calls to the notification SDK, `alert` and
the console become an ordered log of events. What the SDK, the network or
the platform answers is an input. Examples are a permission status, a thrown
error or whether a module loads.

## Model

| member | source | states |
|---|---|---|
| `PodfilePatch.IndexOfFrom` | plugins/withGoogleMaps.js:17-18 | a found index is an occurrence of the pattern and no earlier index from the start point is one; `None` means no occurrence at all from there |
| `PodfilePatch.IndexOf` | plugins/withGoogleMaps.js:17-18 | the result exists iff the pattern occurs somewhere, and it is then the first occurrence |
| `PodfilePatch.Includes` | plugins/withGoogleMaps.js:17 | `includes` is true iff the pattern occurs at some index |
| `PodfilePatch.ReplaceFirst` | plugins/withGoogleMaps.js:18-21 | a string-pattern `replace` leaves the text unchanged when the pattern is absent and otherwise changes its length by the replacement minus the pattern |
| `PodfilePatch.ReplaceFirstAt` | plugins/withGoogleMaps.js:17-21 | when the first occurrence of the pattern is at `i`, `includes` is true and `replace` gives the text before `i`, then the replacement, then the text after the occurrence |
| `PodfilePatch.WithGoogleMaps` | plugins/withGoogleMaps.js:4-28 | the callback overwrites only `config.modResults.contents`, with the patched text, and returns the same config object |
| `PodfilePatch.PatchInsertsAfterFirstAnchor` | plugins/withGoogleMaps.js:17-21 | with the anchor present, the result is the text up to and including the first anchor, then the pods block, then the unchanged remainder |
| `PodfilePatch.PatchKeepsLaterAnchors` | plugins/withGoogleMaps.js:18-21 | every later anchor occurrence survives unchanged, shifted by the block length, so only the first gets the block |
| `PodfilePatch.PatchKeepsFirstAnchor` | plugins/withGoogleMaps.js:17-21 | after the patch the first anchor is still at the same index |
| `PodfilePatch.PatchAppendsWithoutAnchor` | plugins/withGoogleMaps.js:22-25 | without the anchor the block is appended, so the old contents are a prefix of the new |
| `PodfilePatch.PatchLength` | plugins/withGoogleMaps.js:11-25 | in both branches the length grows by exactly the length of the pods block |
| `PodfilePatch.PatchTwiceInsertsTwice` | plugins/withGoogleMaps.js:17-25 | there is no guard against an existing block: patching twice puts the block twice after the first anchor |
| `PodfilePatch.PatchIsNotIdempotent` | plugins/withGoogleMaps.js:17-25 | patching a patched Podfile always changes it again |
| `PrayerStore.ErrorText` | store/prayerStore.ts:68 | a present non-empty error message is kept, a missing or empty one becomes `Veri alınamadı`, so the stored error is never empty |
| `PrayerStore.SetLocationChangesOnlyLocation` | store/prayerStore.ts:49-51 | `setLocation` sets the location and the angle and leaves data, loading and error unchanged |
| `PrayerStore.MissingLocationOnlySetsError` | store/prayerStore.ts:57-61 | `fetchData` without a location sets only the fixed `Konum izni…` error |
| `PrayerStore.FetchOutcomes` | store/prayerStore.ts:63-69 | the first state is loading with no error; the service's answer always ends with loading false; success stores the data with no error; failure keeps the old data and stores the error text; location and angle never change |
| `PrayerStore.StepKeepsSettled` | store/prayerStore.ts:49-70 | each action keeps the angle equal to that of the stored location (0 before any), nothing loading, and no empty error |
| `PrayerStore.RunKeepsSettled` | store/prayerStore.ts:31-70 | any sequence of actions from a settled state, such as the initial one, leaves the store settled |
| `PrayerStore.RunLocation` | store/prayerStore.ts:49-70 | after any sequence of actions the location is the one given by the last `setLocation`, or the one before the sequence if there was none |
| `PrayerStore.Store.constructor` | store/prayerStore.ts:31-35 | the initial store has no data, no location, angle 0, not loading, no error, and is settled |
| `PrayerStore.Store.SetLocation` | store/prayerStore.ts:49-54 | one published state with the coordinates and `calculateQiblaAngle` of them, all else unchanged |
| `PrayerStore.Store.FetchData` | store/prayerStore.ts:56-70 | without a location: one published state with the fixed error and the service is not called; with one: the service is called with that latitude and longitude, and two states are published, loading first and then the outcome |
| `Notifications.AvailabilityLog` | services/notifications.ts:9-21 | `getNotifications` warns exactly when it gives `null` |
| `Notifications.AvailableIff` | services/notifications.ts:9-21 | the module is unusable on Android under Expo Go whatever the load would do; elsewhere it is usable iff loading it succeeds |
| `Notifications.RegisterForPushNotifications` | services/notifications.ts:42-79 | false when the module is unavailable and true on a non-device; on a device, true iff the existing status is granted or, when it is not, the requested one is; a thrown query or request gives false; permission is requested only when not already granted; the Android channel is attempted whenever the module is usable and its failure does not change the result; the denial alert appears iff neither status is granted |
| `Notifications.ScheduleTestNotification` | services/notifications.ts:81-101 | unavailable: a warning and the unsupported alert; otherwise one immediate notification with the fixed title and body, followed by an error and an alert iff the SDK throws; nothing is cancelled |
| `Notifications.Split` | services/notifications.ts:120-121 | `split` on one character always gives at least one piece |
| `Notifications.SplitPartsLackSeparator` | services/notifications.ts:120-121 | no piece of a split holds the separator |
| `Notifications.JoinSplit` | services/notifications.ts:120-121 | joining the pieces with the separator gives back the text |
| `Notifications.SplitAtFirst` | services/notifications.ts:120-121 | the first piece is the text before the first separator and the rest is the split of what follows it |
| `Notifications.SplitWithoutSeparator` | services/notifications.ts:121 | a text without the separator splits into itself alone |
| `Notifications.ClockTextIsPrefixBeforeSpace` | services/notifications.ts:120 | the clock text is a prefix of the time with no space in it, ending at the first space or at the end |
| `Notifications.ClockTextOfClock` | services/notifications.ts:120 | for `HH:MM` followed by a space and anything, the clock text is `HH:MM` |
| `Notifications.HourMinuteOfClock` | services/notifications.ts:121 | `HH:MM` gives the hour and the minute as the decimal values of the two digit groups |
| `Notifications.ParsesExample` | services/notifications.ts:120-126 | `"05:12 (+03)"` gives the clock text `"05:12"`, hour 5 and minute 12 |
| `Notifications.ReminderOfClock` | services/notifications.ts:120-134 | for a time `HH:MM` followed by a space and anything, the reminder is a DAILY notification titled with the prayer's Turkish name, with `HH:MM` in the body and the decimal values of the two digit groups as hour and minute |
| `Notifications.ScheduleDailyPrayers` | services/notifications.ts:103-139 | the calls made are exactly those of the reference log: the warning only when unavailable; otherwise cancel-all, then per prayer in order either its reminder or the error that ends the loop |
| `Notifications.ScheduleReminders` | services/notifications.ts:119-138 | the loop makes exactly the calls of the reference log from the first prayer on |
| `Notifications.StopIndex` | services/notifications.ts:119-138 | the loop stops at the first prayer whose key is missing or whose schedule call throws, or after the sixth; every prayer before the stop has its key and a call that does not throw |
| `Notifications.RemindersFromStops` | services/notifications.ts:110-138 | the calls of the loop are the reminders of the prayers before the stop index in the fixed order, then at the stop the error alone for a missing key or the call and the error for a throwing call, and nothing after it |
| `Notifications.ScheduledHasNoError` | services/notifications.ts:123-134 | the reminders before the stop are schedule calls, never errors |
| `Notifications.ScheduleDailyEarlyExits` | services/notifications.ts:104-137 | nothing but the warning when the module is unavailable; a throwing cancel-all gives the cancel-all and the error and nothing else |
| `Notifications.ScheduleDailyStops` | services/notifications.ts:103-139 | otherwise the log is cancel-all, the reminders before the stop index, then the stop; no reminder is an error; an error is logged iff the loop stopped before the sixth prayer, and it is then the last call |
| `Notifications.ScheduleDailyAllSix` | services/notifications.ts:107-135 | with all six keys present and no SDK failure the log is cancel-all followed by the reminders of Fajr, Sunrise, Dhuhr, Asr, Maghrib and Isha in that order, each built from its own time |
| `AdInterstitial.AdUnitIdChoice` | components/AdInterstitial.tsx:17-31 | the test ID is used iff in development, outside Expo Go and with the SDK loaded; otherwise the platform's production ID, none on other platforms |
| `AdInterstitial.InitialMockInv` | components/AdInterstitial.tsx:40-42 | the initial state (hidden, not closable, countdown 5) satisfies the mock invariant |
| `AdInterstitial.SetMockVisibleKeepsInv` | components/AdInterstitial.tsx:88-91 | showing a hidden mock resets it to not closable, countdown 5, timer running; setting the flag keeps the invariant |
| `AdInterstitial.TickKeepsInv` | components/AdInterstitial.tsx:93-102 | a tick above 1 decrements by exactly 1 and stays unclosable; a tick at 1 or below gives 0, closable, timer stopped; the invariant (countdown in [0, 5], closable only at 0, timer only while shown and unclosable) is kept |
| `AdInterstitial.TicksFromReset` | components/AdInterstitial.tsx:89-102 | from a fresh reset the countdown after n < 5 ticks is 5 − n and the ad becomes closable on exactly the fifth tick, after which ticks change nothing |
| `AdInterstitial.RenderShowsCloseOnlyWhenClosable` | components/AdInterstitial.tsx:108-123 | nothing is rendered iff the mock is hidden; the close button is shown iff the ad can be closed, the countdown otherwise |
| `AdInterstitial.Interstitial.constructor` | components/AdInterstitial.tsx:38-84 | the first render runs the visibility effect once: hidden stays hidden, shown without the SDK opens the mock, shown with the SDK requests one real ad |
| `AdInterstitial.Interstitial.SetMock` | components/AdInterstitial.tsx:88-106 | `setMockVisible` and the effect on `mockVisible`: a change shows and resets, or hides and stops the timer; no change does nothing |
| `AdInterstitial.Interstitial.VisibilityEffect` | components/AdInterstitial.tsx:45-84 | `visible = false` hides the mock; `visible = true` under Expo Go or without the SDK shows the mock and requests no ad; otherwise one real ad is requested for the chosen unit and listeners are subscribed |
| `AdInterstitial.Interstitial.SetVisible` | components/AdInterstitial.tsx:45-84 | the visibility effect runs only when the prop changes: an unchanged prop leaves the mock, the requests and the listeners as they were; a change hides the mock, shows it without the SDK, or requests one real ad and subscribes with the mock untouched; `onClose` and the shown real ad are never affected |
| `AdInterstitial.Interstitial.OnAdEvent` | components/AdInterstitial.tsx:62-75 | with listeners subscribed, LOADED shows the ad, CLOSED calls `onClose` once, ERROR shows the mock, and each touches nothing else; without listeners nothing changes |
| `AdInterstitial.Interstitial.OnTick` | components/AdInterstitial.tsx:93-102 | a firing of the interval is one tick of the countdown and keeps the invariant |
| `AdInterstitial.Interstitial.PressClose` | components/AdInterstitial.tsx:115-118 | pressing close calls `onClose` only when the mock is shown and closable |

## Left out

- The trigonometry of `calculateQiblaAngle` (store/prayerStore.ts:37-47) uses floating-point `atan2`, `sin`, `cos` and `tan`, so it is not modelled. The store takes it as a fixed total function from coordinates to integers. That keeps the two facts the store relies on: the result is deterministic and an integer.
- Persistence of the store through zustand `persist` and AsyncStorage (store/prayerStore.ts:29, 72-76) is I/O. A rehydrated state is not modelled, so `Settled` is proved only for states reached by the actions.
- `PrayerStore.Store.FetchData` runs as one step. The other actions that JavaScript could run while the request is pending are not interleaved. The intermediate loading state is still recorded in `published`.
- The prayer-times HTTP client is I/O, so services/api.ts is not part of this model. Its answer to one request is the input `FetchOutcome`.
- The notification handler registered when the module loads (services/notifications.ts:23-40) is SDK configuration with constant options. It is not modelled.
- `Notifications.NumberOf` models `Number(...)` only for digit strings, where the empty string gives 0. Every other text gives NaN. JavaScript also trims whitespace and accepts signs, decimals, exponents and hex, but the clock texts of the prayer-times service are digit groups.
- What the notification SDK does with a NaN or undefined hour or minute is not modelled. Whether any SDK call throws is the input `failingCall`.
- The text of console warnings and errors is not modelled. They are logged as `ConsoleWarn` / `ConsoleError` events.
- React rendering details, modal styling and the unsubscribe on unmount are not modelled. Neither is the real one-second timing of `setInterval`. A firing of the interval is the `OnTick` method, which the timer calls while it is running.
- `PodfilePatch.ReplaceFirst` treats the replacement literally. JavaScript's `$` patterns cannot occur because the replacement text contains no `$`.
- components/AdBanner.tsx, store/settingsStore.ts and constants/mapStyles.ts are not part of this model. They hold render-only selection, one persisted setter and constant data.
- The next-prayer selector and its `HH:MM:SS` formatter (app/(tabs)/index.tsx:101-143) belong to the home screen component, outside the four files modelled here, and are not modelled.
- AdInterstitial.Interstitial.SetMock: runs `setMockVisible(v)` and the effect that depends on `mockVisible` (components/AdInterstitial.tsx:88-106) as one step. In React the reset to "not closable, countdown 5" happens in a passive effect after a commit that already shows the mock. A mock hidden after a finished countdown and shown again therefore renders once with the previous `canClose = true` and `countdown = 0`, so its close button is live for that commit. The model never reaches that intermediate render.

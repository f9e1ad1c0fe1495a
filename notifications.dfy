/**
 * Notification helpers (services/notifications.ts): whether the
 * expo-notifications module can be used, the permission registration, the
 * test notification and the daily prayer reminders.
 *
 * The notification SDK, `alert` and the console are modelled as one log of
 * the calls the code makes, in order. What the SDK answers (a permission
 * status, or a thrown error) is an input.
 */
module Notifications {
  import opened Wrappers
  import opened Platforms


  /** The facts the module reads from its surroundings. */
  datatype Env = Env(platform: Platform, isExpoGo: bool, moduleLoads: bool, isDevice: bool)

  /** A permission status as expo-notifications reports it. */
  datatype PermissionStatus = Granted | Denied | Undetermined

  /** The answer of one asynchronous SDK call: a value, or a thrown error. */
  datatype Answer<T> = Returns(value: T) | Throws

  /** A JavaScript value produced by `Number(...)` or by destructuring past the
      end of an array. */
  datatype JsNumber = Num(n: nat) | NaN | Undefined

  /** The `trigger` of a scheduled notification: `null` (deliver now) or a
      DAILY trigger with the given hour and minute. */
  datatype Trigger = Immediate | Daily(hour: JsNumber, minute: JsNumber)

  /** One call the code makes to the SDK, to `alert` or to the console. */
  datatype Event =
    | SetNotificationChannel
    | GetPermissions
    | RequestPermissions
    | CancelAllScheduled
    | Schedule(title: string, body: string, trigger: Trigger)
    | Alert(text: string)
    | ConsoleWarn
    | ConsoleError

  /** The prayers a reminder is set for. */
  datatype Prayer = Fajr | Sunrise | Dhuhr | Asr | Maghrib | Isha

  /** The six reminders, in the order they are scheduled. */
  const Prayers: seq<Prayer> := [Fajr, Sunrise, Dhuhr, Asr, Maghrib, Isha]

  /** The key of the prayer in the timings record. */
  function Key(p: Prayer): string
  {
    match p
    case Fajr => "Fajr"
    case Sunrise => "Sunrise"
    case Dhuhr => "Dhuhr"
    case Asr => "Asr"
    case Maghrib => "Maghrib"
    case Isha => "Isha"
  }

  /** The notification title of the prayer's reminder. */
  function Title(p: Prayer): string
  {
    match p
    case Fajr => "İmsak Vakti"
    case Sunrise => "Güneş Doğdu"
    case Dhuhr => "Öğle Ezanı"
    case Asr => "İkindi Ezanı"
    case Maghrib => "Akşam Ezanı"
    case Isha => "Yatsı Ezanı"
  }

  const PermissionDeniedAlert: string := "Bildirim izni verilmedi!"
  const UnsupportedAlert: string := "Bildirimler bu cihazda/ortamda (Android Expo Go) desteklenmiyor."
  const TestFailedAlert: string := "Bildirim gönderilemedi. Expo Go kısıtlaması olabilir."
  const TestTitle: string := "Ezan Vakti Test \U{1F4E2}"
  const TestBody: string := "Bu bir test bildirimidir. Ezan okunuyor..."

  /** The body of a prayer reminder for the given clock text. */
  function ReminderBody(timeText: string): string
  {
    "Ezan vakti geldi: " + timeText + " \U{1F54C}"
  }

  // ---------------------------------------------------------------------
  // getNotifications

  /** `getNotifications() !== null`: the module is refused on Android under
      Expo Go, and is otherwise usable exactly when loading it succeeds. */
  function Available(env: Env): bool
  {
    if env.platform == Android && env.isExpoGo then false else env.moduleLoads
  }

  /** What `getNotifications` logs: one warning on either path that gives
      `null`, nothing otherwise. */
  function AvailabilityLog(env: Env): (log: seq<Event>)
    ensures log == [] <==> Available(env)
  {
    if Available(env) then [] else [ConsoleWarn]
  }

  lemma AvailableIff(env: Env)
    ensures env.platform == Android && env.isExpoGo ==> !Available(env)
    ensures !(env.platform == Android && env.isExpoGo) ==> (Available(env) <==> env.moduleLoads)
  {
  }

  // ---------------------------------------------------------------------
  // registerForPushNotificationsAsync

  /** When `registerForPushNotificationsAsync` reports success. */
  predicate RegistrationSucceeds(env: Env, existing: Answer<PermissionStatus>,
                                 requested: Answer<PermissionStatus>)
  {
    Available(env) &&
    (!env.isDevice
     || existing == Returns(Granted)
     || (existing.Returns? && requested == Returns(Granted)))
  }

  /** `registerForPushNotificationsAsync`. `channelThrows` says whether
      creating the Android channel throws; `existing` and `requested` are the
      SDK's answers to the permission query and the permission request. */
  method RegisterForPushNotifications(env: Env, channelThrows: bool,
                                      existing: Answer<PermissionStatus>,
                                      requested: Answer<PermissionStatus>)
    returns (ok: bool, log: seq<Event>)
    ensures ok <==> RegistrationSucceeds(env, existing, requested)
    ensures !Available(env) ==> log == [ConsoleWarn]
    ensures (SetNotificationChannel in log) <==> Available(env) && env.platform == Android
    ensures (GetPermissions in log) <==> Available(env) && env.isDevice
    ensures (RequestPermissions in log)
        <==> Available(env) && env.isDevice && existing.Returns? && existing.value != Granted
    ensures (Alert(PermissionDeniedAlert) in log)
        <==> Available(env) && env.isDevice && existing.Returns? && existing.value != Granted
             && requested.Returns? && requested.value != Granted
  {
    log := AvailabilityLog(env);
    if !Available(env) {
      return false, log;
    }
    if env.platform == Android {
      log := log + [SetNotificationChannel];
      if channelThrows {
        log := log + [ConsoleWarn];
      }
    }
    if env.isDevice {
      log := log + [GetPermissions];
      if existing.Throws? {
        log := log + [ConsoleWarn];
        return false, log;
      }
      var finalStatus := existing.value;
      if existing.value != Granted {
        log := log + [RequestPermissions];
        if requested.Throws? {
          log := log + [ConsoleWarn];
          return false, log;
        }
        finalStatus := requested.value;
      }
      if finalStatus != Granted {
        log := log + [Alert(PermissionDeniedAlert)];
        return false, log;
      }
      return true, log;
    }
    return true, log;
  }

  // ---------------------------------------------------------------------
  // scheduleTestNotification

  /** `scheduleTestNotification`; `fails` says whether the SDK throws. */
  method ScheduleTestNotification(env: Env, fails: bool) returns (log: seq<Event>)
    ensures !Available(env) ==> log == [ConsoleWarn, Alert(UnsupportedAlert)]
    ensures Available(env) ==> |log| >= 1 && log[0] == Schedule(TestTitle, TestBody, Immediate)
    ensures Available(env) ==> (|log| == 1 <==> !fails)
    ensures Available(env) && fails ==> log[1..] == [ConsoleError, Alert(TestFailedAlert)]
    ensures CancelAllScheduled !in log
  {
    log := AvailabilityLog(env);
    if !Available(env) {
      log := log + [Alert(UnsupportedAlert)];
      return;
    }
    log := log + [Schedule(TestTitle, TestBody, Immediate)];
    if fails {
      log := log + [ConsoleError, Alert(TestFailedAlert)];
    }
  }

  // ---------------------------------------------------------------------
  // Parsing "HH:MM (TZ)"

  /** `s.split(sep)` for a one-character separator: the pieces between the
      separators, at least one, none holding the separator. */
  function Split(s: string, sep: char): (parts: seq<string>)
    ensures |parts| >= 1
    decreases |s|
  {
    if s == [] then [""]
    else if s[0] == sep then [""] + Split(s[1..], sep)
    else
      var rest := Split(s[1..], sep);
      [[s[0]] + rest[0]] + rest[1..]
  }

  /** No piece holds the separator. */
  lemma {:induction false} SplitPartsLackSeparator(s: string, sep: char)
    ensures forall k :: 0 <= k < |Split(s, sep)| ==> sep !in Split(s, sep)[k]
    decreases |s|
  {
    if s != [] {
      SplitPartsLackSeparator(s[1..], sep);
    }
  }

  /** `parts.join(sep)`. */
  function Join(parts: seq<string>, sep: char): string
    requires |parts| >= 1
    decreases |parts|
  {
    if |parts| == 1 then parts[0] else parts[0] + [sep] + Join(parts[1..], sep)
  }

  /** Joining the pieces back with the separator restores the text. */
  lemma {:induction false} JoinSplit(s: string, sep: char)
    ensures Join(Split(s, sep), sep) == s
    decreases |s|
  {
    if s != [] {
      JoinSplit(s[1..], sep);
      var rest := Split(s[1..], sep);
      if s[0] == sep {
        assert Split(s, sep)[1..] == rest;
      } else if |rest| == 1 {
        assert Join(Split(s, sep), sep) == [s[0]] + rest[0];
      } else {
        assert Split(s, sep)[1..] == rest[1..];
        assert Join(Split(s, sep), sep) == [s[0]] + rest[0] + [sep] + Join(rest[1..], sep);
      }
    }
  }

  /** Splitting at the first separator: a piece free of the separator, then
      the pieces of the rest. */
  lemma {:induction false} SplitAtFirst(a: string, b: string, sep: char)
    requires sep !in a
    ensures Split(a + [sep] + b, sep) == [a] + Split(b, sep)
    decreases |a|
  {
    if a == [] {
      assert a + [sep] + b == [sep] + b;
      assert ([sep] + b)[1..] == b;
    } else {
      assert (a + [sep] + b)[1..] == a[1..] + [sep] + b;
      SplitAtFirst(a[1..], b, sep);
      assert [a[0]] + a[1..] == a;
    }
  }

  /** A text without the separator is a single piece. */
  lemma {:induction false} SplitWithoutSeparator(a: string, sep: char)
    requires sep !in a
    ensures Split(a, sep) == [a]
    decreases |a|
  {
    if a != [] {
      SplitWithoutSeparator(a[1..], sep);
      assert [a[0]] + a[1..] == a;
    }
  }

  /** `timings[key].split(' ')[0]`: the text before the first space. */
  function ClockText(time: string): string
  {
    Split(time, ' ')[0]
  }

  /** The clock text is the longest space-free prefix of the time. */
  lemma {:induction false} ClockTextIsPrefixBeforeSpace(time: string)
    ensures ClockText(time) <= time
    ensures ' ' !in ClockText(time)
    ensures ClockText(time) == time || time[|ClockText(time)|] == ' '
    decreases |time|
  {
    if time != [] && time[0] != ' ' {
      ClockTextIsPrefixBeforeSpace(time[1..]);
    }
  }

  predicate IsDigit(c: char)
  {
    '0' <= c <= '9'
  }

  /** The value of a decimal digit string, most significant digit first. */
  function DigitsValue(s: string): nat
    requires forall k :: 0 <= k < |s| ==> IsDigit(s[k])
    decreases |s|
  {
    if s == [] then 0
    else
      assert IsDigit(s[|s| - 1]);
      DigitsValue(s[..|s| - 1]) * 10 + (s[|s| - 1] as int - '0' as int)
  }

  /** JavaScript's `Number(s)` on the texts a clock can hold: a digit string
      (the empty text included, which gives 0) is its decimal value; any
      other text is NaN. */
  function NumberOf(s: string): JsNumber
  {
    if forall k :: 0 <= k < |s| ==> IsDigit(s[k]) then Num(DigitsValue(s)) else NaN
  }

  /** `const [hour, minute] = timeStr.split(':').map(Number)`. */
  function HourMinute(timeText: string): (JsNumber, JsNumber)
  {
    var parts := Split(timeText, ':');
    (NumberOf(parts[0]), if |parts| >= 2 then NumberOf(parts[1]) else Undefined)
  }

  /** A digit string holds neither a space nor a colon. */
  lemma DigitsHaveNoSeparator(s: string)
    requires forall k :: 0 <= k < |s| ==> IsDigit(s[k])
    ensures ' ' !in s && ':' !in s
  {
    forall k | 0 <= k < |s| ensures s[k] != ' ' && s[k] != ':' {
      assert IsDigit(s[k]);
    }
  }

  /** For "HH:MM" followed by a space and anything, the clock text is
      "HH:MM". */
  lemma ClockTextOfClock(hh: string, mm: string, rest: string)
    requires forall k :: 0 <= k < |hh| ==> IsDigit(hh[k])
    requires forall k :: 0 <= k < |mm| ==> IsDigit(mm[k])
    ensures ClockText(hh + ":" + mm + " " + rest) == hh + ":" + mm
  {
    var clock := hh + ":" + mm;
    DigitsHaveNoSeparator(hh);
    DigitsHaveNoSeparator(mm);
    assert ' ' !in clock by {
      assert clock == hh + [':'] + mm;
    }
    SplitAtFirst(clock, rest, ' ');
    assert hh + ":" + mm + " " + rest == clock + [' '] + rest;
  }

  /** "HH:MM" gives the two numbers. */
  lemma HourMinuteOfClock(hh: string, mm: string)
    requires forall k :: 0 <= k < |hh| ==> IsDigit(hh[k])
    requires forall k :: 0 <= k < |mm| ==> IsDigit(mm[k])
    ensures HourMinute(hh + ":" + mm) == (Num(DigitsValue(hh)), Num(DigitsValue(mm)))
  {
    DigitsHaveNoSeparator(hh);
    DigitsHaveNoSeparator(mm);
    SplitAtFirst(hh, mm, ':');
    SplitWithoutSeparator(mm, ':');
    assert hh + ":" + mm == hh + [':'] + mm;
  }

  /** "05:12 (+03)" gives hour 5, minute 12 and the body text "05:12". */
  lemma ParsesExample()
    ensures ClockText("05:12 (+03)") == "05:12"
    ensures HourMinute(ClockText("05:12 (+03)")) == (Num(5), Num(12))
  {
    ClockTextOfClock("05", "12", "(+03)");
    HourMinuteOfClock("05", "12");
    assert "05" + ":" + "12" + " " + "(+03)" == "05:12 (+03)";
    assert DigitsValue("05") == 5 by { assert "05"[..1] == "0"; assert "0"[..0] == ""; }
    assert DigitsValue("12") == 12 by { assert "12"[..1] == "1"; assert "1"[..0] == ""; }
  }

  // ---------------------------------------------------------------------
  // scheduleDailyPrayers

  /** The call that schedules the reminder for prayer `p` at `time`. */
  function Reminder(p: Prayer, time: string): (call: Event)
    ensures call.Schedule? && call.title == Title(p)
  {
    var timeText := ClockText(time);
    var (hour, minute) := HourMinute(timeText);
    Schedule(Title(p), ReminderBody(timeText), Daily(hour, minute))
  }

  /** For a time `HH:MM` followed by a space and anything, the reminder is a
      DAILY notification at that hour and minute, titled with the prayer's
      name and showing `HH:MM` in its body. */
  lemma ReminderOfClock(p: Prayer, hh: string, mm: string, rest: string)
    requires forall k :: 0 <= k < |hh| ==> IsDigit(hh[k])
    requires forall k :: 0 <= k < |mm| ==> IsDigit(mm[k])
    ensures Reminder(p, hh + ":" + mm + " " + rest)
         == Schedule(Title(p), ReminderBody(hh + ":" + mm), Daily(Num(DigitsValue(hh)), Num(DigitsValue(mm))))
  {
    ClockTextOfClock(hh, mm, rest);
    HourMinuteOfClock(hh, mm);
  }

  /** The calls made for the prayers from index `i` on, where `reminder`
      builds the call for one prayer and its time. A missing key throws
      before its call; `failingCall == Some(k)` makes the k-th schedule call
      (counting from 1) throw after it was made. Either error ends the loop
      and is logged. */
  function RemindersFrom(reminder: (Prayer, string) -> Event, timings: map<string, string>,
                         failingCall: Option<nat>, i: nat): seq<Event>
    requires i <= |Prayers|
    decreases |Prayers| - i
  {
    if i == |Prayers| then []
    else if Key(Prayers[i]) !in timings then [ConsoleError]
    else
      var call := reminder(Prayers[i], timings[Key(Prayers[i])]);
      if failingCall == Some(i + 1) then [call, ConsoleError]
      else [call] + RemindersFrom(reminder, timings, failingCall, i + 1)
  }

  /** Every call `scheduleDailyPrayers` makes, in order; `failingCall ==
      Some(0)` makes the cancel-all throw. */
  function ScheduleDailyLog(env: Env, timings: map<string, string>, failingCall: Option<nat>): seq<Event>
  {
    if !Available(env) then AvailabilityLog(env)
    else if failingCall == Some(0) then [CancelAllScheduled, ConsoleError]
    else [CancelAllScheduled] + RemindersFrom(Reminder, timings, failingCall, 0)
  }

  /** `scheduleDailyPrayers`: cancel everything, then schedule one daily
      reminder per prayer, in order, until an error ends the loop. */
  method ScheduleDailyPrayers(env: Env, timings: map<string, string>, failingCall: Option<nat>)
    returns (log: seq<Event>)
    ensures log == ScheduleDailyLog(env, timings, failingCall)
  {
    if !Available(env) {
      log := AvailabilityLog(env);
      return;
    }
    log := [CancelAllScheduled];
    if failingCall == Some(0) {
      log := log + [ConsoleError];
      return;
    }
    var calls := ScheduleReminders(Reminder, timings, failingCall);
    log := log + calls;
  }

  /** The loop of `scheduleDailyPrayers`, after the cancel-all; `reminder`
      builds the call for one prayer and its time. */
  method ScheduleReminders(reminder: (Prayer, string) -> Event, timings: map<string, string>,
                           failingCall: Option<nat>)
    returns (calls: seq<Event>)
    ensures calls == RemindersFrom(reminder, timings, failingCall, 0)
  {
    calls := [];
    var i := 0;
    while i < |Prayers|
      invariant 0 <= i <= |Prayers|
      invariant calls + RemindersFrom(reminder, timings, failingCall, i)
             == RemindersFrom(reminder, timings, failingCall, 0)
    {
      var p := Prayers[i];
      RemindersFromExtend(reminder, timings, failingCall, i, calls);
      if Key(p) !in timings {
        calls := calls + [ConsoleError];
        return;
      }
      var call := reminder(p, timings[Key(p)]);
      if failingCall == Some(i + 1) {
        calls := calls + [call, ConsoleError];
        return;
      }
      calls := calls + [call];
      i := i + 1;
    }
  }

  /** One turn of the loop, as seen from the calls made so far: the error
      alone when the key is missing, the call and the error when it throws,
      the call and the rest of the loop otherwise. */
  lemma RemindersFromExtend(reminder: (Prayer, string) -> Event, timings: map<string, string>,
                            failingCall: Option<nat>, i: nat, calls: seq<Event>)
    requires i < |Prayers|
    requires calls + RemindersFrom(reminder, timings, failingCall, i)
          == RemindersFrom(reminder, timings, failingCall, 0)
    ensures Key(Prayers[i]) !in timings ==>
      calls + [ConsoleError] == RemindersFrom(reminder, timings, failingCall, 0)
    ensures Key(Prayers[i]) in timings && failingCall == Some(i + 1) ==>
      calls + [reminder(Prayers[i], timings[Key(Prayers[i])]), ConsoleError]
        == RemindersFrom(reminder, timings, failingCall, 0)
    ensures Key(Prayers[i]) in timings && failingCall != Some(i + 1) ==>
      (calls + [reminder(Prayers[i], timings[Key(Prayers[i])])]) + RemindersFrom(reminder, timings, failingCall, i + 1)
        == RemindersFrom(reminder, timings, failingCall, 0)
  {
    var rest := RemindersFrom(reminder, timings, failingCall, i);
    if Key(Prayers[i]) in timings && failingCall != Some(i + 1) {
      var call := reminder(Prayers[i], timings[Key(Prayers[i])]);
      RemindersFromStep(reminder, timings, failingCall, i);
      assert calls + rest == (calls + [call]) + RemindersFrom(reminder, timings, failingCall, i + 1);
    }
  }

  /** One step of the loop: a present key and a call that does not throw. */
  lemma RemindersFromStep(reminder: (Prayer, string) -> Event, timings: map<string, string>,
                          failingCall: Option<nat>, i: nat)
    requires i < |Prayers| && Key(Prayers[i]) in timings && failingCall != Some(i + 1)
    ensures RemindersFrom(reminder, timings, failingCall, i)
         == [reminder(Prayers[i], timings[Key(Prayers[i])])] + RemindersFrom(reminder, timings, failingCall, i + 1)
  {
  }

  /** The index of the prayer at which the loop stops, looking from `i` on:
      the first whose key is missing or whose schedule call throws, or
      `|Prayers|` when there is none. */
  function StopIndex(timings: map<string, string>, failingCall: Option<nat>, i: nat): (stop: nat)
    requires i <= |Prayers|
    ensures i <= stop <= |Prayers|
    ensures forall j :: i <= j < stop ==> Key(Prayers[j]) in timings
    ensures failingCall.Some? ==> !(i < failingCall.value <= stop)
    ensures stop < |Prayers| ==> Key(Prayers[stop]) !in timings || failingCall == Some(stop + 1)
    decreases |Prayers| - i
  {
    if i == |Prayers| || Key(Prayers[i]) !in timings || failingCall == Some(i + 1) then i
    else StopIndex(timings, failingCall, i + 1)
  }

  /** The reminders of the prayers `i` to `n - 1`, in order. */
  function Scheduled(reminder: (Prayer, string) -> Event, timings: map<string, string>, i: nat, n: nat)
    : seq<Event>
    requires i <= n <= |Prayers|
    requires forall j :: i <= j < n ==> Key(Prayers[j]) in timings
    decreases n - i
  {
    if i == n then []
    else [reminder(Prayers[i], timings[Key(Prayers[i])])] + Scheduled(reminder, timings, i + 1, n)
  }

  /** What the loop logs at the prayer where it stops: the error alone when
      the key is missing, the call and then the error when the call throws,
      and nothing when every prayer was scheduled. */
  function StopTail(reminder: (Prayer, string) -> Event, timings: map<string, string>, stop: nat): seq<Event>
    requires stop <= |Prayers|
  {
    if stop == |Prayers| then []
    else if Key(Prayers[stop]) !in timings then [ConsoleError]
    else [reminder(Prayers[stop], timings[Key(Prayers[stop])]), ConsoleError]
  }

  /** The calls for the prayers from `i` on are the reminders up to the stop
      index, in the fixed order, followed by what happens at the stop. */
  lemma {:induction false} RemindersFromStops(reminder: (Prayer, string) -> Event,
                                              timings: map<string, string>,
                                              failingCall: Option<nat>, i: nat)
    requires i <= |Prayers|
    ensures var stop := StopIndex(timings, failingCall, i);
      RemindersFrom(reminder, timings, failingCall, i)
        == Scheduled(reminder, timings, i, stop) + StopTail(reminder, timings, stop)
    decreases |Prayers| - i
  {
    var stop := StopIndex(timings, failingCall, i);
    if i < stop {
      RemindersFromStops(reminder, timings, failingCall, i + 1);
      RemindersFromStep(reminder, timings, failingCall, i);
      ConsAppend(reminder(Prayers[i], timings[Key(Prayers[i])]), Scheduled(reminder, timings, i + 1, stop),
                 StopTail(reminder, timings, stop));
    } else {
      RemindersFromAtStop(reminder, timings, failingCall, i);
    }
  }

  /** At the stop index the loop logs exactly what happens there. */
  lemma RemindersFromAtStop(reminder: (Prayer, string) -> Event, timings: map<string, string>,
                            failingCall: Option<nat>, i: nat)
    requires i <= |Prayers| && StopIndex(timings, failingCall, i) == i
    ensures RemindersFrom(reminder, timings, failingCall, i) == StopTail(reminder, timings, i)
  {
  }

  lemma ConsAppend(x: Event, s: seq<Event>, t: seq<Event>)
    ensures [x] + (s + t) == ([x] + s) + t
  {
  }

  /** Reminders built by a `reminder` that only makes schedule calls are
      never errors. */
  lemma {:induction false} ScheduledHasNoError(reminder: (Prayer, string) -> Event,
                                               timings: map<string, string>, i: nat, n: nat)
    requires i <= n <= |Prayers|
    requires forall j :: i <= j < n ==> Key(Prayers[j]) in timings
    requires forall p: Prayer, t: string :: reminder(p, t).Schedule?
    ensures ConsoleError !in Scheduled(reminder, timings, i, n)
    decreases n - i
  {
    if i < n {
      ScheduledHasNoError(reminder, timings, i + 1, n);
    }
  }

  /** `scheduleDailyPrayers` logs only the warning when the module is
      unavailable, and the cancel-all and its error when the cancel-all
      throws. */
  lemma ScheduleDailyEarlyExits(env: Env, timings: map<string, string>, failingCall: Option<nat>)
    ensures !Available(env) ==> ScheduleDailyLog(env, timings, failingCall) == [ConsoleWarn]
    ensures Available(env) && failingCall == Some(0) ==>
      ScheduleDailyLog(env, timings, failingCall) == [CancelAllScheduled, ConsoleError]
  {
  }

  /** What `scheduleDailyPrayers` does, stated without its loop: the
      cancel-all, then the reminders of the prayers before the stop index in
      the fixed order, then the stop itself, which is the error and nothing
      after it, unless all six reminders were scheduled. */
  lemma ScheduleDailyStops(env: Env, timings: map<string, string>, failingCall: Option<nat>)
    requires Available(env) && failingCall != Some(0)
    ensures var stop := StopIndex(timings, failingCall, 0);
      var log := ScheduleDailyLog(env, timings, failingCall);
      && log == [CancelAllScheduled] + Scheduled(Reminder, timings, 0, stop) + StopTail(Reminder, timings, stop)
      && ConsoleError !in Scheduled(Reminder, timings, 0, stop)
      && (ConsoleError in log <==> stop < |Prayers|)
      && (stop < |Prayers| ==> log[|log| - 1] == ConsoleError)
  {
    var stop := StopIndex(timings, failingCall, 0);
    RemindersFromStops(Reminder, timings, failingCall, 0);
    ScheduledHasNoError(Reminder, timings, 0, stop);
    if stop < |Prayers| {
      var tail := StopTail(Reminder, timings, stop);
      assert tail[|tail| - 1] == ConsoleError;
    }
  }

  /** The six keys are the keys of the six prayers. */
  lemma AllKeysPresent(timings: map<string, string>)
    requires "Fajr" in timings && "Sunrise" in timings && "Dhuhr" in timings
    requires "Asr" in timings && "Maghrib" in timings && "Isha" in timings
    ensures forall j :: 0 <= j < |Prayers| ==> Key(Prayers[j]) in timings
  {
    forall j | 0 <= j < |Prayers| ensures Key(Prayers[j]) in timings {
      assert j == 0 || j == 1 || j == 2 || j == 3 || j == 4 || j == 5;
    }
  }

  /** With every key present and no SDK error the loop runs to the end. */
  lemma StopIndexWithoutError(timings: map<string, string>)
    requires forall j :: 0 <= j < |Prayers| ==> Key(Prayers[j]) in timings
    ensures StopIndex(timings, None, 0) == |Prayers|
  {
  }

  /** The reminders of all six prayers, one per position. */
  lemma ScheduledAllSix(reminder: (Prayer, string) -> Event, timings: map<string, string>)
    requires forall j :: 0 <= j < |Prayers| ==> Key(Prayers[j]) in timings
    ensures Scheduled(reminder, timings, 0, |Prayers|) == [
      reminder(Prayers[0], timings[Key(Prayers[0])]),
      reminder(Prayers[1], timings[Key(Prayers[1])]),
      reminder(Prayers[2], timings[Key(Prayers[2])]),
      reminder(Prayers[3], timings[Key(Prayers[3])]),
      reminder(Prayers[4], timings[Key(Prayers[4])]),
      reminder(Prayers[5], timings[Key(Prayers[5])])
    ]
  {
    var r, t := reminder, timings;
    assert Scheduled(r, t, 5, 6) == [r(Prayers[5], t[Key(Prayers[5])])];
    assert Scheduled(r, t, 4, 6) == [r(Prayers[4], t[Key(Prayers[4])])] + Scheduled(r, t, 5, 6);
    assert Scheduled(r, t, 3, 6) == [r(Prayers[3], t[Key(Prayers[3])])] + Scheduled(r, t, 4, 6);
    assert Scheduled(r, t, 2, 6) == [r(Prayers[2], t[Key(Prayers[2])])] + Scheduled(r, t, 3, 6);
    assert Scheduled(r, t, 1, 6) == [r(Prayers[1], t[Key(Prayers[1])])] + Scheduled(r, t, 2, 6);
  }

  /** The prayers and their keys, by position. */
  lemma PrayersInOrder()
    ensures Prayers[0] == Fajr && Key(Fajr) == "Fajr"
    ensures Prayers[1] == Sunrise && Key(Sunrise) == "Sunrise"
    ensures Prayers[2] == Dhuhr && Key(Dhuhr) == "Dhuhr"
    ensures Prayers[3] == Asr && Key(Asr) == "Asr"
    ensures Prayers[4] == Maghrib && Key(Maghrib) == "Maghrib"
    ensures Prayers[5] == Isha && Key(Isha) == "Isha"
  {
  }

  /** With every key present and no SDK error, the log is the cancel-all
      followed by the six reminders in the fixed order. */
  lemma ScheduleDailyAllSix(env: Env, timings: map<string, string>)
    requires Available(env)
    requires "Fajr" in timings && "Sunrise" in timings && "Dhuhr" in timings
    requires "Asr" in timings && "Maghrib" in timings && "Isha" in timings
    ensures ScheduleDailyLog(env, timings, None) == [
      CancelAllScheduled,
      Reminder(Fajr, timings["Fajr"]),
      Reminder(Sunrise, timings["Sunrise"]),
      Reminder(Dhuhr, timings["Dhuhr"]),
      Reminder(Asr, timings["Asr"]),
      Reminder(Maghrib, timings["Maghrib"]),
      Reminder(Isha, timings["Isha"])
    ]
  {
    AllKeysPresent(timings);
    StopIndexWithoutError(timings);
    RemindersFromStops(Reminder, timings, None, 0);
    ScheduledAllSix(Reminder, timings);
    PrayersInOrder();
  }
}

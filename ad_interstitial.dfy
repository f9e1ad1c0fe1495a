/**
 * The interstitial ad component (components/AdInterstitial.tsx). Outside
 * Expo Go, and when the AdMob SDK loads, showing the component requests a
 * real ad; otherwise, or when the real ad reports an error, a mock ad is
 * shown whose close button appears after a five-second countdown.
 *
 * React's state hooks become fields of a class, each effect a method that
 * runs when its dependency changes, and the one-second interval a `Tick`
 * method that the timer calls while it is running. The AdMob SDK is reduced
 * to the requests made to it and the events it reports.
 */
module AdInterstitial {
  import opened Wrappers
  import opened Platforms

  const InterstitialIdIos: string := "ca-app-pub-7272302945895997/8901229319"
  const InterstitialIdAndroid: string := "ca-app-pub-7272302945895997/2695091223"

  /** The countdown the mock ad starts from, in seconds. */
  const CountdownStart: int := 5

  /** What the module reads when it loads: `__DEV__`, whether it runs in Expo
      Go, whether `require('react-native-google-mobile-ads')` succeeds, the
      platform, and the SDK's test interstitial ID. */
  datatype AdEnv = AdEnv(isDev: bool, isExpoGo: bool, sdkLoads: bool, platform: Platform,
                         testInterstitialId: string)

  /** The SDK is only required outside Expo Go, and may fail to load. */
  predicate SdkLoaded(env: AdEnv)
  {
    !env.isExpoGo && env.sdkLoads
  }

  /** `Platform.select({ ios, android })`: undefined on other platforms. */
  function ProductionId(platform: Platform): Option<string>
  {
    match platform
    case IOS => Some(InterstitialIdIos)
    case Android => Some(InterstitialIdAndroid)
    case Web => None
  }

  /** The ad unit the real ad is requested for. */
  function AdUnitId(env: AdEnv): Option<string>
  {
    if env.isDev && !env.isExpoGo && SdkLoaded(env) then Some(env.testInterstitialId)
    else ProductionId(env.platform)
  }

  /** The test ID is used exactly in development builds outside Expo Go whose
      SDK loaded; every other build uses the platform's production ID. */
  lemma AdUnitIdChoice(env: AdEnv)
    ensures env.isDev && !env.isExpoGo && env.sdkLoads ==> AdUnitId(env) == Some(env.testInterstitialId)
    ensures !(env.isDev && !env.isExpoGo && env.sdkLoads) ==>
      AdUnitId(env) == ProductionId(env.platform)
    ensures env.platform == IOS && !(env.isDev && SdkLoaded(env)) ==> AdUnitId(env) == Some(InterstitialIdIos)
    ensures env.platform == Android && !(env.isDev && SdkLoaded(env)) ==> AdUnitId(env) == Some(InterstitialIdAndroid)
  {
  }

  /** The mock ad's state: the three state hooks and whether the interval is
      running. */
  datatype Mock = Mock(mockVisible: bool, canClose: bool, countdown: int, timerRunning: bool)

  const InitialMock: Mock := Mock(false, false, CountdownStart, false)

  /** `setMockVisible(v)` together with the effect that depends on
      `mockVisible`: the effect (and the cleanup of its previous run) only
      runs when the value changes. Hiding stops the timer; showing resets the
      countdown and starts it. */
  function SetMockVisible(m: Mock, v: bool): Mock
  {
    if v == m.mockVisible then m
    else if v then Mock(true, false, CountdownStart, true)
    else m.(mockVisible := false, timerRunning := false)
  }

  /** One firing of the interval, if it is running. */
  function Tick(m: Mock): Mock
  {
    if !m.timerRunning then m
    else if m.countdown <= 1 then m.(countdown := 0, canClose := true, timerRunning := false)
    else m.(countdown := m.countdown - 1)
  }

  /** `n` firings of the interval. */
  function Ticks(m: Mock, n: nat): Mock
    decreases n
  {
    if n == 0 then m else Ticks(Tick(m), n - 1)
  }

  /** What holds of the mock at all times: the countdown stays within
      [0, 5], the ad can be closed only once the countdown reached 0, and the
      timer runs only while the mock is shown and not yet closable. */
  predicate MockInv(m: Mock)
  {
    && 0 <= m.countdown <= CountdownStart
    && (m.canClose ==> m.countdown == 0)
    && (m.timerRunning ==> m.mockVisible && !m.canClose && m.countdown >= 1)
  }

  lemma InitialMockInv()
    ensures MockInv(InitialMock)
  {
  }

  lemma SetMockVisibleKeepsInv(m: Mock, v: bool)
    requires MockInv(m)
    ensures MockInv(SetMockVisible(m, v))
    ensures SetMockVisible(m, v).mockVisible == v
    ensures !m.mockVisible && v ==> SetMockVisible(m, v) == Mock(true, false, CountdownStart, true)
  {
  }

  /** A tick above 1 counts down by exactly one and keeps the ad
      unclosable; a tick at 1 or below ends at 0, closable, with the timer
      stopped. */
  lemma TickKeepsInv(m: Mock)
    requires MockInv(m)
    ensures MockInv(Tick(m))
    ensures m.timerRunning && m.countdown > 1 ==>
      Tick(m).countdown == m.countdown - 1 && !Tick(m).canClose && Tick(m).timerRunning
    ensures m.timerRunning && m.countdown <= 1 ==>
      Tick(m).countdown == 0 && Tick(m).canClose && !Tick(m).timerRunning
    ensures Tick(m).mockVisible == m.mockVisible
  {
  }

  /** From a fresh reset the ad becomes closable on exactly the fifth tick,
      and later ticks change nothing. */
  lemma {:induction false} TicksFromReset(n: nat)
    ensures n < 5 ==>
      Ticks(Mock(true, false, CountdownStart, true), n) == Mock(true, false, CountdownStart - n, true)
    ensures n >= 5 ==>
      Ticks(Mock(true, false, CountdownStart, true), n) == Mock(true, true, 0, false)
  {
    var reset := Mock(true, false, CountdownStart, true);
    if n > 0 {
      TicksFromReset(n - 1);
      TicksSplit(reset, n - 1);
    }
  }

  /** The last of `n + 1` ticks can be taken last. */
  lemma {:induction false} TicksSplit(m: Mock, n: nat)
    ensures Ticks(m, n + 1) == Tick(Ticks(m, n))
    decreases n
  {
    if n > 0 {
      TicksSplit(Tick(m), n - 1);
    }
  }

  /** What the component renders. */
  datatype Screen =
    | Nothing
    | MockModal(closeButton: bool, countdownBadge: Option<int>, note: string)

  function Render(m: Mock, isExpoGo: bool): Screen
  {
    if !m.mockVisible then Nothing
    else MockModal(m.canClose, if m.canClose then None else Some(m.countdown),
                   if isExpoGo then "Expo Go - Placeholder" else "AdMob Yüklenemedi - Placeholder")
  }

  /** Nothing is rendered while the mock is hidden, and the close button is
      offered exactly when the ad can be closed; otherwise the remaining
      seconds are shown. */
  lemma RenderShowsCloseOnlyWhenClosable(m: Mock, isExpoGo: bool)
    ensures !m.mockVisible <==> Render(m, isExpoGo) == Nothing
    ensures Render(m, isExpoGo).MockModal? ==>
      (Render(m, isExpoGo).closeButton <==> m.canClose)
      && (!m.canClose ==> Render(m, isExpoGo).countdownBadge == Some(m.countdown))
  {
  }

  /** The events a real interstitial reports to its listeners. */
  datatype AdEvent = Loaded | Closed | Error

  /** The component. `requests` lists the ad units a real ad was requested
      for, `closeCalls` counts the calls of the `onClose` prop, `listening`
      says whether the listeners of the last real ad are subscribed. */
  class Interstitial {
    const env: AdEnv
    var visible: bool
    var mockVisible: bool
    var canClose: bool
    var countdown: int
    var timerRunning: bool
    var listening: bool
    var adShown: bool
    var requests: seq<Option<string>>
    var closeCalls: nat

    function MockState(): Mock
      reads this
    {
      Mock(mockVisible, canClose, countdown, timerRunning)
    }

    ghost predicate Valid()
      reads this
    {
      && MockInv(MockState())
      && (listening ==> visible && SdkLoaded(env))
    }

    function Screen(): Screen
      reads this
    {
      Render(MockState(), env.isExpoGo)
    }

    /** The first render with the given `visible` prop; the visibility
        effect runs once on mount. */
    constructor (env: AdEnv, visible: bool)
      ensures Valid()
      ensures this.env == env && this.visible == visible
      ensures !visible ==> MockState() == InitialMock && requests == [] && !listening
      ensures visible && !SdkLoaded(env) ==>
        MockState() == SetMockVisible(InitialMock, true) && requests == [] && !listening
      ensures visible && SdkLoaded(env) ==>
        MockState() == InitialMock && requests == [AdUnitId(env)] && listening
      ensures closeCalls == 0 && !adShown
    {
      this.env := env;
      this.visible := visible;
      mockVisible, canClose, countdown, timerRunning := false, false, CountdownStart, false;
      listening, adShown := false, false;
      requests, closeCalls := [], 0;
      new;
      VisibilityEffect();
    }

    /** `setMockVisible` with the effect that depends on `mockVisible`. */
    method SetMock(v: bool)
      requires MockInv(MockState())
      modifies this`mockVisible, this`canClose, this`countdown, this`timerRunning
      ensures MockState() == SetMockVisible(old(MockState()), v)
      ensures MockInv(MockState())
    {
      if v != mockVisible {
        mockVisible := v;
        timerRunning := false;
        if v {
          canClose, countdown := false, CountdownStart;
          timerRunning := true;
        }
      }
    }

    /** The effect that depends on `visible`, after the cleanup of its
        previous run has unsubscribed the listeners. */
    method VisibilityEffect()
      requires MockInv(MockState())
      modifies this
      ensures Valid()
      ensures visible == old(visible)
      ensures closeCalls == old(closeCalls) && adShown == old(adShown)
      ensures !visible ==>
        MockState() == SetMockVisible(old(MockState()), false) && requests == old(requests) && !listening
      ensures visible && !SdkLoaded(env) ==>
        MockState() == SetMockVisible(old(MockState()), true) && requests == old(requests) && !listening
      ensures visible && SdkLoaded(env) ==>
        MockState() == old(MockState()) && requests == old(requests) + [AdUnitId(env)] && listening
    {
      listening := false;
      if !visible {
        SetMock(false);
        return;
      }
      if env.isExpoGo || !SdkLoaded(env) {
        SetMock(true);
        return;
      }
      requests := requests + [AdUnitId(env)];
      listening := true;
    }

    /** A new value of the `visible` prop; the effect runs only when it
        changed. */
    method SetVisible(v: bool)
      requires Valid()
      modifies this
      ensures Valid()
      ensures visible == v
      ensures closeCalls == old(closeCalls) && adShown == old(adShown)
      ensures v == old(visible) ==>
        MockState() == old(MockState()) && requests == old(requests) && listening == old(listening)
      ensures v != old(visible) ==> listening == (v && SdkLoaded(env))
      ensures v != old(visible) && !v ==>
        MockState() == SetMockVisible(old(MockState()), false) && requests == old(requests)
      ensures v != old(visible) && v && !SdkLoaded(env) ==>
        MockState() == SetMockVisible(old(MockState()), true) && requests == old(requests)
      ensures v != old(visible) && v && SdkLoaded(env) ==>
        MockState() == old(MockState()) && requests == old(requests) + [AdUnitId(env)]
    {
      if v != visible {
        visible := v;
        VisibilityEffect();
      }
    }

    /** An event from the real ad's listeners: LOADED shows the ad, CLOSED
        calls `onClose`, ERROR falls back to the mock. Without listeners
        nothing happens. */
    method OnAdEvent(e: AdEvent)
      requires Valid()
      modifies this
      ensures Valid()
      ensures visible == old(visible) && listening == old(listening) && requests == old(requests)
      ensures adShown == (old(adShown) || (old(listening) && e == Loaded))
      ensures !old(listening) ==> MockState() == old(MockState()) && closeCalls == old(closeCalls)
      ensures old(listening) && e == Loaded ==>
        adShown && MockState() == old(MockState()) && closeCalls == old(closeCalls)
      ensures old(listening) && e == Closed ==>
        closeCalls == old(closeCalls) + 1 && MockState() == old(MockState())
      ensures old(listening) && e == Error ==>
        MockState() == SetMockVisible(old(MockState()), true) && closeCalls == old(closeCalls)
    {
      if !listening {
        return;
      }
      match e {
        case Loaded => adShown := true;
        case Closed => closeCalls := closeCalls + 1;
        case Error => SetMock(true);
      }
    }

    /** One firing of the one-second interval. */
    method OnTick()
      requires Valid()
      modifies this`canClose, this`countdown, this`timerRunning
      ensures Valid()
      ensures MockState() == Tick(old(MockState()))
    {
      if !timerRunning {
        return;
      }
      if countdown <= 1 {
        timerRunning := false;
        canClose := true;
        countdown := 0;
      } else {
        countdown := countdown - 1;
      }
    }

    /** A press on the close button, which exists only when the mock is
        shown and closable. */
    method PressClose()
      requires Valid()
      modifies this`closeCalls
      ensures closeCalls == if mockVisible && canClose then old(closeCalls) + 1 else old(closeCalls)
    {
      if Screen().MockModal? && Screen().closeButton {
        closeCalls := closeCalls + 1;
      }
    }
  }
}

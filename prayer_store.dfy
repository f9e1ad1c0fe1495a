/**
 * The persisted prayer store (store/prayerStore.ts): five state fields, the
 * Qibla-angle calculator and the two actions `setLocation` and `fetchData`.
 * Every `set(...)` call of the store is one published state; `fetchData`
 * publishes twice when a location is known (first "loading", then the
 * result).
 *
 * The prayer-times service is not modelled: its answer to one request is the
 * input `FetchOutcome`. The bearing trigonometry is not modelled either: the
 * calculator is a total function from coordinates to integers, fixed when
 * the store is created.
 */
module PrayerStore {
  import opened Wrappers

  /** A position from the location provider, in decimal degrees. */
  datatype Coords = Coords(latitude: real, longitude: real)

  /** The payload of the prayer-times service, kept opaque apart from the
      six named times it carries. */
  datatype PrayerData = PrayerData(timings: map<string, string>, readableDate: string)

  /** What one call of the prayer-times service ends with: the data, or a
      thrown error whose `message` may be missing. */
  datatype FetchOutcome = Fetched(data: PrayerData) | Failed(message: Option<string>)

  /** The five data fields of the store. */
  datatype State = State(
    prayerData: Option<PrayerData>,
    location: Option<Coords>,
    qiblaAngle: int,
    loading: bool,
    error: Option<string>)

  /** The two actions a component can call. */
  datatype Action = SetLocation(coords: Coords) | FetchData(outcome: FetchOutcome)

  const LocationMissingMessage: string := "Konum izni verilmedi veya alınamadı."
  const FetchFailedMessage: string := "Veri alınamadı"

  const InitialState: State := State(None, None, 0, false, None)

  /** `err.message || 'Veri alınamadı'`: a missing or empty message falls back
      to the fixed one, so the stored error is never empty. */
  function ErrorText(message: Option<string>): (text: string)
    ensures text != ""
    ensures message.Some? && message.value != "" ==> text == message.value
    ensures message.None? || message.value == "" ==> text == FetchFailedMessage
  {
    if message.Some? && message.value != "" then message.value else FetchFailedMessage
  }

  /** The state published by `setLocation`. */
  function AfterSetLocation(s: State, coords: Coords, angle: int): State
  {
    s.(location := Some(coords), qiblaAngle := angle)
  }

  /** The state published by `fetchData` when no location is known. */
  function AfterMissingLocation(s: State): State
  {
    s.(error := Some(LocationMissingMessage))
  }

  /** The first state published by `fetchData` when a location is known. */
  function Loading(s: State): State
  {
    s.(loading := true, error := None)
  }

  /** The second state published by `fetchData`, once the service answered. */
  function AfterFetch(s: State, outcome: FetchOutcome): State
  {
    match outcome
    case Fetched(data) => s.(prayerData := Some(data), loading := false)
    case Failed(message) => s.(error := Some(ErrorText(message)), loading := false)
  }

  /** The state after one whole action. */
  function Step(angleOf: Coords -> int, s: State, a: Action): State
  {
    match a
    case SetLocation(coords) => AfterSetLocation(s, coords, angleOf(coords))
    case FetchData(outcome) =>
      if s.location.None? then AfterMissingLocation(s) else AfterFetch(Loading(s), outcome)
  }

  /** The state after a sequence of actions, in order. */
  function Run(angleOf: Coords -> int, s: State, actions: seq<Action>): State
    decreases |actions|
  {
    if actions == [] then s else Run(angleOf, Step(angleOf, s, actions[0]), actions[1..])
  }

  /** What holds between actions: the angle is that of the stored location (0
      before any location), nothing is loading, and an error is never empty. */
  predicate Settled(angleOf: Coords -> int, s: State)
  {
    && (s.location.None? ==> s.qiblaAngle == 0)
    && (s.location.Some? ==> s.qiblaAngle == angleOf(s.location.value))
    && !s.loading
    && (s.error.Some? ==> s.error.value != "")
  }

  /** `setLocation` changes only the location and the angle. */
  lemma SetLocationChangesOnlyLocation(s: State, coords: Coords, angle: int)
    ensures var t := AfterSetLocation(s, coords, angle);
      t.location == Some(coords) && t.qiblaAngle == angle
      && t.prayerData == s.prayerData && t.loading == s.loading && t.error == s.error
  {
  }

  /** Without a location, `fetchData` only sets the fixed error. */
  lemma MissingLocationOnlySetsError(s: State)
    ensures var t := AfterMissingLocation(s);
      t.error == Some(LocationMissingMessage)
      && t.prayerData == s.prayerData && t.location == s.location
      && t.qiblaAngle == s.qiblaAngle && t.loading == s.loading
  {
  }

  /** With a location, whatever the service answers, loading ends false; a
      success stores the data and leaves the cleared error; a failure keeps
      the previous data and stores a non-empty error. */
  lemma FetchOutcomes(s: State, outcome: FetchOutcome)
    ensures Loading(s).loading && Loading(s).error.None?
    ensures !AfterFetch(Loading(s), outcome).loading
    ensures outcome.Fetched? ==>
      AfterFetch(Loading(s), outcome).prayerData == Some(outcome.data)
      && AfterFetch(Loading(s), outcome).error.None?
    ensures outcome.Failed? ==>
      AfterFetch(Loading(s), outcome).prayerData == s.prayerData
      && AfterFetch(Loading(s), outcome).error == Some(ErrorText(outcome.message))
    ensures AfterFetch(Loading(s), outcome).location == s.location
    ensures AfterFetch(Loading(s), outcome).qiblaAngle == s.qiblaAngle
  {
  }

  /** Every action keeps the store settled. */
  lemma StepKeepsSettled(angleOf: Coords -> int, s: State, a: Action)
    requires Settled(angleOf, s)
    ensures Settled(angleOf, Step(angleOf, s, a))
  {
  }

  /** Any sequence of actions from the initial state leaves the store
      settled. */
  lemma {:induction false} RunKeepsSettled(angleOf: Coords -> int, s: State, actions: seq<Action>)
    requires Settled(angleOf, s)
    ensures Settled(angleOf, Run(angleOf, s, actions))
    decreases |actions|
  {
    if actions != [] {
      StepKeepsSettled(angleOf, s, actions[0]);
      RunKeepsSettled(angleOf, Step(angleOf, s, actions[0]), actions[1..]);
    }
  }

  /** The location stored after a run is the one given by the last
      `setLocation` of the run, or the one before the run if there is none. */
  function LastLocation(before: Option<Coords>, actions: seq<Action>): Option<Coords>
    decreases |actions|
  {
    if actions == [] then before
    else if actions[|actions| - 1].SetLocation? then Some(actions[|actions| - 1].coords)
    else LastLocation(before, actions[..|actions| - 1])
  }

  /** Only `setLocation` moves the location. */
  lemma {:induction false} RunLocation(angleOf: Coords -> int, s: State, actions: seq<Action>)
    ensures Run(angleOf, s, actions).location == LastLocation(s.location, actions)
    decreases |actions|
  {
    if actions != [] {
      var t := Step(angleOf, s, actions[0]);
      assert t.location == if actions[0].SetLocation? then Some(actions[0].coords) else s.location;
      RunLocation(angleOf, t, actions[1..]);
      LastLocationCons(s.location, actions[0], actions[1..]);
      assert [actions[0]] + actions[1..] == actions;
    }
  }

  /** Peeling the first action off a run for `LastLocation`. */
  lemma {:induction false} LastLocationCons(before: Option<Coords>, a: Action, rest: seq<Action>)
    ensures LastLocation(before, [a] + rest)
         == LastLocation(if a.SetLocation? then Some(a.coords) else before, rest)
    decreases |rest|
  {
    if rest != [] {
      var front := rest[..|rest| - 1];
      assert ([a] + rest)[..|rest|] == [a] + front;
      LastLocationCons(before, a, front);
    } else {
      assert ([a] + rest)[..0] == [];
    }
  }

  /** The store. Its fields are those of the zustand state; `published` is the
      sequence of states that every `set(...)` call handed to subscribers. */
  class Store {
    var prayerData: Option<PrayerData>
    var location: Option<Coords>
    var qiblaAngle: int
    var loading: bool
    var error: Option<string>
    const calculateQiblaAngle: Coords -> int
    ghost var published: seq<State>

    function Snapshot(): State
      reads this
    {
      State(prayerData, location, qiblaAngle, loading, error)
    }

    /** The store as `create` builds it. */
    constructor (calculateQiblaAngle: Coords -> int)
      ensures Snapshot() == InitialState
      ensures this.calculateQiblaAngle == calculateQiblaAngle
      ensures published == []
      ensures Settled(calculateQiblaAngle, Snapshot())
    {
      prayerData, location, qiblaAngle, loading, error := None, None, 0, false, None;
      this.calculateQiblaAngle := calculateQiblaAngle;
      published := [];
    }

    /** `setLocation`: store the coordinates and their Qibla angle in one
        `set`. */
    method SetLocation(coords: Coords)
      modifies this
      ensures Snapshot() == AfterSetLocation(old(Snapshot()), coords, calculateQiblaAngle(coords))
      ensures Snapshot() == Step(calculateQiblaAngle, old(Snapshot()), Action.SetLocation(coords))
      ensures published == old(published) + [Snapshot()]
    {
      var angle := calculateQiblaAngle(coords);
      location, qiblaAngle := Some(coords), angle;
      published := published + [Snapshot()];
    }

    /** `fetchData`, where `outcome` is what the prayer-times service answers
        if it is asked. Returns the latitude and longitude the service was
        asked for, or `None` when it was not called. */
    method FetchData(outcome: FetchOutcome) returns (request: Option<(real, real)>)
      modifies this
      ensures old(location).None? ==> request.None?
      ensures old(location).Some? ==>
        request == Some((old(location).value.latitude, old(location).value.longitude))
      ensures old(location).None? ==>
        Snapshot() == AfterMissingLocation(old(Snapshot()))
        && published == old(published) + [Snapshot()]
      ensures old(location).Some? ==>
        Snapshot() == AfterFetch(Loading(old(Snapshot())), outcome)
        && published == old(published) + [Loading(old(Snapshot())), Snapshot()]
      ensures Snapshot() == Step(calculateQiblaAngle, old(Snapshot()), Action.FetchData(outcome))
    {
      if location.None? {
        error := Some(LocationMissingMessage);
        published := published + [Snapshot()];
        return None;
      }
      loading, error := true, None;
      published := published + [Snapshot()];
      request := Some((location.value.latitude, location.value.longitude));
      match outcome {
        case Fetched(data) =>
          prayerData, loading := Some(data), false;
        case Failed(message) =>
          error, loading := Some(ErrorText(message)), false;
      }
      published := published + [Snapshot()];
    }
  }
}

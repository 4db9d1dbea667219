/** The sensor resolver: infers the door's state from a limit-switch reading,
    the current state, the previous state and the seconds elapsed since the
    last committed update. Its contract is the parametrised oracle of the
    controller tests read together with the definition table. */
module Resolver {
  import opened Wrappers
  import opened States

  datatype ResolveError =
    | DebounceError(elapsed: real)  // the reading came too soon after the last update
    | AmbiguityError                // no table state fits the reading and the history

  /** The states of `keys`, in order, whose table signature is `sensor`. */
  function WithSignature(keys: seq<State>, sensor: Sensor): (r: seq<State>)
    requires forall k :: k in keys ==> k in Definitions
    ensures forall s :: s in r <==> s in keys && Definitions[s].sensor == sensor
    ensures |r| <= |keys|
  {
    if keys == [] then []
    else
      (if Definitions[keys[0]].sensor == sensor then [keys[0]] else [])
      + WithSignature(keys[1..], sensor)
  }

  /** The states of `keys`, in order, whose table predecessor is `current`. */
  function FollowersOf(keys: seq<State>, current: State): (r: seq<State>)
    requires forall k :: k in keys ==> k in Definitions
    ensures forall s :: s in r <==> s in keys && Definitions[s].previous == Some(current)
    ensures |r| <= |keys|
  {
    if keys == [] then []
    else
      (if Definitions[keys[0]].previous == Some(current) then [keys[0]] else [])
      + FollowersOf(keys[1..], current)
  }

  /** The table states that read `sensor`. */
  function Matching(sensor: Sensor): (r: seq<State>)
    ensures forall s :: s in r <==> s in Definitions && Definitions[s].sensor == sensor
  {
    TableOrderIsTable();
    WithSignature(TableOrder, sensor)
  }

  /** First matching rule wins: debounce; a signature only one state has;
      the one travel state leaving `current`; still travelling; otherwise
      ambiguous. */
  function Resolve(sensor: Sensor, current: State, last: State, delta: real)
    : (r: Result<State, ResolveError>)
    ensures r == Failure(DebounceError(delta)) <==> delta < StateUpdateDebounce
    ensures r.Success? ==> r.value in Definitions && Definitions[r.value].sensor == sensor
  {
    if delta < StateUpdateDebounce then Failure(DebounceError(delta))
    else
      var matching := Matching(sensor);
      if |matching| == 1 then Success(matching[0])
      else
        var departing := FollowersOf(matching, current);
        if |departing| == 1 then Success(departing[0])
        else if |departing| == 0 && current in matching && current == last
                && current in TransitionStates then Success(current)
        else Failure(AmbiguityError)
  }

  /** What Matching gives for each reading. */
  lemma MatchingByReading(sensor: Sensor)
    ensures sensor == Sensor(1, 0) ==> Matching(sensor) == [Open]
    ensures sensor == Sensor(0, 1) ==> Matching(sensor) == [Closed]
    ensures sensor == Sensor(0, 0) ==> Matching(sensor) == [Opening, Closing]
    ensures sensor == Sensor(1, 1) ==> Matching(sensor) == []
  {
    assert TableOrder[1..][1..][1..][1..] == [];
  }

  /** Which travel state leaves `current`, read off the (0,0) entries. */
  lemma FollowersOfTravel(current: State)
    ensures FollowersOf([Opening, Closing], current) ==
      if current == Closed then [Opening] else if current == Open then [Closing] else []
  {
    var keys := [Opening, Closing];
    assert keys[1..] == [Closing] && keys[1..][1..] == [];
    assert FollowersOf(keys[1..][1..], current) == [];
  }

  /** An engaged limit switch decides the state, whatever the history. */
  lemma EngagedSwitchDecides(current: State, last: State, delta: real)
    requires delta >= StateUpdateDebounce
    ensures Resolve(Sensor(1, 0), current, last, delta) == Success(Open)
    ensures Resolve(Sensor(0, 1), current, last, delta) == Success(Closed)
  {
    MatchingByReading(Sensor(1, 0));
    MatchingByReading(Sensor(0, 1));
  }

  /** Both switches released, past debounce: the resolver's answer for
      every history. */
  lemma ReleasedUnfolds(current: State, last: State, delta: real)
    requires delta >= StateUpdateDebounce
    ensures Resolve(Sensor(0, 0), current, last, delta) ==
      if current == Closed then Success(Opening)
      else if current == Open then Success(Closing)
      else if current == last && current in TransitionStates then Success(current)
      else Failure(AmbiguityError)
  {
    var matching := Matching(Sensor(0, 0));
    assert matching == [Opening, Closing] by {
      MatchingByReading(Sensor(0, 0));
    }
    var departing := FollowersOf(matching, current);
    assert departing ==
      if current == Closed then [Opening] else if current == Open then [Closing] else [] by {
      FollowersOfTravel(current);
    }
    assert current in matching <==> current in TransitionStates;
  }

  /** With both switches released, leaving an extreme gives the travel state
      whose predecessor that extreme is. */
  lemma DepartureFromExtreme(current: State, last: State, delta: real)
    requires delta >= StateUpdateDebounce
    requires current == Open || current == Closed
    ensures Resolve(Sensor(0, 0), current, last, delta) ==
      Success(if current == Closed then Opening else Closing)
    ensures var s := Resolve(Sensor(0, 0), current, last, delta).value;
      Definitions[s].previous == Some(current)
  {
    ReleasedUnfolds(current, last, delta);
  }

  /** With both switches released and no new history, a travel state stays. */
  lemma StillTravelling(current: State, delta: real)
    requires delta >= StateUpdateDebounce
    requires current in TransitionStates
    ensures Resolve(Sensor(0, 0), current, current, delta) == Success(current)
  {
    ReleasedUnfolds(current, current, delta);
  }

  /** Both switches released resolves exactly when the door just left an
      extreme or is still travelling; every other history is ambiguous. */
  lemma ReleasedResolvesExactly(current: State, last: State, delta: real)
    requires delta >= StateUpdateDebounce
    ensures Resolve(Sensor(0, 0), current, last, delta).Success? <==>
      current == Open || current == Closed || (current == last && current in TransitionStates)
  {
    ReleasedUnfolds(current, last, delta);
  }

  /** Both switches engaged fits no state. */
  lemma BothEngagedAmbiguous(current: State, last: State, delta: real)
    requires delta >= StateUpdateDebounce
    ensures Resolve(Sensor(1, 1), current, last, delta) == Failure(AmbiguityError)
  {
    MatchingByReading(Sensor(1, 1));
  }

  // The parametrised cases of the controller tests, each with elapsed 5.0.

  lemma StaticClosed()
    ensures Resolve(Sensor(0, 1), Closed, Closed, 5.0) == Success(Closed)
  {
    EngagedSwitchDecides(Closed, Closed, 5.0);
  }

  lemma StaticOpen()
    ensures Resolve(Sensor(1, 0), Open, Open, 5.0) == Success(Open)
  {
    EngagedSwitchDecides(Open, Open, 5.0);
  }

  lemma StaticClosing()
    ensures Resolve(Sensor(0, 0), Closing, Closing, 5.0) == Success(Closing)
  {
    StillTravelling(Closing, 5.0);
  }

  lemma StaticOpening()
    ensures Resolve(Sensor(0, 0), Opening, Opening, 5.0) == Success(Opening)
  {
    StillTravelling(Opening, 5.0);
  }

  lemma ClosedToOpening()
    ensures Resolve(Sensor(0, 0), Closed, Closing, 5.0) == Success(Opening)
  {
    DepartureFromExtreme(Closed, Closing, 5.0);
  }

  lemma OpenToClosing()
    ensures Resolve(Sensor(0, 0), Open, Opening, 5.0) == Success(Closing)
  {
    DepartureFromExtreme(Open, Opening, 5.0);
  }

  lemma ClosingToClosed()
    ensures Resolve(Sensor(0, 1), Closing, Open, 5.0) == Success(Closed)
  {
    EngagedSwitchDecides(Closing, Open, 5.0);
  }

  lemma OpeningToOpen()
    ensures Resolve(Sensor(1, 0), Opening, Closed, 5.0) == Success(Open)
  {
    EngagedSwitchDecides(Opening, Closed, 5.0);
  }

  lemma OpenToClosed()
    ensures Resolve(Sensor(0, 1), Open, Opening, 5.0) == Success(Closed)
  {
    EngagedSwitchDecides(Open, Opening, 5.0);
  }

  lemma ClosedToOpen()
    ensures Resolve(Sensor(1, 0), Closed, Closing, 5.0) == Success(Open)
  {
    EngagedSwitchDecides(Closed, Closing, 5.0);
  }
}

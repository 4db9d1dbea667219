/** The garage-door controller: the request gate that decides whether a
    request pulses the door, and the controller record whose fields the
    limit-switch callbacks, the HTTP handlers and the pulse itself update. */
module Controller {
  import opened Wrappers
  import opened States

  /** A travel state older than this is treated as stuck. */
  const TemporaryStateTimeout: real := 20.0
  /** Whether a request in Unknown pulses the door before any other guard. */
  const ActivateDoorWhenUnknownState: bool := false
  /** How long the relay is held on. */
  const PulseSeconds: real := 1.0
  /** The pause between the optimistic travel state and the extreme one. */
  const SettleSeconds: real := 3.0

  datatype Refusal =
    | TooSoon           // within the debounce window of the last update
    | AlreadyThere      // the desired state is the current one
    | StillTravelling   // a travel state not yet timed out

  datatype Trigger =
    | UnknownState      // Unknown with the activate-anyway flag set
    | StaleTransition   // a travel state older than the timeout
    | Regular           // every guard passed

  datatype Decision = Ignore(refusal: Refusal) | Activate(trigger: Trigger)

  /** The guard chain of a request, in order. A request inside the debounce
      window is ignored, and only such a request; at exactly the window's end
      the request proceeds. */
  function Decide(current: State, lastUpdate: real, desired: State, now: real,
                  activateWhenUnknown: bool): (d: Decision)
    ensures d == Ignore(TooSoon) <==> now < lastUpdate + StateUpdateDebounce
  {
    if now < lastUpdate + StateUpdateDebounce then Ignore(TooSoon)
    else if current == Unknown && activateWhenUnknown then Activate(UnknownState)
    else if desired == current then Ignore(AlreadyThere)
    else if current in TransitionStates then
      if now > lastUpdate + TemporaryStateTimeout then Activate(StaleTransition)
      else Ignore(StillTravelling)
    else Activate(Regular)
  }

  /** Asking for the current state never pulses, except for Unknown with
      the activate-anyway flag: that guard comes first and pulses even when
      Unknown is what was asked for. */
  lemma AlreadyThereNoPulse(current: State, lastUpdate: real, now: real, flag: bool)
    ensures !(current == Unknown && flag) ==>
      !Decide(current, lastUpdate, current, now, flag).Activate?
    ensures current == Unknown && flag && now >= lastUpdate + StateUpdateDebounce ==>
      Decide(current, lastUpdate, current, now, flag) == Activate(UnknownState)
  {
  }

  /** Past debounce, a travel state pulses for a different desired state
      only once it is strictly older than the timeout. */
  lemma TravelTimeout(current: State, lastUpdate: real, desired: State, now: real, flag: bool)
    requires current in TransitionStates && desired != current
    requires now >= lastUpdate + StateUpdateDebounce
    ensures Decide(current, lastUpdate, desired, now, flag).Activate?
      <==> now > lastUpdate + TemporaryStateTimeout
  {
  }

  /** In Unknown or Stopped, a request for another state that passes
      debounce pulses whatever the flag says; the flag only changes which
      guard lets it through. */
  lemma UnknownOrStoppedPulses(current: State, lastUpdate: real, desired: State, now: real)
    requires current == Unknown || current == Stopped
    requires desired != current
    requires now >= lastUpdate + StateUpdateDebounce
    ensures Decide(current, lastUpdate, desired, now, true).Activate?
    ensures Decide(current, lastUpdate, desired, now, false).Activate?
    ensures current == Unknown ==>
      Decide(current, lastUpdate, desired, now, true) == Activate(UnknownState) &&
      Decide(current, lastUpdate, desired, now, false) == Activate(Regular)
  {
  }

  /** From an extreme state, a request for a different state that passes
      debounce always pulses. */
  lemma ExtremePulses(current: State, lastUpdate: real, desired: State, now: real, flag: bool)
    requires current == Open || current == Closed
    requires desired != current
    requires now >= lastUpdate + StateUpdateDebounce
    ensures Decide(current, lastUpdate, desired, now, flag) == Activate(Regular)
  {
  }

  /** The states one pulse passes to update_state, by starting state: the
      two checks are independent, so a start from Closed reaches Open and
      then runs the Open branch as well. */
  function ActivationTrace(start: State): (r: seq<State>)
    ensures forall s :: s in r ==> s in Definitions
  {
    (if start == Closed then [Opening, Open] else [])
    + (if start == Closed || start == Open then [Closing, Closed] else [])
  }

  /** The state a pulse leaves behind. */
  function AfterActivation(start: State): (s: State)
    ensures start == Open || start == Closed ==> s == Closed
    ensures start != Open && start != Closed ==> s == start
  {
    var trace := ActivationTrace(start);
    if trace == [] then start else trace[|trace| - 1]
  }

  /** The time of the last update_state call a pulse makes, if any. */
  function ActivationUpdateTime(start: State, now: real, lastUpdate: real): (t: real)
    ensures start == Open || start == Closed ==> t > now
    ensures start != Open && start != Closed ==> t == lastUpdate
  {
    if start == Closed then now + PulseSeconds + SettleSeconds + SettleSeconds
    else if start == Open then now + PulseSeconds + SettleSeconds
    else lastUpdate
  }

  /** The trace a pulse records follows the definition table: every travel
      state in it is entered from its table predecessor. */
  lemma ActivationFollowsTable(start: State, i: nat)
    requires i < |ActivationTrace(start)|
    requires ActivationTrace(start)[i] in TransitionStates
    ensures Definitions[ActivationTrace(start)[i]].previous ==
      Some(if i == 0 then start else ActivationTrace(start)[i - 1])
  {
  }

  /** The trace a pulse records is non-empty exactly from an extreme state,
      and from either extreme it ends in Closed. */
  lemma ActivationTraceShape(start: State)
    ensures ActivationTrace(start) != [] <==> start == Open || start == Closed
    ensures start == Closed ==> ActivationTrace(start) == [Opening, Open, Closing, Closed]
    ensures start == Open ==> ActivationTrace(start) == [Closing, Closed]
  {
  }

  class GarageDoorController {
    var currentState: State
    var lastStateUpdate: real
    var lastActivation: real
    /** The states passed to update_state, oldest first. */
    var trace: seq<State>
    /** The webhook payloads posted, one per update_state call. */
    var posted: seq<string>
    /** Relay pulses issued. */
    var pulses: nat

    /** Every posted payload is the code of the state it announced. */
    ghost predicate Valid()
      reads this
    {
      |posted| == |trace| && forall i :: 0 <= i < |trace| ==> posted[i] == Code(trace[i])
    }

    constructor ()
      ensures Valid()
      ensures currentState == Unknown && lastStateUpdate == 0.0 && lastActivation == 0.0
      ensures trace == [] && posted == [] && pulses == 0
    {
      trace, posted, pulses := [], [], 0;
      lastStateUpdate, lastActivation := 0.0, 0.0;
      new;
      Reset();
      currentState := Unknown;
    }

    /** Both timestamps go back to zero. */
    method Reset()
      requires Valid()
      modifies this
      ensures Valid()
      ensures lastStateUpdate == 0.0 && lastActivation == 0.0
      ensures currentState == old(currentState) && trace == old(trace)
      ensures posted == old(posted) && pulses == old(pulses)
    {
      lastStateUpdate := 0.0;
      lastActivation := 0.0;
    }

    /** Commits a state at `now` and posts its code. */
    method UpdateState(s: State, now: real)
      requires Valid()
      modifies this
      ensures Valid()
      ensures currentState == s && lastStateUpdate == now
      ensures trace == old(trace) + [s] && posted == old(posted) + [Code(s)]
      ensures lastActivation == old(lastActivation) && pulses == old(pulses)
    {
      currentState := s;
      lastStateUpdate := now;
      trace := trace + [s];
      posted := posted + [Code(s)];
    }

    /** The top limit switch engaged: Open, with no debounce. */
    method OpenStateUpdate(now: real)
      requires Valid()
      modifies this
      ensures Valid()
      ensures currentState == Open && lastStateUpdate == now
      ensures trace == old(trace) + [Open] && posted == old(posted) + [Code(Open)]
      ensures lastActivation == old(lastActivation) && pulses == old(pulses)
    {
      UpdateState(Open, now);
    }

    /** The bottom limit switch engaged: Closed, with no debounce. */
    method CloseStateUpdate(now: real)
      requires Valid()
      modifies this
      ensures Valid()
      ensures currentState == Closed && lastStateUpdate == now
      ensures trace == old(trace) + [Closed] && posted == old(posted) + [Code(Closed)]
      ensures lastActivation == old(lastActivation) && pulses == old(pulses)
    {
      UpdateState(Closed, now);
    }

    /** What one pulse at `now` did to the record. */
    twostate predicate Pulsed(now: real)
      reads this
    {
      && lastActivation == now && pulses == old(pulses) + 1
      && trace == old(trace) + ActivationTrace(old(currentState))
      && currentState == AfterActivation(old(currentState))
      && lastStateUpdate == ActivationUpdateTime(old(currentState), now, old(lastStateUpdate))
    }

    /** One relay pulse at `now`, then the optimistic state updates. */
    method ActivateDoor(now: real)
      requires Valid()
      modifies this
      ensures Valid() && Pulsed(now)
    {
      lastActivation := now;
      pulses := pulses + 1;
      var clock := now + PulseSeconds;
      if currentState == Closed {
        UpdateState(Opening, clock);
        clock := clock + SettleSeconds;
        OpenStateUpdate(clock);
      }
      if currentState == Open {
        UpdateState(Closing, clock);
        clock := clock + SettleSeconds;
        CloseStateUpdate(clock);
      }
    }

    /** A request for `desired` at `now`: pulses exactly when the guard chain
        says so, and otherwise changes nothing. */
    method RequestActivateDoor(desired: State, now: real)
      requires Valid()
      modifies this
      ensures Valid()
      ensures if Decide(old(currentState), old(lastStateUpdate), desired, now,
                        ActivateDoorWhenUnknownState).Activate?
        then Pulsed(now) else unchanged(this)
      ensures now < old(lastStateUpdate) + StateUpdateDebounce ==> unchanged(this)
    {
      var d := Decide(currentState, lastStateUpdate, desired, now, ActivateDoorWhenUnknownState);
      if d.Activate? {
        ActivateDoor(now);
      }
    }
  }
}

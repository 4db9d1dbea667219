/** The HTTP front end's request dispatch: which controller action each
    GET or PUT path triggers, and what the handlers then do to the one
    shared controller. */
module WebServer {
  import opened States
  import opened Controller

  datatype Verb = Get | Put

  datatype Action =
    | WriteState              // answer with the current state's code
    | SetState(state: State)  // commit a state through update_state
    | RequestDoor(desired: State)  // ask the request gate for a state

  /** The actions a request fires, in handler order: each path is checked by
      its own, independent test, and the paths are distinct, so a request
      fires at most one action. */
  function Dispatch(verb: Verb, path: string): (r: seq<Action>)
    ensures |r| <= 1
  {
    match verb
    case Get =>
      (if path == "/state" then [WriteState] else [])
      + (if path == "/reset/closed" then [SetState(Closed)] else [])
      + (if path == "/reset/open" then [SetState(Open)] else [])
    case Put =>
      (if path == "/open" then [RequestDoor(Open)] else [])
      + (if path == "/close" then [RequestDoor(Closed)] else [])
  }

  /** Each route, in both directions. */
  lemma Routes(path: string)
    ensures Dispatch(Get, path) == [WriteState] <==> path == "/state"
    ensures Dispatch(Get, path) == [SetState(Closed)] <==> path == "/reset/closed"
    ensures Dispatch(Get, path) == [SetState(Open)] <==> path == "/reset/open"
    ensures Dispatch(Put, path) == [RequestDoor(Open)] <==> path == "/open"
    ensures Dispatch(Put, path) == [RequestDoor(Closed)] <==> path == "/close"
  {
    var get, put := Dispatch(Get, path), Dispatch(Put, path);
    if get == [WriteState] {
      assert get[0] == WriteState;
    }
    if put == [RequestDoor(Open)] {
      assert put[0].desired == Open;
    }
  }

  /** Any other path fires nothing. */
  lemma OtherPathsIgnored(verb: Verb, path: string)
    requires path !in {"/state", "/reset/closed", "/reset/open", "/open", "/close"}
    ensures Dispatch(verb, path) == []
  {
  }

  /** GET: /state answers the current code and changes nothing; the two reset
      paths commit Closed or Open through update_state; any other path
      changes nothing. */
  method HandleGet(controller: GarageDoorController, path: string, now: real)
      returns (body: string)
    requires controller.Valid()
    modifies controller
    ensures controller.Valid()
    ensures body == if WriteState in Dispatch(Get, path)
                    then Code(old(controller.currentState)) else ""
    ensures var actions := Dispatch(Get, path);
      if actions != [] && actions[0].SetState? then
        && controller.currentState == actions[0].state
        && controller.lastStateUpdate == now
        && controller.trace == old(controller.trace) + [actions[0].state]
        && controller.lastActivation == old(controller.lastActivation)
        && controller.pulses == old(controller.pulses)
      else unchanged(controller)
  {
    body := "";
    if path == "/state" {
      body := Code(controller.currentState);
    }
    if path == "/reset/closed" {
      controller.UpdateState(Closed, now);
    }
    if path == "/reset/open" {
      controller.UpdateState(Open, now);
    }
  }

  /** PUT: /open requests Open, /close requests Closed, through the request
      gate; any other path changes nothing. */
  method HandlePut(controller: GarageDoorController, path: string, now: real)
    requires controller.Valid()
    modifies controller
    ensures controller.Valid()
    ensures var actions := Dispatch(Put, path);
      if actions != [] && Decide(old(controller.currentState), old(controller.lastStateUpdate),
                                 actions[0].desired, now, ActivateDoorWhenUnknownState).Activate?
      then controller.Pulsed(now)
      else unchanged(controller)
  {
    if path == "/open" {
      controller.RequestActivateDoor(Open, now);
    }
    if path == "/close" {
      controller.RequestActivateDoor(Closed, now);
    }
  }
}

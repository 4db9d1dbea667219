# Garage-door controller: a Dafny model of its door-state logic

This project models the door-state core of a Raspberry Pi garage-door
controller. Two limit switches report whether the door is fully open (top)
or fully closed (bottom). A relay pulse works like pressing the opener's
button. An HTTP front end serves the state and accepts open and close
requests.

The model has five modules:

- `States` (`states.dfy`): the six-valued state namespace the controller runs
  against (`Unknown`, `Open`, `Closed`, `Opening`, `Closing`, `Stopped`), each
  state's wire code, the debounce interval, the `TransitionStates` subset, and the
  limit-switch signature table. The table is a partial map over the four
  states that have entries.
- `Resolver` (`resolver.dfy`): the pure function that infers a state from a
  switch reading, the current state, the previous state and the elapsed
  seconds. Each parametrised test case is proved as a lemma.
- `History` (`history.dfy`): the `state`/`lastState` bookkeeping that the
  controller tests exercise through `set_state`.
- `Controller` (`controller.dfy`): the request gate `Decide`, a pure function
  for the guard chain of `request_activate_door`. Also the
  `GarageDoorController` class. Its methods update `currentState`,
  `lastStateUpdate` and `lastActivation` in place. The class also records the
  states passed to `update_state` (`trace`), the webhook payloads (`posted`)
  and the relay pulses (`pulses`).
- `WebServer` (`web_server.dfy`): the path-to-action dispatch of the GET and
  PUT handlers, and the handlers' effect on the shared controller.

Modelling choices:

- Time is a `real` parameter `now`.
- The `time.sleep` calls inside `activate_door` advance that clock. The relay
  is held for 1 s. Each optimistic travel state is held for 3 s. So a pulse
  from `Closed` at `now` commits states at `now+1`, `now+4`, `now+4` and
  `now+7`.
- A webhook post is modelled as the state's code appended to `posted`.
- A relay pulse is modelled as an increment of `pulses`.

Where the sources disagree with each other, the model follows the code that
runs:

- Inside `controller.py`, `states.CLOSED`, `states.OPEN` and `states.UNKNOWN`
  refer to the six-valued namespace of `web_server.py`. The module-level dict
  named `states` in `controller.py` has no such attributes.
- The two checks at the end of `activate_door` are independent `if`s. After a
  start from `Closed`, the first branch leaves the state `Open`, so the second
  branch runs as well. The model keeps this: one pulse from `Closed` records
  `Opening, Open, Closing, Closed`, and the door is left `Closed` in the
  record.
- `ACTIVATE_DOOR_WHEN_UNKNOWN_STATE` is `False`. A request in `Unknown` that
  passes debounce is still pulsed by the last line of the guard chain.

The resolver's implementation is not among the repository's files. The model
builds it from the parametrised test cases and the signature table. First
matching rule wins:

1. An elapsed time under the 3-second debounce fails with `DebounceError`.
2. A reading that exactly one table state has gives that state.
3. Among the states with that reading, exactly one whose predecessor is the
   current state gives that state.
4. If no state has the current state as predecessor, the current state is
   kept when it is a travel state, equals the previous state and has that
   reading.
5. Anything else fails with `AmbiguityError`. This includes the physically
   impossible reading (1, 1).

## Model

| member | source | states |
|---|---|---|
| States.Code | src/garage_door/web_server.py:11-35 | the wire code of each state (second component of its namespace pair): "unknown" exactly for Unknown, a single digit 0-4 for every other state; CodeRoundTrip and CodeInjective carry the rest |
| States.FromCode | src/garage_door/web_server.py:11-35 | not in the source: an inverse of Code added so that the encoding can be proved lossless; a decoded code is a state whose code it is, and exactly the six codes decode |
| States.CodeRoundTrip | src/garage_door/web_server.py:11-35 | decoding a state's wire code gives the state back |
| States.CodeInjective | src/garage_door/web_server.py:11-35 | two states with the same wire code are the same state |
| States.TransitionStatesExactly | src/garage_door/web_server.py:40 | the transition states are exactly Opening and Closing; Stopped and Unknown are not among them |
| States.TableOrderIsTable | src/garage_door/controller.py:24-41 | the table's keys in declaration order are exactly the table's domain, without repeats |
| States.TableEntries | src/garage_door/controller.py:24-41 | the domain is Open, Closed, Opening, Closing; Open reads (1,0), Closed (0,1), Opening and Closing (0,0); Opening follows Closed and Closing follows Open |
| States.OnlySharedSignature | src/garage_door/controller.py:24-41 | two distinct table states read alike only if both are travel states and the reading is (0,0) |
| States.Predecessors | src/garage_door/controller.py:33-40 | a table state has a predecessor exactly when it is a travel state; Closed is Opening's, Open is Closing's |
| Resolver.WithSignature | src/garage_door/controller.py:24-41 | the states of a key list whose table signature is the reading, exactly those and no others |
| Resolver.FollowersOf | src/garage_door/controller.py:33-40 | the states of a key list whose table predecessor is the given state, exactly those and no others |
| Resolver.Matching | src/garage_door/controller.py:24-41 | the table states returned are exactly those whose signature is the reading |
| Resolver.MatchingByReading | src/garage_door/controller.py:24-41 | (1,0) fits only Open, (0,1) only Closed, (0,0) Opening and Closing, (1,1) nothing |
| Resolver.Resolve | src/garage_door/tests/test_controller.py:20-56 | fails with DebounceError exactly when the elapsed time is under STATE_UPDATE_DEBOUNCE (3 s), whatever the reading and history; any resolved state is a table state whose signature equals the reading; EngagedSwitchDecides, ReleasedUnfolds, ReleasedResolvesExactly and BothEngagedAmbiguous pin the remaining cases |
| Resolver.FollowersOfTravel | src/garage_door/controller.py:33-40 | among the (0,0) entries, Opening alone follows Closed, Closing alone follows Open, and nothing follows any other state |
| Resolver.ReleasedUnfolds | src/garage_door/tests/test_controller.py:29-39 | past debounce, (0,0) gives Opening from Closed, Closing from Open, the current state when it is a travel state equal to the previous one, and AmbiguityError otherwise |
| Resolver.EngagedSwitchDecides | src/garage_door/tests/test_controller.py:26-50 | past debounce, (1,0) resolves to Open and (0,1) to Closed, whatever the current and previous states |
| Resolver.DepartureFromExtreme | src/garage_door/tests/test_controller.py:36-39 | past debounce, (0,0) from Closed resolves to Opening and from Open to Closing, the travel state whose predecessor is the current state |
| Resolver.StillTravelling | src/garage_door/tests/test_controller.py:29-32 | past debounce, (0,0) with a travel state that equals the previous state keeps that state |
| Resolver.ReleasedResolvesExactly | src/garage_door/tests/test_controller.py:29-39 | past debounce, (0,0) resolves exactly when the current state is an extreme, or is a travel state equal to the previous one |
| Resolver.BothEngagedAmbiguous | src/garage_door/tests/test_controller.py:20-50 | past debounce, (1,1) fits no state and fails with AmbiguityError |
| Resolver.StaticClosed | src/garage_door/tests/test_controller.py:26 | case 0: (0,1), Closed, Closed, 5.0 gives Closed |
| Resolver.StaticOpen | src/garage_door/tests/test_controller.py:28 | case 1: (1,0), Open, Open, 5.0 gives Open |
| Resolver.StaticClosing | src/garage_door/tests/test_controller.py:30 | case 2: (0,0), Closing, Closing, 5.0 gives Closing |
| Resolver.StaticOpening | src/garage_door/tests/test_controller.py:32 | case 3: (0,0), Opening, Opening, 5.0 gives Opening |
| Resolver.ClosedToOpening | src/garage_door/tests/test_controller.py:37 | case 4: (0,0), Closed, Closing, 5.0 gives Opening |
| Resolver.OpenToClosing | src/garage_door/tests/test_controller.py:39 | case 5: (0,0), Open, Opening, 5.0 gives Closing |
| Resolver.ClosingToClosed | src/garage_door/tests/test_controller.py:41 | case 6: (0,1), Closing, Open, 5.0 gives Closed |
| Resolver.OpeningToOpen | src/garage_door/tests/test_controller.py:43 | case 7: (1,0), Opening, Closed, 5.0 gives Open |
| Resolver.OpenToClosed | src/garage_door/tests/test_controller.py:48 | case 8: (0,1), Open, Opening, 5.0 gives Closed |
| Resolver.ClosedToOpen | src/garage_door/tests/test_controller.py:50 | case 9: (1,0), Closed, Closing, 5.0 gives Open |
| History.DoorController.constructor | src/garage_door/tests/test_controller.py:8 | a new record starts Unknown with an Unknown last state |
| History.DoorController.SetState | src/garage_door/tests/test_controller.py:10-17 | setting a state makes it current and moves the old current state into lastState |
| History.SettingState | src/garage_door/tests/test_controller.py:6-17 | after setting Open then Closing, the state is Closing and the last state Open |
| Controller.Decide | src/garage_door/controller.py:93-123 | the guard chain: a request is ignored as too soon exactly when now < last update + 3, so at exactly +3 it proceeds; AlreadyThereNoPulse, TravelTimeout, UnknownOrStoppedPulses and ExtremePulses pin the later guards |
| Controller.AlreadyThereNoPulse | src/garage_door/controller.py:99-110 | asking for the current state never pulses unless the state is Unknown and the activate-anyway flag is set; in that case, past debounce, it pulses through the Unknown guard even though Unknown was asked for |
| Controller.TravelTimeout | src/garage_door/controller.py:112-121 | past debounce, a travel state pulses for a different desired state exactly when now > last update + 20; at exactly +20 it refuses |
| Controller.UnknownOrStoppedPulses | src/garage_door/controller.py:99-123 | past debounce, Unknown or Stopped pulses for any other desired state with the flag on or off; in Unknown the flag only picks the guard that lets the pulse through |
| Controller.ExtremePulses | src/garage_door/controller.py:108-123 | past debounce, Open or Closed pulses for any other desired state through the last line of the guard chain |
| Controller.ActivationTrace | src/garage_door/controller.py:132-139 | every state a pulse passes to update_state is a table state; ActivationTraceShape gives the exact trace per starting state and ActivationFollowsTable ties it to the table |
| Controller.ActivationUpdateTime | src/garage_door/controller.py:127-139 | after a pulse from an extreme, the last update time is later than the pulse (the sleeps at lines 129, 134 and 138); from any other state it is the old update time |
| Controller.AfterActivation | src/garage_door/controller.py:132-139 | a pulse leaves Closed from either extreme and leaves any other state as it was |
| Controller.ActivationTraceShape | src/garage_door/controller.py:132-139 | a pulse commits Opening, Open, Closing, Closed from Closed; Closing, Closed from Open; nothing from any other state |
| Controller.ActivationFollowsTable | src/garage_door/controller.py:132-139 | every travel state a pulse commits is entered from its predecessor in the definition table |
| Controller.GarageDoorController.constructor | src/garage_door/controller.py:63-66 | a new controller is Unknown with both timestamps 0 and no updates, posts or pulses |
| Controller.GarageDoorController.Reset | src/garage_door/controller.py:141-143 | both timestamps become 0, nothing else changes, and the posted codes still match the trace |
| Controller.GarageDoorController.UpdateState | src/garage_door/controller.py:77-88 | the state becomes s and the update time now; one post carrying s's code is appended; the activation time and pulse count are unchanged |
| Controller.GarageDoorController.OpenStateUpdate | src/garage_door/controller.py:59-61 | the top switch commits Open through update_state, with no debounce |
| Controller.GarageDoorController.CloseStateUpdate | src/garage_door/controller.py:55-57 | the bottom switch commits Closed through update_state, with no debounce |
| Controller.GarageDoorController.ActivateDoor | src/garage_door/controller.py:125-139 | the activation time becomes now and one pulse is counted; the commits, final state and update time are those fixed by the starting state |
| Controller.GarageDoorController.RequestActivateDoor | src/garage_door/controller.py:90-123 | pulses exactly when the guard chain decides so, with a pulse's effects; otherwise, and in particular inside the debounce window, nothing changes |
| WebServer.Dispatch | src/garage_door/web_server.py:49-72 | the paths tested by the independent ifs are distinct, so a request fires at most one controller action; Routes and OtherPathsIgnored give each path's action |
| WebServer.Routes | src/garage_door/web_server.py:49-72 | GET /state writes the state, GET /reset/closed and /reset/open set Closed and Open, PUT /open and /close request Open and Closed, each exactly for that path |
| WebServer.OtherPathsIgnored | src/garage_door/web_server.py:49-72 | any other path fires nothing |
| WebServer.HandleGet | src/garage_door/web_server.py:44-58 | GET /state answers the current code and leaves the controller unchanged; the reset paths commit Closed or Open through update_state, which refreshes the update time; other paths change nothing |
| WebServer.HandlePut | src/garage_door/web_server.py:60-72 | PUT /open and /close go through the request gate for Open and Closed; other paths change nothing |

## Left out

- HTTP plumbing: response codes, headers, `HTTPServer` and `serve_forever`. The stub server in `web_server_local.py`, which returns fixed strings and serves `static/index.html`, is not part of this model.
- GPIO: the `LED` and `Button` objects and the wiring of the switch callbacks to hardware. A pulse is a counter increment, and the switch callbacks are the `OpenStateUpdate` and `CloseStateUpdate` methods, called with the time as a parameter.
- The webhook `requests.post` and its JSON body. The model records the posted code. A failed post is not modelled.
- Printing and logging. The display names, the first component of each namespace pair, appear only in printed lines, so the model keeps only the wire codes.
- The wall clock: `time.time()` becomes the parameter `now`, and `time.sleep` becomes an advance of that clock. The class-level `time.time()` defaults are not modelled because `reset` overwrites them during construction.
- Concurrency between the switch callbacks and the HTTP handlers that share one controller. Calls are taken one at a time.
- The commented-out error case of the resolver tests. It is disabled, and it contradicts case 5.
- Any multi-pulse reversal or settle sequencing from a travel or `Stopped` state. The code issues at most one pulse per activation.
- Resolver: the resolver's source is not part of this model. Its contract is fixed only by the test cases and the table. No test uses a short elapsed time, so its debounce threshold is taken from the controller's STATE_UPDATE_DEBOUNCE (3 seconds). The handling of readings and histories outside those cases, such as (1,1) or `Stopped` with (0,0), is this model's choice: an `AmbiguityError`.
- History.DoorController.constructor: the class the tests construct is not part of this model. Its initial `state` and `lastState` are taken to be `Unknown`.

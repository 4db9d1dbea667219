/** The state/lastState bookkeeping exercised by the controller tests: setting
    a state keeps the one it replaces. */
module History {
  import opened States

  class DoorController {
    var state: State
    var lastState: State

    constructor ()
      ensures state == Unknown && lastState == Unknown
    {
      state := Unknown;
      lastState := Unknown;
    }

    /** The previous state moves into lastState, then the new one is set. */
    method SetState(s: State)
      modifies this
      ensures state == s && lastState == old(state)
    {
      lastState := state;
      state := s;
    }
  }

  /** Setting Open and then Closing leaves Closing current and Open last. */
  method SettingState() returns (state: State, lastState: State)
    ensures state == Closing && lastState == Open
  {
    var controller := new DoorController();
    controller.SetState(Open);
    assert controller.state == Open;
    controller.SetState(Closing);
    state, lastState := controller.state, controller.lastState;
  }
}

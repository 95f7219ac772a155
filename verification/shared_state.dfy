/**
 * The mailbox between the polling thread (producer) and the host's custom
 * event handler (consumer): the latest shaped stick position, a flag saying
 * that it has not been consumed yet, and the latest button and D-pad readings.
 */
module SharedState {

  class SharedState {
    var joystickX: real
    var joystickY: real
    /** New stick data is waiting to be consumed. */
    var isDirty: bool
    /** Button index to pressed. */
    var buttonStates: map<int, bool>
    /** D-pad direction key (`dpad_up`, ...) to pressed. */
    var dpadStates: map<string, bool>

    /** A fresh mailbox: stick centred, nothing pending, no readings. */
    constructor ()
      ensures joystickX == 0.0 && joystickY == 0.0
      ensures !isDirty
      ensures buttonStates == map[] && dpadStates == map[]
    {
      joystickX := 0.0;
      joystickY := 0.0;
      isDirty := false;
      buttonStates := map[];
      dpadStates := map[];
    }
  }
}

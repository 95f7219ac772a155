/**
 * The device-reading helpers of the joystick manager. The game-controller
 * library is not modelled: what it reports about the selected device (axis
 * positions, button readings, hat positions, the number of devices) is an
 * input. The pure mappings are functions; the manager object, whose
 * `joystick` and `is_initialized` fields the source updates in place, is a
 * class.
 */
module JoystickManager {
  import opened Optional
  import Text

  /** A hat (D-pad) position as the library reports it: each coordinate -1, 0 or 1. */
  datatype Hat = Hat(x: int, y: int)

  /** What the selected device reports at the moment of a call. */
  datatype Device = Device(axes: seq<real>, buttons: seq<int>, hats: seq<Hat>)

  const DpadUp := "dpad_up"
  const DpadDown := "dpad_down"
  const DpadLeft := "dpad_left"
  const DpadRight := "dpad_right"
  const DpadKeys: set<string> := {DpadUp, DpadDown, DpadLeft, DpadRight}

  /**
   * `get_dpad_button_states`: the four directions as buttons, read from the
   * first hat only; with no hat readings every direction is released. `hats`
   * is the result of `get_hat_values`, with `None` written as `[]`.
   */
  function DpadButtonStates(hats: seq<Hat>): (m: map<string, bool>)
    ensures m.Keys == DpadKeys
    ensures !(m[DpadLeft] && m[DpadRight])
    ensures !(m[DpadUp] && m[DpadDown])
  {
    if hats == [] then
      map[DpadUp := false, DpadDown := false, DpadLeft := false, DpadRight := false]
    else
      var h := hats[0];
      map[DpadUp := h.y == 1, DpadDown := h.y == -1, DpadLeft := h.x == -1, DpadRight := h.x == 1]
  }

  /** Each direction is pressed exactly when the first hat points that way. */
  lemma DpadMapping(hats: seq<Hat>)
    ensures hats == [] ==> forall k :: k in DpadKeys ==> !DpadButtonStates(hats)[k]
    ensures hats != [] ==>
      && (DpadButtonStates(hats)[DpadLeft] <==> hats[0].x == -1)
      && (DpadButtonStates(hats)[DpadRight] <==> hats[0].x == 1)
      && (DpadButtonStates(hats)[DpadDown] <==> hats[0].y == -1)
      && (DpadButtonStates(hats)[DpadUp] <==> hats[0].y == 1)
  {
  }

  /** Hats after the first never influence the D-pad buttons. */
  lemma DpadFirstHatOnly(hats: seq<Hat>, others: seq<Hat>)
    requires hats != [] && others != [] && hats[0] == others[0]
    ensures DpadButtonStates(hats) == DpadButtonStates(others)
  {
  }

  /**
   * `get_hat_as_axis`: the chosen hat as a stick position (x, -y), and the
   * centre when there is no reading or the index is past the last hat.
   */
  function HatAsAxis(hats: seq<Hat>, hatIndex: nat): (r: (real, real))
    ensures hatIndex < |hats| ==> r == (hats[hatIndex].x as real, -(hats[hatIndex].y as real))
    ensures |hats| <= hatIndex ==> r == (0.0, 0.0)
  {
    if hats == [] || hatIndex >= |hats| then (0.0, 0.0)
    else (hats[hatIndex].x as real, -(hats[hatIndex].y as real))
  }

  /**
   * The two helpers read the vertical direction with opposite signs: the hat
   * position that `get_dpad_button_states` calls "up" is a negative vertical
   * value for `get_hat_as_axis`, and "left" is a negative horizontal value.
   */
  lemma HatAxisAgreesWithDpad(hats: seq<Hat>)
    requires hats != []
    requires -1 <= hats[0].x <= 1 && -1 <= hats[0].y <= 1
    ensures DpadButtonStates(hats)[DpadUp] <==> HatAsAxis(hats, 0).1 < 0.0
    ensures DpadButtonStates(hats)[DpadDown] <==> HatAsAxis(hats, 0).1 > 0.0
    ensures DpadButtonStates(hats)[DpadLeft] <==> HatAsAxis(hats, 0).0 < 0.0
    ensures DpadButtonStates(hats)[DpadRight] <==> HatAsAxis(hats, 0).0 > 0.0
  {
  }

  /**
   * The axis-index logic of `get_axes`: no reading with fewer than two axes;
   * if either configured index is past the last axis, both fall back to
   * (0, 1); a negative index makes the library raise, which the method
   * catches and reports as no reading.
   */
  function ReadAxes(axes: seq<real>, axisX: int, axisY: int): (r: Option<(real, real)>)
    ensures r.Some? ==> 2 <= |axes|
  {
    if |axes| < 2 then None
    else if axisX >= |axes| || axisY >= |axes| then Some((axes[0], axes[1]))
    else if axisX < 0 || axisY < 0 then None
    else Some((axes[axisX], axes[axisY]))
  }

  /** The cases of `ReadAxes`, as the configured indices relate to the axis count. */
  lemma ReadAxesCases(axes: seq<real>, axisX: int, axisY: int)
    ensures |axes| < 2 ==> ReadAxes(axes, axisX, axisY) == None
    ensures 2 <= |axes| && (axisX >= |axes| || axisY >= |axes|) ==>
      ReadAxes(axes, axisX, axisY) == Some((axes[0], axes[1]))
    ensures 2 <= |axes| && 0 <= axisX < |axes| && 0 <= axisY < |axes| ==>
      ReadAxes(axes, axisX, axisY) == Some((axes[axisX], axes[axisY]))
    ensures ReadAxes(axes, axisX, axisY) == None <==>
      |axes| < 2 || (axisX < |axes| && axisY < |axes| && (axisX < 0 || axisY < 0))
  {
  }

  /** The generic names of the first six axes of a typical game pad. */
  const CommonAxisNames: seq<string> := [
    "左スティック左右 (X)",
    "左スティック上下 (Y)",
    "右スティック左右 (X)",
    "右スティック上下 (Y)",
    "L2/RT (アナログ)",
    "R2/LT (アナログ)"]

  /** The label of axis `i` in the axis dropdowns. */
  function AxisLabel(i: nat): string {
    if i < |CommonAxisNames| then "軸" + Text.NatToString(i) + ": " + CommonAxisNames[i]
    else "軸" + Text.NatToString(i)
  }

  /** The labels of axes 0 to `count - 1`, in order. */
  function AxisLabels(count: nat): (labels: seq<string>)
    ensures |labels| == count
    ensures forall i :: 0 <= i < count ==> labels[i] == AxisLabel(i)
  {
    if count == 0 then [] else AxisLabels(count - 1) + [AxisLabel(count - 1)]
  }

  /** Different axes get different labels, so a dropdown entry names one axis. */
  lemma AxisLabelsDistinct(i: nat, j: nat)
    requires i != j
    ensures AxisLabel(i) != AxisLabel(j)
  {
    var di, dj := Text.NatToString(i), Text.NatToString(j);
    var li, lj := AxisLabel(i), AxisLabel(j);
    if |di| == |dj| {
      if li == lj {
        assert di == li[1..1 + |di|] == lj[1..1 + |dj|] == dj;
        Text.NatToStringInjective(i, j);
      }
    } else if |di| < |dj| {
      assert Text.IsDigit(lj[1 + |di|]);
      if 1 + |di| < |li| {
        assert li[1 + |di|] == ':';
      }
    } else {
      assert Text.IsDigit(li[1 + |dj|]);
      if 1 + |dj| < |lj| {
        assert lj[1 + |dj|] == ':';
      }
    }
  }

  /** `bool(get_button(i))` with the library's range check: out of range raises. */
  function ButtonPressed(buttons: seq<int>, index: int): (pressed: bool)
    ensures pressed ==> 0 <= index < |buttons|
  {
    0 <= index < |buttons| && buttons[index] != 0
  }

  /**
   * Where `get_joysticks` points the manager among `count` devices: a
   * configured index at or past the end falls back to the first device, and
   * a negative one counts from the end as a Python list index does; one
   * before the start raises, which the method catches.
   */
  function SelectedDevice(count: nat, selected: int): (r: Option<nat>)
    requires 0 < count
    ensures r.Some? ==> r.value < count
    ensures selected >= count ==> r == Some(0)
    ensures 0 <= selected < count ==> r == Some(selected)
  {
    if selected >= count then Some(0)
    else if selected >= 0 then Some(selected)
    else if selected >= -(count as int) then Some(count + selected)
    else None
  }

  /**
   * The step of `quit_pygame` that raises, if any: releasing the device, or
   * shutting down the library after the device is already released.
   */
  datatype QuitFailure = NoFailure | DeviceReleaseFails | LibraryQuitFails

  class Manager {
    /** The position of the selected device among those found, or none. */
    var joystick: Option<nat>
    var isInitialized: bool

    /** The one manager instance: no device, library not initialized. */
    constructor ()
      ensures joystick == None && !isInitialized
    {
      joystick := None;
      isInitialized := false;
    }

    /**
     * `initialize_pygame`: nothing to do when already initialized or when the
     * library is missing; otherwise the manager is initialized exactly when
     * the library's initialization succeeds.
     */
    method InitializePygame(libraryPresent: bool, initSucceeds: bool)
      modifies this`isInitialized
      ensures isInitialized == (old(isInitialized) || (libraryPresent && initSucceeds))
    {
      if isInitialized {
        return;
      }
      if !libraryPresent {
        return;
      }
      if initSucceeds {
        isInitialized := true;
      } else {
        isInitialized := false;
      }
    }

    /**
     * `get_joysticks` with `count` devices attached: returns how many device
     * handles it lists, and points `joystick` at the configured one. With no
     * library, no device, or an index that raises, it lists none.
     */
    method GetJoysticks(libraryPresent: bool, count: nat, selected: int) returns (found: nat)
      modifies this`joystick
      ensures found == if libraryPresent && 0 < count && SelectedDevice(count, selected).Some? then count else 0
      ensures found > 0 ==> joystick == SelectedDevice(count, selected)
      ensures found == 0 ==> joystick == old(joystick)
    {
      if !libraryPresent {
        return 0;
      }
      if count == 0 {
        return 0;
      }
      var index := selected;
      if index >= count {
        index := 0;
      }
      if index < -(count as int) {
        return 0;
      }
      joystick := Some(if index < 0 then count + index else index);
      found := count;
    }

    /**
     * `quit_pygame`. The device is released first, then the library's
     * joystick part and the library itself are shut down, and only then is
     * the manager marked uninitialized; an exception at any of these steps
     * is caught and ends the method there. Without the library nothing
     * happens.
     */
    method QuitPygame(libraryPresent: bool, failure: QuitFailure)
      modifies this
      ensures !libraryPresent ==> joystick == old(joystick) && isInitialized == old(isInitialized)
      ensures libraryPresent ==>
        var releaseFails := failure == DeviceReleaseFails && old(joystick).Some?;
        && joystick == (if releaseFails then old(joystick) else None)
        && isInitialized == (if failure == NoFailure || (failure == DeviceReleaseFails && !releaseFails) then false else old(isInitialized))
      ensures libraryPresent && failure != DeviceReleaseFails ==> !Ready()
    {
      if !libraryPresent {
        return;
      }
      if joystick.Some? {
        if failure == DeviceReleaseFails {
          return;
        }
        joystick := None;
      }
      if failure == LibraryQuitFails {
        return;
      }
      isInitialized := false;
    }

    /** A device is selected and the library is initialized. */
    predicate Ready()
      reads this
    {
      joystick.Some? && isInitialized
    }

    /**
     * `get_axis_names`: one label per axis of the selected device, and none
     * without a device.
     */
    method GetAxisNames(dev: Device) returns (names: seq<string>)
      ensures joystick == None ==> names == []
      ensures joystick != None ==> |names| == |dev.axes|
      ensures forall i :: 0 <= i < |names| ==> names[i] == AxisLabel(i)
    {
      names := [];
      if joystick == None {
        return;
      }
      for i := 0 to |dev.axes|
        invariant names == AxisLabels(i)
      {
        names := names + [AxisLabel(i)];
      }
    }

    /**
     * `get_button_state`: false without a ready device and for an index
     * outside the device's buttons; otherwise the reading.
     */
    method GetButtonState(dev: Device, index: int) returns (pressed: bool)
      ensures pressed <==> Ready() && 0 <= index < |dev.buttons| && dev.buttons[index] != 0
    {
      if !Ready() {
        return false;
      }
      if index >= |dev.buttons| {
        return false;
      }
      pressed := ButtonPressed(dev.buttons, index);
    }

    /**
     * `get_all_button_states`: one entry per button of a ready device, each
     * what `get_button_state` reports for that index; empty otherwise.
     */
    method GetAllButtonStates(dev: Device) returns (states: seq<bool>)
      ensures !Ready() ==> states == []
      ensures Ready() ==> |states| == |dev.buttons|
      ensures forall i :: 0 <= i < |states| ==> states[i] == ButtonPressed(dev.buttons, i)
      ensures |states| == ButtonCount(dev)
    {
      states := [];
      if !Ready() {
        return;
      }
      var i := 0;
      while i < |dev.buttons|
        invariant 0 <= i <= |dev.buttons|
        invariant |states| == i
        invariant forall k :: 0 <= k < i ==> states[k] == ButtonPressed(dev.buttons, k)
      {
        states := states + [dev.buttons[i] != 0];
        i := i + 1;
      }
    }

    /** `get_button_count`: the number of buttons of a ready device, 0 otherwise. */
    function ButtonCount(dev: Device): (count: nat)
      reads this
      ensures count > 0 ==> Ready()
    {
      if Ready() then |dev.buttons| else 0
    }

    /**
     * `get_hat_values` as the D-pad reader sees it: the device's hats when it
     * is ready, and no reading (`[]`) otherwise.
     */
    function HatValues(dev: Device): (hats: seq<Hat>)
      reads this
      ensures !Ready() ==> hats == []
      ensures Ready() ==> hats == dev.hats
    {
      if Ready() then dev.hats else []
    }
  }
}

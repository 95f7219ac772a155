/**
 * The settings dialog's OK handler, from the controller selection to the
 * D-pad table. The button and D-pad tables are rebuilt from the dialog's
 * dropdowns and replace the old tables wholesale.
 */
module SettingsDialog {
  import opened Optional
  import opened Dicts
  import opened Config
  import opened DialogInputs

  /** The button slots the dialog offers, in order. */
  const ButtonSlots: seq<int> := [0, 1, 2, 3, 4, 5, 6, 7, 8, 9]

  /** The D-pad directions the dialog offers, in order. */
  const DpadDirections: seq<string> := ["dpad_up", "dpad_down", "dpad_left", "dpad_right"]

  /** The dropdown of a D-pad direction, `f'{direction}_function'`. */
  function DirectionControl(direction: string): string {
    direction + "_function"
  }

  /**
   * The function a dropdown assigns: the id of the entry at the selected
   * position of the function list. A missing dropdown, no selection, a
   * position past the end of the list, or "none" assign nothing.
   */
  function Chosen(inputs: Inputs, control: string): (r: Option<string>)
    ensures r.Some? ==> r.value in FunctionIds && r.value != "none"
  {
    var item := Selection(inputs, control);
    if item.Some? && item.value.index < |AvailableFunctions| && AvailableFunctions[item.value.index].1 != "none"
    then
      assert AvailableFunctions[item.value.index].1 in Values(AvailableFunctions);
      Some(AvailableFunctions[item.value.index].1)
    else None
  }

  /** The table built from `keys` in order, each key's dropdown read through `control`. */
  function Rebuilt<K(==)>(inputs: Inputs, keys: seq<K>, control: K -> string): Dict<K, string> {
    if |keys| == 0 then []
    else
      var table := Rebuilt(inputs, keys[..|keys| - 1], control);
      var k := keys[|keys| - 1];
      match Chosen(inputs, control(k))
      case Some(id) => Put(table, k, id)
      case None => table
  }

  /**
   * A rebuilt table maps exactly the offered keys whose dropdown chooses a
   * function, to that function; it holds ids only, never "none", and no key
   * twice.
   */
  lemma {:induction false} RebuiltTable<K>(inputs: Inputs, keys: seq<K>, control: K -> string)
    requires forall i, j :: 0 <= i < j < |keys| ==> keys[i] != keys[j]
    ensures var r := Rebuilt(inputs, keys, control);
      IdTable(r) && "none" !in Values(r)
    ensures forall k :: Get(Rebuilt(inputs, keys, control), k) == (if k in keys then Chosen(inputs, control(k)) else None)
  {
    var r := Rebuilt(inputs, keys, control);
    if |keys| > 0 {
      var prefix := keys[..|keys| - 1];
      var last := keys[|keys| - 1];
      var t := Rebuilt(inputs, prefix, control);
      RebuiltTable(inputs, prefix, control);
      assert last !in prefix;
      assert forall k :: k in keys <==> k in prefix || k == last;
      match Chosen(inputs, control(last))
      case Some(id) =>
        PutDistinct(t, last, id);
        PutValues(t, last, id);
        forall k ensures Get(r, k) == (if k in keys then Chosen(inputs, control(k)) else None) {
          PutGet(t, last, id, k);
        }
      case None =>
    }
  }

  /** The settings after OK, for the fields this part of the handler writes. */
  function SettingsApplied(s: Settings, inputs: Inputs): Settings {
    s.(
      selectedJoystick := ChosenJoystick(s.selectedJoystick, Selection(inputs, "joystick_selection")),
      axisX := Or(SelectedIndex(inputs, "axis_x_selection"), s.axisX),
      axisY := Or(SelectedIndex(inputs, "axis_y_selection"), s.axisY),
      showWelcomeMessage := Or(Checked(inputs, "show_welcome_message"), s.showWelcomeMessage),
      autoResetEnabled := Or(Checked(inputs, "auto_reset_enable"), s.autoResetEnabled),
      autoResetInterval := Or(SpinnerValue(inputs, "auto_reset_interval"), s.autoResetInterval),
      buttonEnabled := Or(Checked(inputs, "button_enabled"), s.buttonEnabled),
      buttonAssignments := Rebuilt(inputs, ButtonSlots, ButtonControl),
      dpadEnabled := Or(Checked(inputs, "dpad_enabled"), s.dpadEnabled),
      dpadAssignments := Rebuilt(inputs, DpadDirections, DirectionControl))
  }

  /** The position of the selected item of dropdown `id`. */
  function SelectedIndex(inputs: Inputs, id: string): Option<int> {
    var item := Selection(inputs, id);
    if item.Some? then Some(item.value.index) else None
  }

  /**
   * After OK, button `k` is assigned exactly when it is one of slots 0 to 9
   * and its dropdown chooses a function; whatever the old table held for
   * other buttons is gone. The table holds no "none" and no key twice.
   */
  lemma SettingsDialogButtons(s: Settings, inputs: Inputs)
    ensures var r := SettingsApplied(s, inputs);
      IdTable(r.buttonAssignments) && "none" !in Values(r.buttonAssignments)
    ensures var r := SettingsApplied(s, inputs);
      forall k :: Get(r.buttonAssignments, k) == (if 0 <= k < 10 then Chosen(inputs, ButtonControl(k)) else None)
  {
    RebuiltTable(inputs, ButtonSlots, ButtonControl);
    forall k ensures k in ButtonSlots <==> 0 <= k < 10 {
      if 0 <= k < 10 {
        assert ButtonSlots[k] == k;
      }
    }
  }

  /**
   * After OK, the D-pad table has only the four directions as keys, each
   * mapped to the function its dropdown chooses, and holds no "none".
   */
  lemma SettingsDialogDpad(s: Settings, inputs: Inputs)
    ensures var r := SettingsApplied(s, inputs);
      IdTable(r.dpadAssignments) && "none" !in Values(r.dpadAssignments)
    ensures var r := SettingsApplied(s, inputs);
      forall d :: Get(r.dpadAssignments, d) == (if d in DpadDirections then Chosen(inputs, DirectionControl(d)) else None)
  {
    RebuiltTable(inputs, DpadDirections, DirectionControl);
  }

  /** The loop over `keys` that fills a fresh dictionary. */
  method RebuildTable<K(==)>(inputs: Inputs, keys: seq<K>, control: K -> string) returns (table: Dict<K, string>)
    ensures table == Rebuilt(inputs, keys, control)
  {
    table := [];
    for i := 0 to |keys|
      invariant table == Rebuilt(inputs, keys[..i], control)
    {
      assert keys[..i + 1][..i] == keys[..i];
      var choice := Chosen(inputs, control(keys[i]));
      if choice.Some? {
        table := Put(table, keys[i], choice.value);
      }
    }
    assert keys[..|keys|] == keys;
  }

  /** The OK handler's writes to the global settings. */
  method ApplySettingsDialog(cfg: Config, inputs: Inputs)
    modifies cfg
    ensures cfg.State() == SettingsApplied(old(cfg.State()), inputs)
  {
    ApplyDeviceChoices(cfg, inputs);
    ApplyToggles(cfg, inputs);
    ApplyTables(cfg, inputs);
  }

  /** The rebuilt button table, the D-pad's enabled flag and the rebuilt D-pad table. */
  method ApplyTables(cfg: Config, inputs: Inputs)
    modifies cfg
    ensures cfg.State() == old(cfg.State()).(
      buttonAssignments := Rebuilt(inputs, ButtonSlots, ButtonControl),
      dpadEnabled := Or(Checked(inputs, "dpad_enabled"), old(cfg.dpadEnabled)),
      dpadAssignments := Rebuilt(inputs, DpadDirections, DirectionControl))
  {
    var buttons := RebuildTable(inputs, ButtonSlots, ButtonControl);
    cfg.buttonAssignments := buttons;
    cfg.dpadEnabled := Or(Checked(inputs, "dpad_enabled"), cfg.dpadEnabled);
    var dpad := RebuildTable(inputs, DpadDirections, DirectionControl);
    cfg.dpadAssignments := dpad;
  }

  /** The controller, guarded against the "no controller" label, and the two axes. */
  method ApplyDeviceChoices(cfg: Config, inputs: Inputs)
    modifies cfg
    ensures cfg.State() == old(cfg.State()).(
      selectedJoystick := ChosenJoystick(old(cfg.selectedJoystick), Selection(inputs, "joystick_selection")),
      axisX := Or(SelectedIndex(inputs, "axis_x_selection"), old(cfg.axisX)),
      axisY := Or(SelectedIndex(inputs, "axis_y_selection"), old(cfg.axisY)))
  {
    cfg.selectedJoystick := ChosenJoystick(cfg.selectedJoystick, Selection(inputs, "joystick_selection"));
    cfg.axisX := Or(SelectedIndex(inputs, "axis_x_selection"), cfg.axisX);
    cfg.axisY := Or(SelectedIndex(inputs, "axis_y_selection"), cfg.axisY);
  }

  /** The welcome message, the automatic reset and the buttons' enabled flag. */
  method ApplyToggles(cfg: Config, inputs: Inputs)
    modifies cfg
    ensures cfg.State() == old(cfg.State()).(
      showWelcomeMessage := Or(Checked(inputs, "show_welcome_message"), old(cfg.showWelcomeMessage)),
      autoResetEnabled := Or(Checked(inputs, "auto_reset_enable"), old(cfg.autoResetEnabled)),
      autoResetInterval := Or(SpinnerValue(inputs, "auto_reset_interval"), old(cfg.autoResetInterval)),
      buttonEnabled := Or(Checked(inputs, "button_enabled"), old(cfg.buttonEnabled)))
  {
    cfg.showWelcomeMessage := Or(Checked(inputs, "show_welcome_message"), cfg.showWelcomeMessage);
    cfg.autoResetEnabled := Or(Checked(inputs, "auto_reset_enable"), cfg.autoResetEnabled);
    cfg.autoResetInterval := Or(SpinnerValue(inputs, "auto_reset_interval"), cfg.autoResetInterval);
    cfg.buttonEnabled := Or(Checked(inputs, "button_enabled"), cfg.buttonEnabled);
  }
}

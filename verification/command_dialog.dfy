/**
 * The quick settings dialog's OK handler, for the controller selection, the
 * axes and the button table. Unlike the settings dialog it updates the
 * button table in place: slots 0 to 7 are rewritten from their dropdowns by
 * display name, every other entry stays as it was.
 */
module CommandDialog {
  import opened Optional
  import opened Dicts
  import opened Config
  import opened DialogInputs
  import SettingsDialog

  /** The number of button dropdowns the dialog offers. */
  const CommandSlots: nat := 8

  /**
   * The id of the first function whose display name is `name`, or "none"
   * when no entry has that name.
   */
  function FunctionNamed(name: string): (id: string)
    ensures id in FunctionIds
  {
    match Get(AvailableFunctions, name)
    case Some(id) => id
    case None => NoneIsFirst(); "none"
  }

  /** Each display name of the function list names the id in its own entry. */
  lemma FunctionNamedByTable(i: nat)
    requires i < |AvailableFunctions|
    ensures FunctionNamed(AvailableFunctions[i].0) == AvailableFunctions[i].1
  {
    DisplayNamesDistinct();
    GetDistinct(AvailableFunctions, i);
  }

  /**
   * A name resolves to "none" exactly when it is the "no function" entry's
   * name or no entry's name at all.
   */
  lemma FunctionNamedNone(name: string)
    ensures FunctionNamed(name) == "none" <==>
      name == AvailableFunctions[0].0 || name !in Keys(AvailableFunctions)
  {
    NoneIsFirst();
    IdsDistinct();
    DisplayNamesDistinct();
    GetDistinct(AvailableFunctions, 0);
    var g := Get(AvailableFunctions, name);
    if g.Some? && g.value == "none" {
      var i :| 0 <= i < |AvailableFunctions| && AvailableFunctions[i] == (name, g.value);
      assert AvailableFunctions[i].1 == AvailableFunctions[0].1;
    }
  }

  /** What a selected item assigns to its slot: nothing for "none", otherwise its id. */
  function NewAssignment(item: ListItem): Option<string> {
    var id := FunctionNamed(item.name);
    if id == "none" then None else Some(id)
  }

  /** Button `slot`'s entry after OK, given its entry before. */
  function SlotOutcome(current: Option<string>, inputs: Inputs, slot: int): Option<string> {
    match Selection(inputs, ButtonControl(slot))
    case None => current
    case Some(item) => NewAssignment(item)
  }

  /**
   * The table after the dropdown of `slot` is read: unchanged without a
   * selection; a "none" resolution deletes the slot's entry when there is
   * one; any other id is stored under the slot.
   */
  function SlotUpdated(d: Dict<int, string>, inputs: Inputs, slot: int): Dict<int, string> {
    match Selection(inputs, ButtonControl(slot))
    case None => d
    case Some(item) =>
      var id := FunctionNamed(item.name);
      if id == "none" then
        if slot in Keys(d) then Delete(d, slot) else d
      else Put(d, slot, id)
  }

  /** The table after slots 0 to `n - 1` are read in order. */
  function SlotsUpdated(d: Dict<int, string>, inputs: Inputs, n: nat): Dict<int, string> {
    if n == 0 then d else SlotUpdated(SlotsUpdated(d, inputs, n - 1), inputs, n - 1)
  }

  /** Reading one slot changes that slot's entry to its outcome and no other entry. */
  lemma SlotUpdatedGet(t: Dict<int, string>, inputs: Inputs, slot: int, k: int)
    ensures Get(SlotUpdated(t, inputs, slot), k) ==
      (if k == slot then SlotOutcome(Get(t, k), inputs, k) else Get(t, k))
  {
    match Selection(inputs, ButtonControl(slot))
    case None =>
    case Some(item) =>
      var id := FunctionNamed(item.name);
      if id == "none" {
        if slot in Keys(t) {
          DeleteGet(t, slot, k);
        }
      } else {
        PutGet(t, slot, id, k);
      }
  }

  /**
   * After slots 0 to `n - 1` are read, each of them holds what its dropdown
   * says (or what it held, without a selection), and every other key keeps
   * its entry.
   */
  lemma {:induction false} SlotsUpdatedGet(d: Dict<int, string>, inputs: Inputs, n: nat)
    ensures forall k ::
              Get(SlotsUpdated(d, inputs, n), k) == (if 0 <= k < n then SlotOutcome(Get(d, k), inputs, k) else Get(d, k))
  {
    if n > 0 {
      SlotsUpdatedGet(d, inputs, n - 1);
      forall k ensures Get(SlotsUpdated(d, inputs, n), k) ==
          (if 0 <= k < n then SlotOutcome(Get(d, k), inputs, k) else Get(d, k))
      {
        SlotUpdatedGet(SlotsUpdated(d, inputs, n - 1), inputs, n - 1, k);
      }
    }
  }

  /** Reading one slot keeps a table free of repeated keys and of unknown ids. */
  lemma SlotUpdatedIdTable(t: Dict<int, string>, inputs: Inputs, slot: int)
    requires IdTable(t)
    ensures IdTable(SlotUpdated(t, inputs, slot))
  {
    match Selection(inputs, ButtonControl(slot))
    case None =>
    case Some(item) =>
      var id := FunctionNamed(item.name);
      if id == "none" {
        if slot in Keys(t) {
          DeleteDistinct(t, slot);
          DeleteValues(t, slot);
        }
      } else {
        PutDistinct(t, slot, id);
        PutValues(t, slot, id);
      }
  }

  /** Reading slots keeps a table free of repeated keys and of unknown ids. */
  lemma {:induction false} SlotsUpdatedIdTable(d: Dict<int, string>, inputs: Inputs, n: nat)
    requires IdTable(d)
    ensures IdTable(SlotsUpdated(d, inputs, n))
  {
    if n > 0 {
      SlotsUpdatedIdTable(d, inputs, n - 1);
      SlotUpdatedIdTable(SlotsUpdated(d, inputs, n - 1), inputs, n - 1);
    }
  }

  /** The settings after OK, for the fields this part of the handler writes. */
  function CommandApplied(s: Settings, inputs: Inputs): Settings {
    s.(
      selectedJoystick := ChosenJoystick(s.selectedJoystick, Selection(inputs, "joystick_selection")),
      axisX := Or(SettingsDialog.SelectedIndex(inputs, "axis_x_selection"), s.axisX),
      axisY := Or(SettingsDialog.SelectedIndex(inputs, "axis_y_selection"), s.axisY),
      buttonEnabled := Or(Checked(inputs, "button_enabled"), s.buttonEnabled),
      buttonAssignments := SlotsUpdated(s.buttonAssignments, inputs, CommandSlots))
  }

  /**
   * After OK, slots 0 to 7 with a selection hold the id their selected name
   * resolves to, or nothing for "none"; every other button keeps its old
   * entry; a table of known ids without repeated keys stays one.
   */
  lemma CommandDialogButtons(s: Settings, inputs: Inputs)
    ensures var r := CommandApplied(s, inputs);
      forall k ::
        Get(r.buttonAssignments, k) == (if 0 <= k < 8 then SlotOutcome(Get(s.buttonAssignments, k), inputs, k) else Get(s.buttonAssignments, k))
    ensures IdTable(s.buttonAssignments) ==> IdTable(CommandApplied(s, inputs).buttonAssignments)
  {
    SlotsUpdatedGet(s.buttonAssignments, inputs, CommandSlots);
    if IdTable(s.buttonAssignments) {
      SlotsUpdatedIdTable(s.buttonAssignments, inputs, CommandSlots);
    }
  }

  /**
   * The two dialogs read a dropdown alike when its list shows the function
   * list in order: the settings dialog by the selected position, this one by
   * the selected name.
   */
  lemma DialogsAgree(inputs: Inputs, control: string, i: nat)
    requires i < |AvailableFunctions|
    requires Selection(inputs, control) == Some(ListItem(i, AvailableFunctions[i].0))
    ensures SettingsDialog.Chosen(inputs, control) == NewAssignment(ListItem(i, AvailableFunctions[i].0))
  {
    FunctionNamedByTable(i);
  }

  /** The OK handler's writes to the global settings. */
  method ApplyCommandDialog(cfg: Config, inputs: Inputs)
    modifies cfg
    ensures cfg.State() == CommandApplied(old(cfg.State()), inputs)
  {
    ApplyCommandChoices(cfg, inputs);
    UpdateButtonSlots(cfg, inputs);
  }

  /** The controller, guarded against the "no controller" label, the two axes and the buttons' enabled flag. */
  method ApplyCommandChoices(cfg: Config, inputs: Inputs)
    modifies cfg
    ensures cfg.State() == old(cfg.State()).(
      selectedJoystick := ChosenJoystick(old(cfg.selectedJoystick), Selection(inputs, "joystick_selection")),
      axisX := Or(SettingsDialog.SelectedIndex(inputs, "axis_x_selection"), old(cfg.axisX)),
      axisY := Or(SettingsDialog.SelectedIndex(inputs, "axis_y_selection"), old(cfg.axisY)),
      buttonEnabled := Or(Checked(inputs, "button_enabled"), old(cfg.buttonEnabled)))
  {
    cfg.selectedJoystick := ChosenJoystick(cfg.selectedJoystick, Selection(inputs, "joystick_selection"));
    cfg.axisX := Or(SettingsDialog.SelectedIndex(inputs, "axis_x_selection"), cfg.axisX);
    cfg.axisY := Or(SettingsDialog.SelectedIndex(inputs, "axis_y_selection"), cfg.axisY);
    cfg.buttonEnabled := Or(Checked(inputs, "button_enabled"), cfg.buttonEnabled);
  }

  /** The loop over slots 0 to 7. */
  method UpdateButtonSlots(cfg: Config, inputs: Inputs)
    modifies cfg
    ensures cfg.State() == old(cfg.State()).(
      buttonAssignments := SlotsUpdated(old(cfg.buttonAssignments), inputs, CommandSlots))
  {
    for i := 0 to CommandSlots
      invariant cfg.State() == old(cfg.State()).(
        buttonAssignments := SlotsUpdated(old(cfg.buttonAssignments), inputs, i))
    {
      UpdateButtonSlot(cfg, inputs, i);
    }
  }

  /** One slot: delete its entry in place for "none", otherwise set it. */
  method UpdateButtonSlot(cfg: Config, inputs: Inputs, slot: int)
    modifies cfg
    ensures cfg.State() == old(cfg.State()).(
      buttonAssignments := SlotUpdated(old(cfg.buttonAssignments), inputs, slot))
  {
    var selection := Selection(inputs, ButtonControl(slot));
    if selection.Some? {
      var id := FunctionNamed(selection.value.name);
      if id == "none" {
        if slot in Keys(cfg.buttonAssignments) {
          cfg.buttonAssignments := Delete(cfg.buttonAssignments, slot);
        }
      } else {
        cfg.buttonAssignments := Put(cfg.buttonAssignments, slot, id);
      }
    }
  }
}

/**
 * What the two settings dialogs read when the user presses OK: their
 * command inputs by id, and the rule both apply to the controller
 * selection.
 */
module DialogInputs {
  import opened Optional
  import opened Text

  /** A dropdown's selected item: its position in the list and its label. */
  datatype ListItem = ListItem(index: nat, name: string)

  /** The kinds of command input the OK handlers read. */
  datatype CommandInput =
    | DropDown(selectedItem: Option<ListItem>)
    | CheckBox(checked: bool)
    | IntegerSpinner(count: int)

  /** `inputs.itemById(id)`: an id the dialog did not create is missing. */
  type Inputs = map<string, CommandInput>

  /** The selected item of the dropdown `id`, when it exists and has a selection. */
  function Selection(inputs: Inputs, id: string): Option<ListItem> {
    if id in inputs && inputs[id].DropDown? then inputs[id].selectedItem else None
  }

  /** The value of the check box `id`, when it exists. */
  function Checked(inputs: Inputs, id: string): Option<bool> {
    if id in inputs && inputs[id].CheckBox? then Some(inputs[id].checked) else None
  }

  /** The value of the integer spinner `id`, when it exists. */
  function SpinnerValue(inputs: Inputs, id: string): Option<int> {
    if id in inputs && inputs[id].IntegerSpinner? then Some(inputs[id].count) else None
  }

  /** The value an input supplies, or the current setting when it supplies none. */
  function Or<T>(o: Option<T>, current: T): T {
    if o.Some? then o.value else current
  }

  /** The label the controller list shows when no controller is connected. */
  const NoControllerLabel := "コントローラーが見つかりません"

  /** The dropdown of button `slot`, `f'button_{slot}_function'`. */
  function ButtonControl(slot: int): string {
    "button_" + IntToString(slot) + "_function"
  }

  /**
   * The controller index after OK: the selected item's index, unless
   * nothing is selected or the selection is the "no controller" label.
   */
  function ChosenJoystick(current: int, selection: Option<ListItem>): (r: int)
    ensures selection.None? ==> r == current
    ensures selection.Some? && selection.value.name == NoControllerLabel ==> r == current
    ensures selection.Some? && selection.value.name != NoControllerLabel ==> r == selection.value.index
  {
    if selection.Some? && selection.value.name != NoControllerLabel then selection.value.index else current
  }
}

/**
 * Which of the functions the dialogs offer the controller acts on.
 */
module ButtonFunctions {
  import opened Dicts
  import opened Config
  import opened CameraController

  /** The four vertical-axis turns offered in the function list. */
  const ClockwiseIds: set<string> := {
    "rotate_screen_clockwise", "rotate_screen_counter_clockwise",
    "smart_rotate_clockwise", "smart_rotate_counter_clockwise"}

  /**
   * Every offered id except "none" and the four clockwise turns has an
   * action, and every id with an action is offered; the clockwise turns
   * are only logged.
   */
  lemma OfferedFunctionsDispatched()
    ensures HandledFunctions == FunctionIds - ({"none"} + ClockwiseIds)
  {
    HandledAreOffered();
    OfferedAreHandledOrIdle();
    IdleAreNotHandled();
  }

  /** Entries 1 to 18 of the function list are the ids with an action. */
  lemma HandledAreOffered()
    ensures HandledFunctions <= FunctionIds
  {
    OfferedBetween1And6();
    OfferedBetween7And12();
    OfferedBetween13And18();
  }

  /** The ids of entries 1 to 6 are offered (and likewise below, six at a time). */
  lemma OfferedBetween1And6()
    ensures {"home_view", "fit_view", "nearest_viewcube", "viewcube_front", "viewcube_back", "viewcube_left"} <= FunctionIds
  {
    assert AvailableFunctions[1].1 in Values(AvailableFunctions);
    assert AvailableFunctions[2].1 in Values(AvailableFunctions);
    assert AvailableFunctions[3].1 in Values(AvailableFunctions);
    assert AvailableFunctions[4].1 in Values(AvailableFunctions);
    assert AvailableFunctions[5].1 in Values(AvailableFunctions);
    assert AvailableFunctions[6].1 in Values(AvailableFunctions);
  }

  lemma OfferedBetween7And12()
    ensures {"viewcube_right", "viewcube_top", "viewcube_bottom", "iso_view", "rotate_screen_right", "rotate_screen_left"} <= FunctionIds
  {
    assert AvailableFunctions[7].1 in Values(AvailableFunctions);
    assert AvailableFunctions[8].1 in Values(AvailableFunctions);
    assert AvailableFunctions[9].1 in Values(AvailableFunctions);
    assert AvailableFunctions[10].1 in Values(AvailableFunctions);
    assert AvailableFunctions[11].1 in Values(AvailableFunctions);
    assert AvailableFunctions[12].1 in Values(AvailableFunctions);
  }

  lemma OfferedBetween13And18()
    ensures {"smart_rotate_right", "smart_rotate_left", "rotate_screen_up", "rotate_screen_down", "smart_rotate_up", "smart_rotate_down"} <= FunctionIds
  {
    assert AvailableFunctions[13].1 in Values(AvailableFunctions);
    assert AvailableFunctions[14].1 in Values(AvailableFunctions);
    assert AvailableFunctions[15].1 in Values(AvailableFunctions);
    assert AvailableFunctions[16].1 in Values(AvailableFunctions);
    assert AvailableFunctions[17].1 in Values(AvailableFunctions);
    assert AvailableFunctions[18].1 in Values(AvailableFunctions);
  }

  /** Every offered id has an action, or is "none" or a clockwise turn. */
  lemma OfferedAreHandledOrIdle()
    ensures FunctionIds <= HandledFunctions + {"none"} + ClockwiseIds
  {
    assert forall i :: 0 <= i < |AvailableFunctions| ==>
      AvailableFunctions[i].1 in HandledFunctions + {"none"} + ClockwiseIds;
  }

  /** "none" and the clockwise turns have no action. */
  lemma IdleAreNotHandled()
    ensures "none" !in HandledFunctions && HandledFunctions !! ClockwiseIds
  {
  }
}

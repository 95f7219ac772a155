/**
 * The producer half of the mailbox: one iteration of the polling thread's
 * loop. It shapes the raw stick reading (dead zone, response curve,
 * smoothing against the previous iteration), copies the button and D-pad
 * readings into the mailbox, publishes or clears the stick position, and
 * chooses how long to sleep. The sleep itself, the loop around the
 * iteration and its exception handler are not part of the model.
 */
module JoystickThread {
  import opened Vectors
  import opened Optional
  import SharedState

  /** The settings one iteration reads from the configuration. */
  datatype PollSettings = PollSettings(
    deadZone: real,
    responseCurve: real,
    buttonEnabled: bool,
    dpadEnabled: bool)

  /** Sleep after an iteration that saw the stick moved, in seconds (50 Hz). */
  const ActiveInterval: real := 0.02
  /** Sleep after an idle iteration, in seconds (5 Hz). */
  const IdleInterval: real := 0.2
  /** A shaped coordinate at most this far from zero counts as no movement. */
  const MovementThreshold: real := 0.001

  /** The dead zone: a coordinate strictly inside it becomes 0. */
  function ApplyDeadZone(v: real, deadZone: real): (r: real)
    ensures r == 0.0 || r == v
    ensures Abs(v) < deadZone ==> r == 0.0
    ensures deadZone <= Abs(v) ==> r == v
  {
    if Abs(v) < deadZone then 0.0 else v
  }

  /** Applying the dead zone a second time changes nothing. */
  lemma DeadZoneIdempotent(v: real, deadZone: real)
    ensures ApplyDeadZone(ApplyDeadZone(v, deadZone), deadZone) == ApplyDeadZone(v, deadZone)
  {
  }

  /** The response curve: sign(v) * |v| ** exponent, for nonzero v only. */
  function ApplyCurve(v: real, exponent: real, n: Numerics): real {
    if v == 0.0 then 0.0
    else (if v > 0.0 then 1.0 else -1.0) * n.pow(Abs(v), exponent)
  }

  /** The curve keeps the sign of its input and maps 0 to 0. */
  lemma CurvePreservesSign(v: real, exponent: real, n: Numerics)
    requires PowSound(n)
    ensures v == 0.0 ==> ApplyCurve(v, exponent, n) == 0.0
    ensures v > 0.0 ==> ApplyCurve(v, exponent, n) > 0.0
    ensures v < 0.0 ==> ApplyCurve(v, exponent, n) < 0.0
  {
    if v != 0.0 {
      assert 0.0 < Abs(v);
      assert 0.0 < n.pow(Abs(v), exponent);
    }
  }

  /** With exponent 1 the curve is the identity (a linear response). */
  lemma CurveLinear(v: real, n: Numerics)
    requires PowSound(n)
    ensures ApplyCurve(v, 1.0, n) == v
  {
    if v != 0.0 {
      assert n.pow(Abs(v), 1.0) == Abs(v);
    }
  }

  /** Dead zone then curve on both coordinates; no reading is the centre. */
  function Shape(axes: Option<(real, real)>, s: PollSettings, n: Numerics): (real, real) {
    var (x, y) := if axes.Some? then axes.value else (0.0, 0.0);
    (ApplyCurve(ApplyDeadZone(x, s.deadZone), s.responseCurve, n),
     ApplyCurve(ApplyDeadZone(y, s.deadZone), s.responseCurve, n))
  }

  /**
   * Smoothing against the previous iteration's values, when there are any:
   * after a jump of more than 0.5 on either coordinate both move only 10%
   * of the way; otherwise each becomes 0.7 * previous + 0.3 * new.
   */
  function Smooth(prev: Option<(real, real)>, x: real, y: real): (real, real) {
    match prev
    case None => (x, y)
    case Some((px, py)) =>
      if Abs(x - px) > 0.5 || Abs(y - py) > 0.5 then (px + 0.1 * (x - px), py + 0.1 * (y - py))
      else (px * 0.7 + x * 0.3, py * 0.7 + y * 0.3)
  }

  predicate Between(a: real, b: real, r: real) {
    (a <= r <= b) || (b <= r <= a)
  }

  /**
   * Smoothing never overshoots: each smoothed coordinate lies between its
   * previous value and the new reading, and the first iteration passes the
   * reading through.
   */
  lemma SmoothBetween(prev: Option<(real, real)>, x: real, y: real)
    ensures prev == None ==> Smooth(prev, x, y) == (x, y)
    ensures prev.Some? ==> Between(prev.value.0, x, Smooth(prev, x, y).0)
    ensures prev.Some? ==> Between(prev.value.1, y, Smooth(prev, x, y).1)
  {
  }

  /** A steady reading is a fixed point of smoothing. */
  lemma SmoothSteady(px: real, py: real)
    ensures Smooth(Some((px, py)), px, py) == (px, py)
  {
  }

  /** A jump is limited to a tenth of its size, a small change to three tenths. */
  lemma SmoothStep(px: real, py: real, x: real, y: real)
    ensures var (sx, sy) := Smooth(Some((px, py)), x, y);
      if Abs(x - px) > 0.5 || Abs(y - py) > 0.5 then
        Abs(sx - px) == 0.1 * Abs(x - px) && Abs(sy - py) == 0.1 * Abs(y - py)
      else
        Abs(sx - px) == 0.3 * Abs(x - px) && Abs(sy - py) == 0.3 * Abs(y - py)
  {
  }

  /** The values one iteration publishes and remembers as the previous ones. */
  function Next(prev: Option<(real, real)>, axes: Option<(real, real)>, s: PollSettings, n: Numerics): (real, real) {
    var (x, y) := Shape(axes, s, n);
    Smooth(prev, x, y)
  }

  predicate Moving(x: real, y: real) {
    Abs(x) > MovementThreshold || Abs(y) > MovementThreshold
  }

  /**
   * `button_states[i] = pressed` for every reading i, on top of the
   * existing entries: readings overwrite their indices, other keys persist.
   */
  function Overlay(m: map<int, bool>, readings: seq<bool>): (r: map<int, bool>)
    ensures forall k :: k in r <==> k in m || 0 <= k < |readings|
    ensures forall i :: 0 <= i < |readings| ==> r[i] == readings[i]
    ensures forall k :: k in m && !(0 <= k < |readings|) ==> r[k] == m[k]
  {
    map k | k in m.Keys + Indices(|readings|) :: if 0 <= k < |readings| then readings[k] else m[k]
  }

  /** The indices 0 .. n - 1 of a list of length n. */
  function Indices(n: nat): (r: set<int>)
    ensures forall k :: k in r <==> 0 <= k < n
  {
    if n == 0 then {} else Indices(n - 1) + {n - 1}
  }

  lemma OverlayExtend(m: map<int, bool>, readings: seq<bool>, i: nat)
    requires i < |readings|
    ensures Overlay(m, readings[..i + 1]) == Overlay(m, readings[..i])[i := readings[i]]
  {
    var a, b := Overlay(m, readings[..i + 1]), Overlay(m, readings[..i])[i := readings[i]];
    assert a.Keys == b.Keys;
    forall k | k in a.Keys
      ensures a[k] == b[k]
    {
    }
  }

  /** Dead zone and response curve, coordinate by coordinate, as `run` applies them. */
  method ShapeReading(axes: Option<(real, real)>, s: PollSettings, n: Numerics) returns (x: real, y: real)
    ensures (x, y) == Shape(axes, s, n)
  {
    x, y := 0.0, 0.0;
    if axes.Some? {
      x, y := axes.value.0, axes.value.1;
    }
    if Abs(x) < s.deadZone {
      x := 0.0;
    }
    if Abs(y) < s.deadZone {
      y := 0.0;
    }
    if x != 0.0 {
      var sign := if x > 0.0 then 1.0 else -1.0;
      x := sign * n.pow(Abs(x), s.responseCurve);
    }
    if y != 0.0 {
      var sign := if y > 0.0 then 1.0 else -1.0;
      y := sign * n.pow(Abs(y), s.responseCurve);
    }
  }

  /** The loop `shared_state.button_states[i] = pressed` over the readings. */
  method CopyButtons(shared: SharedState.SharedState, buttons: seq<bool>)
    modifies shared`buttonStates
    ensures shared.buttonStates == Overlay(old(shared.buttonStates), buttons)
  {
    var i := 0;
    while i < |buttons|
      invariant 0 <= i <= |buttons|
      invariant shared.buttonStates == Overlay(old(shared.buttonStates), buttons[..i])
    {
      OverlayExtend(old(shared.buttonStates), buttons, i);
      shared.buttonStates := shared.buttonStates[i := buttons[i]];
      i := i + 1;
    }
    assert buttons[..i] == buttons;
  }

  /** The smoothing step of `run`, against the previous iteration's values. */
  method SmoothReading(prev: Option<(real, real)>, x0: real, y0: real) returns (x: real, y: real)
    ensures (x, y) == Smooth(prev, x0, y0)
  {
    x, y := x0, y0;
    if prev.Some? {
      var (px, py) := prev.value;
      if Abs(x - px) > 0.5 || Abs(y - py) > 0.5 {
        x := px + 0.1 * (x - px);
        y := py + 0.1 * (y - py);
      } else {
        x := px * 0.7 + x * 0.3;
        y := py * 0.7 + y * 0.3;
      }
    }
  }

  /**
   * The end of `run`: publish a moving position and mark it new, or clear a
   * stale non-zero position; returns the sleep interval.
   */
  method Publish(shared: SharedState.SharedState, x: real, y: real) returns (sleep: real)
    modifies shared`joystickX, shared`joystickY, shared`isDirty
    ensures
      if Moving(x, y) then
        && shared.joystickX == x && shared.joystickY == y && shared.isDirty
        && sleep == ActiveInterval
      else if old(shared.joystickX) != 0.0 || old(shared.joystickY) != 0.0 then
        && shared.joystickX == 0.0 && shared.joystickY == 0.0 && !shared.isDirty
        && sleep == IdleInterval
      else
        && shared.joystickX == old(shared.joystickX) && shared.joystickY == old(shared.joystickY)
        && shared.isDirty == old(shared.isDirty)
        && sleep == IdleInterval
  {
    if Abs(x) > MovementThreshold || Abs(y) > MovementThreshold {
      shared.joystickX := x;
      shared.joystickY := y;
      shared.isDirty := true;
      sleep := ActiveInterval;
    } else {
      if shared.joystickX != 0.0 || shared.joystickY != 0.0 {
        shared.joystickX := 0.0;
        shared.joystickY := 0.0;
        shared.isDirty := false;
      }
      sleep := IdleInterval;
    }
  }

  class JoystickThread {
    var deadZone: real
    /** `prev_x`/`prev_y`, which exist only after the first iteration. */
    var prev: Option<(real, real)>
    /** Whether `stop` has set the thread's stop event; `run` loops until it is. */
    var stopped: bool

    /** A thread uses the given dead zone, or the configured one when none is given. */
    constructor (deadZone: Option<real>, configuredDeadZone: real)
      ensures this.deadZone == if deadZone.Some? then deadZone.value else configuredDeadZone
      ensures prev == None && !stopped
    {
      this.deadZone := if deadZone.Some? then deadZone.value else configuredDeadZone;
      prev := None;
      stopped := false;
    }

    /** `stop`: sets the stop event; nothing else changes. */
    method Stop()
      modifies this`stopped
      ensures stopped
    {
      stopped := true;
    }

    /**
     * One iteration of `run`, given the configuration, the stick reading
     * (`None` when `get_axes` gives none), the button readings and the D-pad
     * states. Returns the number of seconds to sleep.
     */
    method Step(shared: SharedState.SharedState, s: PollSettings, axes: Option<(real, real)>,
                buttons: seq<bool>, dpad: map<string, bool>, n: Numerics) returns (sleep: real)
      modifies this`deadZone, this`prev, shared
      ensures deadZone == s.deadZone
      ensures prev == Some(Next(old(prev), axes, s, n))
      ensures var (x, y) := Next(old(prev), axes, s, n);
        if Moving(x, y) then
          && shared.joystickX == x && shared.joystickY == y && shared.isDirty
          && sleep == ActiveInterval
        else if old(shared.joystickX) != 0.0 || old(shared.joystickY) != 0.0 then
          && shared.joystickX == 0.0 && shared.joystickY == 0.0 && !shared.isDirty
          && sleep == IdleInterval
        else
          && shared.joystickX == old(shared.joystickX) && shared.joystickY == old(shared.joystickY)
          && shared.isDirty == old(shared.isDirty)
          && sleep == IdleInterval
      ensures shared.buttonStates == if s.buttonEnabled then Overlay(old(shared.buttonStates), buttons) else map[]
      ensures shared.dpadStates == if s.dpadEnabled then dpad else map[]
    {
      deadZone := s.deadZone;
      var x, y := ShapeReading(axes, s, n);
      if s.buttonEnabled {
        CopyButtons(shared, buttons);
      } else {
        shared.buttonStates := map[];
      }
      if s.dpadEnabled {
        shared.dpadStates := dpad;
      } else {
        shared.dpadStates := map[];
      }

      x, y := SmoothReading(prev, x, y);
      prev := Some((x, y));

      sleep := Publish(shared, x, y);
    }
  }
}

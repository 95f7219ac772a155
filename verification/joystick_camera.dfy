/**
 * The consumer half of the mailbox: the host's custom-event handler, run on
 * every timer tick. It checks the auto-reset deadline, rate-limits itself,
 * drains pending stick input into the camera controller, and fires the
 * functions assigned to buttons and D-pad directions on a press edge.
 *
 * The wall clock is a parameter, the configuration a snapshot value, and an
 * assignment dictionary is given as its entries in iteration order.
 */
module JoystickCamera {
  import opened Vectors
  import opened HostCamera
  import opened CameraController
  import opened SharedState

  /** The configuration values one tick reads. */
  datatype TickConfig = TickConfig(
    updateRate: real,
    autoResetEnabled: bool,
    autoResetInterval: int,
    controllerSettings: ControllerSettings,
    buttonEnabled: bool,
    buttonAssignments: seq<(int, string)>,
    dpadEnabled: bool,
    dpadAssignments: seq<(string, string)>)

  /** The cap the constructor puts on the initial update interval. */
  const InitialIntervalCap: real := 0.01

  function Min(a: real, b: real): real { if a <= b then a else b }

  /** `states.get(key, False)`. */
  function Pressed<K>(states: map<K, bool>, key: K): bool {
    if key in states then states[key] else false
  }

  /** Pressed now and not pressed at the previous tick. */
  predicate Edge(current: bool, previous: bool) {
    current && !previous
  }

  predicate RisingEdge<K>(current: map<K, bool>, previous: map<K, bool>, key: K) {
    Edge(Pressed(current, key), Pressed(previous, key))
  }

  /** The functions one assignment loop fires, in order. */
  function FiredFunctions<K>(assignments: seq<(K, string)>, current: map<K, bool>, previous: map<K, bool>): (r: seq<string>)
    ensures |r| <= |assignments|
    ensures forall j :: 0 <= j < |r| ==> r[j] != "none"
  {
    if |assignments| == 0 then []
    else
      var last := assignments[|assignments| - 1];
      FiredFunctions(assignments[..|assignments| - 1], current, previous)
        + (if last.1 != "none" && RisingEdge(current, previous, last.0) then [last.1] else [])
  }

  /**
   * A function fires exactly when some entry assigns it to a key whose
   * state rose since the previous tick, and it is not "none".
   */
  lemma {:induction false} FiredFunctionsExactly<K>(assignments: seq<(K, string)>, current: map<K, bool>,
                                                   previous: map<K, bool>, f: string)
    ensures f in FiredFunctions(assignments, current, previous) <==>
      f != "none" && exists e :: e in assignments && e.1 == f && RisingEdge(current, previous, e.0)
  {
    if |assignments| > 0 {
      var init := assignments[..|assignments| - 1];
      var last := assignments[|assignments| - 1];
      FiredFunctionsExactly(init, current, previous, f);
      assert assignments == init + [last];
      if f != "none" && (exists e :: e in assignments && e.1 == f && RisingEdge(current, previous, e.0)) {
        var e :| e in assignments && e.1 == f && RisingEdge(current, previous, e.0);
        if e != last {
          assert e in init;
        }
      }
    }
  }

  /** The camera after executing a sequence of function ids in order. */
  function ExecutedAll(names: seq<string>, c: CamState, host: Host, n: Numerics): CamState {
    if |names| == 0 then c
    else Executed(names[|names| - 1], ExecutedAll(names[..|names| - 1], c, host, n), host, n)
  }

  /**
   * One more assignment runs its function after those of the earlier
   * assignments, exactly when its key has a rising edge and it is not "none".
   */
  lemma FiredStep<K>(assignments: seq<(K, string)>, i: nat, current: map<K, bool>, previous: map<K, bool>,
                     c: CamState, host: Host, n: Numerics)
    requires i < |assignments|
    ensures ExecutedAll(FiredFunctions(assignments[..i + 1], current, previous), c, host, n) ==
      var before := ExecutedAll(FiredFunctions(assignments[..i], current, previous), c, host, n);
      if assignments[i].1 != "none" && RisingEdge(current, previous, assignments[i].0)
      then Executed(assignments[i].1, before, host, n) else before
  {
    var fired := FiredFunctions(assignments[..i], current, previous);
    var name := assignments[i].1;
    assert assignments[..i + 1][..i] == assignments[..i];
    assert assignments[..i + 1][i] == assignments[i];
    if name != "none" && RisingEdge(current, previous, assignments[i].0) {
      assert FiredFunctions(assignments[..i + 1], current, previous) == fired + [name];
      assert (fired + [name])[..|fired|] == fired;
    } else {
      assert FiredFunctions(assignments[..i + 1], current, previous) == fired;
    }
  }

  /**
   * The camera after one tick that is not rate-limited, the stick input
   * scaled by the controller's class-wide `scale`.
   */
  function TickCamera(c: CamState, dirty: bool, x: real, y: real, scale: real,
                      buttons: map<int, bool>, previousButtons: map<int, bool>,
                      dpad: map<string, bool>, previousDpad: map<string, bool>,
                      cfg: TickConfig, host: Host, n: Numerics): CamState
  {
    var moved := if dirty then Updated(c, x, y, scale, cfg.controllerSettings, host, n) else c;
    if !cfg.buttonEnabled then moved
    else
      var pressed := ExecutedAll(FiredFunctions(cfg.buttonAssignments, buttons, previousButtons), moved, host, n);
      if cfg.dpadEnabled then ExecutedAll(FiredFunctions(cfg.dpadAssignments, dpad, previousDpad), pressed, host, n)
      else pressed
  }

  /**
   * The D-pad loop is nested in the button branch: with buttons disabled no
   * D-pad function fires even when the D-pad is enabled.
   */
  lemma DisabledButtonsDisableDpad(c: CamState, dirty: bool, x: real, y: real, scale: real,
                                   buttons: map<int, bool>, previousButtons: map<int, bool>,
                                   dpad: map<string, bool>, previousDpad: map<string, bool>,
                                   cfg: TickConfig, host: Host, n: Numerics)
    requires !cfg.buttonEnabled
    ensures TickCamera(c, dirty, x, y, scale, buttons, previousButtons, dpad, previousDpad, cfg, host, n)
         == (if dirty then Updated(c, x, y, scale, cfg.controllerSettings, host, n) else c)
  {
  }

  /** How many ticks fire for one key, given its readings tick by tick. */
  function FireCount(readings: seq<bool>, previous: bool): nat {
    if |readings| == 0 then 0
    else (if Edge(readings[0], previous) then 1 else 0) + FireCount(readings[1..], readings[0])
  }

  function Repeat(b: bool, count: nat): (r: seq<bool>)
    ensures |r| == count && forall j :: 0 <= j < count ==> r[j] == b
  {
    if count == 0 then [] else [b] + Repeat(b, count - 1)
  }

  lemma {:induction false} HeldFiresNothing(count: nat)
    ensures FireCount(Repeat(true, count), true) == 0
  {
    if count > 0 {
      assert Repeat(true, count)[1..] == Repeat(true, count - 1);
      HeldFiresNothing(count - 1);
    }
  }

  lemma {:induction false} ReleasedFiresNothing(count: nat, rest: seq<bool>)
    ensures FireCount(Repeat(false, count) + rest, false) == FireCount(rest, false)
  {
    if count > 0 {
      assert (Repeat(false, count) + rest)[1..] == Repeat(false, count - 1) + rest;
      ReleasedFiresNothing(count - 1, rest);
    } else {
      assert Repeat(false, count) + rest == rest;
    }
  }

  /**
   * A button left up for a while and then held down fires once, however
   * long it is held, as long as the previous-state map is carried over.
   */
  lemma PressAndHoldFiresOnce(idle: nat, held: nat)
    requires held > 0
    ensures FireCount(Repeat(false, idle) + Repeat(true, held), false) == 1
  {
    ReleasedFiresNothing(idle, Repeat(true, held));
    assert Repeat(true, held)[1..] == Repeat(true, held - 1);
    HeldFiresNothing(held - 1);
  }

  /** Readings up, up, down, down, up fire exactly once. */
  lemma EdgeExample()
    ensures FireCount([false, false, true, true, false], false) == 1
  {
    assert [false, false, true, true, false] == Repeat(false, 2) + Repeat(true, 2) + [false];
    assert FireCount([true, true, false], false) == 1;
    ReleasedFiresNothing(2, [true, true, false]);
  }

  /** The state of `key` in each of a run of button maps, missing keys up. */
  function ReadingsOf<K>(states: seq<map<K, bool>>, key: K): (r: seq<bool>)
    ensures |r| == |states|
    ensures forall t :: 0 <= t < |states| ==> r[t] == Pressed(states[t], key)
  {
    if |states| == 0 then [] else [Pressed(states[0], key)] + ReadingsOf(states[1..], key)
  }

  /**
   * How many of a run of ticks fire the function of `entry`, when each tick
   * compares its map with the map of the tick before it (the map `notify`
   * keeps as its previous states) and the first tick with `previous`.
   */
  function TicksFiring<K>(entry: (K, string), states: seq<map<K, bool>>, previous: map<K, bool>): nat {
    if |states| == 0 then 0
    else
      var now := if FiredFunctions([entry], states[0], previous) == [entry.1] then 1 else 0;
      now + TicksFiring(entry, states[1..], states[0])
  }

  /**
   * Over a run of ticks that carry the previous states over, an assignment
   * fires exactly as often as its key's readings count edges.
   */
  lemma {:induction false} TicksFiringCountsEdges<K>(entry: (K, string), states: seq<map<K, bool>>,
                                                    previous: map<K, bool>)
    requires entry.1 != "none"
    ensures TicksFiring(entry, states, previous) == FireCount(ReadingsOf(states, entry.0), Pressed(previous, entry.0))
  {
    if |states| > 0 {
      TicksFiringCountsEdges(entry, states[1..], states[0]);
      assert ReadingsOf(states, entry.0)[1..] == ReadingsOf(states[1..], entry.0);
      assert [entry][..0] == [];
    }
  }

  class CameraUpdateHandler {
    const controller: CameraController
    var lastUpdateTime: real
    var updateInterval: real
    var prevButtonStates: map<int, bool>
    var prevDpadStates: map<string, bool>
    /** The module-wide time of the last automatic reset. */
    var lastResetTime: real

    constructor (now: real, lastResetTime: real, updateRate: real, rotationScale: real)
      ensures fresh(controller) && controller.rotationScale == rotationScale
      ensures lastUpdateTime == now && this.lastResetTime == lastResetTime
      ensures updateInterval == Min(updateRate, InitialIntervalCap)
      ensures prevButtonStates == map[] && prevDpadStates == map[]
    {
      controller := new CameraController(rotationScale);
      lastUpdateTime := now;
      this.lastResetTime := lastResetTime;
      updateInterval := Min(updateRate, InitialIntervalCap);
      prevButtonStates := map[];
      prevDpadStates := map[];
    }

    /** One assignment loop: fire each assigned function on its key's press edge. */
    method FireAll<K>(cam: Camera, assignments: seq<(K, string)>, current: map<K, bool>, previous: map<K, bool>,
                      host: Host, n: Numerics)
      modifies cam
      ensures cam.State() == ExecutedAll(FiredFunctions(assignments, current, previous), old(cam.State()), host, n)
    {
      var i := 0;
      while i < |assignments|
        invariant 0 <= i <= |assignments|
        invariant cam.State() == ExecutedAll(FiredFunctions(assignments[..i], current, previous), old(cam.State()), host, n)
      {
        var (key, name) := assignments[i];
        FiredStep(assignments, i, current, previous, old(cam.State()), host, n);
        if name != "none" {
          var currentPressed := Pressed(current, key);
          var previousPressed := Pressed(previous, key);
          if currentPressed && !previousPressed {
            controller.ExecuteButtonFunction(cam, name, host, n);
          }
        }
        i := i + 1;
      }
      assert assignments[..i] == assignments;
    }

    /** `notify`: one timer tick. Returns whether the automatic reset ran. */
    method Notify(cam: Camera, shared: SharedState, now: real, cfg: TickConfig, host: Host, n: Numerics)
      returns (reset: bool)
      modifies this, shared`isDirty, cam
      ensures updateInterval == cfg.updateRate
      ensures controller.rotationScale == old(controller.rotationScale)
      ensures reset == (cfg.autoResetEnabled && now - old(lastResetTime) > cfg.autoResetInterval as real * 60.0)
      ensures lastResetTime == (if reset then now else old(lastResetTime))
      ensures now - old(lastUpdateTime) < cfg.updateRate ==>
        && lastUpdateTime == old(lastUpdateTime)
        && prevButtonStates == old(prevButtonStates) && prevDpadStates == old(prevDpadStates)
        && shared.isDirty == old(shared.isDirty) && cam.State() == old(cam.State())
      ensures !(now - old(lastUpdateTime) < cfg.updateRate) ==>
        && lastUpdateTime == now
        && !shared.isDirty
        && prevButtonStates == (if cfg.buttonEnabled then shared.buttonStates else old(prevButtonStates))
        && prevDpadStates == (if cfg.buttonEnabled && cfg.dpadEnabled then shared.dpadStates else old(prevDpadStates))
        && cam.State() == TickCamera(old(cam.State()), old(shared.isDirty), shared.joystickX, shared.joystickY,
                                     controller.rotationScale,
                                     shared.buttonStates, old(prevButtonStates),
                                     shared.dpadStates, old(prevDpadStates), cfg, host, n)
    {
      updateInterval := cfg.updateRate;
      var elapsed := now - lastUpdateTime;
      reset := false;
      if cfg.autoResetEnabled {
        var resetIntervalSeconds := cfg.autoResetInterval as real * 60.0;
        if now - lastResetTime > resetIntervalSeconds {
          reset := true;
          lastResetTime := now;
        }
      }
      if elapsed < updateInterval {
        return;
      }
      if shared.isDirty {
        var x, y := shared.joystickX, shared.joystickY;
        controller.UpdateCameraPosition(cam, x, y, cfg.controllerSettings, host, n);
        shared.isDirty := false;
      }
      if cfg.buttonEnabled {
        var current := shared.buttonStates;
        FireAll(cam, cfg.buttonAssignments, current, prevButtonStates, host, n);
        prevButtonStates := current;
        if cfg.dpadEnabled {
          var currentDpad := shared.dpadStates;
          FireAll(cam, cfg.dpadAssignments, currentDpad, prevDpadStates, host, n);
          prevDpadStates := currentDpad;
        }
      }
      lastUpdateTime := now;
    }
  }
}

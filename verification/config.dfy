/**
 * The add-in's settings: the table of assignable functions, the global
 * settings the other modules read, and loading and saving them. Loading
 * converts each field with Python's conversions and keeps the previous
 * value where a conversion fails; button and D-pad assignment tables are
 * normalised so that they hold function ids only.
 */
module Config {
  import opened Optional
  import opened Text
  import opened Dicts
  import opened JsonValues

  /**
   * The functions a button or D-pad direction can be given, as (display
   * name, function id) items. Read as a dictionary it maps each display
   * name to its id.
   */
  const AvailableFunctions: Dict<string, string> := [
    ("機能なし", "none"),
    ("ホームビュー", "home_view"),
    ("フィットビュー", "fit_view"),
    ("最寄りのビューキューブ面", "nearest_viewcube"),
    ("ビューキューブ前面", "viewcube_front"),
    ("ビューキューブ背面", "viewcube_back"),
    ("ビューキューブ左面", "viewcube_left"),
    ("ビューキューブ右面", "viewcube_right"),
    ("ビューキューブ上面", "viewcube_top"),
    ("ビューキューブ下面", "viewcube_bottom"),
    ("アイソメトリックビュー", "iso_view"),
    ("画面右回転90度", "rotate_screen_right"),
    ("画面左回転90度", "rotate_screen_left"),
    ("スマート右回転90度", "smart_rotate_right"),
    ("スマート左回転90度", "smart_rotate_left"),
    ("画面上回転90度", "rotate_screen_up"),
    ("画面下回転90度", "rotate_screen_down"),
    ("スマート上回転90度", "smart_rotate_up"),
    ("スマート下回転90度", "smart_rotate_down"),
    ("画面垂直時計回り90度", "rotate_screen_clockwise"),
    ("画面垂直反時計回り90度", "rotate_screen_counter_clockwise"),
    ("スマート垂直時計回り90度", "smart_rotate_clockwise"),
    ("スマート垂直反時計回り90度", "smart_rotate_counter_clockwise")
  ]

  /** The function ids, `[func for _, func in AVAILABLE_FUNCTIONS]`. */
  const FunctionIds: set<string> := Values(AvailableFunctions)

  /** The first entry is "no function". */
  lemma NoneIsFirst()
    ensures AvailableFunctions[0] == ("機能なし", "none") && "none" in FunctionIds
  {
    assert AvailableFunctions[0].1 == "none";
  }

  /** The ids are pairwise distinct. */
  lemma IdsDistinct()
    ensures forall i, j :: 0 <= i < j < |AvailableFunctions| ==> AvailableFunctions[i].1 != AvailableFunctions[j].1
  {
  }

  /** The display names are pairwise distinct. */
  lemma DisplayNamesDistinct()
    ensures DistinctKeys(AvailableFunctions)
  {
    DisplayNamesDistinctFrom(0, 8);
    DisplayNamesDistinctFrom(8, 16);
    DisplayNamesDistinctFrom(16, 23);
  }

  /** The names in entries `lo` to `hi - 1` differ from every later name. */
  lemma DisplayNamesDistinctFrom(lo: nat, hi: nat)
    requires lo <= hi <= |AvailableFunctions| && hi - lo <= 8
    ensures forall i, j :: lo <= i < hi && i < j < |AvailableFunctions| ==>
      AvailableFunctions[i].0 != AvailableFunctions[j].0
  {
  }

  /** No display name is also an id (the names are Japanese, the ids ASCII). */
  lemma DisplayNamesAreNotIds()
    ensures forall i :: 0 <= i < |AvailableFunctions| ==> AvailableFunctions[i].0 !in FunctionIds
  {
    IdsStartLowerCase();
    DisplayNamesStartBeyondAscii();
    forall i, j | 0 <= i < |AvailableFunctions| && 0 <= j < |AvailableFunctions|
      ensures AvailableFunctions[i].0 != AvailableFunctions[j].1
    {
      assert AvailableFunctions[i].0[0] != AvailableFunctions[j].1[0];
    }
  }

  lemma IdsStartLowerCase()
    ensures forall j :: 0 <= j < |AvailableFunctions| ==>
      |AvailableFunctions[j].1| > 0 && 'a' <= AvailableFunctions[j].1[0] <= 'z'
  {
  }

  lemma DisplayNamesStartBeyondAscii()
    ensures forall i :: 0 <= i < |AvailableFunctions| ==>
      |AvailableFunctions[i].0| > 0 && AvailableFunctions[i].0[0] as int > 127
  {
  }

  /** A table every value of which is a function id, with no key twice. */
  predicate IdTable<K(==)>(d: Dict<K, string>) {
    DistinctKeys(d) && Values(d) <= FunctionIds
  }

  // ---------------------------------------------------------------------
  // Normalising an assignment table read from the file

  /** What the loader does with one assigned value. */
  datatype Resolution =
    | Assign(id: string)   // stored under its key
    | Drop                 // logged as invalid and skipped
    | Unhashable           // `v in display_name_to_function` raises TypeError

  /**
   * An id is kept as it is (`"none"` included), a display name becomes its
   * id, any other string or scalar is dropped, and an array or object
   * cannot be looked up in a dictionary at all.
   */
  function Resolve(v: Value): (r: Resolution)
    ensures r.Assign? ==> r.id in FunctionIds
  {
    if v.Str? && v.s in FunctionIds then Assign(v.s)
    else if v.Str? && v.s in Keys(AvailableFunctions) then Assign(Get(AvailableFunctions, v.s).value)
    else if v.Array? || v.Object? then Unhashable
    else Drop
  }

  /** Every id, and every display name, resolves to the id in its table entry. */
  lemma ResolveByTable(i: nat)
    requires i < |AvailableFunctions|
    ensures Resolve(Str(AvailableFunctions[i].1)) == Assign(AvailableFunctions[i].1)
    ensures Resolve(Str(AvailableFunctions[i].0)) == Assign(AvailableFunctions[i].1)
  {
    DisplayNamesDistinct();
    DisplayNamesAreNotIds();
    GetDistinct(AvailableFunctions, i);
    assert AvailableFunctions[i].0 !in FunctionIds;
    assert AvailableFunctions[i].0 in Keys(AvailableFunctions);
  }

  /** A string that is neither an id nor a display name is dropped. */
  lemma ResolveUnknown(s: string)
    requires s !in FunctionIds && s !in Keys(AvailableFunctions)
    ensures Resolve(Str(s)) == Drop
  {
  }

  /** The table built so far, and whether the loop ran to its end. */
  datatype Partial<K> = Partial(table: Dict<K, string>, completed: bool)

  /**
   * The loader's loop over a table's items, continuing from `acc`: each key
   * is converted by `key` (a failure aborts the loop), then each value is
   * resolved and stored, skipped or aborts the loop.
   */
  function Normalized<K(==)>(items: Dict<string, Value>, key: string -> Option<K>, acc: Dict<K, string>): Partial<K>
    decreases |items|
  {
    if |items| == 0 then Partial(acc, true)
    else match key(items[0].0)
      case None => Partial(acc, false)
      case Some(k) =>
        match Resolve(items[0].1)
        case Assign(id) => Normalized(items[1..], key, Put(acc, k, id))
        case Drop => Normalized(items[1..], key, acc)
        case Unhashable => Partial(acc, false)
  }

  /** Button keys go through `int(k)`. */
  function ButtonKey(text: string): Option<int> { ParseInt(text) }

  /** D-pad keys are direction names, used as they are. */
  function DirectionKey(text: string): Option<string> { Some(text) }

  /** A normalised table holds ids only and no key twice, whatever the file held. */
  lemma {:induction false} NormalizedIsIdTable<K>(items: Dict<string, Value>, key: string -> Option<K>, acc: Dict<K, string>)
    requires IdTable(acc)
    ensures IdTable(Normalized(items, key, acc).table)
    decreases |items|
  {
    if |items| > 0 && key(items[0].0).Some? {
      var k := key(items[0].0).value;
      match Resolve(items[0].1)
      case Assign(id) =>
        PutDistinct(acc, k, id);
        PutValues(acc, k, id);
        NormalizedIsIdTable(items[1..], key, Put(acc, k, id));
      case Drop =>
        NormalizedIsIdTable(items[1..], key, acc);
      case Unhashable =>
    }
  }

  /**
   * A key that does not convert aborts the loop: the table holds exactly
   * what the items before it produced.
   */
  lemma {:induction false} NormalizedStopsAtBadKey<K>(items: Dict<string, Value>, key: string -> Option<K>, acc: Dict<K, string>, j: nat)
    requires j < |items| && key(items[j].0).None?
    requires forall l :: 0 <= l < j ==> key(items[l].0).Some? && !Resolve(items[l].1).Unhashable?
    ensures Normalized(items, key, acc) == Partial(Normalized(items[..j], key, acc).table, false)
    decreases j
  {
    if j > 0 {
      assert key(items[0].0).Some? && !Resolve(items[0].1).Unhashable?;
      var k := key(items[0].0).value;
      var next := if Resolve(items[0].1).Assign? then Put(acc, k, Resolve(items[0].1).id) else acc;
      assert items[..j][1..] == items[1..][..j - 1];
      assert items[..j][0] == items[0];
      forall l | 0 <= l < j - 1
        ensures key(items[1..][l].0).Some? && !Resolve(items[1..][l].1).Unhashable?
      {
        assert items[1..][l] == items[l + 1];
      }
      NormalizedStopsAtBadKey(items[1..], key, next, j - 1);
    }
  }

  /** The items `json.dump` writes for a table, keys turned to text by `text`. */
  function SavedItems<K>(d: Dict<K, string>, text: K -> string): (items: Dict<string, Value>)
    ensures |items| == |d|
  {
    seq(|d|, i requires 0 <= i < |d| => (text(d[i].0), Str(d[i].1)))
  }

  /** `str(k)`, the text `json.dump` writes for an integer key. */
  function ButtonText(button: int): string { IntToString(button) }

  function DirectionText(direction: string): string { direction }

  /**
   * Round trip of one table: reading back the items written for an id
   * table appends that table, in its order, to what was built so far.
   */
  lemma {:induction false} SavedItemsRestored<K>(d: Dict<K, string>, key: string -> Option<K>, text: K -> string, acc: Dict<K, string>)
    requires forall k :: key(text(k)) == Some(k)
    requires IdTable(d)
    requires Keys(acc) !! Keys(d)
    ensures Normalized(SavedItems(d, text), key, acc) == Partial(acc + d, true)
    decreases |d|
  {
    if |d| > 0 {
      SavedHeadRestored(d, key, text, acc);
      SavedTailDisjoint(d, acc);
      SavedItemsRestored(d[1..], key, text, acc + [d[0]]);
      assert acc + [d[0]] + d[1..] == acc + d;
    } else {
      assert acc + d == acc;
    }
  }

  /** The first item written for an id table is read back as its first entry, appended. */
  lemma SavedHeadRestored<K>(d: Dict<K, string>, key: string -> Option<K>, text: K -> string, acc: Dict<K, string>)
    requires |d| > 0
    requires forall k :: key(text(k)) == Some(k)
    requires IdTable(d)
    requires Keys(acc) !! Keys(d)
    ensures Normalized(SavedItems(d, text), key, acc) == Normalized(SavedItems(d[1..], text), key, acc + [d[0]])
  {
    var items := SavedItems(d, text);
    assert items[0] == (text(d[0].0), Str(d[0].1));
    assert key(items[0].0) == Some(d[0].0);
    assert d[0].1 in Values(d);
    assert Resolve(items[0].1) == Assign(d[0].1);
    assert d[0].0 in Keys(d);
    PutAbsentAppends(acc, d[0].0, d[0].1);
    assert items[1..] == SavedItems(d[1..], text);
  }

  /** The rest of an id table is one, and shares no key with what was built before it. */
  lemma SavedTailDisjoint<K>(d: Dict<K, string>, acc: Dict<K, string>)
    requires |d| > 0
    requires IdTable(d)
    requires Keys(acc) !! Keys(d)
    ensures IdTable(d[1..]) && Keys(acc + [d[0]]) !! Keys(d[1..])
  {
    Tail(d);
    KeysOfAppend(acc, d[0]);
  }

  // ---------------------------------------------------------------------
  // The settings

  datatype LogLevel = InfoLogLevel | WarningLogLevel

  /** Debug mode logs at Info level; otherwise only warnings are logged. */
  function LogLevelFor(debug: bool): LogLevel {
    if debug then InfoLogLevel else WarningLogLevel
  }

  /** The values of the module's global settings. */
  datatype Settings = Settings(
    debug: bool,
    logLevel: LogLevel,
    rotationScale: real,
    deadZone: real,
    updateRate: real,
    selectedJoystick: int,
    axisX: int,
    axisY: int,
    responseCurve: real,
    useZAxisRotation: bool,
    showWelcomeMessage: bool,
    autoResetEnabled: bool,
    autoResetInterval: int,
    buttonAssignments: Dict<int, string>,
    buttonEnabled: bool,
    dpadAssignments: Dict<string, string>,
    dpadEnabled: bool,
    homeViewButton: int)

  /** The values the module starts with. */
  const Defaults := Settings(
    true, InfoLogLevel, 0.008, 0.15, 0.032, 0, 0, 1, 1.0, false, false, false, 60,
    [(0, "viewcube_front"), (1, "viewcube_back"), (2, "viewcube_left"), (3, "viewcube_right"),
     (4, "nearest_viewcube")],
    true, [], true, 0)

  /** The defaults are consistent: the log level follows debug mode and the tables hold ids. */
  lemma DefaultsAreConsistent()
    ensures Defaults.logLevel == LogLevelFor(Defaults.debug)
    ensures IdTable(Defaults.buttonAssignments) && IdTable(Defaults.dpadAssignments)
  {
    var b := Defaults.buttonAssignments;
    assert b[0].1 == AvailableFunctions[4].1 && b[1].1 == AvailableFunctions[5].1;
    assert b[2].1 == AvailableFunctions[6].1 && b[3].1 == AvailableFunctions[7].1;
    assert b[4].1 == AvailableFunctions[3].1;
  }

  /** `bool(settings.get(key, current))`. */
  function BoolField(doc: Document, key: string, current: bool): bool {
    Truthy(Lookup(doc, key, Bool(current)))
  }

  /** `int(settings.get(key, current))`, keeping `current` when that raises. */
  function IntField(doc: Document, key: string, current: int): int {
    match ToInt(Lookup(doc, key, Int(current)))
    case Some(k) => k
    case None => current
  }

  /** A float setting: absent or `null` keeps `current`, and so does a failed `float(v)`. */
  function FloatField(doc: Document, key: string, current: real): real {
    var v := Lookup(doc, key, Null);
    if v.Null? then current
    else match ToFloat(v)
      case Some(r) => r
      case None => current
  }

  /** The fields loaded before the assignment tables. */
  function ScalarsLoaded(s: Settings, doc: Document): Settings {
    s.(
      debug := BoolField(doc, "DEBUG", s.debug),
      rotationScale := FloatField(doc, "ROTATION_SCALE", s.rotationScale),
      deadZone := FloatField(doc, "DEAD_ZONE", s.deadZone),
      updateRate := FloatField(doc, "UPDATE_RATE", s.updateRate),
      selectedJoystick := IntField(doc, "SELECTED_JOYSTICK", s.selectedJoystick),
      // AXIS_X and AXIS_Y share one `try`: AXIS_Y is read only when AXIS_X converted
      axisX := IntField(doc, "AXIS_X", s.axisX),
      axisY := if ToInt(Lookup(doc, "AXIS_X", Int(s.axisX))).Some? then IntField(doc, "AXIS_Y", s.axisY) else s.axisY,
      responseCurve := FloatField(doc, "RESPONSE_CURVE", s.responseCurve),
      useZAxisRotation := BoolField(doc, "USE_Z_AXIS_ROTATION", s.useZAxisRotation),
      showWelcomeMessage := BoolField(doc, "SHOW_WELCOME_MESSAGE", s.showWelcomeMessage),
      autoResetEnabled := BoolField(doc, "AUTO_RESET_ENABLED", s.autoResetEnabled),
      autoResetInterval := IntField(doc, "AUTO_RESET_INTERVAL", s.autoResetInterval))
  }

  /**
   * The button section's outcome. `crashed` is the `AttributeError` of
   * calling `.items()` on a value that is not an object, which the section
   * does not catch.
   */
  datatype ButtonLoad = ButtonLoad(assignments: Dict<int, string>, enabled: bool, crashed: bool)

  function ButtonsLoaded(assignments: Dict<int, string>, enabled: bool, doc: Document): ButtonLoad {
    var data := Lookup(doc, "BUTTON_ASSIGNMENTS", Null);
    if !data.Null? then ButtonTableLoaded(data, enabled, doc)
    else LegacyButtonLoaded(assignments, enabled, doc)
  }

  /** A present `BUTTON_ASSIGNMENTS` value: reset to `{}`, then filled from its items. */
  function ButtonTableLoaded(data: Value, enabled: bool, doc: Document): ButtonLoad {
    if !data.Object? then ButtonLoad([], enabled, true)
    else
      var p := Normalized(data.items, ButtonKey, []);
      ButtonLoad(p.table, if p.completed then BoolField(doc, "BUTTON_ENABLED", enabled) else enabled, false)
  }

  /** No `BUTTON_ASSIGNMENTS`: the older format kept only the home-view button. */
  function LegacyButtonLoaded(assignments: Dict<int, string>, enabled: bool, doc: Document): ButtonLoad {
    var legacy := Lookup(doc, "HOME_VIEW_BUTTON", Null);
    var newEnabled := BoolField(doc, "BUTTON_ENABLED", enabled);
    if legacy.Null? then ButtonLoad(assignments, newEnabled, false)
    else match ToInt(legacy)
      case Some(h) => ButtonLoad([(h, "home_view")], newEnabled, false)
      case None => ButtonLoad(assignments, enabled, false)
  }

  datatype DpadLoad = DpadLoad(assignments: Dict<string, string>, enabled: bool)

  /** An absent D-pad table reads as `{}`; a present one that is not an object is ignored. */
  function DpadLoaded(assignments: Dict<string, string>, enabled: bool, doc: Document): DpadLoad {
    var data := Lookup(doc, "DPAD_ASSIGNMENTS", Object([]));
    var newEnabled := BoolField(doc, "DPAD_ENABLED", enabled);
    if data.Object? then
      var p := Normalized(data.items, DirectionKey, []);
      DpadLoad(p.table, if p.completed then newEnabled else enabled)
    else DpadLoad(assignments, newEnabled)
  }

  datatype LoadResult = LoadResult(settings: Settings, loaded: bool)

  /**
   * `load_settings` on the decoded file, `None` when there is no file or it
   * is not a JSON object (both end with nothing changed and `False`).
   */
  function Loaded(s: Settings, file: Option<Document>): LoadResult {
    match file
    case None => LoadResult(s, false)
    case Some(doc) =>
      var scalars := ScalarsLoaded(s, doc);
      var b := ButtonsLoaded(s.buttonAssignments, s.buttonEnabled, doc);
      if b.crashed then LoadResult(scalars.(buttonAssignments := b.assignments), false)
      else
        var withButtons := scalars.(buttonAssignments := b.assignments, buttonEnabled := b.enabled);
        var d := DpadLoaded(s.dpadAssignments, s.dpadEnabled, doc);
        var all := withButtons.(dpadAssignments := d.assignments, dpadEnabled := d.enabled);
        LoadResult(all.(logLevel := LogLevelFor(all.debug)), true)
  }

  /** The object `save_settings` writes. */
  function Saved(s: Settings): Document {
    map[
      "DEBUG" := Bool(s.debug),
      "ROTATION_SCALE" := Float(s.rotationScale),
      "DEAD_ZONE" := Float(s.deadZone),
      "UPDATE_RATE" := Float(s.updateRate),
      "SELECTED_JOYSTICK" := Int(s.selectedJoystick),
      "AXIS_X" := Int(s.axisX),
      "AXIS_Y" := Int(s.axisY),
      "RESPONSE_CURVE" := Float(s.responseCurve),
      "USE_Z_AXIS_ROTATION" := Bool(s.useZAxisRotation),
      "SHOW_WELCOME_MESSAGE" := Bool(s.showWelcomeMessage),
      "AUTO_RESET_ENABLED" := Bool(s.autoResetEnabled),
      "AUTO_RESET_INTERVAL" := Int(s.autoResetInterval),
      "BUTTON_ASSIGNMENTS" := Object(SavedItems(s.buttonAssignments, ButtonText)),
      "BUTTON_ENABLED" := Bool(s.buttonEnabled),
      "DPAD_ASSIGNMENTS" := Object(SavedItems(s.dpadAssignments, DirectionText)),
      "DPAD_ENABLED" := Bool(s.dpadEnabled)]
  }

  // ---------------------------------------------------------------------
  // Properties of loading

  /**
   * Saving and loading again restores every saved setting, both tables in
   * their order; the log level is recomputed from debug mode, and the
   * legacy home-view button, which is not saved, keeps its value.
   */
  lemma LoadRoundTrip(current: Settings, s: Settings)
    requires IdTable(s.buttonAssignments) && IdTable(s.dpadAssignments)
    ensures Loaded(current, Some(Saved(s)))
      == LoadResult(s.(logLevel := LogLevelFor(s.debug), homeViewButton := current.homeViewButton), true)
  {
    SavedScalarsRestored(current, s);
    SavedButtonsRestored(current.buttonAssignments, current.buttonEnabled, s);
    SavedDpadRestored(current.dpadAssignments, current.dpadEnabled, s);
  }

  /** Every setting outside the tables reads back as saved. */
  lemma SavedScalarsRestored(current: Settings, s: Settings)
    ensures ScalarsLoaded(current, Saved(s)) == current.(
      debug := s.debug, rotationScale := s.rotationScale, deadZone := s.deadZone,
      updateRate := s.updateRate, selectedJoystick := s.selectedJoystick, axisX := s.axisX,
      axisY := s.axisY, responseCurve := s.responseCurve, useZAxisRotation := s.useZAxisRotation,
      showWelcomeMessage := s.showWelcomeMessage, autoResetEnabled := s.autoResetEnabled,
      autoResetInterval := s.autoResetInterval)
  {
    SavedSpeedRestored(s);
    SavedDeviceRestored(s);
    SavedModeRestored(s);
  }

  lemma SavedSpeedRestored(s: Settings)
    ensures Saved(s)["DEBUG"] == Bool(s.debug) && Saved(s)["ROTATION_SCALE"] == Float(s.rotationScale)
    ensures Saved(s)["DEAD_ZONE"] == Float(s.deadZone) && Saved(s)["UPDATE_RATE"] == Float(s.updateRate)
  {
  }

  lemma SavedDeviceRestored(s: Settings)
    ensures Saved(s)["SELECTED_JOYSTICK"] == Int(s.selectedJoystick) && Saved(s)["AXIS_X"] == Int(s.axisX)
    ensures Saved(s)["AXIS_Y"] == Int(s.axisY) && Saved(s)["RESPONSE_CURVE"] == Float(s.responseCurve)
  {
  }

  lemma SavedModeRestored(s: Settings)
    ensures Saved(s)["USE_Z_AXIS_ROTATION"] == Bool(s.useZAxisRotation)
    ensures Saved(s)["SHOW_WELCOME_MESSAGE"] == Bool(s.showWelcomeMessage)
    ensures Saved(s)["AUTO_RESET_ENABLED"] == Bool(s.autoResetEnabled)
    ensures Saved(s)["AUTO_RESET_INTERVAL"] == Int(s.autoResetInterval)
  {
  }

  /** The button table reads back in its order, and so does its enabled flag. */
  lemma SavedButtonsRestored(assignments: Dict<int, string>, enabled: bool, s: Settings)
    requires IdTable(s.buttonAssignments)
    ensures ButtonsLoaded(assignments, enabled, Saved(s)) == ButtonLoad(s.buttonAssignments, s.buttonEnabled, false)
  {
    SavedButtonFields(s, enabled);
    ButtonTableRestored(s.buttonAssignments);
  }

  /** What the saved document holds under the two button keys. */
  lemma SavedButtonFields(s: Settings, enabled: bool)
    ensures Lookup(Saved(s), "BUTTON_ASSIGNMENTS", Null) == Object(SavedItems(s.buttonAssignments, ButtonText))
    ensures BoolField(Saved(s), "BUTTON_ENABLED", enabled) == s.buttonEnabled
  {
  }

  /** The items written for a button id table read back as that table. */
  lemma ButtonTableRestored(d: Dict<int, string>)
    requires IdTable(d)
    ensures Normalized(SavedItems(d, ButtonText), ButtonKey, []) == Partial(d, true)
  {
    forall k: int ensures ButtonKey(ButtonText(k)) == Some(k) {
      ParseIntToString(k);
    }
    SavedItemsRestored(d, ButtonKey, ButtonText, []);
    assert [] + d == d;
  }

  /** The D-pad table reads back in its order, and so does its enabled flag. */
  lemma SavedDpadRestored(assignments: Dict<string, string>, enabled: bool, s: Settings)
    requires IdTable(s.dpadAssignments)
    ensures DpadLoaded(assignments, enabled, Saved(s)) == DpadLoad(s.dpadAssignments, s.dpadEnabled)
  {
    SavedItemsRestored(s.dpadAssignments, DirectionKey, DirectionText, []);
    assert [] + s.dpadAssignments == s.dpadAssignments;
  }

  /**
   * After a complete load the log level follows debug mode; a load that
   * fails leaves it as it was.
   */
  lemma LoadedLogLevel(s: Settings, file: Option<Document>)
    ensures var r := Loaded(s, file);
      if r.loaded then r.settings.logLevel == LogLevelFor(r.settings.debug) else r.settings.logLevel == s.logLevel
  {
  }

  /** `float(v)` succeeds on the value stored under `key`. */
  predicate FloatConverts(doc: Document, key: string) {
    key in doc && ToFloat(doc[key]).Some?
  }

  /**
   * Each float setting takes the converted file value when there is one,
   * and otherwise (absent, `null`, unconvertible) keeps its previous value,
   * whatever happens later in the load.
   */
  lemma FloatFieldsLoaded(s: Settings, doc: Document)
    ensures var r := Loaded(s, Some(doc)).settings;
      && r.rotationScale == (if FloatConverts(doc, "ROTATION_SCALE") then ToFloat(doc["ROTATION_SCALE"]).value else s.rotationScale)
      && r.deadZone == (if FloatConverts(doc, "DEAD_ZONE") then ToFloat(doc["DEAD_ZONE"]).value else s.deadZone)
      && r.updateRate == (if FloatConverts(doc, "UPDATE_RATE") then ToFloat(doc["UPDATE_RATE"]).value else s.updateRate)
      && r.responseCurve == (if FloatConverts(doc, "RESPONSE_CURVE") then ToFloat(doc["RESPONSE_CURVE"]).value else s.responseCurve)
  {
  }

  /**
   * A button table that is present but not an object fails the whole load:
   * the table is left empty, the D-pad settings and the log level are not
   * touched.
   */
  lemma ButtonTableNotAnObject(s: Settings, doc: Document)
    requires "BUTTON_ASSIGNMENTS" in doc
    requires !doc["BUTTON_ASSIGNMENTS"].Null? && !doc["BUTTON_ASSIGNMENTS"].Object?
    ensures var r := Loaded(s, Some(doc));
      && !r.loaded && r.settings.buttonAssignments == []
      && r.settings.buttonEnabled == s.buttonEnabled
      && r.settings.dpadAssignments == s.dpadAssignments && r.settings.dpadEnabled == s.dpadEnabled
      && r.settings.logLevel == s.logLevel
  {
  }

  /**
   * A button key that is not an integer aborts the section: the table holds
   * only what the items before it produced and the enabled flag is not
   * loaded; the rest of the load goes on.
   */
  lemma BadButtonKey(s: Settings, doc: Document, items: Dict<string, Value>, j: nat)
    requires "BUTTON_ASSIGNMENTS" in doc && doc["BUTTON_ASSIGNMENTS"] == Object(items)
    requires j < |items| && ParseInt(items[j].0).None?
    requires forall l :: 0 <= l < j ==> ParseInt(items[l].0).Some? && !Resolve(items[l].1).Unhashable?
    ensures var r := Loaded(s, Some(doc));
      && r.loaded
      && r.settings.buttonAssignments == Normalized(items[..j], ButtonKey, []).table
      && r.settings.buttonEnabled == s.buttonEnabled
  {
    NormalizedStopsAtBadKey(items, ButtonKey, [], j);
  }

  /**
   * Without a button table the legacy home-view button becomes the only
   * assignment; with neither key the previous table stays.
   */
  lemma LegacyButtons(s: Settings, doc: Document)
    requires "BUTTON_ASSIGNMENTS" !in doc
    ensures var r := Loaded(s, Some(doc)).settings;
      && ("HOME_VIEW_BUTTON" !in doc ==> r.buttonAssignments == s.buttonAssignments)
      && ("HOME_VIEW_BUTTON" in doc && ToInt(doc["HOME_VIEW_BUTTON"]).Some? ==>
            r.buttonAssignments == [(ToInt(doc["HOME_VIEW_BUTTON"]).value, "home_view")])
  {
  }

  /**
   * With the button section complete, an absent D-pad table loads as empty
   * and a present value that is not an object leaves the previous table.
   */
  lemma DpadTableCases(s: Settings, doc: Document)
    requires !ButtonsLoaded(s.buttonAssignments, s.buttonEnabled, doc).crashed
    ensures var r := Loaded(s, Some(doc)).settings;
      && ("DPAD_ASSIGNMENTS" !in doc ==> r.dpadAssignments == [])
      && ("DPAD_ASSIGNMENTS" in doc && !doc["DPAD_ASSIGNMENTS"].Object? ==> r.dpadAssignments == s.dpadAssignments)
  {
  }

  /**
   * Loading keeps both tables id tables: whatever the file holds, every
   * assignment afterwards names a function id.
   */
  lemma LoadKeepsIdTables(s: Settings, file: Option<Document>)
    requires IdTable(s.buttonAssignments) && IdTable(s.dpadAssignments)
    ensures var r := Loaded(s, file).settings;
      IdTable(r.buttonAssignments) && IdTable(r.dpadAssignments)
  {
    if file.Some? {
      ButtonsLoadedIsIdTable(s.buttonAssignments, s.buttonEnabled, file.value);
      DpadLoadedIsIdTable(s.dpadAssignments, s.dpadEnabled, file.value);
    }
  }

  lemma ButtonsLoadedIsIdTable(assignments: Dict<int, string>, enabled: bool, doc: Document)
    requires IdTable(assignments)
    ensures IdTable(ButtonsLoaded(assignments, enabled, doc).assignments)
  {
    var data := Lookup(doc, "BUTTON_ASSIGNMENTS", Null);
    if data.Object? {
      NormalizedIsIdTable(data.items, ButtonKey, []);
    } else if data.Null? {
      var legacy := Lookup(doc, "HOME_VIEW_BUTTON", Null);
      if !legacy.Null? && ToInt(legacy).Some? {
        var t := [(ToInt(legacy).value, "home_view")];
        assert AvailableFunctions[1].1 == "home_view";
        forall w | w in Values(t) ensures w in FunctionIds {
          assert w == "home_view";
        }
      }
    }
  }

  lemma DpadLoadedIsIdTable(assignments: Dict<string, string>, enabled: bool, doc: Document)
    requires IdTable(assignments)
    ensures IdTable(DpadLoaded(assignments, enabled, doc).assignments)
  {
    var data := Lookup(doc, "DPAD_ASSIGNMENTS", Object([]));
    if data.Object? {
      NormalizedIsIdTable(data.items, DirectionKey, []);
    }
  }

  // ---------------------------------------------------------------------
  // The loop, and the module's globals

  /** The loader's loop over a table's items, starting from `{}`. */
  method NormalizeItems<K(==)>(items: Dict<string, Value>, key: string -> Option<K>)
    returns (table: Dict<K, string>, completed: bool)
    ensures Partial(table, completed) == Normalized(items, key, [])
  {
    table := [];
    var i := 0;
    while i < |items|
      invariant 0 <= i <= |items|
      invariant Normalized(items[i..], key, table) == Normalized(items, key, [])
    {
      assert items[i..][0] == items[i] && items[i..][1..] == items[i + 1..];
      var k := key(items[i].0);
      if k.None? {
        return table, false;
      }
      match Resolve(items[i].1) {
        case Assign(id) => table := Put(table, k.value, id);
        case Drop =>
        case Unhashable => return table, false;
      }
      i := i + 1;
    }
    return table, true;
  }

  /** The module's global settings, which the dialogs and the loader reassign. */
  class Config {
    var debug: bool
    var logLevel: LogLevel
    var rotationScale: real
    var deadZone: real
    var updateRate: real
    var selectedJoystick: int
    var axisX: int
    var axisY: int
    var responseCurve: real
    var useZAxisRotation: bool
    var showWelcomeMessage: bool
    var autoResetEnabled: bool
    var autoResetInterval: int
    var buttonAssignments: Dict<int, string>
    var buttonEnabled: bool
    var dpadAssignments: Dict<string, string>
    var dpadEnabled: bool
    var homeViewButton: int

    function State(): Settings
      reads this
    {
      Settings(debug, logLevel, rotationScale, deadZone, updateRate, selectedJoystick, axisX, axisY,
        responseCurve, useZAxisRotation, showWelcomeMessage, autoResetEnabled, autoResetInterval,
        buttonAssignments, buttonEnabled, dpadAssignments, dpadEnabled, homeViewButton)
    }

    constructor()
      ensures State() == Defaults
    {
      debug := Defaults.debug;
      logLevel := Defaults.logLevel;
      rotationScale := Defaults.rotationScale;
      deadZone := Defaults.deadZone;
      updateRate := Defaults.updateRate;
      selectedJoystick := Defaults.selectedJoystick;
      axisX := Defaults.axisX;
      axisY := Defaults.axisY;
      responseCurve := Defaults.responseCurve;
      useZAxisRotation := Defaults.useZAxisRotation;
      showWelcomeMessage := Defaults.showWelcomeMessage;
      autoResetEnabled := Defaults.autoResetEnabled;
      autoResetInterval := Defaults.autoResetInterval;
      buttonAssignments := Defaults.buttonAssignments;
      buttonEnabled := Defaults.buttonEnabled;
      dpadAssignments := Defaults.dpadAssignments;
      dpadEnabled := Defaults.dpadEnabled;
      homeViewButton := Defaults.homeViewButton;
    }

    /** `save_settings`: the object it writes (the file write is not modelled). */
    method SaveSettings() returns (doc: Document)
      ensures doc == Saved(State())
    {
      doc := Saved(State());
    }

    /** `load_settings` on the decoded file; reports whether the load completed. */
    method LoadSettings(file: Option<Document>) returns (loaded: bool)
      modifies this
      ensures State() == Loaded(old(State()), file).settings
      ensures loaded == Loaded(old(State()), file).loaded
    {
      if file.None? {
        return false;
      }
      var doc := file.value;
      LoadScalarSettings(doc);
      var crashed := LoadButtonSettings(doc);
      if crashed {
        return false;
      }
      LoadDpadSettings(doc);
      logLevel := LogLevelFor(debug);
      return true;
    }

    method LoadScalarSettings(doc: Document)
      modifies this
      ensures State() == ScalarsLoaded(old(State()), doc)
    {
      LoadSpeedSettings(doc);
      LoadDeviceSettings(doc);
      LoadModeSettings(doc);
    }

    /** DEBUG, ROTATION_SCALE, DEAD_ZONE and UPDATE_RATE. */
    method LoadSpeedSettings(doc: Document)
      modifies this
      ensures State() == old(State()).(
        debug := BoolField(doc, "DEBUG", old(debug)),
        rotationScale := FloatField(doc, "ROTATION_SCALE", old(rotationScale)),
        deadZone := FloatField(doc, "DEAD_ZONE", old(deadZone)),
        updateRate := FloatField(doc, "UPDATE_RATE", old(updateRate)))
    {
      debug := BoolField(doc, "DEBUG", debug);
      rotationScale := FloatField(doc, "ROTATION_SCALE", rotationScale);
      deadZone := FloatField(doc, "DEAD_ZONE", deadZone);
      updateRate := FloatField(doc, "UPDATE_RATE", updateRate);
    }

    /** SELECTED_JOYSTICK, AXIS_X and AXIS_Y (one `try` for both axes), RESPONSE_CURVE. */
    method LoadDeviceSettings(doc: Document)
      modifies this
      ensures State() == old(State()).(
        selectedJoystick := IntField(doc, "SELECTED_JOYSTICK", old(selectedJoystick)),
        axisX := IntField(doc, "AXIS_X", old(axisX)),
        axisY := if ToInt(Lookup(doc, "AXIS_X", Int(old(axisX)))).Some? then IntField(doc, "AXIS_Y", old(axisY)) else old(axisY),
        responseCurve := FloatField(doc, "RESPONSE_CURVE", old(responseCurve)))
    {
      selectedJoystick := IntField(doc, "SELECTED_JOYSTICK", selectedJoystick);
      var x := ToInt(Lookup(doc, "AXIS_X", Int(axisX)));
      if x.Some? {
        axisX := x.value;
        axisY := IntField(doc, "AXIS_Y", axisY);
      }
      responseCurve := FloatField(doc, "RESPONSE_CURVE", responseCurve);
    }

    /** USE_Z_AXIS_ROTATION, SHOW_WELCOME_MESSAGE and the automatic reset. */
    method LoadModeSettings(doc: Document)
      modifies this
      ensures State() == old(State()).(
        useZAxisRotation := BoolField(doc, "USE_Z_AXIS_ROTATION", old(useZAxisRotation)),
        showWelcomeMessage := BoolField(doc, "SHOW_WELCOME_MESSAGE", old(showWelcomeMessage)),
        autoResetEnabled := BoolField(doc, "AUTO_RESET_ENABLED", old(autoResetEnabled)),
        autoResetInterval := IntField(doc, "AUTO_RESET_INTERVAL", old(autoResetInterval)))
    {
      useZAxisRotation := BoolField(doc, "USE_Z_AXIS_ROTATION", useZAxisRotation);
      showWelcomeMessage := BoolField(doc, "SHOW_WELCOME_MESSAGE", showWelcomeMessage);
      autoResetEnabled := BoolField(doc, "AUTO_RESET_ENABLED", autoResetEnabled);
      autoResetInterval := IntField(doc, "AUTO_RESET_INTERVAL", autoResetInterval);
    }

    /** The button section; `crashed` when its table is not an object. */
    method LoadButtonSettings(doc: Document) returns (crashed: bool)
      modifies this
      ensures var b := ButtonsLoaded(old(buttonAssignments), old(buttonEnabled), doc);
        && crashed == b.crashed
        && State() == old(State()).(buttonAssignments := b.assignments, buttonEnabled := b.enabled)
    {
      var data := Lookup(doc, "BUTTON_ASSIGNMENTS", Null);
      if !data.Null? {
        crashed := LoadButtonTable(data, doc);
      } else {
        LoadLegacyButton(doc);
        crashed := false;
      }
    }

    method LoadButtonTable(data: Value, doc: Document) returns (crashed: bool)
      modifies this
      ensures var b := ButtonTableLoaded(data, old(buttonEnabled), doc);
        && crashed == b.crashed
        && State() == old(State()).(buttonAssignments := b.assignments, buttonEnabled := b.enabled)
    {
      buttonAssignments := [];
      if !data.Object? {
        return true;
      }
      var table, completed := NormalizeItems(data.items, ButtonKey);
      buttonAssignments := table;
      if completed {
        buttonEnabled := BoolField(doc, "BUTTON_ENABLED", buttonEnabled);
      }
      return false;
    }

    method LoadLegacyButton(doc: Document)
      modifies this
      ensures var b := LegacyButtonLoaded(old(buttonAssignments), old(buttonEnabled), doc);
        State() == old(State()).(buttonAssignments := b.assignments, buttonEnabled := b.enabled)
    {
      var legacy := Lookup(doc, "HOME_VIEW_BUTTON", Null);
      if !legacy.Null? {
        var h := ToInt(legacy);
        if h.None? {
          return;
        }
        buttonAssignments := [(h.value, "home_view")];
      }
      buttonEnabled := BoolField(doc, "BUTTON_ENABLED", buttonEnabled);
    }

    method LoadDpadSettings(doc: Document)
      modifies this
      ensures var d := DpadLoaded(old(dpadAssignments), old(dpadEnabled), doc);
        State() == old(State()).(dpadAssignments := d.assignments, dpadEnabled := d.enabled)
    {
      var data := Lookup(doc, "DPAD_ASSIGNMENTS", Object([]));
      if data.Object? {
        var table, completed := NormalizeItems(data.items, DirectionKey);
        dpadAssignments := table;
        if !completed {
          return;
        }
      }
      dpadEnabled := BoolField(doc, "DPAD_ENABLED", dpadEnabled);
    }
  }
}

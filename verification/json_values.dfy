/**
 * The settings file as `json.load` hands it to the loader, and the three
 * Python conversions the loader applies to its values: `bool(v)`,
 * `float(v)` and `int(v)`. A conversion that raises `ValueError` or
 * `TypeError` is `None`.
 */
module JsonValues {
  import opened Optional
  import opened Text
  import opened Dicts

  /**
   * A decoded JSON value; an object keeps its items in file order. An item
   * list may repeat a key, which `json.load` never produces (the last
   * occurrence wins there), so the model admits more objects than the file
   * can give, and the loader's lemmas hold for every item list.
   */
  datatype Value =
    | Null
    | Bool(b: bool)
    | Int(i: int)
    | Float(r: real)
    | Str(s: string)
    | Array(elements: seq<Value>)
    | Object(items: Dict<string, Value>)

  /** The decoded top-level object of the settings file. */
  type Document = map<string, Value>

  /** `settings.get(key, default)`. */
  function Lookup(doc: Document, key: string, default: Value): Value {
    if key in doc then doc[key] else default
  }

  /** Python's truth value `bool(v)`: empty and zero values are false. */
  function Truthy(v: Value): bool {
    match v
    case Null => false
    case Bool(b) => b
    case Int(i) => i != 0
    case Float(r) => r != 0.0
    case Str(s) => s != ""
    case Array(e) => e != []
    case Object(items) => items != []
  }

  /**
   * `int(r)` on a float: truncation toward zero (not Dafny's `Floor`, which
   * rounds negative numbers down).
   */
  function TruncateToInt(r: real): (k: int)
    ensures 0.0 <= r ==> k as real <= r < k as real + 1.0
    ensures r < 0.0 ==> k as real - 1.0 < r <= k as real
  {
    if r < 0.0 then -((-r).Floor) else r.Floor
  }

  /** `float(v)`; `None` where Python raises. */
  function ToFloat(v: Value): Option<real> {
    match v
    case Bool(b) => Some(if b then 1.0 else 0.0)
    case Int(i) => Some(i as real)
    case Float(r) => Some(r)
    case Str(s) => ParseFloat(s)
    case _ => None
  }

  /** `int(v)`; `None` where Python raises. */
  function ToInt(v: Value): Option<int> {
    match v
    case Bool(b) => Some(if b then 1 else 0)
    case Int(i) => Some(i)
    case Float(r) => Some(TruncateToInt(r))
    case Str(s) => ParseInt(s)
    case _ => None
  }

  /**
   * Each conversion gives back a value of its own type, and `null`, arrays
   * and objects convert to no number.
   */
  lemma ConversionsOfOwnType(b: bool, i: int, r: real, v: Value)
    ensures Truthy(Bool(b)) == b && ToInt(Int(i)) == Some(i) && ToFloat(Float(r)) == Some(r)
    ensures (v.Null? || v.Array? || v.Object?) ==> ToInt(v) == None && ToFloat(v) == None
  {
  }

  /** Numeric text converts the same way whether it is read as an int or a float. */
  lemma IntTextConvertsAlike(k: int)
    ensures ToInt(Str(IntToString(k))) == Some(k)
    ensures ToFloat(Str(IntToString(k))) == Some(k as real)
  {
    ParseIntToString(k);
    ParseFloatOfIntText(k);
  }
}

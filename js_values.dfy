/**
 * The JavaScript values that travel in commands and results, and the few
 * language rules the system leans on: truthiness (`if (!command)`, `x || 5`),
 * string conversion in template literals, numeric conversion in `minutes * 60`
 * and reading a property of a value.
 */
module JsValues {
  import opened Wrappers
  import opened Text

  /** Numbers are integers here; arrays are not represented. An object is its properties in creation order. */
  datatype Value =
    | Undefined
    | Null
    | Bool(b: bool)
    | Num(n: int)
    | NaN
    | Str(s: string)
    | Obj(props: seq<Property>)

  datatype Property = Property(key: string, value: Value)

  const EmptyObject: Value := Obj([])

  /**
   * The value of the property `key`, `undefined` when there is none. Of
   * duplicate keys the last one wins, as `JSON.parse` keeps the last.
   */
  function Lookup(props: seq<Property>, key: string): (v: Value)
    ensures (forall k :: 0 <= k < |props| ==> props[k].key != key) ==> v == Undefined
    ensures |props| > 0 && props[|props| - 1].key == key ==> v == props[|props| - 1].value
  {
    if props == [] then Undefined
    else if props[|props| - 1].key == key then props[|props| - 1].value
    else Lookup(props[..|props| - 1], key)
  }

  /**
   * A defined read comes from a property carrying that key, and no later
   * property carries the key.
   */
  lemma {:induction false} LookupFinds(props: seq<Property>, key: string)
    ensures Lookup(props, key) != Undefined ==>
      exists k :: 0 <= k < |props| && props[k].key == key && props[k].value == Lookup(props, key) &&
        forall j :: k < j < |props| ==> props[j].key != key
  {
    if props != [] && props[|props| - 1].key != key {
      var init := props[..|props| - 1];
      LookupFinds(init, key);
      if Lookup(props, key) != Undefined {
        var k :| 0 <= k < |init| && init[k].key == key && init[k].value == Lookup(props, key) &&
          forall j :: k < j < |init| ==> init[j].key != key;
        assert props[k] == init[k];
        assert forall j :: k < j < |props| ==> props[j].key != key by {
          forall j | k < j < |props| ensures props[j].key != key {
            if j < |init| { assert props[j] == init[j]; }
          }
        }
      }
    } else if props != [] {
      var n := |props| - 1;
      assert props[n].key == key && props[n].value == Lookup(props, key);
    }
  }

  /** JavaScript truthiness: `undefined`, `null`, `false`, `0`, `NaN` and `""` are falsy. */
  predicate Truthy(v: Value) {
    match v
    case Undefined => false
    case Null => false
    case Bool(b) => b
    case Num(n) => n != 0
    case NaN => false
    case Str(s) => s != ""
    case Obj(_) => true
  }

  /** `a || b`. */
  function Or(a: Value, b: Value): Value {
    if Truthy(a) then a else b
  }

  /** A destructuring default `{ x = d }`: applies only when the property is `undefined`. */
  function Default(v: Value, d: Value): Value {
    if v == Undefined then d else v
  }

  /** `String(v)`, as a template literal `${v}` renders it. */
  function ToJsString(v: Value): string {
    match v
    case Undefined => "undefined"
    case Null => "null"
    case Bool(b) => if b then "true" else "false"
    case Num(n) => IntToString(n)
    case NaN => "NaN"
    case Str(s) => s
    case Obj(_) => "[object Object]"
  }

  /** `Number(v)` (the conversion `*` applies); `None` is NaN. */
  function ToNumber(v: Value): Option<int> {
    match v
    case Undefined => None
    case Null => Some(0)
    case Bool(b) => Some(if b then 1 else 0)
    case Num(n) => Some(n)
    case NaN => None
    case Str(s) => StringToNumber(s)
    case Obj(_) => None
  }

  /**
   * `v.key`: reading a property of `undefined` or `null` throws a TypeError;
   * an object yields its field or `undefined`; the primitives have no own
   * property under the keys the system reads.
   */
  function Get(v: Value, key: string): (r: Result<Value>)
    ensures r.Failure? <==> v == Undefined || v == Null
  {
    match v
    case Undefined => Failure("Cannot read properties of undefined (reading '" + key + "')")
    case Null => Failure("Cannot read properties of null (reading '" + key + "')")
    case Obj(props) => Success(Lookup(props, key))
    case _ => Success(Undefined)
  }
}

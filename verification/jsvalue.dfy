/**
 * JavaScript values as the error-handling code sees them: an error may be a
 * string, an `Error` object, an axios error with `response`, `request` and
 * `config` objects, or anything else a caller passes. Objects are their own
 * properties in the order they were created; a key created twice keeps its
 * first position and its last value, as in an object literal or the result of
 * `JSON.parse`.
 */
module JsValue {
  import opened Js
  import opened Aggregates
  import opened ObjectKeys

  datatype Value =
    | Undefined
    | Null
    | Bool(b: bool)
    | Num(n: Number)
    | Str(s: string)
    | Func(source: string)
    | Obj(props: seq<Prop>)

  datatype Prop = Prop(key: string, value: Value)

  /** `!!v`: undefined, null, false, 0, NaN and "" are falsy. */
  predicate Truthy(v: Value) {
    match v
    case Undefined => false
    case Null => false
    case Bool(b) => b
    case Num(n) => NumberTruthy(n)
    case Str(s) => s != ""
    case _ => true
  }

  /** The value last written under `key`, or undefined. */
  function Lookup(props: seq<Prop>, key: string): (v: Value)
    ensures (forall i :: 0 <= i < |props| ==> props[i].key != key) ==> v == Undefined
    ensures v != Undefined ==> exists i :: 0 <= i < |props| && props[i] == Prop(key, v)
  {
    if props == [] then Undefined
    else
      var init, last := props[..|props| - 1], props[|props| - 1];
      if last.key == key then last.value
      else
        var v := Lookup(init, key);
        assert v != Undefined ==> exists i :: 0 <= i < |init| && init[i] == Prop(key, v);
        v
  }

  /** A later write under the same key wins: the value read is the one of the last write. */
  lemma {:induction false} LookupIsLastWrite(props: seq<Prop>, key: string, i: nat)
    requires i < |props| && props[i].key == key
    requires forall j :: i < j < |props| ==> props[j].key != key
    ensures Lookup(props, key) == props[i].value
    decreases |props|
  {
    if i < |props| - 1 {
      LookupIsLastWrite(props[..|props| - 1], key, i);
    }
  }

  /**
   * `v?.key` on the values the client meets: own properties of an object,
   * undefined for every other value.
   */
  function Get(v: Value, key: string): Value {
    if v.Obj? then Lookup(v.props, key) else Undefined
  }

  function KeyOf(p: Prop): string {
    p.key
  }

  /** `Object.entries(o)` for an object with properties `props`. */
  function Entries(props: seq<Prop>): seq<Prop> {
    var order := EntryOrder(Keys(props, KeyOf));
    seq(|order|, i requires 0 <= i < |order| => Prop(order[i], Lookup(props, order[i])))
  }

  /** `Object.entries` lists each key once, with the value last written under it. */
  lemma EntriesListEachKeyOnce(props: seq<Prop>)
    ensures forall i, j :: 0 <= i < j < |Entries(props)| ==> Entries(props)[i].key != Entries(props)[j].key
    ensures forall i :: 0 <= i < |Entries(props)| ==> Entries(props)[i].value == Lookup(props, Entries(props)[i].key)
  {
    var ks := Keys(props, KeyOf);
    EntryOrderDistinct(ks);
  }

  /** `Object.entries` lists exactly the object's own keys. */
  lemma EntriesListOwnKeys(props: seq<Prop>, k: string)
    ensures (exists i :: 0 <= i < |props| && props[i].key == k) <==> (exists i :: 0 <= i < |Entries(props)| && Entries(props)[i].key == k)
  {
    var ks := Keys(props, KeyOf);
    var order := EntryOrder(ks);
    var es := Entries(props);
    if exists i :: 0 <= i < |props| && props[i].key == k {
      var i :| 0 <= i < |props| && props[i].key == k;
      assert KeyOf(props[i]) in ks;
      var j :| 0 <= j < |order| && order[j] == k;
      assert es[j].key == k;
    }
    if exists i :: 0 <= i < |es| && es[i].key == k {
      var i :| 0 <= i < |es| && es[i].key == k;
      assert order[i] in ks;
    }
  }

  /**
   * `Number.prototype.toString()`: integers below 10^21 in magnitude print
   * in plain decimal; other finite values print as `fraction` renders them.
   */
  function NumberText(n: Number, fraction: real -> string): string {
    match n
    case NaN => "NaN"
    case PosInf => "Infinity"
    case NegInf => "-Infinity"
    case Finite(v) =>
      if v == v.Floor as real && -1_000_000_000_000_000_000_000.0 < v < 1_000_000_000_000_000_000_000.0
      then IntToString(v.Floor) else fraction(v)
  }

  /** `${v}` in a template literal. */
  function Text(v: Value, fraction: real -> string): string {
    match v
    case Undefined => "undefined"
    case Null => "null"
    case Bool(b) => if b then "true" else "false"
    case Num(n) => NumberText(n, fraction)
    case Str(s) => s
    case Func(source) => source
    case Obj(_) => "[object Object]"
  }
}

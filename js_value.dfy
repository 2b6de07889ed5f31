/** JavaScript values as the session store sees them.

    Only what the store relies on is modelled: the primitive kinds, plain
    objects (as the ordered list of their own entries, the order
    `Object.entries` yields), property access and truthiness. */
module JsValue {

  /** A JavaScript value. Numbers are integers here (no NaN, no fractions). */
  datatype Value =
    | Undefined
    | Null
    | Bool(b: bool)
    | Num(n: int)
    | Str(s: string)
    | Obj(entries: Entries)

  /** The own enumerable entries of a plain object, in enumeration order. */
  type Entries = seq<(string, Value)>

  /** The properties of an object that is only ever read or written by key. */
  type Fields = map<string, Value>

  /** `v == null` in JavaScript: true exactly for `null` and `undefined`. */
  predicate IsNullish(v: Value) {
    v.Undefined? || v.Null?
  }

  /** JavaScript truthiness, as used by `x ? a : b` and `a || b`. */
  predicate Truthy(v: Value) {
    match v
    case Undefined => false
    case Null => false
    case Bool(b) => b
    case Num(n) => n != 0
    case Str(s) => s != ""
    case Obj(_) => true
  }

  /** `a || b`: the left operand when it is truthy, else the right one. */
  function Or(a: Value, b: Value): (r: Value)
    ensures Truthy(r) <==> Truthy(a) || Truthy(b)
    ensures r == a || r == b
  {
    if Truthy(a) then a else b
  }

  /** The keys an entry list mentions. */
  function KeySet(es: Entries): set<string> {
    set e | e in es :: e.0
  }

  /** Property `k` of the object whose entries are `es`: the last entry
      with that key wins (as in an object literal), `undefined` if none. */
  function Lookup(es: Entries, k: string): (r: Value)
    ensures k !in KeySet(es) ==> r == Undefined
    decreases |es|
  {
    if es == [] then Undefined
    else if es[|es| - 1].0 == k then es[|es| - 1].1
    else Lookup(es[..|es| - 1], k)
  }

  /** `obj.k` for an object read by key: `undefined` when absent. */
  function Get(obj: Fields, k: string): Value {
    if k in obj then obj[k] else Undefined
  }

  /** `v.k` for a value that is neither `null` nor `undefined` (on those the
      access throws). Primitives have none of the properties the store reads. */
  function Prop(v: Value, k: string): (r: Value)
    requires !IsNullish(v)
    ensures !v.Obj? ==> r == Undefined
  {
    match v
    case Obj(es) => Lookup(es, k)
    case _ => Undefined
  }
}

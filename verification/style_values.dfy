/**
 * The style values the jss core manipulates (`JssStyle`, `JssValue` and `Styles` in
 * packages/jss/src/types/jss.ts), as an inductive datatype.
 *
 * Every JavaScript object carries a `Ref`, its identity: two values with the same
 * `Ref` are the same object. Object allocation is modelled by a counter of the next
 * unused `Ref`, threaded through the operations that allocate.
 */
module StyleValues {
  import opened Wrappers

  type Ref = nat

  /** JavaScript primitives. Numbers are modelled as integers. */
  datatype Primitive = Str(s: string) | Num(n: int) | Bool(b: bool) | Null | Undefined

  /**
   * A style value: a primitive, a function (opaque, compared by identity, never
   * invoked), an array, a plain object, or any other object. An object is plain when its
   * `constructor` property reads as `Object`, the constructor of `{}`; every other object
   * (an observable, a class instance, an `Object.create(null)` object, or a literal with
   * an own `constructor` key such as `{constructor: 'x'}`) is `Opaque`. Objects list
   * their enumerable own properties in `for…in` order.
   */
  datatype Value =
    | Prim(p: Primitive)
    | Fn(ref: Ref)
    | Arr(ref: Ref, items: seq<Value>)
    | Plain(ref: Ref, entries: seq<Entry>)
    | Opaque(ref: Ref, entries: seq<Entry>)

  datatype Entry = Entry(key: string, val: Value)

  /** JavaScript `typeof`. */
  function TypeOf(v: Value): string {
    match v
    case Prim(Str(_)) => "string"
    case Prim(Num(_)) => "number"
    case Prim(Bool(_)) => "boolean"
    case Prim(Undefined) => "undefined"
    case Prim(Null) => "object"
    case Fn(_) => "function"
    case _ => "object"
  }

  /** JavaScript falsiness (`!v`). */
  predicate Falsy(v: Value) {
    match v
    case Prim(Str(s)) => s == ""
    case Prim(Num(n)) => n == 0
    case Prim(Bool(b)) => !b
    case Prim(Null) => true
    case Prim(Undefined) => true
    case _ => false
  }

  function Keys(es: seq<Entry>): (ks: seq<string>)
    ensures |ks| == |es|
    ensures forall i :: 0 <= i < |es| ==> ks[i] == es[i].key
  {
    if |es| == 0 then [] else [es[0].key] + Keys(es[1..])
  }

  /** A JavaScript object never has two properties with the same key. */
  predicate UniqueKeys(es: seq<Entry>) {
    forall i, j :: 0 <= i < j < |es| ==> es[i].key != es[j].key
  }

  /** Property access `obj[k]`, `None` when the key is absent. */
  function Lookup(es: seq<Entry>, k: string): Option<Value> {
    if |es| == 0 then None
    else if es[0].key == k then Some(es[0].val)
    else Lookup(es[1..], k)
  }

  /** `a` is `b` with some elements dropped, order kept. */
  predicate Subseq<T(==)>(a: seq<T>, b: seq<T>) {
    if |a| == 0 then true
    else if |b| == 0 then false
    else (a[0] == b[0] && Subseq(a[1..], b[1..])) || Subseq(a, b[1..])
  }

  /**
   * The value with the identity of every array and plain object forgotten:
   * two values have the same shape when they are deep-equal copies of each other.
   * Functions and non-plain objects keep their identity (and their contents).
   */
  function Shape(v: Value): Value
    decreases v
  {
    match v
    case Arr(_, items) => Arr(0, ShapeItems(items))
    case Plain(_, es) => Plain(0, ShapeEntries(es))
    case _ => v
  }

  function ShapeItems(xs: seq<Value>): (r: seq<Value>)
    ensures |r| == |xs|
    ensures forall i :: 0 <= i < |xs| ==> r[i] == Shape(xs[i])
    decreases xs
  {
    if |xs| == 0 then [] else [Shape(xs[0])] + ShapeItems(xs[1..])
  }

  function ShapeEntries(es: seq<Entry>): (r: seq<Entry>)
    ensures |r| == |es|
    ensures forall i :: 0 <= i < |es| ==> r[i] == Entry(es[i].key, Shape(es[i].val))
    decreases es
  {
    if |es| == 0 then [] else [Entry(es[0].key, Shape(es[0].val))] + ShapeEntries(es[1..])
  }

  /** Identities of the arrays and plain objects reachable from `v` through arrays and plain objects only. */
  function SpineRefs(v: Value): set<Ref>
    decreases v
  {
    match v
    case Arr(r, items) => {r} + SpineItemRefs(items)
    case Plain(r, es) => {r} + SpineEntryRefs(es)
    case _ => {}
  }

  function SpineItemRefs(xs: seq<Value>): set<Ref>
    decreases xs
  {
    if |xs| == 0 then {} else SpineRefs(xs[0]) + SpineItemRefs(xs[1..])
  }

  function SpineEntryRefs(es: seq<Entry>): set<Ref>
    decreases es
  {
    if |es| == 0 then {} else SpineRefs(es[0].val) + SpineEntryRefs(es[1..])
  }

  /** Identities of every object and function reachable from `v`. */
  function AllRefs(v: Value): set<Ref>
    decreases v
  {
    match v
    case Prim(_) => {}
    case Fn(r) => {r}
    case Arr(r, items) => {r} + AllItemRefs(items)
    case Plain(r, es) => {r} + AllEntryRefs(es)
    case Opaque(r, es) => {r} + AllEntryRefs(es)
  }

  function AllItemRefs(xs: seq<Value>): set<Ref>
    decreases xs
  {
    if |xs| == 0 then {} else AllRefs(xs[0]) + AllItemRefs(xs[1..])
  }

  function AllEntryRefs(es: seq<Entry>): set<Ref>
    decreases es
  {
    if |es| == 0 then {} else AllRefs(es[0].val) + AllEntryRefs(es[1..])
  }

  /** Every reference in `s` lies in `[lo, hi)`. */
  predicate Within(s: set<Ref>, lo: Ref, hi: Ref) {
    forall r :: r in s ==> lo <= r < hi
  }

  /** No two arrays or plain objects on the spine of `v` share an identity: no spine object is aliased. */
  predicate DistinctSpine(v: Value)
    decreases v
  {
    match v
    case Arr(r, items) => r !in SpineItemRefs(items) && DistinctItems(items)
    case Plain(r, es) => r !in SpineEntryRefs(es) && DistinctEntries(es)
    case _ => true
  }

  predicate DistinctItems(xs: seq<Value>)
    decreases xs
  {
    |xs| == 0 || (SpineRefs(xs[0]) !! SpineItemRefs(xs[1..]) && DistinctSpine(xs[0]) && DistinctItems(xs[1..]))
  }

  predicate DistinctEntries(es: seq<Entry>)
    decreases es
  {
    |es| == 0 || (SpineRefs(es[0].val) !! SpineEntryRefs(es[1..]) && DistinctSpine(es[0].val) && DistinctEntries(es[1..]))
  }
}

/**
 * `cloneStyle` (packages/jss/src/utils/cloneStyle.ts): a deep copy of a style value
 * that copies arrays and plain objects and shares everything else.
 * `next` is the first unused object identity; each result returns the next unused one.
 */
module CloneStyle {
  import opened StyleValues

  /**
   * Falsy and non-object values come back as they are; an array becomes a new array of
   * cloned elements; a non-plain object comes back by reference; a plain object becomes a
   * new object with the same keys in the same order and cloned values.
   */
  function Clone(v: Value, next: Ref): (res: (Value, Ref))
    ensures next <= res.1
    ensures Shape(res.0) == Shape(v)
    ensures Within(SpineRefs(res.0), next, res.1)
    ensures DistinctSpine(res.0)
    ensures Falsy(v) || TypeOf(v) != "object" ==> res == (v, next)
    ensures v.Opaque? ==> res == (v, next)
    ensures v.Arr? ==> res.0.Arr? && res.0.ref == next && |res.0.items| == |v.items|
    ensures v.Arr? ==> forall i :: 0 <= i < |v.items| ==> Shape(res.0.items[i]) == Shape(v.items[i])
    ensures v.Plain? ==> res.0.Plain? && res.0.ref == next && Keys(res.0.entries) == Keys(v.entries)
    ensures v.Plain? ==> forall i :: 0 <= i < |v.entries| ==> Shape(res.0.entries[i].val) == Shape(v.entries[i].val)
    decreases v
  {
    match v
    case Arr(_, items) =>
      var (items', n) := CloneItems(items, next + 1);
      (Arr(next, items'), n)
    case Plain(_, es) =>
      var (es', n) := CloneEntries(es, next + 1);
      (Plain(next, es'), n)
    case _ => (v, next)
  }

  /** `style.map(cloneStyle)`: the elements cloned one after another. */
  function CloneItems(xs: seq<Value>, next: Ref): (res: (seq<Value>, Ref))
    ensures next <= res.1
    ensures |res.0| == |xs|
    ensures ShapeItems(res.0) == ShapeItems(xs)
    ensures Within(SpineItemRefs(res.0), next, res.1)
    ensures DistinctItems(res.0)
    decreases xs
  {
    if |xs| == 0 then ([], next)
    else
      var (x, n1) := Clone(xs[0], next);
      var (rest, n2) := CloneItems(xs[1..], n1);
      ([x] + rest, n2)
  }

  /** The `for…in` loop copying every property of a plain object. */
  function CloneEntries(es: seq<Entry>, next: Ref): (res: (seq<Entry>, Ref))
    ensures next <= res.1
    ensures Keys(res.0) == Keys(es)
    ensures ShapeEntries(res.0) == ShapeEntries(es)
    ensures Within(SpineEntryRefs(res.0), next, res.1)
    ensures DistinctEntries(res.0)
    decreases es
  {
    if |es| == 0 then ([], next)
    else
      var (x, n1) := Clone(es[0].val, next);
      var (rest, n2) := CloneEntries(es[1..], n1);
      ([Entry(es[0].key, x)] + rest, n2)
  }
}

module CloneLemmas {
  import opened StyleValues
  import opened CloneStyle

  /** Cloning a clone gives a value deep-equal to the first clone. */
  lemma CloneIdempotent(v: Value, n: Ref, m: Ref)
    ensures Shape(Clone(Clone(v, n).0, m).0) == Shape(Clone(v, n).0)
    ensures Shape(Clone(Clone(v, n).0, m).0) == Shape(v)
  {
  }

  /**
   * When every object of the input was allocated before `next`, the clone shares no
   * array or plain object with the input: writing into the clone's spine cannot reach
   * the caller's data.
   */
  lemma CloneSharesNoSpine(v: Value, next: Ref)
    requires Within(AllRefs(v), 0, next)
    ensures SpineRefs(Clone(v, next).0) !! AllRefs(v)
  {
  }

  /** A cloned plain object is a well-formed JavaScript object exactly when the original is. */
  lemma CloneKeepsUniqueKeys(es: seq<Entry>, next: Ref)
    ensures UniqueKeys(CloneEntries(es, next).0) <==> UniqueKeys(es)
  {
    var c := CloneEntries(es, next).0;
    assert Keys(c) == Keys(es);
    assert forall i :: 0 <= i < |es| ==> c[i].key == Keys(c)[i] == Keys(es)[i] == es[i].key;
  }
}

/**
 * `getDynamicStyles` (packages/jss/src/utils/getDynamicStyles.ts): the subset of a
 * styles object whose values are functions, nested objects kept only when they hold
 * functions themselves, or `null` when there are none.
 */
module DynamicStyles {
  import opened Wrappers
  import opened StyleValues

  /** `typeof v === 'object' && v !== null && !Array.isArray(v)`: the values the extraction descends into. */
  predicate Descends(v: Value) {
    TypeOf(v) == "object" && v != Prim(Primitive.Null) && !v.Arr?
  }

  /** Reference definition: a function is reachable from these properties through non-array objects. */
  predicate HasDynamic(es: seq<Entry>)
    decreases es
  {
    exists i :: 0 <= i < |es| && Contributes(es[i].val)
  }

  /** The property `v` contributes to an extraction: a function, or an object holding one. */
  predicate Contributes(v: Value)
    decreases v
  {
    v.Fn? || (Descends(v) && HasDynamic(v.entries))
  }

  /** The shape of every extraction result: functions at the leaves, non-empty plain objects above them. */
  predicate DynamicTree(v: Value)
    decreases v
  {
    v.Fn? || (v.Plain? && |v.entries| > 0 && forall i :: 0 <= i < |v.entries| ==> DynamicTree(v.entries[i].val))
  }

  lemma HasDynamicCons(es: seq<Entry>)
    requires |es| > 0
    ensures HasDynamic(es) <==> Contributes(es[0].val) || HasDynamic(es[1..])
  {
    if Contributes(es[0].val) {
      assert 0 <= 0 < |es| && Contributes(es[0].val);
    }
    if HasDynamic(es[1..]) {
      HasDynamicFromTail(es);
    }
    if HasDynamic(es) && !Contributes(es[0].val) {
      HasDynamicInTail(es);
    }
  }

  lemma HasDynamicFromTail(es: seq<Entry>)
    requires |es| > 0 && HasDynamic(es[1..])
    ensures HasDynamic(es)
  {
    var tail := es[1..];
    var i :| 0 <= i < |tail| && Contributes(tail[i].val);
    assert es[i + 1] == tail[i];
  }

  lemma HasDynamicInTail(es: seq<Entry>)
    requires |es| > 0 && HasDynamic(es) && !Contributes(es[0].val)
    ensures HasDynamic(es[1..])
  {
    var tail := es[1..];
    var i :| 0 <= i < |es| && Contributes(es[i].val);
    assert i > 0;
    assert tail[i - 1] == es[i];
  }

  /**
   * The `for…in` loop: the kept properties in input order, a function copied by
   * reference, a nested object replaced by its own non-null extraction. Objects are
   * allocated only for results that are kept.
   */
  function Kept(es: seq<Entry>, next: Ref): (res: (seq<Entry>, Ref))
    ensures next <= res.1
    ensures |res.0| == 0 <==> !HasDynamic(es)
    ensures |res.0| == 0 ==> res.1 == next
    ensures Subseq(Keys(res.0), Keys(es))
    ensures forall i :: 0 <= i < |res.0| ==> DynamicTree(res.0[i].val)
    ensures Within(SpineEntryRefs(res.0), next, res.1)
    ensures DistinctEntries(res.0)
    decreases es, 0
  {
    if |es| == 0 then ([], next)
    else
      HasDynamicCons(es);
      var v := es[0].val;
      if v.Fn? then
        var (rest, n) := Kept(es[1..], next);
        ([Entry(es[0].key, v)] + rest, n)
      else if Descends(v) then
        var (sub, n1) := GetDynamicStyles(v.entries, next);
        var (rest, n2) := Kept(es[1..], n1);
        if sub.Some? then ([Entry(es[0].key, sub.value)] + rest, n2) else (rest, n2)
      else
        Kept(es[1..], next)
  }

  /** `getDynamicStyles(styles)`: the extracted plain object, or `None` for `null`. */
  function GetDynamicStyles(styles: seq<Entry>, next: Ref): (res: (Option<Value>, Ref))
    ensures res.0.None? <==> !HasDynamic(styles)
    ensures res.0.None? ==> res.1 == next
    ensures res.0.Some? ==> res.0.value.Plain? && DynamicTree(res.0.value)
    ensures res.0.Some? ==> Subseq(Keys(res.0.value.entries), Keys(styles))
    ensures res.0.Some? ==> Within(SpineRefs(res.0.value), next, res.1) && DistinctSpine(res.0.value)
    decreases styles, 1
  {
    var (kept, n) := Kept(styles, next);
    if |kept| == 0 then (None, n) else (Some(Plain(n, kept)), n + 1)
  }
}

module DynamicStylesLemmas {
  import opened Wrappers
  import opened StyleValues
  import opened DynamicStyles

  /** The content of an extraction does not depend on where object allocation starts. */
  lemma {:induction false} KeptShapeIndependent(es: seq<Entry>, n1: Ref, n2: Ref)
    ensures ShapeEntries(Kept(es, n1).0) == ShapeEntries(Kept(es, n2).0)
    decreases es, 0
  {
    if |es| > 0 {
      var e := es[0];
      if e.val.Fn? {
        KeptShapeIndependent(es[1..], n1, n2);
        KeptFunction(es, n1);
        KeptFunction(es, n2);
        ShapeEntriesCons(e, e, Kept(es[1..], n1).0, Kept(es[1..], n2).0);
      } else if Descends(e.val) {
        DynamicShapeIndependent(e.val.entries, n1, n2);
        var (s1, m1) := GetDynamicStyles(e.val.entries, n1);
        var (s2, m2) := GetDynamicStyles(e.val.entries, n2);
        KeptShapeIndependent(es[1..], m1, m2);
        KeptObject(es, n1);
        KeptObject(es, n2);
        if s1.Some? {
          ShapeEntriesCons(Entry(e.key, s1.value), Entry(e.key, s2.value), Kept(es[1..], m1).0, Kept(es[1..], m2).0);
        }
      } else {
        KeptShapeIndependent(es[1..], n1, n2);
        KeptOther(es, n1);
        KeptOther(es, n2);
      }
    }
  }

  /** A function property is kept by reference, ahead of what the rest keeps. */
  lemma KeptFunction(es: seq<Entry>, next: Ref)
    requires |es| > 0 && es[0].val.Fn?
    ensures Kept(es, next).0 == [es[0]] + Kept(es[1..], next).0
  {
  }

  /** An object property is kept as its extraction when that is not null, and the rest continues after its allocations. */
  lemma KeptObject(es: seq<Entry>, next: Ref)
    requires |es| > 0 && !es[0].val.Fn? && Descends(es[0].val)
    ensures var (sub, n) := GetDynamicStyles(es[0].val.entries, next);
      Kept(es, next).0 == if sub.Some? then [Entry(es[0].key, sub.value)] + Kept(es[1..], n).0 else Kept(es[1..], n).0
  {
  }

  /** Any other property is dropped. */
  lemma KeptOther(es: seq<Entry>, next: Ref)
    requires |es| > 0 && !es[0].val.Fn? && !Descends(es[0].val)
    ensures Kept(es, next).0 == Kept(es[1..], next).0
  {
  }

  /** Entries with equal keys and shapes, followed by rests of equal shape, have equal shape. */
  lemma ShapeEntriesCons(a: Entry, b: Entry, ra: seq<Entry>, rb: seq<Entry>)
    requires a.key == b.key && Shape(a.val) == Shape(b.val) && ShapeEntries(ra) == ShapeEntries(rb)
    ensures ShapeEntries([a] + ra) == ShapeEntries([b] + rb)
  {
    assert ([a] + ra)[1..] == ra;
    assert ([b] + rb)[1..] == rb;
  }

  lemma {:induction false} DynamicShapeIndependent(styles: seq<Entry>, n1: Ref, n2: Ref)
    ensures GetDynamicStyles(styles, n1).0.Some? == GetDynamicStyles(styles, n2).0.Some?
    ensures GetDynamicStyles(styles, n1).0.Some? ==>
      Shape(GetDynamicStyles(styles, n1).0.value) == Shape(GetDynamicStyles(styles, n2).0.value)
    decreases styles, 1
  {
    KeptShapeIndependent(styles, n1, n2);
  }

  lemma SubseqMember<T>(a: seq<T>, b: seq<T>, x: T)
    requires Subseq(a, b)
    requires x in a
    ensures x in b
  {
    if |a| > 0 && |b| > 0 {
      if a[0] == b[0] && Subseq(a[1..], b[1..]) {
        if x != a[0] {
          SubseqMember(a[1..], b[1..], x);
        }
      } else {
        SubseqMember(a, b[1..], x);
      }
    }
  }

  lemma LookupAbsent(es: seq<Entry>, k: string)
    requires k !in Keys(es)
    ensures Lookup(es, k) == None
  {
    if |es| > 0 {
      assert Keys(es)[0] == es[0].key;
      assert Keys(es[1..]) == Keys(es)[1..];
      LookupAbsent(es[1..], k);
    }
  }

  /** The allocation counter after the first property of `styles` has been visited. */
  function AfterFirst(styles: seq<Entry>, next: Ref): Ref
    requires |styles| > 0
  {
    var v := styles[0].val;
    if !v.Fn? && Descends(v) then GetDynamicStyles(v.entries, next).1 else next
  }

  /** One iteration of the loop: the first property, if kept, heads the result. */
  lemma KeptStep(styles: seq<Entry>, next: Ref)
    requires |styles| > 0
    ensures var v := styles[0].val;
      var tail := Kept(styles[1..], AfterFirst(styles, next)).0;
      var kept := Kept(styles, next).0;
      && (v.Fn? ==> kept == [Entry(styles[0].key, v)] + tail)
      && (!v.Fn? && Descends(v) && HasDynamic(v.entries) ==>
            kept == [Entry(styles[0].key, GetDynamicStyles(v.entries, next).0.value)] + tail)
      && (!Contributes(v) ==> kept == tail)
  {
  }

  lemma LookupCons(x: Entry, tail: seq<Entry>, k: string)
    ensures Lookup([x] + tail, k) == if x.key == k then Some(x.val) else Lookup(tail, k)
  {
    assert ([x] + tail)[1..] == tail;
  }

  /**
   * What the extraction holds under one key, given the input's property `v` there:
   * a function is kept by reference; a non-null non-array object is kept exactly when it
   * holds a function somewhere, as its own extraction (allocated from `next`); every
   * other value (string, number, boolean, null, undefined, array, even an array of
   * functions) is dropped.
   */
  predicate ExtractedAs(v: Value, r: Option<Value>, next: Ref) {
    && (v.Fn? ==> r == Some(v))
    && (Descends(v) ==> (r.Some? <==> HasDynamic(v.entries)))
    && (Descends(v) && r.Some? ==> Shape(r.value) == Shape(GetDynamicStyles(v.entries, next).0.value))
    && (!v.Fn? && !Descends(v) ==> r == None)
  }

  lemma ExtractedAsShift(v: Value, r: Option<Value>, n1: Ref, n2: Ref)
    requires ExtractedAs(v, r, n1)
    ensures ExtractedAs(v, r, n2)
  {
    if Descends(v) && r.Some? {
      DynamicShapeIndependent(v.entries, n1, n2);
    }
  }

  /** In a well-formed object, the first key does not occur in what the rest of the loop keeps. */
  lemma KeptOmitsFirstKey(styles: seq<Entry>, n: Ref)
    requires |styles| > 0 && UniqueKeys(styles)
    ensures Lookup(Kept(styles[1..], n).0, styles[0].key) == None
  {
    var k := styles[0].key;
    var rest := styles[1..];
    var tail := Kept(rest, n).0;
    assert k !in Keys(rest) by {
      forall i | 0 <= i < |rest| ensures Keys(rest)[i] != k {
        assert rest[i] == styles[i + 1];
      }
    }
    if k in Keys(tail) {
      SubseqMember(Keys(tail), Keys(rest), k);
    }
    LookupAbsent(tail, k);
  }

  /**
   * Property by property, for a well-formed styles object, the extraction holds under
   * each key what `ExtractedAs` describes, and nothing under a key the input lacks.
   */
  lemma {:induction false} ExtractedProperty(styles: seq<Entry>, next: Ref, k: string)
    requires UniqueKeys(styles)
    ensures Lookup(styles, k).None? ==> Lookup(Kept(styles, next).0, k) == None
    ensures Lookup(styles, k).Some? ==> ExtractedAs(Lookup(styles, k).value, Lookup(Kept(styles, next).0, k), next)
    decreases styles
  {
    if |styles| > 0 {
      var v := styles[0].val;
      var rest := styles[1..];
      assert UniqueKeys(rest);
      var n1 := AfterFirst(styles, next);
      var tail := Kept(rest, n1).0;
      var kept := Kept(styles, next).0;
      KeptStep(styles, next);
      if Contributes(v) {
        LookupCons(kept[0], tail, k);
      }
      if styles[0].key == k {
        KeptOmitsFirstKey(styles, n1);
      } else {
        ExtractedProperty(rest, n1, k);
        if Lookup(rest, k).Some? {
          ExtractedAsShift(Lookup(rest, k).value, Lookup(tail, k), n1, next);
        }
      }
    }
  }

  /** `{a: {color: fn}, b: 'red'}` extracts to `{a: {color: fn}}`. */
  lemma ExtractNestedFunction(fn: Ref, r1: Ref, next: Ref)
    ensures var styles := [Entry("a", Plain(r1, [Entry("color", Fn(fn))])), Entry("b", Prim(Str("red")))];
      GetDynamicStyles(styles, next) == (Some(Plain(next + 1, [Entry("a", Plain(next, [Entry("color", Fn(fn))]))])), next + 2)
  {
    var inner := [Entry("color", Fn(fn))];
    assert inner[1..] == [];
    assert Kept(inner, next) == ([Entry("color", Fn(fn))] + [], next);
    assert [Entry("color", Fn(fn))] + [] == inner;
    assert GetDynamicStyles(inner, next) == (Some(Plain(next, inner)), next + 1);
    var styles := [Entry("a", Plain(r1, inner)), Entry("b", Prim(Str("red")))];
    assert styles[1..][1..] == [];
    assert Kept(styles[1..], next + 1) == ([], next + 1);
    assert Kept(styles, next) == ([Entry("a", Plain(next, inner))] + [], next + 1);
    assert [Entry("a", Plain(next, inner))] + [] == [Entry("a", Plain(next, inner))];
  }

  /** `{a: 'red'}` extracts to `null`, allocating nothing. */
  lemma ExtractStaticIsNull(next: Ref)
    ensures GetDynamicStyles([Entry("a", Prim(Str("red")))], next) == (None, next)
  {
    assert Kept([Entry("a", Prim(Str("red")))][1..], next).0 == [];
  }

  /** Functions inside an array are not extracted: the array is skipped as a whole. */
  lemma ExtractSkipsArrays(fn: Ref, r: Ref, next: Ref)
    ensures GetDynamicStyles([Entry("transition", Arr(r, [Fn(fn)]))], next) == (None, next)
  {
    assert Kept([Entry("transition", Arr(r, [Fn(fn)]))][1..], next).0 == [];
  }
}

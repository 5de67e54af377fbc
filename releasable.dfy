/**
 * Reference-count ownership (src/flotalk/releasable.rs).
 *
 * A `TalkContext` keeps, for every class whose allocator it has callbacks for, a reference
 * count per data handle. `counts` records the count of each reference (a reference missing from
 * the map has count 0). Cloning a value adds one count for each reference it holds, and releasing
 * it removes one. References to a class without callbacks are copied and dropped without any
 * change to the counts.
 *
 * `TalkValue::remove_reference` (value.rs) and `TalkReference::remove_reference` (reference.rs)
 * are not part of this model: they are taken to mirror `clone_in_context`, so releasing a value
 * removes one count for the reference it holds, and for each reference held by an array element.
 */
module Releasables {
  import opened Wrappers
  import opened TalkValues

  // ---------------------------------------------------------------------------------------
  // The references a value holds

  /** The references a value holds, in order: its own reference, or those of its elements. */
  function References(v: TalkValue): (refs: seq<TalkReference>)
    decreases v, 1
    ensures v.Reference? ==> refs == [v.reference]
    ensures !v.Reference? && !v.Array? ==> refs == []
  {
    match v
    case Reference(r) => [r]
    case Array(items) => ReferencesOfAll(items)
    case _ => []
  }

  /** The references held by a list of values, in order. */
  function ReferencesOfAll(vs: seq<TalkValue>): seq<TalkReference>
    decreases vs, 0
  {
    if |vs| == 0 then []
    else ReferencesOfAll(vs[..|vs| - 1]) + References(vs[|vs| - 1])
  }

  lemma ReferencesOfAllAppend(vs: seq<TalkValue>, v: TalkValue)
    ensures ReferencesOfAll(vs + [v]) == ReferencesOfAll(vs) + References(v)
  {
    assert (vs + [v])[..|vs|] == vs;
  }

  // ---------------------------------------------------------------------------------------
  // Specification of the counts

  /** The count of a reference; one missing from the map has count 0. */
  function Count(counts: map<TalkReference, int>, r: TalkReference): int
  {
    if r in counts then counts[r] else 0
  }

  /** `add_reference` (`delta == 1`) or `remove_reference` (`delta == -1`) through the class's callbacks, if it has any. */
  function Adjust(counts: map<TalkReference, int>, callbacks: set<TalkClass>, r: TalkReference, delta: int): map<TalkReference, int>
  {
    if r.classId in callbacks then counts[r := Count(counts, r) + delta] else counts
  }

  /** `Adjust` applied to every reference of a list, in order. */
  function AdjustAll(counts: map<TalkReference, int>, callbacks: set<TalkClass>, refs: seq<TalkReference>, delta: int): map<TalkReference, int>
  {
    if |refs| == 0 then counts
    else Adjust(AdjustAll(counts, callbacks, refs[..|refs| - 1], delta), callbacks, refs[|refs| - 1], delta)
  }

  /** How many times `r` occurs in `refs`. */
  function Occurrences(refs: seq<TalkReference>, r: TalkReference): nat
  {
    if |refs| == 0 then 0
    else Occurrences(refs[..|refs| - 1], r) + (if refs[|refs| - 1] == r then 1 else 0)
  }

  /**
   * The effect of adjusting a list of references: a reference to a class with callbacks changes
   * by `delta` once for each time it occurs, and every other count is unchanged.
   */
  lemma {:induction false} AdjustAllCount(counts: map<TalkReference, int>, callbacks: set<TalkClass>, refs: seq<TalkReference>, delta: int, r: TalkReference)
    ensures r.classId in callbacks ==> Count(AdjustAll(counts, callbacks, refs, delta), r) == Count(counts, r) + delta * Occurrences(refs, r)
    ensures r.classId !in callbacks ==> Count(AdjustAll(counts, callbacks, refs, delta), r) == Count(counts, r)
  {
    if |refs| > 0 {
      var prefix, last := refs[..|refs| - 1], refs[|refs| - 1];
      var before := AdjustAll(counts, callbacks, prefix, delta);
      var n := Occurrences(prefix, r);
      AdjustAllCount(counts, callbacks, prefix, delta, r);
      assert AdjustAll(counts, callbacks, refs, delta) == Adjust(before, callbacks, last, delta);
      AdjustCount(before, callbacks, last, delta, r);
      if last == r {
        assert Occurrences(refs, r) == n + 1;
        MultiplySuccessor(delta, n);
      } else {
        assert Occurrences(refs, r) == n;
      }
    }
  }

  /** Adjusting a one-reference list is one adjustment. */
  lemma AdjustAllSingle(counts: map<TalkReference, int>, callbacks: set<TalkClass>, r: TalkReference, delta: int)
    ensures AdjustAll(counts, callbacks, [r], delta) == Adjust(counts, callbacks, r, delta)
  {
    assert [r][..0] == [];
  }

  /** The one nonlinear step of `AdjustAllCount`. */
  lemma MultiplySuccessor(delta: int, n: int)
    ensures delta * (n + 1) == delta * n + delta
  {
  }

  /** One adjustment changes the count of the adjusted reference alone, and only when its class has callbacks. */
  lemma AdjustCount(counts: map<TalkReference, int>, callbacks: set<TalkClass>, adjusted: TalkReference, delta: int, r: TalkReference)
    ensures Count(Adjust(counts, callbacks, adjusted, delta), r)
      == Count(counts, r) + (if adjusted == r && r.classId in callbacks then delta else 0)
  {
  }

  /** Adjusting the references of `a + b` is adjusting those of `a`, then those of `b`. */
  lemma {:induction false} AdjustAllAppend(counts: map<TalkReference, int>, callbacks: set<TalkClass>, a: seq<TalkReference>, b: seq<TalkReference>, delta: int)
    ensures AdjustAll(counts, callbacks, a + b, delta) == AdjustAll(AdjustAll(counts, callbacks, a, delta), callbacks, b, delta)
  {
    if |b| == 0 {
      assert a + b == a;
    } else {
      assert (a + b)[..|a + b| - 1] == a + b[..|b| - 1];
      AdjustAllAppend(counts, callbacks, a, b[..|b| - 1], delta);
    }
  }

  /** Adjusting the references of the first `i + 1` items is adjusting those of the first `i`, then those of item `i`. */
  lemma AdjustAllPrefix(counts: map<TalkReference, int>, callbacks: set<TalkClass>, items: seq<TalkValue>, i: nat, delta: int)
    requires i < |items|
    ensures AdjustAll(counts, callbacks, ReferencesOfAll(items[..i + 1]), delta)
      == AdjustAll(AdjustAll(counts, callbacks, ReferencesOfAll(items[..i]), delta), callbacks, References(items[i]), delta)
  {
    assert items[..i + 1] == items[..i] + [items[i]];
    ReferencesOfAllAppend(items[..i], items[i]);
    AdjustAllAppend(counts, callbacks, ReferencesOfAll(items[..i]), References(items[i]), delta);
  }

  /** Cloning and then releasing the same references leaves every count as it was. */
  lemma CloneThenRelease(counts: map<TalkReference, int>, callbacks: set<TalkClass>, refs: seq<TalkReference>)
    ensures forall r :: Count(AdjustAll(AdjustAll(counts, callbacks, refs, 1), callbacks, refs, -1), r) == Count(counts, r)
  {
    forall r
      ensures Count(AdjustAll(AdjustAll(counts, callbacks, refs, 1), callbacks, refs, -1), r) == Count(counts, r)
    {
      AdjustAllCount(counts, callbacks, refs, 1, r);
      AdjustAllCount(AdjustAll(counts, callbacks, refs, 1), callbacks, refs, -1, r);
    }
  }

  /**
   * Releasing a value that is a reference removes exactly one count from that reference, when
   * its class has callbacks, and changes no other count.
   */
  lemma ReleaseReferenceValue(counts: map<TalkReference, int>, callbacks: set<TalkClass>, r: TalkReference)
    ensures var after := AdjustAll(counts, callbacks, References(Reference(r)), -1);
      && (r.classId in callbacks ==> Count(after, r) == Count(counts, r) - 1)
      && (r.classId !in callbacks ==> after == counts)
      && forall other :: other != r ==> Count(after, other) == Count(counts, other)
  {
    assert References(Reference(r))[..0] == [];
  }

  // ---------------------------------------------------------------------------------------
  // The context

  /** `TalkContext`, reduced to the classes it has callbacks for and their reference counts. */
  class TalkContext {
    var callbacks: set<TalkClass>
    var counts: map<TalkReference, int>

    constructor (callbacks: set<TalkClass>)
      ensures this.callbacks == callbacks && counts == map[]
    {
      this.callbacks := callbacks;
      counts := map[];
    }

    /**
     * `TalkReference::clone_in_context` (lines 146-152): the same reference, with one more
     * count when its class has callbacks.
     */
    method CloneReference(r: TalkReference) returns (clone: TalkReference)
      modifies this
      ensures clone == r
      ensures callbacks == old(callbacks)
      ensures counts == Adjust(old(counts), callbacks, r, 1)
    {
      clone := TalkReference(r.classId, r.handle);
      if r.classId in callbacks {
        counts := counts[r := Count(counts, r) + 1];
      }
    }

    /** `TalkReference::release_in_context` (lines 136-138): one count less, when the class has callbacks. */
    method ReleaseReference(r: TalkReference)
      modifies this
      ensures callbacks == old(callbacks)
      ensures counts == Adjust(old(counts), callbacks, r, -1)
    {
      if r.classId in callbacks {
        counts := counts[r := Count(counts, r) - 1];
      }
    }

    /**
     * `TalkValue::clone_in_context` (lines 112-128): scalars are copied unchanged, a reference
     * is cloned and an array is cloned element by element, keeping length and order; every
     * reference the value holds gains one count.
     */
    method CloneValue(v: TalkValue) returns (clone: TalkValue)
      modifies this
      decreases v
      ensures clone == v
      ensures callbacks == old(callbacks)
      ensures counts == AdjustAll(old(counts), callbacks, References(v), 1)
    {
      match v {
        case Reference(r) =>
          var cloned := CloneReference(r);
          clone := Reference(cloned);
          AdjustAllSingle(old(counts), callbacks, r, 1);
        case Array(items) =>
          var cloned := CloneAll(items);
          clone := Array(cloned);
        case _ =>
          clone := v;
      }
    }

    /** The clone of an array's items (line 124): each item is cloned, in iteration order. */
    method CloneAll(items: seq<TalkValue>) returns (cloned: seq<TalkValue>)
      modifies this
      decreases items, 1
      ensures cloned == items
      ensures callbacks == old(callbacks)
      ensures counts == AdjustAll(old(counts), callbacks, ReferencesOfAll(items), 1)
    {
      cloned := [];
      for i := 0 to |items|
        invariant cloned == items[..i]
        invariant callbacks == old(callbacks)
        invariant counts == AdjustAll(old(counts), callbacks, ReferencesOfAll(items[..i]), 1)
      {
        var element := CloneValue(items[i]);
        AdjustAllPrefix(old(counts), callbacks, items, i, 1);
        cloned := cloned + [element];
      }
      assert items[..|items|] == items;
    }

    /**
     * `TalkValue::release_in_context` (lines 100-102): every reference the value holds loses
     * one count.
     */
    method ReleaseValue(v: TalkValue)
      modifies this
      decreases v
      ensures callbacks == old(callbacks)
      ensures counts == AdjustAll(old(counts), callbacks, References(v), -1)
    {
      match v {
        case Reference(r) =>
          ReleaseReference(r);
          AdjustAllSingle(old(counts), callbacks, r, -1);
        case Array(items) =>
          ReleaseAll(items);
        case _ =>
      }
    }

    /**
     * The release of a collection (lines 161-163): each item is released, in iteration order.
     */
    method ReleaseAll(items: seq<TalkValue>)
      modifies this
      decreases items, 1
      ensures callbacks == old(callbacks)
      ensures counts == AdjustAll(old(counts), callbacks, ReferencesOfAll(items), -1)
    {
      for i := 0 to |items|
        invariant callbacks == old(callbacks)
        invariant counts == AdjustAll(old(counts), callbacks, ReferencesOfAll(items[..i]), -1)
      {
        ReleaseValue(items[i]);
        AdjustAllPrefix(old(counts), callbacks, items, i, -1);
      }
      assert items[..|items|] == items;
    }
  }

  // ---------------------------------------------------------------------------------------
  // Owned values

  /** The releasable things a `TalkOwned` holds in the modelled code. */
  datatype Releasable =
    | Value(value: TalkValue)
    | Ref(reference: TalkReference)
    | Values(values: seq<TalkValue>)

  /** The references a releasable holds. */
  function ReleasableReferences(item: Releasable): seq<TalkReference>
  {
    match item
    case Value(v) => References(v)
    case Ref(r) => [r]
    case Values(vs) => ReferencesOfAll(vs)
  }

  /** `TalkOwned`: a value that is released in its context when dropped. */
  class TalkOwned {
    const context: TalkContext
    var value: Option<Releasable>

    /** `TalkOwned::new` (lines 47-52): owns the value; no count changes. */
    constructor (value: Releasable, context: TalkContext)
      ensures this.value == Some(value) && this.context == context
    {
      this.context := context;
      this.value := Some(value);
    }

    /**
     * `drop` (lines 60-62): takes the value out and releases it, so its references lose one
     * count each; the owner is left empty and cannot release again.
     */
    method Drop()
      requires value.Some?
      modifies this, context
      ensures value == None
      ensures context.callbacks == old(context.callbacks)
      ensures context.counts == AdjustAll(old(context.counts), context.callbacks, ReleasableReferences(old(value).value), -1)
    {
      var item := value.value;
      value := None;
      match item {
        case Value(v) => context.ReleaseValue(v);
        case Ref(r) =>
          context.ReleaseReference(r);
          assert [r][..0] == [];
        case Values(vs) => context.ReleaseAll(vs);
      }
    }

    /**
     * `clone` (lines 69-77): a new owner in the same context, holding an equal value whose
     * references have each gained one count.
     */
    method Clone() returns (owned: TalkOwned)
      requires value.Some?
      modifies context
      ensures fresh(owned)
      ensures owned.context == context && owned.value == value
      ensures context.callbacks == old(context.callbacks)
      ensures context.counts == AdjustAll(old(context.counts), context.callbacks, ReleasableReferences(value.value), 1)
    {
      var item := value.value;
      var cloned: Releasable;
      match item {
        case Value(v) =>
          var c := context.CloneValue(v);
          cloned := Value(c);
        case Ref(r) =>
          var c := context.CloneReference(r);
          cloned := Ref(c);
          assert [r][..0] == [];
        case Values(vs) =>
          var c := context.CloneValue(Array(vs));
          cloned := Values(c.elements);
      }
      owned := new TalkOwned(cloned, context);
    }

    /** `deref` (lines 87-92): the owned value; an owner that was dropped cannot be dereferenced. */
    function Deref(): (item: Releasable)
      reads this
      requires value.Some?
      ensures value == Some(item)
    {
      value.value
    }
  }
}

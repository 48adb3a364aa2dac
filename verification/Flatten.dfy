/**
 * The cap of the flatteners. A flattener walks over the records of a request and stops as soon as it holds one
 * record more than the cap; without the cap the same walk yields a sequence of slots.
 */
module Flatten {
  import opened Common

  /** One record of a request: kept, or dropped because its time is outside the skew window. */
  datatype Slot<+T> = Kept(value: T) | Skewed

  datatype Parse<T> = Parse(stored: seq<T>, droppedSkew: nat)

  /** One step of the walk; nothing more happens once the cap is exceeded. */
  function Absorb<T>(out: Parse<T>, slot: Slot<T>, maxRecords: nat): Parse<T> {
    if |out.stored| > maxRecords then out
    else
      match slot
      case Kept(v) => out.(stored := out.stored + [v])
      case Skewed => out.(droppedSkew := out.droppedSkew + 1)
  }

  function AbsorbAll<T>(out: Parse<T>, slots: seq<Slot<T>>, maxRecords: nat): Parse<T> {
    if slots == [] then out
    else Absorb(AbsorbAll(out, slots[..|slots| - 1], maxRecords), slots[|slots| - 1], maxRecords)
  }

  /** The walk with the cap, from nothing. */
  function Capped<T>(slots: seq<Slot<T>>, maxRecords: nat): Parse<T> {
    AbsorbAll(Parse([], 0), slots, maxRecords)
  }

  /** All records inside the window, and how many are outside. */
  function Values<T>(slots: seq<Slot<T>>): seq<T> {
    if slots == [] then []
    else Values(slots[..|slots| - 1]) + (match slots[|slots| - 1] case Kept(v) => [v] case Skewed => [])
  }

  function SkewedCount<T>(slots: seq<Slot<T>>): nat {
    if slots == [] then 0 else SkewedCount(slots[..|slots| - 1]) + if slots[|slots| - 1].Skewed? then 1 else 0
  }

  lemma {:induction false} AbsorbAppend<T>(out: Parse<T>, a: seq<Slot<T>>, b: seq<Slot<T>>, maxRecords: nat)
    ensures AbsorbAll(out, a + b, maxRecords) == AbsorbAll(AbsorbAll(out, a, maxRecords), b, maxRecords)
    decreases |b|
  {
    if b == [] {
      assert a + b == a;
    } else {
      assert (a + b)[..|a + b| - 1] == a + b[..|b| - 1];
      AbsorbAppend(out, a, b[..|b| - 1], maxRecords);
    }
  }

  lemma {:induction false} FullStays<T>(out: Parse<T>, slots: seq<Slot<T>>, maxRecords: nat)
    requires |out.stored| > maxRecords
    ensures AbsorbAll(out, slots, maxRecords) == out
  {
    if slots != [] {
      FullStays(out, slots[..|slots| - 1], maxRecords);
    }
  }

  /** Leaving the walk early is the same as finishing it, once the cap is exceeded. */
  lemma BreakIsFinal<T>(a: seq<Slot<T>>, b: seq<Slot<T>>, maxRecords: nat)
    requires |Capped(a, maxRecords).stored| > maxRecords
    ensures Capped(a + b, maxRecords) == Capped(a, maxRecords)
  {
    AbsorbAppend(Parse([], 0), a, b, maxRecords);
    FullStays(Capped(a, maxRecords), b, maxRecords);
  }

  lemma CappedStep<T>(slots: seq<Slot<T>>, slot: Slot<T>, maxRecords: nat)
    ensures Capped(slots + [slot], maxRecords) == Absorb(Capped(slots, maxRecords), slot, maxRecords)
  {
    assert (slots + [slot])[..|slots|] == slots;
  }

  /**
   * The capped walk keeps the first maxRecords + 1 of the records inside the window, so its count exceeds the cap
   * exactly when the uncapped count does; otherwise both results are the same.
   */
  lemma {:induction false} CappedRefinesUncapped<T>(slots: seq<Slot<T>>, maxRecords: nat)
    ensures var out, all := Capped(slots, maxRecords), Values(slots);
            && out.stored == (if |all| > maxRecords then all[..maxRecords + 1] else all)
            && (|out.stored| > maxRecords <==> |all| > maxRecords)
            && (|all| <= maxRecords ==> out == Parse(all, SkewedCount(slots)))
            && out.droppedSkew <= SkewedCount(slots)
    decreases |slots|
  {
    if slots != [] {
      CappedRefinesUncapped(slots[..|slots| - 1], maxRecords);
    }
  }

  // ---------------------------------------------------------------- nested lists

  lemma FlatStep<T>(lists: seq<seq<T>>, i: nat)
    requires i < |lists|
    ensures Flat(lists[..i + 1]) == Flat(lists[..i]) + lists[i]
  {
    assert lists[..i + 1][..i] == lists[..i];
  }

  /** What lies before a position inside list i is a prefix of the whole. */
  lemma {:induction false} FlatPrefix<T>(lists: seq<seq<T>>, i: nat, part: seq<T>)
    requires i < |lists| && part <= lists[i]
    ensures Flat(lists[..i]) + part <= Flat(lists)
    decreases |lists|
  {
    if i < |lists| - 1 {
      assert lists[..|lists| - 1][..i] == lists[..i];
      FlatPrefix(lists[..|lists| - 1], i, part);
    }
  }

  /** A walk that leaves inside list j of lists that make up list i of the whole has its final result. */
  lemma BreakInside<T>(outer: seq<seq<Slot<T>>>, i: nat, inner: seq<seq<Slot<T>>>, j: nat, part: seq<Slot<T>>,
                       maxRecords: nat)
    requires i < |outer| && outer[i] == Flat(inner) && j < |inner| && part <= inner[j]
    requires |Capped(Flat(outer[..i]) + Flat(inner[..j]) + part, maxRecords).stored| > maxRecords
    ensures Capped(Flat(outer), maxRecords) == Capped(Flat(outer[..i]) + Flat(inner[..j]) + part, maxRecords)
  {
    FlatPrefix(inner, j, part);
    FlatPrefix(outer, i, Flat(inner[..j]) + part);
    var done := Flat(outer[..i]) + Flat(inner[..j]) + part;
    assert done == Flat(outer[..i]) + (Flat(inner[..j]) + part);
    assert Flat(outer) == done + Flat(outer)[|done|..];
    BreakIsFinal(done, Flat(outer)[|done|..], maxRecords);
  }

  /** The same three lists deep. */
  lemma BreakDeeper<T>(outer: seq<seq<Slot<T>>>, i: nat, mid: seq<seq<Slot<T>>>, j: nat, inner: seq<seq<Slot<T>>>,
                       k: nat,
                       part: seq<Slot<T>>, maxRecords: nat)
    requires i < |outer| && outer[i] == Flat(mid) && j < |mid| && mid[j] == Flat(inner) && k < |inner|
             && part <= inner[k]
    requires |Capped(Flat(outer[..i]) + Flat(mid[..j]) + Flat(inner[..k]) + part, maxRecords).stored| > maxRecords
    ensures Capped(Flat(outer), maxRecords)
            == Capped(Flat(outer[..i]) + Flat(mid[..j]) + Flat(inner[..k]) + part, maxRecords)
  {
    FlatPrefix(inner, k, part);
    assert Flat(outer[..i]) + Flat(mid[..j]) + Flat(inner[..k]) + part
        == Flat(outer[..i]) + Flat(mid[..j]) + (Flat(inner[..k]) + part);
    BreakInside(outer, i, mid, j, Flat(inner[..k]) + part, maxRecords);
  }
}

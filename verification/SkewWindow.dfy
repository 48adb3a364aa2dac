/**
 * What a flattener keeps, input by input: exactly the records whose time is within the skew window, in the order of
 * the request, each at the place that the ones before it leave, with the columns that the record calls for.
 */
module SkewWindow {
  import opened Common
  import opened Flatten
  import opened Logs

  /** Too old, or too far ahead. */
  predicate Outside(w: Window, t: int) {
    w.receivedAt - t > w.past || t - w.receivedAt > w.future
  }

  /** How many of the times are outside. */
  function OutsideCount(w: Window, times: seq<int>): (n: nat)
    ensures n <= |times|
  {
    if times == [] then 0
    else OutsideCount(w, times[..|times| - 1]) + if Outside(w, times[|times| - 1]) then 1 else 0
  }

  /** The place of the i-th input among what is kept. */
  function Place(w: Window, times: seq<int>, i: nat): nat
    requires i <= |times|
  {
    i - OutsideCount(w, times[..i])
  }

  /** Slot by slot: skewed exactly when the time is outside. */
  ghost predicate Follows<T>(w: Window, times: seq<int>, slots: seq<Slot<T>>) {
    |times| == |slots| && forall i :: 0 <= i < |slots| ==> (slots[i].Skewed? <==> Outside(w, times[i]))
  }

  lemma {:induction false} SkewedAreOutside<T>(w: Window, times: seq<int>, slots: seq<Slot<T>>)
    requires Follows(w, times, slots)
    ensures SkewedCount(slots) == OutsideCount(w, times) && |Values(slots)| == |slots| - SkewedCount(slots)
    decreases |slots|
  {
    if slots != [] {
      SkewedAreOutside(w, times[..|slots| - 1], slots[..|slots| - 1]);
      hide Outside;
    }
  }

  lemma {:induction false} KeptInPlace<T>(w: Window, times: seq<int>, slots: seq<Slot<T>>, i: nat)
    requires Follows(w, times, slots) && i < |slots| && slots[i].Kept?
    ensures Place(w, times, i) < |Values(slots)| && Values(slots)[Place(w, times, i)] == slots[i].value
    decreases |slots|
  {
    var n := |slots| - 1;
    var (front, ts) := (slots[..n], times[..n]);
    SkewedAreOutside(w, ts, front);
    hide Outside, OutsideCount;
    if i < n {
      assert ts[..i] == times[..i];
      KeptInPlace(w, ts, front, i);
      assert Values(front) <= Values(slots);
    }
  }

  lemma {:induction false} ValuesAreKept<T>(slots: seq<Slot<T>>, v: T)
    requires v in Values(slots)
    ensures exists i :: 0 <= i < |slots| && slots[i] == Kept(v)
  {
    var n := |slots| - 1;
    if v in Values(slots[..n]) {
      ValuesAreKept(slots[..n], v);
      var i :| 0 <= i < n && slots[..n][i] == Kept(v);
      assert slots[i] == Kept(v);
    } else {
      assert slots[n] == Kept(v);
    }
  }

  /** The slot of an input: skewed if its time is outside, and else a row that fits the input. */
  ghost predicate SlotFits<A(!new), T(!new)>(w: Window, x: A, time: A -> int, fits: (A, T) -> bool, slot: Slot<T>) {
    if Outside(w, time(x)) then slot == Skewed else slot.Kept? && fits(x, slot.value)
  }

  function Times<A>(inputs: seq<A>, time: A -> int): seq<int> {
    seq(|inputs|, i requires 0 <= i < |inputs| => time(inputs[i]))
  }

  /** Every row is that of an input inside the window. */
  ghost predicate OnlyInside<A(!new), T(!new)>(w: Window, inputs: seq<A>, time: A -> int, fits: (A, T) -> bool,
                                               stored: seq<T>)
  {
    forall v :: v in stored ==> exists x :: x in inputs && !Outside(w, time(x)) && fits(x, v)
  }

  /** What is outside is counted; each input inside has its row, at the place that those before it leave. */
  ghost predicate AllInside<A(!new), T(!new)>(w: Window, inputs: seq<A>, time: A -> int, fits: (A, T) -> bool,
                                              out: Parse<T>)
  {
    var times := Times(inputs, time);
    && out.droppedSkew == OutsideCount(w, times) && |out.stored| == |inputs| - OutsideCount(w, times)
    && forall i :: 0 <= i < |inputs| && !Outside(w, times[i]) ==>
         Place(w, times, i) < |out.stored| && fits(inputs[i], out.stored[Place(w, times, i)])
  }

  /** Above the cap the walk stops one row later; up to it nothing is missing. */
  ghost predicate KeepsInside<A(!new), T(!new)>(w: Window, inputs: seq<A>, time: A -> int, fits: (A, T) -> bool,
                                                maxRecords: nat, out: Parse<T>)
  {
    && OnlyInside(w, inputs, time, fits, out.stored)
    && if |inputs| - OutsideCount(w, Times(inputs, time)) > maxRecords then |out.stored| == maxRecords + 1
       else AllInside(w, inputs, time, fits, out)
  }

  ghost predicate AllFit<A(!new), T(!new)>(w: Window, inputs: seq<A>, time: A -> int, fits: (A, T) -> bool,
                                           slots: seq<Slot<T>>)
  {
    |slots| == |inputs| && forall i :: 0 <= i < |slots| ==> SlotFits(w, inputs[i], time, fits, slots[i])
  }

  lemma StoredIsInside<A(!new), T(!new)>(w: Window, inputs: seq<A>, time: A -> int, fits: (A, T) -> bool,
                                         slots: seq<Slot<T>>, v: T)
    requires AllFit(w, inputs, time, fits, slots) && v in Values(slots)
    ensures exists x :: x in inputs && !Outside(w, time(x)) && fits(x, v)
  {
    hide Outside;
    ValuesAreKept(slots, v);
    var i :| 0 <= i < |slots| && slots[i] == Kept(v);
    assert SlotFits(w, inputs[i], time, fits, slots[i]) && inputs[i] in inputs;
  }

  lemma UncutKeeps<A(!new), T(!new)>(w: Window, inputs: seq<A>, time: A -> int, fits: (A, T) -> bool,
                                     slots: seq<Slot<T>>)
    requires AllFit(w, inputs, time, fits, slots)
    ensures AllInside(w, inputs, time, fits, Parse(Values(slots), SkewedCount(slots)))
  {
    var times := Times(inputs, time);
    hide Outside, OutsideCount, Values, SkewedCount, Place;
    assert Follows(w, times, slots) by {
      forall i | 0 <= i < |slots| ensures slots[i].Skewed? <==> Outside(w, times[i]) {
        assert SlotFits(w, inputs[i], time, fits, slots[i]);
      }
    }
    SkewedAreOutside(w, times, slots);
    forall i | 0 <= i < |inputs| && !Outside(w, times[i])
      ensures Place(w, times, i) < |Values(slots)| && fits(inputs[i], Values(slots)[Place(w, times, i)])
    {
      assert SlotFits(w, inputs[i], time, fits, slots[i]);
      KeptInPlace(w, times, slots, i);
    }
  }

  lemma WalkKeeps<A(!new), T(!new)>(w: Window, inputs: seq<A>, time: A -> int, fits: (A, T) -> bool,
                                    slots: seq<Slot<T>>, maxRecords: nat)
    requires AllFit(w, inputs, time, fits, slots)
    ensures KeepsInside(w, inputs, time, fits, maxRecords, Capped(slots, maxRecords))
  {
    UncutKeeps(w, inputs, time, fits, slots);
    CappedRefinesUncapped(slots, maxRecords);
    hide OutsideCount, Values, Capped, SkewedCount, AllFit, Place, Times;
    forall v | v in Values(slots) ensures exists x :: x in inputs && !Outside(w, time(x)) && fits(x, v) {
      StoredIsInside(w, inputs, time, fits, slots, v);
    }
    var out := Capped(slots, maxRecords);
    assert |Values(slots)| == |inputs| - OutsideCount(w, Times(inputs, time));
    assert forall v :: v in out.stored ==> v in Values(slots);
    assert OnlyInside(w, inputs, time, fits, out.stored);
  }

  // ---------------------------------------------------------------- nested lists

  lemma {:induction false} FlatRelates<A(!new), B(!new)>(xs: seq<seq<A>>, ys: seq<seq<B>>, related: (A, B) -> bool)
    requires |xs| == |ys|
    requires forall i :: 0 <= i < |xs| ==> Pairwise(xs[i], ys[i], related)
    ensures Pairwise(Flat(xs), Flat(ys), related)
  {
    if xs != [] {
      FlatRelates(xs[..|xs| - 1], ys[..|ys| - 1], related);
    }
  }

  ghost predicate Pairwise<A(!new), B(!new)>(xs: seq<A>, ys: seq<B>, related: (A, B) -> bool) {
    |xs| == |ys| && forall i :: 0 <= i < |xs| ==> related(xs[i], ys[i])
  }
}

/** Small definitions shared by every model of the service. */
module Common {
  datatype Option<+T> = None | Some(value: T)

  type u32 = x: nat | x <= 0xFFFF_FFFF

  const U32_MAX: nat := 0xFFFF_FFFF
  const U64_MAX: nat := 0xFFFF_FFFF_FFFF_FFFF

  datatype Ip = V4(bits: nat) | V6(bits: nat) {
    predicate IsUnspecified() {
      bits == 0
    }
  }

  function Max(a: int, b: int): int {
    if a < b then b else a
  }

  function Min(a: int, b: int): int {
    if a <= b then a else b
  }

  function MinReal(a: real, b: real): real {
    if a <= b then a else b
  }

  function MaxReal(a: real, b: real): real {
    if a <= b then b else a
  }

  function Pow2(n: nat): nat {
    if n == 0 then 1 else 2 * Pow2(n - 1)
  }

  /** An f64, its rounding left out: NaN is neither below, above nor equal to anything. */
  datatype F64 = Number(x: real) | PlusInfinity | MinusInfinity | NaN {
    predicate Below(other: F64) {
      match (this, other)
      case (Number(a), Number(b)) => a < b
      case (MinusInfinity, Number(_)) => true
      case (MinusInfinity, PlusInfinity) => true
      case (Number(_), PlusInfinity) => true
      case _ => false
    }

    predicate Equals(other: F64) {
      this != NaN && this == other
    }

    predicate AtMost(other: F64) {
      Below(other) || Equals(other)
    }
  }

  /** From here on a result is nearer to 2^1024 than to the greatest f64, and becomes infinite. */
  const F64_OVERFLOW: real := (Pow2(1024) - Pow2(970)) as real

  function ToF64(x: real): F64 {
    if x >= F64_OVERFLOW then PlusInfinity else if x <= -F64_OVERFLOW then MinusInfinity else Number(x)
  }

  /** The least integer that is not below x (`f64::ceil`). */
  function Ceil(x: real): (c: int)
    ensures c as real - 1.0 < x <= c as real
  {
    -(-x).Floor
  }

  /** A subset of a finite set is no larger, and is smaller when it misses an element. */
  lemma SubsetSize<T>(a: set<T>, b: set<T>)
    requires a <= b
    ensures |a| <= |b|
    ensures a != b ==> |a| < |b|
  {
    assert b == a + (b - a);
    if a != b {
      var x :| x in b && x !in a;
      assert x in b - a;
    }
  }

  /** The concatenation of lists. */
  function Flat<T>(lists: seq<seq<T>>): seq<T> {
    if lists == [] then [] else Flat(lists[..|lists| - 1]) + lists[|lists| - 1]
  }

  lemma FlatSnoc<T>(lists: seq<seq<T>>, last: seq<T>)
    ensures Flat(lists + [last]) == Flat(lists) + last
  {
    assert (lists + [last])[..|lists|] == lists;
  }

  lemma {:induction false} FlatHead<T>(lists: seq<seq<T>>)
    requires lists != []
    ensures Flat(lists) == lists[0] + Flat(lists[1..])
  {
    if |lists| > 1 {
      var front, last := lists[..|lists| - 1], lists[|lists| - 1];
      FlatHead(front);
      assert lists[1..] == front[1..] + [last];
      FlatSnoc(front[1..], last);
    }
  }
}

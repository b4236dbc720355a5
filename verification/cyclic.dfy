/**
 * Stepping an index forward and backward around a non-empty list, wrapping at
 * both ends, as the image gallery and the testimonial carousel both do.
 */
module Cyclic {

  /** One step forward, wrapping from the last position to the first. */
  function NextIndex(i: nat, n: nat): (r: nat)
    requires i < n
    ensures r < n
    ensures i == n - 1 ==> r == 0
    ensures i < n - 1 ==> r == i + 1
  {
    (i + 1) % n
  }

  /** One step back, wrapping from the first position to the last; it undoes a step forward. */
  function PrevIndex(i: nat, n: nat): (r: nat)
    requires i < n
    ensures r < n
    ensures i == 0 ==> r == n - 1
    ensures NextIndex(r, n) == i
  {
    if i == 0 then n - 1 else i - 1
  }

  /** A step back also undoes a step forward. */
  lemma PrevUndoesNext(i: nat, n: nat)
    requires i < n
    ensures PrevIndex(NextIndex(i, n), n) == i
  {
  }

  /** `k` steps forward from `i`. */
  function Advance(i: nat, n: nat, k: nat): (r: nat)
    requires i < n
    ensures r < n
  {
    if k == 0 then i else NextIndex(Advance(i, n, k - 1), n)
  }

  /** `k` steps forward land on `(i + k) mod n`. */
  lemma {:induction false} AdvanceIsModular(i: nat, n: nat, k: nat)
    requires i < n
    ensures Advance(i, n, k) == (i + k) % n
  {
    if k > 0 {
      AdvanceIsModular(i, n, k - 1);
      NextOfMod(i + k - 1, n);
    }
  }

  /** One step forward from a reduced position is the reduction of the next number. */
  lemma NextOfMod(x: nat, n: nat)
    requires 0 < n
    ensures NextIndex(x % n, n) == (x + 1) % n
  {
    var q, m := x / n, x % n;
    DivMod(x, n);
    if m == n - 1 {
      MulSucc(q, n);
      ModOfMultiple(x + 1, n, q + 1);
    } else {
      ModOfSum(x + 1, n, q, m + 1);
    }
  }

  lemma MulSucc(q: int, n: int)
    ensures (q + 1) * n == q * n + n
  {
  }

  lemma DivMod(x: int, n: nat)
    requires 0 < n
    ensures x == (x / n) * n + x % n && 0 <= x % n < n
  {
  }

  lemma ModOfSum(x: int, n: nat, q: int, r: nat)
    requires r < n && x == q * n + r
    ensures x % n == r
  {
    var q', r' := x / n, x % n;
    assert (q - q') * n == r' - r;
    if q > q' {
      AtLeastOneMultiple(q - q', n);
    } else if q < q' {
      AtLeastOneMultiple(q' - q, n);
    }
  }

  lemma AtLeastOneMultiple(d: int, n: nat)
    requires d >= 1
    ensures d * n >= n
  {
  }

  lemma ModOfMultiple(x: int, n: nat, q: int)
    requires 0 < n && x == q * n
    ensures x % n == 0
  {
    ModOfSum(x, n, q, 0);
  }

  /** As many steps forward as there are positions come back to the start. */
  lemma FullCycle(i: nat, n: nat)
    requires i < n
    ensures Advance(i, n, n) == i
  {
    AdvanceIsModular(i, n, n);
    ModOfSum(i + n, n, 1, i);
  }
}

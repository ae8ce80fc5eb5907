/**
 * The index arithmetic of the previous/next buttons and of the `ended`
 * auto-advance (renderer.js): moving by one through the playlist with
 * wrap-around at either end. The index is always in range and non-negative
 * here, so JavaScript's `%` (which truncates) agrees with Dafny's.
 */
module Navigation {

  /**
   * The playlist position rule: any position of a non-empty playlist, and
   * position 0 (the starting value) for the empty one.
   */
  predicate IndexOk(index: int, length: nat) {
    if length == 0 then index == 0 else 0 <= index < length
  }

  /** `(i + 1) % n`: the following track, the first one after the last. */
  function NextIndex(i: int, n: nat): (j: nat)
    requires 0 <= i < n
    ensures j < n
    ensures j == if i == n - 1 then 0 else i + 1
  {
    (i + 1) % n
  }

  /** `(i - 1 + n) % n`: the preceding track, the last one before the first. */
  function PrevIndex(i: int, n: nat): (j: nat)
    requires 0 <= i < n
    ensures j < n
    ensures j == if i == 0 then n - 1 else i - 1
  {
    (i - 1 + n) % n
  }

  /** Next undoes Prev and Prev undoes Next. */
  lemma PrevNextInverse(i: int, n: nat)
    requires 0 <= i < n
    ensures NextIndex(PrevIndex(i, n), n) == i
    ensures PrevIndex(NextIndex(i, n), n) == i
  {
  }

  /** Pressing Next `k` times from `i`. */
  function Advance(i: int, n: nat, k: nat): (j: nat)
    requires 0 <= i < n
    ensures j < n
  {
    if k == 0 then i else NextIndex(Advance(i, n, k - 1), n)
  }

  /** `k` presses of Next move `k` places round the playlist. */
  lemma {:induction false} AdvanceIsModular(i: int, n: nat, k: nat)
    requires 0 <= i < n
    ensures Advance(i, n, k) == (i + k) % n
  {
    if k == 0 {
      DivModUnique(i, n, 0, i);
    } else {
      AdvanceIsModular(i, n, k - 1);
      NextOfRemainder(i + k - 1, n);
    }
  }

  /** One press of Next from `x % n` lands on `(x + 1) % n`. */
  lemma NextOfRemainder(x: nat, n: nat)
    requires n > 0
    ensures NextIndex(x % n, n) == (x + 1) % n
  {
    var q, r := x / n, x % n;
    assert x == q * n + r;
    if r + 1 < n {
      DivModUnique(x + 1, n, q, r + 1);
    } else {
      assert x + 1 == (q + 1) * n;
      DivModUnique(x + 1, n, q + 1, 0);
    }
  }

  /** Quotient and remainder are determined by `x == q * n + r` with `0 <= r < n`. */
  lemma DivModUnique(x: int, n: int, q: int, r: int)
    requires 0 <= r < n && x == q * n + r
    ensures x / n == q && x % n == r
  {
    var q', r' := x / n, x % n;
    assert x == q' * n + r' && 0 <= r' < n;
    if q' < q {
      MulAtLeast(q - q', n);
    } else if q' > q {
      MulAtLeast(q' - q, n);
    }
  }

  lemma {:induction false} MulAtLeast(a: int, n: int)
    requires a >= 1 && n >= 0
    ensures a * n >= n
  {
    if a > 1 {
      MulAtLeast(a - 1, n);
      assert a * n == (a - 1) * n + n;
    }
  }

  /** After as many presses of Next as there are tracks, the same track is selected again. */
  lemma FullCycle(i: int, n: nat)
    requires 0 <= i < n
    ensures Advance(i, n, n) == i
    ensures forall k :: 0 < k < n ==> Advance(i, n, k) != i
  {
    AdvanceIsModular(i, n, n);
    DivModUnique(i + n, n, 1, i);
    forall k | 0 < k < n
      ensures Advance(i, n, k) != i
    {
      AdvanceIsModular(i, n, k);
      if i + k < n {
        DivModUnique(i + k, n, 0, i + k);
      } else {
        DivModUnique(i + k, n, 1, i + k - n);
      }
    }
  }
}

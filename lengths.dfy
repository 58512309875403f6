/** The length arithmetic shared by both control loops: manual steps that stop at
    the bounds, and the auto-mode step that wraps round. */
module Lengths {

  /** One auto tick: `(v + 1) % (maxLen + 1)` (Python's `%`, which for a positive
      divisor agrees with Dafny's). Wraps round instead of stopping at the bound. */
  function AutoAdvance(v: int, maxLen: nat): (r: int)
    ensures 0 <= r <= maxLen
    ensures 0 <= v < maxLen ==> r == v + 1
    ensures v == maxLen ==> r == 0
  {
    (v + 1) % (maxLen + 1)
  }

  /** The length after `ticks` auto ticks. */
  function AutoAdvanced(v: int, maxLen: nat, ticks: nat): int
    decreases ticks
  {
    if ticks == 0 then v else AutoAdvance(AutoAdvanced(v, maxLen, ticks - 1), maxLen)
  }

  lemma MulAtLeast(k: int, m: int)
    requires k >= 1 && m > 0
    ensures k * m >= m
  {
  }

  /** The remainder is the only r in [0, m) that differs from a by a multiple of m. */
  lemma ModUnique(a: int, m: int, q: int, r: int)
    requires m > 0 && 0 <= r < m && a == q * m + r
    ensures a % m == r
  {
    var q', r' := a / m, a % m;
    assert q' * m + r' == a;
    // q' == q, since otherwise a and q' * m + r' would differ by at least m
    if q' > q {
      assert q' * m == q * m + (q' - q) * m;
      MulAtLeast(q' - q, m);
    } else if q' < q {
      assert q * m == q' * m + (q - q') * m;
      MulAtLeast(q - q', m);
    }
  }

  lemma ModSucc(a: int, m: int)
    requires m > 0
    ensures (a % m + 1) % m == (a + 1) % m
  {
    var q, r := a / m, a % m;
    assert a == q * m + r;
    if r + 1 < m {
      ModUnique(a + 1, m, q, r + 1);
      ModUnique(r + 1, m, 0, r + 1);
    } else {
      assert a + 1 == (q + 1) * m + 0;
      ModUnique(a + 1, m, q + 1, 0);
      ModUnique(r + 1, m, 1, 0);
    }
  }

  /** After n ticks from an in-range length v the length is (v + n) mod (maxLen + 1). */
  lemma {:induction false} AutoAdvancedWraps(v: int, maxLen: nat, ticks: nat)
    requires 0 <= v <= maxLen
    ensures AutoAdvanced(v, maxLen, ticks) == (v + ticks) % (maxLen + 1)
  {
    if ticks == 0 {
      ModUnique(v, maxLen + 1, 0, v);
    } else {
      AutoAdvancedWraps(v, maxLen, ticks - 1);
      ModSucc(v + ticks - 1, maxLen + 1);
    }
  }
}

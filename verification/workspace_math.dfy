/**
 * Index arithmetic of the workspace service: the remainder operator of the
 * extension's language, the target workspace of one move, and the signed
 * shift between two active-workspace indices.
 */
module WorkspaceMath {

  /** Direction constants of the two hotkeys. */
  const UP: int := -1
  const DOWN: int := 1

  function Abs(x: int): nat {
    if x < 0 then -x else x
  }

  /**
   * The `%` of the extension's language: the remainder of a division that
   * truncates toward zero, so the result takes the sign of the dividend
   * (unlike Dafny's `%`, whose result is never negative). Only positive
   * divisors (workspace counts) occur.
   */
  function JsRem(a: int, n: int): (r: int)
    requires n >= 1
    ensures -n < r < n
    ensures a >= 0 ==> r >= 0
    ensures a <= 0 ==> r <= 0
    ensures (a - r) % n == 0
  {
    if a >= 0 then
      ModIsOffsetOfMultiple(a, n);
      a % n
    else
      ModIsOffsetOfMultiple(-a, n);
      NegatedMultiple(-a - (-a) % n, n);
      -((-a) % n)
  }

  /** `a - a % n` is a multiple of `n`. */
  lemma ModIsOffsetOfMultiple(a: int, n: int)
    requires n >= 1
    ensures (a - a % n) % n == 0
  {
    var q := a / n;
    assert a - a % n == q * n;
    ModAddMultiple(0, q, n);
  }

  /** Negating a multiple of `n` gives a multiple of `n`. */
  lemma NegatedMultiple(x: int, n: int)
    requires n >= 1
    requires x % n == 0
    ensures (-x) % n == 0
  {
    var q := x / n;
    assert x == q * n;
    assert -x == 0 + (-q) * n;
    ModAddMultiple(0, -q, n);
  }

  /** Adding a multiple of `n` does not change the (Euclidean) remainder. */
  lemma {:induction false} ModAddMultiple(a: int, k: int, n: int)
    requires n >= 1
    ensures (a + k * n) % n == a % n
    decreases Abs(k)
  {
    if k > 0 {
      ModAddMultiple(a, k - 1, n);
      assert a + k * n == (a + (k - 1) * n) + n;
      ModAddOne(a + (k - 1) * n, n);
    } else if k < 0 {
      ModAddMultiple(a, k + 1, n);
      assert a + (k + 1) * n == (a + k * n) + n;
      ModAddOne(a + k * n, n);
    }
  }

  lemma ModAddOne(a: int, n: int)
    requires n >= 1
    ensures (a + n) % n == a % n
  {
    var q, r := a / n, a % n;
    assert a + n == (q + 1) * n + r;
    ModUnique(a + n, n, q + 1, r);
  }

  /** The Euclidean remainder is the unique `r` in `[0, n)` with `a == q * n + r`. */
  lemma ModUnique(a: int, n: int, q: int, r: int)
    requires n >= 1
    requires 0 <= r < n
    requires a == q * n + r
    ensures a % n == r
  {
    var q', r' := a / n, a % n;
    assert (q - q') * n == r' - r;
    MultipleBetween(q - q', n);
  }

  /** The only multiple of `n` strictly between `-n` and `n` is zero. */
  lemma MultipleBetween(d: int, n: int)
    requires n >= 1
    requires -n < d * n < n
    ensures d == 0
  {
    if d > 0 {
      MultipleAtLeast(d, n);
    } else if d < 0 {
      assert (-d) * n == -(d * n);
      MultipleAtLeast(-d, n);
    }
  }

  lemma {:induction false} MultipleAtLeast(d: int, n: int)
    requires d >= 1 && n >= 1
    ensures d * n >= n
  {
    if d > 1 {
      MultipleAtLeast(d - 1, n);
      assert d * n == (d - 1) * n + n;
    }
  }

  /**
   * The workspace a window on workspace `w` is sent to when it moves by
   * `delta` among `n` workspaces: `(n + w + delta) % n` with the language's
   * remainder.
   */
  function NextWorkspace(n: int, w: int, delta: int): (t: int)
    requires n >= 1
    ensures -n < t < n
    ensures (n + w + delta - t) % n == 0
  {
    JsRem(n + w + delta, n)
  }

  /**
   * When the dividend is not negative, the target is the Euclidean residue
   * of `w + delta`, so it lies in `[0, n)`.
   */
  lemma NextWorkspaceIsResidue(n: int, w: int, delta: int)
    requires n >= 1
    requires n + w + delta >= 0
    ensures NextWorkspace(n, w, delta) == (n + w + delta) % n == (w + delta) % n
    ensures 0 <= NextWorkspace(n, w, delta) < n
  {
    ModAddMultiple(w + delta, 1, n);
  }

  /**
   * For a window on a valid workspace and a step of at most `n` downwards
   * the target is a valid workspace index.
   */
  lemma NextWorkspaceInRange(n: int, w: int, delta: int)
    requires n >= 1
    requires 0 <= w < n
    requires delta >= -n
    ensures 0 <= NextWorkspace(n, w, delta) < n
    ensures NextWorkspace(n, w, delta) == (w + delta) % n
  {
    NextWorkspaceIsResidue(n, w, delta);
  }

  /**
   * When the dividend is negative the target is not a valid workspace index,
   * except for the exact multiples of `n` (where the remainder is zero).
   */
  lemma NextWorkspaceBelowRange(n: int, w: int, delta: int)
    requires n >= 1
    requires n + w + delta < 0
    ensures NextWorkspace(n, w, delta) <= 0
    ensures NextWorkspace(n, w, delta) == 0 <==> (n + w + delta) % n == 0
  {
    var a := n + w + delta;
    if a % n == 0 {
      NegatedMultiple(a, n);
    }
  }

  /** Moving by `delta` and then by `-delta` brings a window back. */
  lemma NextWorkspaceInverse(n: int, w: int, delta: int)
    requires n >= 1
    requires 0 <= w < n
    requires -n <= delta <= n
    ensures NextWorkspace(n, NextWorkspace(n, w, delta), -delta) == w
  {
    var t := NextWorkspace(n, w, delta);
    NextWorkspaceInRange(n, w, delta);
    NextWorkspaceInRange(n, t, -delta);
    var q := (w + delta) / n;
    assert w + delta == q * n + t;
    assert t + -delta == w + (-q) * n;
    ModAddMultiple(w, -q, n);
    ModUnique(w, n, 0, w);
  }

  /**
   * The signed shift between the remembered and the live active workspace,
   * computed as the source does: a direction times an absolute difference.
   */
  function Shift(previous: int, next: int): (s: int)
    ensures s == next - previous
    ensures s == 0 <==> next == previous
    ensures s > 0 <==> next > previous
  {
    var direction := if next > previous then DOWN else UP;
    var diff := if next > previous then next - previous else previous - next;
    direction * diff
  }

  /**
   * The shift is an absolute difference of indices, not a modular one: a
   * change from the last workspace to the first moves windows by `1 - n`
   * rather than by one step forward.
   */
  lemma ShiftIsNotModular(n: int)
    requires n >= 2
    ensures Shift(n - 1, 0) == 1 - n
    ensures NextWorkspace(n, 0, Shift(n - 1, 0)) == 1
  {
    NextWorkspaceIsResidue(n, 0, 1 - n);
    assert 1 - n + n == 1;
    ModAddMultiple(1 - n, 1, n);
  }

  /**
   * A window moved by the shift from `previous` to `next` keeps its offset
   * from the active workspace: the workspace it lands on is as far ahead of
   * `next`, modulo `n`, as it was ahead of `previous`.
   */
  lemma ShiftKeepsOffset(n: int, w: int, previous: int, next: int)
    requires n >= 1
    requires 0 <= w < n && 0 <= previous < n && 0 <= next < n
    ensures 0 <= NextWorkspace(n, w, Shift(previous, next)) < n
    ensures (NextWorkspace(n, w, Shift(previous, next)) - next) % n == (w - previous) % n
  {
    var s := Shift(previous, next);
    var t := NextWorkspace(n, w, s);
    NextWorkspaceInRange(n, w, s);
    var q := (w + s) / n;
    assert t == (w + s) - q * n;
    assert t - next == (w - previous) + (-q) * n;
    ModAddMultiple(w - previous, -q, n);
  }
}

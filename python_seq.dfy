/** Python's built-in sequence semantics that the query resolver relies on:
    subscripting with one integer (negative indices count from the end,
    anything else raises IndexError) and slicing with step 1 (bounds are
    normalised and clamped, a slice never raises), plus the facts about
    `%` with a positive divisor that the circular handler needs. */
module PySeq {

  datatype Option<T> = None | Some(value: T)

  /** `s[i]` in Python: a negative index is first shifted by `len(s)`;
      an index that is still outside `[0, len(s))` raises IndexError,
      modelled here as `None`. */
  function PyIndex<T>(s: seq<T>, i: int): (r: Option<T>)
    ensures r.Some? <==> -|s| <= i < |s|
    ensures 0 <= i < |s| ==> r == Some(s[i])
    ensures -|s| <= i < 0 ==> r == Some(s[|s| + i])
  {
    var j := if i < 0 then i + |s| else i;
    if 0 <= j < |s| then Some(s[j]) else None
  }

  /** One bound of a step-1 slice of a sequence of length `n`, as Python
      normalises it: a negative bound is shifted by `n`, then the bound is
      clamped into `[0, n]`. */
  function ClampBound(b: int, n: nat): (r: nat)
    ensures r <= n
    ensures 0 <= b <= n ==> r == b
    ensures -(n as int) <= b < 0 ==> r as int == n as int + b
    ensures b > n ==> r == n
    ensures b < -(n as int) ==> r == 0
  {
    var shifted := if b < 0 then b + n else b;
    if shifted < 0 then 0 else if shifted > n then n else shifted
  }

  /** `s[start:end]` in Python: both bounds are normalised by ClampBound,
      and the slice is empty when the normalised start is not below the
      normalised end. */
  function PySlice<T>(s: seq<T>, start: int, end: int): (r: seq<T>)
    ensures |r| <= |s|
    ensures |r| == if ClampBound(start, |s|) < ClampBound(end, |s|)
                   then ClampBound(end, |s|) - ClampBound(start, |s|) else 0
    ensures forall k :: 0 <= k < |r| ==> r[k] == s[ClampBound(start, |s|) + k]
  {
    var lo, hi := ClampBound(start, |s|), ClampBound(end, |s|);
    if lo < hi then s[lo..hi] else []
  }

  /** With bounds already inside `[0, len]` and in order, a Python slice is
      the ordinary subsequence. */
  lemma PySliceInBounds<T>(s: seq<T>, start: int, end: int)
    requires 0 <= start <= end <= |s|
    ensures PySlice(s, start, end) == s[start..end]
  {
  }

  /** Adjacent slices concatenate: `s[a:b] + s[b:c] == s[a:c]` whenever the
      normalised bounds are in order. */
  lemma PySliceSplit<T>(s: seq<T>, a: int, b: int, c: int)
    requires ClampBound(a, |s|) <= ClampBound(b, |s|) <= ClampBound(c, |s|)
    ensures PySlice(s, a, b) + PySlice(s, b, c) == PySlice(s, a, c)
  {
  }

  /** Dividing with a given quotient and a remainder in `[0, n)` determines
      Dafny's (and Python's, for `n > 0`) `%`. */
  lemma ModUnique(a: int, n: int, q: int, r: int)
    requires n > 0 && 0 <= r < n && a == q * n + r
    ensures a % n == r
  {
    var q0, r0 := a / n, a % n;
    assert a == q0 * n + r0;
    assert (q - q0) * n == r0 - r by {
      assert q * n - q0 * n == (q - q0) * n;
    }
    SmallMultipleIsZero(q - q0, n, r0 - r);
  }

  /** The only multiple of `n` strictly between `-n` and `n` is zero. */
  lemma SmallMultipleIsZero(d: int, n: int, x: int)
    requires n > 0 && -n < x < n && d * n == x
    ensures d == 0
  {
  }

  /** Adding a multiple of the divisor does not change the remainder. */
  lemma ModAddMultiple(i: int, c: int, n: int)
    requires n > 0
    ensures (i + c * n) % n == i % n
  {
    assert i == (i / n) * n + i % n;
    assert i + c * n == (i / n + c) * n + i % n by {
      assert (i / n + c) * n == (i / n) * n + c * n;
    }
    ModUnique(i + c * n, n, i / n + c, i % n);
  }

  /** The remainder of a sum depends only on the remainders of its parts. */
  lemma ModOfSum(a: int, b: int, n: int)
    requires n > 0
    ensures (a + b) % n == (a % n + b % n) % n
  {
    assert a == (a / n) * n + a % n;
    assert b == (b / n) * n + b % n;
    assert a + b == (a % n + b % n) + (a / n + b / n) * n by {
      assert (a / n + b / n) * n == (a / n) * n + (b / n) * n;
    }
    ModAddMultiple(a % n + b % n, a / n + b / n, n);
  }
}

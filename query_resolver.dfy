/** The query resolver of beta_main.py: one query against one read-only
    sequence, either positional (Python indexing and slicing) or circular
    (indices reduced modulo the length, ranges wrapping past the end). */
module QueryResolver {
  import opened PySeq

  /** The query parameter, collapsed to the three shapes the handlers test
      for: an int, a 2-tuple of ints, or anything else. */
  datatype Param = IntP(i: int) | PairP(start: int, end: int) | OtherP

  /** The error tokens the handlers return instead of raising. */
  datatype Error = OutOfRange | NoData | WrongFormat | UnknownQueryType

  /** A handler's answer: one element (a subscript), a subsequence (a
      slice), or an error token. */
  datatype Answer<T> = Elem(value: T) | Slice(items: seq<T>) | Err(error: Error)

  const PositionalKind: string := "positional"
  const CircularKind: string := "circular"

  /** The exact string each error token is returned as. */
  function Message(e: Error): (m: string)
    ensures |m| > 0
  {
    match e
    case OutOfRange => "Out of range"
    case NoData => "No Data"
    case WrongFormat => "Wrong Format"
    case UnknownQueryType => "Unknown query type"
  }

  /** Different tokens are different strings, so a caller can tell them apart. */
  lemma MessageInjective(e1: Error, e2: Error)
    requires Message(e1) == Message(e2)
    ensures e1 == e2
  {
  }

  /** The element count of a circular range: the number of steps from
      `start` to `end` around a ring of `n` cells, where coming back to the
      same cell counts as a full turn. */
  function RingSpan(start: int, end: int, n: int): (len: int)
    requires n > 0
    ensures 1 <= len <= n
  {
    (end - start - 1) % n + 1
  }

  /** `handle_positional_query`: an int is a Python subscript (IndexError
      becomes "Out of range"), a pair is a Python slice, anything else is
      "Wrong Format". */
  function HandlePositional<T>(data: seq<T>, p: Param): (r: Answer<T>)
    ensures p.IntP? && 0 <= p.i < |data| ==> r == Elem(data[p.i])
    ensures p.IntP? && -|data| <= p.i < 0 ==> r == Elem(data[|data| + p.i])
    ensures p.IntP? && (p.i < -|data| || p.i >= |data|) ==> r == Err(OutOfRange)
    ensures p.PairP? ==> r.Slice? && |r.items| <= |data|
    ensures p.OtherP? ==> r == Err(WrongFormat)
  {
    match p
    case IntP(i) =>
      (match PyIndex(data, i)
       case Some(x) => Elem(x)
       case None => Err(OutOfRange))
    case PairP(start, end) =>
      // slicing never raises, so beta_main.py's IndexError handler here is dead
      Slice(PySlice(data, start, end))
    case OtherP => Err(WrongFormat)
  }

  /** `handle_circular_query`: indices are taken modulo the length; a pair
      whose reduced start is not below its reduced end wraps around the end
      of the sequence. Empty data gives "No Data", but only for the int and
      pair shapes. */
  function HandleCircular<T>(data: seq<T>, p: Param): (r: Answer<T>)
    ensures p.OtherP? ==> r == Err(WrongFormat)
    ensures !p.OtherP? && |data| == 0 ==> r == Err(NoData)
    ensures p.IntP? && |data| > 0 ==> r.Elem? && r.value in data
    ensures p.PairP? && |data| > 0 ==> r.Slice? && 0 < |r.items| <= |data|
  {
    var n := |data|;
    match p
    case IntP(i) =>
      if n == 0 then Err(NoData) else Elem(data[i % n])
    case PairP(start, end) =>
      if n == 0 then Err(NoData)
      else
        var si, ei := start % n, end % n;
        if si < ei then Slice(data[si..ei])
        else Slice(data[si..] + data[..ei])
    case OtherP => Err(WrongFormat)
  }

  /** `process_query`: dispatch on the query-kind string. The contract is
      the complete table of outcomes: which inputs give which error token,
      and which give an element or a slice. */
  function ProcessQuery<T>(data: seq<T>, kind: string, p: Param): (r: Answer<T>)
    ensures r == Err(UnknownQueryType) <==> kind != PositionalKind && kind != CircularKind
    ensures r == Err(WrongFormat) <==> (kind == PositionalKind || kind == CircularKind) && p.OtherP?
    ensures r == Err(NoData) <==> kind == CircularKind && !p.OtherP? && |data| == 0
    ensures r == Err(OutOfRange) <==>
              kind == PositionalKind && p.IntP? && (p.i < -|data| || p.i >= |data|)
    ensures r.Elem? <==>
              (kind == PositionalKind && p.IntP? && -|data| <= p.i < |data|)
              || (kind == CircularKind && p.IntP? && |data| > 0)
    ensures r.Slice? <==>
              (kind == PositionalKind && p.PairP?)
              || (kind == CircularKind && p.PairP? && |data| > 0)
  {
    if kind == PositionalKind then HandlePositional(data, p)
    else if kind == CircularKind then HandleCircular(data, p)
    else Err(UnknownQueryType)
  }

  // ---------------------------------------------------------------------
  // Positional queries

  /** A positional pair is exactly the Python slice, never an error, and
      its length is the clamped distance between its bounds. */
  lemma PositionalPairIsSlice<T>(data: seq<T>, start: int, end: int)
    ensures HandlePositional(data, PairP(start, end)) == Slice(PySlice(data, start, end))
    ensures var lo, hi := ClampBound(start, |data|), ClampBound(end, |data|);
            |HandlePositional(data, PairP(start, end)).items| == if lo < hi then hi - lo else 0
    ensures 0 <= start <= end <= |data| ==>
              HandlePositional(data, PairP(start, end)) == Slice(data[start..end])
  {
  }

  /** A positional int and the one-element slice starting at it agree for
      every valid index except -1: Python's `data[-1:0]` is empty because the
      end bound 0 is not shifted. */
  lemma PositionalPointVersusUnitSlice<T>(data: seq<T>, i: int)
    requires -|data| <= i < |data|
    ensures i != -1 ==> HandlePositional(data, PairP(i, i + 1)) == Slice([HandlePositional(data, IntP(i)).value])
    ensures i == -1 ==> HandlePositional(data, PairP(i, i + 1)) == Slice([])
  {
  }

  // ---------------------------------------------------------------------
  // Circular queries

  /** Reducing a circular index modulo the length makes the answer blind to
      whole turns around the ring, for ints and for both ends of a pair. */
  lemma CircularShiftInvariant<T>(data: seq<T>, i: int, j: int, c: int, d: int)
    requires |data| > 0
    ensures HandleCircular(data, IntP(i + c * |data|)) == HandleCircular(data, IntP(i))
    ensures HandleCircular(data, PairP(i + c * |data|, j + d * |data|)) == HandleCircular(data, PairP(i, j))
  {
    ModAddMultiple(i, c, |data|);
    ModAddMultiple(j, d, |data|);
  }

  /** Both branches of a circular pair, as beta_main.py writes them: a plain
      window when the reduced start is below the reduced end, otherwise the
      tail from the start followed by the head up to the end. */
  lemma CircularPairBranches<T>(data: seq<T>, start: int, end: int)
    requires |data| > 0
    ensures var n, si, ei := |data|, start % |data|, end % |data|;
            var r := HandleCircular(data, PairP(start, end));
            && (si < ei ==> r.Slice? && r.items == data[si..ei] && |r.items| == ei - si)
            && (si >= ei ==> r.Slice? && r.items == data[si..] + data[..ei] && |r.items| == n - si + ei)
  {
  }

  /** Reference semantics of a circular pair: walk around the ring from
      `start`, taking RingSpan(start, end, n) cells; cell k of the answer is
      `data[(start + k) % n]`. */
  lemma {:induction false} CircularPairIsRingWalk<T>(data: seq<T>, start: int, end: int)
    requires |data| > 0
    ensures var r := HandleCircular(data, PairP(start, end));
            && r.Slice?
            && |r.items| == RingSpan(start, end, |data|)
            && forall k :: 0 <= k < |r.items| ==> r.items[k] == data[(start + k) % |data|]
  {
    var n := |data|;
    var si, ei := start % n, end % n;
    var items := HandleCircular(data, PairP(start, end)).items;
    // (end - start - 1) and (ei - si - 1) differ by a multiple of n
    assert end - start - 1 == (ei - si - 1) + (end / n - start / n) * n by {
      assert start == (start / n) * n + si;
      assert end == (end / n) * n + ei;
      assert (end / n - start / n) * n == (end / n) * n - (start / n) * n;
    }
    ModAddMultiple(ei - si - 1, end / n - start / n, n);
    if si < ei {
      ModUnique(ei - si - 1, n, 0, ei - si - 1);
    } else {
      ModUnique(ei - si - 1, n, -1, n + ei - si - 1);
    }
    assert |items| == RingSpan(start, end, n);
    forall k | 0 <= k < |items|
      ensures items[k] == data[(start + k) % n]
    {
      ModOfSum(start, k, n);
      ModUnique(k, n, 0, k);
      if si + k < n {
        ModUnique(si + k, n, 0, si + k);
      } else {
        ModUnique(si + k, n, 1, si + k - n);
      }
    }
  }

  /** The cells a circular range walks through are pairwise distinct: the
      walk is never longer than one turn, so it never revisits a cell. */
  lemma RingWalkDistinctCells(start: int, end: int, n: int, k1: int, k2: int)
    requires n > 0 && 0 <= k1 < k2 < RingSpan(start, end, n)
    ensures (start + k1) % n != (start + k2) % n
  {
    var x, d := (start + k1) % n, k2 - k1;
    ModOfSum(start + k1, d, n);
    ModUnique(d, n, 0, d);
    if x + d < n {
      ModUnique(x + d, n, 0, x + d);
    } else {
      ModUnique(x + d, n, 1, x + d - n);
    }
  }

  /** No value occurs in a circular range more often than in the data: its
      elements form a sub-multiset of the data, so all come from `data`. */
  lemma CircularPairNoRepeats<T>(data: seq<T>, start: int, end: int)
    requires |data| > 0
    ensures var r := HandleCircular(data, PairP(start, end));
            && r.Slice?
            && multiset(r.items) <= multiset(data)
            && forall x :: x in r.items ==> x in data
  {
    var n := |data|;
    var si, ei := start % n, end % n;
    var items := HandleCircular(data, PairP(start, end)).items;
    if si < ei {
      assert data == data[..si] + data[si..ei] + data[ei..];
      assert items == data[si..ei];
    } else {
      assert data == data[..ei] + data[ei..si] + data[si..];
      assert items == data[si..] + data[..ei];
    }
    forall x | x in items
      ensures x in data
    {
      assert x in multiset(items);
    }
  }

  /** When both ends reduce to the same cell, the answer is the whole
      sequence rotated to begin at that cell: same length, same elements. */
  lemma CircularPairRotation<T>(data: seq<T>, start: int, end: int)
    requires |data| > 0 && start % |data| == end % |data|
    ensures var si := start % |data|;
            var r := HandleCircular(data, PairP(start, end));
            && r == Slice(data[si..] + data[..si])
            && |r.items| == |data|
            && multiset(r.items) == multiset(data)
  {
    var si := start % |data|;
    assert data == data[..si] + data[si..];
  }

  /** A circular int and the circular range of one step starting at it
      give the same single element. */
  lemma CircularPointIsUnitRange<T>(data: seq<T>, i: int)
    requires |data| > 0
    ensures HandleCircular(data, PairP(i, i + 1)) == Slice([HandleCircular(data, IntP(i)).value])
  {
    CircularPairIsRingWalk(data, i, i + 1);
    assert (i + 1 - i - 1) % |data| == 0;
  }

  /** A circular int on non-empty data is the element at the index reduced
      modulo the length, read off the one-step ring walk. */
  lemma CircularIntIsModIndex<T>(data: seq<T>, i: int)
    requires |data| > 0
    ensures HandleCircular(data, IntP(i)) == Elem(data[i % |data|])
  {
    CircularPointIsUnitRange(data, i);
    CircularPairIsRingWalk(data, i, i + 1);
  }

  // ---------------------------------------------------------------------
  // Dispatch

  /** A malformed parameter is "Wrong Format" for both known kinds, even on
      empty data, and an unknown kind is "Unknown query type" whatever the
      data and parameter. */
  lemma DispatchErrors<T>(data: seq<T>, kind: string, p: Param)
    ensures p.OtherP? ==>
              && ProcessQuery(data, PositionalKind, p) == Err(WrongFormat)
              && ProcessQuery(data, CircularKind, p) == Err(WrongFormat)
    ensures kind != PositionalKind && kind != CircularKind ==>
              ProcessQuery(data, kind, p) == ProcessQuery([], kind, OtherP)
  {
  }
}

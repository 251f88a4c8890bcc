# Query resolver and batch runner of beta_main.py, in Dafny

This project models the query resolver of `beta_main.py`. The resolver answers one
query against a read-only sequence `data`. A *positional* query uses Python's own
subscripting and slicing. A *circular* query reduces its indices modulo `len(data)`,
and a range whose reduced start is not below its reduced end wraps past the end of
the sequence.

The project also models `run_queries_parallel`. It maps the resolver over a list of
`(kind, param)` queries and returns the answers in input order.

Files and modules:

- `python_seq.dfy`, module `PySeq`: Python sequence semantics.
  - `PyIndex` is `s[i]`, where a negative index counts from the end and an index
    out of range raises `IndexError`, modelled as `None`.
  - `ClampBound` and `PySlice` are `s[a:b]` with step 1: bounds are shifted,
    clamped, and the slice never raises.
  - There are also lemmas about `%` with a positive divisor. Python's `%` and
    Dafny's `%` agree there.
- `query_resolver.dfy`, module `QueryResolver`: the parameter shapes
  (`IntP | PairP | OtherP`), the error tokens and their exact strings
  (`Message`), `HandlePositional`, `HandleCircular` and `ProcessQuery`, plus the
  lemmas about them.
- `batch_runner.dfy`, module `BatchRunner`:
  - `Query` and `RunQueriesParallel`.
  - A model of the pool's chunked scatter-gather (`GatherChunks`), proved equal to
    the in-order map.
  - The shape of the batches `generate_queries` produces, and what the resolver
    answers on them.

The query kind is a string, as in the source: `"positional"`, `"circular"`, or
anything else. The answer type `Answer<T>` is `Elem(x)` for a subscript,
`Slice(s)` for a slice, or `Err(e)` for an error token. `Message(e)` is the exact
string the source returns:

- `"Out of range"`
- `"No Data"`
- `"Wrong Format"`
- `"Unknown query type"`

Two behaviours of the code are worth stating outright:

- **Positional int, negative index.** `data[query_param]` (beta_main.py:18) is
  Python indexing, so an index in `[-len, -1]` counts from the end. Only an index
  outside `[-len, len)` gives "Out of range".
- **Circular query on empty data.** The emptiness test sits inside the int and
  tuple branches (beta_main.py:33, 37), so a malformed parameter on empty data
  gives "Wrong Format" (beta_main.py:46), not "No Data".

## Model

| member | source | states |
|---|---|---|
| PySeq.PyIndex | beta_main.py:17-20 | `data[i]` succeeds exactly when `-len <= i < len`. It gives `data[i]` for non-negative `i` and `data[len+i]` for negative `i`. |
| PySeq.ClampBound | beta_main.py:24 | Python's normalisation of one slice bound, in five cases: the result lies in `[0, len]`; a bound in `[0, len]` is kept; a bound in `[-len, 0)` becomes `len + b`; a bound above `len` becomes `len`; a bound below `-len` becomes 0. |
| PySeq.PySlice | beta_main.py:24 | `data[start:end]` has length `max(0, clamp(end) - clamp(start)) <= len`. Element k is `data[clamp(start)+k]`. |
| PySeq.PySliceInBounds | beta_main.py:24 | With `0 <= start <= end <= len`, the Python slice is the ordinary subsequence. |
| PySeq.PySliceSplit | beta_main.py:24 | Adjacent slices with ordered normalised bounds concatenate: `s[a:b] + s[b:c] == s[a:c]`. |
| PySeq.ModUnique | beta_main.py:34 | A quotient and a remainder in `[0, n)` determine `a % n`. This is the arithmetic fact behind the modular index. |
| PySeq.ModAddMultiple | beta_main.py:34 | `(i + c*n) % n == i % n`. |
| PySeq.ModOfSum | beta_main.py:39-40 | `(a + b) % n == (a % n + b % n) % n`. |
| QueryResolver.Message | beta_main.py:12 | Each error token has its exact, non-empty source string. These strings also appear at lines 20, 26, 28, 33, 37 and 46. |
| QueryResolver.MessageInjective | beta_main.py:12-46 | Different error tokens give different strings, as returned at lines 12, 20, 26, 28, 33, 37 and 46. |
| QueryResolver.RingSpan | beta_main.py:39-44 | The number of cells from start to end around a ring of n cells lies in `[1, n]`. |
| QueryResolver.HandlePositional | beta_main.py:15-28 | An int in `[0, len)` gives `data[i]`. An int in `[-len, 0)` gives `data[len+i]`. Any other int gives "Out of range". A pair always gives a slice no longer than data. Any other param gives "Wrong Format". |
| QueryResolver.HandleCircular | beta_main.py:30-46 | A malformed param gives "Wrong Format", even on empty data. An int or pair on empty data gives "No Data". On non-empty data an int gives an element of data, and a pair gives a non-empty slice of length at most len. |
| QueryResolver.ProcessQuery | beta_main.py:5-12 | Gives the full table of outcomes, each as an if-and-only-if: when each error token occurs, when an element is returned and when a slice is returned. An unknown kind gives "Unknown query type". |
| QueryResolver.PositionalPairIsSlice | beta_main.py:21-26 | A positional pair is always `Slice(data[start:end])` and never an error, so the `IndexError` handler is dead code. Its length is the clamped distance between the bounds. In-range ordered bounds give `data[start..end]`. |
| QueryResolver.PositionalPointVersusUnitSlice | beta_main.py:16-24 | For every valid index except -1, the positional int `i` and the pair `(i, i+1)` give the same element. For -1 the pair is empty, because `data[-1:0]` does not shift the end bound 0. |
| QueryResolver.CircularShiftInvariant | beta_main.py:32-40 | Adding any multiple of len to an int param, or to either end of a pair, leaves the circular answer unchanged. |
| QueryResolver.CircularPairBranches | beta_main.py:38-44 | Let `si = start % n` and `ei = end % n`. If `si < ei` the answer is `data[si..ei]`, of length `ei - si`. Otherwise it is `data[si..] + data[..ei]`, of length `n - si + ei`. |
| QueryResolver.CircularPairIsRingWalk | beta_main.py:38-44 | A circular pair is a walk around the ring. The answer has `(end - start - 1) % n + 1` elements, and element k is `data[(start + k) % n]`. |
| QueryResolver.RingWalkDistinctCells | beta_main.py:39-44 | The cells `(start + k) % n` of a circular range, for `k` below its length, are pairwise distinct, so the walk never takes a cell twice. |
| QueryResolver.CircularPairNoRepeats | beta_main.py:41-44 | The answer's multiset is contained in data's multiset, so no value occurs more often than in data and every element comes from data. |
| QueryResolver.CircularPairRotation | beta_main.py:41-44 | When `start % n == end % n`, the answer is the full rotation `data[si..] + data[..si]`. It has length n and the same multiset as data. |
| QueryResolver.CircularPointIsUnitRange | beta_main.py:32-44 | The circular int `i` and the circular pair `(i, i+1)` give the same single element. |
| QueryResolver.CircularIntIsModIndex | beta_main.py:32-35 | On non-empty data a circular int `i` gives `data[i % len]`, derived from the one-step ring walk. |
| QueryResolver.DispatchErrors | beta_main.py:7-12 | A malformed param gives "Wrong Format" for both known kinds. An unknown kind gives the same answer whatever the data and param. |
| BatchRunner.RunQueriesParallel | beta_main.py:75-78 | There are as many answers as queries, and answer k is `process_query(data, kind_k, param_k)`. |
| BatchRunner.RunAppend | beta_main.py:77 | Running two parts of a batch and concatenating the answers is the same as running the whole batch. |
| BatchRunner.GatherChunks | beta_main.py:76-77 | The pool's chunked scatter-gather: each chunk is mapped in order and the chunk results are joined in chunk order. There is one answer per query of the flattened batch. |
| BatchRunner.GatherChunksIsInOrderMap | beta_main.py:76-77 | Cut the batch into chunks in any way, run each chunk in order and join the chunk results in chunk order: the result equals the in-order map over the whole batch. |
| BatchRunner.GeneratedBatch | beta_main.py:50-70 | The shape of a generated batch: between `minQ` and `maxQ` queries, each of kind "positional" or "circular", with an int in `[0, 2 len]` or a pair `0 <= start <= end <= 2 len`. No parameter of such a batch is malformed. |
| BatchRunner.GeneratedBatchOutcomes | beta_main.py:49-73 | Generated batches have known kinds, ints in `[0, 2 len]` and pairs with `0 <= start <= end <= 2 len`. On them no answer is "Wrong Format" or "Unknown query type". "Out of range" occurs exactly for positional ints `>= len`. "No Data" occurs exactly for circular queries on empty data. |
| BatchRunner.Scenarios | beta_main.py:5-46 | Worked cases include `[1..5]` with positional 2, 10 and -1; circular 7, `(3,1)` and `(2,7)`; empty data; and a two-query batch on `[1,2,3]`. |

## Left out

- `multiprocessing.Pool` and `cpu_count` (beta_main.py:76-77) are process fan-out
  with no observable effect beyond an in-order map. The model is the sequential map.
  `GatherChunks` stands for the pool's chunked evaluation, and the model proves it
  equal to that map. A worker crash that aborts the whole batch is not modelled.
  None of the resolver's modelled paths raises.
- `generate_queries` (beta_main.py:49-73) draws its queries with `random`. Only the
  shape of its output is modelled, as the predicate `GeneratedBatch`. The structure
  of the generator's loop and its random choices are not modelled.
- The `__main__` demonstration (beta_main.py:81-109) is not modelled. It builds
  sample data, prints to the console and measures time with `time.time`.
- Python's dynamic typing is collapsed into three parameter shapes: int, 2-tuple of
  ints, or anything else. The model does not capture that `bool` counts as `int`.
  Tuple elements other than ints are not modelled. In the positional branch a
  `None` bound is Python's default slice bound, and an object with `__index__` is
  accepted as an int. Any other bound raises an uncaught `TypeError`: at the slice on
  beta_main.py:24 in the positional branch; in the circular branch at
  `start % data_len` or `end % data_len` (beta_main.py:39-40), or, for a float
  bound, at the slice on beta_main.py:42 or 44.
- The error tokens are returned as strings that could, in Python, coincide with
  string elements of `data`. The model keeps them apart as `Err` values.

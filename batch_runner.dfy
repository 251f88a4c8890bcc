/** The batch runner of beta_main.py: every query of a list is resolved
    against the same read-only data, and the answers come back in the
    order of the queries. */
module BatchRunner {
  import opened QueryResolver

  /** One query: the kind string and the parameter. */
  datatype Query = Query(kind: string, param: Param)

  /** `run_queries_parallel`: `process_query` mapped over the queries, in
      input order. The worker pool is left out; GatherChunks below shows
      that how the pool splits the list does not change the answer. */
  function RunQueriesParallel<T>(data: seq<T>, queries: seq<Query>): (results: seq<Answer<T>>)
    ensures |results| == |queries|
    ensures forall k :: 0 <= k < |queries| ==>
              results[k] == ProcessQuery(data, queries[k].kind, queries[k].param)
  {
    if queries == [] then []
    else [ProcessQuery(data, queries[0].kind, queries[0].param)] + RunQueriesParallel(data, queries[1..])
  }

  /** Running two halves of a batch and concatenating is running the whole
      batch. */
  lemma RunAppend<T>(data: seq<T>, a: seq<Query>, b: seq<Query>)
    ensures RunQueriesParallel(data, a + b) == RunQueriesParallel(data, a) + RunQueriesParallel(data, b)
  {
  }

  /** The query list the pool sees when it is cut into consecutive chunks. */
  function Flatten<X>(chunks: seq<seq<X>>): (flat: seq<X>)
  {
    if chunks == [] then [] else chunks[0] + Flatten(chunks[1..])
  }

  /** The pool's scatter-gather: each chunk is resolved in order by some
      worker, and the chunk results are joined in chunk order. */
  function GatherChunks<T>(data: seq<T>, chunks: seq<seq<Query>>): (results: seq<Answer<T>>)
    ensures |results| == |Flatten(chunks)|
  {
    if chunks == [] then []
    else RunQueriesParallel(data, chunks[0]) + GatherChunks(data, chunks[1..])
  }

  /** However the pool cuts the batch into chunks, the gathered answers are
      exactly the in-order map over the whole batch. */
  lemma {:induction false} GatherChunksIsInOrderMap<T>(data: seq<T>, chunks: seq<seq<Query>>)
    ensures GatherChunks(data, chunks) == RunQueriesParallel(data, Flatten(chunks))
  {
    if chunks != [] {
      GatherChunksIsInOrderMap(data, chunks[1..]);
      RunAppend(data, chunks[0], Flatten(chunks[1..]));
    }
  }

  /** The shape of one parameter `generate_queries` draws for data of
      length `len`: an int in `[0, 2 len]`, or a pair `start <= end` in that
      range. */
  predicate GeneratedParam(p: Param, len: nat)
  {
    || (p.IntP? && 0 <= p.i <= 2 * len)
    || (p.PairP? && 0 <= p.start <= p.end <= 2 * len)
  }

  /** The shape of a batch `generate_queries` produces: between `minQ` and
      `maxQ` queries, each of a known kind with a generated parameter. */
  predicate GeneratedBatch(queries: seq<Query>, len: nat, minQ: int, maxQ: int)
    ensures GeneratedBatch(queries, len, minQ, maxQ) ==>
              forall k :: 0 <= k < |queries| ==> !queries[k].param.OtherP?
  {
    && minQ <= |queries| <= maxQ
    && forall k :: 0 <= k < |queries| ==>
         && (queries[k].kind == PositionalKind || queries[k].kind == CircularKind)
         && GeneratedParam(queries[k].param, len)
  }

  /** On a generated batch no answer is "Wrong Format" or "Unknown query
      type"; "Out of range" comes exactly from positional ints at or past
      the end, and "No Data" exactly from circular queries on empty data. */
  lemma GeneratedBatchOutcomes<T>(data: seq<T>, queries: seq<Query>, minQ: int, maxQ: int)
    requires GeneratedBatch(queries, |data|, minQ, maxQ)
    ensures var results := RunQueriesParallel(data, queries);
            forall k :: 0 <= k < |results| ==>
              && results[k] != Err(WrongFormat)
              && results[k] != Err(UnknownQueryType)
              && (results[k] == Err(OutOfRange) <==>
                    queries[k].kind == PositionalKind && queries[k].param.IntP? && queries[k].param.i >= |data|)
              && (results[k] == Err(NoData) <==> queries[k].kind == CircularKind && |data| == 0)
  {
  }

  /** Worked cases: the point, range and batch lookups on small data. */
  lemma Scenarios()
    ensures ProcessQuery([1, 2, 3, 4, 5], PositionalKind, IntP(2)) == Elem(3)
    ensures ProcessQuery([1, 2, 3, 4, 5], PositionalKind, IntP(10)) == Err(OutOfRange)
    ensures ProcessQuery([1, 2, 3, 4, 5], PositionalKind, IntP(-1)) == Elem(5)
    ensures ProcessQuery([1, 2, 3, 4, 5], PositionalKind, PairP(3, 100)) == Slice([4, 5])
    ensures ProcessQuery([1, 2, 3, 4, 5], CircularKind, IntP(7)) == Elem(3)
    ensures ProcessQuery([1, 2, 3, 4, 5], CircularKind, PairP(3, 1)) == Slice([4, 5, 1])
    ensures ProcessQuery([1, 2, 3, 4, 5], CircularKind, PairP(2, 7)) == Slice([3, 4, 5, 1, 2])
    ensures ProcessQuery<int>([], CircularKind, IntP(5)) == Err(NoData)
    ensures ProcessQuery<int>([], CircularKind, OtherP) == Err(WrongFormat)
    ensures RunQueriesParallel([1, 2, 3], [Query(PositionalKind, IntP(1)), Query(CircularKind, IntP(5))])
            == [Elem(2), Elem(3)]
  {
  }
}

/**
 Runs of successive `next` calls, and what the refill test of `next` does to them.
 As written, `next` refills only once the cursor is past the end of the cache
 (RefillRule.PastEnd); from a new collection it then never refills at all, and after a
 manual load it skips a position and caches later records at the wrong positions.
 With the test `index >= mecha_list.len()` (RefillRule.AtEnd) a new collection yields
 exactly the backend's records, in order, each fetched once, and then None.
 */
module RefillTest {
  import opened CacheModel

  /** What successive calls of `next` returned, and the backend calls they made, in order. */
  datatype Trace<M> = Trace(outputs: seq<Result<Option<M>>>, requests: seq<Request>)

  /** Calls `next` up to n times; a call that fails ends the run, as the panic would. */
  function Run<Raw, M>(c: Cache<M>, b: Backend<Raw>, build: Raw -> Option<M>, rule: RefillRule, n: nat): Trace<M>
    decreases n
  {
    if n == 0 then Trace([], [])
    else
      var r := NextStep(c, b, build, rule);
      if r.outcome.Err? then Trace([r.outcome], r.requests)
      else
        var rest := Run(r.cache, b, build, rule, n - 1);
        Trace([r.outcome] + rest.outputs, r.requests + rest.requests)
  }

  lemma {:induction false} PositionsAppend(xs: seq<Request>, ys: seq<Request>)
    ensures Positions(xs + ys) == Positions(xs) + Positions(ys)
    decreases |xs|
  {
    if xs == [] {
      assert xs + ys == ys;
    } else {
      PositionsAppend(xs[1..], ys);
      assert (xs + ys)[1..] == xs[1..] + ys;
      var head := if xs[0].RecordQuery? then [xs[0].position] else [];
      assert Positions(xs + ys) == head + (Positions(xs[1..]) + Positions(ys));
      assert head + (Positions(xs[1..]) + Positions(ys)) == (head + Positions(xs[1..])) + Positions(ys);
    }
  }

  /** Once the cursor is past the stored count, every further call returns None and calls nothing. */
  lemma {:induction false} PastCountYieldsNothing<Raw, M>(c: Cache<M>, b: Backend<Raw>, build: Raw -> Option<M>, rule: RefillRule, n: nat)
    requires c.index > c.totalLength
    ensures var t := Run(c, b, build, rule, n);
      |t.outputs| == n && (forall k :: 0 <= k < n ==> t.outputs[k] == Ok(None)) && t.requests == []
    decreases n
  {
    if n > 0 {
      PastCountYieldsNothing(c, b, build, rule, n - 1);
    }
  }

  /**
   As written, a new collection never fetches anything: the first `next` finds the cursor
   (0) neither past the count (0) nor past the cache (0), returns None and moves the cursor
   to 1, which is past the count from then on; whatever the backend holds, every call
   returns None and the backend is never called.
   */
  lemma StrictRefillNeverLoadsWhenFresh<Raw, M>(b: Backend<Raw>, build: Raw -> Option<M>, n: nat)
    ensures var t := Run(Fresh(), b, build, PastEnd, n);
      |t.outputs| == n && (forall k :: 0 <= k < n ==> t.outputs[k] == Ok(None)) && t.requests == []
  {
    if n > 0 {
      var first := NextStep(Fresh(), b, build, PastEnd);
      assert first == After(Cache([], 1, 0), Ok(None), []);
      PastCountYieldsNothing(first.cache, b, build, PastEnd, n - 1);
    }
  }

  /**
   As written, after the test's `load_mecha_from_backend(0)` over 9 records, the first five
   calls of `next` return positions 0 .. 4 (NextWithinCache); the sixth (cursor 5, equal to
   the cache length) does not refill and returns None; the seventh (cursor 6) refills from
   position 6, so position 5 is never fetched, the cache's entry 5 holds position 6, and the
   call returns the record of position 7.
   */
  lemma StrictRefillSkipsPosition<Raw, M>(b: Backend<Raw>, build: Raw -> Option<M>)
    requires b.count == 9
    requires forall p :: 0 <= p < 9 ==> build(b.raw(p)).Some?
    ensures var c := LoadStep(Fresh(), b, build, 0).cache;
      && |c.mechaList| == 5 && c.index == 0 && c.totalLength == 9 && Aligned(c.mechaList, b, build)
      && NextStep(c.(index := 5), b, build, PastEnd) == After(c.(index := 6), Ok(None), [])
      && var r := NextStep(c.(index := 6), b, build, PastEnd);
        && r.outcome == Ok(build(b.raw(7)))
        && Some(r.cache.mechaList[5]) == build(b.raw(6))
        && Positions(r.requests) == [6, 7, 8]
  {
    var c := LoadStep(Fresh(), b, build, 0).cache;
    LoadAtCacheEnd(Fresh(), b, build);
    LoadStepFields(Fresh(), b, build, 0);
    LoadStepSucceeds(Fresh(), b, build, 0);
    NextWithinCache(c.(index := 5), b, build);
    RefillFromSix(c, b, build);
  }

  /** The seventh call of StrictRefillSkipsPosition: a refill from position 6 over a cache of positions 0 .. 4. */
  lemma RefillFromSix<Raw, M>(c: Cache<M>, b: Backend<Raw>, build: Raw -> Option<M>)
    requires b.count == 9 && c.totalLength == 9 && |c.mechaList| == 5
    requires forall p :: 0 <= p < 9 ==> build(b.raw(p)).Some?
    ensures var r := NextStep(c.(index := 6), b, build, PastEnd);
      && r.outcome == Ok(build(b.raw(7)))
      && Some(r.cache.mechaList[5]) == build(b.raw(6))
      && Positions(r.requests) == [6, 7, 8]
  {
    var loaded := LoadStep(c.(index := 6), b, build, 6);
    LoadStepFields(c.(index := 6), b, build, 6);
    LoadStepRecords(c.(index := 6), b, build, 6);
    LoadStepSucceeds(c.(index := 6), b, build, 6);
    LoadStepPositions(c.(index := 6), b, build, 6);
    assert |loaded.cache.mechaList| == 8 && loaded.outcome.Ok?;
    assert build(b.raw(6 + (6 - 5))) == Some(loaded.cache.mechaList[6]);
    assert build(b.raw(6 + (5 - 5))) == Some(loaded.cache.mechaList[5]);
    assert Range(6, 9) == [6, 7, 8];
  }

  /**
   The states from which `next` with the AtEnd rule drains the backend in order: the cache
   holds positions 0 .. L-1 with L at most the count, the cursor is within the cache, and
   the stored count is the backend's unless nothing has been loaded yet.
   */
  ghost predicate Draining<Raw, M>(c: Cache<M>, b: Backend<Raw>, build: Raw -> Option<M>)
  {
    && Aligned(c.mechaList, b, build)
    && c.index <= |c.mechaList| <= b.count
    && c.index <= c.totalLength
    && (c.totalLength == b.count || (c.mechaList == [] && c.index == 0))
  }

  /** One call of `next` with the AtEnd rule before the cursor reaches the count. */
  lemma DrainStep<Raw, M>(c: Cache<M>, b: Backend<Raw>, build: Raw -> Option<M>)
    requires Draining(c, b, build) && c.index < b.count
    requires forall p :: 0 <= p < b.count ==> build(b.raw(p)).Some?
    ensures var r := NextStep(c, b, build, AtEnd);
      && r.outcome == Ok(build(b.raw(c.index)))
      && r.cache.index == c.index + 1
      && Draining(r.cache, b, build)
      && Positions(r.requests) == Range(|c.mechaList|, |r.cache.mechaList|)
  {
    if c.index == |c.mechaList| {
      DrainRefill(c, b, build);
    } else {
      assert NextStep(c, b, build, AtEnd) == After(c.(index := c.index + 1), Ok(Some(c.mechaList[c.index])), []);
      assert Range(|c.mechaList|, |c.mechaList|) == [];
    }
  }

  /** The call of `next` that finds the cursor at the cache's end refills from there. */
  lemma DrainRefill<Raw, M>(c: Cache<M>, b: Backend<Raw>, build: Raw -> Option<M>)
    requires Draining(c, b, build) && c.index < b.count && c.index == |c.mechaList|
    requires forall p :: 0 <= p < b.count ==> build(b.raw(p)).Some?
    ensures var r := NextStep(c, b, build, AtEnd);
      && r.outcome == Ok(build(b.raw(c.index)))
      && r.cache.index == c.index + 1
      && Draining(r.cache, b, build)
      && Positions(r.requests) == Range(|c.mechaList|, |r.cache.mechaList|)
  {
    var loaded := LoadStep(c, b, build, c.index);
    LoadAtCacheEnd(c, b, build);
    LoadStepFields(c, b, build, c.index);
    LoadStepSucceeds(c, b, build, c.index);
    LoadStepPositions(c, b, build, c.index);
    assert loaded.outcome.Ok?;
    var list := loaded.cache.mechaList;
    assert NextStep(c, b, build, AtEnd) == After(loaded.cache.(index := c.index + 1), Ok(Some(list[c.index])), loaded.requests);
  }

  /** The call of `next` with the AtEnd rule when the cursor is at the count: None, and no record fetched. */
  lemma DrainEnd<Raw, M>(c: Cache<M>, b: Backend<Raw>, build: Raw -> Option<M>)
    requires Draining(c, b, build) && c.index == b.count
    ensures var r := NextStep(c, b, build, AtEnd);
      r.outcome == Ok(None) && Positions(r.requests) == []
  {
    NextStepEffect(c, b, build, AtEnd);
    LoadStepFields(c, b, build, c.index);
    LoadStepPositions(c, b, build, c.index);
  }

  /** What draining positions lo .. hi-1 should return: each record, in position order. */
  function Produced<Raw, M>(b: Backend<Raw>, build: Raw -> Option<M>, lo: nat, hi: nat): (r: seq<Result<Option<M>>>)
    ensures |r| == if lo <= hi then hi - lo else 0
    decreases hi - lo
  {
    if hi <= lo then [] else [Ok(build(b.raw(lo)))] + Produced(b, build, lo + 1, hi)
  }

  lemma {:induction false} ProducedAt<Raw, M>(b: Backend<Raw>, build: Raw -> Option<M>, lo: nat, hi: nat, k: nat)
    requires lo + k < hi
    ensures Produced(b, build, lo, hi)[k] == Ok(build(b.raw(lo + k)))
    decreases k
  {
    if k > 0 {
      ProducedAt(b, build, lo + 1, hi, k - 1);
    }
  }

  lemma ProducedCons<Raw, M>(b: Backend<Raw>, build: Raw -> Option<M>, lo: nat, hi: nat, rest: seq<Result<Option<M>>>)
    requires lo < hi && rest == Produced(b, build, lo + 1, hi) + [Ok(None)]
    ensures [Ok(build(b.raw(lo)))] + rest == Produced(b, build, lo, hi) + [Ok(None)]
  {
  }

  lemma PositionsConcat(xs: seq<Request>, ys: seq<Request>, lo: nat, mid: nat, hi: nat)
    requires lo <= mid <= hi && Positions(xs) == Range(lo, mid) && Positions(ys) == Range(mid, hi)
    ensures Positions(xs + ys) == Range(lo, hi)
  {
    PositionsAppend(xs, ys);
    RangeAppend(lo, mid, hi);
  }

  /** Calls of `next` that do not fail unfold one at a time. */
  lemma RunOk<Raw, M>(c: Cache<M>, b: Backend<Raw>, build: Raw -> Option<M>, rule: RefillRule, n: nat)
    requires n > 0 && NextStep(c, b, build, rule).outcome.Ok?
    ensures var r := NextStep(c, b, build, rule);
      var rest := Run(r.cache, b, build, rule, n - 1);
      Run(c, b, build, rule, n) == Trace([r.outcome] + rest.outputs, r.requests + rest.requests)
  {
  }

  /**
   From a draining state, calling `next` until the cursor passes the count yields the records
   from the cursor on, then None, and fetches the positions from the cache's end on, each once.
   */
  lemma {:induction false} DrainFrom<Raw, M>(c: Cache<M>, b: Backend<Raw>, build: Raw -> Option<M>)
    requires Draining(c, b, build)
    requires forall p :: 0 <= p < b.count ==> build(b.raw(p)).Some?
    ensures var t := Run(c, b, build, AtEnd, b.count + 1 - c.index);
      && t.outputs == Produced(b, build, c.index, b.count) + [Ok(None)]
      && Positions(t.requests) == Range(|c.mechaList|, b.count)
    decreases b.count - c.index, 1
  {
    if c.index == b.count {
      DrainEnd(c, b, build);
      RunOk(c, b, build, AtEnd, 1);
      assert Range(|c.mechaList|, b.count) == [];
    } else {
      DrainOn(c, b, build);
    }
  }

  lemma {:induction false} DrainOn<Raw, M>(c: Cache<M>, b: Backend<Raw>, build: Raw -> Option<M>)
    requires Draining(c, b, build) && c.index < b.count
    requires forall p :: 0 <= p < b.count ==> build(b.raw(p)).Some?
    ensures var t := Run(c, b, build, AtEnd, b.count + 1 - c.index);
      && t.outputs == Produced(b, build, c.index, b.count) + [Ok(None)]
      && Positions(t.requests) == Range(|c.mechaList|, b.count)
    decreases b.count - c.index, 0
  {
    var r := NextStep(c, b, build, AtEnd);
    DrainStep(c, b, build);
    DrainFrom(r.cache, b, build);
    DrainJoin(c, b, build);
  }

  /** One call of `next` followed by the rest of the drain gives the whole drain. */
  lemma DrainJoin<Raw, M>(c: Cache<M>, b: Backend<Raw>, build: Raw -> Option<M>)
    requires c.index < b.count
    requires var r := NextStep(c, b, build, AtEnd);
      && r.outcome == Ok(build(b.raw(c.index))) && r.cache.index == c.index + 1
      && |c.mechaList| <= |r.cache.mechaList| <= b.count
      && Positions(r.requests) == Range(|c.mechaList|, |r.cache.mechaList|)
    requires var r := NextStep(c, b, build, AtEnd);
      var rest := Run(r.cache, b, build, AtEnd, b.count + 1 - r.cache.index);
      && rest.outputs == Produced(b, build, r.cache.index, b.count) + [Ok(None)]
      && Positions(rest.requests) == Range(|r.cache.mechaList|, b.count)
    ensures var t := Run(c, b, build, AtEnd, b.count + 1 - c.index);
      && t.outputs == Produced(b, build, c.index, b.count) + [Ok(None)]
      && Positions(t.requests) == Range(|c.mechaList|, b.count)
  {
    var r := NextStep(c, b, build, AtEnd);
    var rest := Run(r.cache, b, build, AtEnd, b.count + 1 - r.cache.index);
    RunOk(c, b, build, AtEnd, b.count + 1 - c.index);
    JoinTraces(r.outcome, r.requests, rest, b, build, c.index, r.cache.index, |c.mechaList|, |r.cache.mechaList|);
  }

  /** The trace of one record and then a drain of the rest is the drain from that record on. */
  lemma JoinTraces<Raw, M>(out: Result<Option<M>>, requests: seq<Request>, rest: Trace<M>,
                           b: Backend<Raw>, build: Raw -> Option<M>, index: nat, next: nat, lo: nat, mid: nat)
    requires index < b.count && next == index + 1 && lo <= mid <= b.count
    requires out == Ok(build(b.raw(index))) && Positions(requests) == Range(lo, mid)
    requires rest.outputs == Produced(b, build, next, b.count) + [Ok(None)]
    requires Positions(rest.requests) == Range(mid, b.count)
    ensures [out] + rest.outputs == Produced(b, build, index, b.count) + [Ok(None)]
    ensures Positions(requests + rest.requests) == Range(lo, b.count)
  {
    ProducedCons(b, build, index, b.count, rest.outputs);
    PositionsConcat(requests, rest.requests, lo, mid, b.count);
  }

  /**
   With the refill test `index >= mecha_list.len()`, a new collection over a backend of N
   records that can all be built yields exactly those N records in position order, then
   None; and every position is fetched from the backend exactly once, in increasing order.
   */
  lemma AtEndRefillDrainsInOrder<Raw, M>(b: Backend<Raw>, build: Raw -> Option<M>)
    requires forall p :: 0 <= p < b.count ==> build(b.raw(p)).Some?
    ensures var t := Run(Fresh(), b, build, AtEnd, b.count + 1);
      && |t.outputs| == b.count + 1
      && (forall k :: 0 <= k < b.count ==> t.outputs[k] == Ok(build(b.raw(k))))
      && t.outputs[b.count] == Ok(None)
      && Positions(t.requests) == Range(0, b.count)
  {
    DrainFrom(Fresh(), b, build);
    var t := Run(Fresh(), b, build, AtEnd, b.count + 1);
    forall k | 0 <= k < b.count
      ensures t.outputs[k] == Ok(build(b.raw(k)))
    {
      ProducedAt(b, build, 0, b.count, k);
    }
  }
}

/**
 The cached mecha collection as values: the three fields of the collection, what the
 backend answers during one call, and one function per operation giving the state after
 the call, what the call returns and which backend calls it made, in order.
 The class in mecha_collection.dfy is proved to behave exactly like these functions.
 */
module CacheModel {

  /** Number of records fetched by one refill (CACHE_SIZE). */
  const CacheSize: nat := 5

  datatype Option<T> = None | Some(value: T)

  /** Why a call stopped early: building the record at `position` failed, where the source unwraps and panics. */
  datatype Failure = ConstructionFailed(position: nat)

  datatype Result<T> = Ok(value: T) | Err(failure: Failure)

  /** What the backend answers during one call: the number of mechas it holds now, and the raw data of each position. */
  datatype Backend<Raw> = Backend(count: nat, raw: nat -> Raw)

  /** One call made to the backend. */
  datatype Request = CountQuery | RecordQuery(position: nat)

  /** The fields `mecha_list`, `index` and `total_length` of the collection. */
  datatype Cache<M> = Cache(mechaList: seq<M>, index: nat, totalLength: nat)

  /** The state after an operation, what the operation returned, and the backend calls it made. */
  datatype After<M, T> = After(cache: Cache<M>, outcome: Result<T>, requests: seq<Request>)

  /** The records pushed for positions lo, lo+1, ... and the position whose construction failed, if one did. */
  datatype Pushed<M> = Pushed(records: seq<M>, failedAt: Option<nat>)
  {
    /** How many positions were tried: one backend record query each. */
    function Tried(): nat { |records| + if failedAt.Some? then 1 else 0 }
  }

  function Min(a: nat, b: nat): nat { if a <= b then a else b }

  /** The state a new collection starts in. */
  function Fresh<M>(): Cache<M> { Cache([], 0, 0) }

  /** The cache holds exactly the records of positions 0, 1, ..., |list| - 1. */
  ghost predicate Aligned<Raw, M>(list: seq<M>, b: Backend<Raw>, build: Raw -> Option<M>)
  {
    forall j {:trigger list[j]} :: 0 <= j < |list| ==> build(b.raw(j)) == Some(list[j])
  }

  /** The positions of the record queries among `requests`, in the order they were made. */
  function Positions(requests: seq<Request>): seq<nat>
  {
    if requests == [] then []
    else (if requests[0].RecordQuery? then [requests[0].position] else []) + Positions(requests[1..])
  }

  /** The positions lo, lo+1, ..., hi-1. */
  function Range(lo: nat, hi: nat): (r: seq<nat>)
    ensures |r| == if lo <= hi then hi - lo else 0
    decreases hi - lo
  {
    if hi <= lo then [] else [lo] + Range(lo + 1, hi)
  }

  lemma {:induction false} RangeBounds(lo: nat, hi: nat)
    ensures forall p :: p in Range(lo, hi) ==> lo <= p < hi
    decreases hi - lo
  {
    if lo < hi {
      RangeBounds(lo + 1, hi);
    }
  }

  lemma {:induction false} RangeAppend(lo: nat, mid: nat, hi: nat)
    requires lo <= mid <= hi
    ensures Range(lo, mid) + Range(mid, hi) == Range(lo, hi)
    decreases mid - lo
  {
    if lo < mid {
      RangeAppend(lo + 1, mid, hi);
    } else {
      assert Range(lo, mid) == [];
    }
  }

  /** Record queries for the n positions starting at lo, one after the other. */
  function RecordQueries(lo: nat, n: nat): (q: seq<Request>)
    ensures |q| == n
    decreases n
  {
    if n == 0 then [] else [RecordQuery(lo)] + RecordQueries(lo + 1, n - 1)
  }

  /** The k-th of RecordQueries(lo, n) asks for position lo + k. */
  lemma {:induction false} RecordQueriesAt(lo: nat, n: nat)
    ensures forall k :: 0 <= k < n ==> RecordQueries(lo, n)[k] == RecordQuery(lo + k)
    decreases n
  {
    if n > 0 {
      RecordQueriesAt(lo + 1, n - 1);
      var q := RecordQueries(lo, n);
      forall k | 0 < k < n
        ensures q[k] == RecordQuery(lo + k)
      {
        assert q[k] == RecordQueries(lo + 1, n - 1)[k - 1];
      }
    }
  }

  /** The positions asked for by RecordQueries(lo, n) are lo, lo + 1, ..., lo + n - 1. */
  lemma {:induction false} RecordQueriesPositions(lo: nat, n: nat)
    ensures Positions(RecordQueries(lo, n)) == Range(lo, lo + n)
    decreases n
  {
    if n > 0 {
      RecordQueriesPositions(lo + 1, n - 1);
      assert RecordQueries(lo, n)[1..] == RecordQueries(lo + 1, n - 1);
    }
  }

  /**
   The `for` loop of `load_mecha_from_backend`: builds and pushes the records of positions
   lo .. hi-1 in increasing order, and stops at the first position whose construction fails.
   */
  function Push<Raw, M>(raw: nat -> Raw, build: Raw -> Option<M>, lo: nat, hi: nat): Pushed<M>
    decreases hi
  {
    if hi <= lo then Pushed([], None)
    else
      var prev := Push(raw, build, lo, hi - 1);
      if prev.failedAt.Some? then prev
      else match build(raw(hi - 1))
        case None => Pushed(prev.records, Some(hi - 1))
        case Some(m) => Pushed(prev.records + [m], None)
  }

  /**
   What pushing the window lo .. hi-1 yields: the records of lo, lo + 1, ... in order, all
   hi - lo of them when every position can be built, and otherwise those before the first
   position that cannot.
   */
  lemma {:induction false} PushContents<Raw, M>(raw: nat -> Raw, build: Raw -> Option<M>, lo: nat, hi: nat)
    ensures var r := Push(raw, build, lo, hi);
      && (r.failedAt.None? ==> |r.records| == if lo <= hi then hi - lo else 0)
      && (r.failedAt.Some? ==>
            lo <= r.failedAt.value < hi && |r.records| == r.failedAt.value - lo && build(raw(r.failedAt.value)).None?)
      && (forall k :: 0 <= k < |r.records| ==> build(raw(lo + k)) == Some(r.records[k]))
      && (r.failedAt.None? <==> forall p :: lo <= p < hi ==> build(raw(p)).Some?)
    decreases hi
  {
    if hi > lo {
      PushContents(raw, build, lo, hi - 1);
    }
  }

  /**
   `load_mecha_from_backend(offset)`: reads the backend's count into `total_length`, then pushes
   the records of positions offset .. min(offset + CacheSize, count) - 1. Nothing checks whether a
   position is already cached.
   */
  function LoadStep<Raw, M>(c: Cache<M>, b: Backend<Raw>, build: Raw -> Option<M>, offset: nat): After<M, ()>
  {
    var pushed := Push(b.raw, build, offset, Min(offset + CacheSize, b.count));
    After(Cache(c.mechaList + pushed.records, c.index, b.count),
          if pushed.failedAt.Some? then Err(ConstructionFailed(pushed.failedAt.value)) else Ok(()),
          [CountQuery] + RecordQueries(offset, pushed.Tried()))
  }

  /** The effect of one load on the three fields, and where it stops when it fails. */
  lemma LoadStepFields<Raw, M>(c: Cache<M>, b: Backend<Raw>, build: Raw -> Option<M>, offset: nat)
    ensures var r := LoadStep(c, b, build, offset);
      // total_length is overwritten with the fresh count; the cursor is untouched
      && r.cache.totalLength == b.count && r.cache.index == c.index
      // append only: every cached entry keeps its position and value
      && c.mechaList <= r.cache.mechaList
      // a full window is max(0, min(offset + CacheSize, count) - offset) records
      && (r.outcome.Ok? ==>
            |r.cache.mechaList| == |c.mechaList| + if offset < b.count then Min(CacheSize, b.count - offset) else 0)
      // a failure names a position of the window that cannot be built, after pushing those before it
      && (r.outcome.Err? ==>
            var p := r.outcome.failure.position;
            offset <= p < Min(offset + CacheSize, b.count) && build(b.raw(p)).None?
            && |r.cache.mechaList| == |c.mechaList| + (p - offset))
  {
    PushContents(b.raw, build, offset, Min(offset + CacheSize, b.count));
  }

  /** The records a load appends are those of positions offset, offset + 1, ... in that order. */
  lemma LoadStepRecords<Raw, M>(c: Cache<M>, b: Backend<Raw>, build: Raw -> Option<M>, offset: nat)
    ensures var list := LoadStep(c, b, build, offset).cache.mechaList;
      forall k :: |c.mechaList| <= k < |list| ==> build(b.raw(offset + (k - |c.mechaList|))) == Some(list[k])
  {
    PushContents(b.raw, build, offset, Min(offset + CacheSize, b.count));
  }

  /** A load succeeds exactly when every position of its window can be built. */
  lemma LoadStepSucceeds<Raw, M>(c: Cache<M>, b: Backend<Raw>, build: Raw -> Option<M>, offset: nat)
    ensures LoadStep(c, b, build, offset).outcome.Ok?
      <==> forall p :: offset <= p < Min(offset + CacheSize, b.count) ==> build(b.raw(p)).Some?
  {
    PushContents(b.raw, build, offset, Min(offset + CacheSize, b.count));
  }

  /**
   The backend calls of a load: exactly one count query, first, then one record query per
   position tried, in increasing order from the offset.
   */
  lemma LoadStepRequests<Raw, M>(c: Cache<M>, b: Backend<Raw>, build: Raw -> Option<M>, offset: nat)
    ensures var r := LoadStep(c, b, build, offset);
      && |r.requests| == 1 + (|r.cache.mechaList| - |c.mechaList|) + (if r.outcome.Err? then 1 else 0)
      && r.requests[0] == CountQuery
      && (forall k :: 0 < k < |r.requests| ==> r.requests[k] == RecordQuery(offset + (k - 1)))
  {
    var pushed := Push(b.raw, build, offset, Min(offset + CacheSize, b.count));
    var q := RecordQueries(offset, pushed.Tried());
    RecordQueriesAt(offset, pushed.Tried());
    forall k | 0 < k < 1 + |q|
      ensures ([CountQuery] + q)[k] == RecordQuery(offset + (k - 1))
    {
      assert ([CountQuery] + q)[k] == q[k - 1];
    }
  }

  /** The positions a load fetches: offset, offset + 1, ..., one per position tried. */
  lemma LoadStepPositions<Raw, M>(c: Cache<M>, b: Backend<Raw>, build: Raw -> Option<M>, offset: nat)
    ensures var r := LoadStep(c, b, build, offset);
      Positions(r.requests) ==
        Range(offset, offset + (|r.cache.mechaList| - |c.mechaList|) + if r.outcome.Err? then 1 else 0)
  {
    var pushed := Push(b.raw, build, offset, Min(offset + CacheSize, b.count));
    RecordQueriesPositions(offset, pushed.Tried());
    assert ([CountQuery] + RecordQueries(offset, pushed.Tried()))[1..] == RecordQueries(offset, pushed.Tried());
  }

  /**
   When `next` refills. The source refills only once the cursor is past the end of the cache
   (`index > mecha_list.len()`, PastEnd); AtEnd is the rule `index >= mecha_list.len()`.
   */
  datatype RefillRule = PastEnd | AtEnd

  predicate NeedsRefill(rule: RefillRule, index: nat, len: nat)
  {
    match rule
    case PastEnd => index > len
    case AtEnd => index >= len
  }

  /**
   `Iterator::next`: ends when the cursor is past `total_length`; otherwise refills from the cursor
   if the rule asks for it, looks the cursor up in the cache and advances the cursor by one.
   */
  function NextStep<Raw, M>(c: Cache<M>, b: Backend<Raw>, build: Raw -> Option<M>, rule: RefillRule): After<M, Option<M>>
  {
    if c.index > c.totalLength then After(c, Ok(None), [])
    else
      var loaded := if NeedsRefill(rule, c.index, |c.mechaList|) then LoadStep(c, b, build, c.index)
                    else After(c, Ok(()), []);
      if loaded.outcome.Err? then After(loaded.cache, Err(loaded.outcome.failure), loaded.requests)
      else
        var list := loaded.cache.mechaList;
        After(loaded.cache.(index := c.index + 1),
              Ok(if c.index < |list| then Some(list[c.index]) else None),
              loaded.requests)
  }

  /** The effect of one call of `next` on the three fields, what it returns, and the backend calls it makes. */
  lemma NextStepEffect<Raw, M>(c: Cache<M>, b: Backend<Raw>, build: Raw -> Option<M>, rule: RefillRule)
    ensures var r := NextStep(c, b, build, rule);
      // past the end: None, and nothing changes or is asked of the backend
      && (c.index > c.totalLength ==> r == After(c, Ok(None), []))
      // no refill: the cache and the count are untouched and the backend is not called
      && (!NeedsRefill(rule, c.index, |c.mechaList|) ==>
            r.cache.mechaList == c.mechaList && r.cache.totalLength == c.totalLength && r.requests == [])
      // a refill is a load at the cursor: its cache, count, backend calls and failure
      && (c.index <= c.totalLength && NeedsRefill(rule, c.index, |c.mechaList|) ==>
            var loaded := LoadStep(c, b, build, c.index);
            && r.cache.mechaList == loaded.cache.mechaList && r.cache.totalLength == b.count
            && r.requests == loaded.requests
            && (r.outcome.Err? <==> loaded.outcome.Err?)
            && (r.outcome.Err? ==> r.outcome.failure == loaded.outcome.failure))
      // the cache only grows
      && c.mechaList <= r.cache.mechaList
      // a call that does not fail and is not past the end advances the cursor by exactly one and
      // returns the cached entry at the old cursor, or None when the cache does not reach it
      && (c.index <= c.totalLength && r.outcome.Ok? ==>
            r.cache.index == c.index + 1
            && r.outcome.value == (if c.index < |r.cache.mechaList| then Some(r.cache.mechaList[c.index]) else None))
      // only a refill can fail, and then the cursor stays where it was
      && (r.outcome.Err? ==>
            c.index <= c.totalLength && NeedsRefill(rule, c.index, |c.mechaList|) && r.cache.index == c.index)
  {
    LoadStepFields(c, b, build, c.index);
  }

  /**
   While the cursor is within the cache (and not past the count), `next` makes no backend call,
   leaves the cache and the count alone, returns the cached record at the cursor, or None
   when the cursor is exactly at the cache's end, and advances the cursor by one.
   */
  lemma NextWithinCache<Raw, M>(c: Cache<M>, b: Backend<Raw>, build: Raw -> Option<M>)
    requires c.index <= |c.mechaList| && c.index <= c.totalLength
    ensures NextStep(c, b, build, PastEnd) ==
      After(c.(index := c.index + 1), Ok(if c.index < |c.mechaList| then Some(c.mechaList[c.index]) else None), [])
  {
  }

  /**
   A load that starts where the cache ends, over a cache that holds positions 0 .. L-1, keeps
   it that way: afterwards the cache holds positions 0 .. min(L + CacheSize, count) - 1 (or up
   to the failing position), never more than the count, and no cached position is fetched again.
   */
  lemma LoadAtCacheEnd<Raw, M>(c: Cache<M>, b: Backend<Raw>, build: Raw -> Option<M>)
    requires Aligned(c.mechaList, b, build)
    ensures var r := LoadStep(c, b, build, |c.mechaList|);
      && Aligned(r.cache.mechaList, b, build)
      && (r.outcome.Ok? && |c.mechaList| <= b.count ==>
            |r.cache.mechaList| == Min(|c.mechaList| + CacheSize, b.count))
      && (r.outcome.Err? ==> |r.cache.mechaList| == r.outcome.failure.position)
      && (|c.mechaList| <= b.count ==> |r.cache.mechaList| <= r.cache.totalLength)
      && forall p :: p in Positions(r.requests) ==> p >= |c.mechaList|
  {
    var L := |c.mechaList|;
    var r := LoadStep(c, b, build, L);
    LoadStaysAligned(c, b, build);
    LoadStepFields(c, b, build, L);
    LoadStepPositions(c, b, build, L);
    RangeBounds(L, |r.cache.mechaList| + if r.outcome.Err? then 1 else 0);
  }

  /** A load at the end of a cache holding positions 0 .. L-1 appends positions L, L + 1, ... */
  lemma LoadStaysAligned<Raw, M>(c: Cache<M>, b: Backend<Raw>, build: Raw -> Option<M>)
    requires Aligned(c.mechaList, b, build)
    ensures Aligned(LoadStep(c, b, build, |c.mechaList|).cache.mechaList, b, build)
  {
    var L := |c.mechaList|;
    var list := LoadStep(c, b, build, L).cache.mechaList;
    LoadStepFields(c, b, build, L);
    LoadStepRecords(c, b, build, L);
    forall j | 0 <= j < |list|
      ensures build(b.raw(j)) == Some(list[j])
    {
      if j >= L {
        assert L + (j - L) == j;
      } else {
        assert list[j] == c.mechaList[j];
      }
    }
  }

  /**
   Without the precondition of LoadAtCacheEnd the cache can outgrow the count and hold
   duplicates: loading from offset 0 twice over a backend of 9 records caches 10 entries,
   the sixth being position 0 again.
   */
  lemma RepeatedLoadDuplicates<Raw, M>(b: Backend<Raw>, build: Raw -> Option<M>)
    requires b.count == 9
    requires forall p :: 0 <= p < 9 ==> build(b.raw(p)).Some?
    ensures var once := LoadStep(Fresh(), b, build, 0).cache;
      var twice := LoadStep(once, b, build, 0).cache;
      |twice.mechaList| == 10 > twice.totalLength && twice.mechaList[5] == twice.mechaList[0]
  {
    var once := LoadStep(Fresh(), b, build, 0).cache;
    LoadStepFields(Fresh(), b, build, 0);
    LoadStepSucceeds(Fresh(), b, build, 0);
    var twice := LoadStep(once, b, build, 0).cache;
    LoadStepFields(once, b, build, 0);
    LoadStepRecords(once, b, build, 0);
    assert build(b.raw(0)) == Some(twice.mechaList[5]);
  }

  /**
   The mock backend test: with 9 records, loading from 0 caches 5 records and loading from 5
   next caches all 9, the cache then holding exactly positions 0 .. 8.
   */
  lemma MockCacheLoads<Raw, M>(b: Backend<Raw>, build: Raw -> Option<M>)
    requires b.count == 9
    requires forall p :: 0 <= p < 9 ==> build(b.raw(p)).Some?
    ensures var first := LoadStep(Fresh(), b, build, 0);
      var second := LoadStep(first.cache, b, build, 5);
      && first.outcome.Ok? && |first.cache.mechaList| == 5
      && second.outcome.Ok? && |second.cache.mechaList| == 9
      && Aligned(second.cache.mechaList, b, build)
  {
    var first := LoadStep(Fresh(), b, build, 0);
    LoadAtCacheEnd(Fresh(), b, build);
    LoadAtCacheEnd(first.cache, b, build);
  }
}

/**
 CachedMechaCollection: a forward-only iterator over the mechas a backend holds. It caches
 the records it has fetched in `mechaList`, which only grows, keeps a cursor `index`, and
 remembers in `totalLength` the count the backend reported at the last refill.
 */
module MechaCollection {
  import opened CacheModel

  class CachedMechaCollection<Raw, M> {
    var mechaList: seq<M>
    var index: nat
    var totalLength: nat
    /** The backend's current answers; whoever owns the backend may change them between calls. */
    var backendFunc: Backend<Raw>
    /** Mecha::NewFromBlockchain: builds a record from raw backend data, or fails. */
    const newFromBlockchain: Raw -> Option<M>
    /** Every call made to the backend so far, in order. */
    ghost var requests: seq<Request>

    /** The three fields as a value of the model. */
    function State(): Cache<M>
      reads this
    {
      Cache(mechaList, index, totalLength)
    }

    /** `new`: empty cache, cursor 0, count 0, and no call to the backend. */
    constructor (backend: Backend<Raw>, build: Raw -> Option<M>)
      ensures State() == Fresh() && mechaList == [] && index == 0 && totalLength == 0
      ensures backendFunc == backend && newFromBlockchain == build
      ensures requests == []
    {
      mechaList := [];
      index := 0;
      totalLength := 0;
      backendFunc := backend;
      newFromBlockchain := build;
      requests := [];
    }

    /**
     `load_mecha_from_backend`: stores the backend's count in `totalLength`, then pushes the
     records of positions offset .. min(offset + CacheSize, count) - 1, one backend call each.
     A record that cannot be built stops the load (the source panics there) with the
     records before it already pushed.
     */
    method LoadMechaFromBackend(offset: nat) returns (outcome: Result<()>)
      modifies this
      ensures backendFunc == old(backendFunc)
      ensures var after := LoadStep(old(State()), backendFunc, newFromBlockchain, offset);
        State() == after.cache && outcome == after.outcome && requests == old(requests) + after.requests
    {
      var total := backendFunc.count;
      requests := requests + [CountQuery];
      totalLength := total;
      var failedAt := PushWindow(offset, Min(offset + CacheSize, total));
      outcome := if failedAt.Some? then Err(ConstructionFailed(failedAt.value)) else Ok(());
    }

    /**
     The `for` loop of `load_mecha_from_backend`: for each position from `offset` up to `end`,
     asks the backend for its raw data, builds the record and pushes it onto `mechaList`,
     stopping at the first position whose record cannot be built.
     */
    method PushWindow(offset: nat, end: nat) returns (failedAt: Option<nat>)
      modifies this
      ensures backendFunc == old(backendFunc) && index == old(index) && totalLength == old(totalLength)
      ensures var pushed := Push(backendFunc.raw, newFromBlockchain, offset, end);
        && mechaList == old(mechaList) + pushed.records && failedAt == pushed.failedAt
        && requests == old(requests) + RecordQueries(offset, pushed.Tried())
    {
      var backend, build := backendFunc, newFromBlockchain;
      if end <= offset {
        // the range offset..end is empty
        return None;
      }
      var i := offset;
      while i < end
        invariant offset <= i <= end
        invariant Push(backend.raw, build, offset, i).failedAt.None?
        invariant mechaList == old(mechaList) + Push(backend.raw, build, offset, i).records
        invariant |mechaList| == |old(mechaList)| + (i - offset)
        invariant requests == old(requests) + RecordQueries(offset, i - offset)
        invariant index == old(index) && totalLength == old(totalLength) && backendFunc == backend
      {
        var built := PushAt(i);
        LogOneMore(old(requests), offset, i);
        if built.None? {
          PushStops(backend.raw, build, offset, i);
          PushPastFailure(backend.raw, build, offset, i + 1, end);
          assert Push(backend.raw, build, offset, end).Tried() == i + 1 - offset;
          return Some(i);
        }
        PushExtends(old(mechaList), backend.raw, build, offset, i);
        i := i + 1;
      }
      assert Push(backend.raw, build, offset, end).Tried() == i - offset;
      failedAt := None;
    }

    /**
     One pass of that loop: asks the backend for the raw data at `position`, builds the record
     and, when it can be built, pushes it onto `mechaList`.
     */
    method PushAt(position: nat) returns (built: Option<M>)
      modifies this
      ensures built == newFromBlockchain(backendFunc.raw(position))
      ensures backendFunc == old(backendFunc) && index == old(index) && totalLength == old(totalLength)
      ensures mechaList == old(mechaList) + (if built.Some? then [built.value] else [])
      ensures requests == old(requests) + [RecordQuery(position)]
    {
      var raw := backendFunc.raw(position);
      requests := requests + [RecordQuery(position)];
      built := newFromBlockchain(raw);
      if built.Some? {
        mechaList := mechaList + [built.value];
      }
    }

    /**
     `next`: None once the cursor is past `totalLength`, without advancing it; otherwise refills
     from the cursor when the cursor is past the end of the cache, returns the cached record at
     the cursor (None when there is none) and advances the cursor by one.
     */
    method Next() returns (r: Result<Option<M>>)
      modifies this
      ensures backendFunc == old(backendFunc)
      ensures var after := NextStep(old(State()), backendFunc, newFromBlockchain, PastEnd);
        State() == after.cache && r == after.outcome && requests == old(requests) + after.requests
    {
      if index > totalLength {
        return Ok(None);
      }
      if index > |mechaList| {
        var loaded := LoadMechaFromBackend(index);
        if loaded.Err? {
          return Err(loaded.failure);
        }
      }
      var mecha := if index < |mechaList| then Some(mechaList[index]) else None;
      index := index + 1;
      r := Ok(mecha);
    }
  }

  /** Appending one more record query to RecordQueries(lo, n) gives RecordQueries(lo, n + 1). */
  lemma {:induction false} RecordQueriesGrow(lo: nat, n: nat)
    ensures RecordQueries(lo, n) + [RecordQuery(lo + n)] == RecordQueries(lo, n + 1)
    decreases n
  {
    if n > 0 {
      RecordQueriesGrow(lo + 1, n - 1);
      assert RecordQueries(lo, n) + [RecordQuery(lo + n)]
          == [RecordQuery(lo)] + (RecordQueries(lo + 1, n - 1) + [RecordQuery(lo + 1 + (n - 1))]);
    }
  }

  /** Logging the record query at position i after those for offset .. i-1. */
  lemma LogOneMore(log: seq<Request>, offset: nat, i: nat)
    requires offset <= i
    ensures (log + RecordQueries(offset, i - offset)) + [RecordQuery(i)] == log + RecordQueries(offset, i + 1 - offset)
  {
    RecordQueriesGrow(offset, i - offset);
    assert (log + RecordQueries(offset, i - offset)) + [RecordQuery(i)] == log + (RecordQueries(offset, i - offset) + [RecordQuery(i)]);
  }

  /** Pushing one more position that can be built, after a window that succeeded, appends its record. */
  lemma PushExtends<Raw, M>(list: seq<M>, raw: nat -> Raw, build: Raw -> Option<M>, lo: nat, hi: nat)
    requires lo <= hi && Push(raw, build, lo, hi).failedAt.None? && build(raw(hi)).Some?
    ensures Push(raw, build, lo, hi + 1) == Pushed(Push(raw, build, lo, hi).records + [build(raw(hi)).value], None)
    ensures (list + Push(raw, build, lo, hi).records) + [build(raw(hi)).value] == list + Push(raw, build, lo, hi + 1).records
  {
    assert (list + Push(raw, build, lo, hi).records) + [build(raw(hi)).value]
        == list + (Push(raw, build, lo, hi).records + [build(raw(hi)).value]);
  }

  /** Pushing one more position that cannot be built, after a window that succeeded, fails there. */
  lemma PushStops<Raw, M>(raw: nat -> Raw, build: Raw -> Option<M>, lo: nat, hi: nat)
    requires lo <= hi && Push(raw, build, lo, hi).failedAt.None? && build(raw(hi)).None?
    ensures Push(raw, build, lo, hi + 1) == Pushed(Push(raw, build, lo, hi).records, Some(hi))
  {
  }

  /** Once pushing fails at some position below `mid`, extending the window leaves the result unchanged. */
  lemma {:induction false} PushPastFailure<Raw, M>(raw: nat -> Raw, build: Raw -> Option<M>, lo: nat, mid: nat, hi: nat)
    requires lo <= mid <= hi
    requires Push(raw, build, lo, mid).failedAt.Some?
    ensures Push(raw, build, lo, hi) == Push(raw, build, lo, mid)
    decreases hi - mid
  {
    if mid < hi {
      PushPastFailure(raw, build, lo, mid, hi - 1);
    }
  }

  /**
   The `for mecha in collection` loop of `test_mock_cache`: calls `next` until it returns None.
   Once every record the count promises is cached, the loop yields the rest of the cache in
   order and makes no backend call.
   */
  method DrainCached<Raw, M>(collection: CachedMechaCollection<Raw, M>) returns (produced: seq<M>)
    requires |collection.mechaList| == collection.totalLength && collection.index <= collection.totalLength
    modifies collection
    ensures produced == old(collection.mechaList)[old(collection.index)..]
    ensures collection.mechaList == old(collection.mechaList) && collection.requests == old(collection.requests)
    // the final call finds the cursor at the cache's end, returns None and moves the cursor one past it
    ensures collection.index == |old(collection.mechaList)| + 1
    ensures collection.totalLength == old(collection.totalLength) && collection.backendFunc == old(collection.backendFunc)
  {
    ghost var cached := collection.mechaList;
    ghost var start := collection.index;
    produced := [];
    var next := collection.Next();
    while next.Ok? && next.value.Some?
      invariant collection.mechaList == cached && collection.totalLength == |cached|
      invariant collection.requests == old(collection.requests) && collection.backendFunc == old(collection.backendFunc)
      invariant start <= collection.index - 1 <= |cached| && produced == cached[start..collection.index - 1]
      invariant next == Ok(if collection.index - 1 < |cached| then Some(cached[collection.index - 1]) else None)
      decreases |cached| + 1 - collection.index
    {
      produced := produced + [next.value.value];
      next := collection.Next();
    }
  }

  /**
   `test_mock_cache`: a backend holding 9 mechas; loading from 0 caches 5 of them, loading
   from 5 caches all 9, and iterating the collection then yields the 9 mechas in order.
   */
  method TestMockCache<Raw, M>(raw: nat -> Raw, build: Raw -> Option<M>) returns (produced: seq<M>)
    requires forall p :: 0 <= p < 9 ==> build(raw(p)).Some?
    ensures |produced| == 9
    ensures forall k :: 0 <= k < 9 ==> build(raw(k)) == Some(produced[k])
  {
    var collection := new CachedMechaCollection(Backend(0, raw), build);
    // setup_mock: the mock backend is given 9 mechas
    collection.backendFunc := Backend(9, raw);
    MockCacheLoads(collection.backendFunc, build);

    var loaded := collection.LoadMechaFromBackend(0);
    assert |collection.mechaList| == 5;
    loaded := collection.LoadMechaFromBackend(5);
    assert |collection.mechaList| == 9;

    produced := DrainCached(collection);
  }
}

# CachedMechaCollection in Dafny

A model of `CachedMechaCollection`, the caching iterator over the mechas an account owns. The
collection holds three fields:

- `mecha_list`, the records fetched so far;
- `index`, the iterator's cursor;
- `total_length`, the count the backend reported at the last refill.

`load_mecha_from_backend(offset)` works in this order:

1. It asks the backend for the current count and stores it.
2. It fetches the records of positions `offset .. min(offset + 5, count) - 1`, one backend call each.
3. It builds each record with `Mecha::NewFromBlockchain` and pushes it onto the cache.

`next` returns None once the cursor is past the stored count. Otherwise it refills from the
cursor when the cursor is past the end of the cache. It then returns the cached record at the
cursor, or None when there is none, and advances the cursor.

The project has three modules:

- `CacheModel` (cache_model.dfy) is the collection as values. `LoadStep` and `NextStep` give:
  - the fields after a call;
  - what the call returns;
  - the backend calls it makes (a count query, or a record query at one position), in order.

  It also holds lemmas on what a load appends, when it fails, and which positions it fetches.
- `MechaCollection` (mecha_collection.dfy) is the struct as a class whose methods update its
  fields in place.
  - Each method is proved to leave exactly the state that `LoadStep` / `NextStep` prescribe.
  - A ghost log records every backend call.
  - The unit test `test_mock_cache` is modelled as a method with its own contract.
- `RefillTest` (refill_test.dfy) runs `next` repeatedly (`Run`). It shows what the refill test of
  `next` does as written, and proves that the `>=` test drains the backend in order.

The backend is a value `Backend(count, raw)`: the count it reports and the raw data it
returns for each position. It sits in the field `backendFunc`, which the owner of the backend
may replace between calls. `Mecha::NewFromBlockchain` is a function `Raw -> Option<M>`. Its
`None` stands for the `Err` that the source's `unwrap` turns into a panic. The model turns
that panic into the outcome `Err(ConstructionFailed(position))`:

- the records pushed before the panic stay in the cache;
- `total_length` has already been overwritten;
- in `next`, the cursor has not been advanced.

## Model

| member | source | states |
|---|---|---|
| CacheModel.PushContents | src/mecha_collection.rs:60-66 | The load loop pushes the records of positions lo, lo+1, ... in order. With no failure it pushes all hi - lo of them. A failure names the first position in the window whose record cannot be built, after pushing those before it. It fails iff some position of the window cannot be built. |
| CacheModel.LoadStepFields | src/mecha_collection.rs:55-69 | A load overwrites `total_length` with the backend's count and leaves the cursor alone. It only appends to the cache. On success it appends min(5, count - offset) records, or none when offset >= count. On failure it names a position in the window whose record cannot be built, and it has pushed exactly the records before that position. |
| CacheModel.LoadStepRecords | src/mecha_collection.rs:60-66 | The k-th appended record is the record built from position offset + k. |
| CacheModel.LoadStepSucceeds | src/mecha_collection.rs:60-66 | A load succeeds (does not panic) exactly when every position of its window can be built. |
| CacheModel.LoadStepRequests | src/mecha_collection.rs:57-63 | The backend calls of a load are exactly one count query, first, and then one record query per position tried: call k asks for position offset + k - 1. The number of positions tried is the number of records pushed, plus one when the load fails. |
| CacheModel.LoadStepPositions | src/mecha_collection.rs:60-63 | The positions a load fetches are offset, offset+1, ..., one per position tried. |
| CacheModel.NextStepEffect | src/mecha_collection.rs:19-38 | Past the stored count, `next` returns None and changes nothing. Without a refill, the cache and the count are untouched and the backend is not called. A refill is a load at the cursor: the cache, the count, the backend calls and the failure position are those of `load_mecha_from_backend(index)`, and the call fails exactly when that load does. The cache only grows. A call that neither fails nor ends advances the cursor by one and returns the cached entry at the old cursor, or None when the cache does not reach it. Only a refill can fail, and then the cursor stays. |
| CacheModel.NextWithinCache | src/mecha_collection.rs:23-35 | With the cursor within the cache and the count, `next` calls no backend. It returns the entry at the cursor (None exactly at the cache's end) and advances the cursor. |
| CacheModel.LoadAtCacheEnd | src/mecha_collection.rs:55-69 | Over a cache holding positions 0 .. L-1, a load at offset L keeps the cache aligned with positions, and it never fetches a cached position again. A failed load leaves the cache holding positions up to the failing one. When L ≤ count, a successful load leaves it holding positions up to min(L + 5, count) - 1, and the cache never holds more than the count. When the count has dropped below L, the window is empty and the cache stays longer than the count. |
| CacheModel.LoadStaysAligned | src/mecha_collection.rs:60-66 | Over a cache holding positions 0 .. L-1, a load at offset L leaves the cache holding positions 0, 1, ... in order. |
| CacheModel.RepeatedLoadDuplicates | src/mecha_collection.rs:55-69 | The load does not check what is already cached. Loading from 0 twice over 9 records caches 10 entries, more than the count, and entry 5 repeats position 0. |
| CacheModel.MockCacheLoads | src/mecha_collection.rs:94-98 | With 9 records, load(0) caches 5 and load(5) then caches all 9, aligned with positions 0 .. 8. |
| MechaCollection.CachedMechaCollection.constructor | src/mecha_collection.rs:43-53 | A new collection has an empty cache, cursor 0 and count 0, keeps the given backend and has made no backend call. |
| MechaCollection.CachedMechaCollection.LoadMechaFromBackend | src/mecha_collection.rs:55-69 | The fields, the outcome and the logged backend calls are exactly those `LoadStep` gives from the old fields. |
| MechaCollection.CachedMechaCollection.PushWindow | src/mecha_collection.rs:60-66 | The loop appends `Push`'s records for the window and logs one record query per position tried. It stops at the first record that cannot be built. The cursor and the count are untouched. |
| MechaCollection.CachedMechaCollection.PushAt | src/mecha_collection.rs:61-65 | One pass of the loop: one record query at the position, and the built record pushed when it can be built. |
| MechaCollection.CachedMechaCollection.Next | src/mecha_collection.rs:19-38 | The fields, the result and the logged backend calls are exactly those `NextStep` gives with the source's refill test. |
| MechaCollection.DrainCached | src/mecha_collection.rs:100-103 | Iterating a collection whose cache holds `total_length` records yields the cache from the cursor on, in order, and calls no backend. Afterwards the cursor is one past the cache's end, and the cache, the count and the backend are unchanged. |
| MechaCollection.TestMockCache | src/mecha_collection.rs:89-106 | The test over a mock backend with 9 records: the loads cache 5, then 9. Iterating then yields the 9 records of positions 0 .. 8, in order. |
| RefillTest.PastCountYieldsNothing | src/mecha_collection.rs:20-21 | Once the cursor is past the stored count, every further `next` returns None and calls no backend. |
| RefillTest.StrictRefillNeverLoadsWhenFresh | src/mecha_collection.rs:23 | As written, iterating a fresh collection returns None on every call and never calls the backend, whatever it holds. |
| RefillTest.StrictRefillSkipsPosition | src/mecha_collection.rs:23-31 | As written, after load(0) over 9 records, the call at cursor 5 returns None without a refill. The call at cursor 6 refills from position 6 and returns position 7's record. Position 5 is never fetched, and cache entry 5 holds position 6. |
| RefillTest.DrainStep | src/mecha_collection.rs:19-38 | With the `>=` refill test and every record buildable, one `next` before the count returns the record at the cursor. It keeps the cache aligned and fetches only positions not yet cached. |
| RefillTest.DrainFrom | src/mecha_collection.rs:19-38 | With the `>=` refill test, count - cursor + 1 calls from a draining state return the records of the cursor .. count - 1 and then None. They fetch each uncached position once, in order. |
| RefillTest.AtEndRefillDrainsInOrder | src/mecha_collection.rs:23 | With the `>=` refill test, iterating a fresh collection returns every record of the backend in position order, then None. It fetches each position exactly once, in order. |

## Left out

- Printing: the `println!` calls in `next` and in the test are left out.
- The U256 count, `U256::from` and `as_usize` are modelled as `nat`. The panic of `as_usize` on a count above `usize::MAX` is not modelled.
- `usize` overflow of `offset + CACHE_SIZE` and of `index += 1` is not modelled. Integers are unbounded.
- The `BackEndMechaFunction` trait and `MockBackend` are replaced by the backend value `Backend(count, raw)`, which stays fixed during one call.
  - `setup_mock` is the assignment of a backend holding 9 records.
  - src/mock_backend_function.rs and src/backend_mecha_function.rs are not part of this model.
- `Mecha` is an abstract record type, and `NewFromBlockchain` a function parameter.
  - Which raw data fails to parse is not modelled.
  - `clone` is the identity.
  - src/mecha.rs is not part of this model.
- A panic is modelled as an `Err` outcome, with the fields as they were when it happened. Unwinding, and the collection being dropped afterwards, are not modelled.
- The methods the standard library derives from `Iterator::next` are not modelled. The test's `for` loop is `DrainCached`.

## Findings

| source | as written | input that shows it | evidently intended | confidence | as-written member | corrected member |
|---|---|---|---|---|---|---|
| src/mecha_collection.rs:23 | `next` refills only when `index > mecha_list.len()` | A fresh collection over a backend holding records: the cursor (0) equals the cache length (0), so the first `next` returns None without loading, and iteration yields nothing | refill when `index >= mecha_list.len()`, so that iteration yields every record | not executed | RefillTest.StrictRefillNeverLoadsWhenFresh | RefillTest.AtEndRefillDrainsInOrder |
| src/mecha_collection.rs:23 | `next` refills only when `index > mecha_list.len()` | After `load_mecha_from_backend(0)` over 9 records: at cursor 5 `next` returns None, and at cursor 6 it loads from 6, so position 5 is never fetched and the cache's entry 5 is position 6 | refill when `index >= mecha_list.len()`, so that each position is fetched once and yielded in order | not executed | RefillTest.StrictRefillSkipsPosition | RefillTest.AtEndRefillDrainsInOrder |

`NextStep` takes the refill test as a parameter: `PastEnd` is the code as written, and `AtEnd` is the corrected test. The class `CachedMechaCollection` keeps the code as written. The corrected behaviour is proved on `NextStep` with `AtEnd`, through `Run`, `DrainStep`, `DrainFrom` and `AtEndRefillDrainsInOrder`.

# strategy-rs, modelled in Dafny

strategy-rs is a pull-based indicator engine for backtesting trading
strategies. An indicator is queried at an index (a time bar, a
transaction id or a ticket id) and answers with a three-state result:

- not fixed yet (`NotFixed`);
- permanently out of range (`OutOfRange`);
- a value (`InRange(v)`).

On top of the engine the repository builds:

- a transaction history;
- single-ticket position tracking;
- trade and profit/loss indicators;
- a simple SMA-cross strategy that emits order fills;
- the "busena" zone strategy (zones, status, signal).

This project models that core in Dafny and proves properties of the model.

## How the model is organised

- **Results** (`results.dfy`): the three-state result `Res<V>`. `Option`. `Checked<T>` (`Ok(value)` or `Panic`) for the panics that data can reach. Two combinators: `MapRes`, and `ZipRes`, where the first non-value wins.
- **Sources**: an indicator that reads another indicator is given that source at every call, as a total function `int -> Res<V>` (or `int -> Option<V>` for the older `Option`-based indicators). Passing it per call models a source shared through `Rc<RefCell<..>>` that can grow between two calls.
- **Indices and values**: indices and timestamps are `int`. Prices and other `f64` values are `real`.
- **Pure code becomes functions; state becomes classes.** Indicators whose `value` is a pure expression are functions. An indicator that holds state the source updates in place (a cache, a storage, a cursor, a status, a strategy) is a class with those fields, `modifies` clauses and `reads` clauses. A loop in the source is a method with a loop and invariants, proved against a specification function.
- **Backward scans**: some loops walk back through a source until it stops yielding values (cross, count, trailing stop). In the source they end only because every source is out of range below its offset. They carry a `lo` index below which the source is a non-value.

| file | module | source |
|---|---|---|
| results.dfy | Results | result lattice used by every indicator |
| time.dfy | TimeGranularity | src/time.rs, src/granularity.rs |
| seq_range.dfy | SeqRange | src/seq.rs |
| vec_indicator.dfy | VecIndicator | src/indicator/vec.rs, src/indicator.rs |
| storage.dfy | StorageIndicator | src/indicator/storage.rs |
| lru_cache.dfy | LruCache | src/library/lru_cache.rs |
| cached.dfy | CachedIndicator | src/indicator/cached.rs |
| complement.dfy | Complement | src/indicator/complement.rs |
| stream.dfy | Stream | src/indicator/stream.rs |
| convert_seq.dfy | ConvertSeq | src/indicator/convert_seq.rs |
| sma.dfy | Sma | src/indicator/sma.rs |
| rolling.dfy | Rolling | src/indicator/rolling.rs |
| ema.dfy | Ema | src/indicator/ema.rs |
| slope.dfy | Slope | src/indicator/slope.rs |
| ordering.dfy | Ordering | src/indicator/ordering.rs |
| cross.dfy | Cross | src/indicator/cross.rs |
| count.dfy | Count | src/indicator/count.rs |
| func.dfy | Func | src/indicator/func.rs |
| envelope.dfy | Envelope | src/indicator/envelope.rs |
| convert_granularity.dfy | ConvertGranularity | src/indicator/convert_granularity.rs |
| position.dfy | Position | src/position.rs |
| trailing_stop.dfy | TrailingStop | src/indicator/trailing_stop.rs |
| zone.dfy | Zone | src/strategy/busena/zone.rs |
| status.dfy | Status | src/strategy/busena/status.rs |
| busena_signal.dfy | ZoneSignal | src/strategy/busena/signal.rs |
| transaction.dfy | Transaction | src/transaction.rs |
| ticket.dfy | Ticket | src/ticket.rs |
| trade.dfy | Trade | src/indicator/trade.rs |
| balance.dfy | Balance | src/indicator/balance.rs |
| simple_strategy.dfy | SimpleStrategy | src/strategy/simple.rs, src/signal.rs |

### Behaviour worth noting

- **Slope**: the value at the queried index is read first, so its non-value is handed on before the one at the index before.
- **Zip, function combinators, zone**: when both sources lack a value, the first source's non-value is the answer.
- **Cross**: the scan walks back past `Equal` orderings to the last decisive one. When the source runs out it answers `NotCrossed`, not a non-value.
- **EMA**: not a running estimate. It is a recursion of fixed depth down to a seed indicator, short-cut by an LRU cache. As a result, the answer at an index depends on which indices were read before (`Ema.UncachedReadDiffers`).
- **Zone**: the zone is the index of the first band line the price does not cross. When both sides match, the code panics.
- **SMA**: `Option`-based. A window that reaches before the data gives `None`.
- **Gap-fill** (`ComplementWithLastValue`): searches back at most `max_loop` bars for the last present value, through its cache.

## Model

| member | source | states |
|---|---|---|
| TimeGranularity.RustRem | src/time.rs:47-50 | `%` on `i64` truncates: the remainder has the dividend's sign, a smaller magnitude than the divisor, and differs from the dividend by a multiple of the divisor, which fixes its value |
| TimeGranularity.ValidS5Iff | src/time.rs:22-25 | an S5 bar is valid exactly when its second-of-minute is a multiple of 5, i.e. the timestamp is a multiple of 5 |
| TimeGranularity.ValidS10Iff | src/time.rs:26-29 | an S10 bar is valid exactly when the timestamp is a multiple of 10 |
| TimeGranularity.ValidD1Iff | src/time.rs:30-33 | a D1 bar (hour, minute and second all 0) is valid exactly when the timestamp is a multiple of 86400 |
| TimeGranularity.ValidVarIff | src/time.rs:43-50 | a variable granularity of `d` seconds accepts exactly the multiples of abs(d) |
| TimeGranularity.ValidIffDivides | src/time.rs:11-17 | for every granularity, validity is divisibility by its unit duration |
| TimeGranularity.CoarserIsFiner | src/granularity.rs:25-36 | every D1 bar is an S10 bar, and every S10 bar is an S5 bar |
| TimeGranularity.NewTime | src/time.rs:68-71 | `Time::new` demands a valid timestamp and keeps timestamp and granularity |
| TimeGranularity.AddSteps | src/time.rs:91-96 | adding n steps moves the timestamp by n unit durations and stays valid |
| TimeGranularity.SubSteps | src/time.rs:99-104 | subtracting n steps moves the timestamp back by n unit durations and stays valid |
| TimeGranularity.AddThenSub | src/time.rs:91-104 | subtracting n steps undoes adding n steps |
| TimeGranularity.TryInto | src/time.rs:81-87 | a conversion succeeds exactly when the timestamp is valid in the target granularity, and keeps the timestamp |
| TimeGranularity.TimeExamples | src/time.rs:127-200 | the time tests: valid/invalid S5, D1 and variable bars, `+1`/`+2` steps, conversion to D1 accepted and refused |
| SeqRange.SeqRangeTo.constructor | src/seq.rs:14-22 | `range_to_end` starts at the current index with the given end |
| SeqRange.SeqRangeTo.Next | src/seq.rs:35-43 | yields the next index while it is below the end, else `None` with the cursor unchanged |
| SeqRange.Collect | src/seq.rs:14-43 | the range yields start+1 .. end-1 in order and never the start itself |
| VecIndicator.VecValue | src/indicator/vec.rs:7-18 | a vector answers `Some(xs[i])` exactly for 0 <= i < len, otherwise `None` |
| VecIndicator.VecValueStable | src/indicator/vec.rs:7-18 | appending to a vector never changes an answer that was already `Some` |
| VecIndicator.VecExample | src/indicator/vec.rs:65-72 | the vector test: [1..5] read at 0..4, and `None` outside |
| StorageIndicator.Storage.constructor | src/indicator/storage.rs:17-24 | a new storage begins and ends at its offset and holds nothing |
| StorageIndicator.Storage.FromVec | src/indicator/storage.rs:38-53 | a storage built from a vector holds every element at offset + position and nothing else |
| StorageIndicator.Storage.Value | src/indicator/storage.rs:70-82 | out of range exactly below the begin; not fixed exactly at or past the end; otherwise the stored value or an explicit gap |
| StorageIndicator.Storage.Add | src/indicator/storage.rs:32-36 | adding at i (not before the end) stores v, makes the skipped indices gaps, leaves earlier answers unchanged and later ones not fixed |
| StorageIndicator.FromVecExample | src/indicator/storage.rs:158-175 | the from-vec test reads back [1..5] |
| StorageIndicator.AddExample | src/indicator/storage.rs:177-217 | the add tests: values, a gap at 2, not fixed at 4; re-adding at 1 or 3 is refused |
| LruCache.LRUCache.constructor | src/library/lru_cache.rs:11-16 | a new cache is empty with the given capacity |
| LruCache.LRUCache.Get | src/library/lru_cache.rs:18-24 | a hit returns the stored value and makes the key most recent; a miss changes nothing |
| LruCache.LRUCache.Insert | src/library/lru_cache.rs:26-31 | inserting stores the value and makes the key most recent; a new key into a full cache evicts the least recent |
| LruCache.InsertKeepsKey | src/library/lru_cache.rs:26-31 | with capacity above 0, the inserted key is always in the cache afterwards |
| LruCache.InsertEvictsLeastRecent | src/library/lru_cache.rs:26-31 | an eviction happens exactly when a new key meets a full cache, and it removes the least recent key |
| LruCache.GetLeastRecent | src/library/lru_cache.rs:18-24 | reading the least recent key moves it to the most recent end |
| LruCache.InsertIntoFull | src/library/lru_cache.rs:26-31 | a new key into a full cache drops the least recent entry and appends the key |
| LruCache.LruExample | src/library/lru_cache.rs:38-68 | the LRU test: capacity 3, inserts 1..5 with a refresh of 2, then the reads expected by the test |
| CachedIndicator.VecCache.constructor | src/indicator/cached.rs:48-53 | a new vector cache answers `None` everywhere |
| CachedIndicator.VecCache.Get | src/indicator/cached.rs:62-78 | non-negative indices read the forward vector and negative ones the backward vector; beyond either, `None` |
| CachedIndicator.VecCache.Set | src/indicator/cached.rs:80-100 | after a set, the index reads back the value and every other index is unchanged |
| CachedIndicator.Cached.constructor | src/indicator/cached.rs:14-19 | a new cached indicator has an empty cache |
| CachedIndicator.Cached.Value | src/indicator/cached.rs:27-36 | a cached `Some` is returned without reading the source; otherwise the source is read and stored; an agreeing cache stays agreeing and the answer is the source's |
| CachedIndicator.Cached.AgreesAsSourceGrows | src/indicator/cached.rs:27-36 | a cache that agrees with a source still agrees once the source gains values (its old `Some`s kept) |
| CachedIndicator.CachedVecExample | src/indicator/cached.rs:27-36 | a `None` read is not kept, so a value appended later is seen; a value read once is served from the cache even when the source answers otherwise |
| Complement.SearchFindsSourceOrCache | src/indicator/complement.rs:84-107 | the back-search answer is a source value or a cached value at an index in the searched window, or `None` |
| Complement.SearchBelowStart | src/indicator/complement.rs:90-94 | with no values in the window, the search gives `None` |
| Complement.ChainStep | src/indicator/complement.rs:84-107 | with a faithful cache at the previous bar, the bounded search equals the last present value of the source |
| Complement.ComplementWithLastValue.constructor | src/indicator/complement.rs:28-40 | a new gap-filler has an empty cache of the given capacity and the given loop bound |
| Complement.ComplementWithLastValue.GetFromCache | src/indicator/complement.rs:62-74 | a cache hit is returned, the cache keeps its entries and the key becomes the most recent; otherwise a source value is returned and stored at its bar (when the capacity is above 0); a source `None` is a miss that changes nothing; every other entry that stays keeps its value |
| Complement.SearchAtStopBar | src/indicator/complement.rs:86-93 | the back-search's answer is what it finds at its stopping bar (the first bar within `max_loop` that is cached or has a source value): the cached answer there, otherwise the source's value; nothing when there is no such bar |
| Complement.ComplementWithLastValue.SearchBack | src/indicator/complement.rs:86-93 | the loop stops with the back-search's answer over the cache before the read, or with nothing when no bar within `max_loop` answers, and then the cache is unchanged; it stops exactly at the stopping bar; the new key order is the old one with that bar read (refreshed when cached, inserted when taken from the source) or the old one when nothing answered; the only entry it can add is the source value at the stopping bar |
| Complement.ComplementWithLastValue.Value | src/indicator/complement.rs:84-107 | the answer is the back-search over at most `max_loop` bars against the cache before the read; it is cached at the queried time; the new key order is the search's order with the queried time inserted as the most recent key, which fixes which old entries an eviction drops; every other entry either was there and keeps its value, or is new, at a bar within `max_loop` below the time, and holds the source's value there |
| Complement.ReadNextBar | src/indicator/complement.rs:84-107 | with the previous bar's answer cached and nothing cached from the queried bar on, a read answers the last present source value up to the bar and caches it there |
| Complement.ReadBarsInOrder | src/indicator/complement.rs:84-107 | bars read in increasing order each answer the last present source value at or before them |
| Complement.ComplementExample | src/indicator/complement.rs:168-192 | the gap-fill test: None x3, 1, 2, 2, 3, 3, 3, 3 |
| Complement.ComplementCacheExample | src/indicator/complement.rs:193-209 | the cache test: the last value is carried through the cache beyond `max_loop` |
| Stream.MapValue | src/indicator/stream.rs:40-42 | a map has a value exactly where its source does, the function applied; non-values pass through |
| Stream.MapFuses | src/indicator/stream.rs:40-42 | mapping twice equals mapping once by the composition |
| Stream.ZipValue | src/indicator/stream.rs:137-141 | a zip is a pair exactly where both sources have values; the first source's non-value wins |
| Stream.ZipProjects | src/indicator/stream.rs:137-141 | projecting a zip's value on either side gives back that source |
| Stream.ZipExample | src/indicator/stream.rs:434-446 | the zip test: [1..5] x abs([0,-1,0,1,0]) = [0,2,0,4,0] |
| Stream.FuncIter.constructor | src/indicator/stream.rs:193-198 | an iterator over a function indicator starts at the given offset |
| Stream.FuncIter.Next | src/indicator/stream.rs:227-231 | `next` reads the source at the offset and moves on by one only on a value |
| Stream.MapIter.Next | src/indicator/stream.rs:50-52 | a mapped stream yields the mapped next value; a non-value leaves the offset alone |
| Stream.MapIter.Offset | src/indicator/stream.rs:54-56 | the map's offset is its source's |
| Stream.RunIsMaximal | src/indicator/stream.rs:182-184 | the values a stream yields until it stops are the source's consecutive values, and the source has none at the stopping index |
| Stream.CollectAll | src/indicator/stream.rs:182-184 | `into_std().collect()` returns that run and leaves the offset just past it |
| Stream.IterExample | src/indicator/stream.rs:448-462 | the iterator test: the running sums 1, 3, 6, 10, 15 |
| Stream.ZipIter.Next | src/indicator/stream.rs:149-154 | as written: the first stream moves on whenever it has a value, even when the second has none |
| Stream.ZipIter.Offset | src/indicator/stream.rs:156-158 | the zip's offset is its first stream's |
| Stream.ZipLosesValue | src/indicator/stream.rs:149-154 | as written, a pull where only the first stream has a value loses that value: 20 is paired with 1 instead of 10 |
| Stream.HoldingZipIter.Next | src/indicator/stream.rs:149-154 | corrected: the first value is held until the second stream yields, so both streams stay in step |
| Stream.HoldingZipIter.Offset | src/indicator/stream.rs:156-158 | corrected: the offset is the index of the next pair, one behind the first stream while a value is held and equal to it otherwise |
| Stream.HoldingZipKeepsValue | src/indicator/stream.rs:149-154 | corrected: the same pulls pair 10 with 1 |
| Stream.IterVec.constructor | src/indicator/stream.rs:250-255 | the materialised vector starts empty at the stream's offset |
| Stream.IterVec.UpdateTo | src/indicator/stream.rs:257-266 | pulls and appends until past the index or at a non-value; every appended value is the source's at its index |
| Stream.IterVec.Value | src/indicator/stream.rs:284-287 | updates then reads the vector; while the vector agrees with the source, any value returned is the source's |
| Stream.ViaIterExample | src/indicator/stream.rs:464-483 | the via-iterator test: 15, out of range, 10, with exactly five pulls |
| Stream.IterStorage.constructor | src/indicator/stream.rs:302-307 | the storage starts empty at the stream's offset |
| Stream.IterStorage.Value | src/indicator/stream.rs:345-347 | out of range below the start, not fixed from the stream's offset on, otherwise the stored value |
| Stream.IterStorage.Next | src/indicator/stream.rs:357-362 | a pulled value is stored at the index it came from; a non-value changes nothing |
| Stream.IterStorage.UpdateTo | src/indicator/stream.rs:318-322 | corrected: pulls until past the index or at a non-value, storing the source's values |
| Stream.UpdateToAsWrittenNeverExits | src/indicator/stream.rs:318-322 | as written, once the stream meets a non-value at or before the index, no number of rounds ends the loop |
| Stream.UpdateToAsWrittenHangs | src/indicator/stream.rs:318-322 | the concrete case: five values, then a query at index 5 never returns |
| Stream.IterConsumerStorage.constructor | src/indicator/stream.rs:382-386 | wraps the given storage |
| Stream.IterConsumerStorage.Value | src/indicator/stream.rs:405-408 | corrected: brings the storage up to the index with the corrected `update_to` (which stops at the first non-value), then reads it; answers agree with the source |
| Stream.IterConsumerStorage.Next | src/indicator/stream.rs:418-420 | `next` is the storage's `next` |
| ConvertSeq.Internal.constructor | src/indicator/convert_seq.rs:60-66 | wraps the lent source stream |
| ConvertSeq.Internal.Next | src/indicator/convert_seq.rs:75-77 | pulls straight through to the source stream |
| ConvertSeq.Internal.Offset | src/indicator/convert_seq.rs:79-81 | the source stream's offset |
| ConvertSeq.Pulled | src/indicator/convert_seq.rs:42-46 | the values a consumer pulls are the source's consecutive values from the stream's offset |
| ConvertSeq.ConsumedFacts | src/indicator/convert_seq.rs:42-46 | a draining consumer always yields and leaves the stream at its first non-value; a mapping consumer yields exactly when it pulled |
| ConvertSeq.Consume.constructor | src/indicator/convert_seq.rs:20-29 | keeps offset, source and consumer |
| ConvertSeq.Consume.Next | src/indicator/convert_seq.rs:42-46 | the output offset moves on by one on every call; the consumer's result is returned; the source moves by what was pulled |
| ConvertSeq.Consume.Offset | src/indicator/convert_seq.rs:48-50 | the output offset |
| ConvertSeq.CollectTakeOne | src/indicator/convert_seq.rs:92-105 | collecting a mapping consumer gives every value of the source's run, mapped, in order; the output offset moves on once per value and once more for the pull that meets the end |
| ConvertSeq.MapExample | src/indicator/convert_seq.rs:92-105 | the map test: [2, 4, 6, 8, 10] |
| ConvertSeq.FoldExample | src/indicator/convert_seq.rs:107-125 | the fold test over a growing source: 6, 4, 7, 0, and the output offset is 4 |
| Sma.WindowSumSomeIff | src/indicator/sma.rs:22-30 | a window sums to a value exactly when every index in it has one |
| Sma.SmaValue | src/indicator/sma.rs:22-30 | the loop computes the window's sum divided by the period; `Some` exactly when the whole window has values |
| Sma.SmaExample | src/indicator/sma.rs:81-91 | the SMA test: None, None, 2, 3, 4 |
| Rolling.WindowSumFirstNonValue | src/indicator/rolling.rs:36-45 | a window sums to a value exactly when every index has one; otherwise the sum is the lowest index's non-value |
| Rolling.Sum | src/indicator/rolling.rs:36-45 | the loop computes the window sum and stops at the first non-value |
| Rolling.Mean | src/indicator/rolling.rs:47-50 | the mean is the window sum divided by the size |
| Rolling.RollingValue | src/indicator/rolling.rs:91-94 | the window ends at the queried index; a value exactly when every index in it has one |
| Rolling.RollingSumExample | src/indicator/rolling.rs:103-119 | the rolling-sum test: out of range twice, then 6, 9, 12 |
| Ema.CalcAlpha | src/indicator/ema.rs:35-37 | alpha is in (0, 2] and alpha times (n + 1) is 2 |
| Ema.ConstantSourceGivesConstant | src/indicator/ema.rs:152-206 | a constant source, seed and cache give that constant or a non-value |
| Ema.EmptyCacheBelowSeed | src/indicator/ema.rs:60-77 | with nothing cached, a recursion that reaches a seed index out of range is out of range |
| Ema.Ema.constructor | src/indicator/ema.rs:21-33 | alpha from n, the given depth, an empty cache of the given capacity |
| Ema.Ema.ValueRecursive | src/indicator/ema.rs:60-77 | answers the fixed-depth recursion against the cache at the call; caches the fresh value; every newly cached entry is that recursion's value there and old entries that stay keep theirs; the cache gains at most one key per level, drops no old key while it has room for that many, and the queried index, when cached, is the most recent key |
| Ema.Ema.ComputeMissing | src/indicator/ema.rs:68-75 | the miss branch: one step from the answer one index back, cached at the index when it is a value, with the same cache guarantees |
| Ema.Ema.Value | src/indicator/ema.rs:97-99 | the recursion at full depth, with the same caching guarantees |
| Ema.EmaExample | src/indicator/ema.rs:208-233 | the EMA test: out of range four times, then 1, 2, 2.5, 2.75, 2.875, 2.9375 |
| Ema.UncachedReadDiffers | src/indicator/ema.rs:60-77 | read first with an empty cache, index 9 gives 3, not the 2.9375 of the in-order reads |
| Slope.SlopeValue | src/indicator/slope.rs:40-44 | a value exactly when both the index and the one before have values; the previous value plus the slope is the current value |
| Slope.SlopesTelescope | src/indicator/slope.rs:40-44 | the slopes over a run sum to the last value minus the first |
| Slope.SlopeExample | src/indicator/slope.rs:92-103 | the slope test over [1, 2, 4, 8, 6] |
| Ordering.Compare | src/indicator/ordering.rs:38-43 | less, equal or greater exactly as the two reals compare |
| Ordering.OrderingValue | src/indicator/ordering.rs:38-43 | a comparison exactly when both sources have values; each ordering exactly when the values compare so |
| Ordering.SwapReverses | src/indicator/ordering.rs:38-43 | swapping the sources reverses the ordering |
| Cross.PastDecisiveFinds | src/indicator/cross.rs:53-63 | the back-scan from i finds a decisive ordering p exactly when some index j <= i holds p and every index after j up to i holds `Equal` |
| Cross.CrossLtToGtIff | src/indicator/cross.rs:46-66 | `LtToGt` exactly when the current ordering is `Greater` and the last decisive one before it is `Less` |
| Cross.CrossGtToLtIff | src/indicator/cross.rs:46-66 | `GtToLt` exactly when the current ordering is `Less` and the last decisive one before it is `Greater` |
| Cross.CrossValue | src/indicator/cross.rs:46-66 | the loop computes the cross state defined by the back-scan |
| Cross.CrossExample | src/indicator/cross.rs:154-173 | the cross test: [0, 0, 2, 2, 0, 1, 1, 2, 1, 0] against a constant 1 gives NotCrossed, NotCrossed, LtToGt, NotCrossed, GtToLt, NotCrossed, NotCrossed, LtToGt, NotCrossed, GtToLt |
| Count.CountValue | src/indicator/count.rs:59-72 | out of range exactly where the source is; never not fixed; a count is at least 1 |
| Count.CountIsRunLength | src/indicator/count.rs:59-72 | the count is n exactly when the last n values up to the index are equal and the one before differs or is missing |
| Count.CountExample | src/indicator/count.rs:94-110 | the count test: 1, 2, 3, 1, 1, 2 |
| Func.Func2Value | src/indicator/func.rs:34-39 | `Some` exactly when both sources have values, with the function applied |
| Func.Lift | src/indicator/func.rs:34-39 | an `Option` read as a result: a value exactly for `Some`, never not fixed |
| Func.Func2IsMapOfZip | src/indicator/func.rs:34-39 | a two-source function is a map of the zip |
| Func.Func2Swap | src/indicator/func.rs:34-39 | swapping the sources and the arguments gives the same indicator |
| Func.Func2Example | src/indicator/func.rs:50-62 | the func2 test over two vectors |
| Envelope.NewEnvelope | src/indicator/envelope.rs:14-19 | the deviation is 1 + percent/100 |
| Envelope.EnvelopeValue | src/indicator/envelope.rs:35-37 | the source's value times the deviation; non-values pass through |
| Envelope.EnvelopeIsMap | src/indicator/envelope.rs:35-37 | the envelope is the map by multiplication with the deviation |
| Envelope.ZeroPercentIsIdentity | src/indicator/envelope.rs:14-19 | a 0% envelope is the source itself |
| Envelope.EnvelopeUndoes | src/indicator/envelope.rs:35-37 | dividing by the deviation gives the source back, for every percent other than -100 |
| Envelope.EnvelopeIter.constructor | src/indicator/envelope.rs:14-19 | the stream form of the envelope keeps its source and deviation |
| Envelope.EnvelopeIter.Next | src/indicator/envelope.rs:45-47 | the next value is the envelope's value at the source's offset; the offset moves only on a value |
| Envelope.EnvelopeIter.Offset | src/indicator/envelope.rs:50-52 | the source's offset |
| ConvertGranularity.ConvertValue | src/indicator/convert_granularity.rs:32-37 | at a bar of the source granularity, the source's result wrapped in `Some`; between bars, `InRange(None)` |
| ConvertGranularity.NoneExactlyOffBars | src/indicator/convert_granularity.rs:32-37 | `InRange(None)` exactly off the source's bars |
| ConvertGranularity.FineToCoarseHasEveryBar | src/indicator/convert_granularity.rs:32-37 | read from an S5 source, every S5 time gives the source's result |
| ConvertGranularity.S5ToS10Example | src/indicator/convert_granularity.rs:71-83 | the S5-to-S10 test: 1, 3, 5 |
| ConvertGranularity.S10ToS5Example | src/indicator/convert_granularity.rs:85-107 | the S10-to-S5 test: values on the S10 bars, `None` between |
| TrailingStop.RunStart | src/indicator/trailing_stop.rs:38-44 | the back-scan from the index before stops at the first index of the run holding the current position; the index before that run holds another position or none |
| TrailingStop.PricesInHas | src/indicator/trailing_stop.rs:45-47 | the collected prices are exactly the present prices at the scanned indices |
| TrailingStop.MaxOf | src/indicator/trailing_stop.rs:52 | the fold gives the greatest price, or none for no prices |
| TrailingStop.MinOf | src/indicator/trailing_stop.rs:60 | the fold gives the least price, or none for no prices |
| TrailingStop.DecideStops | src/indicator/trailing_stop.rs:49-67 | a long stops exactly when some collected price exceeds the current price by more than the level; a short, mirrored; no position continues |
| TrailingStop.TrailingStopValue | src/indicator/trailing_stop.rs:32-69 | the loop computes the as-written trailing stop |
| TrailingStop.InRangePrices | src/indicator/trailing_stop.rs:45-47 | a price is collected exactly when it is present at an index strictly between the run start and the end |
| TrailingStop.LongStopIff | src/indicator/trailing_stop.rs:32-69 | as written, a long stops exactly when some price strictly after the run's first index, up to now, exceeds the current price by more than the level |
| TrailingStop.ShortStopIff | src/indicator/trailing_stop.rs:32-69 | as written, a short stops exactly when some such price is below the current price by more than the level |
| TrailingStop.NothingContinues | src/indicator/trailing_stop.rs:32-69 | no position always continues |
| TrailingStop.RunStartPriceSkipped | src/indicator/trailing_stop.rs:45-46 | as written, [Long, Long] at [10, 5] with level 4 continues, because the run's first price is skipped |
| TrailingStop.IntendedLongStopIff | src/indicator/trailing_stop.rs:45-46 | corrected: a long stops exactly when some price of the run, its first index included, exceeds the current price by more than the level |
| TrailingStop.TrailingStopExample | src/indicator/trailing_stop.rs:88-103 | the trailing-stop test: Continue, Continue, Stop, Continue, Stop |
| Zone.PositiveFrom | src/strategy/busena/zone.rs:35-45 | a zone found on the positive side lies between the first line scanned and the number of lines |
| Zone.NegativeFrom | src/strategy/busena/zone.rs:50-60 | a zone found on the negative side lies between minus the number of lines and minus the first line scanned |
| Zone.PositiveFromIff | src/strategy/busena/zone.rs:33-46 | the positive zone is z exactly when the price is above lines 0..z-1 and not above line z (or z is the last), and z is at least 1 |
| Zone.NegativeFromIff | src/strategy/busena/zone.rs:48-61 | the mirror for the negative lines |
| Zone.CheckPositive | src/strategy/busena/zone.rs:33-46 | the loop computes the positive-side check; the price's non-value first, then the first line's |
| Zone.CheckNegative | src/strategy/busena/zone.rs:48-61 | the loop computes the negative-side check |
| Zone.ZoneValue | src/strategy/busena/zone.rs:80-89 | panics when both sides give a zone; otherwise one side's zone or 0; the zone lies within minus the negative lines and plus the positive lines |
| Zone.OrderedBandsNeverPanic | src/strategy/busena/zone.rs:80-89 | when the first negative line lies at or below the first positive line, the zone never panics |
| Zone.ZoneExample | src/strategy/busena/zone.rs:159-180 | the zone test: 0, 1, -1, 2, -2 |
| Zone.UpDownValue | src/strategy/busena/zone.rs:100-116 | up/down is defined exactly when the index and the one before have values |
| Zone.UpDownIsSlopeSign | src/strategy/busena/zone.rs:100-116 | up, down or equal exactly as the slope is positive, negative or zero |
| Zone.UpDownExample | src/strategy/busena/zone.rs:182-208 | the up/down test sequence |
| Status.ReconstructedMatchesTests | src/strategy/busena/status.rs:64-208 | the sign-aware zone relations satisfy every status test |
| Status.Threshold | src/strategy/busena/status.rs:41-53 | the entry needs 2 ticks beyond zone 2 (on either side), otherwise 1 |
| Status.ZeroResets | src/strategy/busena/status.rs:27-30 | zone 0 resets to (0, not entered) |
| Status.OuterMoves | src/strategy/busena/status.rs:31-34 | an outer zone becomes the outermost, not entered |
| Status.InnerKeeps | src/strategy/busena/status.rs:26-56 | any other zone, not the outermost, leaves the state unchanged |
| Status.EntryIff | src/strategy/busena/status.rs:35-55 | in the outermost zone the zone stays, and the state is entered afterwards exactly when it was, or the move is inverse with at least the threshold count |
| Status.EnteredStays | src/strategy/busena/status.rs:26-56 | an entered state leaves the entered flag only on zone 0 or an outer zone |
| Status.OutermostOnlyMovesOut | src/strategy/busena/status.rs:26-56 | the outermost zone changes only to 0 or to an outer zone |
| Status.SignedOutermostGrows | src/strategy/busena/status.rs:26-56 | with the sign-aware relations, the outermost zone's magnitude never drops except to 0 |
| Status.Status.constructor | src/strategy/busena/status.rs:11-16 | a new status is zone 0, not entered |
| Status.Status.Update | src/strategy/busena/status.rs:26-56 | the new state is the update of the old one |
| Status.StatusExamples | src/strategy/busena/status.rs:64-208 | the ten status tests, for any relations that meet them |
| ZoneSignal.LotByZone | src/strategy/busena/signal.rs:19-29 | a lot exactly for zones of magnitude 1..5, ten times the magnitude |
| ZoneSignal.PipsRangeByZone | src/strategy/busena/signal.rs:31-41 | a pips range exactly for magnitudes 1..5, one more than the magnitude |
| ZoneSignal.TablesSymmetric | src/strategy/busena/signal.rs:19-41 | both tables are symmetric in the sign of the zone |
| ZoneSignal.SignalValue | src/strategy/busena/signal.rs:59-80 | a signal exactly when both states have values; the previous state's non-value first |
| ZoneSignal.SellIff | src/strategy/busena/signal.rs:59-80 | `Sell(lot)` exactly on a fresh entry in a zone 1..5 with lot = 10 x zone |
| ZoneSignal.BuyIff | src/strategy/busena/signal.rs:59-80 | `Buy(lot)` exactly on a fresh entry in a zone -5..-1 with lot = -10 x zone |
| ZoneSignal.NoFlipNothing | src/strategy/busena/signal.rs:64-78 | without a not-entered-to-entered flip, `Nothing` |
| ZoneSignal.SignalExample | src/strategy/busena/signal.rs:59-80 | a sequence of states and the signals it gives |
| Transaction.SearchFrom | src/transaction.rs:119-130 | the search stops at the first entry not before the key; found exactly when that entry has the key |
| Transaction.SearchSplits | src/transaction.rs:119-130 | the search index splits the history into entries before the key and entries at or after it |
| Transaction.GetByIdAsWritten | src/transaction.rs:104-117 | as written, panics exactly when the history is not empty and the id is below the first id |
| Transaction.GetByIdAgrees | src/transaction.rs:104-117 | as written and corrected agree whenever the id is not below the first id |
| Transaction.GetByIdFinds | src/transaction.rs:104-117 | corrected, with consecutive ids: `Some` exactly when an entry has the id, and it is that entry |
| Transaction.IdBelowFirstPanics | src/transaction.rs:111-113 | as written, ids [10, 11] queried at 5 panic; corrected gives `None` |
| Transaction.GetByTimeRangeIff | src/transaction.rs:119-142 | corrected: `Some` exactly when some entry lies in [start, end), and it is exactly those entries |
| Transaction.AsWrittenDropsLast | src/transaction.rs:127-130 | as written, when the end time is not found, the last entry before it is dropped |
| Transaction.AsWrittenAgreesWhenFound | src/transaction.rs:119-142 | as written and corrected agree when the end time is present |
| Transaction.TimeRangeCounterexamples | src/transaction.rs:127-130 | times [0, 10], range [0, 15): as written [0], corrected [0, 10]; a range before every entry panics as written |
| Transaction.TransactionHistories.constructor | src/transaction.rs:84-88 | a new history is empty |
| Transaction.TransactionHistories.Push | src/transaction.rs:90-93 | push appends, and the latest time is the pushed one's |
| Transaction.TransactionHistories.LatestTime | src/transaction.rs:95-102 | `None` exactly for an empty history, otherwise the last entry's time |
| Transaction.TransactionHistories.GetById | src/transaction.rs:104-117 | the history's lookup is the as-written id lookup |
| Transaction.TransactionHistories.GetByTimeRange | src/transaction.rs:119-142 | the history's range query is the as-written range query |
| Transaction.PushKeepsOrder | src/transaction.rs:90-93 | pushing the next id at a later time keeps ids consecutive and times increasing |
| Ticket.Add | src/ticket.rs:11-16 | adding n moves a ticket id by n |
| Ticket.Sub | src/ticket.rs:18-23 | subtracting n moves it back by n |
| Ticket.DistanceFrom | src/ticket.rs:25-29 | the distance from an offset is what must be added to the offset to reach the id |
| Ticket.AddSubRoundTrip | src/ticket.rs:11-29 | add and sub undo each other; the distance recovers n |
| Ticket.Apply | src/ticket.rs:62-80 | an open replaces the ticket; a close empties it; other transactions leave it; panics exactly on an open over a held ticket or a close of no ticket or of another ticket |
| Ticket.AsPositionOf | src/ticket.rs:86-94 | no ticket is `Nothing`; otherwise the ticket's side |
| Ticket.OpenThenCloseEmpties | src/ticket.rs:62-94 | opening then closing the same ticket returns to no ticket, with the side as position in between |
| Ticket.SingleSimpleTicket.constructor | src/ticket.rs:56-59 | no ticket held |
| Ticket.SingleSimpleTicket.ApplyTransaction | src/ticket.rs:62-80 | reports a panic exactly when `Apply` does, and otherwise holds `Apply`'s result |
| Ticket.SingleSimpleTicket.Ticket | src/ticket.rs:82-84 | the held ticket |
| Ticket.SingleSimpleTicket.AsPosition | src/ticket.rs:86-94 | the position of the held ticket |
| Ticket.TicketExample | src/ticket.rs:156-214 | the ticket tests: the held tickets and the positions after each transaction |
| Trade.TradeValue | src/indicator/trade.rs:46-63 | non-close transactions give `None`; a close pairs with its open; panics exactly when the close's open id names a non-open |
| Trade.TradeIff | src/indicator/trade.rs:46-63 | a trade exactly when the index is a close whose open id names an open, built from both |
| Trade.TradeExample | src/indicator/trade.rs:100-173 | the trade test: None, None, a long trade, a short trade |
| Balance.ProfitLossValue | src/indicator/balance.rs:28-40 | a value exactly where the trade indicator has one; 0 for no trade, else the trade's gain |
| Balance.GainSides | src/indicator/balance.rs:32-37 | a long gains close minus open, a short open minus close, per unit; the two sides are opposite |
| Balance.RunningBalance | src/indicator/balance.rs:80-101 | each balance is the total of the profits up to it |
| Balance.ProfitLossExample | src/indicator/balance.rs:53-102 | the profit/loss test: 0, 0, 26.6, 30 and balances 0, 0, 26.6, 56.6 |
| SimpleStrategy.SignalTableIff | src/strategy/simple.rs:113-123 | open long exactly on `LtToGt` with no position; open short on `GtToLt` with none; flips against a held opposite side; otherwise nothing |
| SimpleStrategy.OpenFill | src/strategy/simple.rs:211-229 | an open fill carries the transaction id and a ticket with the new ticket id |
| SimpleStrategy.CloseFill | src/strategy/simple.rs:249-265 | a close fill names the held ticket, and its open id is the previous transaction id |
| SimpleStrategy.Opens | src/strategy/simple.rs:211-350 | the number of open fills is at most the number of fills |
| SimpleStrategy.EmittedShape | src/strategy/simple.rs:211-350 | at most two fills, numbered on from the next transaction id; a close comes first, names the held ticket and has open id = its id - 1; at most one open, with the next ticket id, 100 units, at the tick's time |
| SimpleStrategy.OpenSignalsOpenOne | src/strategy/simple.rs:211-248 | open long records one open fill of 100 units at the ask; open short one at the bid |
| SimpleStrategy.FillsFollowCross | src/strategy/simple.rs:113-350 | applying the fills never panics; after `LtToGt` the ticket is long, after `GtToLt` short, otherwise unchanged |
| SimpleStrategy.TickKeepsIds | src/strategy/simple.rs:179-189 | a tick keeps the recorded transaction ids consecutive from the base, with the counter next, and every issued ticket id below the ticket counter |
| SimpleStrategy.NoSignalNoFills | src/strategy/simple.rs:191-360 | an off-bar time, a signal without a value or a `Nothing` signal leaves the state unchanged |
| SimpleStrategy.SimpleSmaCrossStrategy.constructor | src/strategy/simple.rs:51-60 | starts at the tid offset, ticket id 0, no fills |
| SimpleStrategy.SimpleSmaCrossStrategy.NextTid | src/strategy/simple.rs:179-183 | returns the counter and moves it on by one |
| SimpleStrategy.SimpleSmaCrossStrategy.NextTicketId | src/strategy/simple.rs:185-189 | returns the counter and moves it on by one |
| SimpleStrategy.SimpleSmaCrossStrategy.AddOpen | src/strategy/simple.rs:211-229 | appends an open fill with fresh ids |
| SimpleStrategy.SimpleSmaCrossStrategy.AddClose | src/strategy/simple.rs:249-265 | appends a close fill with a fresh id |
| SimpleStrategy.SimpleSmaCrossStrategy.OnTick | src/strategy/simple.rs:191-360 | the new state is the tick of the old state; panics exactly when the tick does |
| SimpleStrategy.OnTickExample | src/strategy/simple.rs:191-360 | open long, then a flip: a close naming the open, then an open short |

## Left out

- Sources are passed at every call as total functions. Sharing through `Rc<RefCell<..>>`, boxed closures with captured state (the summing closures of the stream tests), and the `into_sync_ptr` plumbing are not modelled. The stateful closure of the iterator tests is the fixed function of the running sums.
- `VecIndicator::new(offset, vec)`, used by many tests, is not part of this model. `VecIndicator.SeriesValue` stands in: a vector at an offset, out of range outside it.
- The FFI layer of every file (`extern "C"` functions, `CTime`, the py tests), `src/lib.rs`, `src/indicator/tick.rs`, `src/indicator/transaction.rs`, `src/strategy/busena_scalping.rs` and the `HigeSignal` code in zone.rs are not part of this model.
- `println!` and logging are not modelled.
- Floating point is modelled as `real`. There is no NaN, no infinity and no rounding. `partial_cmp(..).unwrap()` on NaN is not modelled. The fold seeds `-inf`/`+inf` of the trailing stop are modelled as "no price yet" (`Option`).
- Integer widths are not modelled: `i32`, `i64`, `isize` and `usize` overflow cannot happen in the model. The one exception is the `usize` underflow of `get_by_id`, which is a finding below.
- `Sma.SmaValue`: a period of 0 (a division by zero giving NaN in the source) is excluded by `requires period >= 1`.
- `Rolling.Mean`: a size of 0 (NaN in the source) is excluded by `requires size >= 1`.
- `Rolling.RollingValue`: the source's `Rolling::new` accepts any `Fn(FixedSizeWindow) -> MaybeValue` closure as its window function. The model covers only `sum` and `mean`, the two window functions rolling.rs defines (its test uses `sum`), so its "a value exactly when every index has one" holds for those two only. The up/down closure that zone.rs passes is modelled on its own as `Zone.UpDownValue`.
- `Ema.Ema.constructor`: `calc_actual_period` (a logarithm and a ceiling) is not modelled. The recursion depth is given directly. The depth of the EMA test, ceil(ln 0.1 / ln 0.5) = 4, is written out.
- `test_ema_2` seeds the EMA with an SMA through a stream wrapper defined outside the modelled files, so it is not modelled.
- The LRU cache is a map plus a recency order. The internals of the `linked-hash-map` crate are not modelled. `insert` on an existing key updates the value and makes the key most recent, as the crate does.
- `Count` holds a cache it never reads. That cache is not modelled.
- `Cross`, `Count` and `TrailingStop` walk back until the source stops yielding. The model adds a `requires` that the source is a non-value at some `lo` index, which every source of the engine meets below its offset.
- `Status`: `ZoneId::is_outer_than` and `is_inverse` are defined outside the modelled files. They are parameters (`ZoneRelations`). `Status.Reconstructed` is a sign-aware definition proved to meet every status test. The tests' `UpDown::Neutral` is the `Eq` variant.
- `Zone.UpDownValue`: the window's `rfold` is defined outside the modelled files. The model takes the sign of value(i) - value(i-1), which is what the up/down test expects.
- `SimpleTransaction` and its fills are defined outside the modelled files. They are reconstructed from their uses in ticket.rs, trade.rs and simple.rs.
- Transaction time is an `int` timestamp instead of `DateTime<Utc>`.
- The `binary_search_by_key` of `get_by_time_range` is modelled as a search for the first entry not before the key, over strictly increasing times. Which of several equal times a binary search finds is not modelled.
- `SimpleSmaCrossStrategy::new` and `update_source` build the indicator graph; they are not modelled. `OnTick` is given the signal, the ask and bid prices and the held ticket as parameters. The panics of `unwrap` on a missing price are not modelled.
- Rust panics are modelled as a `Checked` result (`Panic`) or a `panicked` flag. Unwinding is not modelled.
- `ConvertSeq.Consume`: the source accepts any `FnMut(Internal) -> MaybeValue` as its consumer. The model has only the two consumers the tests use: pull one value and map it (`TakeOne`), and drain the stream and fold it (`DrainFold`). Consumers that pull a different number of values, or that keep state of their own between calls, are not modelled.
- `Stream.MapIter`, `Stream.ZipIter` and `Stream.HoldingZipIter` wrap a `FuncIter` (a stream reading an indicator at its offset), while the source's `Map` and `Zip` wrap any stream. Stacks of stream adapters (a map over a zip, say) and streams with state of their own are not modelled as their inputs.
- `Ema.Ema.ValueRecursive` and `Ema.Ema.Value`: the exact key order after a recursion (the order in which the levels read and insert their indices) is not stated. Stated are the growth bound, that no old key is dropped while there is room, and that the queried index is the most recent key.
- `Stream.IterConsumerStorage.Value`: it uses the corrected `IterStorage.UpdateTo`. The as-written `update_to` never returns once the stream has no value at its offset at or before the index (see the finding below), so the model answers where the source would hang.
- `IterStorage` type reconciliation between sequence types is not modelled: all indices are `int`.

## Findings

| source | as written | input that shows it | evidently intended | confidence | as-written member | corrected member |
|---|---|---|---|---|---|---|
| src/indicator/trailing_stop.rs:45-46 | `order_begin.range_to_end(time + 1)` starts after `order_begin`, so the first price of the position's run is never considered | positions [Long, Long], prices [10, 5], level 4, at index 1: the as-written code continues | the run's prices include its first bar, so the drop from 10 to 5 stops | not executed | TrailingStop.RunStartPriceSkipped | TrailingStop.IntendedLongStopIff |
| src/indicator/stream.rs:318-322 | `while source.offset() <= seq { self.next(); }` never ends when the stream has no value at its offset, because `next` does not move on | a storage fed five values from 0, queried at 5 | stop pulling at the first non-value, as `IterVec::update_to` does | not executed | Stream.UpdateToAsWrittenHangs | Stream.IterStorage.UpdateTo |
| src/indicator/stream.rs:149-154 | the first stream is pulled before the second; when only the first has a value, that value is lost (the code's own FIXME) | first [10, 20]; second not fixed at the first pull, then 1: the pair is (20, 1) | hold the first value until the second yields: (10, 1) | not executed | Stream.ZipLosesValue | Stream.HoldingZipKeepsValue |
| src/transaction.rs:127-130 | when the end time is not found at insertion index i, the slice ends at i - 1, dropping the last entry before `end`; at i = 0 the `usize` subtraction panics | times [0, 10], range [0, 15) gives [0]; range [-10, -5) panics | end the slice at the insertion index: [0, 10] and `None` | not executed | Transaction.TimeRangeCounterexamples | Transaction.GetByTimeRangeIff |
| src/transaction.rs:111-113 | `id - first_id` on `usize` panics for an id below the first id | ids [10, 11], `get_by_id(5)` | `None` | not executed | Transaction.IdBelowFirstPanics | Transaction.GetByIdFinds |

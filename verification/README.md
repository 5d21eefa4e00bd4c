# Liquidity-pool aggregator — Dafny model

This project models the data pipeline of a small HTTP service that collects
liquidity-pool statistics from four decentralised exchanges (WX, puzzle,
swop.fi and axly.io), normalises them into one `Pool` shape, ranks them by
maximal APR, keeps the top 20 and presents them for display. All of it lives in
`api/server.js`: the adapters in `pars`, the asset-name choice of
`getAssetName`, the presenter `print`, and the aggregation in `start`.

Every network call is an input. Each adapter receives the already-decoded
items of its feed, or a failure standing for a request or decoding error
(`Aggregator.Responses`). The asset service is an oracle from asset id to
`Option<AssetInfo>`, where `None` means `getAssetName` throws. APR and
liquidity are `real`. `Math.round` is `Floor(x + 0.5)`.

Modules, one per component:

- `Outcomes` (outcomes.dfy): `Option` and `Result`, the explicit form of every catch-and-substitute.
- `Tables` (tables.dfy): a JavaScript object used as a dictionary keyed by pool id. Assigning a new key appends it. Assigning an existing key replaces its value in place.
- `Pools` (pools.dfy): the `Pool`, `DisplayPool` and response `Entry` records and the four `dex` tags.
- `Adapters` (adapters.dfy): the per-source normalisation of `pars`.
- `Ranking` (ranking.dfy): the descending sort by APR and the top-20 cut.
- `Presenter` (presenter.dfy): `getAssetName`, `Math.round`, `print`, and the batch of presentations.
- `Aggregator` (aggregator.dfy): `start`.

The code and the design disagree on one point, and the model follows the code.
The design says a pool whose presentation fails is returned unpresented while
the others carry on. In the code, the per-pool catch handler reads
`name.poolName`, and `name` is not in scope there. So the handler itself throws
a ReferenceError, the `Promise.all` over the batch rejects, and the outer catch
answers `[]`. `Aggregator.Start` models this. `Aggregator.StartIntended` models
the per-pool fallback (see Findings).

## Model

| member | source | states |
|---|---|---|
| Tables.Put | api/server.js:35-42 | assigning `pools[id]` replaces an existing id's value at its position and appends a new id at the end; nothing else moves |
| Tables.PutGet | api/server.js:35-42 | after the assignment, looking up that id gives the new pool and every other lookup is unchanged |
| Tables.Build | api/server.js:29-43 | the object built by the loop has distinct keys, exactly the ids assigned, and only entries that were assigned |
| Tables.LastWins | api/server.js:29-43 | when several items share an id, the stored pool is the one built from the last of them |
| Adapters.Normalize | api/server.js:49-63 | an adapter loop yields at most one pool per id; its key set is the set of item ids; each entry is the pool built from an item with that id; the last item per id wins |
| Adapters.Flatten | api/server.js:33 | a total is in the flattened list exactly when it is in some tier |
| Adapters.MaxOf | api/server.js:33 | `Math.max` of a nonempty list is an element of the list and bounds every element |
| Adapters.AxlyPool | api/server.js:33 | an axly.io pool's APR bounds every leverage total of every tier and equals one of them |
| Adapters.ParseAxly | api/server.js:25-43 | axly.io: one pool per id, stored under its own id with tag `axly.io`; name and liquidity copied; APR the best leverage total; the last item per id wins |
| Adapters.ParseSwop | api/server.js:44-65 | swop.fi: one pool per id, tag `swop.fi`; name, liquidity and the weekly maximal APR copied from the item; the last item per id wins |
| Adapters.NormalizeWx | api/server.js:70-91 | WX: one pool per address; liquidity is LP balance times LP rate; APR is the first base APY plus the maximal reward APY; name and link are the `-` placeholder; both asset ids kept |
| Adapters.ParseWx | api/server.js:66-91 | the WX adapter fails exactly when some item has no base APY, since `base_apys[0].base_apy` then throws; otherwise it yields the normalised table |
| Adapters.ParsePuzzle | api/server.js:92-111 | puzzle: one pool per contract address, tag `puzzle`; title, liquidity and APY copied; link built from the domain; the last item per address wins |
| Aggregator.SourceWx | api/server.js:177-182 | the WX source fails exactly when its request failed or an item lacks a base APY; a delivered feed gives the WX adapter's result; on success its ids are distinct and its tags known |
| Aggregator.SourcePuzzle | api/server.js:177-182 | the puzzle source fails exactly when its request failed; on success it is the puzzle adapter's table, with distinct ids and known tags |
| Aggregator.SourceSwop | api/server.js:177-182 | the swop.fi source fails exactly when its request failed; on success it is the swop.fi adapter's table, with distinct ids and known tags |
| Aggregator.SourceAxly | api/server.js:177-182 | the axly.io source fails exactly when its request failed; on success it is the axly.io adapter's table, with distinct ids and known tags |
| Aggregator.ParsAll | api/server.js:176-182 | the fan-out yields four outcomes in the order WX, puzzle, swop.fi, axly.io; each fails exactly when its request failed (WX also when an item lacks a base APY), and otherwise is that adapter's table of the delivered items, with distinct ids and known tags |
| Aggregator.Merge | api/server.js:187-189 | the merged list holds exactly the pools of the sources that succeeded, and its length is their total pool count |
| Aggregator.FailedSourceIsEmpty | api/server.js:178-182 | a failed source contributes exactly what an empty source would: nothing |
| Aggregator.OthersSurvive | api/server.js:188-189 | every pool of a successful source is in the merged list whatever the other sources did |
| Aggregator.MergedTagsKnown | api/server.js:188-189 | every merged pool carries one of the four known tags |
| Ranking.Insert | api/server.js:190-192 | inserting into a list sorted by descending APR keeps it sorted and adds exactly that pool |
| Ranking.SortByApr | api/server.js:190-192 | the sort returns a permutation of its input in non-increasing APR order |
| Ranking.CutKeepsBest | api/server.js:192-194 | in a sorted list every pool before the cut has an APR at least that of every pool after it |
| Ranking.Rank | api/server.js:188-194 | the ranking is sorted non-increasing by APR, has `min(20, n)` pools, takes them from its input, and every pool cut off has an APR no higher than any pool kept |
| Aggregator.Ranked | api/server.js:177-195 | the ranked list has `min(20, pools of successful sources)` elements, is sorted by APR, is a sub-multiset of the merged pools, and no pool of a successful source left out has a higher APR than a pool kept |
| Aggregator.RankedTagsKnown | api/server.js:129-170 | every ranked pool has a known tag, so the presenter never passes one through raw in the pipeline |
| Presenter.GetAssetName | api/server.js:117-126 | the asset label fails exactly when the lookup fails; otherwise it is the ticker when that is non-empty, else the full name |
| Presenter.Round | api/server.js:139-140 | `Math.round` returns the integer `n` with `n - 1/2 <= x < n + 1/2` |
| Presenter.RoundUnique | api/server.js:139-140 | that integer is unique |
| Presenter.RoundIntegral | api/server.js:139-140 | rounding an integer-valued number leaves it unchanged |
| Presenter.RoundIdempotent | api/server.js:139-140 | rounding twice is rounding once |
| Presenter.RoundMonotone | api/server.js:139-140 | rounding preserves the order of two numbers |
| Presenter.Print | api/server.js:128-172 | an unknown tag returns the pool unchanged; a known tag returns a display record with the same tag and both numbers rounded to the nearest integer; non-WX pools keep name and link; a WX pool fails exactly when one of its asset lookups fails, and otherwise shows `A / B` and links to `.../pools/A_B` |
| Presenter.PrintKeepsIntegers | api/server.js:142-168 | a known-tag pool with integer liquidity and APR is shown with the same numbers |
| Presenter.PresentAll | api/server.js:197-208 | as written, the batch succeeds exactly when every pool presents, and then it has one entry per ranked pool, in order, each being that pool's presentation |
| Presenter.PresentEach | api/server.js:199-203 | with the intended handler, the result has one entry per ranked pool; a pool that presents is shown, a pool that fails is returned unchanged |
| Presenter.OneFailureIsolated | api/server.js:199-203 | with the intended handler, a failing pool stays in place unpresented while every other pool is presented |
| Presenter.PresentEachAgrees | api/server.js:197-203 | when nothing fails, the intended handler and the written one give the same list |
| Aggregator.Start | api/server.js:174-209 | the response has at most 20 entries; it is either `[]` or exactly `min(20, pools of successful sources)` entries long |
| Aggregator.StartWhenAllPresent | api/server.js:197-203 | when every ranked pool presents, the response is the ranked list presented in order, all entries are shown, its length is `min(20, pools of successful sources)`, and the shown APRs never increase |
| Aggregator.StartLosesAllOnOneFailure | api/server.js:197-208 | as written, one ranked pool whose presentation fails empties the whole response |
| Aggregator.StartIntended | api/server.js:197-203 | with the intended handler, the response always has `min(20, pools of successful sources)` entries, each the pool's presentation or, if that fails, the pool itself |
| Aggregator.OnlyWxRanked | api/server.js:66-91 | when only WX answers, with one pool, that pool is the whole ranking |
| Aggregator.AssetOutageEmptiesResponse | api/server.js:197-208 | one WX pool and a failing asset service: as written the response is `[]`; with the intended handler it lists the pool unpresented |

## Left out

- Express setup, the `/data` and `*` routes, static serving and the port (api/server.js:1-20): framework I/O.
- The axios requests and the upstream JSON shapes: each feed arrives as decoded items or as a failure. A missing nested field that makes an adapter throw is part of that failure, except the WX `base_apys[0]` case, which is modelled.
- `parseFloat` on strings, NaN, and IEEE-754 rounding of the WX product and sum: numbers are exact reals.
- Adapters.ParseAxly: requires every axly.io item to have at least one leverage total, because `Math.max()` of an empty list is `-Infinity`, which a real cannot represent.
- Promise concurrency: `Promise.all` is a sequential map with explicit success or failure.
- Console logging.
- The outer catch of the fan-out (api/server.js:183-187): every per-source promise already has its own catch, so it has nothing to catch.
- The fall-through of `pars` for an unknown source name (api/server.js:114): `start` only passes the four known names.
- The order `Object.values` gives integer-like keys (ascending, ahead of the others): keys are kept in insertion order.
- Ranking.SortByApr: the sort is stable, but only sortedness and permutation are proved, because the order among equal APRs is not promised.
- Presenter.GetAssetName: an absent or null ticker is the empty string, and a null or absent name, which JavaScript would render as `null` or `undefined`, is not modelled.
- Presenter.AssetIds: a WX-tagged pool without asset ids asks for the id `undefined`, as the URL template would; adapters never produce such a pool.

## Findings

| source | as written | input that shows it | evidently intended | confidence | as-written member | corrected member |
|---|---|---|---|---|---|---|
| api/server.js:199-203 | the per-pool catch handler logs `name.poolName`; `name` is not in scope, so the handler throws and the whole batch is answered with `[]` | a ranked WX pool whose asset lookup fails (Aggregator.AssetOutageEmptiesResponse) | log `pool.poolName` and return the pool unpresented, so the others are still presented | high; not executed | Presenter.PresentAll, Aggregator.Start, Aggregator.StartLosesAllOnOneFailure | Presenter.PresentEach, Presenter.OneFailureIsolated, Aggregator.StartIntended |

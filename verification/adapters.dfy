/** The per-source adapters: each turns the decoded items of one upstream feed
    into a table of normalised pools keyed by pool id. The HTTP request itself is
    not modelled; the items arrive as input. */
module Adapters {
  import opened Outcomes
  import opened Tables
  import opened Pools

  /** One axly.io farm. `leverageApy[t]` lists the `total` of every leverage of
      the t-th yield tier. */
  datatype AxlyItem = AxlyItem(poolId: string, name: string, tvl: real, leverageApy: seq<seq<real>>)

  /** One swop.fi pool; `weekTotalAprMax` is `week.current.totalApr.max`. */
  datatype SwopItem = SwopItem(id: string, name: string, liquidity: real, weekTotalAprMax: real)

  /** One WX pool; `baseApys` lists the `base_apy` of each `base_apys` element. */
  datatype WxItem = WxItem(
    address: string,
    amountAssetId: string,
    priceAssetId: string,
    poolLpBalance: real,
    rateLpUsd: real,
    baseApys: seq<real>,
    rewardApyMax: real)

  /** One puzzle pool; `liquidity` and `apy` come from its `statistics` object. */
  datatype PuzzleItem = PuzzleItem(contractAddress: string, title: string, domain: string, liquidity: real, apy: real)

  /** No item after position `i` has the same key: item `i` is the last write. */
  predicate IsLast<I>(items: seq<I>, key: I -> string, i: nat)
    requires i < |items|
  {
    forall j :: i < j < |items| ==> key(items[j]) != key(items[i])
  }

  /** The loop every adapter runs: `pools[key(item)] = make(item)` for each item
      in order, starting from an empty object. */
  function Normalize<I>(items: seq<I>, key: I -> string, make: I --> Pool): (r: Table<Pool>)
    requires forall i :: 0 <= i < |items| ==> make.requires(items[i])
    ensures DistinctKeys(r)
    ensures Keys(r) == set i | 0 <= i < |items| :: key(items[i])
    ensures forall e :: e in r ==> exists i :: 0 <= i < |items| && e == (key(items[i]), make(items[i]))
    ensures forall i :: 0 <= i < |items| && IsLast(items, key, i) ==> Get(r, key(items[i])) == Some(make(items[i]))
  {
    var ps := seq(|items|, i requires 0 <= i < |items| => (key(items[i]), make(items[i])));
    assert KeysOf(ps) == set i | 0 <= i < |items| :: key(items[i]) by {
      forall i | 0 <= i < |items| ensures key(items[i]) in KeysOf(ps) {
        assert ps[i].0 == key(items[i]);
      }
    }
    forall i | 0 <= i < |items| && IsLast(items, key, i)
      ensures Get(Build(ps), key(items[i])) == Some(make(items[i]))
    {
      LastWins(ps, i);
    }
    Build(ps)
  }

  /** The leverage totals of all tiers in one list (`flatMap`). */
  function Flatten(xss: seq<seq<real>>): (r: seq<real>)
    ensures forall x :: x in r <==> exists t :: 0 <= t < |xss| && x in xss[t]
  {
    if |xss| == 0 then []
    else xss[0] + Flatten(xss[1..])
  }

  /** `Math.max(...xs)` on a nonempty list. */
  function MaxOf(xs: seq<real>): (m: real)
    requires |xs| > 0
    ensures m in xs
    ensures forall x :: x in xs ==> x <= m
  {
    if |xs| == 1 then xs[0]
    else
      var rest := MaxOf(xs[1..]);
      assert xs == [xs[0]] + xs[1..];
      if xs[0] >= rest then xs[0] else rest
  }

  predicate HasLeverageTotal(item: AxlyItem) {
    |Flatten(item.leverageApy)| > 0
  }

  /** `m` bounds every leverage total of every tier and is one of them. */
  predicate IsBestTotal(tiers: seq<seq<real>>, m: real) {
    && (forall t, l :: 0 <= t < |tiers| && 0 <= l < |tiers[t]| ==> tiers[t][l] <= m)
    && (exists t, l :: 0 <= t < |tiers| && 0 <= l < |tiers[t]| && tiers[t][l] == m)
  }

  /** axly.io: the APR is the best leverage total over every tier. */
  function AxlyPool(item: AxlyItem): (p: Pool)
    requires HasLeverageTotal(item)
    ensures IsBestTotal(item.leverageApy, p.poolMaxApr)
  {
    var totals := Flatten(item.leverageApy);
    var best := MaxOf(totals);
    assert forall t, l :: 0 <= t < |item.leverageApy| && 0 <= l < |item.leverageApy[t]| ==>
      item.leverageApy[t][l] in totals;
    Pool(item.poolId, AxlyTag, item.name, item.tvl, best,
         "https://app.axly.io/add-to-farm?address=" + item.poolId, NoExtra)
  }

  /** swop.fi: the APR is the precomputed weekly maximum. */
  function SwopPool(item: SwopItem): Pool {
    Pool(item.id, SwopTag, item.name, item.liquidity, item.weekTotalAprMax,
         "https://swop.fi/pool?address=" + item.id, NoExtra)
  }

  /** WX: liquidity is LP balance times LP rate, APR is the first base APY plus
      the maximal reward APY; name and link wait for the asset lookups. */
  function WxPool(item: WxItem): Pool
    requires |item.baseApys| > 0
  {
    Pool(item.address, WxTag, Placeholder,
         item.poolLpBalance * item.rateLpUsd, item.baseApys[0] + item.rewardApyMax,
         Placeholder, AssetPair(item.amountAssetId, item.priceAssetId))
  }

  /** puzzle: the statistics are copied as they are. */
  function PuzzlePool(item: PuzzleItem): Pool {
    Pool(item.contractAddress, PuzzleTag, item.title, item.liquidity, item.apy,
         "https://puzzleswap.org/pools/" + item.domain + "/invest", PuzzleDomain(item.domain))
  }

  /** The property each adapter uses as the object key. */
  function AxlyKey(item: AxlyItem): string { item.poolId }
  function SwopKey(item: SwopItem): string { item.id }
  function WxKey(item: WxItem): string { item.address }
  function PuzzleKey(item: PuzzleItem): string { item.contractAddress }

  /** Every pool is stored under its own id and carries the source's tag. */
  predicate StoredUnderId(t: Table<Pool>, tag: string) {
    forall e :: e in t ==> e.1.id == e.0 && e.1.dex == tag
  }

  /** How an axly.io item's fields reach the stored pool. */
  predicate AxlyFields(item: AxlyItem, e: (string, Pool)) {
    && e.0 == item.poolId
    && e.1.poolName == item.name
    && e.1.poolLiquidity == item.tvl
    && IsBestTotal(item.leverageApy, e.1.poolMaxApr)
  }

  /** How a swop.fi item's fields reach the stored pool. */
  predicate SwopFields(item: SwopItem, e: (string, Pool)) {
    && e.0 == item.id
    && e.1.poolName == item.name
    && e.1.poolLiquidity == item.liquidity
    && e.1.poolMaxApr == item.weekTotalAprMax
  }

  /** How a WX item's fields reach the stored pool. */
  predicate WxFields(item: WxItem, e: (string, Pool)) {
    && e.0 == item.address
    && |item.baseApys| > 0
    && e.1.poolLiquidity == item.poolLpBalance * item.rateLpUsd
    && e.1.poolMaxApr == item.baseApys[0] + item.rewardApyMax
    && e.1.poolName == Placeholder
    && e.1.link == Placeholder
    && e.1.extra == AssetPair(item.amountAssetId, item.priceAssetId)
  }

  /** How a puzzle item's fields reach the stored pool. */
  predicate PuzzleFields(item: PuzzleItem, e: (string, Pool)) {
    && e.0 == item.contractAddress
    && e.1.poolName == item.title
    && e.1.poolLiquidity == item.liquidity
    && e.1.poolMaxApr == item.apy
    && e.1.link == "https://puzzleswap.org/pools/" + item.domain + "/invest"
  }

  function ParseAxly(items: seq<AxlyItem>): (r: Table<Pool>)
    requires forall i :: 0 <= i < |items| ==> HasLeverageTotal(items[i])
    ensures DistinctKeys(r) && StoredUnderId(r, AxlyTag)
    ensures forall e :: e in r ==> (exists i :: 0 <= i < |items| && AxlyFields(items[i], e))
    ensures forall i :: 0 <= i < |items| && IsLast(items, AxlyKey, i) ==>
              Get(r, items[i].poolId) == Some(AxlyPool(items[i]))
  {
    Normalize(items, AxlyKey, AxlyPool)
  }

  function ParseSwop(items: seq<SwopItem>): (r: Table<Pool>)
    ensures DistinctKeys(r) && StoredUnderId(r, SwopTag)
    ensures forall e :: e in r ==> (exists i :: 0 <= i < |items| && SwopFields(items[i], e))
    ensures forall i :: 0 <= i < |items| && IsLast(items, SwopKey, i) ==>
              Get(r, items[i].id) == Some(SwopPool(items[i]))
  {
    Normalize(items, SwopKey, SwopPool)
  }

  /** The WX loop once every item has its base APYs. */
  function NormalizeWx(items: seq<WxItem>): (r: Table<Pool>)
    requires forall i :: 0 <= i < |items| ==> |items[i].baseApys| > 0
    ensures DistinctKeys(r) && StoredUnderId(r, WxTag)
    ensures forall e :: e in r ==> (exists i :: 0 <= i < |items| && WxFields(items[i], e))
    ensures forall i :: 0 <= i < |items| && IsLast(items, WxKey, i) ==>
              Get(r, items[i].address) == Some(WxPool(items[i]))
  {
    Normalize(items, WxKey, WxPool)
  }

  /** An item without base APYs makes `base_apys[0].base_apy` throw, and the
      whole WX adapter fails with it. */
  function ParseWx(items: seq<WxItem>): (r: Result<Table<Pool>>)
    ensures r.Success? <==> forall i :: 0 <= i < |items| ==> |items[i].baseApys| > 0
    ensures r.Success? ==> r.value == NormalizeWx(items)
  {
    if exists i :: 0 <= i < |items| && |items[i].baseApys| == 0 then
      Failure("TypeError: base_apys[0] is undefined")
    else
      Success(NormalizeWx(items))
  }

  function ParsePuzzle(items: seq<PuzzleItem>): (r: Table<Pool>)
    ensures DistinctKeys(r) && StoredUnderId(r, PuzzleTag)
    ensures forall e :: e in r ==> (exists i :: 0 <= i < |items| && PuzzleFields(items[i], e))
    ensures forall i :: 0 <= i < |items| && IsLast(items, PuzzleKey, i) ==>
              Get(r, items[i].contractAddress) == Some(PuzzlePool(items[i]))
  {
    Normalize(items, PuzzleKey, PuzzlePool)
  }
}

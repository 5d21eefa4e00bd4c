/** The presenter: `print` re-shapes one ranked pool for display, resolving the
    two asset names of a WX pool through the asset service, which is modelled as
    an oracle from asset id to what the service knows about it. */
module Presenter {
  import opened Outcomes
  import opened Pools

  /** The `ticker` and `name` the asset service reports for an id; an absent,
      null or empty ticker is the empty string. */
  datatype AssetInfo = AssetInfo(ticker: string, name: string)

  /** One asset request: `None` when the request fails or the service has no
      entry for the id, both of which make `getAssetName` throw. */
  type AssetLookup = string -> Option<AssetInfo>

  /** The ticker when it is truthy (non-empty), otherwise the full name. */
  function AssetLabel(info: AssetInfo): string {
    if info.ticker != "" then info.ticker else info.name
  }

  /** `getAssetName`: the label of one asset, or the error it throws. */
  function GetAssetName(lookup: AssetLookup, assetId: string): (r: Result<string>)
    ensures r.Success? <==> lookup(assetId).Some?
    ensures r.Success? && lookup(assetId).value.ticker != "" ==> r.value == lookup(assetId).value.ticker
    ensures r.Success? && lookup(assetId).value.ticker == "" ==> r.value == lookup(assetId).value.name
  {
    match lookup(assetId)
    case None => Failure("TypeError: cannot read the asset entry")
    case Some(info) => Success(AssetLabel(info))
  }

  /** `Math.round`: the nearest integer, a half rounded up towards +infinity. */
  function Round(x: real): (n: int)
    ensures n as real - 0.5 <= x < n as real + 0.5
  {
    (x + 0.5).Floor
  }

  /** Exactly one integer lies in `[x - 1/2, x + 1/2)`, and `Round` finds it. */
  lemma RoundUnique(x: real, n: int)
    requires n as real - 0.5 <= x < n as real + 0.5
    ensures Round(x) == n
  {
  }

  /** Rounding an integer-valued number leaves it unchanged. */
  lemma RoundIntegral(n: int)
    ensures Round(n as real) == n
  {
    RoundUnique(n as real, n);
  }

  /** Rounding is idempotent. */
  lemma RoundIdempotent(x: real)
    ensures Round(Round(x) as real) == Round(x)
  {
    RoundIntegral(Round(x));
  }

  /** Rounding never reverses an order, so a list sorted by APR stays sorted
      after its APRs are rounded. */
  lemma RoundMonotone(x: real, y: real)
    requires x <= y
    ensures Round(x) <= Round(y)
  {
  }

  /** The asset ids a WX pool asks for. A pool without them passes `undefined`,
      which the request URL's template turns into the text "undefined". */
  function AssetIds(pool: Pool): (string, string) {
    match pool.extra
    case AssetPair(a, b) => (a, b)
    case _ => ("undefined", "undefined")
  }

  function WxName(a: string, b: string): string {
    a + " / " + b
  }

  function WxLink(a: string, b: string): string {
    "https://wx.network/liquiditypools/pools/" + a + "_" + b
  }

  /** `d` shows `pool`'s tag and its numbers rounded to the nearest integer. */
  predicate RoundedFrom(pool: Pool, d: DisplayPool) {
    && d.dex == pool.dex
    && d.poolLiquidity as real - 0.5 <= pool.poolLiquidity < d.poolLiquidity as real + 0.5
    && d.poolMaxApr as real - 0.5 <= pool.poolMaxApr < d.poolMaxApr as real + 0.5
  }

  /** `print`: dispatch on the `dex` tag. Only a WX pool can fail, and only when
      one of its asset lookups does; an unknown tag passes the pool through. */
  function Print(pool: Pool, lookup: AssetLookup): (r: Result<Entry>)
    ensures r.Failure? <==>
      pool.dex == WxTag && (lookup(AssetIds(pool).0).None? || lookup(AssetIds(pool).1).None?)
    ensures r.Success? ==> (r.value.Raw? <==> !IsKnownTag(pool.dex))
    ensures r.Success? && r.value.Raw? ==> r.value.pool == pool
    ensures r.Success? && r.value.Shown? ==> RoundedFrom(pool, r.value.display)
    ensures r.Success? && r.value.Shown? && pool.dex != WxTag ==>
      r.value.display.poolName == pool.poolName && r.value.display.link == pool.link
    ensures r.Success? && pool.dex == WxTag ==>
      var a := AssetLabel(lookup(AssetIds(pool).0).value);
      var b := AssetLabel(lookup(AssetIds(pool).1).value);
      r.value.display.poolName == WxName(a, b) && r.value.display.link == WxLink(a, b)
  {
    if pool.dex == WxTag then
      var (amountId, priceId) := AssetIds(pool);
      match GetAssetName(lookup, amountId)
      case Failure(e) => Failure(e)
      case Success(amountAsset) =>
        match GetAssetName(lookup, priceId)
        case Failure(e) => Failure(e)
        case Success(priceAsset) =>
          Success(Shown(DisplayPool(pool.dex, WxName(amountAsset, priceAsset), WxLink(amountAsset, priceAsset),
                                    Round(pool.poolLiquidity), Round(pool.poolMaxApr))))
    else if IsKnownTag(pool.dex) then
      Success(Shown(DisplayPool(pool.dex, pool.poolName, pool.link,
                                Round(pool.poolLiquidity), Round(pool.poolMaxApr))))
    else
      Success(Raw(pool))
  }

  /** A known-tag pool whose numbers are already integers is shown with the
      same numbers. */
  lemma PrintKeepsIntegers(pool: Pool, lookup: AssetLookup, liquidity: int, apr: int)
    requires pool.poolLiquidity == liquidity as real && pool.poolMaxApr == apr as real
    requires Print(pool, lookup).Success? && IsKnownTag(pool.dex)
    ensures Print(pool, lookup).value.display.poolLiquidity == liquidity
    ensures Print(pool, lookup).value.display.poolMaxApr == apr
  {
    var d := Print(pool, lookup).value.display;
    RoundUnique(pool.poolLiquidity, d.poolLiquidity);
    RoundUnique(pool.poolLiquidity, liquidity);
    RoundUnique(pool.poolMaxApr, d.poolMaxApr);
    RoundUnique(pool.poolMaxApr, apr);
  }

  /** `Promise.all` over the ranked pools, each printed with the catch handler
      as written: the handler reads `name.poolName`, `name` is not in scope, so
      the handler itself throws and the first failing pool rejects the whole
      batch. */
  function PresentAll(ranked: seq<Pool>, lookup: AssetLookup): (r: Result<seq<Entry>>)
    ensures r.Success? <==> forall i :: 0 <= i < |ranked| ==> Print(ranked[i], lookup).Success?
    ensures r.Success? ==> |r.value| == |ranked|
    ensures r.Success? ==> forall i :: 0 <= i < |ranked| ==> r.value[i] == Print(ranked[i], lookup).value
  {
    if |ranked| == 0 then Success([])
    else
      match Print(ranked[0], lookup)
      case Failure(_) => Failure("ReferenceError: name is not defined")
      case Success(first) =>
        match PresentAll(ranked[1..], lookup)
        case Failure(e) => Failure(e)
        case Success(rest) =>
          assert forall i :: 1 <= i < |ranked| ==> ranked[i] == ranked[1..][i - 1];
          Success([first] + rest)
  }

  /** The handler the code evidently intends: a pool whose presentation fails
      is returned as it is, and the other pools are presented regardless. */
  function PresentEach(ranked: seq<Pool>, lookup: AssetLookup): (r: seq<Entry>)
    ensures |r| == |ranked|
    ensures forall i :: 0 <= i < |ranked| ==>
      r[i] == match Print(ranked[i], lookup) { case Success(e) => e case Failure(_) => Raw(ranked[i]) }
  {
    seq(|ranked|, i requires 0 <= i < |ranked| =>
      match Print(ranked[i], lookup)
      case Success(e) => e
      case Failure(_) => Raw(ranked[i]))
  }

  /** With the intended handler, one failing pool costs only itself: it stays in
      its place unpresented, and every other pool is presented as `print` does. */
  lemma OneFailureIsolated(ranked: seq<Pool>, lookup: AssetLookup, k: nat)
    requires k < |ranked| && Print(ranked[k], lookup).Failure?
    ensures |PresentEach(ranked, lookup)| == |ranked|
    ensures PresentEach(ranked, lookup)[k] == Raw(ranked[k])
    ensures forall i :: 0 <= i < |ranked| && i != k && Print(ranked[i], lookup).Success? ==>
      PresentEach(ranked, lookup)[i] == Print(ranked[i], lookup).value
  {
  }

  /** When nothing fails, the intended handler and the written one agree. */
  lemma PresentEachAgrees(ranked: seq<Pool>, lookup: AssetLookup)
    requires PresentAll(ranked, lookup).Success?
    ensures PresentEach(ranked, lookup) == PresentAll(ranked, lookup).value
  {
  }
}

/** The records that flow through the pipeline: the normalised pool every source
    adapter produces, and the rounded record the presenter returns. */
module Pools {

  /** The `dex` tags of the four sources, as the adapters write them. */
  const WxTag: string := "WX"
  const PuzzleTag: string := "puzzle"
  const SwopTag: string := "swop.fi"
  const AxlyTag: string := "axly.io"

  /** The placeholder the WX adapter stores in place of a name and a link. */
  const Placeholder: string := "-"

  /** The tags the presenter has a case for. */
  predicate IsKnownTag(dex: string) {
    dex == WxTag || dex == PuzzleTag || dex == SwopTag || dex == AxlyTag
  }

  /** Fields that only some sources set: WX keeps the two asset ids it still has
      to resolve, puzzle keeps the domain its link is built from. */
  datatype Extra =
    | NoExtra
    | AssetPair(amountAssetId: string, priceAssetId: string)
    | PuzzleDomain(domain: string)

  /** A normalised pool; APR and liquidity are the source's floating-point numbers. */
  datatype Pool = Pool(
    id: string,
    dex: string,
    poolName: string,
    poolLiquidity: real,
    poolMaxApr: real,
    link: string,
    extra: Extra)

  /** The presented pool: the numbers rounded to integers. */
  datatype DisplayPool = DisplayPool(
    dex: string,
    poolName: string,
    link: string,
    poolLiquidity: int,
    poolMaxApr: int)

  /** One element of the JSON array the data route returns: a presented pool, or a
      pool passed through as it is because its tag has no presenter case. */
  datatype Entry = Shown(display: DisplayPool) | Raw(pool: Pool)
}

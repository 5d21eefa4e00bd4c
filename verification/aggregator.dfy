/** `start`: run every adapter, let a failed one contribute nothing, merge the
    per-source tables, rank the pools and present the top ones. The upstream
    responses and the asset service are inputs. */
module Aggregator {
  import opened Outcomes
  import opened Tables
  import opened Pools
  import opened Adapters
  import opened Ranking
  import opened Presenter

  /** What each upstream request delivered: the decoded items, or the error the
      request or the decoding raised. */
  datatype Responses = Responses(
    wx: Result<seq<WxItem>>,
    puzzle: Result<seq<PuzzleItem>>,
    swop: Result<seq<SwopItem>>,
    axly: Result<seq<AxlyItem>>)

  /** Every delivered axly.io farm has at least one leverage total. */
  predicate AxlyTotalsPresent(resp: Responses) {
    resp.axly.Success? ==> forall i :: 0 <= i < |resp.axly.value| ==> HasLeverageTotal(resp.axly.value[i])
  }

  /** Every stored pool carries one of the four known tags. */
  predicate KnownTags(t: Table<Pool>) {
    forall e :: e in t ==> IsKnownTag(e.1.dex)
  }

  /** `pars('WX')`: fails when the request failed or an item lacks a base APY. */
  function SourceWx(response: Result<seq<WxItem>>): (r: Result<Table<Pool>>)
    ensures r.Failure? <==>
      response.Failure? || exists i :: 0 <= i < |response.value| && |response.value[i].baseApys| == 0
    ensures r.Success? ==> DistinctKeys(r.value) && KnownTags(r.value)
    ensures response.Success? ==> r == ParseWx(response.value)
  {
    match response
    case Failure(e) => Failure(e)
    case Success(items) => ParseWx(items)
  }

  /** `pars('puzzle')`: fails only when the request failed. */
  function SourcePuzzle(response: Result<seq<PuzzleItem>>): (r: Result<Table<Pool>>)
    ensures r.Failure? <==> response.Failure?
    ensures r.Success? ==> DistinctKeys(r.value) && KnownTags(r.value)
    ensures r.Success? ==> r.value == ParsePuzzle(response.value)
  {
    match response
    case Failure(e) => Failure(e)
    case Success(items) => Success(ParsePuzzle(items))
  }

  /** `pars('swop.fi')`: fails only when the request failed. */
  function SourceSwop(response: Result<seq<SwopItem>>): (r: Result<Table<Pool>>)
    ensures r.Failure? <==> response.Failure?
    ensures r.Success? ==> DistinctKeys(r.value) && KnownTags(r.value)
    ensures r.Success? ==> r.value == ParseSwop(response.value)
  {
    match response
    case Failure(e) => Failure(e)
    case Success(items) => Success(ParseSwop(items))
  }

  /** `pars('axly.io')`: fails only when the request failed. */
  function SourceAxly(response: Result<seq<AxlyItem>>): (r: Result<Table<Pool>>)
    requires response.Success? ==> forall i :: 0 <= i < |response.value| ==> HasLeverageTotal(response.value[i])
    ensures r.Failure? <==> response.Failure?
    ensures r.Success? ==> DistinctKeys(r.value) && KnownTags(r.value)
    ensures r.Success? ==> r.value == ParseAxly(response.value)
  {
    match response
    case Failure(e) => Failure(e)
    case Success(items) => Success(ParseAxly(items))
  }

  /** Every source succeeded with distinct ids and known tags. */
  predicate WellTagged(outcomes: seq<Result<Table<Pool>>>) {
    forall s :: 0 <= s < |outcomes| && outcomes[s].Success? ==>
      DistinctKeys(outcomes[s].value) && KnownTags(outcomes[s].value)
  }

  /** The adapters in the order `start` lists them: WX, puzzle, swop.fi, axly.io. */
  function ParsAll(resp: Responses): (r: seq<Result<Table<Pool>>>)
    requires AxlyTotalsPresent(resp)
    ensures |r| == 4 && WellTagged(r)
    ensures r[0].Failure? <==>
      resp.wx.Failure? || exists i :: 0 <= i < |resp.wx.value| && |resp.wx.value[i].baseApys| == 0
    ensures resp.wx.Success? ==> r[0] == ParseWx(resp.wx.value)
    ensures r[1].Failure? <==> resp.puzzle.Failure?
    ensures resp.puzzle.Success? ==> r[1].value == ParsePuzzle(resp.puzzle.value)
    ensures r[2].Failure? <==> resp.swop.Failure?
    ensures resp.swop.Success? ==> r[2].value == ParseSwop(resp.swop.value)
    ensures r[3].Failure? <==> resp.axly.Failure?
    ensures resp.axly.Success? ==> r[3].value == ParseAxly(resp.axly.value)
  {
    var wx, puzzle, swop, axly := SourceWx(resp.wx), SourcePuzzle(resp.puzzle), SourceSwop(resp.swop), SourceAxly(resp.axly);
    var r := [wx, puzzle, swop, axly];
    assert r[0] == wx && r[1] == puzzle && r[2] == swop && r[3] == axly;
    assert WellTagged(r) by {
      forall s | 0 <= s < 4 && r[s].Success? ensures DistinctKeys(r[s].value) && KnownTags(r[s].value) {
        if s == 0 { } else if s == 1 { } else if s == 2 { } else { }
      }
    }
    r
  }

  /** The `.catch` on each `pars` call: a failed source becomes an empty result. */
  function Recover(outcome: Result<Table<Pool>>): Table<Pool> {
    match outcome
    case Success(t) => t
    case Failure(_) => []
  }

  /** The number of pools the successful sources delivered. */
  function SuccessfulPoolCount(outcomes: seq<Result<Table<Pool>>>): nat {
    if |outcomes| == 0 then 0
    else SuccessfulPoolCount(outcomes[..|outcomes| - 1]) + |Recover(outcomes[|outcomes| - 1])|
  }

  /** `p` is a pool of some source that succeeded. */
  predicate FromSuccessfulSource(outcomes: seq<Result<Table<Pool>>>, p: Pool) {
    exists s :: 0 <= s < |outcomes| && outcomes[s].Success? && p in Values(outcomes[s].value)
  }

  /** `reduce((acc, cur) => acc.concat(Object.values(cur)), [])` over the
      recovered results: exactly the pools of the successful sources. */
  function Merge(outcomes: seq<Result<Table<Pool>>>): (r: seq<Pool>)
    ensures |r| == SuccessfulPoolCount(outcomes)
    ensures forall p :: p in r <==> FromSuccessfulSource(outcomes, p)
  {
    if |outcomes| == 0 then []
    else
      var init := outcomes[..|outcomes| - 1];
      var last := outcomes[|outcomes| - 1];
      var r := Merge(init) + Values(Recover(last));
      assert forall p :: FromSuccessfulSource(outcomes, p) <==>
        FromSuccessfulSource(init, p) || (last.Success? && p in Values(last.value)) by {
        forall p | FromSuccessfulSource(outcomes, p)
          ensures FromSuccessfulSource(init, p) || (last.Success? && p in Values(last.value))
        {
          var s :| 0 <= s < |outcomes| && outcomes[s].Success? && p in Values(outcomes[s].value);
          if s < |outcomes| - 1 {
            assert init[s] == outcomes[s];
          }
        }
        forall p | FromSuccessfulSource(init, p) ensures FromSuccessfulSource(outcomes, p) {
          var s :| 0 <= s < |init| && init[s].Success? && p in Values(init[s].value);
          assert outcomes[s] == init[s];
        }
      }
      r
  }

  /** A failed source contributes exactly what an empty one would: nothing. */
  lemma {:induction false} FailedSourceIsEmpty(outcomes: seq<Result<Table<Pool>>>, s: nat)
    requires s < |outcomes| && outcomes[s].Failure?
    ensures Merge(outcomes) == Merge(outcomes[s := Success([])])
  {
    var n := |outcomes| - 1;
    var other := outcomes[s := Success([])];
    if s < n {
      assert other[..n] == outcomes[..n][s := Success([])];
      FailedSourceIsEmpty(outcomes[..n], s);
    } else {
      assert other[..n] == outcomes[..n];
    }
  }

  /** A failing source does not take the others down: every pool of every
      successful source is in the merged list whatever the other sources did. */
  lemma OthersSurvive(outcomes: seq<Result<Table<Pool>>>, s: nat, e: (string, Pool))
    requires s < |outcomes| && outcomes[s].Success? && e in outcomes[s].value
    ensures e.1 in Merge(outcomes)
  {
    var t := outcomes[s].value;
    var i :| 0 <= i < |t| && t[i] == e;
    assert Values(t)[i] == e.1;
  }

  /** Every merged pool of well-tagged sources has a known tag. */
  lemma MergedTagsKnown(outcomes: seq<Result<Table<Pool>>>, p: Pool)
    requires WellTagged(outcomes) && p in Merge(outcomes)
    ensures IsKnownTag(p.dex)
  {
    var s :| 0 <= s < |outcomes| && outcomes[s].Success? && p in Values(outcomes[s].value);
    var t := outcomes[s].value;
    var j :| 0 <= j < |Values(t)| && Values(t)[j] == p;
    assert t[j] in t;
  }

  /** The pools before presentation: merged, sorted and cut to the top ones. */
  function Ranked(resp: Responses): (r: seq<Pool>)
    requires AxlyTotalsPresent(resp)
    ensures |r| == Min(TopCount, SuccessfulPoolCount(ParsAll(resp)))
    ensures SortedByAprDesc(r)
    ensures forall p :: p in r ==> FromSuccessfulSource(ParsAll(resp), p)
    ensures multiset(r) <= multiset(Merge(ParsAll(resp)))
    ensures forall p, q :: FromSuccessfulSource(ParsAll(resp), p) && p !in r && q in r ==>
              q.poolMaxApr >= p.poolMaxApr
  {
    var merged := Merge(ParsAll(resp));
    var r := Rank(merged);
    assert forall p :: p in r ==> p in multiset(r);
    assert forall p :: FromSuccessfulSource(ParsAll(resp), p) && p !in r ==>
      p in multiset(merged) - multiset(r) by {
      forall p | FromSuccessfulSource(ParsAll(resp), p) && p !in r
        ensures p in multiset(merged) - multiset(r)
      {
        assert p in merged;
        assert multiset(r)[p] == 0;
      }
    }
    r
  }

  /** Every ranked pool came out of an adapter, so it has a known tag and the
      presenter never passes one through raw. */
  lemma RankedTagsKnown(resp: Responses)
    requires AxlyTotalsPresent(resp)
    ensures forall i :: 0 <= i < |Ranked(resp)| ==> IsKnownTag(Ranked(resp)[i].dex)
  {
    var outcomes := ParsAll(resp);
    var merged := Merge(outcomes);
    var ranked := Rank(merged);
    forall i | 0 <= i < |ranked| ensures IsKnownTag(ranked[i].dex) {
      assert ranked[i] in multiset(ranked);
      assert ranked[i] in multiset(merged);
      MergedTagsKnown(outcomes, ranked[i]);
    }
  }

  /** `start` as written: the ranked pools presented, or `[]` when the batch of
      presentations is rejected. */
  function Start(resp: Responses, lookup: AssetLookup): (r: seq<Entry>)
    requires AxlyTotalsPresent(resp)
    ensures |r| <= TopCount
    ensures r == [] || |r| == Min(TopCount, SuccessfulPoolCount(ParsAll(resp)))
  {
    match PresentAll(Ranked(resp), lookup)
    case Success(entries) => entries
    case Failure(_) => []
  }

  /** When every ranked pool presents, the response has one shown entry per
      ranked pool, in ranked order, so its length is the smaller of the cut-off
      and the number of pools the successful sources delivered, and the shown
      APRs never increase. */
  lemma StartWhenAllPresent(resp: Responses, lookup: AssetLookup)
    requires AxlyTotalsPresent(resp)
    requires forall i :: 0 <= i < |Ranked(resp)| ==> Print(Ranked(resp)[i], lookup).Success?
    ensures |Start(resp, lookup)| == Min(TopCount, SuccessfulPoolCount(ParsAll(resp)))
    ensures forall i :: 0 <= i < |Start(resp, lookup)| ==>
      Start(resp, lookup)[i] == Print(Ranked(resp)[i], lookup).value && Start(resp, lookup)[i].Shown?
    ensures forall i, j :: 0 <= i < j < |Start(resp, lookup)| ==>
      Start(resp, lookup)[i].display.poolMaxApr >= Start(resp, lookup)[j].display.poolMaxApr
  {
    var ranked := Ranked(resp);
    var r := Start(resp, lookup);
    RankedTagsKnown(resp);
    forall i, j | 0 <= i < j < |r| ensures r[i].display.poolMaxApr >= r[j].display.poolMaxApr {
      assert ranked[j].poolMaxApr <= ranked[i].poolMaxApr;
      RoundUnique(ranked[i].poolMaxApr, r[i].display.poolMaxApr);
      RoundUnique(ranked[j].poolMaxApr, r[j].display.poolMaxApr);
      RoundMonotone(ranked[j].poolMaxApr, ranked[i].poolMaxApr);
    }
  }

  /** As written, one pool whose presentation fails empties the whole response. */
  lemma StartLosesAllOnOneFailure(resp: Responses, lookup: AssetLookup, k: nat)
    requires AxlyTotalsPresent(resp)
    requires k < |Ranked(resp)| && Print(Ranked(resp)[k], lookup).Failure?
    ensures Start(resp, lookup) == []
  {
  }

  /** `start` with the intended per-pool fallback. */
  function StartIntended(resp: Responses, lookup: AssetLookup): (r: seq<Entry>)
    requires AxlyTotalsPresent(resp)
    ensures |r| == Min(TopCount, SuccessfulPoolCount(ParsAll(resp)))
    ensures forall i :: 0 <= i < |r| && Print(Ranked(resp)[i], lookup).Success? ==>
      r[i] == Print(Ranked(resp)[i], lookup).value
    ensures forall i :: 0 <= i < |r| && Print(Ranked(resp)[i], lookup).Failure? ==>
      r[i] == Raw(Ranked(resp)[i])
  {
    var ranked := Ranked(resp);
    PresentEach(ranked, lookup)
  }

  /** The answer to a lookup that always fails. */
  function NoAssets(assetId: string): Option<AssetInfo> {
    None
  }

  /** The responses of a moment when only WX answers, with a single pool. */
  function OnlyWx(item: WxItem): Responses {
    Responses(Success([item]), Failure("request failed"), Failure("request failed"), Failure("request failed"))
  }

  /** A WX feed of one item normalises to the one-entry table. */
  lemma SingleWxTable(item: WxItem)
    requires |item.baseApys| > 0
    ensures NormalizeWx([item]) == [(item.address, WxPool(item))]
  {
    var ps := [(item.address, WxPool(item))];
    assert ps == seq(1, i requires 0 <= i < 1 => (WxKey([item][i]), WxPool([item][i])));
    assert ps[..0] == [];
    assert Build(ps) == Put(Build([]), item.address, WxPool(item)) == ps;
  }

  /** When only the first source succeeds, the merge is its values. */
  lemma MergeFirstOnly(t: Table<Pool>, e: string)
    ensures Merge([Success(t), Failure(e), Failure(e), Failure(e)]) == Values(t)
  {
    var outcomes := [Success(t), Failure(e), Failure(e), Failure(e)];
    assert Merge(outcomes[..1]) == Values(t) by {
      assert outcomes[..1][..0] == [];
    }
    assert Merge(outcomes[..2]) == Values(t) by {
      assert outcomes[..2][..1] == outcomes[..1];
    }
    assert Merge(outcomes[..3]) == Values(t) by {
      assert outcomes[..3][..2] == outcomes[..2];
    }
    assert outcomes[..3] == outcomes[..|outcomes| - 1];
  }

  /** With only one WX pool delivered, that pool is the whole ranking. */
  lemma OnlyWxRanked(item: WxItem)
    requires |item.baseApys| > 0
    ensures Ranked(OnlyWx(item)) == [WxPool(item)]
  {
    var p := WxPool(item);
    var t := [(item.address, p)];
    SingleWxTable(item);
    assert ParsAll(OnlyWx(item)) == [Success(t), Failure("request failed"), Failure("request failed"), Failure("request failed")];
    MergeFirstOnly(t, "request failed");
    assert Values(t) == [p];
    assert SortByApr([p]) == [p] by {
      assert [p][..0] == [];
    }
  }

  /** One WX pool while the asset service is down: the code as written answers
      `[]`, the intended fallback still lists the pool. */
  lemma AssetOutageEmptiesResponse(item: WxItem)
    requires |item.baseApys| > 0
    ensures Start(OnlyWx(item), NoAssets) == []
    ensures StartIntended(OnlyWx(item), NoAssets) == [Raw(WxPool(item))]
  {
    OnlyWxRanked(item);
    assert Print(WxPool(item), NoAssets).Failure?;
    StartLosesAllOnOneFailure(OnlyWx(item), NoAssets, 0);
  }
}

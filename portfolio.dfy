/** The portfolio engine of the dashboard: turning an account snapshot pushed by the
    server into a portfolio view (normalizePortfolio), and re-pricing that view against
    the latest price map (recalcPortfolioWithPrices). Both are pure transforms. */
module Portfolio {
  import opened Wrappers
  import opened Money

  type Ticker = string

  /** The `prices` state: the latest known price per ticker. */
  type PriceMap = map<Ticker, real>

  /** One position as the dashboard displays it; `currentPrice` and `unrealized` are derived. */
  datatype Holding = Holding(ticker: Ticker, qty: real, avgCost: real, currentPrice: real, unrealized: real)

  /** The `portfolio` state. */
  datatype PortfolioView = PortfolioView(cash: real, realized: real, holdings: seq<Holding>, unrealized: real)

  /** One record of the rich snapshot shape; its numbers are read with `||`, so an
      absent or falsy number is `None`. */
  datatype RawHolding = RawHolding(
    ticker: Ticker,
    qty: Option<real>,
    avgCost: Option<real>,
    currentPrice: Option<real>,
    unrealized: Option<real>)

  /** One `[ticker, qty]` pair of a legacy holdings object, in `Object.entries` order. */
  datatype LegacyEntry = LegacyEntry(ticker: Ticker, qty: Option<real>)

  /** The `holdings` field of a snapshot: an array of records, a legacy object from
      ticker to quantity, or anything else (absent, null, a primitive). */
  datatype RawHoldings =
    | Rich(records: seq<RawHolding>)
    | Legacy(entries: seq<LegacyEntry>)
    | Other

  /** A snapshot as the server sends it; a snapshot that is itself absent is `None`
      at the call sites. Its numbers are read with `??`: `None` is null or undefined,
      and a 0 is `Some(0.0)`. */
  datatype RawSnapshot = RawSnapshot(
    cash: Option<real>,
    realized: Option<real>,
    holdings: RawHoldings,
    unrealized: Option<real>)

  const EmptyPortfolio := PortfolioView(0.0, 0.0, [], 0.0)

  /** The `reduce` over holdings' unrealized values, folded from the left. */
  function Sum(hs: seq<Holding>): (total: real)
  {
    if hs == [] then 0.0 else Sum(hs[..|hs| - 1]) + hs[|hs| - 1].unrealized
  }

  // ---------------------------------------------------------------------------
  // normalizePortfolio
  // ---------------------------------------------------------------------------

  function FromRecord(raw: RawHolding): (h: Holding)
  {
    Holding(raw.ticker, raw.qty.GetOr(0.0), raw.avgCost.GetOr(0.0),
            raw.currentPrice.GetOr(0.0), raw.unrealized.GetOr(0.0))
  }

  function FromEntry(e: LegacyEntry): (h: Holding)
  {
    Holding(e.ticker, e.qty.GetOr(0.0), 0.0, 0.0, 0.0)
  }

  function NormalizeHoldings(raw: RawHoldings): (hs: seq<Holding>)
  {
    match raw
    case Rich(records) => seq(|records|, i requires 0 <= i < |records| => FromRecord(records[i]))
    case Legacy(entries) => seq(|entries|, i requires 0 <= i < |entries| => FromEntry(entries[i]))
    case Other => []
  }

  /** normalizePortfolio: an absent snapshot gives the empty portfolio; otherwise
      holdings keep the shape's length and order with missing numbers read as 0,
      legacy entries carry only a quantity, absent cash and realized read as 0, and
      an absent total is the sum of the holdings' unrealized values. */
  function Normalize(s: Option<RawSnapshot>): (p: PortfolioView)
    ensures s.None? ==> p == EmptyPortfolio
    ensures s.Some? ==> p.cash == s.value.cash.GetOr(0.0) && p.realized == s.value.realized.GetOr(0.0)
    ensures s.Some? && s.value.holdings.Rich? ==>
      var recs := s.value.holdings.records;
      && |p.holdings| == |recs|
      && forall i :: 0 <= i < |recs| ==>
        && p.holdings[i].ticker == recs[i].ticker
        && p.holdings[i].qty == recs[i].qty.GetOr(0.0)
        && p.holdings[i].avgCost == recs[i].avgCost.GetOr(0.0)
        && p.holdings[i].currentPrice == recs[i].currentPrice.GetOr(0.0)
        && p.holdings[i].unrealized == recs[i].unrealized.GetOr(0.0)
    ensures s.Some? && s.value.holdings.Legacy? ==>
      var entries := s.value.holdings.entries;
      && |p.holdings| == |entries|
      && forall i :: 0 <= i < |entries| ==>
        p.holdings[i] == Holding(entries[i].ticker, entries[i].qty.GetOr(0.0), 0.0, 0.0, 0.0)
    ensures s.Some? && s.value.holdings.Other? ==> p.holdings == []
    ensures s.Some? ==> p.unrealized == s.value.unrealized.GetOr(Sum(p.holdings))
  {
    match s
    case None => EmptyPortfolio
    case Some(snap) =>
      var holdings := NormalizeHoldings(snap.holdings);
      PortfolioView(snap.cash.GetOr(0.0), snap.realized.GetOr(0.0), holdings,
                    snap.unrealized.GetOr(Sum(holdings)))
  }

  /** A portfolio view written back as a snapshot with every field present. */
  function AsSnapshot(p: PortfolioView): (s: RawSnapshot)
  {
    RawSnapshot(Some(p.cash), Some(p.realized),
                Rich(seq(|p.holdings|, i requires 0 <= i < |p.holdings| =>
                  var h := p.holdings[i];
                  RawHolding(h.ticker, Some(h.qty), Some(h.avgCost), Some(h.currentPrice), Some(h.unrealized)))),
                Some(p.unrealized))
  }

  /** Normalising a view that is already normal gives it back unchanged. */
  lemma NormalizeRoundTrip(p: PortfolioView)
    ensures Normalize(Some(AsSnapshot(p))) == p
  {
  }

  /** Hence normalisation is idempotent. */
  lemma NormalizeIdempotent(s: Option<RawSnapshot>)
    ensures Normalize(Some(AsSnapshot(Normalize(s)))) == Normalize(s)
  {
  }

  lemma {:induction false} SumOfZeros(hs: seq<Holding>)
    requires forall i :: 0 <= i < |hs| ==> hs[i].unrealized == 0.0
    ensures Sum(hs) == 0.0
  {
    if hs != [] {
      SumOfZeros(hs[..|hs| - 1]);
    }
  }

  /** A legacy snapshot without a total normalises to a total of 0 and to holdings
      that carry no cost basis, no price and no profit. */
  lemma LegacySnapshotHasZeroTotal(s: RawSnapshot)
    requires s.holdings.Legacy? && s.unrealized.None?
    ensures Normalize(Some(s)).unrealized == 0.0
    ensures forall h :: h in Normalize(Some(s)).holdings ==>
      h.avgCost == 0.0 && h.currentPrice == 0.0 && h.unrealized == 0.0
  {
    SumOfZeros(Normalize(Some(s)).holdings);
  }

  /** The legacy snapshot `{GOOG: 5}` gives one GOOG holding of 5 with nothing unrealized. */
  lemma LegacyScenario()
    ensures Normalize(Some(RawSnapshot(None, None, Legacy([LegacyEntry("GOOG", Some(5.0))]), None)))
         == PortfolioView(0.0, 0.0, [Holding("GOOG", 5.0, 0.0, 0.0, 0.0)], 0.0)
  {
  }

  // ---------------------------------------------------------------------------
  // recalcPortfolioWithPrices
  // ---------------------------------------------------------------------------

  /** The price a holding is valued at: the map's price when its ticker is a key
      (any value, 0 included), otherwise the price it already carries. */
  function PriceFor(h: Holding, prices: PriceMap): (price: real)
  {
    if h.ticker in prices then prices[h.ticker] else h.currentPrice
  }

  /** The unrealized profit of `qty` units bought at `avgCost` and valued at `price`,
      rounded to cents. */
  function Profit(price: real, avgCost: real, qty: real): (pnl: real)
  {
    Round2((price - avgCost) * qty)
  }

  /** A holding whose unrealized value is the rounded profit at its current price. */
  predicate Priced(h: Holding)
  {
    h.unrealized == Profit(h.currentPrice, h.avgCost, h.qty)
  }

  /** A view whose holdings are all priced and whose total is the rounded sum of them. */
  predicate Consistent(p: PortfolioView)
  {
    && (forall i :: 0 <= i < |p.holdings| ==> Priced(p.holdings[i]))
    && p.unrealized == Round2(Sum(p.holdings))
  }

  /** Two holdings that agree on ticker, quantity and cost basis. */
  predicate SameBasis(a: Holding, b: Holding)
  {
    a.ticker == b.ticker && a.qty == b.qty && a.avgCost == b.avgCost
  }

  function Reprice(h: Holding, prices: PriceMap): (r: Holding)
    ensures Priced(r) && SameBasis(r, h) && r.currentPrice == PriceFor(h, prices)
  {
    var price := PriceFor(h, prices);
    Holding(h.ticker, h.qty, h.avgCost, price, Profit(price, h.avgCost, h.qty))
  }

  lemma {:induction false} SumOfCents(hs: seq<Holding>)
    requires forall i :: 0 <= i < |hs| ==> IsCents(hs[i].unrealized)
    ensures IsCents(Sum(hs))
  {
    if hs != [] {
      SumOfCents(hs[..|hs| - 1]);
      CentsAdd(Sum(hs[..|hs| - 1]), hs[|hs| - 1].unrealized);
    }
  }

  /** recalcPortfolioWithPrices: every holding keeps its ticker, quantity, cost basis
      and position, takes the price the map gives it (or keeps its own) and gets the
      rounded profit at that price; cash and realized are untouched; the total is
      the rounded sum of the rounded holdings, which is that sum exactly. */
  function Recalc(p: PortfolioView, prices: PriceMap): (r: PortfolioView)
    ensures Consistent(r)
    ensures r.cash == p.cash && r.realized == p.realized
    ensures |r.holdings| == |p.holdings|
    ensures forall i :: 0 <= i < |p.holdings| ==>
      && SameBasis(r.holdings[i], p.holdings[i])
      && r.holdings[i].currentPrice == PriceFor(p.holdings[i], prices)
    ensures r.unrealized == Sum(r.holdings)
  {
    var holdings := seq(|p.holdings|, i requires 0 <= i < |p.holdings| => Reprice(p.holdings[i], prices));
    SumOfCents(holdings);
    Round2OfCents(Sum(holdings));
    p.(holdings := holdings, unrealized := Round2(Sum(holdings)))
  }

  /** For one holding: the later map's price wins, then the earlier map's, then its own. */
  lemma RepriceCompose(h: Holding, prices: PriceMap, later: PriceMap)
    ensures Reprice(Reprice(h, prices), later) == Reprice(h, prices + later)
  {
  }

  /** Re-pricing with P and then with Q is re-pricing once with P merged with Q:
      a later price wins, and a ticker neither map mentions keeps its own price. */
  lemma RecalcCompose(p: PortfolioView, prices: PriceMap, later: PriceMap)
    ensures Recalc(Recalc(p, prices), later) == Recalc(p, prices + later)
  {
    var twice := Recalc(Recalc(p, prices), later);
    var once := Recalc(p, prices + later);
    forall i | 0 <= i < |p.holdings|
      ensures twice.holdings[i] == once.holdings[i]
    {
      RepriceCompose(p.holdings[i], prices, later);
    }
    assert twice.holdings == once.holdings;
  }

  /** Re-pricing twice with the same prices gives the same view as once. */
  lemma RecalcIdempotent(p: PortfolioView, prices: PriceMap)
    ensures Recalc(Recalc(p, prices), prices) == Recalc(p, prices)
  {
  }

  /** Only the prices of held tickers matter: a tick for another instrument changes nothing. */
  lemma RecalcReadsOnlyHeldTickers(p: PortfolioView, prices: PriceMap, other: PriceMap)
    requires forall h :: h in p.holdings ==>
      (h.ticker in prices <==> h.ticker in other) && (h.ticker in prices ==> prices[h.ticker] == other[h.ticker])
    ensures Recalc(p, prices) == Recalc(p, other)
  {
    var a, b := Recalc(p, prices), Recalc(p, other);
    forall i | 0 <= i < |p.holdings|
      ensures a.holdings[i] == b.holdings[i]
    {
      assert p.holdings[i] in p.holdings;
      assert PriceFor(p.holdings[i], prices) == PriceFor(p.holdings[i], other);
    }
    assert a.holdings == b.holdings;
  }

  /** A consistent view is a fixed point of re-pricing without prices. */
  lemma RecalcFixesConsistent(p: PortfolioView)
    requires Consistent(p)
    ensures Recalc(p, map[]) == p
  {
  }

  /** A snapshot arriving before or after a price delta ends in the same view, once
      both are applied: the order of the two events does not matter. */
  lemma SnapshotAndDeltaCommute(s: Option<RawSnapshot>, prices: PriceMap, delta: PriceMap)
    ensures Recalc(Recalc(Normalize(s), prices), prices + delta) == Recalc(Normalize(s), prices + delta)
  {
    RecalcCompose(Normalize(s), prices, prices + delta);
    assert prices + (prices + delta) == prices + delta;
  }

  /** Each holding is rounded before the total is taken: two positions with a raw
      profit of 0.005 each are worth 0.01 each and 0.02 together, whereas rounding
      the raw sum would give 0.01. */
  lemma RoundingPerHoldingFirst()
    ensures
      var h := Holding("GOOG", 1.0, 0.0, 0.0, 0.0);
      var p := Recalc(PortfolioView(0.0, 0.0, [h, h.(ticker := "TSLA")], 0.0), map["GOOG" := 0.005, "TSLA" := 0.005]);
      p.unrealized == 0.02 && Round2(0.005 + 0.005) == 0.01
  {
    var h := Holding("GOOG", 1.0, 0.0, 0.0, 0.0);
    var p := Recalc(PortfolioView(0.0, 0.0, [h, h.(ticker := "TSLA")], 0.0), map["GOOG" := 0.005, "TSLA" := 0.005]);
    assert NearestCents(0.005) == 1;
    assert Round2(0.005) == 0.01;
    assert NearestCents(0.01) == 1;
    assert Round2(0.01) == 0.01;
    assert p.holdings[0].unrealized == 0.01 && p.holdings[1].unrealized == 0.01;
    assert p.holdings[..1] == [p.holdings[0]];
    assert [p.holdings[0]][..0] == [];
    assert Sum(p.holdings[..1]) == 0.01;
    assert Sum(p.holdings) == 0.02;
    assert NearestCents(0.02) == 2;
  }

  /** avg_cost 100, qty 10, price 115 is an unrealized profit of 150.00. */
  lemma ProfitScenario()
    ensures Recalc(PortfolioView(0.0, 0.0, [Holding("GOOG", 10.0, 100.0, 0.0, 0.0)], 0.0), map["GOOG" := 115.0])
         == PortfolioView(0.0, 0.0, [Holding("GOOG", 10.0, 100.0, 115.0, 150.0)], 150.0)
  {
  }
}

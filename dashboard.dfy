/** The dashboard's state and the server events that change it.

    DashboardState is the component of the two earlier versions of Dashboard.js: a
    price delta is merged into the price map and the portfolio is re-priced from the
    merged map, a full price snapshot replaces the map and re-prices, history applies
    to the selected ticker only, and an account snapshot is normalised and priced.

    LiveDashboardState is the current version: every event replaces its piece of state
    as it arrives, and the trending signal is derived from the history on demand. */
module Dashboard {
  import opened Wrappers
  import opened Portfolio
  import opened Money
  import Trend

  /** The reply to a one-time history request; a `series` that is not an array is `None`. */
  datatype HistoryReply = HistoryReply(ticker: Ticker, series: Option<seq<real>>)

  /** A periodic history push: for each key with a truthy value, `Some(series)` when the
      value is an array and `None` otherwise. Keys with a falsy value are absent. */
  type HistoryPush = map<Ticker, Option<seq<real>>>

  class DashboardState {
    var prices: PriceMap
    var portfolio: PortfolioView
    /** The selected ticker; "" stands for none selected. */
    var selected: Ticker
    /** The chart series of the selected ticker. */
    var history: seq<real>

    /** The last account snapshot applied, and for every ticker the latest price
        received since then. */
    ghost var snapshot: Option<RawSnapshot>
    ghost var seen: PriceMap

    /** The portfolio is always the last snapshot priced at the latest price received
        for each ticker (or at its own price when none was received), and every price
        in the map is such a latest price. */
    ghost predicate Valid()
      reads this
    {
      && portfolio == Recalc(Normalize(snapshot), seen)
      && prices.Keys <= seen.Keys
      && forall t :: t in prices ==> seen[t] == prices[t]
    }

    constructor ()
      ensures Valid()
      ensures prices == map[] && portfolio == EmptyPortfolio && selected == "GOOG" && history == []
      ensures snapshot == None && seen == map[]
    {
      prices := map[];
      portfolio := EmptyPortfolio;
      selected := "GOOG";
      history := [];
      snapshot := None;
      seen := map[];
      assert Recalc(EmptyPortfolio, map[]).holdings == [];
    }

    /** stockUpdate: a non-object payload changes nothing; otherwise each payload key
        takes the payload's price, every other key keeps its price, and the portfolio
        is re-priced from the merged map. */
    method StockUpdate(payload: Option<PriceMap>)
      requires Valid()
      modifies this
      ensures Valid()
      ensures payload.None? ==> prices == old(prices) && portfolio == old(portfolio)
      ensures payload.Some? ==>
        && prices.Keys == old(prices).Keys + payload.value.Keys
        && (forall t :: t in payload.value ==> prices[t] == payload.value[t])
        && (forall t :: t in old(prices) && t !in payload.value ==> prices[t] == old(prices)[t])
        && portfolio == Recalc(old(portfolio), prices)
      ensures payload.Some? ==> prices == old(prices) + payload.value
      ensures selected == old(selected) && history == old(history)
      ensures snapshot == old(snapshot)
      ensures seen == if payload.Some? then old(seen) + prices else old(seen)
    {
      if payload.Some? {
        var merged := prices + payload.value;
        RecalcCompose(Normalize(snapshot), seen, merged);
        prices := merged;
        portfolio := Recalc(portfolio, merged);
        seen := seen + merged;
      }
    }

    /** prices: a non-object payload changes nothing; otherwise the map is replaced
        outright and the portfolio re-priced from it. */
    method PricesSnapshot(all: Option<PriceMap>)
      requires Valid()
      modifies this
      ensures Valid()
      ensures all.None? ==> prices == old(prices) && portfolio == old(portfolio)
      ensures all.Some? ==> prices == all.value && portfolio == Recalc(old(portfolio), all.value)
      ensures selected == old(selected) && history == old(history)
      ensures snapshot == old(snapshot)
      ensures seen == if all.Some? then old(seen) + all.value else old(seen)
    {
      if all.Some? {
        RecalcCompose(Normalize(snapshot), seen, all.value);
        prices := all.value;
        portfolio := Recalc(portfolio, all.value);
        seen := seen + all.value;
      }
    }

    /** history: a reply for the selected ticker replaces the chart series (an empty one
        when the reply is not an array); a reply for another ticker is dropped. */
    method History(reply: HistoryReply)
      requires Valid()
      modifies this
      ensures Valid()
      ensures history == if reply.ticker == selected then reply.series.GetOr([]) else old(history)
      ensures prices == old(prices) && portfolio == old(portfolio) && selected == old(selected)
      ensures snapshot == old(snapshot) && seen == old(seen)
    {
      if reply.ticker == selected {
        history := reply.series.GetOr([]);
      }
    }

    /** historyUpdate: a non-object payload, no selected ticker, or no truthy entry for
        it change nothing; otherwise the selected ticker's entry replaces the series. */
    method HistoryUpdate(payload: Option<HistoryPush>)
      requires Valid()
      modifies this
      ensures Valid()
      ensures history ==
        if payload.Some? && selected != "" && selected in payload.value
        then payload.value[selected].GetOr([]) else old(history)
      ensures prices == old(prices) && portfolio == old(portfolio) && selected == old(selected)
      ensures snapshot == old(snapshot) && seen == old(seen)
    {
      if payload.Some? && selected != "" && selected in payload.value {
        history := payload.value[selected].GetOr([]);
      }
    }

    /** portfolioUpdate (and the portfolio in a successful /me, /trade or /deposit
        response): the snapshot is normalised and priced with the current prices. */
    method PortfolioUpdate(p: Option<RawSnapshot>)
      requires Valid()
      modifies this
      ensures Valid()
      ensures portfolio == Recalc(Normalize(p), prices)
      ensures prices == old(prices) && selected == old(selected) && history == old(history)
      ensures snapshot == p && seen == prices
    {
      portfolio := Recalc(Normalize(p), prices);
      snapshot := p;
      seen := prices;
    }

    /** A click on a ticker selects it. */
    method Select(t: Ticker)
      requires Valid()
      modifies this
      ensures Valid()
      ensures selected == t
      ensures prices == old(prices) && portfolio == old(portfolio) && history == old(history)
      ensures snapshot == old(snapshot) && seen == old(seen)
    {
      selected := t;
    }
  }

  /** Starting from any price map, whichever of a snapshot and a price delta is
      processed last, the portfolio ends the same: the snapshot priced at the prior
      prices merged with the delta. */
  method SnapshotDeltaOrder(p: Option<RawSnapshot>, prior: PriceMap, delta: PriceMap)
    returns (snapshotFirst: PortfolioView, deltaFirst: PortfolioView)
    ensures snapshotFirst == deltaFirst == Recalc(Normalize(p), prior + delta)
  {
    var a := new DashboardState();
    a.PricesSnapshot(Some(prior));
    a.PortfolioUpdate(p);
    a.StockUpdate(Some(delta));
    assert a.prices == prior + delta;
    SnapshotAndDeltaCommute(p, prior, delta);
    var b := new DashboardState();
    b.PricesSnapshot(Some(prior));
    b.StockUpdate(Some(delta));
    b.PortfolioUpdate(p);
    assert b.prices == prior + delta;
    snapshotFirst, deltaFirst := a.portfolio, b.portfolio;
  }

  /** A TSLA tick of 250 re-prices a TSLA holding of 2 bought at 200 to an unrealized
      100.00 at once, and the total with it. */
  method TslaTick() returns (view: PortfolioView)
    ensures |view.holdings| == 1 && view.holdings[0].currentPrice == 250.0
    ensures view.holdings[0].unrealized == 100.0 && view.unrealized == 100.0 && view.cash == 1000.0
  {
    var d := new DashboardState();
    d.PortfolioUpdate(Some(RawSnapshot(Some(1000.0), None, Rich([RawHolding("TSLA", Some(2.0), Some(200.0), None, None)]), None)));
    d.StockUpdate(Some(map["TSLA" := 250.0]));
    assert d.prices["TSLA"] == 250.0;
    assert NearestCents(100.0) == 10000;
    assert d.portfolio.holdings[0].unrealized == 100.0;
    assert d.portfolio.holdings[..0] == [] && d.portfolio.holdings[..1] == d.portfolio.holdings;
    assert d.portfolio.unrealized == 100.0;
    view := d.portfolio;
  }

  class LiveDashboardState {
    var prices: PriceMap
    var history: Trend.History
    /** The account snapshot exactly as received; `None` before the first one. */
    var portfolio: Option<RawSnapshot>
    var selected: Ticker

    constructor ()
      ensures prices == map[] && history == map[] && portfolio == None && selected == "GOOG"
    {
      prices := map[];
      history := map[];
      portfolio := None;
      selected := "GOOG";
    }

    /** stockUpdate: the payload replaces the price map. */
    method StockUpdate(payload: PriceMap)
      modifies this
      ensures prices == payload
      ensures history == old(history) && portfolio == old(portfolio) && selected == old(selected)
    {
      prices := payload;
    }

    /** historyUpdate: the payload replaces the history map. */
    method HistoryUpdate(payload: Trend.History)
      modifies this
      ensures history == payload
      ensures prices == old(prices) && portfolio == old(portfolio) && selected == old(selected)
    {
      history := payload;
    }

    /** portfolioUpdate (and the /me response): the snapshot replaces the portfolio. */
    method PortfolioUpdate(p: Option<RawSnapshot>)
      modifies this
      ensures portfolio == p
      ensures prices == old(prices) && history == old(history) && selected == old(selected)
    {
      portfolio := p;
    }

    /** A click on a ticker card selects it. */
    method Select(t: Ticker)
      modifies this
      ensures selected == t
      ensures prices == old(prices) && history == old(history) && portfolio == old(portfolio)
    {
      selected := t;
    }

    /** The trending signal over the fixed ticker list and the current history, computed
        as the live code does, without a guard on a window that starts at 0. When no
        such window exists it is the guarded detector's signal. */
    method Trending() returns (signal: Option<(Ticker, Trend.Pct)>)
      ensures signal == Trend.SignalAsWritten(Trend.ScanAsWritten(Trend.Tickers, history))
      ensures (forall i :: 0 <= i < |Trend.Tickers| && Trend.HasWindow(history, Trend.Tickers[i]) ==>
                 Trend.Base(history, Trend.Tickers[i]) != 0.0) ==>
        signal ==
          (var s := Trend.SignalOf(Trend.Scan(Trend.Tickers, history));
           if s.Some? then Some((s.value.ticker, Trend.Finite(s.value.pct))) else None)
    {
      signal := Trend.TrendingAsWritten(Trend.Tickers, history);
      if forall i :: 0 <= i < |Trend.Tickers| && Trend.HasWindow(history, Trend.Tickers[i]) ==>
           Trend.Base(history, Trend.Tickers[i]) != 0.0 {
        Trend.AsWrittenAgreesWithoutZeroBase(Trend.Tickers, history);
      }
    }
  }
}

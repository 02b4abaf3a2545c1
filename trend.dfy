/** The "trending" detector of the live dashboard: over a fixed list of tickers, the
    one whose price rose the most, in percent, between the sixth-last and the last
    sample of its history. The loop keeps the best ticker so far and its change, and
    a later ticker replaces it only on a strictly larger change. */
module Trend {
  import opened Wrappers
  import opened Money

  type Ticker = string

  /** The `history` state of the live dashboard: a price series per ticker, oldest first. */
  type History = map<Ticker, seq<real>>

  /** The tickers the detector scans, in this order. */
  const Tickers: seq<Ticker> := ["GOOG", "TSLA", "AMZN", "META", "NVDA"]

  /** The window spans the last `Lookback` samples. */
  const Lookback: nat := 6

  datatype TrendSignal = TrendSignal(ticker: Ticker, pct: real)

  /** The ticker has at least `Lookback` samples. */
  predicate HasWindow(history: History, t: Ticker)
  {
    t in history && |history[t]| >= Lookback
  }

  /** The sample the change is measured from. */
  function Base(history: History, t: Ticker): (base: real)
    requires HasWindow(history, t)
  {
    history[t][|history[t]| - Lookback]
  }

  /** The latest sample. */
  function Latest(history: History, t: Ticker): (cur: real)
    requires HasWindow(history, t)
  {
    history[t][|history[t]| - 1]
  }

  /** The ticker has a window whose base is not 0, so that its change is defined. */
  predicate Measurable(history: History, t: Ticker)
  {
    HasWindow(history, t) && Base(history, t) != 0.0
  }

  /** The percentage change over the window. */
  function Change(history: History, t: Ticker): (pct: real)
    requires Measurable(history, t)
  {
    (Latest(history, t) - Base(history, t)) / Base(history, t) * 100.0
  }

  /** The ticker's change is defined and strictly positive. */
  predicate Rising(history: History, t: Ticker)
  {
    Measurable(history, t) && Change(history, t) > 0.0
  }

  // ---------------------------------------------------------------------------
  // The detector, with a base of 0 skipped
  // ---------------------------------------------------------------------------

  /** The `bestPct` of a loop state: 0 until a ticker is recorded. */
  function BestPct(best: Option<(Ticker, real)>): (pct: real)
  {
    if best.Some? then best.value.1 else 0.0
  }

  /** One iteration: the ticker replaces the best so far only on a strictly larger change. */
  function Step(best: Option<(Ticker, real)>, history: History, t: Ticker): (next: Option<(Ticker, real)>)
  {
    if Measurable(history, t) && Change(history, t) > BestPct(best) then Some((t, Change(history, t)))
    else best
  }

  /** The loop state after scanning `ts` in order. */
  function Scan(ts: seq<Ticker>, history: History): (best: Option<(Ticker, real)>)
  {
    if ts == [] then None else Step(Scan(ts[..|ts| - 1], history), history, ts[|ts| - 1])
  }

  /** The detector's answer for a final loop state, its change rounded to cents. */
  function SignalOf(best: Option<(Ticker, real)>): (signal: Option<TrendSignal>)
  {
    if best.Some? then Some(TrendSignal(best.value.0, Round2(best.value.1))) else None
  }

  /** Position `k` of `ts` holds the first ticker with the largest change, and it rose. */
  predicate Leads(ts: seq<Ticker>, history: History, k: int)
  {
    && 0 <= k < |ts|
    && Rising(history, ts[k])
    && (forall j :: 0 <= j < |ts| && Measurable(history, ts[j]) ==> Change(history, ts[j]) <= Change(history, ts[k]))
    && (forall j :: 0 <= j < k && Measurable(history, ts[j]) ==> Change(history, ts[j]) < Change(history, ts[k]))
  }

  /** The scan records nothing exactly when no ticker rose; otherwise it records the
      first ticker, in list order, with the largest change, together with that change. */
  lemma {:induction false} ScanFindsFirstLargestRise(ts: seq<Ticker>, history: History)
    ensures Scan(ts, history).None? <==> forall i :: 0 <= i < |ts| ==> !Rising(history, ts[i])
    ensures Scan(ts, history).Some? ==>
      exists k :: Leads(ts, history, k) && ts[k] == Scan(ts, history).value.0
                  && Scan(ts, history).value.1 == Change(history, ts[k])
  {
    if ts != [] {
      var n := |ts| - 1;
      var front := ts[..n];
      ScanFindsFirstLargestRise(front, history);
      var acc := Scan(front, history);
      if acc.Some? {
        var k :| Leads(front, history, k) && front[k] == acc.value.0 && acc.value.1 == Change(history, front[k]);
        if Measurable(history, ts[n]) && Change(history, ts[n]) > acc.value.1 {
          assert Leads(ts, history, n);
        } else {
          assert Leads(ts, history, k);
        }
      } else if Rising(history, ts[n]) {
        assert Leads(ts, history, n);
      }
    }
  }

  /** trending: the first ticker of `tickers` with the largest strictly positive change
      over its last six samples, with that change rounded to cents; none when no
      ticker rose. Tickers with fewer than six samples or a base of 0 are skipped. */
  method Trending(tickers: seq<Ticker>, history: History) returns (signal: Option<TrendSignal>)
    ensures signal == SignalOf(Scan(tickers, history))
    ensures signal.None? <==> forall i :: 0 <= i < |tickers| ==> !Rising(history, tickers[i])
    ensures signal.Some? ==>
      exists k :: Leads(tickers, history, k) && tickers[k] == signal.value.ticker
                  && signal.value.pct == Round2(Change(history, tickers[k]))
  {
    var best: Option<Ticker> := None;
    var bestPct := 0.0;
    for i := 0 to |tickers|
      invariant Scan(tickers[..i], history) == if best.Some? then Some((best.value, bestPct)) else None
      invariant best.None? ==> bestPct == 0.0
    {
      var t := tickers[i];
      assert tickers[..i + 1][..i] == tickers[..i];
      if t in history && |history[t]| >= Lookback {
        var h := history[t];
        var base := h[|h| - Lookback];
        var cur := h[|h| - 1];
        if base != 0.0 {
          var pct := (cur - base) / base * 100.0;
          if pct > bestPct {
            bestPct := pct;
            best := Some(t);
          }
        }
      }
    }
    assert tickers[..|tickers|] == tickers;
    signal := if best.Some? then Some(TrendSignal(best.value, Round2(bestPct))) else None;
    ScanFindsFirstLargestRise(tickers, history);
  }

  /** GOOG rising from 100 to 110 over six samples is a 10.00 percent trend when no
      other ticker has a window. */
  lemma GoogScenario()
    ensures SignalOf(Scan(Tickers, map["GOOG" := [100.0, 101.0, 102.0, 103.0, 104.0, 110.0]]))
         == Some(TrendSignal("GOOG", 10.0))
  {
    var history := map["GOOG" := [100.0, 101.0, 102.0, 103.0, 104.0, 110.0]];
    assert Change(history, "GOOG") == 10.0;
    assert Tickers[..1] == ["GOOG"] && ["GOOG"][..0] == [];
    assert Scan(Tickers[..1], history) == Some(("GOOG", 10.0));
    assert Tickers[..2][..1] == Tickers[..1];
    assert Scan(Tickers[..2], history) == Some(("GOOG", 10.0));
    assert Tickers[..3][..2] == Tickers[..2];
    assert Scan(Tickers[..3], history) == Some(("GOOG", 10.0));
    assert Tickers[..4][..3] == Tickers[..3];
    assert Scan(Tickers[..4], history) == Some(("GOOG", 10.0));
    assert Tickers[..5][..4] == Tickers[..4];
    assert Tickers[..5] == Tickers;
    assert NearestCents(10.0) == 1000;
    assert Round2(10.0) == 10.0;
  }

  /** With five samples per ticker there is no window, hence no trend. */
  lemma ShortHistoriesScenario(history: History)
    requires forall t :: t in history ==> |history[t]| == 5
    ensures SignalOf(Scan(Tickers, history)) == None
  {
    ScanFindsFirstLargestRise(Tickers, history);
  }

  // ---------------------------------------------------------------------------
  // The detector as the source writes it: no guard on a base of 0
  // ---------------------------------------------------------------------------

  /** A JavaScript number as the percentage computation can produce it. */
  datatype Pct = Finite(v: real) | PosInf | NegInf | NaN

  /** `((cur - base) / base) * 100` in JavaScript: a division by 0 gives an infinity of
      the numerator's sign, or NaN when the numerator is 0 too. */
  function PctOf(base: real, cur: real): (pct: Pct)
  {
    if base != 0.0 then Finite((cur - base) / base * 100.0)
    else if cur > 0.0 then PosInf
    else if cur < 0.0 then NegInf
    else NaN
  }

  /** JavaScript's `a > b` on such numbers. */
  predicate Above(a: Pct, b: Pct)
  {
    match (a, b)
    case (NaN, _) => false
    case (_, NaN) => false
    case (NegInf, _) => false
    case (_, PosInf) => false
    case (PosInf, _) => true
    case (Finite(x), NegInf) => true
    case (Finite(x), Finite(y)) => x > y
  }

  /** One iteration of the unguarded loop on the state (`best`, `bestPct`). */
  function StepAsWritten(state: (Option<Ticker>, Pct), history: History, t: Ticker): (next: (Option<Ticker>, Pct))
  {
    if HasWindow(history, t) && Above(PctOf(Base(history, t), Latest(history, t)), state.1)
    then (Some(t), PctOf(Base(history, t), Latest(history, t)))
    else state
  }

  function ScanAsWritten(ts: seq<Ticker>, history: History): (state: (Option<Ticker>, Pct))
  {
    if ts == [] then (None, Finite(0.0))
    else StepAsWritten(ScanAsWritten(ts[..|ts| - 1], history), history, ts[|ts| - 1])
  }

  /** `bestPct.toFixed(2)`: a finite change is rounded to cents, an infinity is kept. */
  function Fixed2(p: Pct): (fixed: Pct)
  {
    if p.Finite? then Finite(Round2(p.v)) else p
  }

  function SignalAsWritten(state: (Option<Ticker>, Pct)): (signal: Option<(Ticker, Pct)>)
  {
    if state.0.Some? then Some((state.0.value, Fixed2(state.1))) else None
  }

  /** trending as the live code computes it, without a guard on a base of 0. */
  method TrendingAsWritten(tickers: seq<Ticker>, history: History) returns (signal: Option<(Ticker, Pct)>)
    ensures signal == SignalAsWritten(ScanAsWritten(tickers, history))
  {
    var best: Option<Ticker> := None;
    var bestPct := Finite(0.0);
    for i := 0 to |tickers|
      invariant ScanAsWritten(tickers[..i], history) == (best, bestPct)
    {
      var t := tickers[i];
      assert tickers[..i + 1][..i] == tickers[..i];
      if t in history && |history[t]| >= Lookback {
        var h := history[t];
        var pct := PctOf(h[|h| - Lookback], h[|h| - 1]);
        if Above(pct, bestPct) {
          bestPct := pct;
          best := Some(t);
        }
      }
    }
    assert tickers[..|tickers|] == tickers;
    signal := if best.Some? then Some((best.value, Fixed2(bestPct))) else None;
  }

  /** The unguarded loop in the state of the guarded one. */
  function Embed(best: Option<(Ticker, real)>): (state: (Option<Ticker>, Pct))
  {
    if best.Some? then (Some(best.value.0), Finite(best.value.1)) else (None, Finite(0.0))
  }

  /** When no window starts at a price of 0, the code as written and the guarded
      detector agree step by step. */
  lemma {:induction false} AsWrittenAgreesWithoutZeroBase(ts: seq<Ticker>, history: History)
    requires forall i :: 0 <= i < |ts| && HasWindow(history, ts[i]) ==> Base(history, ts[i]) != 0.0
    ensures ScanAsWritten(ts, history) == Embed(Scan(ts, history))
    ensures SignalAsWritten(ScanAsWritten(ts, history)) ==
      (var s := SignalOf(Scan(ts, history)); if s.Some? then Some((s.value.ticker, Finite(s.value.pct))) else None)
  {
    if ts != [] {
      AsWrittenAgreesWithoutZeroBase(ts[..|ts| - 1], history);
    }
  }

  /** Over the live ticker list, a GOOG window that starts at 0 and ends above it wins
      with an infinite change in the code as written ("+Infinity%"), whereas the guarded
      detector skips it and, with no other window, reports nothing. */
  lemma ZeroBaseWinsAsWritten()
    ensures
      var history := map["GOOG" := [0.0, 0.0, 0.0, 0.0, 0.0, 5.0]];
      && SignalAsWritten(ScanAsWritten(Tickers, history)) == Some(("GOOG", PosInf))
      && SignalOf(Scan(Tickers, history)) == None
  {
    var history := map["GOOG" := [0.0, 0.0, 0.0, 0.0, 0.0, 5.0]];
    assert ScanAsWritten(Tickers[..1], history) == (Some("GOOG"), PosInf);
    assert Scan(Tickers[..1], history) == None;
    assert Tickers[..2][..1] == Tickers[..1];
    assert ScanAsWritten(Tickers[..2], history) == (Some("GOOG"), PosInf);
    assert Scan(Tickers[..2], history) == None;
    assert Tickers[..3][..2] == Tickers[..2];
    assert ScanAsWritten(Tickers[..3], history) == (Some("GOOG"), PosInf);
    assert Scan(Tickers[..3], history) == None;
    assert Tickers[..4][..3] == Tickers[..3];
    assert ScanAsWritten(Tickers[..4], history) == (Some("GOOG"), PosInf);
    assert Scan(Tickers[..4], history) == None;
    assert Tickers[..5][..4] == Tickers[..4];
    assert Tickers[..5] == Tickers;
  }
}

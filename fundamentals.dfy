/** The modelled part of the `/fundamental` endpoint (backend/app.py): the `safe_score`
    mapping of a financial figure onto 0..100, the five financial ratios, the
    competitor list, the AI financial-analysis insight, and the per-ticker cache in
    front of it all. The company information is an input: `None` when fetching it raised,
    otherwise a map from field name to value. */
module Fundamentals {
  import opened Wrappers
  import opened Text
  import Groq
  import TtlCache

  /** A value of the company-information dictionary. */
  datatype InfoValue = Null | Text(s: string) | Num(x: real)

  type Info = map<string, InfoValue>

  /** `info.get(key, default)` */
  function Get(info: Info, key: string, default: real): InfoValue
  {
    if key in info then info[key] else Num(default)
  }

  /** Python's `int(x)` on a float: truncation toward zero. */
  function Trunc(x: real): (r: int)
    ensures x >= 0.0 ==> r >= 0 && r as real <= x < r as real + 1.0
    ensures x < 0.0 ==> r <= 0 && r as real - 1.0 < x <= r as real
  {
    if x >= 0.0 then x.Floor else -((-x).Floor)
  }

  lemma TruncMonotone(x: real, y: real)
    requires x <= y
    ensures Trunc(x) <= Trunc(y)
  {
  }

  /** `max(0, min(100, n))` */
  function Clamp(n: int): (r: int)
    ensures 0 <= r <= 100
    ensures 0 <= n <= 100 ==> r == n
    ensures n < 0 ==> r == 0
    ensures n > 100 ==> r == 100
  {
    if n < 0 then 0 else if n > 100 then 100 else n
  }

  const NotAvailable: string := "N/A"
  const NeutralScore: int := 50

  /** What `float(val)` gives, when it does not raise; `parseFloat` is `float` on a
      string. */
  function AsNumber(val: InfoValue, parseFloat: string -> Option<real>): Option<real>
  {
    match val
    case Null => None
    case Text(s) => parseFloat(s)
    case Num(x) => Some(x)
  }

  /** `safe_score(val, lo, hi)`: the position of `val` in the range from `lo` to `hi` as a
      whole percentage, clamped to 0..100; 50 for a missing or "N/A" value, one that does
      not convert, and an empty range (the division raises). */
  function SafeScore(val: InfoValue, lo: real, hi: real, parseFloat: string -> Option<real>): (r: int)
    ensures 0 <= r <= 100
    ensures val.Null? || val == Text(NotAvailable) ==> r == NeutralScore
    ensures AsNumber(val, parseFloat).None? || lo == hi ==> r == NeutralScore
    ensures !(val.Null? || val == Text(NotAvailable)) && AsNumber(val, parseFloat).Some? && lo != hi ==>
              var t := 100.0 * (AsNumber(val, parseFloat).value - lo) / (hi - lo);
              && (t < 1.0 ==> r == 0)
              && (t >= 100.0 ==> r == 100)
              && (0.0 <= t <= 100.0 ==> r as real <= t < r as real + 1.0)
  {
    if val.Null? || val == Text(NotAvailable) then NeutralScore
    else match AsNumber(val, parseFloat)
      case None => NeutralScore
      case Some(v) =>
        if hi == lo then NeutralScore
        else Clamp(Trunc(100.0 * (v - lo) / (hi - lo)))
  }

  /** The range's ends score 0 and 100. */
  lemma SafeScoreEnds(lo: real, hi: real, parseFloat: string -> Option<real>)
    requires lo != hi
    ensures SafeScore(Num(lo), lo, hi, parseFloat) == 0
    ensures SafeScore(Num(hi), lo, hi, parseFloat) == 100
  {
    assert 100.0 * (lo - lo) / (hi - lo) == 0.0;
    HundredOfItself(hi - lo);
  }

  lemma HundredOfItself(d: real)
    requires d != 0.0
    ensures 100.0 * d / d == 100.0
  {
  }

  /** On a rising range a larger figure never scores lower. */
  lemma SafeScoreMonotone(x: real, y: real, lo: real, hi: real, parseFloat: string -> Option<real>)
    requires lo < hi && x <= y
    ensures SafeScore(Num(x), lo, hi, parseFloat) <= SafeScore(Num(y), lo, hi, parseFloat)
  {
    var d := hi - lo;
    var a, b := 100.0 * (x - lo), 100.0 * (y - lo);
    assert a <= b;
    assert a / d <= b / d by {
      assert b / d - a / d == (b - a) / d;
    }
    TruncMonotone(a / d, b / d);
  }

  /** On a falling range ("lower is better", as for leverage) a larger figure never
      scores higher. */
  lemma SafeScoreReversed(x: real, y: real, lo: real, hi: real, parseFloat: string -> Option<real>)
    requires hi < lo && x <= y
    ensures SafeScore(Num(x), lo, hi, parseFloat) >= SafeScore(Num(y), lo, hi, parseFloat)
  {
    var d := hi - lo;
    var a, b := 100.0 * (x - lo), 100.0 * (y - lo);
    assert a <= b;
    assert b / d <= a / d by {
      assert a / d - b / d == (b - a) / (-d);
    }
    TruncMonotone(b / d, a / d);
  }

  /** One entry of `financial_ratios`. */
  datatype Ratio = Ratio(metric: string, score: int)

  const Liquidity: string := "Liquidity"
  const Leverage: string := "Leverage"
  const Efficiency: string := "Efficiency"
  const Profitability: string := "Profitability"
  const MarketValue: string := "Market Value"

  /** The five ratios with the field each reads, its default and its range. */
  function FinancialRatios(info: Info, parseFloat: string -> Option<real>): (r: seq<Ratio>)
    ensures |r| == 5
    ensures forall i :: 0 <= i < 5 ==> 0 <= r[i].score <= 100
    ensures r[0].metric == Liquidity && r[1].metric == Leverage && r[2].metric == Efficiency
    ensures r[3].metric == Profitability && r[4].metric == MarketValue
    ensures r[0].score == SafeScore(Get(info, "currentRatio", 1.5), 0.5, 3.0, parseFloat)
    ensures r[1].score == SafeScore(Get(info, "debtToEquity", 0.5), 2.0, 0.0, parseFloat)
    ensures r[2].score == SafeScore(Get(info, "assetTurnover", 1.0), 0.2, 2.0, parseFloat)
    ensures r[3].score == SafeScore(Get(info, "grossMargins", 0.3), 0.0, 1.0, parseFloat)
    ensures r[4].score == SafeScore(Get(info, "trailingPE", 20.0), 10.0, 40.0, parseFloat)
  {
    [ Ratio(Liquidity, SafeScore(Get(info, "currentRatio", 1.5), 0.5, 3.0, parseFloat)),
      Ratio(Leverage, SafeScore(Get(info, "debtToEquity", 0.5), 2.0, 0.0, parseFloat)),
      Ratio(Efficiency, SafeScore(Get(info, "assetTurnover", 1.0), 0.2, 2.0, parseFloat)),
      Ratio(Profitability, SafeScore(Get(info, "grossMargins", 0.3), 0.0, 1.0, parseFloat)),
      Ratio(MarketValue, SafeScore(Get(info, "trailingPE", 20.0), 10.0, 40.0, parseFloat)) ]
  }

  /** Company information without any of the five fields scores the defaults. */
  lemma DefaultRatioScores(parseFloat: string -> Option<real>)
    ensures var r := FinancialRatios(map[], parseFloat);
            r[0].score == 40 && r[1].score == 75 && r[2].score == 44 && r[3].score == 30 && r[4].score == 33
  {
    assert (100.0 * (1.0 - 0.2) / (2.0 - 0.2)).Floor == 44;
    assert (100.0 * (20.0 - 10.0) / (40.0 - 10.0)).Floor == 33;
  }

  /** Each ratio follows its own field: a higher current ratio, asset turnover, gross
      margin or P/E never lowers its score, and a higher debt-to-equity never raises the
      Leverage score ("lower is better"). */
  lemma RatiosFollowTheirFields(info: Info, x: real, y: real, parseFloat: string -> Option<real>)
    requires x <= y
    ensures FinancialRatios(info["currentRatio" := Num(x)], parseFloat)[0].score
            <= FinancialRatios(info["currentRatio" := Num(y)], parseFloat)[0].score
    ensures FinancialRatios(info["debtToEquity" := Num(x)], parseFloat)[1].score
            >= FinancialRatios(info["debtToEquity" := Num(y)], parseFloat)[1].score
    ensures FinancialRatios(info["assetTurnover" := Num(x)], parseFloat)[2].score
            <= FinancialRatios(info["assetTurnover" := Num(y)], parseFloat)[2].score
    ensures FinancialRatios(info["grossMargins" := Num(x)], parseFloat)[3].score
            <= FinancialRatios(info["grossMargins" := Num(y)], parseFloat)[3].score
    ensures FinancialRatios(info["trailingPE" := Num(x)], parseFloat)[4].score
            <= FinancialRatios(info["trailingPE" := Num(y)], parseFloat)[4].score
  {
    SafeScoreMonotone(x, y, 0.5, 3.0, parseFloat);
    SafeScoreReversed(x, y, 2.0, 0.0, parseFloat);
    SafeScoreMonotone(x, y, 0.2, 2.0, parseFloat);
    SafeScoreMonotone(x, y, 0.0, 1.0, parseFloat);
    SafeScoreMonotone(x, y, 10.0, 40.0, parseFloat);
  }

  /** The Leverage ratio reads only debt-to-equity: changing another field leaves its
      score as it is. */
  lemma LeverageReadsOnlyDebtToEquity(info: Info, key: string, v: InfoValue, parseFloat: string -> Option<real>)
    requires key != "debtToEquity"
    ensures FinancialRatios(info[key := v], parseFloat)[1].score == FinancialRatios(info, parseFloat)[1].score
  {
    assert Get(info[key := v], "debtToEquity", 0.5) == Get(info, "debtToEquity", 0.5);
  }

  /** The ratios of the static report, kept when the company information cannot be
      fetched. */
  function FallbackRatios(): (r: seq<Ratio>)
    ensures |r| == 5
    ensures r[0] == Ratio(Liquidity, 60) && r[1] == Ratio(Leverage, 70) && r[2] == Ratio(Efficiency, 65)
    ensures r[3] == Ratio(Profitability, 80) && r[4] == Ratio(MarketValue, 55)
  {
    [Ratio(Liquidity, 60), Ratio(Leverage, 70), Ratio(Efficiency, 65), Ratio(Profitability, 80), Ratio(MarketValue, 55)]
  }

  const Peers: seq<string> := ["AAPL", "MSFT", "GOOGL"]

  predicate Distinct(s: seq<string>) {
    forall i, j :: 0 <= i < j < |s| ==> s[i] != s[j]
  }

  /** `[t for t in s if t != x]` */
  function Without(s: seq<string>, x: string): (r: seq<string>)
    ensures forall t :: t in r <==> t in s && t != x
    ensures Distinct(s) ==> Distinct(r) && |r| == |s| - (if x in s then 1 else 0)
  {
    if |s| == 0 then []
    else
      assert Distinct(s) ==> Distinct(s[1..]) && s[0] !in s[1..];
      if s[0] == x then Without(s[1..], x)
      else [s[0]] + Without(s[1..], x)
  }

  /** `comp_tickers`: the ticker itself, then the peers that are not the ticker, in
      their order. */
  function CompTickers(ticker: string): (r: seq<string>)
    ensures |r| >= 1 && r[0] == ticker
    ensures forall t :: t in r[1..] <==> t in Peers && t != ticker
    ensures |r| == if ticker in Peers then 3 else 4
    ensures Distinct(r)
  {
    var rest := Without(Peers, ticker);
    assert Distinct(Peers);
    [ticker] + rest
  }

  /** The modelled part of the report: the ratios, the competitors' symbols and the
      `ai_insights.financial_analysis` entry (absent unless set). */
  datatype Report = Report(ratios: seq<Ratio>, competitors: seq<string>, financialAnalysis: Option<string>)

  /** The report for `ticker`: computed ratios and competitors when the company
      information was fetched, the static ones otherwise; the AI analysis is set, stripped,
      only when it holds something other than white space. */
  function BuildReport(ticker: string, info: Option<Info>, parseFloat: string -> Option<real>, analysis: string): (r: Report)
    ensures info.None? ==> r.ratios == FallbackRatios() && r.competitors == [ticker, "AAPL", "GOOGL"]
    ensures info.Some? ==> r.ratios == FinancialRatios(info.value, parseFloat) && r.competitors == CompTickers(ticker)
    ensures r.financialAnalysis.None? <==> forall i :: 0 <= i < |analysis| ==> IsSpace(analysis[i])
    ensures r.financialAnalysis.Some? ==> r.financialAnalysis.value == Strip(analysis)
  {
    StripEmptyIffBlank(analysis);
    var insight := if Strip(analysis) != "" then Some(Strip(analysis)) else None;
    match info
    case None => Report(FallbackRatios(), [ticker, "AAPL", "GOOGL"], insight)
    case Some(i) => Report(FinancialRatios(i, parseFloat), CompTickers(ticker), insight)
  }

  const NoTickerError: string := "No ticker provided"

  /** What the endpoint answers: an error with its status, or the report. */
  datatype Response = Failed(error: string, status: int) | Served(report: Report)

  /** The endpoint with its cache. */
  class FundamentalService {
    const cache: TtlCache.Cache<Report>

    constructor()
      ensures fresh(cache) && cache.entries == map[]
    {
      cache := new TtlCache.Cache<Report>();
    }

    /** `POST /fundamental` with `{"ticker": ticker}`. `now` is the clock at the cache
        check and `finishedAt` the clock once the report is built; `info` is the fetched
        company information and `client(i)` the completion client's answer on attempt
        `i`. A missing or empty ticker is a 400 error; a fresh cache entry is served as
        it is; otherwise the report is built, stored with `finishedAt`, and served. */
    method Fundamental(ticker: Option<string>, now: real, finishedAt: real, info: Option<Info>,
                       parseFloat: string -> Option<real>, client: nat -> Groq.Attempt)
      returns (response: Response)
      modifies cache
      ensures ticker.None? || ticker.value == "" ==>
                response == Failed(NoTickerError, 400) && cache.entries == old(cache.entries)
      ensures ticker.Some? && ticker.value != "" && old(cache.Hit(ticker.value, now)) ==>
                response == Served(old(cache.entries)[ticker.value].value) && cache.entries == old(cache.entries)
      ensures ticker.Some? && ticker.value != "" && !old(cache.Hit(ticker.value, now)) ==>
                var report := BuildReport(ticker.value, info, parseFloat, Groq.Generate(client, 3, 1.0).text);
                response == Served(report) && cache.entries == old(cache.entries)[ticker.value := TtlCache.Entry(report, finishedAt)]
    {
      if ticker.None? || ticker.value == "" {
        return Failed(NoTickerError, 400);
      }
      var cached := cache.Lookup(ticker.value, now);
      if cached.Some? {
        return Served(cached.value);
      }
      var analysis, sleeps, calls := Groq.GenerateContent(client, 3, 1.0);
      var report := BuildReport(ticker.value, info, parseFloat, analysis);
      cache.Store(ticker.value, report, finishedAt);
      response := Served(report);
    }
  }
}

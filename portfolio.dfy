/** backend/portfolio.py: the holdings-string parser of `optimize_portfolio` and the
    bookkeeping of `calculate_portfolio_metrics` (prices, sectors, the total value, the
    sector exposure, the diversification score and the risk level). `float` on a string,
    the yfinance price and sector lookups, and the return and volatility the optimiser
    library computes are inputs. */
module Portfolio {
  import opened Wrappers
  import opened Text
  import opened OrderedDict

  // ---------------------------------------------------------------------------
  // Parsing "AAPL:100,MSFT:50"
  // ---------------------------------------------------------------------------

  const InvalidFormatError: string := "Invalid portfolio format. Please use format: AAPL:100,MSFT:50"

  /** The stripped comma-separated entries of the holdings string. */
  function Entries(s: string): (r: seq<string>)
    ensures |r| == |Split(s, ',')|
    ensures forall i :: 0 <= i < |r| ==> r[i] == Strip(Split(s, ',')[i])
  {
    var parts := Split(s, ',');
    seq(|parts|, i requires 0 <= i < |parts| => Strip(parts[i]))
  }

  /** The ticker and amount one entry contributes: none when it has no colon, more than
      one colon, or an amount `float` rejects. */
  function EntryOf(entry: string, parseFloat: string -> Option<real>): Option<(string, real)>
  {
    if ':' !in entry then None
    else
      var parts := Split(entry, ':');
      if |parts| != 2 then None
      else match parseFloat(Strip(parts[1]))
        case None => None
        case Some(v) => Some((Strip(parts[0]), v))
  }

  /** An entry counts exactly when it is two colon-free pieces joined by one colon whose
      second piece, stripped, is a number; it yields the first piece stripped. */
  lemma EntryShape(a: string, b: string, parseFloat: string -> Option<real>)
    requires ':' !in a && ':' !in b
    ensures EntryOf(a + [':'] + b, parseFloat) ==
              if parseFloat(Strip(b)).Some? then Some((Strip(a), parseFloat(Strip(b)).value)) else None
  {
    var e := a + [':'] + b;
    assert e[|a|] == ':';
    assert Join([b], ':') == b;
    assert [a, b][1..] == [b];
    assert Join([a, b], ':') == e;
    SplitJoin([a, b], ':');
  }

  /** Conversely, an entry that counts is two colon-free pieces joined by one colon. */
  lemma EntryShapeConverse(entry: string, parseFloat: string -> Option<real>)
    requires EntryOf(entry, parseFloat).Some?
    ensures exists a, b :: entry == a + [':'] + b && ':' !in a && ':' !in b
  {
    var parts := Split(entry, ':');
    assert parts[1..] == [parts[1]];
    assert Join(parts, ':') == parts[0] + [':'] + parts[1];
  }

  /** What each entry contributes, in order. */
  function Contributions(entries: seq<string>, parseFloat: string -> Option<real>): (r: seq<Option<(string, real)>>)
    ensures |r| == |entries| && forall i :: 0 <= i < |entries| ==> r[i] == EntryOf(entries[i], parseFloat)
  {
    seq(|entries|, i requires 0 <= i < |entries| => EntryOf(entries[i], parseFloat))
  }

  /** The holdings dictionary after the contributions: each one assigns its amount to its
      ticker. */
  function Collect(items: seq<Option<(string, real)>>): (d: Dict<real>)
    ensures Valid(d)
  {
    if |items| == 0 then Empty()
    else
      var d := Collect(items[..|items| - 1]);
      match items[|items| - 1]
      case None => d
      case Some((ticker, amount)) => Put(d, ticker, amount)
  }

  /** One more item is stored into the holdings collected so far, or skipped. */
  lemma CollectStep(items: seq<Option<(string, real)>>, i: nat)
    requires i < |items|
    ensures items[i].None? ==> Collect(items[..i + 1]) == Collect(items[..i])
    ensures items[i].Some? ==> Collect(items[..i + 1]) == Put(Collect(items[..i]), items[i].value.0, items[i].value.1)
  {
    assert items[..i + 1][..i] == items[..i];
  }

  /** The tickers held are those of the contributions. */
  lemma {:induction false} CollectKeys(items: seq<Option<(string, real)>>, t: string)
    ensures t in Collect(items).values <==> exists i :: 0 <= i < |items| && items[i].Some? && items[i].value.0 == t
  {
    if |items| > 0 {
      var init := items[..|items| - 1];
      CollectKeys(init, t);
      if exists i :: 0 <= i < |init| && init[i].Some? && init[i].value.0 == t {
        var i :| 0 <= i < |init| && init[i].Some? && init[i].value.0 == t;
        assert items[i] == init[i];
      }
      if exists i :: 0 <= i < |items| && items[i].Some? && items[i].value.0 == t {
        var i :| 0 <= i < |items| && items[i].Some? && items[i].value.0 == t;
        if i < |init| {
          assert items[i] == init[i];
        }
      }
    }
  }

  /** A ticker holds the amount of its last contribution. */
  lemma {:induction false} CollectLastWins(items: seq<Option<(string, real)>>, i: nat)
    requires i < |items| && items[i].Some?
    requires forall j :: i < j < |items| && items[j].Some? ==> items[j].value.0 != items[i].value.0
    ensures items[i].value.0 in Collect(items).values
    ensures Collect(items).values[items[i].value.0] == items[i].value.1
  {
    if i < |items| - 1 {
      var init := items[..|items| - 1];
      assert init[i] == items[i];
      CollectLastWins(init, i);
    }
  }

  function HoldingsFrom(entries: seq<string>, parseFloat: string -> Option<real>): (d: Dict<real>)
    ensures Valid(d)
  {
    Collect(Contributions(entries, parseFloat))
  }

  /** The tickers held are the stripped tickers of the counted entries. */
  lemma HoldingsKeys(entries: seq<string>, parseFloat: string -> Option<real>, t: string)
    ensures t in HoldingsFrom(entries, parseFloat).values <==>
            exists i :: 0 <= i < |entries| && EntryOf(entries[i], parseFloat).Some? && EntryOf(entries[i], parseFloat).value.0 == t
  {
    CollectKeys(Contributions(entries, parseFloat), t);
  }

  /** A ticker holds the amount of its last counted entry: a later duplicate overwrites
      an earlier one. */
  lemma HoldingsLastWins(entries: seq<string>, parseFloat: string -> Option<real>, i: nat)
    requires i < |entries| && EntryOf(entries[i], parseFloat).Some?
    requires forall j :: i < j < |entries| && EntryOf(entries[j], parseFloat).Some? ==>
               EntryOf(entries[j], parseFloat).value.0 != EntryOf(entries[i], parseFloat).value.0
    ensures var (t, v) := EntryOf(entries[i], parseFloat).value;
            t in HoldingsFrom(entries, parseFloat).values && HoldingsFrom(entries, parseFloat).values[t] == v
  {
    CollectLastWins(Contributions(entries, parseFloat), i);
  }

  /** What the parsing step of `optimize_portfolio` leaves: the error when no entry
      counts, otherwise the holdings. */
  datatype Parsed = InvalidFormat(error: string) | Holdings(holdings: Dict<real>)

  function ParseHoldings(s: string, parseFloat: string -> Option<real>): (r: Parsed)
    ensures r.InvalidFormat? ==> r.error == InvalidFormatError
    ensures r.Holdings? ==> Valid(r.holdings) && |r.holdings.keys| > 0
  {
    var d := HoldingsFrom(Entries(s), parseFloat);
    if |d.keys| == 0 then InvalidFormat(InvalidFormatError) else Holdings(d)
  }

  /** The error is reported exactly when no entry counts. */
  lemma InvalidIffNoEntryCounts(s: string, parseFloat: string -> Option<real>)
    ensures ParseHoldings(s, parseFloat).InvalidFormat? <==>
            forall i :: 0 <= i < |Entries(s)| ==> EntryOf(Entries(s)[i], parseFloat).None?
  {
    var items := Contributions(Entries(s), parseFloat);
    var d := Collect(items);
    if exists i :: 0 <= i < |items| && items[i].Some? {
      var i :| 0 <= i < |items| && items[i].Some?;
      CollectKeys(items, items[i].value.0);
    } else if |d.keys| > 0 {
      CollectKeys(items, d.keys[0]);
    }
  }

  /** The body of the parsing loop for one stripped entry: the ticker and amount it
      stores, or none where the loop continues. */
  method ReadEntry(holding: string, parseFloat: string -> Option<real>) returns (c: Option<(string, real)>)
    ensures c == EntryOf(holding, parseFloat)
  {
    if ':' !in holding {
      return None;
    }
    var parts := Split(holding, ':');
    if |parts| != 2 {
      return None;
    }
    var amount := parseFloat(Strip(parts[1]));
    if amount.None? {
      return None;
    }
    c := Some((Strip(parts[0]), amount.value));
  }

  /** The parsing loop of `optimize_portfolio`. */
  method ReadEntries(entries: seq<string>, parseFloat: string -> Option<real>) returns (holdings: Dict<real>)
    ensures holdings == HoldingsFrom(entries, parseFloat)
  {
    ghost var items := Contributions(entries, parseFloat);
    holdings := Empty();
    for i := 0 to |entries|
      invariant holdings == Collect(items[..i])
    {
      CollectStep(items, i);
      var c := ReadEntry(entries[i], parseFloat);
      if c.None? {
        continue;
      }
      holdings := Put(holdings, c.value.0, c.value.1);
    }
    assert items[..|entries|] == items;
  }

  /** The portfolio parsing of `optimize_portfolio`: the loop, then the check that
      something was read. */
  method ParsePortfolio(s: string, parseFloat: string -> Option<real>) returns (r: Parsed)
    ensures r == ParseHoldings(s, parseFloat)
  {
    var holdings := ReadEntries(Entries(s), parseFloat);
    if |holdings.keys| == 0 {
      return InvalidFormat(InvalidFormatError);
    }
    r := Holdings(holdings);
  }

  // ---------------------------------------------------------------------------
  // calculate_portfolio_metrics
  // ---------------------------------------------------------------------------

  /** The `price` field of a holding: absent or None, NaN, a string (the empty string
      included) or a number. */
  datatype PriceField = NoPrice | NaNPrice | PriceText(s: string) | PriceNum(x: real)

  /** The holding gives its own price: one that is not None, not '' and not NaN. */
  predicate OwnPrice(p: PriceField)
  {
    p.PriceNum? || (p.PriceText? && p.s != "")
  }

  /** A holding; `sector` is `None` when the key is absent. */
  datatype Holding = Holding(ticker: string, amount: real, price: PriceField, sector: Option<string>)

  /** What yfinance gives for a ticker: its market price and its sector, `None` when the
      value is missing, None, or the lookup raised. */
  datatype Market = Market(price: string -> Option<real>, sector: string -> Option<string>)

  const Other: string := "Other"

  /** The price used for a holding: its own when given (0 when `float` rejects it), the
      market price otherwise (0 when there is none). */
  function PriceOf(h: Holding, market: Market, parseFloat: string -> Option<real>): (r: real)
    ensures h.price.PriceNum? ==> r == h.price.x
    ensures OwnPrice(h.price) && h.price.PriceText? && parseFloat(h.price.s).Some? ==> r == parseFloat(h.price.s).value
    ensures OwnPrice(h.price) && h.price.PriceText? && parseFloat(h.price.s).None? ==> r == 0.0
    ensures !OwnPrice(h.price) && market.price(h.ticker).Some? ==> r == market.price(h.ticker).value
    ensures !OwnPrice(h.price) && market.price(h.ticker).None? ==> r == 0.0
  {
    match h.price
    case PriceNum(x) => x
    case PriceText(s) => if s != "" then parseFloat(s).GetOr(0.0) else market.price(h.ticker).GetOr(0.0)
    case _ => market.price(h.ticker).GetOr(0.0)
  }

  /** The sector used for a holding: its own when non-empty, else the market's when
      non-empty, else "Other". */
  function SectorOf(h: Holding, market: Market): (r: string)
    ensures r != ""
    ensures h.sector.Some? && h.sector.value != "" ==> r == h.sector.value
    ensures !(h.sector.Some? && h.sector.value != "") ==>
              r == (if market.sector(h.ticker).Some? && market.sector(h.ticker).value != "" then market.sector(h.ticker).value else Other)
  {
    if h.sector.Some? && h.sector.value != "" then h.sector.value
    else match market.sector(h.ticker)
      case Some(s) => if s != "" then s else Other
      case None => Other
  }

  function Tickers(hs: seq<Holding>): (r: seq<string>)
    ensures |r| == |hs| && forall i :: 0 <= i < |hs| ==> r[i] == hs[i].ticker
  {
    seq(|hs|, i requires 0 <= i < |hs| => hs[i].ticker)
  }

  /** `amounts`, `prices` and `sectors`: per ticker, the value from its last holding. */
  function Amounts(hs: seq<Holding>): (d: Dict<real>)
    ensures Valid(d)
  {
    if |hs| == 0 then Empty()
    else Put(Amounts(hs[..|hs| - 1]), hs[|hs| - 1].ticker, hs[|hs| - 1].amount)
  }

  function Prices(hs: seq<Holding>, market: Market, parseFloat: string -> Option<real>): (d: Dict<real>)
    ensures Valid(d)
  {
    if |hs| == 0 then Empty()
    else Put(Prices(hs[..|hs| - 1], market, parseFloat), hs[|hs| - 1].ticker, PriceOf(hs[|hs| - 1], market, parseFloat))
  }

  function Sectors(hs: seq<Holding>, market: Market): (d: Dict<string>)
    ensures Valid(d)
  {
    if |hs| == 0 then Empty()
    else Put(Sectors(hs[..|hs| - 1], market), hs[|hs| - 1].ticker, SectorOf(hs[|hs| - 1], market))
  }

  /** The lookups have one key per distinct ticker of the holdings. */
  lemma {:induction false} LookupKeys(hs: seq<Holding>, t: string)
    ensures t in Amounts(hs).values <==> exists i :: 0 <= i < |hs| && hs[i].ticker == t
  {
    if |hs| > 0 {
      var init := hs[..|hs| - 1];
      LookupKeys(init, t);
      if exists i :: 0 <= i < |hs| && hs[i].ticker == t {
        var i :| 0 <= i < |hs| && hs[i].ticker == t;
        if i < |init| {
          assert init[i] == hs[i];
        }
      }
      if exists i :: 0 <= i < |init| && init[i].ticker == t {
        var i :| 0 <= i < |init| && init[i].ticker == t;
        assert hs[i] == init[i];
      }
    }
  }

  /** `prices` and `sectors` list the same tickers as `amounts`, in the same order. */
  lemma {:induction false} LookupsShareKeys(hs: seq<Holding>, market: Market, parseFloat: string -> Option<real>)
    ensures Prices(hs, market, parseFloat).keys == Amounts(hs).keys
    ensures Sectors(hs, market).keys == Amounts(hs).keys
  {
    if |hs| > 0 {
      LookupsShareKeys(hs[..|hs| - 1], market, parseFloat);
    }
  }

  /** A ticker's amount, price and sector are those of its last holding: a later row
      overwrites an earlier one. */
  lemma {:induction false} LookupsLastWins(hs: seq<Holding>, market: Market, parseFloat: string -> Option<real>, i: nat)
    requires i < |hs|
    requires forall j :: i < j < |hs| ==> hs[j].ticker != hs[i].ticker
    ensures var t := hs[i].ticker;
            && t in Amounts(hs).values && Amounts(hs).values[t] == hs[i].amount
            && t in Prices(hs, market, parseFloat).values && Prices(hs, market, parseFloat).values[t] == PriceOf(hs[i], market, parseFloat)
            && t in Sectors(hs, market).values && Sectors(hs, market).values[t] == SectorOf(hs[i], market)
  {
    if i < |hs| - 1 {
      var init := hs[..|hs| - 1];
      assert init[i] == hs[i];
      LookupsLastWins(init, market, parseFloat, i);
    }
  }

  /** The value of ticker `t`: its price times its amount. */
  function ValueOf(t: string, prices: Dict<real>, amounts: Dict<real>): real
  {
    Get(prices, t, 0.0) * Get(amounts, t, 0.0)
  }

  /** `sum(prices[t] * amounts[t] for t in tickers)`; a ticker listed twice counts twice. */
  function SumValues(tickers: seq<string>, prices: Dict<real>, amounts: Dict<real>): real
  {
    if |tickers| == 0 then 0.0
    else SumValues(tickers[..|tickers| - 1], prices, amounts) + ValueOf(tickers[|tickers| - 1], prices, amounts)
  }

  /** The total value: the uploaded total worth when it converts, the computed sum
      otherwise, and 1 in place of 0. */
  function TotalValue(computed: real, totalWorth: Option<real>): (r: real)
    ensures r != 0.0
    ensures totalWorth.Some? && totalWorth.value != 0.0 ==> r == totalWorth.value
    ensures totalWorth.None? && computed != 0.0 ==> r == computed
    ensures (totalWorth == Some(0.0) || (totalWorth.None? && computed == 0.0)) ==> r == 1.0
  {
    var v := if totalWorth.Some? then totalWorth.value else computed;
    if v == 0.0 then 1.0 else v
  }

  /** Each ticker's sector, "Other" when it has none, and value, in ticker order. */
  function Valuations(tickers: seq<string>, sectors: Dict<string>, prices: Dict<real>, amounts: Dict<real>): (r: seq<(string, real)>)
    ensures |r| == |tickers|
    ensures forall i :: 0 <= i < |tickers| ==> r[i] == (Get(sectors, tickers[i], Other), ValueOf(tickers[i], prices, amounts))
  {
    seq(|tickers|, i requires 0 <= i < |tickers| => (Get(sectors, tickers[i], Other), ValueOf(tickers[i], prices, amounts)))
  }

  /** The values summed per sector, sectors in order of first appearance. */
  function Group(pairs: seq<(string, real)>): (d: Dict<real>)
    ensures Valid(d)
  {
    if |pairs| == 0 then Empty()
    else
      AddTo(Group(pairs[..|pairs| - 1]), pairs[|pairs| - 1].0, pairs[|pairs| - 1].1)
  }

  /** One more pair adds its value to the total of its sector. */
  lemma GroupStep(pairs: seq<(string, real)>, i: nat)
    requires i < |pairs|
    ensures Group(pairs[..i + 1]) == AddTo(Group(pairs[..i]), pairs[i].0, pairs[i].1)
  {
    assert pairs[..i + 1][..i] == pairs[..i];
  }

  /** The reference per-sector sum: the values of the pairs whose sector is `k`. */
  function SectorSum(pairs: seq<(string, real)>, k: string): real
  {
    if |pairs| == 0 then 0.0
    else SectorSum(pairs[..|pairs| - 1], k) + (if pairs[|pairs| - 1].0 == k then pairs[|pairs| - 1].1 else 0.0)
  }

  /** The groups are the sectors of the pairs, and each one holds the sum of the
      values of its pairs. */
  lemma GroupPerSector(pairs: seq<(string, real)>, k: string)
    ensures k in Group(pairs).values <==> exists i :: 0 <= i < |pairs| && pairs[i].0 == k
    ensures Get(Group(pairs), k, 0.0) == SectorSum(pairs, k)
  {
    GroupKeys(pairs, k);
    GroupSums(pairs, k);
  }

  /** A sector is a group exactly when some pair has it. */
  lemma {:induction false} GroupKeys(pairs: seq<(string, real)>, k: string)
    ensures k in Group(pairs).values <==> exists i :: 0 <= i < |pairs| && pairs[i].0 == k
  {
    if |pairs| > 0 {
      var init, last := pairs[..|pairs| - 1], pairs[|pairs| - 1];
      GroupKeys(init, k);
      assert Group(pairs) == AddTo(Group(init), last.0, last.1);
      if exists i :: 0 <= i < |pairs| && pairs[i].0 == k {
        var i :| 0 <= i < |pairs| && pairs[i].0 == k;
        if i < |init| {
          assert init[i] == pairs[i];
        }
      }
      if exists i :: 0 <= i < |init| && init[i].0 == k {
        var i :| 0 <= i < |init| && init[i].0 == k;
        assert pairs[i] == init[i];
      }
    }
  }

  /** Each group holds the sum of the values of its pairs. */
  lemma {:induction false} GroupSums(pairs: seq<(string, real)>, k: string)
    ensures Get(Group(pairs), k, 0.0) == SectorSum(pairs, k)
  {
    if |pairs| > 0 {
      var init, last := pairs[..|pairs| - 1], pairs[|pairs| - 1];
      GroupSums(init, k);
      var g := Group(init);
      assert Group(pairs) == AddTo(g, last.0, last.1);
    }
  }

  /** The sum of the values of the pairs. */
  function SumSeconds(pairs: seq<(string, real)>): real
  {
    if |pairs| == 0 then 0.0 else SumSeconds(pairs[..|pairs| - 1]) + pairs[|pairs| - 1].1
  }

  /** Grouping loses no value. */
  lemma {:induction false} GroupConserves(pairs: seq<(string, real)>)
    ensures Sum(Group(pairs)) == SumSeconds(pairs)
  {
    if |pairs| > 0 {
      var init := pairs[..|pairs| - 1];
      GroupConserves(init);
      Accumulate(Group(init), pairs[|pairs| - 1].0, pairs[|pairs| - 1].1);
    }
  }

  /** The values of the valuations are the summands of the computed total. */
  lemma {:induction false} ValuationsSum(tickers: seq<string>, sectors: Dict<string>, prices: Dict<real>, amounts: Dict<real>)
    ensures SumSeconds(Valuations(tickers, sectors, prices, amounts)) == SumValues(tickers, prices, amounts)
  {
    if |tickers| > 0 {
      var init := tickers[..|tickers| - 1];
      var v := Valuations(tickers, sectors, prices, amounts);
      assert v[..|v| - 1] == Valuations(init, sectors, prices, amounts);
      ValuationsSum(init, sectors, prices, amounts);
    }
  }

  /** `sector_totals`: the values of the tickers summed per sector. */
  function SectorTotals(tickers: seq<string>, sectors: Dict<string>, prices: Dict<real>, amounts: Dict<real>): (d: Dict<real>)
    ensures Valid(d)
  {
    Group(Valuations(tickers, sectors, prices, amounts))
  }

  /** `sector_totals` has a key for each sector some ticker has ("Other" for a ticker
      without one) and no other, and the total of a sector is the sum of the values of
      its tickers. */
  lemma SectorTotalsPerSector(tickers: seq<string>, sectors: Dict<string>, prices: Dict<real>, amounts: Dict<real>, k: string)
    ensures k in SectorTotals(tickers, sectors, prices, amounts).values <==>
            exists i :: 0 <= i < |tickers| && Get(sectors, tickers[i], Other) == k
    ensures Get(SectorTotals(tickers, sectors, prices, amounts), k, 0.0) == SectorSum(Valuations(tickers, sectors, prices, amounts), k)
  {
    var pairs := Valuations(tickers, sectors, prices, amounts);
    GroupPerSector(pairs, k);
    if exists i :: 0 <= i < |pairs| && pairs[i].0 == k {
      var i :| 0 <= i < |pairs| && pairs[i].0 == k;
      assert Get(sectors, tickers[i], Other) == k;
    }
  }

  /** Grouping by sector loses no value: the sector totals add up to the computed total. */
  lemma SectorTotalsConserve(tickers: seq<string>, sectors: Dict<string>, prices: Dict<real>, amounts: Dict<real>)
    ensures Sum(SectorTotals(tickers, sectors, prices, amounts)) == SumValues(tickers, prices, amounts)
  {
    GroupConserves(Valuations(tickers, sectors, prices, amounts));
    ValuationsSum(tickers, sectors, prices, amounts);
  }

  /** `{k: 100 * v / total for k, v in sector_totals.items()}` (unrounded). */
  function Exposure(totals: Dict<real>, total: real): (d: Dict<real>)
    requires total != 0.0
    ensures d.keys == totals.keys
    ensures d.values.Keys == totals.values.Keys
    ensures forall k :: k in d.values ==> d.values[k] == 100.0 * totals.values[k] / total
  {
    Dict(totals.keys, map k | k in totals.values :: 100.0 * totals.values[k] / total)
  }

  /** `min(100, 15 * sectors + 5 * tickers)` */
  function Diversification(sectorCount: nat, tickerCount: nat): (r: int)
    ensures 0 <= r <= 100
    ensures r == 100 || r == 15 * sectorCount + 5 * tickerCount
    ensures 15 * sectorCount + 5 * tickerCount >= 100 ==> r == 100
    ensures 15 * sectorCount + 5 * tickerCount < 100 ==> r == 15 * sectorCount + 5 * tickerCount
  {
    if 15 * sectorCount + 5 * tickerCount < 100 then 15 * sectorCount + 5 * tickerCount else 100
  }

  const Conservative: string := "Conservative"
  const Moderate: string := "Moderate"
  const Aggressive: string := "Aggressive"
  const NotAvailable: string := "N/A"

  /** The risk level for an annualised volatility in percent. */
  function RiskLevel(volatility: real): (r: string)
    ensures r == Conservative <==> volatility < 10.0
    ensures r == Moderate <==> 10.0 <= volatility < 18.0
    ensures r == Aggressive <==> volatility >= 18.0
  {
    if volatility < 10.0 then Conservative else if volatility < 18.0 then Moderate else Aggressive
  }

  /** Raising the volatility never lowers the risk level. */
  lemma RiskLevelMonotone(v: real, w: real)
    requires v <= w
    ensures RiskLevel(v) == Moderate ==> RiskLevel(w) != Conservative
    ensures RiskLevel(v) == Aggressive ==> RiskLevel(w) == Aggressive
  {
  }

  datatype Metrics = Metrics(
    totalValue: real,
    expectedReturn: real,
    riskLevel: string,
    sectorExposure: Dict<real>,
    diversificationScore: int,
    volatility: real)

  /** The answer for no holdings. */
  function EmptyMetrics(): Metrics
  {
    Metrics(0.0, 0.0, NotAvailable, Empty(), 0, 0.0)
  }

  /** `calculate_portfolio_metrics(holdings, total_worth_from_csv)`. `totalWorth` is
      `float(total_worth_from_csv)` when given and convertible; `history` is the
      annualised return and volatility, `None` when no price history was fetched. */
  function PortfolioMetrics(hs: seq<Holding>, totalWorth: Option<real>, market: Market,
                            parseFloat: string -> Option<real>, history: Option<(real, real)>): (m: Metrics)
    ensures hs == [] ==> m == EmptyMetrics()
    ensures hs != [] ==> m.totalValue != 0.0 && 0 <= m.diversificationScore <= 100
    ensures hs != [] && history.None? ==> m.riskLevel == NotAvailable && m.expectedReturn == 0.0 && m.volatility == 0.0
    ensures hs != [] && history.Some? ==> m.riskLevel == RiskLevel(history.value.1) && m.volatility == history.value.1
    ensures hs != [] && history.Some? ==> m.expectedReturn == history.value.0
    ensures hs != [] ==>
              var prices, amounts := Prices(hs, market, parseFloat), Amounts(hs);
              && m.totalValue == TotalValue(SumValues(Tickers(hs), prices, amounts), totalWorth)
              && m.sectorExposure == Exposure(SectorTotals(Tickers(hs), Sectors(hs, market), prices, amounts), m.totalValue)
              && m.diversificationScore == Diversification(|Sectors(hs, market).values.Values|, |hs|)
  {
    if hs == [] then EmptyMetrics()
    else
      var tickers, amounts, prices, sectors := Tickers(hs), Amounts(hs), Prices(hs, market, parseFloat), Sectors(hs, market);
      var total := TotalValue(SumValues(tickers, prices, amounts), totalWorth);
      var exposure := Exposure(SectorTotals(tickers, sectors, prices, amounts), total);
      var score := Diversification(|sectors.values.Values|, |tickers|);
      match history
      case None => Metrics(total, 0.0, NotAvailable, exposure, score, 0.0)
      case Some((ret, vol)) => Metrics(total, ret, RiskLevel(vol), exposure, score, vol)
  }

  /** The exposures add up to the share of `total` the sector totals make, in percent. */
  lemma ExposureSum(totals: Dict<real>, total: real)
    requires total != 0.0
    ensures Sum(Exposure(totals, total)) == 100.0 * Sum(totals) / total
  {
    var exposure := Exposure(totals, total);
    var c := 100.0 / total;
    forall k | k in totals.values
      ensures exposure.values[k] == c * totals.values[k]
    {
      ScaledShare(totals.values[k], total);
    }
    SumOverScale(totals.keys, totals.values, exposure.values, c);
    ScaledShare(Sum(totals), total);
  }

  /** `100 * x / total` is `x` scaled by `100 / total`. */
  lemma ScaledShare(x: real, total: real)
    requires total != 0.0
    ensures 100.0 * x / total == (100.0 / total) * x
  {
  }

  /** Measured against the computed total, the sector exposures add up to 100 percent. */
  lemma ExposureOfComputedTotal(tickers: seq<string>, sectors: Dict<string>, prices: Dict<real>, amounts: Dict<real>)
    requires SumValues(tickers, prices, amounts) != 0.0
    ensures Sum(Exposure(SectorTotals(tickers, sectors, prices, amounts), SumValues(tickers, prices, amounts))) == 100.0
  {
    var c := SumValues(tickers, prices, amounts);
    var totals := SectorTotals(tickers, sectors, prices, amounts);
    SectorTotalsConserve(tickers, sectors, prices, amounts);
    WholeIsHundred(totals, c);
  }

  lemma WholeIsHundred(totals: Dict<real>, total: real)
    requires total != 0.0 && Sum(totals) == total
    ensures Sum(Exposure(totals, total)) == 100.0
  {
    ExposureSum(totals, total);
    HundredPercent(total);
  }

  /** The whole is one hundred percent of itself. */
  lemma HundredPercent(total: real)
    requires total != 0.0
    ensures 100.0 * total / total == 100.0
  {
  }

  /** Without an uploaded total, the sector exposures of a portfolio whose holdings have
      a non-zero value add up to 100 percent. */
  lemma ExposureAddsUp(hs: seq<Holding>, market: Market, parseFloat: string -> Option<real>, history: Option<(real, real)>)
    requires hs != []
    requires SumValues(Tickers(hs), Prices(hs, market, parseFloat), Amounts(hs)) != 0.0
    ensures Sum(PortfolioMetrics(hs, None, market, parseFloat, history).sectorExposure) == 100.0
  {
    ExposureOfComputedTotal(Tickers(hs), Sectors(hs, market), Prices(hs, market, parseFloat), Amounts(hs));
  }

  const TwoRows: seq<Holding> := [Holding("AAPL", 10.0, PriceNum(1.0), None), Holding("AAPL", 20.0, PriceNum(1.0), None)]

  /** A ticker listed twice is counted twice, each time with the amount and price of its
      last row: two rows of 10 and 20 shares at 1 sum to 40. */
  lemma DuplicateTickerSum(market: Market, parseFloat: string -> Option<real>)
    ensures SumValues(Tickers(TwoRows), Prices(TwoRows, market, parseFloat), Amounts(TwoRows)) == 40.0
  {
    var prices, amounts := Prices(TwoRows, market, parseFloat), Amounts(TwoRows);
    TwoRowsLookups(market, parseFloat);
    var tickers := Tickers(TwoRows);
    assert tickers[..1] == ["AAPL"] && ["AAPL"][..0] == [];
    assert SumValues(["AAPL"], prices, amounts) == 20.0;
  }

  /** The lookups of the two rows: the ticker twice, the last amount and the price. */
  lemma TwoRowsLookups(market: Market, parseFloat: string -> Option<real>)
    ensures Tickers(TwoRows) == ["AAPL", "AAPL"]
    ensures Get(Amounts(TwoRows), "AAPL", 0.0) == 20.0
    ensures Get(Prices(TwoRows, market, parseFloat), "AAPL", 0.0) == 1.0
  {
    assert TwoRows[..1] == [TwoRows[0]] && [TwoRows[0]][..0] == [];
  }

  /** So their total value is 40, not the 20 the holdings dictionary holds. */
  lemma DuplicateTickerCountsTwice(market: Market, parseFloat: string -> Option<real>)
    ensures PortfolioMetrics(TwoRows, None, market, parseFloat, None).totalValue == 40.0
  {
    DuplicateTickerSum(market, parseFloat);
  }

  /** The loop that fills `amounts`, `prices` and `sectors` holding by holding. */
  method FillLookups(hs: seq<Holding>, market: Market, parseFloat: string -> Option<real>)
    returns (amounts: Dict<real>, prices: Dict<real>, sectors: Dict<string>)
    ensures amounts == Amounts(hs) && prices == Prices(hs, market, parseFloat) && sectors == Sectors(hs, market)
  {
    amounts, prices, sectors := Empty(), Empty(), Empty();
    for i := 0 to |hs|
      invariant amounts == Amounts(hs[..i])
      invariant prices == Prices(hs[..i], market, parseFloat)
      invariant sectors == Sectors(hs[..i], market)
    {
      assert hs[..i + 1][..i] == hs[..i];
      var h := hs[i];
      amounts := Put(amounts, h.ticker, h.amount);
      prices := Put(prices, h.ticker, PriceOf(h, market, parseFloat));
      sectors := Put(sectors, h.ticker, SectorOf(h, market));
    }
    assert hs[..|hs|] == hs;
  }

  /** `sum(prices[t] * amounts[t] for t in tickers)` */
  method AddUpValues(tickers: seq<string>, prices: Dict<real>, amounts: Dict<real>) returns (total: real)
    ensures total == SumValues(tickers, prices, amounts)
  {
    total := 0.0;
    for i := 0 to |tickers|
      invariant total == SumValues(tickers[..i], prices, amounts)
    {
      assert tickers[..i + 1][..i] == tickers[..i];
      total := total + ValueOf(tickers[i], prices, amounts);
    }
    assert tickers[..|tickers|] == tickers;
  }

  /** The `sector_totals` loop. */
  method AddUpSectors(tickers: seq<string>, sectors: Dict<string>, prices: Dict<real>, amounts: Dict<real>)
    returns (totals: Dict<real>)
    ensures totals == SectorTotals(tickers, sectors, prices, amounts)
  {
    ghost var pairs := Valuations(tickers, sectors, prices, amounts);
    totals := Empty();
    for i := 0 to |tickers|
      invariant totals == Group(pairs[..i])
    {
      GroupStep(pairs, i);
      var sector := Get(sectors, tickers[i], Other);
      var value := ValueOf(tickers[i], prices, amounts);
      totals := AddTo(totals, sector, value);
    }
    assert pairs[..|tickers|] == pairs;
  }

  /** `calculate_portfolio_metrics`, step by step. */
  method CalculatePortfolioMetrics(hs: seq<Holding>, totalWorth: Option<real>, market: Market,
                                   parseFloat: string -> Option<real>, history: Option<(real, real)>)
    returns (m: Metrics)
    ensures m == PortfolioMetrics(hs, totalWorth, market, parseFloat, history)
  {
    if hs == [] {
      return EmptyMetrics();
    }
    var tickers := Tickers(hs);
    var amounts, prices, sectors := FillLookups(hs, market, parseFloat);
    var computed := AddUpValues(tickers, prices, amounts);
    var total := if totalWorth.Some? then totalWorth.value else computed;
    if total == 0.0 {
      total := 1.0;
    }
    var totals := AddUpSectors(tickers, sectors, prices, amounts);
    var exposure := Exposure(totals, total);
    var score := Diversification(|sectors.values.Values|, |tickers|);
    if history.None? {
      return Metrics(total, 0.0, NotAvailable, exposure, score, 0.0);
    }
    var (ret, vol) := history.value;
    m := Metrics(total, ret, RiskLevel(vol), exposure, score, vol);
  }
}

/** Two steps of the portfolio-optimisation endpoint (backend/app.py): the rebalancing
    actions that compare the optimised allocation with the current one, and the tickers
    picked out of the AI analysis text with the share of the portfolio each receives.
    The optimiser, the price lookups and the rounding of percentages are not modelled:
    the percentages are inputs. */
module Rebalance {

  /** An entry of `current_allocation`: a ticker and its current percentage. */
  datatype Current = Current(ticker: string, percentage: real)

  /** An entry of `optimized_allocation`. */
  datatype Target = Target(ticker: string, companyName: string, optimalPercentage: real)

  datatype Kind = Increase | Reduce

  /** A rebalancing action; `diff` is the optimal minus the current percentage. */
  datatype Action = Action(kind: Kind, ticker: string, companyName: string, diff: real)

  /** `{c['ticker']: c['percentage'] for c in current}`: for each ticker, the percentage
      of its last entry. */
  function PctMap(current: seq<Current>): (r: map<string, real>)
    ensures forall i :: 0 <= i < |current| ==> current[i].ticker in r
  {
    if |current| == 0 then map[]
    else
      var last := current[|current| - 1];
      PctMap(current[..|current| - 1])[last.ticker := last.percentage]
  }

  /** The map's keys are the tickers of the entries. */
  lemma {:induction false} PctMapKeys(current: seq<Current>, t: string)
    ensures t in PctMap(current) <==> exists i :: 0 <= i < |current| && current[i].ticker == t
  {
    if |current| > 0 {
      var init := current[..|current| - 1];
      PctMapKeys(init, t);
      if exists i :: 0 <= i < |init| && init[i].ticker == t {
        var i :| 0 <= i < |init| && init[i].ticker == t;
        assert current[i].ticker == t;
      }
      if exists i :: 0 <= i < |current| && current[i].ticker == t {
        var i :| 0 <= i < |current| && current[i].ticker == t;
        if i < |init| {
          assert init[i].ticker == t;
        }
      }
    }
  }

  /** A ticker's percentage is the one of its last entry: later entries overwrite
      earlier ones. */
  lemma {:induction false} PctMapLastWins(current: seq<Current>, i: nat)
    requires i < |current|
    requires forall j :: i < j < |current| ==> current[j].ticker != current[i].ticker
    ensures current[i].ticker in PctMap(current)
    ensures PctMap(current)[current[i].ticker] == current[i].percentage
  {
    if i < |current| - 1 {
      var init := current[..|current| - 1];
      assert init[i] == current[i];
      PctMapLastWins(init, i);
    }
  }

  /** `curr_pct_map.get(ticker, 0)` */
  function CurrentPct(m: map<string, real>, ticker: string): real
  {
    if ticker in m then m[ticker] else 0.0
  }

  function Abs(x: real): real { if x < 0.0 then -x else x }

  /** The action for one target: none when the difference is under one percentage
      point, otherwise Increase for a positive and Reduce for a negative difference. */
  function ActionFor(target: Target, m: map<string, real>): (r: seq<Action>)
    ensures |r| <= 1
    ensures r == [] <==> Abs(target.optimalPercentage - CurrentPct(m, target.ticker)) < 1.0
    ensures r != [] ==>
              var diff := target.optimalPercentage - CurrentPct(m, target.ticker);
              && r[0].ticker == target.ticker && r[0].companyName == target.companyName && r[0].diff == diff
              && (r[0].kind == Increase <==> diff > 0.0)
  {
    var diff := target.optimalPercentage - CurrentPct(m, target.ticker);
    if Abs(diff) < 1.0 then []
    else if diff > 0.0 then [Action(Increase, target.ticker, target.companyName, diff)]
    else [Action(Reduce, target.ticker, target.companyName, diff)]
  }

  /** The actions for the targets, in target order. */
  function Actions(targets: seq<Target>, m: map<string, real>): (r: seq<Action>)
    ensures |r| <= |targets|
  {
    if |targets| == 0 then []
    else Actions(targets[..|targets| - 1], m) + ActionFor(targets[|targets| - 1], m)
  }

  /** The actions for two runs of targets are the actions of the first run followed by
      those of the second. */
  lemma {:induction false} ActionsAppend(a: seq<Target>, b: seq<Target>, m: map<string, real>)
    ensures Actions(a + b, m) == Actions(a, m) + Actions(b, m)
    decreases |b|
  {
    if |b| == 0 {
      assert a + b == a;
    } else {
      var b' := b[..|b| - 1];
      assert (a + b)[..|a + b| - 1] == a + b';
      assert (a + b)[|a + b| - 1] == b[|b| - 1];
      ActionsAppend(a, b', m);
    }
  }

  /** Every action answers a target whose difference is at least one point, with the
      kind given by its sign. */
  lemma {:induction false} ActionsSound(targets: seq<Target>, m: map<string, real>)
    ensures forall a :: a in Actions(targets, m) ==>
              exists i :: 0 <= i < |targets| && targets[i].ticker == a.ticker
                && a.diff == targets[i].optimalPercentage - CurrentPct(m, a.ticker)
                && Abs(a.diff) >= 1.0 && (a.kind == Increase <==> a.diff > 0.0)
  {
    if |targets| > 0 {
      var init := targets[..|targets| - 1];
      ActionsSound(init, m);
      forall a | a in Actions(targets, m)
        ensures exists i :: 0 <= i < |targets| && targets[i].ticker == a.ticker
                  && a.diff == targets[i].optimalPercentage - CurrentPct(m, a.ticker)
                  && Abs(a.diff) >= 1.0 && (a.kind == Increase <==> a.diff > 0.0)
      {
        if a in Actions(init, m) {
          var i :| 0 <= i < |init| && init[i].ticker == a.ticker
                   && a.diff == init[i].optimalPercentage - CurrentPct(m, a.ticker)
                   && Abs(a.diff) >= 1.0 && (a.kind == Increase <==> a.diff > 0.0);
          assert targets[i] == init[i];
        } else {
          assert targets[|targets| - 1].ticker == a.ticker;
        }
      }
    }
  }

  /** Every target whose difference is at least one point gets its action. */
  lemma {:induction false} ActionsComplete(targets: seq<Target>, m: map<string, real>, i: nat)
    requires i < |targets|
    requires Abs(targets[i].optimalPercentage - CurrentPct(m, targets[i].ticker)) >= 1.0
    ensures ActionFor(targets[i], m)[0] in Actions(targets, m)
  {
    var init := targets[..|targets| - 1];
    if i == |targets| - 1 {
      var pre := Actions(init, m);
      assert Actions(targets, m) == pre + ActionFor(targets[i], m);
      assert (pre + ActionFor(targets[i], m))[|pre|] == ActionFor(targets[i], m)[0];
    } else {
      assert init[i] == targets[i];
      ActionsComplete(init, m, i);
    }
  }

  /** Builds `curr_pct_map` entry by entry. */
  method BuildPctMap(current: seq<Current>) returns (m: map<string, real>)
    ensures m == PctMap(current)
  {
    m := map[];
    for i := 0 to |current|
      invariant m == PctMap(current[..i])
    {
      assert current[..i + 1][..i] == current[..i];
      m := m[current[i].ticker := current[i].percentage];
    }
    assert current[..|current|] == current;
  }

  /** The action loop over `optimized_allocation`. */
  method BuildActions(current: seq<Current>, optimized: seq<Target>) returns (actions: seq<Action>)
    ensures actions == Actions(optimized, PctMap(current))
  {
    var m := BuildPctMap(current);
    actions := [];
    for i := 0 to |optimized|
      invariant actions == Actions(optimized[..i], m)
    {
      assert optimized[..i + 1][..i] == optimized[..i];
      var target := optimized[i];
      var diff := target.optimalPercentage - CurrentPct(m, target.ticker);
      if Abs(diff) < 1.0 {
        continue;
      } else if diff > 0.0 {
        actions := actions + [Action(Increase, target.ticker, target.companyName, diff)];
      } else {
        actions := actions + [Action(Reduce, target.ticker, target.companyName, diff)];
      }
    }
    assert optimized[..|optimized|] == optimized;
  }
}

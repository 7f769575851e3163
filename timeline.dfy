/** The monthly sentiment timeline of `get_sentiment_timeline` (backend/app.py): the
    month-over-month change of the closing price, bucketed into a score of 1, 0.5, 0,
    -0.5 or -1, and labelled Bullish, Bearish or Neutral by its sign. The price history
    is an input; the demo series used when it is empty or cannot be fetched is not
    modelled. */
module Timeline {

  /** One row of the monthly history: its `%Y-%m` month and closing price. */
  datatype Month = Month(month: string, close: real)

  /** A value of `pct_change()`: NaN for the first row and for 0/0, an infinity for a
      change from 0, a finite ratio otherwise. */
  datatype Change = NaN | Inf(positive: bool) | Finite(x: real)

  function ChangeAt(history: seq<Month>, i: nat): (r: Change)
    requires i < |history|
    ensures r.NaN? <==> i == 0 || (history[i - 1].close == 0.0 && history[i].close == 0.0)
    ensures r.Finite? <==> i > 0 && history[i - 1].close != 0.0
    ensures r.Inf? ==> r.positive == (history[i].close > 0.0)
  {
    if i == 0 then NaN
    else
      var prev, cur := history[i - 1].close, history[i].close;
      if prev != 0.0 then Finite(cur / prev - 1.0)
      else if cur == 0.0 then NaN
      else Inf(cur > 0.0)
  }

  /** `hist['Close'].pct_change()` */
  function PctChange(history: seq<Month>): (r: seq<Change>)
    ensures |r| == |history|
    ensures |history| > 0 ==> r[0] == NaN
    ensures forall i :: 0 < i < |history| && history[i - 1].close != 0.0 ==>
              r[i] == Finite(history[i].close / history[i - 1].close - 1.0)
  {
    seq(|history|, i requires 0 <= i < |history| => ChangeAt(history, i))
  }

  /** The bucketing lambda. Every comparison with NaN is false, so NaN falls through to
      the final 0. */
  function Bucket(c: Change): (s: real)
    ensures s == 1.0 || s == -1.0 || s == 0.5 || s == -0.5 || s == 0.0
    ensures c.Finite? ==> (s > 0.0 <==> c.x > 0.0) && (s < 0.0 <==> c.x < 0.0)
    ensures c.Finite? ==> (s == 1.0 <==> c.x > 0.05) && (s == -1.0 <==> c.x < -0.05)
    ensures c.Inf? ==> s == if c.positive then 1.0 else -1.0
    ensures c.NaN? ==> s == 0.0
  {
    match c
    case NaN => 0.0
    case Inf(positive) => if positive then 1.0 else -1.0
    case Finite(x) =>
      if x > 0.05 then 1.0
      else if x < -0.05 then -1.0
      else if x > 0.0 then 0.5
      else if x < 0.0 then -0.5
      else 0.0
  }

  const Bullish: string := "Bullish"
  const Bearish: string := "Bearish"
  const Neutral: string := "Neutral"

  function LabelOf(score: real): (r: string)
    ensures r == Bullish <==> score > 0.0
    ensures r == Bearish <==> score < 0.0
    ensures r == Neutral <==> score == 0.0
  {
    if score > 0.0 then Bullish else if score < 0.0 then Bearish else Neutral
  }

  /** A month's label is Bullish exactly when the price rose, Bearish exactly when it
      fell. */
  lemma LabelFollowsChange(c: Change)
    requires c.Finite?
    ensures LabelOf(Bucket(c)) == Bullish <==> c.x > 0.0
    ensures LabelOf(Bucket(c)) == Bearish <==> c.x < 0.0
    ensures LabelOf(Bucket(c)) == Neutral <==> c.x == 0.0
  {
  }

  /** One point of the timeline. */
  datatype Point = Point(timestamp: string, price: real, score: real, sentimentLabel: string)

  function PointAt(history: seq<Month>, i: nat): (p: Point)
    requires i < |history|
    ensures p.timestamp == history[i].month && p.price == history[i].close
    ensures p.score == Bucket(ChangeAt(history, i)) && p.sentimentLabel == LabelOf(p.score)
  {
    var score := Bucket(ChangeAt(history, i));
    Point(history[i].month, history[i].close, score, LabelOf(score))
  }

  /** The loop as written: the NaN test is applied to the bucketed score, which is never
      NaN, so every month is kept, the first one included. */
  function TimelineAsWritten(history: seq<Month>): (r: seq<Point>)
    ensures |r| == |history|
    ensures forall i :: 0 <= i < |history| ==> r[i] == PointAt(history, i)
  {
    seq(|history|, i requires 0 <= i < |history| => PointAt(history, i))
  }

  /** The timeline the comment describes: months whose change is NaN, the first one
      among them, are skipped. `Points(history, n)` is that timeline over the first `n`
      months. */
  function Points(history: seq<Month>, n: nat): (r: seq<Point>)
    requires n <= |history|
    ensures |r| <= n
    ensures forall p :: p in r ==> exists i :: 0 <= i < n && !ChangeAt(history, i).NaN? && p == PointAt(history, i)
  {
    if n == 0 then []
    else if ChangeAt(history, n - 1).NaN? then Points(history, n - 1)
    else Points(history, n - 1) + [PointAt(history, n - 1)]
  }

  function TimelineCorrected(history: seq<Month>): (r: seq<Point>)
    ensures |r| <= |history|
    ensures forall p :: p in r ==> exists i :: 0 < i < |history| && p == PointAt(history, i)
  {
    Points(history, |history|)
  }

  /** When no later month has an undefined change, the corrected timeline over the
      first `n` months is one point for each of months 1 to `n - 1`, in order. */
  lemma {:induction false} LaterMonthsKept(history: seq<Month>, n: nat)
    requires 1 <= n <= |history|
    requires forall i :: 0 < i < |history| ==> !ChangeAt(history, i).NaN?
    ensures |Points(history, n)| == n - 1
    ensures forall i :: 0 <= i < n - 1 ==> Points(history, n)[i] == PointAt(history, i + 1)
  {
    if n > 1 {
      LaterMonthsKept(history, n - 1);
    }
  }

  /** With positive closing prices the corrected timeline is the code's timeline without
      its first point. */
  lemma PositivePricesDropFirstMonth(history: seq<Month>)
    requires |history| >= 1
    requires forall i :: 0 <= i < |history| ==> history[i].close > 0.0
    ensures TimelineCorrected(history) == TimelineAsWritten(history)[1..]
  {
    LaterMonthsKept(history, |history|);
  }

  /** The code and its comment part ways on every non-empty history: the first month,
      whose change is undefined, is kept with score 0 and label Neutral. */
  lemma FirstMonthKeptAsWritten(history: seq<Month>)
    requires |history| >= 1
    ensures ChangeAt(history, 0).NaN?
    ensures TimelineAsWritten(history)[0] == Point(history[0].month, history[0].close, 0.0, Neutral)
  {
  }

  /** Two months at 100 and 110: the code returns two points, the first a spurious
      Neutral 0; the corrected timeline has the one Bullish point for the 10% rise. */
  lemma TwoMonthExample()
    ensures var h := [Month("2024-01", 100.0), Month("2024-02", 110.0)];
            && TimelineAsWritten(h) == [Point("2024-01", 100.0, 0.0, Neutral), Point("2024-02", 110.0, 1.0, Bullish)]
            && TimelineCorrected(h) == [Point("2024-02", 110.0, 1.0, Bullish)]
  {
    var h := [Month("2024-01", 100.0), Month("2024-02", 110.0)];
    assert ChangeAt(h, 1) == Finite(110.0 / 100.0 - 1.0);
    assert Points(h, 1) == [];
  }

  /** The `for date, row in hist.iterrows()` loop as evidently intended: it keeps only
      the months with a defined change, so the first month is dropped, where the code as
      written keeps it (`TimelineAsWritten`). */
  method BuildTimeline(history: seq<Month>) returns (timeline: seq<Point>)
    ensures timeline == TimelineCorrected(history)
  {
    timeline := [];
    for i := 0 to |history|
      invariant timeline == Points(history, i)
    {
      var change := ChangeAt(history, i);
      if !change.NaN? {
        timeline := timeline + [PointAt(history, i)];
      }
    }
  }
}

/** backend/sentiment.py: `get_sentiment`, the headline-level sentiment of a ticker's
    news. The news lookup and the sentiment classifier are not modelled: the lookup's
    outcome is an input, and so is the outcome of loading the pipeline, whose
    classifier is a function from a title to a label and a score or to the message of
    the exception it raised. */
module HeadlineSentiment {
  import opened Wrappers

  /** A news item; `title` is "" when the key is absent or its value is empty. */
  datatype Item = Item(title: string)

  /** What fetching the ticker's news gave: the items, or the message of the exception
      `yf.Ticker(...)` or `stock.news` raised. */
  datatype Fetch = Fetched(items: seq<Item>) | FetchFailed(message: string)

  /** A classifier result, or the message of the exception the classifier raised. */
  datatype Classified = Classified(sentimentLabel: string, score: real) | Raised(message: string)

  /** What `pipeline('sentiment-analysis')` gave: a classifier, or the message of the
      exception raised while loading it. */
  datatype Pipeline = Loaded(classify: string -> Classified) | LoadFailed(message: string)

  /** One analysed title, as in `sentiments`. */
  datatype Scored = Scored(title: string, sentiment: string, score: real)

  datatype Outcome =
    | Error(error: string)
    | Sentiment(sentimentScore: real, keyFindings: seq<string>, recommendations: seq<string>)

  const NoNewsError: string := "No news articles found for this ticker"
  const NoSentimentError: string := "Could not analyze sentiment for this ticker"
  const ErrorPrefix: string := "Error analyzing sentiment: "
  const Positive: string := "POSITIVE"
  const ItemCap: nat := 20

  const StronglyPositive: string := "Market sentiment is strongly positive. Consider buying or holding."
  const Mixed: string := "Market sentiment is mixed. Exercise caution."
  const Negative: string := "Market sentiment is negative. Consider reducing exposure."

  /** The items looked at: the first twenty. */
  function Considered(items: seq<Item>): (r: seq<Item>)
    ensures |r| <= ItemCap && |r| <= |items| && r == items[..|r|]
    ensures |items| >= ItemCap ==> |r| == ItemCap
    ensures |items| < ItemCap ==> r == items
  {
    if |items| <= ItemCap then items else items[..ItemCap]
  }

  /** The analysed titles of `items`, in order, skipping empty titles. */
  function Analysed(items: seq<Item>, classify: string -> Classified): (r: seq<Scored>)
    ensures |r| <= |items|
  {
    if |items| == 0 then []
    else
      var rest := Analysed(items[..|items| - 1], classify);
      var title := items[|items| - 1].title;
      if title == "" then rest
      else match classify(title)
        case Classified(sentimentLabel, score) => rest + [Scored(title, sentimentLabel, score)]
        case Raised(_) => rest
  }

  /** The classifier raises on the non-empty title of item `i`. */
  predicate RaisesAt(items: seq<Item>, classify: string -> Classified, i: int)
  {
    0 <= i < |items| && items[i].title != "" && classify(items[i].title).Raised?
  }

  /** The message of the first exception the classification loop meets, if any. */
  function FirstRaise(items: seq<Item>, classify: string -> Classified): (r: Option<string>)
    ensures r.None? <==> forall i :: 0 <= i < |items| ==> !RaisesAt(items, classify, i)
  {
    if |items| == 0 then None
    else
      var init := items[..|items| - 1];
      var title := items[|items| - 1].title;
      assert forall i :: 0 <= i < |init| ==> (RaisesAt(init, classify, i) <==> RaisesAt(items, classify, i));
      match FirstRaise(init, classify)
      case Some(m) => Some(m)
      case None =>
        if title != "" && classify(title).Raised? then
          assert RaisesAt(items, classify, |items| - 1);
          Some(classify(title).message)
        else None
  }

  /** The exception met is the one of the first title on which the classifier raises. */
  lemma {:induction false} FirstRaiseAt(items: seq<Item>, classify: string -> Classified, i: nat)
    requires RaisesAt(items, classify, i)
    requires forall j :: 0 <= j < i ==> !RaisesAt(items, classify, j)
    ensures FirstRaise(items, classify) == Some(classify(items[i].title).message)
  {
    var init := items[..|items| - 1];
    if i < |init| {
      assert RaisesAt(init, classify, i);
      assert forall j :: 0 <= j < i ==> !RaisesAt(init, classify, j) by {
        forall j | 0 <= j < i ensures !RaisesAt(init, classify, j) {
          assert init[j] == items[j] && !RaisesAt(items, classify, j);
        }
      }
      FirstRaiseAt(init, classify, i);
    } else {
      assert forall j :: 0 <= j < |init| ==> !RaisesAt(init, classify, j) by {
        forall j | 0 <= j < |init| ensures !RaisesAt(init, classify, j) {
          assert init[j] == items[j] && !RaisesAt(items, classify, j);
        }
      }
    }
  }

  /** Once an exception has been met, later items do not change it. */
  lemma {:induction false} FirstRaiseKept(items: seq<Item>, classify: string -> Classified, n: nat)
    requires n <= |items| && FirstRaise(items[..n], classify).Some?
    ensures FirstRaise(items, classify) == FirstRaise(items[..n], classify)
    decreases |items| - n
  {
    if n < |items| {
      var next := items[..n + 1];
      assert next[..n] == items[..n];
      FirstRaiseKept(items, classify, n + 1);
    } else {
      assert items[..n] == items;
    }
  }

  /** Each analysed entry is a non-empty title of one of the items, with its classifier
      result. */
  lemma {:induction false} AnalysedSound(items: seq<Item>, classify: string -> Classified, s: Scored)
    requires s in Analysed(items, classify)
    ensures s.title != "" && classify(s.title) == Classified(s.sentiment, s.score)
    ensures exists i :: 0 <= i < |items| && items[i].title == s.title
  {
    var init := items[..|items| - 1];
    if s in Analysed(init, classify) {
      AnalysedSound(init, classify, s);
      var i :| 0 <= i < |init| && init[i].title == s.title;
      assert items[i] == init[i];
    }
  }

  /** There is one analysed entry per item with a non-empty title. */
  function NonEmptyTitles(items: seq<Item>): nat
  {
    if |items| == 0 then 0
    else NonEmptyTitles(items[..|items| - 1]) + (if items[|items| - 1].title == "" then 0 else 1)
  }

  /** When the classifier raises on no title, every non-empty title gives one entry;
      otherwise the loop stops at the exception and keeps no entries at all. */
  lemma {:induction false} AnalysedCount(items: seq<Item>, classify: string -> Classified)
    ensures |Analysed(items, classify)| <= NonEmptyTitles(items)
    ensures FirstRaise(items, classify).None? ==> |Analysed(items, classify)| == NonEmptyTitles(items)
  {
    if |items| > 0 {
      var init := items[..|items| - 1];
      AnalysedCount(init, classify);
      if FirstRaise(items, classify).None? {
        assert FirstRaise(init, classify).None?;
      }
    }
  }

  /** When the classifier raises on no title, nothing is analysed exactly when every
      title is empty. */
  lemma {:induction false} NothingAnalysedIffNoTitle(items: seq<Item>, classify: string -> Classified)
    requires FirstRaise(items, classify).None?
    ensures Analysed(items, classify) == [] <==> forall i :: 0 <= i < |items| ==> items[i].title == ""
  {
    if |items| > 0 {
      var init := items[..|items| - 1];
      assert FirstRaise(init, classify).None?;
      NothingAnalysedIffNoTitle(init, classify);
      assert forall i :: 0 <= i < |init| ==> init[i] == items[i];
    }
  }

  /** A titleless prefix raises nothing and yields no entries. */
  lemma {:induction false} NoTitleNothingAnalysed(items: seq<Item>, classify: string -> Classified)
    requires forall i :: 0 <= i < |items| ==> items[i].title == ""
    ensures FirstRaise(items, classify).None? && Analysed(items, classify) == []
  {
    if |items| > 0 {
      var init := items[..|items| - 1];
      assert forall i :: 0 <= i < |init| ==> init[i] == items[i];
      NoTitleNothingAnalysed(init, classify);
    }
  }

  /** The score an entry contributes: its score for a POSITIVE label, one minus it for
      any other. */
  function Contribution(s: Scored): real
  {
    if s.sentiment == Positive then s.score else 1.0 - s.score
  }

  function SumContributions(ss: seq<Scored>): real
  {
    if |ss| == 0 then 0.0 else SumContributions(ss[..|ss| - 1]) + Contribution(ss[|ss| - 1])
  }

  /** The scores lie between 0 and 1. */
  predicate UnitScores(ss: seq<Scored>)
  {
    forall i :: 0 <= i < |ss| ==> 0.0 <= ss[i].score <= 1.0
  }

  lemma {:induction false} SumContributionsBounds(ss: seq<Scored>)
    requires UnitScores(ss)
    ensures 0.0 <= SumContributions(ss) <= |ss| as real
  {
    if |ss| > 0 {
      var init := ss[..|ss| - 1];
      assert forall i :: 0 <= i < |init| ==> init[i] == ss[i];
      SumContributionsBounds(init);
    }
  }

  /** The overall score: the mean of the contributions. */
  function Mean(ss: seq<Scored>): (r: real)
    requires ss != []
    ensures r * |ss| as real == SumContributions(ss)
  {
    SumContributions(ss) / |ss| as real
  }

  /** When every classifier score lies in [0, 1], so does the overall score. */
  lemma MeanInUnitInterval(ss: seq<Scored>)
    requires ss != [] && UnitScores(ss)
    ensures 0.0 <= Mean(ss) <= 1.0
  {
    SumContributionsBounds(ss);
    var n := |ss| as real;
    assert SumContributions(ss) / n <= n / n;
  }

  /** The one recommendation for an overall score. */
  function Recommendation(score: real): (r: string)
    ensures r == StronglyPositive <==> score > 0.6
    ensures r == Mixed <==> 0.4 < score <= 0.6
    ensures r == Negative <==> score <= 0.4
  {
    if score > 0.6 then StronglyPositive else if score > 0.4 then Mixed else Negative
  }

  /** `f"{title} ({label}, {score})"`; `show` is Python's rendering of the score. */
  function Finding(s: Scored, show: real -> string): string
  {
    s.title + " (" + s.sentiment + ", " + show(s.score) + ")"
  }

  function Findings(ss: seq<Scored>, show: real -> string): (r: seq<string>)
    ensures |r| == |ss| && forall i :: 0 <= i < |ss| ==> r[i] == Finding(ss[i], show)
  {
    seq(|ss|, i requires 0 <= i < |ss| => Finding(ss[i], show))
  }

  /** `get_sentiment(ticker)` for the fetched news and the loaded pipeline: an exception
      anywhere in the `try` gives its error text. */
  function GetSentiment(fetch: Fetch, pipeline: Pipeline, show: real -> string): (r: Outcome)
    ensures fetch.FetchFailed? ==> r == Error(ErrorPrefix + fetch.message)
    ensures fetch.Fetched? && fetch.items == [] ==> r == Error(NoNewsError)
    ensures fetch.Fetched? && fetch.items != [] && pipeline.LoadFailed? ==> r == Error(ErrorPrefix + pipeline.message)
    ensures fetch.Fetched? && fetch.items != [] && pipeline.Loaded? ==>
              var considered := Considered(fetch.items);
              var ss := Analysed(considered, pipeline.classify);
              && (FirstRaise(considered, pipeline.classify).Some? ==> r == Error(ErrorPrefix + FirstRaise(considered, pipeline.classify).value))
              && (FirstRaise(considered, pipeline.classify).None? && ss == [] ==> r == Error(NoSentimentError))
              && (FirstRaise(considered, pipeline.classify).None? && ss != [] ==>
                    r == Sentiment(Mean(ss), Findings(ss, show), [Recommendation(Mean(ss))]))
  {
    match fetch
    case FetchFailed(message) => Error(ErrorPrefix + message)
    case Fetched(items) =>
      if items == [] then Error(NoNewsError)
      else match pipeline
        case LoadFailed(message) => Error(ErrorPrefix + message)
        case Loaded(classify) =>
          var considered := Considered(items);
          match FirstRaise(considered, classify)
          case Some(message) => Error(ErrorPrefix + message)
          case None =>
            var ss := Analysed(considered, classify);
            if ss == [] then Error(NoSentimentError)
            else
              var score := Mean(ss);
              Sentiment(score, Findings(ss, show), [Recommendation(score)])
  }

  /** News whose first twenty titles are all empty cannot be analysed, whatever follows. */
  lemma OnlyFirstTwentyCount(items: seq<Item>, classify: string -> Classified, show: real -> string)
    requires |items| > ItemCap
    requires forall i :: 0 <= i < ItemCap ==> items[i].title == ""
    ensures GetSentiment(Fetched(items), Loaded(classify), show) == Error(NoSentimentError)
  {
    NoTitleNothingAnalysed(Considered(items), classify);
  }

  /** The classification loop over `news[:20]`; it stops at the first exception. */
  method AnalyseTitles(items: seq<Item>, classify: string -> Classified) returns (sentiments: seq<Scored>, raised: Option<string>)
    ensures raised == FirstRaise(Considered(items), classify)
    ensures raised.None? ==> sentiments == Analysed(Considered(items), classify)
  {
    var considered := Considered(items);
    sentiments := [];
    for i := 0 to |considered|
      invariant sentiments == Analysed(considered[..i], classify)
      invariant FirstRaise(considered[..i], classify).None?
    {
      assert considered[..i + 1][..i] == considered[..i];
      var title := considered[i].title;
      if title == "" {
        continue;
      }
      var result := classify(title);
      if result.Raised? {
        FirstRaiseKept(considered, classify, i + 1);
        return sentiments, Some(result.message);
      }
      sentiments := sentiments + [Scored(title, result.sentimentLabel, result.score)];
    }
    assert considered[..|considered|] == considered;
    raised := None;
  }

  /** `get_sentiment`, step by step. */
  method Analyse(fetch: Fetch, pipeline: Pipeline, show: real -> string) returns (r: Outcome)
    ensures r == GetSentiment(fetch, pipeline, show)
  {
    if fetch.FetchFailed? {
      return Error(ErrorPrefix + fetch.message);
    }
    if fetch.items == [] {
      return Error(NoNewsError);
    }
    if pipeline.LoadFailed? {
      return Error(ErrorPrefix + pipeline.message);
    }
    var sentiments, raised := AnalyseTitles(fetch.items, pipeline.classify);
    if raised.Some? {
      return Error(ErrorPrefix + raised.value);
    }
    if sentiments == [] {
      return Error(NoSentimentError);
    }
    var score := Mean(sentiments);
    var recommendations := [Recommendation(score)];
    r := Sentiment(score, Findings(sentiments, show), recommendations);
  }
}

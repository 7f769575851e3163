/** The recommendation pipeline of backend/recommendations.py: quotes and news for a
    fixed universe of tickers are merged into one prompt, the language model's reply is
    cleaned and the greedy `[ ... ]` span of it parsed as a JSON array, at most three
    records are kept, and a single-slot cache with a sixty-second lifetime sits in front.

    The external calls are inputs. The thread pool becomes the order in which the quote
    and news tasks completed (`as_completed`), each task a value or a failure; the model
    is a function from prompt to reply; `json.loads` and `str(float)` are functions
    passed in. */
module Recommendations {
  import opened Wrappers
  import opened Text
  import opened Seqs
  import opened JsonValue
  import News

  const TopTickers: seq<string> := ["NVDA", "AAPL", "TSLA", "MSFT", "GOOGL"]
  const CacheTtl: real := 60.0
  const NewsPerTicker: int := 3
  const MaxRecommendations: int := 3
  const NoAnalysis: string := "No AI analysis available."

  /** The instructions that open the prompt, line by line. */
  const HeaderTask: string :=
    "You are a world-class financial AI. Given the following real-time stock data and news, "
    + "analyze and recommend the top 3 stocks to buy right now. For each, provide:\n"
  const HeaderFields: string := "- Ticker\n- Company Name\n- Sentiment Score (-1 to 1)\n- Short summary (1-2 sentences)\n"
  const HeaderFormat: string := "Respond in JSON as an array of objects with keys: ticker, company_name, sentiment, summary.\n"
  const HeaderData: string := "Here is the data:\n"
  const PromptHeader: string := HeaderTask + HeaderFields + HeaderFormat + HeaderData

  // ---------------------------------------------------------------------------
  // Quotes (get_polygon_data)

  datatype Quote = Quote(ticker: string, companyName: string, price: Option<real>)

  /** One market-data request: its status code and, when the `results` member is
      non-empty, the value read from it. */
  datatype Lookup<T> = Lookup(status: int, found: Option<T>)

  /** The previous-close lookup (the close price of the first result) and the reference
      lookup (the `name` member of the results, itself optional), or an exception raised
      by either. */
  datatype QuoteCalls = Answered(prevClose: Lookup<real>, reference: Lookup<Option<string>>) | Raised

  /** `get_polygon_data`: never fails. Each field degrades on its own: the price is
      known only from a 200 previous-close answer with results, the company name falls
      back to the ticker; any exception gives the ticker-echo quote. */
  function PolygonQuote(ticker: string, calls: QuoteCalls): (q: Quote)
    ensures q.ticker == ticker
    ensures calls.Raised? ==> q == Quote(ticker, ticker, None)
    ensures calls.Answered? ==>
              (q.price.Some? <==> calls.prevClose.status == 200 && calls.prevClose.found.Some?)
    ensures calls.Answered? && q.price.Some? ==> q.price == calls.prevClose.found
    ensures calls.Answered? && !(calls.reference.status == 200 && calls.reference.found.Some?) ==>
              q.companyName == ticker
    ensures calls.Answered? && calls.reference.status == 200 && calls.reference.found.Some? ==>
              q.companyName == calls.reference.found.value.GetOr(ticker)
  {
    match calls
    case Raised => Quote(ticker, ticker, None)
    case Answered(close, reference) =>
      var price := if close.status == 200 && close.found.Some? then close.found else None;
      var name := if reference.status == 200 && reference.found.Some? then reference.found.value.GetOr(ticker) else ticker;
      Quote(ticker, name, price)
  }

  // ---------------------------------------------------------------------------
  // The fan-out, sequentialised

  /** The outcome of one submitted task: its value, or the exception it raised. */
  datatype TaskResult<T> = Done(value: T) | Failed

  /** Everything `compute_recommendations` consumes from outside: the quote and news
      tasks in the order they completed, the model, the JSON parser, Python's `str` of a
      float, and whether an exception escapes prompt composition (the logging `print`
      calls are the only statements there that can still raise). */
  datatype Environment = Environment(
    quotes: seq<(string, TaskResult<QuoteCalls>)>,
    news: seq<(string, TaskResult<seq<News.Article>>)>,
    llm: string -> LlmReply,
    parse: string -> Option<seq<Value>>,
    showFloat: real -> string,
    composeRaises: bool)

  /** The reply of the chat-completion client, or the exception it raised. */
  datatype LlmReply = Completion(text: string) | ClientError

  function Keys<T>(arrivals: seq<(string, T)>): (r: seq<string>)
    ensures |r| == |arrivals| && forall i :: 0 <= i < |r| ==> r[i] == arrivals[i].0
  {
    seq(|arrivals|, i requires 0 <= i < |arrivals| => arrivals[i].0)
  }

  /** `keys` lists every ticker of the universe exactly once: as many entries as
      there are tickers, pairwise distinct, each one of them. */
  predicate EachTickerOnce(keys: seq<string>) {
    && |keys| == |TopTickers|
    && (forall i, j :: 0 <= i < j < |keys| ==> keys[i] != keys[j])
    && (forall i :: 0 <= i < |keys| ==> keys[i] in TopTickers)
  }

  /** `as_completed` yields every submitted task exactly once: one quote task and one
      news task per ticker of the universe, in some order. */
  predicate Completed(env: Environment) {
    EachTickerOnce(Keys(env.quotes)) && EachTickerOnce(Keys(env.news))
  }

  /** The record appended for one completed quote task. */
  function QuoteOf(arrival: (string, TaskResult<QuoteCalls>)): (r: Quote)
    ensures r.ticker == arrival.0
    ensures arrival.1.Failed? ==> r.companyName == arrival.0 && r.price.None?
  {
    match arrival.1
    case Done(calls) => PolygonQuote(arrival.0, calls)
    case Failed => Quote(arrival.0, arrival.0, None)
  }

  function Quotes(arrivals: seq<(string, TaskResult<QuoteCalls>)>): (r: seq<Quote>)
    ensures |r| == |arrivals| && forall i :: 0 <= i < |r| ==> r[i] == QuoteOf(arrivals[i]) && r[i].ticker == arrivals[i].0
  {
    seq(|arrivals|, i requires 0 <= i < |arrivals| => QuoteOf(arrivals[i]))
  }

  function NewsOf(result: TaskResult<seq<News.Article>>): seq<News.Article>
  {
    match result
    case Done(articles) => articles
    case Failed => []
  }

  /** `news_data` after the news loop: each completed task writes its ticker's entry. */
  function NewsTable(arrivals: seq<(string, TaskResult<seq<News.Article>>)>): (t: map<string, seq<News.Article>>)
    ensures forall i :: 0 <= i < |arrivals| ==> arrivals[i].0 in t
    ensures forall ticker :: ticker in t ==> exists i :: 0 <= i < |arrivals| && arrivals[i].0 == ticker
  {
    if |arrivals| == 0 then map[]
    else
      var last := arrivals[|arrivals| - 1];
      var t0 := NewsTable(arrivals[..|arrivals| - 1]);
      assert forall i :: 0 <= i < |arrivals| - 1 ==> arrivals[..|arrivals| - 1][i] == arrivals[i];
      t0[last.0 := NewsOf(last.1)]
  }

  /** With every ticker completing once, the table holds each task's own result. */
  lemma {:induction false} NewsTableEntry(arrivals: seq<(string, TaskResult<seq<News.Article>>)>, k: nat)
    requires k < |arrivals|
    requires forall i, j :: 0 <= i < j < |arrivals| ==> arrivals[i].0 != arrivals[j].0
    ensures arrivals[k].0 in NewsTable(arrivals) && NewsTable(arrivals)[arrivals[k].0] == NewsOf(arrivals[k].1)
  {
    var n := |arrivals|;
    if k < n - 1 {
      var init := arrivals[..n - 1];
      assert init[k] == arrivals[k];
      NewsTableEntry(init, k);
    }
  }

  datatype Stock = Stock(quote: Quote, news: seq<News.Article>)

  function Attach(quotes: seq<Quote>, table: map<string, seq<News.Article>>): (r: seq<Stock>)
    ensures |r| == |quotes|
    ensures forall i :: 0 <= i < |r| ==> r[i].quote == quotes[i]
    ensures forall i :: 0 <= i < |r| ==> r[i].news == if quotes[i].ticker in table then table[quotes[i].ticker] else []
  {
    seq(|quotes|, i requires 0 <= i < |quotes| =>
      Stock(quotes[i], if quotes[i].ticker in table then table[quotes[i].ticker] else []))
  }

  /** `stocks_data` once every stock has its `news`. */
  function StocksData(env: Environment): seq<Stock>
  {
    Attach(Quotes(env.quotes), NewsTable(env.news))
  }

  /** `stocks_data` holds one record per ticker of the universe, in the order the quote
      tasks completed. */
  lemma StocksCoverUniverse(env: Environment)
    requires Completed(env)
    ensures |StocksData(env)| == |TopTickers|
    ensures forall i :: 0 <= i < |StocksData(env)| ==>
              StocksData(env)[i].quote.ticker == env.quotes[i].0 && env.quotes[i].0 in TopTickers
    ensures forall i, j :: 0 <= i < j < |StocksData(env)| ==> env.quotes[i].0 != env.quotes[j].0
  {
    var quoteKeys := Keys(env.quotes);
    assert forall i :: 0 <= i < |quoteKeys| ==> quoteKeys[i] == env.quotes[i].0;
  }

  /** Each stock carries the news its own news task produced (`[]` when that task
      failed). */
  lemma StocksCarryOwnNews(env: Environment)
    requires Completed(env)
    ensures forall i, k :: 0 <= i < |StocksData(env)| && 0 <= k < |env.news| && env.news[k].0 == env.quotes[i].0
              ==> StocksData(env)[i].news == NewsOf(env.news[k].1)
  {
    var quotes, table := Quotes(env.quotes), NewsTable(env.news);
    var stocks := Attach(quotes, table);
    assert forall i :: 0 <= i < |env.news| ==> Keys(env.news)[i] == env.news[i].0;
    forall i, k | 0 <= i < |stocks| && 0 <= k < |env.news| && env.news[k].0 == env.quotes[i].0
      ensures stocks[i].news == NewsOf(env.news[k].1)
    {
      NewsTableEntry(env.news, k);
      assert quotes[i].ticker == env.news[k].0;
    }
  }

  // ---------------------------------------------------------------------------
  // The prompt

  function PriceText(price: Option<real>, showFloat: real -> string): string
  {
    match price
    case None => "None"
    case Some(p) => showFloat(p)
  }

  /** The text of one article inside the prompt, without its line break. */
  function ArticleBody(a: News.Article): string
  {
    "- " + a.title + " (" + a.source + "): " + a.content
  }

  function ArticleLines(news: seq<News.Article>): (r: seq<string>)
    ensures |r| == |news| && forall j :: 0 <= j < |news| ==> r[j] == ArticleBody(news[j]) + "\n"
  {
    seq(|news|, j requires 0 <= j < |news| => ArticleBody(news[j]) + "\n")
  }

  function StockHeading(s: Stock, showFloat: real -> string): string
  {
    "\nTicker: " + s.quote.ticker + "\nCompany: " + s.quote.companyName
    + "\nPrice: " + PriceText(s.quote.price, showFloat) + "\nNews:\n"
  }

  function StockBlock(s: Stock, showFloat: real -> string): string
  {
    StockHeading(s, showFloat) + Concat(ArticleLines(s.news))
  }

  function StockBlocks(stocks: seq<Stock>, showFloat: real -> string): (r: seq<string>)
    ensures |r| == |stocks| && forall i :: 0 <= i < |stocks| ==> r[i] == StockBlock(stocks[i], showFloat)
  {
    seq(|stocks|, i requires 0 <= i < |stocks| => StockBlock(stocks[i], showFloat))
  }

  /** The prompt sent to the model: the instructions, then one block per stock. */
  function PromptText(stocks: seq<Stock>, showFloat: real -> string): string
  {
    Concat([PromptHeader] + StockBlocks(stocks, showFloat))
  }

  /** A stock's news part of the prompt is one `- title (source): content` line per
      article, in order, when no field holds a line break. */
  lemma ArticleLinesInOrder(news: seq<News.Article>)
    requires forall j :: 0 <= j < |news| ==>
               '\n' !in news[j].title && '\n' !in news[j].source && '\n' !in news[j].content
    ensures Split(Concat(ArticleLines(news)), '\n')
            == seq(|news|, j requires 0 <= j < |news| => ArticleBody(news[j])) + [""]
  {
    var bodies := seq(|news|, j requires 0 <= j < |news| => ArticleBody(news[j]));
    assert ArticleLines(news) == seq(|bodies|, j requires 0 <= j < |bodies| => bodies[j] + ['\n']);
    ConcatTerminated(bodies, '\n');
    SplitJoin(bodies + [""], '\n');
  }

  /** The prompt loop of `prompt_groq_for_recommendations`, appending with `+=`. */
  /** Each stock adds its block to the end of the prompt. */
  lemma PromptTextStep(stocks: seq<Stock>, i: nat, showFloat: real -> string)
    requires i < |stocks|
    ensures PromptText(stocks[..i + 1], showFloat) == PromptText(stocks[..i], showFloat) + StockBlock(stocks[i], showFloat)
  {
    var blocks := [PromptHeader] + StockBlocks(stocks[..i], showFloat);
    assert [PromptHeader] + StockBlocks(stocks[..i + 1], showFloat) == blocks + [StockBlock(stocks[i], showFloat)];
    ConcatSnoc(blocks, StockBlock(stocks[i], showFloat));
  }

  method BuildPrompt(stocks: seq<Stock>, showFloat: real -> string) returns (prompt: string)
    ensures prompt == PromptText(stocks, showFloat)
  {
    prompt := PromptHeader;
    assert [PromptHeader] + StockBlocks(stocks[..0], showFloat) == [PromptHeader];
    ConcatSingle(PromptHeader);
    for i := 0 to |stocks|
      invariant prompt == PromptText(stocks[..i], showFloat)
    {
      PromptTextStep(stocks, i, showFloat);
      prompt := AppendStock(prompt, stocks[i], showFloat);
    }
    assert stocks[..|stocks|] == stocks;
  }

  /** One iteration of the outer loop: the stock's heading, then its articles. */
  method AppendStock(start: string, stock: Stock, showFloat: real -> string) returns (prompt: string)
    ensures prompt == start + StockBlock(stock, showFloat)
  {
    prompt := start + StockHeading(stock, showFloat);
    prompt := AppendArticles(prompt, stock.news);
  }

  /** The inner loop of the prompt: one line per article, appended in order. */
  method AppendArticles(start: string, news: seq<News.Article>) returns (prompt: string)
    ensures prompt == start + Concat(ArticleLines(news))
  {
    ghost var lines := ArticleLines(news);
    prompt := start;
    for j := 0 to |news|
      invariant prompt == start + Concat(lines[..j])
    {
      var line := ArticleBody(news[j]) + "\n";
      ConcatSnoc(lines[..j], line);
      assert lines[..j + 1] == lines[..j] + [line];
      prompt := prompt + line;
    }
    assert lines[..|lines|] == lines;
  }

  // ---------------------------------------------------------------------------
  // The reply

  /** `get_groq_analysis`: the stripped reply, or the placeholder when the client raised. */
  function GroqAnalysis(prompt: string, llm: string -> LlmReply): string
  {
    match llm(prompt)
    case Completion(text) => Strip(text)
    case ClientError => NoAnalysis
  }

  /** A character the cleaning keeps: code point 32 or above, or a newline or tab. */
  predicate Kept(c: char) {
    c as int >= 32 || c == '\n' || c == '\t'
  }

  /** The comprehension that removes control characters. */
  function Clean(s: string): (r: string)
    ensures |r| <= |s|
    ensures forall k :: 0 <= k < |r| ==> Kept(r[k])
    ensures forall c :: c in r ==> c in s
  {
    if |s| == 0 then "" else (if Kept(s[0]) then [s[0]] else "") + Clean(s[1..])
  }

  /** Cleaning works character by character: it keeps exactly the kept characters. */
  lemma {:induction false} CleanAppend(a: string, b: string)
    ensures Clean(a + b) == Clean(a) + Clean(b)
  {
    if |a| > 0 {
      assert (a + b)[0] == a[0] && (a + b)[1..] == a[1..] + b;
      CleanAppend(a[1..], b);
    } else {
      assert a + b == b;
    }
  }

  /** Text made only of kept characters is left as it is. */
  lemma {:induction false} CleanKeepsClean(s: string)
    requires forall k :: 0 <= k < |s| ==> Kept(s[k])
    ensures Clean(s) == s
  {
    if |s| > 0 {
      CleanKeepsClean(s[1..]);
    }
  }

  /** Cleaning is idempotent. */
  lemma CleanIdempotent(s: string)
    ensures Clean(Clean(s)) == Clean(s)
  {
    CleanKeepsClean(Clean(s));
  }

  /** `a` is `b` with some characters deleted. */
  predicate IsSubsequence(a: string, b: string)
    decreases |b|
  {
    |a| == 0 || (|b| > 0 && ((a[0] == b[0] && IsSubsequence(a[1..], b[1..])) || IsSubsequence(a, b[1..])))
  }

  /** The cleaned reply is a subsequence of the reply. */
  lemma {:induction false} CleanIsSubsequence(s: string)
    ensures IsSubsequence(Clean(s), s)
  {
    if |s| > 0 {
      CleanIsSubsequence(s[1..]);
      if Kept(s[0]) {
        assert Clean(s) == [s[0]] + Clean(s[1..]);
        assert Clean(s)[1..] == Clean(s[1..]);
      } else {
        assert Clean(s) == Clean(s[1..]);
      }
    }
  }

  /** The tolerant parser: clean, take the greedy `[ ... ]` span, parse it; no span or a
      failed parse give the empty list. */
  function ParseRecommendations(reply: string, parse: string -> Option<seq<Value>>): (r: seq<Value>)
    ensures Span(Clean(reply), '[', ']').None? ==> r == []
    ensures Span(Clean(reply), '[', ']').Some? ==> r == parse(Span(Clean(reply), '[', ']').value).GetOr([])
  {
    match Span(Clean(reply), '[', ']')
    case None => []
    case Some(text) =>
      match parse(text)
      case None => []
      case Some(items) => items
  }

  /** A reply without an opening bracket, or without a closing one, yields no
      recommendations whatever the parser does. */
  lemma NoBracketsNoRecommendations(reply: string, parse: string -> Option<seq<Value>>)
    requires '[' !in reply || ']' !in reply
    ensures ParseRecommendations(reply, parse) == []
  {
    var cleaned := Clean(reply);
    assert '[' !in cleaned || ']' !in cleaned;
  }

  /** The placeholder of a failed model call holds no bracket. */
  lemma NoAnalysisHasNoBracket()
    ensures '[' !in NoAnalysis && ']' !in NoAnalysis
  {
  }

  /** A clean reply holding one bracketed text, with no `[` before it and no `]` after
      it, parses as exactly that text, whatever surrounds it. */
  lemma EmbeddedArray(before: string, bracketed: string, after: string, parse: string -> Option<seq<Value>>)
    requires forall k :: 0 <= k < |before + bracketed + after| ==> Kept((before + bracketed + after)[k])
    requires |bracketed| >= 2 && bracketed[0] == '[' && bracketed[|bracketed| - 1] == ']'
    requires '[' !in before && ']' !in after
    ensures ParseRecommendations(before + bracketed + after, parse) == parse(bracketed).GetOr([])
  {
    CleanKeepsClean(before + bracketed + after);
    SpanEmbedded(before, bracketed, after, '[', ']');
  }

  // ---------------------------------------------------------------------------
  // The result

  /** The record substituted for a stock when composition raised. */
  function FallbackRecord(q: Quote): Value
  {
    Object(map[
      "ticker" := Str(q.ticker),
      "company_name" := Str(q.companyName),
      "sentiment" := Number(0.0),
      "summary" := Str(NoAnalysis)])
  }

  /** The fallback loop: one record for each of the first (at most) three stocks. */
  method Fallback(stocks: seq<Stock>) returns (records: seq<Value>)
    ensures records == FallbackRecords(stocks)
  {
    records := [];
    var head := Prefix(stocks, MaxRecommendations);
    for i := 0 to |head|
      invariant records == FallbackRecords(head[..i])
    {
      assert head[..i + 1][..i] == head[..i];
      records := records + [FallbackRecord(head[i].quote)];
    }
    assert head[..|head|] == head;
  }

  function FallbackRecords(stocks: seq<Stock>): (r: seq<Value>)
    ensures |r| == (if |stocks| < MaxRecommendations then |stocks| else MaxRecommendations)
    ensures forall i :: 0 <= i < |r| ==> r[i] == FallbackRecord(stocks[i].quote)
  {
    var head := Prefix(stocks, MaxRecommendations);
    seq(|head|, i requires 0 <= i < |head| => FallbackRecord(head[i].quote))
  }

  /** The records the model's reply parses into, before the cap. */
  function Analysis(env: Environment): seq<Value>
  {
    ParseRecommendations(GroqAnalysis(PromptText(StocksData(env), env.showFloat), env.llm), env.parse)
  }

  /** What `compute_recommendations` returns: the first three parsed records, or the
      fallback when composition raised. */
  function Recommend(env: Environment): (r: seq<Value>)
    ensures |r| <= MaxRecommendations
    ensures env.composeRaises ==> r == FallbackRecords(StocksData(env))
    ensures !env.composeRaises ==>
              var parsed := Analysis(env);
              && |r| == (if |parsed| < MaxRecommendations then |parsed| else MaxRecommendations)
              && forall i :: 0 <= i < |r| ==> r[i] == parsed[i]
  {
    if env.composeRaises then FallbackRecords(StocksData(env))
    else Prefix(Analysis(env), MaxRecommendations)
  }

  /** A failed model call gives `[]`, not the fallback: the error is swallowed into a
      bracket-free placeholder. */
  lemma ClientErrorGivesNothing(env: Environment)
    requires !env.composeRaises
    requires env.llm(PromptText(StocksData(env), env.showFloat)) == ClientError
    ensures Recommend(env) == []
  {
    NoAnalysisHasNoBracket();
    NoBracketsNoRecommendations(NoAnalysis, env.parse);
  }

  /** The fallback names three distinct tickers of the universe: the first three quote
      tasks to complete, not necessarily the first three of `TopTickers`. */
  lemma FallbackShape(env: Environment)
    requires Completed(env) && env.composeRaises
    ensures |Recommend(env)| == 3
    ensures forall i :: 0 <= i < 3 ==>
              && Recommend(env)[i] == FallbackRecord(StocksData(env)[i].quote)
              && StocksData(env)[i].quote.ticker == env.quotes[i].0
              && env.quotes[i].0 in TopTickers
    ensures forall i, j :: 0 <= i < j < 3 ==> env.quotes[i].0 != env.quotes[j].0
  {
    StocksCoverUniverse(env);
  }

  /** The loop over the completed quote tasks. */
  method CollectQuotes(arrivals: seq<(string, TaskResult<QuoteCalls>)>) returns (stocksData: seq<Quote>)
    ensures stocksData == Quotes(arrivals)
  {
    stocksData := [];
    for i := 0 to |arrivals|
      invariant stocksData == Quotes(arrivals[..i])
    {
      var (ticker, result) := arrivals[i];
      match result {
        case Done(calls) =>
          stocksData := stocksData + [PolygonQuote(ticker, calls)];
        case Failed =>
          stocksData := stocksData + [Quote(ticker, ticker, None)];
      }
    }
    assert arrivals[..|arrivals|] == arrivals;
  }

  /** The loop over the completed news tasks. */
  method CollectNews(arrivals: seq<(string, TaskResult<seq<News.Article>>)>) returns (newsData: map<string, seq<News.Article>>)
    ensures newsData == NewsTable(arrivals)
  {
    newsData := map[];
    for i := 0 to |arrivals|
      invariant newsData == NewsTable(arrivals[..i])
    {
      assert arrivals[..i + 1][..i] == arrivals[..i];
      var (ticker, result) := arrivals[i];
      match result {
        case Done(articles) =>
          newsData := newsData[ticker := articles];
        case Failed =>
          newsData := newsData[ticker := []];
      }
    }
    assert arrivals[..|arrivals|] == arrivals;
  }

  /** The loop that gives every stock its `news`. */
  method AttachNews(stocksData: seq<Quote>, newsData: map<string, seq<News.Article>>) returns (stocks: seq<Stock>)
    ensures stocks == Attach(stocksData, newsData)
  {
    stocks := [];
    for i := 0 to |stocksData|
      invariant stocks == Attach(stocksData[..i], newsData)
    {
      var q := stocksData[i];
      stocks := stocks + [Stock(q, if q.ticker in newsData then newsData[q.ticker] else [])];
    }
    assert stocksData[..|stocksData|] == stocksData;
  }

  /** `compute_recommendations`, with the completed tasks taken in their completion
      order. */
  method ComputeRecommendations(env: Environment) returns (recs: seq<Value>)
    ensures recs == Recommend(env)
  {
    var stocksData := CollectQuotes(env.quotes);
    var newsData := CollectNews(env.news);
    var stocks := AttachNews(stocksData, newsData);
    if env.composeRaises {
      recs := Fallback(stocks);
      return;
    }
    var prompt := BuildPrompt(stocks, env.showFloat);
    var reply := GroqAnalysis(prompt, env.llm);
    var parsed := ParseRecommendations(reply, env.parse);
    recs := Prefix(parsed, MaxRecommendations);
  }

  // ---------------------------------------------------------------------------
  // The cache

  /** `_recommendations_cache`: the last result and the clock reading taken when the call
      that computed it began. `data` is `None` until the first computation. */
  class RecommendationCache {
    var data: Option<seq<Value>>
    var timestamp: real
    ghost var computations: nat

    constructor()
      ensures data == None && timestamp == 0.0 && computations == 0
    {
      data := None;
      timestamp := 0.0;
      computations := 0;
    }

    /** The stored result is served: it is truthy (present and non-empty) and younger
        than the lifetime. */
    predicate Serves(now: real)
      reads this
    {
      data.Some? && data.value != [] && now - timestamp < CacheTtl
    }

    /** `get_recommendations_cached`; `now` is the clock read at entry. A miss computes,
        overwrites both fields, stamps the entry with `now` (the time before computing),
        and returns what it stored. */
    method GetCached(now: real, env: Environment) returns (r: seq<Value>)
      modifies this
      ensures old(Serves(now)) ==> r == old(data).value && unchanged(this)
      ensures !old(Serves(now)) ==>
                && r == Recommend(env) && data == Some(r) && timestamp == now
                && computations == old(computations) + 1
    {
      if data.Some? && data.value != [] && now - timestamp < CacheTtl {
        return data.value;
      }
      r := ComputeRecommendations(env);
      computations := computations + 1;
      data := Some(r);
      timestamp := now;
    }
  }

  /** An empty result is never served: the call after one recomputes, however soon. */
  method EmptyResultIsRecomputed(cache: RecommendationCache, t1: real, env1: Environment, t2: real, env2: Environment)
    returns (r1: seq<Value>, r2: seq<Value>)
    requires Recommend(env1) == [] && !cache.Serves(t1)
    modifies cache
    ensures r1 == [] && r2 == Recommend(env2) && cache.computations == old(cache.computations) + 2
  {
    r1 := cache.GetCached(t1, env1);
    r2 := cache.GetCached(t2, env2);
  }

  /** Within the lifetime a non-empty result is served again without recomputing, even
      when the world has changed. */
  method ServedWithinLifetime(cache: RecommendationCache, t1: real, env1: Environment, t2: real, env2: Environment)
    returns (r1: seq<Value>, r2: seq<Value>)
    requires !cache.Serves(t1) && Recommend(env1) != [] && t1 <= t2 < t1 + CacheTtl
    modifies cache
    ensures r1 == r2 == Recommend(env1) && cache.computations == old(cache.computations) + 1
  {
    r1 := cache.GetCached(t1, env1);
    r2 := cache.GetCached(t2, env2);
  }
}

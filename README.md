# FinSense AI backend — a verified model of its decision logic

This project models the FinSense AI backend in Dafny: the Flask service behind the FinSense dashboard. It covers the parts where the service decides something, and those decisions sit between calls to market-data providers, a news API, the Groq completion client, OCR and a sentiment classifier. Each external call becomes an input: an outcome value, a function or a clock reading.

What the model covers:

- **Recommendation pipeline** (`backend/recommendations.py`):
  - the quote record;
  - the quote and news tasks, taken sequentially in their completion order;
  - the merge of news into stocks;
  - the prompt, built with `+=`;
  - the control-character filter and the greedy `[...]` extraction;
  - the cap of three records and the fallback records;
  - the single-slot 60-second result cache, a class whose `data` and `timestamp` fields are updated in place.
- **Small rules of `backend/app.py`**:
  - the Groq retry and back-off loop;
  - the `{...}` extraction and defaults of `/sentiment`;
  - the per-key five-minute caches;
  - `safe_score` and the financial ratios;
  - the competitor list;
  - the monthly-return bucketing of the sentiment timeline;
  - the rebalancing actions;
  - the extraction of AI-suggested tickers and the percentage they receive;
  - the `rate_limited_request` wait rule.
- **News** (`backend/news.py`):
  - key validation;
  - status dispatch to demo news;
  - article defaults and the `limit` cap;
  - the demo articles;
  - the one-second spacing of requests.
- **Portfolio** (`backend/portfolio.py`):
  - the `"AAPL:100,MSFT:50"` holdings parser;
  - the bookkeeping of `calculate_portfolio_metrics`: prices, sectors, total value, sector totals and exposure, diversification score and risk level.
- **OCR text classification** (`backend/image_analysis.py`).
- **Headline sentiment aggregation** (`backend/sentiment.py`).

Modelling choices:

- **Numbers.** Python floats are Dafny `real`s. Integers are unbounded, which matches Python.
- **Python dictionaries** are either a `map` or, where the order of the keys matters, `OrderedDict.Dict`. `OrderedDict.Dict` keeps the insertion order, and assigning to a present key keeps that key's position.
- **Imperative code stays imperative.** Where the source works by loops and in-place updates, the model has methods with loops. Each such method is proved equal to a specification function, and the properties are proved as lemmas about that function.
- **Caches are classes.** Their `modifies` clauses cover only the cache.

## Model

| member | source | states |
|---|---|---|
| Text.Strip | backend/portfolio.py:9 | `str.strip()`: no white space at either end of the result, which is no longer than the input; which infix it is, `StripIsInfix` and `StripUnique` state |
| Text.StripIsInfix | backend/portfolio.py:9 | the stripped text is the infix of the input after its leading white space, with only white space after it |
| Text.StripUnique | backend/portfolio.py:9 | any infix with only white space around it and none at either of its ends is the stripped text, so `Strip` is determined independently of its definition |
| Text.StripEmptyIffBlank | backend/image_analysis.py:20-22 | a line strips to empty exactly when every character of it is white space |
| Text.StripIdempotent | backend/portfolio.py:20 | stripping twice is stripping once |
| Text.Lower | backend/image_analysis.py:25 | `str.lower()` maps every character and keeps the length |
| Text.ContainsAt | backend/image_analysis.py:25 | `sub in s` holds exactly when `sub` occurs at some index of `s` |
| Text.IndexOf | backend/recommendations.py:84 | the first index of a character, or none exactly when the character is absent |
| Text.LastIndexOf | backend/recommendations.py:84 | the last index of a character, or none exactly when it is absent |
| Text.SpanBounds | backend/recommendations.py:84 | the greedy match runs from the first opening character to the last closing character after it, and there is none when no closing character follows the first opening one |
| Text.Span | backend/app.py:414 | the greedy span starts with the opening character and ends with the closing one |
| Text.SpanEmbedded | backend/app.py:414 | a text with no opening character before a delimited part and no closing character after it has that part as its span |
| Text.Split | backend/portfolio.py:15 | `s.split(c)` is never empty, its pieces hold no `c`, and joining them with `c` gives `s` back |
| Text.SplitJoin | backend/portfolio.py:15-16 | splitting what joining built gives the parts back when no part holds the separator |
| Text.ConcatSnoc | backend/recommendations.py:69-76 | appending a part with `+=` appends its text |
| Text.ConcatTerminated | backend/recommendations.py:76 | lines each ending with a line break are their join plus one empty last piece |
| Text.NatToString | backend/image_analysis.py:40 | `str(n)` is a non-empty run of decimal digits without a leading zero |
| Text.NatToStringValue | backend/image_analysis.py:40 | reading the digits of `str(n)` back gives `n` |
| Seqs.Prefix | backend/recommendations.py:130 | `s[:n]` has `min(n, len(s))` elements, counts from the end for negative `n`, and is a prefix of `s` |
| OrderedDict.Put | backend/portfolio.py:20 | `d[k] = v` updates the value, keeps the position of a present key, appends a new one and keeps the keys distinct |
| OrderedDict.Accumulate | backend/portfolio.py:148 | `d[k] = d.get(k, 0) + x` adds `x` to the sum of the values |
| OrderedDict.AddTo | backend/portfolio.py:148 | `d[k] = d.get(k, 0) + x`: `k` holds its old value (0 when absent) plus `x`, every other key keeps its value, and a new key goes last |
| OrderedDict.SumOverBump | backend/portfolio.py:148 | adding `x` to the value of a key listed once adds `x` to the sum |
| OrderedDict.SumOverOther | backend/portfolio.py:148 | changing the value of an unlisted key leaves the sum unchanged |
| OrderedDict.SumOverScale | backend/portfolio.py:149 | scaling every value scales the sum |
| Recommendations.PolygonQuote | backend/recommendations.py:26-43 | `get_polygon_data` never fails: the price is the first result's close on status 200, the name falls back to the ticker, and an exception gives the ticker-echo record |
| Recommendations.Quotes | backend/recommendations.py:114-119 | one record per completed quote task, in completion order, each the record of its own task and carrying its ticker |
| Recommendations.QuoteOf | backend/recommendations.py:114-119 | the record of one completed quote task carries its ticker; a task that raised gives the ticker-echo record with no price |
| Recommendations.NewsTable | backend/recommendations.py:120-125 | `news_data` has exactly the tickers of the completed news tasks as keys |
| Recommendations.NewsTableEntry | backend/recommendations.py:120-125 | when each ticker completes once, its entry is its own task's result, or `[]` when that task failed |
| Recommendations.Attach | backend/recommendations.py:126-127 | each stock gets the news of its ticker, or `[]` when the ticker has none |
| Recommendations.StocksCoverUniverse | backend/recommendations.py:110-119 | `stocks_data` holds one record per ticker of `TOP_TICKERS`, the tickers pairwise distinct |
| Recommendations.StocksCarryOwnNews | backend/recommendations.py:120-127 | every stock carries the news its own news task produced |
| Recommendations.ArticleLines | backend/recommendations.py:75-76 | one `- title (source): content` line per article, in order |
| Recommendations.StockBlocks | backend/recommendations.py:68-76 | one block per stock, in order |
| Recommendations.ArticleLinesInOrder | backend/recommendations.py:75-76 | splitting the news part of the prompt on line breaks gives the article lines in order when no field holds a line break |
| Recommendations.PromptTextStep | backend/recommendations.py:68-76 | each stock appends its block to the end of the prompt |
| Recommendations.BuildPrompt | backend/recommendations.py:61-76 | the `+=` loop builds the instructions followed by the stock blocks |
| Recommendations.AppendStock | backend/recommendations.py:69-76 | one outer iteration appends the stock's heading and its article lines |
| Recommendations.AppendArticles | backend/recommendations.py:75-76 | the inner loop appends the article lines in order |
| Recommendations.Clean | backend/recommendations.py:82 | cleaning keeps only characters with code 32 or more, a newline or a tab, and adds none |
| Recommendations.CleanAppend | backend/recommendations.py:82 | cleaning works character by character: `Clean(a + b) == Clean(a) + Clean(b)` |
| Recommendations.CleanKeepsClean | backend/recommendations.py:82 | text made only of kept characters is unchanged |
| Recommendations.CleanIdempotent | backend/recommendations.py:82 | cleaning twice is cleaning once |
| Recommendations.CleanIsSubsequence | backend/recommendations.py:82 | the cleaned reply is a subsequence of the reply |
| Recommendations.ParseRecommendations | backend/recommendations.py:82-96 | no `[...]` span gives `[]`; otherwise the parse of the span, or `[]` when it fails |
| Recommendations.NoBracketsNoRecommendations | backend/recommendations.py:84-96 | a reply lacking `[` or `]` yields `[]` whatever the parser does |
| Recommendations.NoAnalysisHasNoBracket | backend/recommendations.py:56-58 | the placeholder "No AI analysis available." holds no bracket |
| Recommendations.EmbeddedArray | backend/recommendations.py:84-92 | a clean reply with one bracketed text, no `[` before it and no `]` after it, parses as that text |
| Recommendations.FallbackRecords | backend/recommendations.py:131-140 | the fallback has one record per stock of the first `min(3, n)`, with sentiment 0 and the placeholder summary |
| Recommendations.Fallback | backend/recommendations.py:132-140 | the fallback loop builds exactly those records |
| Recommendations.Recommend | backend/recommendations.py:128-140 | the fallback when composition raises; otherwise exactly the first `min(3, n)` of the `n` parsed records |
| Recommendations.ClientErrorGivesNothing | backend/recommendations.py:45-58 | a failed model call yields `[]`, not the fallback |
| Recommendations.FallbackShape | backend/recommendations.py:133-139 | the fallback names three distinct tickers: the first three quote tasks to complete |
| Recommendations.CollectQuotes | backend/recommendations.py:114-119 | the quote loop builds `Quotes` |
| Recommendations.CollectNews | backend/recommendations.py:120-125 | the news loop builds `NewsTable` |
| Recommendations.AttachNews | backend/recommendations.py:126-127 | the merge loop builds `Attach` |
| Recommendations.ComputeRecommendations | backend/recommendations.py:108-140 | the whole sequentialised pipeline returns `Recommend` |
| Recommendations.RecommendationCache.constructor | backend/recommendations.py:23 | the cache starts with no data and timestamp 0 |
| Recommendations.RecommendationCache.GetCached | backend/recommendations.py:98-106 | a truthy result younger than 60 seconds is returned unchanged with no computation; otherwise both fields are overwritten, the timestamp with the clock read at entry, and the stored value is returned |
| Recommendations.EmptyResultIsRecomputed | backend/recommendations.py:100-104 | after an `[]` result the next call recomputes, however soon |
| Recommendations.ServedWithinLifetime | backend/recommendations.py:98-106 | within the lifetime a non-empty result is served again with no recomputation |
| RateLimit.Wait | backend/news.py:56-58 | the wait is `delay - elapsed` when `elapsed < delay`, and none otherwise |
| RateLimit.Throttle.constructor | backend/app.py:71-73 | the wrapper's last request time starts at 0 |
| RateLimit.Throttle.Call | backend/app.py:75-86 | it waits by `Wait`, and `last_request_time` is set to the clock after the call only when the call returns |
| Groq.FailureTextsHaveNoBrace | backend/app.py:173-175 | neither fixed failure text holds `{` |
| Groq.RunFrom | backend/app.py:146-175 | the loop makes at least one and at most `retries` calls, sleeps at most once per call, and each sleep after the first doubles the one before; no attempt left gives the "after multiple attempts" text |
| Groq.Generate | backend/app.py:146-175 | `groq_generate_content`: no call for no retries, otherwise between 1 and `retries` calls, at most one sleep per call, the first sleep being `delay` |
| Groq.SleepsDouble | backend/app.py:163-172 | the `i`-th sleep is `delay * 2^i` seconds |
| Groq.FirstReplyWins | backend/app.py:148-157 | the first successful call decides the text, and no call follows it |
| Groq.AllFail | backend/app.py:158-175 | when every call fails, all `retries` calls are made; a rate-limit failure on the last attempt gives the "after multiple attempts" text, and any other failure gives "due to: <msg>" |
| Groq.NoRetriesNoCall | backend/app.py:147-175 | with no attempts allowed, no call is made and the "after multiple attempts" text is returned |
| Groq.GenerateContent | backend/app.py:146-175 | the loop returns the text, sleeps and call count of `Generate` |
| Groq.RetryStep | backend/app.py:161-173 | a retried failure sleeps for the current delay, counts one call and doubles the delay, leaving the rest of the run as it was |
| TtlCache.Cache.constructor | backend/app.py:55 | the cache starts empty |
| TtlCache.Cache.Lookup | backend/app.py:1109-1110 | a value is returned exactly when the key is present and younger than 300 seconds |
| TtlCache.Cache.Store | backend/app.py:1114 | the key's entry is replaced and nothing else changes |
| TtlCache.AnalyzeSentimentWithCache | backend/app.py:1106-1115 | a hit returns the stored value and `True` with the cache unchanged; a miss returns the Groq text with three retries and `False`, stored with the clock read at entry |
| TtlCache.SentimentServedWithinLifetime | backend/app.py:1106-1115 | a second call within 300 seconds of a miss is a hit and returns the same text |
| Fundamentals.Trunc | backend/app.py:574 | `int(x)` truncates toward zero |
| Fundamentals.TruncMonotone | backend/app.py:574 | truncation is monotone |
| Fundamentals.Clamp | backend/app.py:574 | `max(0, min(100, n))` lies in [0, 100] and is `n` inside it |
| Fundamentals.SafeScore | backend/app.py:568-575 | the score lies in [0, 100]; None, 'N/A', an unconvertible value or an empty range give 50; otherwise, with `t = 100 (v - lo) / (hi - lo)`, it is 0 below 1, 100 from 100 up, and `int(t)` in between |
| Fundamentals.SafeScoreEnds | backend/app.py:568-575 | the range's ends score 0 and 100 |
| Fundamentals.SafeScoreMonotone | backend/app.py:568-575 | on a rising range a larger figure never scores lower |
| Fundamentals.SafeScoreReversed | backend/app.py:578 | on the reversed leverage range a larger figure never scores higher |
| Fundamentals.FinancialRatios | backend/app.py:576-582 | five ratios in order Liquidity, Leverage, Efficiency, Profitability, Market Value, each in [0, 100] and each the `safe_score` of its own field, default and range, Leverage on the reversed range (2, 0) |
| Fundamentals.RatiosFollowTheirFields | backend/app.py:576-582 | a higher current ratio, asset turnover, gross margin or P/E never lowers its score; a higher debt-to-equity never raises the Leverage score |
| Fundamentals.LeverageReadsOnlyDebtToEquity | backend/app.py:578 | changing any field other than debt-to-equity leaves the Leverage score unchanged |
| Fundamentals.DefaultRatioScores | backend/app.py:576-582 | information without the five fields scores 40, 75, 44, 30 and 33 |
| Fundamentals.FallbackRatios | backend/app.py:507-513 | the static report's five ratios: Liquidity 60, Leverage 70, Efficiency 65, Profitability 80, Market Value 55 |
| Fundamentals.Without | backend/app.py:584 | the comprehension keeps exactly the elements other than `x` and keeps them distinct |
| Fundamentals.CompTickers | backend/app.py:584 | the ticker first, then the peers other than it: three entries when it is a peer, four otherwise, all distinct |
| Fundamentals.BuildReport | backend/app.py:560-629 | the computed ratios and competitors when the company information loads, otherwise the static ratios and the static competitors `[ticker, "AAPL", "GOOGL"]` (which lists AAPL twice for AAPL); the analysis is set, stripped, exactly when it is not blank |
| Fundamentals.FundamentalService.constructor | backend/app.py:47 | the fundamental cache starts empty |
| Fundamentals.FundamentalService.Fundamental | backend/app.py:465-633 | no ticker gives the 400 error with no change; a hit serves the cached report; a miss builds the report and stores it with the clock after the work |
| News.ValidateApiKey | backend/news.py:24-32 | a key is valid exactly when it is present with at least ten characters |
| News.CacheNeverShortCircuits | backend/news.py:34-48 | the cached lookup always answers `[]`, so the cache check never returns early (this follows from the definition alone) |
| News.Normalize | backend/news.py:84-96 | a present title, source name, publication time and url are carried through, absent ones default to "", "Unknown", "" and ""; the content is the description when truthy, else the content when truthy, else ""; sentiment 0 and credibility 3; nothing when `source` is not an object, where the comprehension raises |
| News.FirstTruthy | backend/news.py:89 | `x or y or ""`: non-empty exactly when one of the two is present and non-empty, and then the first such |
| News.NormalizeKeepsFields | backend/news.py:84-96 | every field an article carries survives normalisation of a provider article holding it |
| News.NormalizeAll | backend/news.py:84-96 | one normalised article per provider article, in order, or nothing when one of them has a non-object `source` |
| News.DemoArticle | backend/news.py:116-143 | a demo article comes from the demo source and links to the example page |
| News.DemoNews | backend/news.py:114-144 | exactly three items, with sentiments 0.5, 0.1 and 0.7 and credibilities 4, 3 and 5 |
| News.FromReply | backend/news.py:68-111 | a status other than 200, an error body, an unreadable body or a kept article with a non-object `source` gives demo news; otherwise exactly the articles of `articles[:limit]`, each normalised, in order |
| News.AcceptedKeepsLimit | backend/news.py:84 | an accepted reply with object sources keeps exactly `min(limit, n)` of its `n` articles |
| News.NewsService.constructor | backend/news.py:20 | the last request time starts at 0 |
| News.NewsService.GetNews | backend/news.py:39-112 | an invalid key returns demo news with no request and no wait; otherwise the wait rule is applied, the last request time becomes the clock after the request, and the answer is `FromReply` |
| SentimentReply.WithSentiment | backend/app.py:426-427 | every article's sentiment becomes the overall score and nothing else changes |
| SentimentReply.ToFloat | backend/app.py:428 | `float(v)` when it does not raise: numbers as they are, strings through the parser, booleans as 1 and 0, anything else fails |
| SentimentReply.SetSentiment | backend/app.py:426-427 | the article loop computes `WithSentiment` |
| SentimentReply.Interpret | backend/app.py:414-456 | no `{...}` span gives score 0, label Neutral and the unavailable texts; a failing parse or score conversion gives the error texts; otherwise the members with defaults 0, "Neutral", `[]` and `[]`, and every article gets the score |
| SentimentReply.ExhaustedIsUnavailable | backend/app.py:175 | the exhausted-retries text yields the unavailable answer |
| SentimentReply.DueToWithoutBraceIsUnavailable | backend/app.py:166 | a "due to" failure text whose message has no `{` yields the unavailable answer |
| SentimentReply.EmbeddedObject | backend/app.py:414-427 | a JSON object embedded in brace-free text is parsed, and its numeric score is given to every article |
| SentimentReply.MissingScoreIsZero | backend/app.py:420 | an object without `sentiment_score` scores 0, and so does every article |
| SentimentReply.AnswerFor | backend/app.py:414-456 | the endpoint's reply handling computes `Interpret` |
| Timeline.PctChange | backend/app.py:229 | `pct_change()` is NaN in the first row and `cur/prev - 1` wherever the previous close is non-zero |
| Timeline.ChangeAt | backend/app.py:229 | the `i`-th value of `pct_change()`: undefined for the first month and for 0 after 0, finite when the previous close is non-zero, otherwise an infinity with the sign of the close |
| Timeline.Bucket | backend/app.py:230-236 | the score is 1 above 0.05 and -1 below -0.05, keeps the sign of the change, is 0 for no change and 0 for NaN |
| Timeline.LabelOf | backend/app.py:245 | Bullish exactly for a positive score, Bearish exactly for a negative one, Neutral exactly for 0 |
| Timeline.LabelFollowsChange | backend/app.py:245 | Bullish exactly when the price rose, Bearish exactly when it fell, Neutral when unchanged |
| Timeline.PointAt | backend/app.py:241-246 | a point carries the month, the close, the bucketed score and its label |
| Timeline.TimelineAsWritten | backend/app.py:239-246 | the loop as written keeps every month, the first one included |
| Timeline.Points | backend/app.py:239-246 | the timeline keeps only months with a defined change |
| Timeline.TimelineCorrected | backend/app.py:238-247 | the intended timeline: at most one point per month, each the point of a month after the first; `LaterMonthsKept` and `PositivePricesDropFirstMonth` say which |
| Timeline.LaterMonthsKept | backend/app.py:239-246 | with no later undefined change, months 1 to n-1 are kept in order |
| Timeline.PositivePricesDropFirstMonth | backend/app.py:240 | with positive prices the corrected timeline is the written one without its first point |
| Timeline.FirstMonthKeptAsWritten | backend/app.py:240 | as written, the first month, whose change is undefined, is kept with score 0 and label Neutral |
| Timeline.TwoMonthExample | backend/app.py:229-246 | closes 100 and 110 give two points as written and one Bullish point when corrected |
| Timeline.BuildTimeline | backend/app.py:238-247 | the loop as evidently intended, skipping the months without a defined change, builds `TimelineCorrected` (the code as written keeps the first month, see Findings) |
| Rebalance.PctMapKeys | backend/app.py:815 | `curr_pct_map` has exactly the tickers of `current_allocation` |
| Rebalance.PctMap | backend/app.py:815 | `{c['ticker']: c['percentage'] for c in current_allocation}` holds every ticker of the allocation; `PctMapKeys` and `PctMapLastWins` give its exact keys and values |
| Rebalance.PctMapLastWins | backend/app.py:815 | a ticker's percentage is that of its last entry |
| Rebalance.ActionFor | backend/app.py:817-835 | no action when the difference is under one point; otherwise Increase for a positive and Reduce for a negative difference, a missing current percentage counting as 0 |
| Rebalance.Actions | backend/app.py:816-835 | at most one action per target; `ActionsSound`, `ActionsComplete` and `ActionsAppend` say which and in what order |
| Rebalance.ActionsAppend | backend/app.py:816-835 | the actions of two runs of targets are concatenated in order |
| Rebalance.ActionsSound | backend/app.py:816-835 | every action answers a target whose difference is at least one point, with the kind given by its sign |
| Rebalance.ActionsComplete | backend/app.py:816-835 | every target with a difference of at least one point gets its action |
| Rebalance.BuildPctMap | backend/app.py:815 | the loop builds `curr_pct_map` |
| Rebalance.BuildActions | backend/app.py:814-835 | the loop builds the actions in target order |
| SuggestedTickers.SuggestionsAreTickers | backend/app.py:911-917 | every suggestion is two to five capital letters, not yet allocated, and neither "ETF" nor "AI" |
| SuggestedTickers.Suggested | backend/app.py:910-917 | every suggestion is 2 to 5 characters long, not yet allocated and neither ETF nor AI; `SuggestionsAreTickers` and `WordMatches` add the rest |
| SuggestedTickers.WordMatches | backend/app.py:912 | inside a word the only possible match is the whole word, and it matches exactly when it is 2 to 5 capitals |
| SuggestedTickers.ExtractSuggested | backend/app.py:913-917 | the word scan collects exactly the allowed word-bounded matches |
| SuggestedTickers.PerTickerPct | backend/app.py:919-924 | 0 for no suggestion; otherwise 5 each up to three suggestions and 15 in all beyond |
| Portfolio.Entries | backend/portfolio.py:9 | the entries are the stripped comma-separated pieces |
| Portfolio.EntryShape | backend/portfolio.py:13-22 | `a:b` with colon-free pieces counts exactly when `float(b.strip())` succeeds, and it yields `(a.strip(), amount)` |
| Portfolio.EntryShapeConverse | backend/portfolio.py:13-18 | an entry that counts is two colon-free pieces joined by one colon |
| Portfolio.Contributions | backend/portfolio.py:12-22 | each entry's contribution, in order |
| Portfolio.Collect | backend/portfolio.py:10-22 | the holdings dictionary keeps its keys distinct |
| Portfolio.CollectKeys | backend/portfolio.py:20 | the keys are the tickers of the contributions |
| Portfolio.CollectLastWins | backend/portfolio.py:20 | a later duplicate ticker overwrites the earlier amount |
| Portfolio.HoldingsFrom | backend/portfolio.py:10-22 | the parsed holdings form a valid ordered dictionary |
| Portfolio.HoldingsKeys | backend/portfolio.py:12-22 | the tickers held are the stripped tickers of the entries that count |
| Portfolio.HoldingsLastWins | backend/portfolio.py:20 | a ticker holds the amount of its last counted entry |
| Portfolio.ParseHoldings | backend/portfolio.py:9-29 | the error is the invalid-format message; otherwise the holdings are non-empty and valid |
| Portfolio.InvalidIffNoEntryCounts | backend/portfolio.py:24-29 | the invalid-format error is returned exactly when no entry counts |
| Portfolio.ReadEntry | backend/portfolio.py:13-22 | one loop iteration stores exactly `EntryOf` of the entry |
| Portfolio.ReadEntries | backend/portfolio.py:10-22 | the loop with its `continue`s builds `HoldingsFrom` of the entries |
| Portfolio.ParsePortfolio | backend/portfolio.py:9-29 | the loop followed by the emptiness test computes `ParseHoldings` |
| Portfolio.SectorOf | backend/portfolio.py:123-131 | the sector is never empty: the holding's own when non-empty, otherwise the market's when it is non-empty, otherwise "Other" (also when the lookup raised) |
| Portfolio.PriceOf | backend/portfolio.py:106-120 | a price that is not None, not `''` and not NaN is used: its number, or `float` of its text, or 0 when that fails; otherwise the market price, or 0 when there is none |
| Portfolio.Tickers | backend/portfolio.py:100 | the tickers of the holdings, duplicates kept, in order |
| Portfolio.Amounts | backend/portfolio.py:101 | the per-ticker amounts form a valid ordered dictionary; its keys and values are stated by `LookupKeys` and `LookupsLastWins` |
| Portfolio.Prices | backend/portfolio.py:104-121 | the per-ticker prices form a valid ordered dictionary; its keys and values are stated by `LookupsShareKeys` and `LookupsLastWins` |
| Portfolio.Sectors | backend/portfolio.py:122-131 | the per-ticker sectors form a valid ordered dictionary; its keys and values are stated by `LookupsShareKeys` and `LookupsLastWins` |
| Portfolio.LookupKeys | backend/portfolio.py:101-131 | the lookups have exactly the tickers of the holdings as keys |
| Portfolio.LookupsShareKeys | backend/portfolio.py:101-131 | `prices` and `sectors` list the same tickers as `amounts`, in the same order |
| Portfolio.LookupsLastWins | backend/portfolio.py:101-131 | a ticker's amount, price and sector are those of its last holding: its amount, `PriceOf` and `SectorOf` |
| Portfolio.TotalValue | backend/portfolio.py:134-142 | a convertible uploaded total overrides the computed sum, and 0 becomes 1 |
| Portfolio.SectorTotals | backend/portfolio.py:145-148 | the sector totals keep their sectors distinct; which sectors and which sums, `SectorTotalsPerSector` states |
| Portfolio.GroupPerSector | backend/portfolio.py:145-148 | grouping has a key exactly for each sector of the pairs, holding the sum of that sector's values (the reference `SectorSum`) |
| Portfolio.SectorTotalsPerSector | backend/portfolio.py:145-148 | `sector_totals` has a key exactly for each sector some ticker has ("Other" when none), holding the sum of the values of that sector's tickers |
| Portfolio.Valuations | backend/portfolio.py:146-148 | one (sector, price times amount) pair per ticker, in order, with "Other" for a ticker without a sector |
| Portfolio.GroupConserves | backend/portfolio.py:145-148 | grouping the pairs by sector keeps the sum of their values |
| Portfolio.ValuationsSum | backend/portfolio.py:146-148 | the values of the pairs add up to the total value of the tickers |
| Portfolio.SectorTotalsConserve | backend/portfolio.py:145-148 | the sector totals add up to the computed total value |
| Portfolio.Exposure | backend/portfolio.py:149 | each sector's exposure is `100 * total / total_value`, over the same sectors |
| Portfolio.ExposureSum | backend/portfolio.py:149 | the exposures add up to the sector totals' share of the total value, in percent |
| Portfolio.ExposureOfComputedTotal | backend/portfolio.py:133-149 | measured against the computed total, the exposures add up to 100 |
| Portfolio.ExposureAddsUp | backend/portfolio.py:133-149 | without an uploaded total, a portfolio with non-zero value has exposures adding up to 100 percent |
| Portfolio.Diversification | backend/portfolio.py:152 | `min(100, 15 * sectors + 5 * tickers)`: the weighted count when it is below 100, otherwise 100 |
| Portfolio.RiskLevel | backend/portfolio.py:184-189 | Conservative below 10, Moderate from 10 to below 18, Aggressive from 18 |
| Portfolio.RiskLevelMonotone | backend/portfolio.py:184-189 | a higher volatility never gives a lower risk level |
| Portfolio.PortfolioMetrics | backend/portfolio.py:88-198 | no holdings give zeros, 'N/A' and no exposure; otherwise the total value is the computed sum overridden by the uploaded total worth and 0 replaced by 1, the exposure is that of the sector totals against it, the score is `min(100, 15 * distinct sectors + 5 * tickers)`, and the risk level, return and volatility follow the history, or are 'N/A' and zeros without one |
| Portfolio.DuplicateTickerSum | backend/portfolio.py:134 | two rows of one ticker with 10 and 20 shares at 1 sum to 40: the last amount counted twice |
| Portfolio.DuplicateTickerCountsTwice | backend/portfolio.py:134 | their total value is 40 |
| Portfolio.FillLookups | backend/portfolio.py:101-131 | the loop fills `amounts`, `prices` and `sectors` as specified |
| Portfolio.AddUpValues | backend/portfolio.py:134 | the sum over the tickers |
| Portfolio.AddUpSectors | backend/portfolio.py:145-148 | the `sector_totals` loop |
| Portfolio.CalculatePortfolioMetrics | backend/portfolio.py:88-198 | the step-by-step computation returns `PortfolioMetrics` |
| ImageAnalysis.ChartKind | backend/image_analysis.py:25-30 | candlestick or candle wins over line or trend, which wins over bar or histogram; the match is a case-insensitive substring match |
| ImageAnalysis.NoChartNamedIsUnknown | backend/image_analysis.py:15-30 | the chart type stays "Unknown" when no non-empty line names one |
| ImageAnalysis.LastChartNamedWins | backend/image_analysis.py:19-30 | otherwise it is the type named by the last line that names one |
| ImageAnalysis.ChartTypeOf | backend/image_analysis.py:19-30 | the chart type after the loop is "Unknown" or one of the three names; `NoChartNamedIsUnknown` and `LastChartNamedWins` say which |
| ImageAnalysis.KeyPointsOf | backend/image_analysis.py:19-34 | at most one key point per line, each non-empty and holding a digit; `KeyPointsAreDigitLines` gives them exactly |
| ImageAnalysis.ChartTypeStep | backend/image_analysis.py:19-30 | one more line sets the chart type exactly when it is non-empty and names one |
| ImageAnalysis.KeyPointsStep | backend/image_analysis.py:19-34 | one more line adds itself to the key points exactly when it is non-empty and holds a digit |
| ImageAnalysis.DigitLinesSound | backend/image_analysis.py:33-34 | every key point is a non-empty stripped line of the text holding a digit |
| ImageAnalysis.DigitLinesComplete | backend/image_analysis.py:33-34 | every stripped line holding a digit is a key point |
| ImageAnalysis.DigitLinesSnoc | backend/image_analysis.py:33-34 | one more line adds its key point at the end |
| ImageAnalysis.KeyPointsAreDigitLines | backend/image_analysis.py:19-34 | the key points the loop collects, `KeyPointsOf`, are exactly the stripped lines holding a digit, in order (`DigitLines`) |
| ImageAnalysis.AnalyzeImage | backend/image_analysis.py:5-46 | an OCR failure gives "Error analyzing image: <msg>"; otherwise the chart type `ChartTypeOf` of the lines, the raw text, the first five key points, and a message with the uncapped count |
| ImageAnalysis.ReportedUnknown | backend/image_analysis.py:15-30 | the reported chart type is "Unknown" when no line names one |
| ImageAnalysis.ReportedLastNamed | backend/image_analysis.py:19-30 | otherwise it is the type named by the last line that names one |
| ImageAnalysis.KeyPointsCapped | backend/image_analysis.py:38-40 | `min(5, n)` key points are returned, the first ones found, while the message's number reads back as all `n` |
| ImageAnalysis.AnalyzeImageText | backend/image_analysis.py:14-41 | the loop computes `AnalyzeImage` |
| HeadlineSentiment.Considered | backend/sentiment.py:20 | only the first twenty items are looked at |
| HeadlineSentiment.Analysed | backend/sentiment.py:19-29 | at most one entry per item; `AnalysedSound`, `AnalysedCount` and `NothingAnalysedIffNoTitle` say which |
| HeadlineSentiment.AnalysedSound | backend/sentiment.py:20-29 | each analysed entry is a non-empty title of an item, with the label and score the classifier gave it |
| HeadlineSentiment.AnalysedCount | backend/sentiment.py:20-29 | never more entries than non-empty titles, and exactly one per non-empty title when the classifier raises on none |
| HeadlineSentiment.NothingAnalysedIffNoTitle | backend/sentiment.py:21-23 | when the classifier raises on no title, nothing is analysed exactly when every title is empty |
| HeadlineSentiment.FirstRaise | backend/sentiment.py:19-24 | the loop meets no exception exactly when the classifier raises on no non-empty title |
| HeadlineSentiment.FirstRaiseAt | backend/sentiment.py:19-24 | the exception met is that of the first non-empty title on which the classifier raises |
| HeadlineSentiment.FirstRaiseKept | backend/sentiment.py:19-24 | once an exception is met, the titles after it change nothing |
| HeadlineSentiment.NoTitleNothingAnalysed | backend/sentiment.py:21-23 | titles that are all empty raise nothing and give no entries |
| HeadlineSentiment.SumContributionsBounds | backend/sentiment.py:37 | with scores in [0, 1], the sum of the contributions lies between 0 and their count |
| HeadlineSentiment.Mean | backend/sentiment.py:37 | the mean of the contributions (the score for POSITIVE, one minus it otherwise): times the count it gives their sum; `MeanInUnitInterval` bounds it |
| HeadlineSentiment.MeanInUnitInterval | backend/sentiment.py:37 | the overall score lies in [0, 1] when every classifier score does |
| HeadlineSentiment.Recommendation | backend/sentiment.py:43-49 | strongly positive above 0.6, mixed above 0.4 up to 0.6, negative otherwise |
| HeadlineSentiment.Findings | backend/sentiment.py:40 | one finding per analysed entry, in order |
| HeadlineSentiment.GetSentiment | backend/sentiment.py:4-60 | a fetch exception, a pipeline that fails to load, or the classifier raising on a title gives "Error analyzing sentiment: <msg>" (the first such message); no news gives the "No news articles found" error; no analysed title gives the "Could not analyze sentiment" error; otherwise the mean, the findings and exactly one recommendation |
| HeadlineSentiment.OnlyFirstTwentyCount | backend/sentiment.py:20-34 | news whose first twenty titles are empty cannot be analysed, whatever follows |
| HeadlineSentiment.AnalyseTitles | backend/sentiment.py:19-29 | the loop stops at the first exception, reporting `FirstRaise`, and otherwise builds `sentiments` |
| HeadlineSentiment.Analyse | backend/sentiment.py:4-55 | the step-by-step computation returns `GetSentiment` |

## Left out

- External calls are inputs. The model makes no network, clock, sleep, OCR or classifier call of its own:
  - HTTP responses of Polygon, NewsAPI and Alpha Vantage;
  - Groq and OpenAI completions;
  - yfinance lookups and price histories;
  - `pytesseract`;
  - the transformers pipeline;
  - `time.time()`.
- `json.loads`, `float(str)` and Python's rendering of floats are function parameters returning an option or a string. Their internals are not modelled.
- The regular expressions are specified as greedy spans and word scans over `seq<char>`. The `re` engine is not modelled.
- Word characters, `str.isdigit` and `str.lower` are ASCII only. Non-ASCII letters and digits are not modelled. `str.strip` uses Python's white-space set.
- `round(...)` is not modelled: percentages, exposures, scores and totals are left unrounded.
- NaN and infinite floats are not modelled, except the `pct_change` NaN of the timeline.
- In `calculate_portfolio_metrics`, `float(h['amount'])` raising, and holdings that are not lists, are not modelled.
- The thread-pool fan-out of `compute_recommendations` is a sequential pass over the tasks in an arbitrary completion order. Concurrency and the unlocked cache race are not modelled.
- `optimize_portfolio` beyond its parser is library numerics and is not modelled: data download, `EfficientFrontier`, allocations and performance.
- `calculate_portfolio_metrics`'s return and volatility come from pypfopt. They are an input `history`, and the value weights are not modelled.
- The demo news injected into `/sentiment` when there is no news, and the sine-wave demo data, are static data and are not modelled.
- `get_stock_data`, `/api/polygon_history`, the Flask routes, CORS, the port-retry loop, backend/quarterly.py and backend/fundamental.py are not part of this model.
- Fundamentals.FundamentalService.Fundamental: only the ratios, competitor symbols and AI analysis of the report are modelled. The company information fields and competitor figures are yfinance data.
- TtlCache.AnalyzeSentimentWithCache: its `retries` and `delay` arguments are accepted and ignored, as in the source, which calls the generator with its defaults.
- News.Normalize: a JSON `null` title, `publishedAt`, `url` or source name is read as an absent field and becomes the default. Python keeps the value `None`, which later prints as "None". A `null` or otherwise non-object `source` is modelled, as the `SourceNotObject` case that makes the whole reply fall back to the demo news. A `null` articles list, and articles that are not objects, are not modelled; in the source both raise and give the demo news.
- Recommendations.Recommend: the exception path of `compute_recommendations` is a boolean input, because no modelled statement of `prompt_groq_for_recommendations` can raise.

## Findings

| source | as written | input that shows it | evidently intended | confidence | as-written member | corrected member |
|---|---|---|---|---|---|---|
| backend/app.py:230-240 | the bucketing lambda maps the NaN `pct_change` of the first month to 0, so the `pd.notna` test never skips it, and every timeline starts with a spurious Neutral point | monthly closes 100 and 110 give two points, the first `("2024-01", 100, 0, "Neutral")` | the comment says the first row, whose change is NaN, is skipped: one Bullish point for the 10% rise | not executed | Timeline.TimelineAsWritten | Timeline.TimelineCorrected |

The as-written behaviour is exhibited by Timeline.FirstMonthKeptAsWritten and Timeline.TwoMonthExample. The corrected timeline is built by Timeline.BuildTimeline. Timeline.PositivePricesDropFirstMonth proves that, for positive prices, the corrected timeline is the written one without its first point.

/** News fetching for a query (backend/news.py): API-key validation, dispatch on the
    HTTP outcome, normalisation of the provider's articles, the `limit` cap, demo news
    as the answer to every failure, and the one-second spacing between requests. The
    HTTP request itself is an input: its status code and decoded body, or the fact
    that it raised. */
module News {
  import opened Wrappers
  import opened Seqs
  import RateLimit

  const RateLimitDelay: real := 1.0
  const MinKeyLength: int := 10
  const DemoSource: string := "DemoSource"
  const DemoUrl: string := "https://example.com"

  /** A normalised article, as `get_news` and `get_demo_news` return it. */
  datatype Article = Article(
    title: string,
    source: string,
    timestamp: string,
    content: string,
    url: string,
    sentiment: real,
    credibility: int)

  /** The `source` member of a provider article: absent, an object with or without a
      `name`, or a value that is not an object (`null`, a string, ...), on which
      `.get("name", ...)` raises. */
  datatype Source = NoSource | SourceObject(name: Option<string>) | SourceNotObject

  /** One element of the provider's `articles` array; `None` is an absent field (a JSON
      `null` is read the same way, see README). */
  datatype RawArticle = RawArticle(
    title: Option<string>,
    source: Source,
    publishedAt: Option<string>,
    description: Option<string>,
    content: Option<string>,
    url: Option<string>)

  /** The decoded JSON body: its `status` and `articles` members, when present. */
  datatype Body = Body(status: Option<string>, articles: Option<seq<RawArticle>>)

  /** What `requests.get` produced: a status code and the body (`None` when the body is
      not valid JSON), or an exception. */
  datatype Reply = Answered(statusCode: int, body: Option<Body>) | RequestRaised

  /** `validate_api_key`: a key is usable when it is present, non-empty and at least ten
      characters long. */
  function ValidateApiKey(key: Option<string>): (ok: bool)
    ensures ok <==> key.Some? && |key.value| >= MinKeyLength
  {
    if key.None? || key.value == "" then false
    else if |key.value| < MinKeyLength then false
    else true
  }

  /** `get_cached_news`: the memoised lookup always answers with no articles. */
  function CachedNews(key: string, timestamp: int): seq<Article>
  {
    []
  }

  /** The cache check at the top of `get_news` never returns early. */
  lemma CacheNeverShortCircuits(key: string, timestamp: int)
    ensures CachedNews(key, timestamp) == []
  {
  }

  /** Python's `x or y or ""` over two optional strings. */
  function FirstTruthy(x: Option<string>, y: Option<string>): (r: string)
    ensures r != "" <==> Truthy(x) || Truthy(y)
    ensures Truthy(x) ==> r == x.value
    ensures !Truthy(x) ==> r == (if Truthy(y) then y.value else "")
  {
    if x.Some? && x.value != "" then x.value
    else if y.Some? && y.value != "" then y.value
    else ""
  }

  /** A field is truthy: present and non-empty. */
  predicate Truthy(x: Option<string>) {
    x.Some? && x.value != ""
  }

  /** The dictionary built for one provider article: the present title, source name,
      publication time and url, each defaulting ("" or "Unknown"), the first truthy of
      description and content, sentiment 0 and credibility 3; none when the `source`
      member is not an object, where building it raises. */
  function Normalize(a: RawArticle): (r: Option<Article>)
    ensures r.None? <==> a.source.SourceNotObject?
    ensures r.Some? ==>
              var n := r.value;
              && (a.title.Some? ==> n.title == a.title.value)
              && (a.title.None? ==> n.title == "")
              && (a.source.SourceObject? && a.source.name.Some? ==> n.source == a.source.name.value)
              && (a.source.NoSource? || a.source == SourceObject(None) ==> n.source == "Unknown")
              && (a.publishedAt.Some? ==> n.timestamp == a.publishedAt.value)
              && (a.publishedAt.None? ==> n.timestamp == "")
              && (a.url.Some? ==> n.url == a.url.value)
              && (a.url.None? ==> n.url == "")
              && (Truthy(a.description) ==> n.content == a.description.value)
              && (!Truthy(a.description) && Truthy(a.content) ==> n.content == a.content.value)
              && (!Truthy(a.description) && !Truthy(a.content) ==> n.content == "")
              && n.sentiment == 0.0 && n.credibility == 3
  {
    match a.source
    case SourceNotObject => None
    case NoSource => Some(Article(a.title.GetOr(""), "Unknown", a.publishedAt.GetOr(""),
                                  FirstTruthy(a.description, a.content), a.url.GetOr(""), 0.0, 3))
    case SourceObject(name) => Some(Article(a.title.GetOr(""), name.GetOr("Unknown"), a.publishedAt.GetOr(""),
                                            FirstTruthy(a.description, a.content), a.url.GetOr(""), 0.0, 3))
  }

  /** The provider article that carries every field of `n`. */
  function RawOf(n: Article): RawArticle
  {
    RawArticle(Some(n.title), SourceObject(Some(n.source)), Some(n.timestamp), Some(n.content), None, Some(n.url))
  }

  /** Normalising gives back every field a provider article carries: an article whose
      sentiment and credibility are the placeholders is the normalisation of `RawOf`. */
  lemma NormalizeKeepsFields(n: Article)
    requires n.sentiment == 0.0 && n.credibility == 3
    ensures Normalize(RawOf(n)) == Some(n)
  {
    var r := Normalize(RawOf(n)).value;
    assert r.content == n.content;
  }

  /** Some article of `raw` has a `source` that is not an object. */
  predicate SomeSourceNotObject(raw: seq<RawArticle>) {
    exists i :: 0 <= i < |raw| && raw[i].source.SourceNotObject?
  }

  /** The list comprehension: the normalised articles in order, or none when one of them
      raises. */
  function NormalizeAll(raw: seq<RawArticle>): (r: Option<seq<Article>>)
    ensures r.None? <==> SomeSourceNotObject(raw)
    ensures r.Some? ==> |r.value| == |raw| && forall i :: 0 <= i < |raw| ==> Normalize(raw[i]) == Some(r.value[i])
  {
    if SomeSourceNotObject(raw) then None
    else Some(seq(|raw|, i requires 0 <= i < |raw| => Normalize(raw[i]).value))
  }

  /** One demo article: from the demo source, linking to the example page. */
  function DemoArticle(title: string, timestamp: string, content: string, sentiment: real, credibility: int): (r: Article)
    ensures r.source == DemoSource && r.url == DemoUrl
    ensures r.title == title && r.timestamp == timestamp && r.content == content
    ensures r.sentiment == sentiment && r.credibility == credibility
  {
    Article(title, DemoSource, timestamp, content, DemoUrl, sentiment, credibility)
  }

  /** The three demo stories. */
  const RallyTitle: string := "Demo Market Rally"
  const RallyContent: string := "Stocks rallied today as investors cheered strong earnings."
  const FedTitle: string := "Demo Fed Rate Decision"
  const FedContent: string := "The Federal Reserve held rates steady, citing stable inflation."
  const TechTitle: string := "Demo Tech Stocks Surge"
  const TechContent: string := "Tech stocks led the market higher on new AI breakthroughs."

  /** `get_demo_news`; the three timestamps are the current time, one day and two days
      earlier, in ISO format. */
  function DemoNews(now: string, dayBefore: string, twoDaysBefore: string): (r: seq<Article>)
    ensures |r| == 3
    ensures r[0].title == RallyTitle && r[1].title == FedTitle && r[2].title == TechTitle
    ensures r[0].timestamp == now && r[1].timestamp == dayBefore && r[2].timestamp == twoDaysBefore
    ensures r[0].sentiment == 0.5 && r[1].sentiment == 0.1 && r[2].sentiment == 0.7
    ensures r[0].credibility == 4 && r[1].credibility == 3 && r[2].credibility == 5
    ensures forall i :: 0 <= i < 3 ==> r[i].source == DemoSource && r[i].url == DemoUrl
  {
    [ Article(RallyTitle, DemoSource, now, RallyContent, DemoUrl, 0.5, 4),
      Article(FedTitle, DemoSource, dayBefore, FedContent, DemoUrl, 0.1, 3),
      Article(TechTitle, DemoSource, twoDaysBefore, TechContent, DemoUrl, 0.7, 5) ]
  }

  /** The reply is used, rather than replaced by demo news: status 200, a JSON body,
      and no `"status": "error"` in it. */
  predicate Accepted(reply: Reply) {
    reply.Answered? && reply.statusCode == 200 && reply.body.Some? && reply.body.value.status != Some("error")
  }

  /** What `get_news` returns once a request has been made: demo news for every
      failure (the request raised, status 401, 429 or any other non-200 status, a body
      that is not JSON, one whose status is "error", or a kept article whose `source` is
      not an object), otherwise the first `limit` articles (Python's `[:limit]`)
      normalised, in the provider's order. */
  function FromReply(reply: Reply, limit: int, demo: seq<Article>): (r: seq<Article>)
    ensures !Accepted(reply) ==> r == demo
    ensures Accepted(reply) ==>
              var raw := Prefix(reply.body.value.articles.GetOr([]), limit);
              && (SomeSourceNotObject(raw) ==> r == demo)
              && (!SomeSourceNotObject(raw) ==>
                    |r| == |raw| && forall i :: 0 <= i < |raw| ==> Normalize(raw[i]) == Some(r[i]))
  {
    match reply
    case RequestRaised => demo
    case Answered(code, body) =>
      if code == 401 then demo
      else if code == 429 then demo
      else if code != 200 then demo
      else match body
        case None => demo
        case Some(b) =>
          if b.status.Some? && b.status.value == "error" then demo
          else match NormalizeAll(Prefix(b.articles.GetOr([]), limit))
            case None => demo
            case Some(articles) => articles
  }

  /** An accepted reply keeps exactly `min(limit, n)` of its `n` articles when none of
      them has a non-object source. */
  lemma AcceptedKeepsLimit(reply: Reply, limit: nat, demo: seq<Article>)
    requires Accepted(reply)
    requires var raw := reply.body.value.articles.GetOr([]);
             forall i :: 0 <= i < |raw| ==> !raw[i].source.SourceNotObject?
    ensures var n := |reply.body.value.articles.GetOr([])|;
            |FromReply(reply, limit, demo)| == if limit < n then limit else n
  {
    var all := reply.body.value.articles.GetOr([]);
    var raw := Prefix(all, limit);
    forall i | 0 <= i < |raw| ensures !raw[i].source.SourceNotObject? {
      assert raw[i] == all[i];
    }
  }

  /** The module-level state of backend/news.py: the time of the last request. */
  class NewsService {
    const throttle: RateLimit.Throttle

    /** Requests to the news provider are spaced by `RateLimitDelay` seconds. */
    predicate Valid() {
      throttle.delay == RateLimitDelay
    }

    constructor()
      ensures Valid() && fresh(throttle) && throttle.lastRequestTime == 0.0
    {
      throttle := new RateLimit.Throttle(RateLimitDelay);
    }

    /** `get_news(query, limit)`. `now` is the clock at entry, `finishedAt` the clock when
        the request has returned, `reply` its outcome and `demo` what `get_demo_news`
        would give. An invalid key answers with demo news before any request; otherwise
        the call first waits out the rate limit, and the last request time moves only
        when the request returned. */
    method GetNews(query: string, limit: int, apiKey: Option<string>, now: real, finishedAt: real,
                   reply: Reply, demo: seq<Article>)
      returns (news: seq<Article>, wait: real)
      requires Valid()
      modifies throttle
      ensures !ValidateApiKey(apiKey) ==>
                news == demo && wait == 0.0 && throttle.lastRequestTime == old(throttle.lastRequestTime)
      ensures ValidateApiKey(apiKey) ==>
                && news == FromReply(reply, limit, demo)
                && wait == RateLimit.Wait(now - old(throttle.lastRequestTime), RateLimitDelay)
                && throttle.lastRequestTime == if reply.Answered? then finishedAt else old(throttle.lastRequestTime)
    {
      if !ValidateApiKey(apiKey) {
        news, wait := demo, 0.0;
        return;
      }
      wait := throttle.Call(now, finishedAt, reply.Answered?);
      news := FromReply(reply, limit, demo);
    }
  }
}

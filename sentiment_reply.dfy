/** How the `/sentiment` endpoint (backend/app.py) turns the completion text into its
    answer: the greedy first-`{` to last-`}` span, the JSON embedded in it, the defaults for
    missing keys, and the overall score copied onto every news article. `json.loads` on
    the span and `float` on a string are parameters. */
module SentimentReply {
  import opened Wrappers
  import opened Text
  import opened JsonValue
  import News
  import Groq

  const Neutral: string := "Neutral"
  const UnavailableFinding: string := "AI service is currently rate-limited or failed, please try again later."
  const UnavailableAdvice: string := "Unable to provide recommendations at this time."
  const ErrorFinding: string := "Error analyzing sentiment"
  const ErrorAdvice: string := "Unable to provide recommendations at this time"

  /** The parts of the answer that depend on the completion: the overall score and label,
      the key findings and recommendations (whatever JSON the reply gave), and the news. */
  datatype Answer = Answer(score: real, sentimentLabel: Value, keyFindings: Value, recommendations: Value, topNews: seq<News.Article>)

  /** The answer when the completion holds no `{...}` span. */
  function UnavailableAnswer(news: seq<News.Article>): Answer
  {
    Answer(0.0, Str(Neutral), Array([Str(UnavailableFinding)]), Array([Str(UnavailableAdvice)]), news)
  }

  /** The answer when parsing the span, or converting its score, raised. */
  function ErrorAnswer(news: seq<News.Article>): Answer
  {
    Answer(0.0, Str(Neutral), Array([Str(ErrorFinding)]), Array([Str(ErrorAdvice)]), news)
  }

  /** `parsed.get(key, default)` */
  function Member(m: map<string, Value>, key: string, default: Value): Value
  {
    if key in m then m[key] else default
  }

  /** `float(v)` on a JSON value, `None` where it raises. */
  function ToFloat(v: Value, parseFloat: string -> Option<real>): (r: Option<real>)
    ensures r.Some? ==> v.Number? || v.Str? || v.Bool?
    ensures v.Number? ==> r == Some(v.n)
    ensures v.Str? ==> r == parseFloat(v.s)
    ensures v.Bool? ==> r.Some? && (r.value == 1.0 <==> v.b) && (r.value == 0.0 <==> !v.b)
  {
    match v
    case Number(n) => Some(n)
    case Str(s) => parseFloat(s)
    case Bool(b) => Some(if b then 1.0 else 0.0)
    case _ => None
  }

  /** `for article in news: article["sentiment"] = score` */
  method SetSentiment(news: seq<News.Article>, score: real) returns (updated: seq<News.Article>)
    ensures updated == WithSentiment(news, score)
  {
    updated := [];
    for i := 0 to |news|
      invariant |updated| == i
      invariant forall k :: 0 <= k < i ==> updated[k] == news[k].(sentiment := score)
    {
      updated := updated + [news[i].(sentiment := score)];
    }
  }

  /** Every article with its sentiment replaced by `score`. */
  function WithSentiment(news: seq<News.Article>, score: real): (r: seq<News.Article>)
    ensures |r| == |news|
    ensures forall i :: 0 <= i < |news| ==> r[i] == news[i].(sentiment := score)
  {
    seq(|news|, i requires 0 <= i < |news| => news[i].(sentiment := score))
  }

  /** The answer for the completion `reply`. `parse` is `json.loads` on the span; a span
      that starts with `{` decodes, when it decodes, to a JSON object. */
  function Interpret(reply: string, news: seq<News.Article>, parse: string -> Option<map<string, Value>>,
                     parseFloat: string -> Option<real>): (r: Answer)
    ensures Span(reply, '{', '}').None? ==> r == UnavailableAnswer(news)
    ensures Span(reply, '{', '}').Some? && parse(Span(reply, '{', '}').value).None? ==> r == ErrorAnswer(news)
    ensures Span(reply, '{', '}').Some? && parse(Span(reply, '{', '}').value).Some? ==>
              var m := parse(Span(reply, '{', '}').value).value;
              match ToFloat(Member(m, "sentiment_score", Number(0.0)), parseFloat)
              case None => r == ErrorAnswer(news)
              case Some(score) =>
                && r.score == score
                && r.sentimentLabel == Member(m, "sentiment_label", Str(Neutral))
                && r.keyFindings == Member(m, "key_points", Array([]))
                && r.recommendations == Member(m, "recommendations", Array([]))
                && |r.topNews| == |news|
                && forall i :: 0 <= i < |news| ==> r.topNews[i] == news[i].(sentiment := score)
  {
    match Span(reply, '{', '}')
    case None => UnavailableAnswer(news)
    case Some(span) =>
      match parse(span)
      case None => ErrorAnswer(news)
      case Some(m) =>
        match ToFloat(Member(m, "sentiment_score", Number(0.0)), parseFloat)
        case None => ErrorAnswer(news)
        case Some(score) =>
          Answer(score, Member(m, "sentiment_label", Str(Neutral)), Member(m, "key_points", Array([])),
                 Member(m, "recommendations", Array([])), WithSentiment(news, score))
  }

  /** Both fixed failure texts of `groq_generate_content` lack braces, so when every
      attempt raised without a brace in its message, the answer is the "rate-limited or
      failed" one with score 0, label Neutral and the news untouched. */
  lemma ExhaustedIsUnavailable(news: seq<News.Article>, parse: string -> Option<map<string, Value>>,
                               parseFloat: string -> Option<real>)
    ensures Interpret(Groq.ExhaustedMessage, news, parse, parseFloat) == UnavailableAnswer(news)
  {
    Groq.FailureTextsHaveNoBrace();
  }

  lemma DueToWithoutBraceIsUnavailable(message: string, news: seq<News.Article>,
                                       parse: string -> Option<map<string, Value>>, parseFloat: string -> Option<real>)
    requires '{' !in message
    ensures Interpret(Groq.DueToPrefix + message, news, parse, parseFloat) == UnavailableAnswer(news)
  {
    Groq.FailureTextsHaveNoBrace();
    assert '{' !in Groq.DueToPrefix + message;
  }

  /** A reply that wraps one JSON object in text holding no `{` before it and no `}` after
      it is read from that object: a numeric score is taken as it is, the keys the object
      lacks get their defaults, and every article gets the score. */
  lemma EmbeddedObject(before: string, embedded: string, after: string, news: seq<News.Article>,
                       parse: string -> Option<map<string, Value>>, parseFloat: string -> Option<real>,
                       m: map<string, Value>)
    requires |embedded| >= 2 && embedded[0] == '{' && embedded[|embedded| - 1] == '}'
    requires '{' !in before && '}' !in after
    requires parse(embedded) == Some(m)
    requires "sentiment_score" in m && m["sentiment_score"].Number?
    ensures var r := Interpret(before + embedded + after, news, parse, parseFloat);
            && r.score == m["sentiment_score"].n
            && ("sentiment_label" !in m ==> r.sentimentLabel == Str(Neutral))
            && ("key_points" !in m ==> r.keyFindings == Array([]))
            && ("recommendations" !in m ==> r.recommendations == Array([]))
            && r.topNews == WithSentiment(news, m["sentiment_score"].n)
  {
    var reply := before + embedded + after;
    SpanEmbedded(before, embedded, after, '{', '}');
    assert Span(reply, '{', '}') == Some(embedded);
    var score := m["sentiment_score"].n;
    assert ToFloat(Member(m, "sentiment_score", Number(0.0)), parseFloat) == Some(score);
    assert Interpret(reply, news, parse, parseFloat)
        == Answer(score, Member(m, "sentiment_label", Str(Neutral)), Member(m, "key_points", Array([])),
                  Member(m, "recommendations", Array([])), WithSentiment(news, score));
  }

  /** The reply handling as the endpoint runs it, with the article loop. */
  method AnswerFor(reply: string, news: seq<News.Article>, parse: string -> Option<map<string, Value>>,
                   parseFloat: string -> Option<real>) returns (answer: Answer)
    ensures answer == Interpret(reply, news, parse, parseFloat)
  {
    var span := Span(reply, '{', '}');
    if span.None? {
      return UnavailableAnswer(news);
    }
    var parsed := parse(span.value);
    if parsed.None? {
      return ErrorAnswer(news);
    }
    var m := parsed.value;
    var score := ToFloat(Member(m, "sentiment_score", Number(0.0)), parseFloat);
    if score.None? {
      return ErrorAnswer(news);
    }
    var updated := SetSentiment(news, score.value);
    answer := Answer(score.value, Member(m, "sentiment_label", Str(Neutral)), Member(m, "key_points", Array([])),
                     Member(m, "recommendations", Array([])), updated);
  }

  /** A JSON object without a score scores 0, and every article then gets 0. */
  lemma MissingScoreIsZero(reply: string, news: seq<News.Article>, parse: string -> Option<map<string, Value>>,
                           parseFloat: string -> Option<real>)
    requires Span(reply, '{', '}').Some? && parse(Span(reply, '{', '}').value).Some?
    requires "sentiment_score" !in parse(Span(reply, '{', '}').value).value
    ensures Interpret(reply, news, parse, parseFloat).score == 0.0
    ensures forall i :: 0 <= i < |news| ==> Interpret(reply, news, parse, parseFloat).topNews[i].sentiment == 0.0
  {
  }
}

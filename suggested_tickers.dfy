/** The tickers the portfolio endpoint (backend/app.py) picks out of the AI analysis
    text: every match of `\b([A-Z]{2,5})\b` that is neither already in the optimised
    allocation nor "ETF" or "AI", and the percentage of the portfolio each is given. */
module SuggestedTickers {

  /** A character of `\w`, for ASCII text: letters, digits and the underscore. */
  predicate IsWordChar(c: char) {
    ('a' <= c <= 'z') || ('A' <= c <= 'Z') || ('0' <= c <= '9') || c == '_'
  }

  predicate IsUpper(c: char) {
    'A' <= c <= 'Z'
  }

  /** The pattern matches `s[p..p + len]`: two to five capital letters with a word
      boundary on both sides. */
  predicate MatchAt(s: string, p: nat, len: nat) {
    && 2 <= len <= 5 && p + len <= |s|
    && (p == 0 || !IsWordChar(s[p - 1]))
    && (forall k :: p <= k < p + len ==> IsUpper(s[k]))
    && (p + len == |s| || !IsWordChar(s[p + len]))
  }

  const Excluded: seq<string> := ["ETF", "AI"]

  predicate Allowed(t: string, existing: set<string>) {
    t !in existing && t !in Excluded
  }

  /** The suggestions among the matches that start before position `n`. */
  ghost function SuggestedBefore(s: string, existing: set<string>, n: nat): set<string>
  {
    set p: nat, len: nat | p < n && len <= 5 && MatchAt(s, p, len) && Allowed(s[p..p + len], existing) :: s[p..p + len]
  }

  /** `ai_suggested` for the analysis text `s`. */
  ghost function Suggested(s: string, existing: set<string>): (r: set<string>)
    ensures forall t :: t in r ==> 2 <= |t| <= 5 && Allowed(t, existing)
  {
    SuggestedBefore(s, existing, |s|)
  }

  /** Every suggestion is two to five capital letters, not yet allocated, and neither
      "ETF" nor "AI". */
  lemma SuggestionsAreTickers(s: string, existing: set<string>, t: string)
    requires t in Suggested(s, existing)
    ensures 2 <= |t| <= 5 && forall k :: 0 <= k < |t| ==> IsUpper(t[k])
    ensures t !in existing && t != "ETF" && t != "AI"
  {
    var p: nat, len: nat :| p < |s| && len <= 5 && MatchAt(s, p, len) && Allowed(s[p..p + len], existing) && t == s[p..p + len];
    assert forall k :: 0 <= k < |t| ==> t[k] == s[p + k];
  }

  /** Inside the word `s[i..j]` the only possible match is the whole word. */
  lemma WordMatches(s: string, i: nat, j: nat)
    requires i < j <= |s|
    requires i == 0 || !IsWordChar(s[i - 1])
    requires forall k :: i <= k < j ==> IsWordChar(s[k])
    requires j == |s| || !IsWordChar(s[j])
    ensures forall p: nat, len: nat :: i <= p < j && MatchAt(s, p, len) ==> p == i && len == j - i
    ensures MatchAt(s, i, j - i) <==> 2 <= j - i <= 5 && forall k :: i <= k < j ==> IsUpper(s[k])
  {
  }

  /** The `finditer` loop: scan the text word by word and add each allowed match. */
  method ExtractSuggested(s: string, existing: set<string>) returns (found: set<string>)
    ensures found == Suggested(s, existing)
  {
    found := {};
    var i := 0;
    while i < |s|
      invariant 0 <= i <= |s|
      invariant i < |s| ==> i == 0 || !IsWordChar(s[i - 1]) || !IsWordChar(s[i])
      invariant found == SuggestedBefore(s, existing, i)
    {
      if !IsWordChar(s[i]) {
        assert forall len: nat :: !MatchAt(s, i, len);
        assert SuggestedBefore(s, existing, i + 1) == SuggestedBefore(s, existing, i);
        i := i + 1;
      } else {
        var j := i + 1;
        while j < |s| && IsWordChar(s[j])
          invariant i < j <= |s|
          invariant forall k :: i <= k < j ==> IsWordChar(s[k])
        {
          j := j + 1;
        }
        WordMatches(s, i, j);
        var word := s[i..j];
        var isMatch := 2 <= |word| <= 5 && forall k :: 0 <= k < |word| ==> IsUpper(word[k]);
        assert isMatch <==> MatchAt(s, i, j - i) by {
          assert forall k :: 0 <= k < |word| ==> word[k] == s[i + k];
        }
        if isMatch && Allowed(word, existing) {
          found := found + {word};
        }
        assert SuggestedBefore(s, existing, j) ==
               SuggestedBefore(s, existing, i) + (if isMatch && Allowed(word, existing) then {word} else {});
        i := j;
      }
    }
  }

  const DefaultPct: int := 5
  const TotalDefaultPct: int := 15

  /** `per_ticker_pct`: five percent each, fifteen percent at most in all, and 0 when
      nothing was suggested (the rounding to two decimals is not modelled). */
  function PerTickerPct(n: nat): (r: real)
    ensures n == 0 ==> r == 0.0
    ensures n > 0 ==> 0.0 < r <= DefaultPct as real && r * n as real <= TotalDefaultPct as real
    ensures 0 < n <= 3 ==> r == DefaultPct as real
    ensures n >= 3 ==> r * n as real == TotalDefaultPct as real
  {
    if n == 0 then 0.0
    else
      var total := if TotalDefaultPct < n * DefaultPct then TotalDefaultPct else n * DefaultPct;
      Share(total as real, n as real);
      total as real / n as real
  }

  /** A positive total of at most five per ticker gives each ticker a positive share of
      at most five. */
  lemma Share(total: real, n: real)
    requires n > 0.0 && 0.0 < total <= DefaultPct as real * n
    ensures 0.0 < total / n <= DefaultPct as real && (total / n) * n == total
  {
    var r := total / n;
    assert r * n == total;
  }
}

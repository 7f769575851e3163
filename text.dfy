/** String helpers with the meaning Python gives them: `str.strip()`, `str.split(c)`
    for a one-character separator, `str.lower()`, `sub in s`, and the greedy
    "first opening character to last closing character" span that the regular
    expressions `\[.*\]` (with DOTALL) and `\{[\s\S]*\}` find. */
module Text {
  import opened Wrappers

  /** The characters Python's `str.isspace()` accepts. */
  predicate IsSpace(c: char) {
    c == ' ' || c == '\t' || c == '\n' || c == '\r' || c == '\U{000B}' || c == '\U{000C}'
    || ('\U{001C}' <= c <= '\U{001F}') || c == '\U{0085}' || c == '\U{00A0}' || c == '\U{1680}'
    || ('\U{2000}' <= c <= '\U{200A}') || c == '\U{2028}' || c == '\U{2029}' || c == '\U{202F}'
    || c == '\U{205F}' || c == '\U{3000}'
  }

  /** `s.lstrip()` */
  function TrimStart(s: string): (r: string)
    ensures |r| <= |s| && r == s[|s| - |r|..]
    ensures forall i :: 0 <= i < |s| - |r| ==> IsSpace(s[i])
    ensures r == [] || !IsSpace(r[0])
  {
    if |s| > 0 && IsSpace(s[0]) then TrimStart(s[1..]) else s
  }

  /** `s.rstrip()` */
  function TrimEnd(s: string): (r: string)
    ensures |r| <= |s| && r == s[..|r|]
    ensures forall i :: |r| <= i < |s| ==> IsSpace(s[i])
    ensures r == [] || !IsSpace(r[|r| - 1])
  {
    if |s| > 0 && IsSpace(s[|s| - 1]) then TrimEnd(s[..|s| - 1]) else s
  }

  /** `s.strip()`: white space removed at both ends; `StripIsInfix` and `StripUnique`
      say which infix of `s` that is. */
  function Strip(s: string): (r: string)
    ensures |r| <= |s|
    ensures r == [] || (!IsSpace(r[0]) && !IsSpace(r[|r| - 1]))
  {
    TrimEnd(TrimStart(s))
  }

  /** `r` is the infix of `s` that starts at `a`, with only white space before and
      after it. */
  ghost predicate InfixBetweenSpaces(s: string, r: string, a: int) {
    && 0 <= a && a + |r| <= |s|
    && (forall k :: 0 <= k < |r| ==> r[k] == s[a + k])
    && (forall i :: 0 <= i < a ==> IsSpace(s[i]))
    && (forall i :: a + |r| <= i < |s| ==> IsSpace(s[i]))
  }

  /** The stripped text is the infix after the leading white space, with only white
      space after it. */
  lemma StripIsInfix(s: string)
    ensures InfixBetweenSpaces(s, Strip(s), |s| - |TrimStart(s)|)
  {
    TrimStartShift(s);
    TrimEndInfix(TrimStart(s));
    TrailingSpaces(s);
  }

  lemma TrailingSpaces(s: string)
    ensures forall i :: |s| - |TrimStart(s)| + |Strip(s)| <= i < |s| ==> IsSpace(s[i])
  {
    var t := TrimStart(s);
    var a := |s| - |t|;
    var u := TrimEnd(t);
    assert Strip(s) == u;
    forall i | a + |u| <= i < |s| ensures IsSpace(s[i]) {
      SpaceInSuffix(s, t, a, i);
    }
  }

  /** A white-space character of the suffix `t` starting at `a` is one of `s`. */
  lemma SpaceInSuffix(s: string, t: string, a: int, i: int)
    requires 0 <= a <= i < |s| && t == s[a..] && IsSpace(t[i - a])
    ensures IsSpace(s[i])
  {
    assert t[i - a] == s[i];
  }

  lemma TrimStartShift(s: string)
    ensures forall k :: 0 <= k < |TrimStart(s)| ==> TrimStart(s)[k] == s[|s| - |TrimStart(s)| + k]
  {
    var t := TrimStart(s);
    assert t == s[|s| - |t|..];
  }

  lemma TrimEndInfix(t: string)
    ensures forall k :: 0 <= k < |TrimEnd(t)| ==> TrimEnd(t)[k] == t[k]
  {
  }

  /** And it is the only such infix that neither starts nor ends with white space. */
  lemma StripUnique(s: string, r: string, a: int)
    requires InfixBetweenSpaces(s, r, a)
    requires r == [] || (!IsSpace(r[0]) && !IsSpace(r[|r| - 1]))
    ensures r == Strip(s)
  {
    if r == [] {
      assert forall i :: 0 <= i < |s| ==> IsSpace(s[i]) by {
        forall i | 0 <= i < |s| ensures IsSpace(s[i]) {
          if i >= a {
            assert a + |r| <= i;
          }
        }
      }
      StripEmptyIffBlank(s);
    } else {
      var t := TrimStart(s);
      var b := |s| - |t|;
      StripIsInfix(s);
      assert t == s[b..];
      if b < a {
        assert false;
      } else if a < b {
        assert false;
      }
      var q := Strip(s);
      if |q| < |r| {
        assert false;
      } else if |r| < |q| {
        assert false;
      }
      assert forall k :: 0 <= k < |r| ==> r[k] == q[k];
    }
  }

  /** A line is dropped as empty exactly when every character of it is white space. */
  lemma StripEmptyIffBlank(s: string)
    ensures Strip(s) == [] <==> forall i :: 0 <= i < |s| ==> IsSpace(s[i])
  {
    var t := TrimStart(s);
    if Strip(s) == [] {
      forall i | 0 <= i < |s| ensures IsSpace(s[i]) {
        if i >= |s| - |t| {
          assert s[i] == t[i - (|s| - |t|)];
        }
      }
    } else {
      var r := Strip(s);
      assert r[0] == t[0] == s[|s| - |t|];
    }
  }

  /** Stripping twice is stripping once. */
  lemma StripIdempotent(s: string)
    ensures Strip(Strip(s)) == Strip(s)
  {
    var r := Strip(s);
    if r != [] {
      assert TrimStart(r) == r;
      assert TrimEnd(r) == r;
    }
  }

  /** `c.isdigit()`, for the ASCII digits. */
  predicate IsDigit(c: char) {
    '0' <= c <= '9'
  }

  /** `c.lower()` for ASCII letters. */
  function LowerChar(c: char): char {
    if 'A' <= c <= 'Z' then (c as int + 32) as char else c
  }

  /** `s.lower()` (ASCII case mapping). */
  function Lower(s: string): (r: string)
    ensures |r| == |s| && forall i :: 0 <= i < |s| ==> r[i] == LowerChar(s[i])
  {
    seq(|s|, i requires 0 <= i < |s| => LowerChar(s[i]))
  }

  /** `sub in s` */
  predicate Contains(s: string, sub: string)
    decreases |s|
  {
    sub <= s || (|s| > 0 && Contains(s[1..], sub))
  }

  /** `sub` occurs in `s` starting at index `i`. */
  predicate OccursAt(s: string, sub: string, i: nat) {
    i + |sub| <= |s| && s[i..i + |sub|] == sub
  }

  /** `sub in s` holds exactly when `sub` occurs at some position of `s`. */
  lemma {:induction false} ContainsAt(s: string, sub: string)
    ensures Contains(s, sub) <==> exists i: nat :: OccursAt(s, sub, i)
    decreases |s|
  {
    if Contains(s, sub) {
      if sub <= s {
        assert OccursAt(s, sub, 0);
      } else {
        ContainsAt(s[1..], sub);
        var i: nat :| OccursAt(s[1..], sub, i);
        DropOneShift(s, i + 1, |sub|);
        assert OccursAt(s, sub, i + 1);
      }
    }
    if exists i: nat :: OccursAt(s, sub, i) {
      var i: nat :| OccursAt(s, sub, i);
      if i > 0 {
        ContainsAt(s[1..], sub);
        DropOneShift(s, i, |sub|);
        assert OccursAt(s[1..], sub, i - 1);
      } else {
        assert s[..|sub|] == sub;
      }
    }
  }

  /** An infix of `s[1..]` is the infix of `s` one position further on. */
  lemma DropOneShift(s: string, i: nat, n: nat)
    requires 1 <= i && i + n <= |s|
    ensures s[1..][i - 1..i - 1 + n] == s[i..i + n]
  {
  }

  /** Index of the first `c` of `s`. */
  function IndexOf(s: string, c: char): (r: Option<nat>)
    ensures r.None? <==> c !in s
    ensures r.Some? ==> r.value < |s| && s[r.value] == c
    ensures r.Some? ==> forall k :: 0 <= k < r.value ==> s[k] != c
  {
    if |s| == 0 then None
    else if s[0] == c then Some(0)
    else match IndexOf(s[1..], c)
      case None => None
      case Some(i) => Some(i + 1)
  }

  /** Index of the last `c` of `s`. */
  function LastIndexOf(s: string, c: char): (r: Option<nat>)
    ensures r.None? <==> c !in s
    ensures r.Some? ==> r.value < |s| && s[r.value] == c
    ensures r.Some? ==> forall k :: r.value < k < |s| ==> s[k] != c
  {
    if |s| == 0 then None
    else if s[|s| - 1] == c then Some(|s| - 1)
    else LastIndexOf(s[..|s| - 1], c)
  }

  /** Where the greedy pattern `open .* close` (dot matching newlines) matches in `s`:
      from the first `open` to the last `close`, provided the last `close` comes after
      the first `open`. */
  function SpanBounds(s: string, open: char, close: char): (r: Option<(nat, nat)>)
    ensures r.None? <==> !exists i, j :: 0 <= i < j < |s| && s[i] == open && s[j] == close
    ensures r.Some? ==> r.value.0 < r.value.1 < |s| && s[r.value.0] == open && s[r.value.1] == close
    ensures r.Some? ==> forall k :: 0 <= k < r.value.0 ==> s[k] != open
    ensures r.Some? ==> forall k :: r.value.1 < k < |s| ==> s[k] != close
  {
    match (IndexOf(s, open), LastIndexOf(s, close))
    case (Some(i), Some(j)) =>
      if i < j then Some((i, j))
      else
        assert forall a, b :: 0 <= a < b < |s| && s[a] == open && s[b] == close ==> i <= a && b <= j;
        None
    case _ => None
  }

  /** The text the greedy span pattern matches, `match.group(0)`. */
  function Span(s: string, open: char, close: char): (r: Option<string>)
    ensures r.Some? <==> SpanBounds(s, open, close).Some?
    ensures r.Some? ==> |r.value| >= 2 && r.value[0] == open && r.value[|r.value| - 1] == close
  {
    match SpanBounds(s, open, close)
    case None => None
    case Some((i, j)) => Some(s[i..j + 1])
  }

  /** Where the parts of `a + m + c` sit. */
  lemma ThreeParts(a: string, m: string, c: string)
    ensures (a + m + c)[|a|..|a| + |m|] == m
    ensures forall k :: 0 <= k < |a| ==> (a + m + c)[k] == a[k]
    ensures forall k :: |a| + |m| <= k < |a + m + c| ==> (a + m + c)[k] == c[k - |a| - |m|]
  {
    assert (a + m + c)[|a|..|a| + |m|] == m by {
      assert forall k :: 0 <= k < |m| ==> (a + m + c)[|a| + k] == m[k];
    }
  }

  /** The greedy span of a text with one delimited part, no opening character before it
      and no closing character after it, is that part. */
  lemma SpanEmbedded(before: string, m: string, after: string, open: char, close: char)
    requires |m| >= 2 && m[0] == open && m[|m| - 1] == close
    requires open !in before && close !in after
    ensures Span(before + m + after, open, close) == Some(m)
  {
    var s := before + m + after;
    ThreeParts(before, m, after);
    var i, j := |before|, |before| + |m| - 1;
    assert s[i] == open && s[j] == close;
    var b := SpanBounds(s, open, close);
    assert b.value == (i, j);
  }

  /** `c.join(parts)` */
  function Join(parts: seq<string>, c: char): string
  {
    if |parts| == 0 then ""
    else if |parts| == 1 then parts[0]
    else parts[0] + [c] + Join(parts[1..], c)
  }

  /** `s.split(c)`: the pieces between occurrences of `c`; never empty. */
  function Split(s: string, c: char): (r: seq<string>)
    ensures |r| >= 1
    ensures forall k :: 0 <= k < |r| ==> c !in r[k]
    ensures Join(r, c) == s
    decreases |s|
  {
    match IndexOf(s, c)
    case None => [s]
    case Some(i) =>
      assert c !in s[..i];
      var rest := Split(s[i + 1..], c);
      assert s == s[..i] + [c] + s[i + 1..];
      [s[..i]] + rest
  }

  lemma IndexOfAfter(a: string, c: char, b: string)
    requires c !in a
    ensures IndexOf(a + [c] + b, c) == Some(|a|)
  {
    var s := a + [c] + b;
    assert s[|a|] == c;
    assert forall k :: 0 <= k < |a| ==> s[k] == a[k];
  }

  /** Splitting what `Join` built gives back the parts, when no part holds the separator. */
  lemma {:induction false} SplitJoin(parts: seq<string>, c: char)
    requires |parts| >= 1
    requires forall k :: 0 <= k < |parts| ==> c !in parts[k]
    ensures Split(Join(parts, c), c) == parts
  {
    if |parts| == 1 {
      assert IndexOf(parts[0], c) == None;
    } else {
      var s := Join(parts, c);
      var rest := Join(parts[1..], c);
      var i := |parts[0]|;
      assert s == parts[0] + [c] + rest;
      IndexOfAfter(parts[0], c, rest);
      assert s[..i] == parts[0];
      assert s[i + 1..] == rest;
      assert Split(s, c) == [s[..i]] + Split(s[i + 1..], c);
      SplitJoin(parts[1..], c);
      assert parts == [parts[0]] + parts[1..];
    }
  }

  /** `"".join(parts)` */
  function Concat(parts: seq<string>): string
  {
    if |parts| == 0 then "" else parts[0] + Concat(parts[1..])
  }

  /** A single part is its own concatenation. */
  lemma ConcatSingle(x: string)
    ensures Concat([x]) == x
  {
    assert [x][1..] == [];
  }

  /** Appending one more part appends its text: the `+=` loops build `Concat`. */
  lemma {:induction false} ConcatSnoc(parts: seq<string>, x: string)
    ensures Concat(parts + [x]) == Concat(parts) + x
  {
    if |parts| == 0 {
      assert parts + [x] == [x];
    } else {
      assert (parts + [x])[1..] == parts[1..] + [x];
      ConcatSnoc(parts[1..], x);
    }
  }

  /** Lines each ending in `c` are what joining them, plus one empty last piece, gives. */
  lemma {:induction false} ConcatTerminated(lines: seq<string>, c: char)
    ensures Concat(seq(|lines|, i requires 0 <= i < |lines| => lines[i] + [c])) == Join(lines + [""], c)
  {
    var terminated := seq(|lines|, i requires 0 <= i < |lines| => lines[i] + [c]);
    if |lines| > 0 {
      var rest := lines[1..];
      assert terminated[1..] == seq(|rest|, i requires 0 <= i < |rest| => rest[i] + [c]);
      ConcatTerminated(rest, c);
      assert (lines + [""])[1..] == rest + [""];
    }
  }

  /** The character of the decimal digit `d`. */
  function DigitChar(d: nat): (c: char)
    requires d < 10
    ensures IsDigit(c) && c as int - '0' as int == d
  {
    ('0' as int + d) as char
  }

  /** `str(n)` for a natural number: its decimal digits, without leading zeros. */
  function NatToString(n: nat): (r: string)
    ensures |r| >= 1 && forall i :: 0 <= i < |r| ==> IsDigit(r[i])
    ensures n > 0 ==> r[0] != '0'
  {
    if n < 10 then [DigitChar(n)] else NatToString(n / 10) + [DigitChar(n % 10)]
  }

  /** The number a string of decimal digits denotes. */
  function DigitsValue(s: string): nat
    requires forall i :: 0 <= i < |s| ==> IsDigit(s[i])
  {
    assert |s| > 0 ==> IsDigit(s[|s| - 1]);
    if |s| == 0 then 0
    else 10 * DigitsValue(s[..|s| - 1]) + (s[|s| - 1] as int - '0' as int)
  }

  /** Reading the digits back gives the number. */
  lemma {:induction false} NatToStringValue(n: nat)
    ensures DigitsValue(NatToString(n)) == n
  {
    var r := NatToString(n);
    if n >= 10 {
      NatToStringValue(n / 10);
      assert r[..|r| - 1] == NatToString(n / 10);
    } else {
      assert r[..0] == [];
    }
  }
}

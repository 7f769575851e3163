/** backend/image_analysis.py: the classification of the OCR text of an uploaded chart
    image into a chart type and the lines that carry numbers. The OCR itself is not
    modelled: its outcome, the text or the message of the exception it raised, is an
    input. */
module ImageAnalysis {
  import opened Wrappers
  import opened Text
  import opened Seqs

  /** What opening the image and running OCR on it gave. */
  datatype Ocr = Read(text: string) | Failed(message: string)

  /** The answer of `analyze_image`. */
  datatype Report =
    | Analysis(chartType: string, keyPoints: seq<string>, rawText: string, analysis: string)
    | ImageError(error: string)

  const Unknown: string := "Unknown"
  const Candlestick: string := "Candlestick Chart"
  const LineChart: string := "Line Chart"
  const BarChart: string := "Bar Chart"
  const KeyPointCap: nat := 5
  const ErrorPrefix: string := "Error analyzing image: "

  /** Some keyword occurs in the lower-cased line. */
  predicate Mentions(line: string, keywords: seq<string>)
  {
    exists k :: 0 <= k < |keywords| && Contains(Lower(line), keywords[k])
  }

  /** The chart type one line names: candlestick before line before bar, none when it
      names no type. */
  function ChartKind(line: string): (r: Option<string>)
    ensures r == Some(Candlestick) <==> Mentions(line, ["candlestick", "candle"])
    ensures r == Some(LineChart) <==> !Mentions(line, ["candlestick", "candle"]) && Mentions(line, ["line", "trend"])
    ensures r == Some(BarChart) <==>
              !Mentions(line, ["candlestick", "candle"]) && !Mentions(line, ["line", "trend"]) && Mentions(line, ["bar", "histogram"])
    ensures r.None? <==>
              !Mentions(line, ["candlestick", "candle"]) && !Mentions(line, ["line", "trend"]) && !Mentions(line, ["bar", "histogram"])
  {
    if Mentions(line, ["candlestick", "candle"]) then Some(Candlestick)
    else if Mentions(line, ["line", "trend"]) then Some(LineChart)
    else if Mentions(line, ["bar", "histogram"]) then Some(BarChart)
    else None
  }

  /** `any(char.isdigit() for char in line)` */
  predicate HasDigit(line: string)
  {
    exists i :: 0 <= i < |line| && IsDigit(line[i])
  }

  /** `chart_type` after the loop over `lines`: set by every non-empty line that names
      a type. */
  function ChartTypeOf(lines: seq<string>): (r: string)
    ensures r == Unknown || r == Candlestick || r == LineChart || r == BarChart
  {
    if |lines| == 0 then Unknown
    else
      var line := Strip(lines[|lines| - 1]);
      if line != "" && ChartKind(line).Some? then ChartKind(line).value else ChartTypeOf(lines[..|lines| - 1])
  }

  /** One more line sets the chart type when it is non-empty and names one. */
  lemma ChartTypeStep(lines: seq<string>, i: nat)
    requires i < |lines|
    ensures var line := Strip(lines[i]);
            ChartTypeOf(lines[..i + 1])
            == if line != "" && ChartKind(line).Some? then ChartKind(line).value else ChartTypeOf(lines[..i])
  {
    assert lines[..i + 1][..i] == lines[..i];
  }

  /** One more line adds its key point when it is non-empty and holds a digit. */
  lemma KeyPointsStep(lines: seq<string>, i: nat)
    requires i < |lines|
    ensures var line := Strip(lines[i]);
            KeyPointsOf(lines[..i + 1])
            == if line == "" then KeyPointsOf(lines[..i]) else KeyPointsOf(lines[..i]) + (if HasDigit(line) then [line] else [])
  {
    assert lines[..i + 1][..i] == lines[..i];
  }

  /** `key_points` after the loop over `lines`: every non-empty line holding a digit. */
  function KeyPointsOf(lines: seq<string>): (r: seq<string>)
    ensures |r| <= |lines|
    ensures forall k :: 0 <= k < |r| ==> r[k] != "" && HasDigit(r[k])
  {
    if |lines| == 0 then []
    else
      var line := Strip(lines[|lines| - 1]);
      if line == "" then KeyPointsOf(lines[..|lines| - 1])
      else KeyPointsOf(lines[..|lines| - 1]) + (if HasDigit(line) then [line] else [])
  }

  /** Line `i` is a non-empty line naming a chart type. */
  predicate NamesChart(lines: seq<string>, i: int)
  {
    0 <= i < |lines| && Strip(lines[i]) != "" && ChartKind(Strip(lines[i])).Some?
  }

  /** The chart type stays "Unknown" when no line names one. */
  lemma {:induction false} NoChartNamedIsUnknown(lines: seq<string>)
    requires forall i :: 0 <= i < |lines| ==> !NamesChart(lines, i)
    ensures ChartTypeOf(lines) == Unknown
  {
    if |lines| > 0 {
      var init := lines[..|lines| - 1];
      assert forall i :: 0 <= i < |init| ==> lines[i] == init[i] && (NamesChart(init, i) <==> NamesChart(lines, i));
      NoChartNamedIsUnknown(init);
      assert !NamesChart(lines, |lines| - 1);
    }
  }

  /** Otherwise it is the type named by the last line that names one. */
  lemma {:induction false} LastChartNamedWins(lines: seq<string>, i: nat)
    requires NamesChart(lines, i)
    requires forall j :: i < j < |lines| ==> !NamesChart(lines, j)
    ensures ChartTypeOf(lines) == ChartKind(Strip(lines[i])).value
  {
    var init := lines[..|lines| - 1];
    if i < |lines| - 1 {
      assert forall j :: 0 <= j < |init| ==> lines[j] == init[j] && (NamesChart(init, j) <==> NamesChart(lines, j));
      LastChartNamedWins(init, i);
      assert !NamesChart(lines, |lines| - 1);
    }
  }

  /** The reference definition of `key_points`: the stripped lines with a digit, in
      order. */
  function DigitLines(lines: seq<string>): seq<string>
  {
    if |lines| == 0 then []
    else DigitLine(lines[0]) + DigitLines(lines[1..])
  }

  /** Every key point is a non-empty stripped line of the text holding a digit. */
  lemma {:induction false} DigitLinesSound(lines: seq<string>, p: string)
    requires p in DigitLines(lines)
    ensures p != "" && HasDigit(p) && exists i :: 0 <= i < |lines| && p == Strip(lines[i])
  {
    if p !in DigitLine(lines[0]) {
      DigitLinesSound(lines[1..], p);
      var i :| 0 <= i < |lines| - 1 && p == Strip(lines[1..][i]);
      assert p == Strip(lines[i + 1]);
    }
  }

  /** And every stripped line holding a digit is a key point. */
  lemma {:induction false} DigitLinesComplete(lines: seq<string>, i: nat)
    requires i < |lines| && HasDigit(Strip(lines[i]))
    ensures Strip(lines[i]) in DigitLines(lines)
  {
    if i > 0 {
      DigitLinesComplete(lines[1..], i - 1);
      assert lines[1..][i - 1] == lines[i];
    }
  }

  /** The key point a single line contributes. */
  function DigitLine(line: string): seq<string>
  {
    if HasDigit(Strip(line)) then [Strip(line)] else []
  }

  lemma {:induction false} DigitLinesSnoc(lines: seq<string>, x: string)
    ensures DigitLines(lines + [x]) == DigitLines(lines) + DigitLine(x)
  {
    var l := lines + [x];
    if |lines| > 0 {
      assert l[0] == lines[0];
      assert l[1..] == lines[1..] + [x];
      DigitLinesSnoc(lines[1..], x);
      var head := DigitLine(lines[0]);
      assert DigitLines(l) == head + DigitLines(l[1..]);
      assert DigitLines(lines) == head + DigitLines(lines[1..]);
      assert head + (DigitLines(lines[1..]) + DigitLine(x)) == (head + DigitLines(lines[1..])) + DigitLine(x);
    } else {
      assert l == [x] && l[1..] == [];
      assert DigitLines(l) == DigitLine(x) + DigitLines([]);
    }
  }

  /** The loop collects exactly the non-empty stripped lines holding a digit (a line
      with a digit is never empty). */
  lemma {:induction false} KeyPointsAreDigitLines(lines: seq<string>)
    ensures KeyPointsOf(lines) == DigitLines(lines)
  {
    if |lines| > 0 {
      var init, last := lines[..|lines| - 1], lines[|lines| - 1];
      KeyPointsAreDigitLines(init);
      if Strip(last) == "" {
        assert !HasDigit(Strip(last));
      }
      DigitLinesLast(lines);
    }
  }

  /** The key points of the lines are those of all but the last, then the last's. */
  lemma DigitLinesLast(lines: seq<string>)
    requires |lines| > 0
    ensures DigitLines(lines) == DigitLines(lines[..|lines| - 1]) + DigitLine(lines[|lines| - 1])
  {
    var init, last := lines[..|lines| - 1], lines[|lines| - 1];
    assert init + [last] == lines;
    DigitLinesSnoc(init, last);
  }

  /** "Detected a <type>. Found <n> key data points in the image." */
  function Message(chartType: string, count: nat): string
  {
    "Detected a " + Lower(chartType) + ". Found " + NatToString(count) + " key data points in the image."
  }

  /** `analyze_image` with the OCR outcome given. */
  function AnalyzeImage(ocr: Ocr): (r: Report)
    ensures ocr.Failed? ==> r == ImageError(ErrorPrefix + ocr.message)
    ensures ocr.Read? ==>
              var all := DigitLines(Split(ocr.text, '\n'));
              && r.Analysis? && r.rawText == ocr.text
              && r.chartType == ChartTypeOf(Split(ocr.text, '\n'))
              && r.keyPoints == Prefix(all, KeyPointCap)
              && r.analysis == Message(r.chartType, |all|)
  {
    match ocr
    case Failed(message) => ImageError(ErrorPrefix + message)
    case Read(text) =>
      var lines := Split(text, '\n');
      var chartType, keyPoints := ChartTypeOf(lines), KeyPointsOf(lines);
      KeyPointsAreDigitLines(lines);
      Analysis(chartType, Prefix(keyPoints, KeyPointCap), text, Message(chartType, |keyPoints|))
  }

  /** The reported chart type is "Unknown" when no line of the text names one. */
  lemma ReportedUnknown(text: string)
    requires forall j :: 0 <= j < |Split(text, '\n')| ==> !NamesChart(Split(text, '\n'), j)
    ensures AnalyzeImage(Read(text)).chartType == Unknown
  {
    NoChartNamedIsUnknown(Split(text, '\n'));
  }

  /** Otherwise it is the type named by the last line that names one. */
  lemma ReportedLastNamed(text: string, i: nat)
    requires NamesChart(Split(text, '\n'), i)
    requires forall j :: i < j < |Split(text, '\n')| ==> !NamesChart(Split(text, '\n'), j)
    ensures AnalyzeImage(Read(text)).chartType == ChartKind(Strip(Split(text, '\n')[i])).value
  {
    LastChartNamedWins(Split(text, '\n'), i);
  }

  /** At most five key points are returned, the first five found, while the message
      counts all of them. */
  lemma KeyPointsCapped(text: string)
    ensures var r := AnalyzeImage(Read(text));
            var all := DigitLines(Split(text, '\n'));
            && |r.keyPoints| == (if |all| < KeyPointCap then |all| else KeyPointCap)
            && (forall k :: 0 <= k < |r.keyPoints| ==> r.keyPoints[k] == all[k])
            && DigitsValue(NatToString(|all|)) == |all|
  {
    NatToStringValue(|DigitLines(Split(text, '\n'))|);
  }

  /** The loop of `analyze_image`. */
  method AnalyzeImageText(ocr: Ocr) returns (r: Report)
    ensures r == AnalyzeImage(ocr)
  {
    if ocr.Failed? {
      return ImageError(ErrorPrefix + ocr.message);
    }
    var text := ocr.text;
    var lines := Split(text, '\n');
    var chartType := Unknown;
    var keyPoints: seq<string> := [];
    for i := 0 to |lines|
      invariant chartType == ChartTypeOf(lines[..i]) && keyPoints == KeyPointsOf(lines[..i])
    {
      ChartTypeStep(lines, i);
      KeyPointsStep(lines, i);
      var line := Strip(lines[i]);
      if line == "" {
        continue;
      }
      var kind := ChartKind(line);
      if kind.Some? {
        chartType := kind.value;
      }
      if HasDigit(line) {
        keyPoints := keyPoints + [line];
      }
    }
    assert lines[..|lines|] == lines;
    r := Analysis(chartType, Prefix(keyPoints, KeyPointCap), text, Message(chartType, |keyPoints|));
  }
}

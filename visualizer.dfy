/** The visualization engine of `visualizer/visualizer.js`: the marker
    check, the four JSON extraction patterns tried in order, the fallback
    title, the registry of created visualizations, header generation, the
    plain-text export of a table and the type icons.  `JSON.parse` is an
    oracle: it maps a string to the data it denotes, or to `None` when the
    string does not parse or parses to a falsy value. */
module Visualizer {
  import opened Wrappers
  import opened JsString

  // ---------------------------------------------------------------------
  // Markers

  const TableMarker: string := "[TABLE]"
  const ChartMarker: string := "[CHART]"
  const DietMarker: string := "[DIET_PLAN]"
  const StepsMarker: string := "[PROCESS_STEPS]"

  predicate HasVizMarker(text: string) {
    Includes(text, TableMarker) || Includes(text, ChartMarker)
      || Includes(text, DietMarker) || Includes(text, StepsMarker)
  }

  predicate StartsWithMarker(t: string) {
    StartsWith(t, TableMarker) || StartsWith(t, DietMarker)
      || StartsWith(t, ChartMarker) || StartsWith(t, StepsMarker)
  }

  /** What a parsed visualization carries, as far as this module reads it;
      an absent field is `None`. */
  datatype VizData = VizData(vizType: Option<string>, title: Option<string>,
                             headers: Option<seq<string>>, rows: Option<seq<seq<string>>>)

  // ---------------------------------------------------------------------
  // Patterns 1 and 2: `open\s*\n([\s\S]*?)close`

  /** The backtracking search after the opening literal: `\s*` gives back
      one character at a time from the longest run, each candidate must end
      on a newline, and the lazy capture then stops at the first `close`. */
  function Backoff(s: string, a: nat, p: int, close: string): (r: Option<string>)
    requires p < |s|
    decreases p - a + 1
  {
    if p < a then None
    else if s[p] == '\n' && IndexOfFrom(s, close, p + 1) >= 0 then
      Some(s[p + 1..IndexOfFrom(s, close, p + 1)])
    else Backoff(s, a, p - 1, close)
  }

  /** The capture of a match starting at `i`, if one starts there. */
  function CaptureAt(s: string, i: nat, open: string, close: string): Option<string>
    requires i <= |s|
  {
    if !OccursAt(s, open, i) then None
    else Backoff(s, i + |open|, SpaceRunEnd(s, i + |open|) - 1, close)
  }

  /** `s.match(regex)[1]` for the leftmost start position that matches. */
  function CaptureFrom(s: string, i: nat, open: string, close: string): Option<string>
    requires i <= |s|
    decreases |s| - i
  {
    if CaptureAt(s, i, open, close).Some? then CaptureAt(s, i, open, close)
    else if i == |s| then None
    else CaptureFrom(s, i + 1, open, close)
  }

  /** End of the run of white space starting at `i`. */
  function SpaceRunEnd(s: string, i: nat): (j: nat)
    requires i <= |s|
    ensures i <= j <= |s|
    ensures forall k :: i <= k < j ==> IsSpace(s[k])
    ensures j == |s| || !IsSpace(s[j])
    decreases |s| - i
  {
    if i == |s| || !IsSpace(s[i]) then i else SpaceRunEnd(s, i + 1)
  }

  /** A capture found by the backoff really sits in the text: a newline at
      or after `a`, the capture, then the closing literal, with no earlier
      closing literal after that newline. */
  lemma {:induction false} BackoffSound(s: string, a: nat, p: int, close: string)
    requires p < |s|
    ensures Backoff(s, a, p, close).Some? ==>
      exists n :: a <= n <= p && s[n] == '\n' && IndexOfFrom(s, close, n + 1) >= 0
        && Backoff(s, a, p, close).value == s[n + 1..IndexOfFrom(s, close, n + 1)]
    decreases p - a + 1
  {
    if p >= a && !(s[p] == '\n' && IndexOfFrom(s, close, p + 1) >= 0) {
      BackoffSound(s, a, p - 1, close);
    }
  }

  /** The capture of patterns 1 and 2 is text framed, in the response, by
      the opening literal, white space ending in a newline, and the closing
      literal; the capture holds no closing literal of its own. */
  lemma CaptureAtSound(s: string, i: nat, open: string, close: string)
    requires i <= |s|
    ensures CaptureAt(s, i, open, close).Some? ==>
      OccursAt(s, open, i) &&
      exists n, q :: i + |open| <= n < q <= |s| && s[n] == '\n'
        && (forall k :: i + |open| <= k < n ==> IsSpace(s[k]))
        && OccursAt(s, close, q) && CaptureAt(s, i, open, close).value == s[n + 1..q]
        && forall k: nat :: n + 1 <= k < q ==> !OccursAt(s, close, k)
  {
    if OccursAt(s, open, i) {
      var a := i + |open|;
      var e := SpaceRunEnd(s, a);
      BackoffSound(s, a, e - 1, close);
      if CaptureAt(s, i, open, close).Some? {
        var n :| a <= n <= e - 1 && s[n] == '\n' && IndexOfFrom(s, close, n + 1) >= 0
          && Backoff(s, a, e - 1, close).value == s[n + 1..IndexOfFrom(s, close, n + 1)];
        var q := IndexOfFrom(s, close, n + 1);
        assert i + |open| <= n < q <= |s|;
      }
    }
  }

  /** The match is the leftmost one: no earlier start position matches. */
  lemma {:induction false} CaptureFromLeftmost(s: string, i: nat, open: string, close: string)
    requires i <= |s|
    ensures CaptureFrom(s, i, open, close).Some? ==>
      exists j :: i <= j <= |s| && CaptureFrom(s, i, open, close) == CaptureAt(s, j, open, close)
        && forall k :: i <= k < j ==> CaptureAt(s, k, open, close).None?
    ensures CaptureFrom(s, i, open, close).None? ==>
      forall k :: i <= k <= |s| ==> CaptureAt(s, k, open, close).None?
    decreases |s| - i
  {
    var j := LeftmostCapture(s, i, open, close);
  }

  /** The start position the scan stops at, `|s| + 1` when it finds none. */
  lemma {:induction false} LeftmostCapture(s: string, i: nat, open: string, close: string) returns (j: nat)
    requires i <= |s|
    ensures i <= j <= |s| + 1
    ensures forall k :: i <= k < j && k <= |s| ==> CaptureAt(s, k, open, close).None?
    ensures j <= |s| ==> CaptureFrom(s, i, open, close) == CaptureAt(s, j, open, close) != None
    ensures j == |s| + 1 ==> CaptureFrom(s, i, open, close) == None
    decreases |s| - i
  {
    if CaptureAt(s, i, open, close).Some? {
      j := i;
    } else if i == |s| {
      j := |s| + 1;
    } else {
      j := LeftmostCapture(s, i + 1, open, close);
      assert CaptureFrom(s, i, open, close) == CaptureFrom(s, i + 1, open, close);
    }
  }

  const Fence: string := "```"

  /** Pattern 1, fenced block: "```json", white space, newline, capture,
      newline and three backticks. */
  function FencedCapture(text: string): Option<string> {
    CaptureFrom(text, 0, Fence + "json", "\n" + Fence)
  }

  /** Pattern 2, single backticks: "`json", white space, newline, capture,
      newline and one backtick. */
  function TickedCapture(text: string): Option<string> {
    CaptureFrom(text, 0, "`json", "\n`")
  }

  // ---------------------------------------------------------------------
  // Pattern 3: the lines after a marker line

  predicate StopsCollection(t: string) {
    StartsWith(t, Fence) || StartsWith(t, TableMarker) || StartsWith(t, DietMarker) || t == []
  }

  datatype LineKind = MarkerLine | StopLine | OtherLine

  /** How the collector treats a line, by its trimmed text; the marker test
      comes first. */
  function KindOf(line: string): LineKind {
    var t := Trim(line);
    if StartsWithMarker(t) then MarkerLine
    else if StopsCollection(t) then StopLine
    else OtherLine
  }

  /** The lines the collector keeps from `lines` on, given whether it is
      already collecting: a marker line starts (or restarts) collection and
      is skipped, a stop line ends it. */
  function Collected(lines: seq<string>, collecting: bool): seq<string>
    decreases |lines|
  {
    if lines == [] then []
    else
      match KindOf(lines[0])
      case MarkerLine => Collected(lines[1..], true)
      case StopLine => if collecting then [] else Collected(lines[1..], false)
      case OtherLine => if collecting then [lines[0]] + Collected(lines[1..], true) else Collected(lines[1..], false)
  }

  /** Each line followed by a newline, the way the collector accumulates. */
  function LinesText(ls: seq<string>): string {
    if ls == [] then [] else ls[0] + "\n" + LinesText(ls[1..])
  }

  /** One step of `Collected` at position `k`. */
  lemma CollectedNext(lines: seq<string>, k: nat, collecting: bool)
    requires k < |lines|
    ensures KindOf(lines[k]) == MarkerLine ==> Collected(lines[k..], collecting) == Collected(lines[k + 1..], true)
    ensures KindOf(lines[k]) == StopLine ==>
      Collected(lines[k..], collecting) == if collecting then [] else Collected(lines[k + 1..], false)
    ensures KindOf(lines[k]) == OtherLine ==>
      Collected(lines[k..], collecting) == (if collecting then [lines[k]] else []) + Collected(lines[k + 1..], collecting)
  {
    assert lines[k..][1..] == lines[k + 1..];
    assert lines[k..][0] == lines[k];
  }

  /** Text gathered so far, before and after taking one more line. */
  lemma CollectOtherText(content: string, line: string, rest: seq<string>, collecting: bool, target: string)
    requires content + LinesText((if collecting then [line] else []) + rest) == target
    ensures (if collecting then content + line + "\n" else content) + LinesText(rest) == target
  {
    if collecting {
      var r := LinesText(rest);
      assert ([line] + rest)[0] == line && ([line] + rest)[1..] == rest;
      assert LinesText([line] + rest) == line + "\n" + r;
      assert content + (line + "\n" + r) == content + line + "\n" + r;
    } else {
      assert [] + rest == rest;
    }
  }

  /** One turn of the collector's loop, stated on the text gathered so far. */
  lemma CollectStep(lines: seq<string>, k: nat, collecting: bool, content: string, target: string)
    requires k < |lines|
    requires content + LinesText(Collected(lines[k..], collecting)) == target
    ensures KindOf(lines[k]) == MarkerLine ==> content + LinesText(Collected(lines[k + 1..], true)) == target
    ensures KindOf(lines[k]) == StopLine && collecting ==> content == target
    ensures KindOf(lines[k]) == StopLine && !collecting ==> content + LinesText(Collected(lines[k + 1..], false)) == target
    ensures KindOf(lines[k]) == OtherLine ==>
      (if collecting then content + lines[k] + "\n" else content) + LinesText(Collected(lines[k + 1..], collecting)) == target
  {
    CollectedNext(lines, k, collecting);
    if KindOf(lines[k]) == OtherLine {
      CollectOtherText(content, lines[k], Collected(lines[k + 1..], collecting), collecting, target);
    }
  }

  /** The pattern-3 loop over the response's lines. */
  method CollectAfterMarker(lines: seq<string>) returns (content: string)
    ensures content == LinesText(Collected(lines, false))
  {
    content := "";
    var collecting := false;
    var k := 0;
    assert lines[0..] == lines;
    while k < |lines|
      invariant 0 <= k <= |lines|
      invariant content + LinesText(Collected(lines[k..], collecting)) == LinesText(Collected(lines, false))
    {
      var line := lines[k];
      var kind := KindOf(line);
      CollectStep(lines, k, collecting, content, LinesText(Collected(lines, false)));
      if kind == MarkerLine {
        collecting := true;
        k := k + 1;
        continue;
      }
      if collecting && kind == StopLine {
        break;
      }
      if collecting {
        content := content + line + "\n";
      }
      k := k + 1;
    }
    if k == |lines| {
      assert lines[k..] == [];
    }
  }

  /** Every collected line is an ordinary line of the response: never a
      marker line and never a line that stops collection. */
  lemma {:induction false} CollectedLinesShape(lines: seq<string>, collecting: bool)
    ensures forall k :: 0 <= k < |Collected(lines, collecting)| ==>
      KindOf(Collected(lines, collecting)[k]) == OtherLine && Collected(lines, collecting)[k] in lines
    decreases |lines|
  {
    if lines != [] {
      var rest := lines[1..];
      CollectedLinesShape(rest, true);
      CollectedLinesShape(rest, false);
      assert lines == [lines[0]] + rest;
      var c := Collected(lines, collecting);
      if KindOf(lines[0]) == OtherLine && collecting {
        var tail := Collected(rest, true);
        assert c == [lines[0]] + tail;
        forall k | 0 < k < |c| ensures c[k] == tail[k - 1] && tail[k - 1] in rest {
        }
      } else if KindOf(lines[0]) == StopLine && collecting {
        assert c == [];
      } else {
        var tail := Collected(rest, KindOf(lines[0]) == MarkerLine || collecting);
        assert c == tail;
        forall k | 0 <= k < |c| ensures c[k] in rest {
        }
      }
    }
  }

  /** An ordinary line is non-blank once trimmed and starts with neither a
      marker nor a fence. */
  lemma OtherLineShape(line: string)
    requires KindOf(line) == OtherLine
    ensures var t := Trim(line); t != [] && !StartsWithMarker(t) && !StartsWith(t, Fence)
  {
  }

  /** A response without a marker line yields nothing. */
  lemma {:induction false} NoMarkerLineNothingCollected(lines: seq<string>)
    requires forall k :: 0 <= k < |lines| ==> KindOf(lines[k]) != MarkerLine
    ensures Collected(lines, false) == []
    decreases |lines|
  {
    if lines != [] {
      NoMarkerLineNothingCollected(lines[1..]);
    }
  }

  /** The stop test's `[TABLE]` and `[DIET_PLAN]` cases are never reached:
      the marker test runs first, so a second marker line is skipped and
      collection goes on past it. */
  lemma SecondMarkerDoesNotStop(line: string, rest: seq<string>)
    requires StartsWith(Trim(line), TableMarker) || StartsWith(Trim(line), DietMarker)
    ensures Collected([line] + rest, true) == Collected(rest, true)
  {
    assert ([line] + rest)[1..] == rest;
  }

  /** The cleaning applied to the collected text before parsing. */
  function CleanCollected(content: string): (r: string)
    ensures '`' !in r
  {
    var noTicks := RemoveAll(RemoveAll(RemoveAll(content, "`json"), Fence), "`");
    RemoveAllChar(RemoveAll(RemoveAll(content, "`json"), Fence), '`');
    var cleaned := Trim(RemoveAll(noTicks, "json"));
    RemoveAllKeepsOut(noTicks, "json", '`');
    TrimSubset(RemoveAll(noTicks, "json"), '`');
    StripTrailingTicksNoop(cleaned);
    Trim(StripTrailingTicks(cleaned))
  }

  /** `replace(/`+$/g, '')`: the run of backticks at the end removed. */
  function StripTrailingTicks(s: string): (r: string)
    ensures |r| <= |s|
  {
    if s != [] && s[|s| - 1] == '`' then StripTrailingTicks(s[..|s| - 1]) else s
  }

  /** With every backtick already removed, the trailing strip does nothing. */
  lemma StripTrailingTicksNoop(s: string)
    requires '`' !in s
    ensures StripTrailingTicks(s) == s
  {
  }

  /** Removing a pattern adds no character. */
  lemma {:induction false} RemoveAllKeepsOut(s: string, pat: string, c: char)
    requires pat != [] && c !in s
    ensures c !in RemoveAll(s, pat)
    decreases |s|
  {
    if |s| >= |pat| {
      if s[..|pat|] == pat {
        RemoveAllKeepsOut(s[|pat|..], pat, c);
      } else {
        RemoveAllKeepsOut(s[1..], pat, c);
      }
    }
  }

  /** Trimming adds no character. */
  lemma TrimSubset(s: string, c: char)
    requires c !in s
    ensures c !in Trim(s)
  {
    TrimChars(s);
  }

  // ---------------------------------------------------------------------
  // Pattern 4: the span from the first `{` to the last `}`

  /** The bounds check of `emergencyJsonExtract`. */
  function BraceSpan(text: string): Option<string> {
    var start := IndexOfChar(text, '{');
    var end := LastIndexOfChar(text, '}');
    if start == -1 || end == -1 || end <= start then None
    else Some(text[start..end + 1])
  }

  /** There is a span exactly when the text has a `{` followed, somewhere
      after it, by a `}`; the span starts at the first `{` and ends at the
      last `}`. */
  lemma BraceSpanBounds(text: string)
    ensures BraceSpan(text).Some? <==>
      exists i, j :: 0 <= i < j < |text| && text[i] == '{' && text[j] == '}'
    ensures BraceSpan(text).Some? ==>
      var span := BraceSpan(text).value;
      && |span| >= 2 && span[0] == '{' && span[|span| - 1] == '}'
      && exists i :: 0 <= i < |text| && text[i] == '{' && i + |span| <= |text| && text[i..i + |span|] == span
           && (forall k :: 0 <= k < i ==> text[k] != '{')
           && (forall k :: i + |span| <= k < |text| ==> text[k] != '}')
  {
    var start := IndexOfChar(text, '{');
    var end := LastIndexOfChar(text, '}');
    if start >= 0 && end > start {
      var span := text[start..end + 1];
      assert text[start..start + |span|] == span;
    }
  }

  /** `(\w+):` quoted, scanning left to right: a word run directly followed
      by a colon becomes `"word":`. */
  function QuoteKeys(s: string, i: nat): (r: string)
    requires i <= |s|
    ensures forall k :: 0 <= k < |r| ==> r[k] in s || r[k] == '"'
    decreases |s| - i
  {
    if i == |s| then []
    else
      var j := WordRunEnd(s, i);
      if j > i && j < |s| && s[j] == ':' then
        "\"" + s[i..j] + "\":" + QuoteKeys(s, j + 1)
      else [s[i]] + QuoteKeys(s, i + 1)
  }

  function WordRunEnd(s: string, i: nat): (j: nat)
    requires i <= |s|
    ensures i <= j <= |s|
    ensures forall k :: i <= k < j ==> IsWordChar(s[k])
    ensures j == |s| || !IsWordChar(s[j])
    decreases |s| - i
  {
    if i == |s| || !IsWordChar(s[i]) then i else WordRunEnd(s, i + 1)
  }

  /** `,\s*` followed by `close` replaced by `close`, left to right. */
  function DropTrailingCommas(s: string, i: nat, close: char): (r: string)
    requires i <= |s|
    ensures forall k :: 0 <= k < |r| ==> r[k] in s
    decreases |s| - i
  {
    if i == |s| then []
    else if s[i] == ',' && SpaceRunEnd(s, i + 1) < |s| && s[SpaceRunEnd(s, i + 1)] == close then
      [close] + DropTrailingCommas(s, SpaceRunEnd(s, i + 1) + 1, close)
    else [s[i]] + DropTrailingCommas(s, i + 1, close)
  }

  /** Every `c` replaced by `d`. */
  function MapChar(s: string, c: char, d: char): (r: string)
    ensures |r| == |s| && forall k :: 0 <= k < |s| ==> r[k] == if s[k] == c then d else s[k]
  {
    seq(|s|, k requires 0 <= k < |s| => if s[k] == c then d else s[k])
  }

  /** The cleaning chain of `emergencyJsonExtract` applied to the span. */
  function CleanSpan(span: string): (r: string)
  {
    var flat := CollapseSpace(MapChar(span, '\n', ' '));
    var noTicks := RemoveAll(RemoveAll(RemoveAll(flat, "`json"), Fence), "`");
    var quoted := Trim(MapChar(RemoveAll(noTicks, "json"), '\'', '"'));
    var keyed := QuoteKeys(quoted, 0);
    DropTrailingCommas(DropTrailingCommas(keyed, 0, '}'), 0, ']')
  }

  /** After cleaning no backtick and no single quote is left. */
  lemma CleanSpanHasNoTickOrQuote(span: string)
    ensures '`' !in CleanSpan(span) && '\'' !in CleanSpan(span)
  {
    var flat := CollapseSpace(MapChar(span, '\n', ' '));
    var before := RemoveAll(RemoveAll(flat, "`json"), Fence);
    var noTicks := RemoveAll(before, "`");
    RemoveAllChar(before, '`');
    var dropped := RemoveAll(noTicks, "json");
    RemoveAllKeepsOut(noTicks, "json", '`');
    var mapped := MapChar(dropped, '\'', '"');
    assert '`' !in mapped;
    assert '\'' !in mapped;
    var quoted := Trim(mapped);
    TrimSubset(mapped, '`');
    TrimSubset(mapped, '\'');
    var keyed := QuoteKeys(quoted, 0);
    var once := DropTrailingCommas(keyed, 0, '}');
    assert '`' !in keyed && '\'' !in keyed;
    assert '`' !in once && '\'' !in once;
  }

  // ---------------------------------------------------------------------
  // The pattern order

  /** The string each pattern hands to the parser, in the order tried. */
  function Candidates(text: string): seq<Option<string>> {
    var fenced := FencedCapture(text);
    var ticked := TickedCapture(text);
    var content := LinesText(Collected(Split(text, '\n'), false));
    var span := BraceSpan(text);
    [if fenced.Some? then Some(Trim(fenced.value)) else None,
     if ticked.Some? then Some(Trim(ticked.value)) else None,
     if Trim(content) != [] then Some(CleanCollected(content)) else None,
     if span.Some? then Some(CleanSpan(span.value)) else None]
  }

  /** The first candidate that parses. */
  function FirstParsed(cands: seq<Option<string>>, parse: string -> Option<VizData>): Option<VizData> {
    if cands == [] then None
    else if cands[0].Some? && parse(cands[0].value).Some? then parse(cands[0].value)
    else FirstParsed(cands[1..], parse)
  }

  function ExtractJson(text: string, parse: string -> Option<VizData>): Option<VizData> {
    FirstParsed(Candidates(text), parse)
  }

  /** The data comes from the first candidate the parser accepts: every
      earlier candidate is absent or rejected, and no data means every
      candidate was. */
  lemma {:induction false} FirstParsedIsFirst(cands: seq<Option<string>>, parse: string -> Option<VizData>)
    ensures FirstParsed(cands, parse).Some? ==>
      exists k :: 0 <= k < |cands| && cands[k].Some? && parse(cands[k].value) == FirstParsed(cands, parse)
        && forall j :: 0 <= j < k ==> cands[j].None? || parse(cands[j].value).None?
    ensures FirstParsed(cands, parse).None? ==>
      forall j :: 0 <= j < |cands| ==> cands[j].None? || parse(cands[j].value).None?
    decreases |cands|
  {
    if cands != [] && !(cands[0].Some? && parse(cands[0].value).Some?) {
      FirstParsedIsFirst(cands[1..], parse);
      if FirstParsed(cands, parse).Some? {
        var k :| 0 <= k < |cands[1..]| && cands[1..][k].Some? && parse(cands[1..][k].value) == FirstParsed(cands, parse)
          && forall j :: 0 <= j < k ==> cands[1..][j].None? || parse(cands[1..][j].value).None?;
        assert cands[k + 1] == cands[1..][k];
        forall j | 0 <= j < k + 1 ensures cands[j].None? || parse(cands[j].value).None? {
          if j > 0 {
            assert cands[j] == cands[1..][j - 1];
          }
        }
      }
    }
  }

  // ---------------------------------------------------------------------
  // Fallback title and icons

  /** `createFallbackVisualization`'s title: each check may overwrite the
      previous one. */
  function FallbackTitle(text: string): string {
    var t0 := "Visualization";
    var t1 := if Includes(text, TableMarker) then "Data Table" else t0;
    var t2 := if Includes(text, DietMarker) then "Diet Plan" else t1;
    var t3 := if Includes(text, ChartMarker) then "Chart" else t2;
    if Includes(text, StepsMarker) then "Process Steps" else t3
  }

  /** The last check wins, so the markers rank process steps, chart, diet
      plan, table. */
  lemma FallbackPrecedence(text: string)
    ensures FallbackTitle(text) ==
      if Includes(text, StepsMarker) then "Process Steps"
      else if Includes(text, ChartMarker) then "Chart"
      else if Includes(text, DietMarker) then "Diet Plan"
      else if Includes(text, TableMarker) then "Data Table"
      else "Visualization"
    ensures HasVizMarker(text) <==> FallbackTitle(text) != "Visualization"
  {
  }

  /** `getIconForType`. */
  function IconFor(vizType: string): (icon: string)
    ensures vizType !in {"table", "diet_plan", "chart", "process_steps"} ==> icon == "fa-chart-bar"
  {
    if vizType == "table" then "fa-table"
    else if vizType == "diet_plan" then "fa-utensils"
    else if vizType == "chart" then "fa-chart-bar"
    else if vizType == "process_steps" then "fa-list-ol"
    else "fa-chart-bar"
  }

  // ---------------------------------------------------------------------
  // Tables

  /** `data.type || 'table'`. */
  function EffectiveType(data: VizData): string {
    if data.vizType.Some? && data.vizType.value != [] then data.vizType.value else "table"
  }

  predicate Supported(vizType: string) {
    vizType in {"table", "diet_plan", "chart", "process_steps"}
  }

  function ColumnName(i: nat): string {
    "Column " + NatToString(i + 1)
  }

  /** The headers `createTable` ends up with. */
  function TableHeaders(headers: seq<string>, rows: seq<seq<string>>): seq<string> {
    if headers == [] && rows != [] then seq(|rows[0]|, i requires 0 <= i < |rows[0]| => ColumnName(i))
    else headers
  }

  /** The header generation of `createTable`: one "Column i" per cell of the
      first row, pushed in order, only when there are rows but no headers. */
  method GenerateHeaders(headers: seq<string>, rows: seq<seq<string>>) returns (result: seq<string>)
    ensures result == TableHeaders(headers, rows)
  {
    result := headers;
    if |headers| == 0 && |rows| > 0 {
      for i := 0 to |rows[0]|
        invariant result == seq(i, j requires 0 <= j < i => ColumnName(j))
      {
        result := result + [ColumnName(i)];
      }
    }
  }

  /** Generated names are numbered from 1 and distinct; given headers are
      kept as they are. */
  lemma TableHeadersShape(headers: seq<string>, rows: seq<seq<string>>)
    ensures headers != [] ==> TableHeaders(headers, rows) == headers
    ensures headers == [] && rows != [] ==>
      |TableHeaders(headers, rows)| == |rows[0]|
      && forall i, j :: 0 <= i < j < |rows[0]| ==> TableHeaders(headers, rows)[i] != TableHeaders(headers, rows)[j]
  {
    if headers == [] && rows != [] {
      var hs := TableHeaders(headers, rows);
      forall i, j | 0 <= i < j < |rows[0]| ensures hs[i] != hs[j] {
        NatToStringValue(i + 1);
        NatToStringValue(j + 1);
        assert NatToString(i + 1) != NatToString(j + 1);
        assert hs[i][7..] == NatToString(i + 1);
        assert hs[j][7..] == NatToString(j + 1);
      }
    }
  }

  /** The separator line's cells: one dash per character of each header. */
  function DashCells(headers: seq<string>): (r: seq<string>)
    ensures |r| == |headers| && forall k :: 0 <= k < |r| ==> r[k] == Repeat('-', |headers[k]|)
  {
    seq(|headers|, k requires 0 <= k < |headers| => Repeat('-', |headers[k]|))
  }

  function RowsText(rows: seq<seq<string>>): string {
    if rows == [] then [] else RowsText(rows[..|rows| - 1]) + Join(rows[|rows| - 1], "\t") + "\n"
  }

  /** `data.title || 'Table\n'`. */
  function TitleOrDefault(title: Option<string>): string {
    if title.Some? && title.value != [] then title.value else "Table\n"
  }

  /** `tableToText`. */
  function TableText(title: Option<string>, headers: seq<string>, rows: seq<seq<string>>): string {
    TitleOrDefault(title) + "\n" + Join(headers, "\t") + "\n" + Join(DashCells(headers), "\t") + "\n"
      + RowsText(rows)
  }

  method TableToText(title: Option<string>, headers: seq<string>, rows: seq<seq<string>>) returns (text: string)
    ensures text == TableText(title, headers, rows)
  {
    text := TitleOrDefault(title);
    text := text + "\n";
    text := text + Join(headers, "\t") + "\n";
    text := text + Join(DashCells(headers), "\t") + "\n";
    var prefix := text;
    for k := 0 to |rows|
      invariant text == prefix + RowsText(rows[..k])
    {
      assert rows[..k + 1][..k] == rows[..k];
      text := text + Join(rows[k], "\t") + "\n";
    }
    TakeAll(rows);
  }

  /** Read back on tabs, the separator line has one dash run per header,
      as long as that header. */
  lemma DashLineReadsBack(headers: seq<string>)
    requires headers != []
    ensures var cells := Split(Join(DashCells(headers), "\t"), '\t');
      |cells| == |headers| && forall k :: 0 <= k < |cells| ==>
        (|cells[k]| == |headers[k]| && forall j :: 0 <= j < |cells[k]| ==> cells[k][j] == '-')
  {
    var dashes := DashCells(headers);
    forall k | 0 <= k < |dashes| ensures '\t' !in dashes[k] {
      assert forall j :: 0 <= j < |dashes[k]| ==> dashes[k][j] == '-';
    }
    SplitJoin(dashes, '\t');
  }

  /** One line per row after the three header lines: the rows' text has as
      many line breaks as rows when no cell has one. */
  lemma {:induction false} RowsTextLines(rows: seq<seq<string>>)
    requires forall r, k :: 0 <= r < |rows| && 0 <= k < |rows[r]| ==> '\n' !in rows[r][k]
    ensures CountChar(RowsText(rows), '\n') == |rows|
    decreases |rows|
  {
    if rows != [] {
      var last := rows[|rows| - 1];
      assert RowsText(rows) == RowsText(rows[..|rows| - 1]) + (Join(last, "\t") + "\n");
      RowsTextLines(rows[..|rows| - 1]);
      JoinNoChar(last, "\t", '\n');
      NoCharCount(Join(last, "\t"), '\n');
      CountCharAppend(RowsText(rows[..|rows| - 1]), Join(last, "\t") + "\n", '\n');
      CountCharAppend(Join(last, "\t"), "\n", '\n');
      assert CountChar("\n", '\n') == 1;
    }
  }

  /** A join of pieces and a separator without `c` has no `c`. */
  lemma {:induction false} JoinNoChar(parts: seq<string>, sep: string, c: char)
    requires c !in sep && forall k :: 0 <= k < |parts| ==> c !in parts[k]
    ensures c !in Join(parts, sep)
    decreases |parts|
  {
    if |parts| > 1 {
      JoinNoChar(parts[1..], sep, c);
    }
  }

  // ---------------------------------------------------------------------
  // The registry

  datatype VizRecord = VizRecord(id: string, vizType: string, data: VizData)

  /** The data object as it is once rendered: for a table whose `headers`
      is an empty array, `createTable` pushes the generated names into that
      very array, so the record holds them too. */
  function RenderedData(data: VizData): VizData {
    if EffectiveType(data) == "table" && data.headers == Some([]) && data.rows.Some?
    then data.(headers := Some(TableHeaders([], data.rows.value)))
    else data
  }

  /** Rendering changes at most the headers, and only those of a table
      given an empty header array and a first row with cells; then they
      become one distinct "Column i" per cell. */
  lemma RenderedDataOnlyHeaders(data: VizData)
    ensures RenderedData(data).(headers := data.headers) == data
    ensures RenderedData(data) != data ==>
      && EffectiveType(data) == "table" && data.headers == Some([])
      && data.rows.Some? && data.rows.value != [] && data.rows.value[0] != []
    ensures RenderedData(data) != data ==>
      var hs := RenderedData(data).headers.value;
      |hs| == |data.rows.value[0]| && forall i, j :: 0 <= i < j < |hs| ==> hs[i] != hs[j]
  {
    if RenderedData(data) != data {
      TableHeadersShape([], data.rows.value);
    }
  }

  /** What a response turns into. */
  datatype Shown =
    | Plain(text: string)             // no marker: the text as it was
    | Visualized(vizType: string)     // a visualization of a supported type
    | UnsupportedType(vizType: string) // the error block for an unknown type
    | Fallback(title: string)         // the parse-error block

  /** The visualizer object and its list of created visualizations. */
  class VentoraVisualizer {
    var visualizers: seq<VizRecord>

    constructor ()
      ensures visualizers == []
    {
      visualizers := [];
    }

    /** `createVisualization`: a supported type is rendered and recorded
        once; any other type gives the error block and records nothing. */
    method CreateVisualization(data: VizData, id: string) returns (shown: Shown)
      modifies this
      ensures Supported(EffectiveType(data)) ==>
        shown == Visualized(EffectiveType(data))
        && visualizers == old(visualizers) + [VizRecord(id, EffectiveType(data), RenderedData(data))]
      ensures !Supported(EffectiveType(data)) ==>
        shown == UnsupportedType(EffectiveType(data)) && visualizers == old(visualizers)
    {
      var vizType := EffectiveType(data);
      if !Supported(vizType) {
        return UnsupportedType(vizType);
      }
      var rendered := data;
      if vizType == "table" && data.headers == Some([]) && data.rows.Some? {
        var headers := GenerateHeaders([], data.rows.value);
        rendered := data.(headers := Some(headers));
      }
      visualizers := visualizers + [VizRecord(id, vizType, rendered)];
      shown := Visualized(vizType);
    }

    /** `processAIResponse`: unchanged text without a marker, otherwise the
        first extracted data is visualized, or the fallback block shown. */
    method ProcessAIResponse(text: string, parse: string -> Option<VizData>, id: string) returns (shown: Shown)
      modifies this
      ensures !HasVizMarker(text) ==> shown == Plain(text) && visualizers == old(visualizers)
      ensures HasVizMarker(text) && ExtractJson(text, parse).None? ==>
        shown == Fallback(FallbackTitle(text)) && visualizers == old(visualizers)
      ensures HasVizMarker(text) && ExtractJson(text, parse).Some? ==>
        var data := ExtractJson(text, parse).value;
        (Supported(EffectiveType(data)) ==>
           shown == Visualized(EffectiveType(data))
           && visualizers == old(visualizers) + [VizRecord(id, EffectiveType(data), RenderedData(data))])
        && (!Supported(EffectiveType(data)) ==> shown == UnsupportedType(EffectiveType(data)) && visualizers == old(visualizers))
    {
      if !HasVizMarker(text) {
        return Plain(text);
      }
      var data := ExtractJson(text, parse);
      if data.Some? {
        shown := CreateVisualization(data.value, id);
      } else {
        shown := Fallback(FallbackTitle(text));
      }
    }
  }
}

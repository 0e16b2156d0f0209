/** The text-to-visualization engine of `visualizer/vdiv.js`: trigger
    detection, the Markdown-table, list and diet-plan parsers with their
    hand-written regular expressions, the flowchart structure and the
    per-conversation store.  Regular expressions are written out as the
    leftmost-match scans their engine performs. */
module VizEngine {
  import opened Wrappers
  import opened JsString

  // ---------------------------------------------------------------------
  // Detection

  const TableTriggers: seq<string> := ["table", "data", "comparison", "list of", "breakdown"]
  const DietTriggers: seq<string> := ["diet plan", "meal plan", "nutrition", "breakfast", "lunch", "dinner"]
  const FlowchartTriggers: seq<string> := ["flowchart", "process", "steps", "workflow", "diagram"]

  /** `triggers.some(t => text.includes(t))`. */
  predicate AnyTrigger(text: string, triggers: seq<string>) {
    exists k :: 0 <= k < |triggers| && Includes(text, triggers[k])
  }

  /** Line terminators, where `^` and `$` match in multiline mode. */
  predicate IsLineTerminator(c: char) {
    c == '\n' || c == '\r' || c == '\U{2028}' || c == '\U{2029}'
  }

  /** The text cut at every line terminator. */
  function Lines(s: string): (r: seq<string>)
    ensures |r| >= 1
    ensures forall k, j :: 0 <= k < |r| && 0 <= j < |r[k]| ==> !IsLineTerminator(r[k][j])
    decreases |s|
  {
    if s == [] then [[]]
    else
      var rest := Lines(s[1..]);
      if IsLineTerminator(s[0]) then [[]] + rest
      else [[s[0]] + rest[0]] + rest[1..]
  }

  /** A line `/^(?:\d+\.|-|•).+$/m` matches: a digit run and a dot, or a dash
      or a bullet, followed by at least one more character. */
  predicate IsListItemLine(line: string) {
    if line == [] then false
    else if line[0] == '-' || line[0] == '\U{2022}' then |line| >= 2
    else
      var j := DigitRunEnd(line, 0);
      0 < j && j < |line| && line[j] == '.' && j + 1 < |line|
  }

  /** The number of list-item lines. */
  function ListItemCount(lines: seq<string>): (n: nat)
    ensures n <= |lines|
  {
    if lines == [] then 0 else (if IsListItemLine(lines[0]) then 1 else 0) + ListItemCount(lines[1..])
  }

  /** `shouldCreateTable`: a trigger word, a pipe, more than three lines
      with a colon, or at least three list-item lines. */
  predicate ShouldCreateTable(lowerText: string, fullText: string) {
    AnyTrigger(lowerText, TableTriggers)
      || Includes(fullText, "|")
      || (|Split(fullText, '\n')| > 3 && Includes(fullText, ":"))
      || ListItemCount(Lines(fullText)) >= 3
  }

  datatype VizKind = TableViz | DietViz | FlowchartViz

  /** `detectVisualization`: table, then diet, then flowchart. */
  function Detect(text: string): Option<VizKind> {
    var lower := ToLower(text);
    if ShouldCreateTable(lower, text) then Some(TableViz)
    else if AnyTrigger(lower, DietTriggers) then Some(DietViz)
    else if AnyTrigger(lower, FlowchartTriggers) then Some(FlowchartViz)
    else None
  }

  /** The checks are tried in order: a text that qualifies as a table is a
      table even when it also names a meal; diet is chosen only when the
      table checks fail, flowchart only when both fail. */
  lemma DetectPriority(text: string)
    ensures Detect(text) == Some(TableViz) <==> ShouldCreateTable(ToLower(text), text)
    ensures Detect(text) == Some(DietViz) <==>
      !ShouldCreateTable(ToLower(text), text) && AnyTrigger(ToLower(text), DietTriggers)
    ensures Detect(text) == Some(FlowchartViz) <==>
      !ShouldCreateTable(ToLower(text), text) && !AnyTrigger(ToLower(text), DietTriggers)
        && AnyTrigger(ToLower(text), FlowchartTriggers)
    ensures Detect(text) == None ==> !Includes(text, "|")
  {
  }

  // ---------------------------------------------------------------------
  // Character scans shared by the parsers

  /** End of the run of decimal digits starting at `i`. */
  function DigitRunEnd(s: string, i: nat): (j: nat)
    requires i <= |s|
    ensures i <= j <= |s|
    ensures j == |s| || !IsDigit(s[j])
    decreases |s| - i
  {
    if i == |s| || !IsDigit(s[i]) then i else DigitRunEnd(s, i + 1)
  }

  /** Every character the run covers passes the test. */
  lemma {:induction false} DigitRun(s: string, i: nat)
    requires i <= |s|
    ensures forall k :: i <= k < DigitRunEnd(s, i) ==> IsDigit(s[k])
    decreases |s| - i
  {
    if i < |s| && IsDigit(s[i]) {
      DigitRun(s, i + 1);
    }
  }

  /** End of the run of white space starting at `i`. */
  function SpaceRunEnd(s: string, i: nat): (j: nat)
    requires i <= |s|
    ensures i <= j <= |s|
    ensures j == |s| || !IsSpace(s[j])
    decreases |s| - i
  {
    if i == |s| || !IsSpace(s[i]) then i else SpaceRunEnd(s, i + 1)
  }

  /** Every character the run covers passes the test. */
  lemma {:induction false} SpaceRun(s: string, i: nat)
    requires i <= |s|
    ensures forall k :: i <= k < SpaceRunEnd(s, i) ==> IsSpace(s[k])
    decreases |s| - i
  {
    if i < |s| && IsSpace(s[i]) {
      SpaceRun(s, i + 1);
    }
  }

  /** The list-marker strip: one leading digit, `+`, `-`, `•` or `*` and
      the white space after it. */
  predicate IsMarkerChar(c: char) {
    IsDigit(c) || c == '+' || c == '-' || c == '\U{2022}' || c == '*'
  }

  function StripMarker(line: string): (r: string)
    ensures |r| <= |line|
    ensures line != [] && IsMarkerChar(line[0]) ==> r == TrimStart(line[1..])
    ensures line == [] || !IsMarkerChar(line[0]) ==> r == line
  {
    if line != [] && IsMarkerChar(line[0]) then TrimStart(line[1..]) else line
  }

  /** A list line without its marker, trimmed. */
  function Cleaned(line: string): string {
    Trim(StripMarker(line))
  }

  /** Only one marker character is removed, so a numbered item such as
      "1. Eggs" keeps its dot: the cleaned text starts with it. */
  lemma NumberedItemKeepsDot(line: string)
    requires |line| >= 2 && IsDigit(line[0]) && line[1] == '.'
    ensures Cleaned(line) != [] && Cleaned(line)[0] == '.'
  {
    var t := line[1..];
    assert StripMarker(line) == t by {
      assert !IsSpace(t[0]);
    }
    assert TrimEnd(t) != [] by {
      assert !AllSpace(t);
    }
  }

  function TrimAll(xs: seq<string>): (r: seq<string>)
    ensures |r| == |xs| && forall k :: 0 <= k < |xs| ==> r[k] == Trim(xs[k])
  {
    seq(|xs|, k requires 0 <= k < |xs| => Trim(xs[k]))
  }

  // ---------------------------------------------------------------------
  // Tables

  datatype Table = Table(headers: seq<string>, rows: seq<seq<string>>)

  function NonEmpty(s: string): bool {
    s != []
  }

  function HasPipe(line: string): bool {
    '|' in line
  }

  /** One Markdown table line: split on `|`, trimmed, empty cells dropped. */
  function PipeCells(line: string): seq<string> {
    Filter(TrimAll(Split(line, '|')), NonEmpty)
  }

  /** A cell as a Markdown table leaves it: non-empty, without a pipe and
      without white space at either end. */
  predicate CleanCell(c: string) {
    c != [] && '|' !in c && !IsSpace(c[0]) && !IsSpace(c[|c| - 1])
  }

  predicate CleanCells(cells: seq<string>) {
    forall k :: 0 <= k < |cells| ==> CleanCell(cells[k])
  }

  lemma PipeCellsClean(line: string)
    ensures CleanCells(PipeCells(line))
  {
    var pieces := Split(line, '|');
    SplitPiecesFree(line, '|');
    var trimmed := TrimAll(pieces);
    var cells := PipeCells(line);
    forall k | 0 <= k < |cells|
      ensures CleanCell(cells[k])
    {
      var m :| 0 <= m < |trimmed| && trimmed[m] == cells[k];
      TrimChars(pieces[m]);
    }
  }

  /** The lines of the text that contain a pipe. */
  function PipeLines(text: string): seq<string> {
    Filter(Split(text, '\n'), HasPipe)
  }

  /** Rows are built by one `PipeCells` per pipe line after the first two. */
  function BodyRows(lines: seq<string>): (rows: seq<seq<string>>)
    requires |lines| >= 2
    ensures |rows| == |lines| - 2
    ensures forall k :: 0 <= k < |rows| ==> CleanCells(rows[k])
  {
    PipeRows(lines[2..])
  }

  /** One `PipeCells` row per line, in order. */
  function PipeRows(lines: seq<string>): (rows: seq<seq<string>>)
    ensures |rows| == |lines|
    ensures forall k :: 0 <= k < |rows| ==> rows[k] == PipeCells(lines[k]) && CleanCells(rows[k])
  {
    if lines == [] then []
    else
      PipeCellsClean(lines[0]);
      [PipeCells(lines[0])] + PipeRows(lines[1..])
  }

  /** `parseMarkdownTable`: the first pipe line gives the headers, the second
      (the separator) is skipped, the rest are rows; fewer than two pipe
      lines give no table, and every cell is clean. */
  function ParseMarkdownTable(text: string): (t: Option<Table>)
    ensures t.None? <==> |PipeLines(text)| < 2
    ensures t.Some? ==> |t.value.rows| == |PipeLines(text)| - 2
    ensures t.Some? ==> CleanCells(t.value.headers) && forall k :: 0 <= k < |t.value.rows| ==> CleanCells(t.value.rows[k])
  {
    var lines := PipeLines(text);
    if |lines| < 2 then None
    else
      PipeCellsClean(lines[0]);
      Some(Table(PipeCells(lines[0]), BodyRows(lines)))
  }

  /** The row a list line contributes, if any. */
  function ListRow(line: string): Option<seq<string>> {
    CleanedRow(Cleaned(line))
  }

  /** The row of a cleaned list line: two cells around the first colon, the
      cells between dashes, or the text and an empty cell. */
  function CleanedRow(c: string): Option<seq<string>> {
    if ':' in c then
      var parts := TrimAll(Split(c, ':'));
      Some([parts[0], parts[1]])
    else if '-' in c then Some(TrimAll(Split(c, '-')))
    else if c != [] then Some([c, ""])
    else None
  }

  function ListRows(lines: seq<string>): seq<seq<string>> {
    if lines == [] then []
    else
      var init := ListRows(lines[..|lines| - 1]);
      match ListRow(lines[|lines| - 1])
      case None => init
      case Some(row) => init + [row]
  }

  const ListHeaders: seq<string> := ["Item", "Description"]

  /** One more line adds its row, if it has one. */
  lemma ListRowsNext(lines: seq<string>, k: nat)
    requires k < |lines|
    ensures ListRow(lines[k]).None? ==> ListRows(lines[..k + 1]) == ListRows(lines[..k])
    ensures ListRow(lines[k]).Some? ==> ListRows(lines[..k + 1]) == ListRows(lines[..k]) + [ListRow(lines[k]).value]
  {
    assert lines[..k + 1][..k] == lines[..k];
  }

  /** `parseListToTable`: rows pushed line by line, fixed headers, no table
      without a row. */
  method ParseListToTable(lines: seq<string>) returns (table: Option<Table>)
    ensures ListRows(lines) == [] ==> table == None
    ensures ListRows(lines) != [] ==> table == Some(Table(ListHeaders, ListRows(lines)))
  {
    var data: seq<seq<string>> := [];
    for k := 0 to |lines|
      invariant data == ListRows(lines[..k])
    {
      ListRowsNext(lines, k);
      ListRowShape(lines[k]);
      var cleaned := Cleaned(lines[k]);
      if ':' in cleaned {
        var parts := TrimAll(Split(cleaned, ':'));
        data := data + [[parts[0], parts[1]]];
      } else if '-' in cleaned {
        var parts := TrimAll(Split(cleaned, '-'));
        if |parts| >= 2 {
          data := data + [parts];
        }
      } else if cleaned != [] {
        data := data + [[cleaned, ""]];
      }
    }
    TakeAll(lines);
    if |data| > 0 {
      table := Some(Table(ListHeaders, data));
    } else {
      table := None;
    }
  }

  /** A list line gives a row exactly when its cleaned text is non-empty,
      and the row has at least two cells: the dash branch's length test in
      the loop never fails. */
  lemma ListRowShape(line: string)
    ensures ListRow(line).Some? <==> Cleaned(line) != []
    ensures ListRow(line).Some? ==> |ListRow(line).value| >= 2
  {
    CleanedRowShape(Cleaned(line));
  }

  lemma CleanedRowShape(c: string)
    ensures CleanedRow(c).Some? <==> c != []
    ensures CleanedRow(c).Some? ==> |CleanedRow(c).value| >= 2
  {
    if '-' in c {
      assert |Split(c, '-')| >= 2;
    }
  }

  /** The number of lines whose cleaned text is non-empty. */
  function ItemLineCount(lines: seq<string>): nat {
    if lines == [] then 0
    else ItemLineCount(lines[..|lines| - 1]) + (if Cleaned(lines[|lines| - 1]) != [] then 1 else 0)
  }

  /** One row per line with a non-empty cleaned text, each of at least two
      cells. */
  lemma {:induction false} ListRowsCount(lines: seq<string>)
    ensures |ListRows(lines)| == ItemLineCount(lines)
    ensures forall k :: 0 <= k < |ListRows(lines)| ==> |ListRows(lines)[k]| >= 2
    decreases |lines|
  {
    if lines != [] {
      var init := lines[..|lines| - 1];
      var last := lines[|lines| - 1];
      ListRowsCount(init);
      ListRowShape(last);
      var rows := ListRows(init);
      assert ItemLineCount(lines) == ItemLineCount(init) + (if Cleaned(last) != [] then 1 else 0);
      match ListRow(last)
      case None =>
        assert ListRows(lines) == rows;
      case Some(row) =>
        assert ListRows(lines) == rows + [row];
        forall k | 0 <= k < |rows| + 1 ensures |(rows + [row])[k]| >= 2 {
          if k < |rows| {
            assert (rows + [row])[k] == rows[k];
          }
        }
    }
  }

  /** `parseTable`: the Markdown parser exactly when the text has a pipe,
      the list parser over the non-blank lines otherwise. */
  method ParseTable(text: string) returns (table: Option<Table>)
    ensures Includes(text, "|") ==> table == ParseMarkdownTable(text)
    ensures !Includes(text, "|") && ListRows(Filter(Split(text, '\n'), NotBlank)) == [] ==> table == None
    ensures !Includes(text, "|") && ListRows(Filter(Split(text, '\n'), NotBlank)) != [] ==>
      table == Some(Table(ListHeaders, ListRows(Filter(Split(text, '\n'), NotBlank))))
  {
    var lines := Filter(Split(text, '\n'), NotBlank);
    if Includes(text, "|") {
      return ParseMarkdownTable(text);
    }
    table := ParseListToTable(lines);
  }

  // ---------------------------------------------------------------------
  // Times and amounts

  /** `H:MM` or `HH:MM` at `i`, with `d` hour digits. */
  predicate ClockAt(s: string, i: nat, d: nat) {
    i + d + 3 <= |s|
      && (forall k :: i <= k < i + d ==> IsDigit(s[k]))
      && s[i + d] == ':' && IsDigit(s[i + d + 1]) && IsDigit(s[i + d + 2])
  }

  /** The optional tail `\s*(?:AM|PM|am|pm)?` from `p`: every following
      space, then the marker when present. */
  function ClockTailEnd(s: string, p: nat): (e: nat)
    requires p <= |s|
    ensures p <= e <= |s|
  {
    var k := SpaceRunEnd(s, p);
    if k + 2 <= |s| && s[k..k + 2] in ["AM", "PM", "am", "pm"] then k + 2 else k
  }

  /** End of a `/\d{1,2}:\d{2}\s*(?:AM|PM|am|pm)?/` match at `i`, or -1; two
      hour digits are tried before one. */
  function TimeMatchAt(s: string, i: nat): (e: int)
    requires i <= |s|
    ensures e == -1 || i + 4 <= e <= |s|
  {
    if ClockAt(s, i, 2) then ClockTailEnd(s, i + 5)
    else if ClockAt(s, i, 1) then ClockTailEnd(s, i + 4)
    else -1
  }

  /** The leftmost position at or after `from` where a time matches. */
  function FirstTimeFrom(s: string, from: nat): (i: int)
    requires from <= |s|
    ensures i == -1 || (from <= i <= |s| && TimeMatchAt(s, i) >= 0)
    decreases |s| - from
  {
    if TimeMatchAt(s, from) >= 0 then from
    else if from == |s| then -1
    else FirstTimeFrom(s, from + 1)
  }

  /** No time matches between `from` and the position found, nor anywhere
      after `from` when none is found. */
  lemma {:induction false} FirstTimeIsLeftmost(s: string, from: nat)
    requires from <= |s|
    ensures var i := FirstTimeFrom(s, from);
      forall k :: from <= k <= |s| && (i < 0 || k < i) ==> TimeMatchAt(s, k) < 0
    decreases |s| - from
  {
    if TimeMatchAt(s, from) < 0 && from < |s| {
      FirstTimeIsLeftmost(s, from + 1);
    }
  }

  /** `extractTime`: the first match, or `''`. */
  function ExtractTime(text: string): string {
    var i := FirstTimeFrom(text, 0);
    if i < 0 then "" else text[i..TimeMatchAt(text, i)]
  }

  /** A found time starts with an hour digit and has the colon at its
      second or third character, followed by two minute digits; no match
      starts earlier. An empty result means no position matches. */
  lemma ExtractTimeShape(text: string)
    ensures var t := ExtractTime(text);
      && (t == "" <==> forall k :: 0 <= k <= |text| ==> TimeMatchAt(text, k) < 0)
      && (t != "" ==>
            && |t| >= 4 && IsDigit(t[0])
            && (t[1] == ':' || t[2] == ':')
            && var c := if t[1] == ':' then 1 else 2; IsDigit(t[c + 1]) && IsDigit(t[c + 2]))
  {
    var i := FirstTimeFrom(text, 0);
    FirstTimeIsLeftmost(text, 0);
    if i >= 0 {
      var t := ExtractTime(text);
      if ClockAt(text, i, 2) {
        assert t[0] == text[i] && t[1] == text[i + 1] && t[2] == text[i + 2];
        assert t[3] == text[i + 3] && t[4] == text[i + 4];
        assert IsDigit(text[i + 1]);
      } else {
        assert t[0] == text[i] && t[1] == text[i + 1] && t[2] == text[i + 2] && t[3] == text[i + 3];
      }
    }
  }

  /** `word` (written in lower case) at `i`, ignoring ASCII letter case
      (the `i` flag): letter by letter, the lower-cased text is the word. */
  predicate WordAtIgnoringCase(s: string, i: nat, word: string)
    decreases |word|
  {
    i + |word| <= |s| && (word == [] || (LowerChar(s[i]) == word[0] && WordAtIgnoringCase(s, i + 1, word[1..])))
  }

  /** The letter-by-letter test is `toLowerCase` of the slice compared with
      the word. */
  lemma {:induction false} WordAtIsLowerSlice(s: string, i: nat, word: string)
    ensures WordAtIgnoringCase(s, i, word) <==> i + |word| <= |s| && ToLower(s[i..i + |word|]) == word
    decreases |word|
  {
    if i + |word| <= |s| && word != [] {
      WordAtIsLowerSlice(s, i + 1, word[1..]);
      var l := ToLower(s[i..i + |word|]);
      assert l == [LowerChar(s[i])] + ToLower(s[i + 1..i + 1 + |word[1..]|]);
    }
  }

  /** End of a `/\d+g?\s*<unit>/i` match at `i` (the `g?` only when
      `gram`), or -1. */
  function AmountMatchAt(s: string, i: nat, unit: string, gram: bool): (e: int)
    requires i <= |s|
    ensures e == -1 || i < e <= |s|
  {
    if i == |s| || !IsDigit(s[i]) then -1
    else
      var j := DigitRunEnd(s, i);
      var g := if gram && j < |s| && LowerChar(s[j]) == 'g' then j + 1 else j;
      var k := SpaceRunEnd(s, g);
      if WordAtIgnoringCase(s, k, unit) then k + |unit| else -1
  }

  function FirstAmountFrom(s: string, unit: string, gram: bool, from: nat): (i: int)
    requires from <= |s|
    ensures i == -1 || (from <= i < |s| && AmountMatchAt(s, i, unit, gram) >= 0)
    decreases |s| - from
  {
    if AmountMatchAt(s, from, unit, gram) >= 0 then from
    else if from == |s| then -1
    else FirstAmountFrom(s, unit, gram, from + 1)
  }

  /** No amount matches at any `k` from `from` up to the position found,
      nor anywhere after `from` when none is found. */
  lemma {:induction false} FirstAmountIsLeftmost(s: string, unit: string, gram: bool, from: nat, k: nat)
    requires from <= k <= |s|
    requires var i := FirstAmountFrom(s, unit, gram, from); i < 0 || k < i
    ensures AmountMatchAt(s, k, unit, gram) < 0
    decreases k - from
  {
    var i := FirstAmountFrom(s, unit, gram, from);
    assert i != from;
    if k > from {
      assert i == FirstAmountFrom(s, unit, gram, from + 1);
      FirstAmountIsLeftmost(s, unit, gram, from + 1, k);
    }
  }

  /** The digits captured by the first match, if any. */
  function AmountDigits(s: string, unit: string, gram: bool): (r: Option<string>)
    ensures r.Some? ==> r.value != [] && forall k :: 0 <= k < |r.value| ==> IsDigit(r.value[k])
  {
    var i := FirstAmountFrom(s, unit, gram, 0);
    if i < 0 then None
    else
      DigitRun(s, i);
      Some(s[i..DigitRunEnd(s, i)])
  }

  /** `s.replace(/\d+g?\s*<unit>/gi, '')` from position `i`. */
  function RemoveAmountsFrom(s: string, unit: string, gram: bool, i: nat): (r: string)
    requires i <= |s|
    ensures |r| <= |s| - i
    decreases |s| - i
  {
    if i == |s| then []
    else
      var e := AmountMatchAt(s, i, unit, gram);
      if e >= 0 then RemoveAmountsFrom(s, unit, gram, e)
      else [s[i]] + RemoveAmountsFrom(s, unit, gram, i + 1)
  }

  function RemoveAmounts(s: string, unit: string, gram: bool): string {
    RemoveAmountsFrom(s, unit, gram, 0)
  }

  /** `.replace(/[(),]/g, '')`. */
  function RemoveParensAndCommas(s: string): (r: string)
    ensures |r| <= |s|
    ensures forall k :: 0 <= k < |r| ==> r[k] != '(' && r[k] != ')' && r[k] != ',' && r[k] in s
  {
    if s == [] then []
    else (if s[0] == '(' || s[0] == ')' || s[0] == ',' then [] else [s[0]]) + RemoveParensAndCommas(s[1..])
  }

  datatype DietItem = DietItem(name: string, calories: Option<string>, protein: Option<string>,
                               carbs: Option<string>)

  /** The item's name: every amount removed, then parentheses and commas,
      then surrounding white space. */
  function ItemName(text: string): (name: string)
    ensures '(' !in name && ')' !in name && ',' !in name
    ensures name == [] || (!IsSpace(name[0]) && !IsSpace(name[|name| - 1]))
  {
    var stripped := RemoveParensAndCommas(
      RemoveAmounts(RemoveAmounts(RemoveAmounts(text, "cal", false), "protein", true), "carb", true));
    TrimChars(stripped);
    Trim(stripped)
  }

  /** A captured amount with the `g` the parser appends. */
  function Grams(digits: Option<string>): (r: Option<string>)
    requires digits.Some? ==> digits.value != [] && IsDigit(digits.value[0])
    ensures r.Some? <==> digits.Some?
    ensures r.Some? ==> |r.value| >= 2 && r.value[|r.value| - 1] == 'g' && IsDigit(r.value[0])
  {
    if digits.Some? then Some(digits.value + "g") else None
  }

  /** `parseDietItem`: calories as digits, protein and carbs as digits with
      a `g`, and the name left after removing them. */
  function ParseDietItem(text: string): (item: DietItem)
    ensures item.name == ItemName(text)
    ensures item.calories.Some? ==> item.calories.value != [] && forall k :: 0 <= k < |item.calories.value| ==> IsDigit(item.calories.value[k])
  {
    DietItem(ItemName(text),
             AmountDigits(text, "cal", false),
             Grams(AmountDigits(text, "protein", true)),
             Grams(AmountDigits(text, "carb", true)))
  }

  /** A scan that meets no digit leaves the text as it is. */
  lemma {:induction false} RemoveAmountsNoDigits(s: string, unit: string, gram: bool, i: nat)
    requires i <= |s|
    requires forall k :: 0 <= k < |s| ==> !IsDigit(s[k])
    ensures RemoveAmountsFrom(s, unit, gram, i) == s[i..]
    decreases |s| - i
  {
    if i < |s| {
      RemoveAmountsNoDigits(s, unit, gram, i + 1);
      assert s[i..] == [s[i]] + s[i + 1..];
    }
  }

  /** No digit, no amount. */
  lemma NoDigitsNoMatch(s: string, unit: string, gram: bool)
    requires forall k :: 0 <= k < |s| ==> !IsDigit(s[k])
    ensures AmountDigits(s, unit, gram) == None
  {
  }

  /** Without digits nothing is removed but parentheses and commas. */
  lemma NoDigitsName(text: string)
    requires forall k :: 0 <= k < |text| ==> !IsDigit(text[k])
    ensures ItemName(text) == Trim(RemoveParensAndCommas(text))
  {
    assert text[0..] == text;
    RemoveAmountsNoDigits(text, "cal", false, 0);
    RemoveAmountsNoDigits(text, "protein", true, 0);
    RemoveAmountsNoDigits(text, "carb", true, 0);
  }

  /** A line without digits has no amounts, and its name is the line
      without parentheses and commas, trimmed. */
  lemma NoDigitsNoAmounts(text: string)
    requires forall k :: 0 <= k < |text| ==> !IsDigit(text[k])
    ensures var item := ParseDietItem(text);
      item.calories.None? && item.protein.None? && item.carbs.None?
        && item.name == Trim(RemoveParensAndCommas(text))
  {
    NoDigitsNoMatch(text, "cal", false);
    NoDigitsNoMatch(text, "protein", true);
    NoDigitsNoMatch(text, "carb", true);
    NoDigitsName(text);
  }

  // ---------------------------------------------------------------------
  // Diet plans

  /** The meal keywords in their declared order, with display name and icon. */
  const MealKeywords: seq<string> := ["breakfast", "lunch", "dinner", "snack"]
  const MealNames: seq<string> := ["Breakfast", "Lunch", "Dinner", "Snack"]
  const MealIcons: seq<string> := [['\U{1F305}'], ['\U{2600}', '\U{FE0F}'], ['\U{1F319}'], ['\U{1F34E}']]

  datatype Meal = Meal(name: string, icon: string, time: string, items: seq<DietItem>)

  /** The first keyword, in declared order, the lower-cased line contains. */
  function FirstKeyword(lower: string): (r: Option<nat>)
    ensures r.Some? ==> r.value < 4
  {
    if Includes(lower, "breakfast") then Some(0)
    else if Includes(lower, "lunch") then Some(1)
    else if Includes(lower, "dinner") then Some(2)
    else if Includes(lower, "snack") then Some(3)
    else None
  }

  /** The keyword found is contained in the line and no earlier keyword is;
      no keyword is found only when the line has none of them. */
  lemma FirstKeywordIsFirst(lower: string)
    ensures var r := FirstKeyword(lower);
      && (r.Some? ==> (&& r.value < 4 && Includes(lower, MealKeywords[r.value])
                       && forall j :: 0 <= j < r.value ==> !Includes(lower, MealKeywords[j])))
      && (r.None? ==> forall j :: 0 <= j < 4 ==> !Includes(lower, MealKeywords[j]))
  {
  }

  function LowerTrim(line: string): string {
    Trim(ToLower(line))
  }

  predicate IsMealHeader(line: string) {
    FirstKeyword(LowerTrim(line)).Some?
  }

  datatype DietState = DietState(meals: seq<Meal>, current: Option<Meal>)

  /** The meal a header line with keyword `i` opens. */
  function OpenMeal(i: nat, line: string): Meal
    requires i < 4
  {
    Meal(MealNames[i], MealIcons[i], ExtractTime(line), [])
  }

  /** One line of `parseDiet`: a header closes the open meal and opens the
      next; any other non-blank line becomes an item of the open meal. */
  function DietStep(st: DietState, line: string): DietState {
    var kw := FirstKeyword(LowerTrim(line));
    if kw.Some? then
      DietState(Close(st), Some(OpenMeal(kw.value, line)))
    else if st.current.Some? && Trim(line) != [] && Cleaned(line) != [] then
      var m := st.current.value;
      st.(current := Some(m.(items := m.items + [ParseDietItem(Cleaned(line))])))
    else st
  }

  function DietFold(lines: seq<string>): DietState {
    if lines == [] then DietState([], None) else DietStep(DietFold(lines[..|lines| - 1]), lines[|lines| - 1])
  }

  function Close(st: DietState): seq<Meal> {
    st.meals + (if st.current.Some? then [st.current.value] else [])
  }

  function DietResult(lines: seq<string>): Option<seq<Meal>> {
    var meals := Close(DietFold(lines));
    if meals == [] then None else Some(meals)
  }

  lemma DietFoldNext(lines: seq<string>, k: nat)
    requires k < |lines|
    ensures DietFold(lines[..k + 1]) == DietStep(DietFold(lines[..k]), lines[k])
  {
    assert lines[..k + 1][..k] == lines[..k];
  }

  /** The body of the `parseDiet` loop for one line. */
  method ParseDietLine(meals: seq<Meal>, current: Option<Meal>, line: string)
    returns (meals': seq<Meal>, current': Option<Meal>)
    ensures DietState(meals', current') == DietStep(DietState(meals, current), line)
  {
    meals', current' := meals, current;
    ghost var st := DietState(meals, current);
    var kw := FirstKeyword(LowerTrim(line));
    if kw.Some? {
      if current.Some? {
        meals' := meals + [current.value];
      }
      assert meals' == Close(st);
      current' := Some(OpenMeal(kw.value, line));
    } else if current.Some? && Trim(line) != [] {
      var cleaned := Cleaned(line);
      if cleaned != [] {
        current' := Some(current.value.(items := current.value.items + [ParseDietItem(cleaned)]));
      }
    }
  }

  /** `parseDiet`. */
  method ParseDiet(text: string) returns (result: Option<seq<Meal>>)
    ensures result == DietResult(Split(text, '\n'))
  {
    var lines := Split(text, '\n');
    var meals: seq<Meal> := [];
    var current: Option<Meal> := None;
    for k := 0 to |lines|
      invariant DietState(meals, current) == DietFold(lines[..k])
    {
      DietFoldNext(lines, k);
      meals, current := ParseDietLine(meals, current, lines[k]);
    }
    TakeAll(lines);
    ghost var st := DietState(meals, current);
    if current.Some? {
      meals := meals + [current.value];
    }
    assert meals == Close(st);
    result := if |meals| > 0 then Some(meals) else None;
  }

  /** The name of the meal each header line opens. */
  function HeaderNames(lines: seq<string>): seq<string> {
    if lines == [] then []
    else
      var kw := FirstKeyword(LowerTrim(lines[|lines| - 1]));
      HeaderNames(lines[..|lines| - 1]) + (if kw.Some? then [MealNames[kw.value]] else [])
  }

  function Names(meals: seq<Meal>): (r: seq<string>)
    ensures |r| == |meals| && forall k :: 0 <= k < |meals| ==> r[k] == meals[k].name
  {
    seq(|meals|, k requires 0 <= k < |meals| => meals[k].name)
  }

  lemma NamesAppend(a: seq<Meal>, m: Meal)
    ensures Names(a + [m]) == Names(a) + [m.name]
  {
    assert |Names(a + [m])| == |Names(a) + [m.name]|;
    forall k | 0 <= k <= |a| ensures Names(a + [m])[k] == (Names(a) + [m.name])[k] {
      if k < |a| {
        assert (a + [m])[k] == a[k];
      }
    }
  }

  /** A header line adds its meal's name and leaves a meal open. */
  lemma HeaderStepNames(st: DietState, line: string)
    requires FirstKeyword(LowerTrim(line)).Some?
    ensures Names(Close(DietStep(st, line))) == Names(Close(st)) + [MealNames[FirstKeyword(LowerTrim(line)).value]]
    ensures DietStep(st, line).current.Some?
  {
    var kw := FirstKeyword(LowerTrim(line));
    var m := OpenMeal(kw.value, line);
    var st2 := DietStep(st, line);
    assert st2 == DietState(Close(st), Some(m));
    assert Close(st2) == Close(st) + [m];
    NamesAppend(Close(st), m);
  }

  /** Any other line changes only the open meal's items. */
  lemma ItemStepNames(st: DietState, line: string)
    requires FirstKeyword(LowerTrim(line)).None?
    ensures Names(Close(DietStep(st, line))) == Names(Close(st))
    ensures DietStep(st, line).current.Some? == st.current.Some?
  {
    if st.current.Some? && Trim(line) != [] && Cleaned(line) != [] {
      AddItemNames(st, ParseDietItem(Cleaned(line)));
    }
  }

  lemma AddItemNames(st: DietState, item: DietItem)
    requires st.current.Some?
    ensures var m := st.current.value;
      Names(Close(st.(current := Some(m.(items := m.items + [item]))))) == Names(Close(st))
  {
    var m := st.current.value;
    var st2 := st.(current := Some(m.(items := m.items + [item])));
    assert Names(Close(st2)) == Names(st.meals) + [m.name];
  }

  /** There is one meal per header line, in text order, named after the
      header's first keyword; with no header there is no meal. */
  lemma {:induction false} DietMealsFollowHeaders(lines: seq<string>)
    ensures Names(Close(DietFold(lines))) == HeaderNames(lines)
    ensures DietFold(lines).current.None? <==> HeaderNames(lines) == []
    decreases |lines|
  {
    if lines != [] {
      var init := lines[..|lines| - 1];
      DietMealsFollowHeaders(init);
      if FirstKeyword(LowerTrim(lines[|lines| - 1])).Some? {
        HeaderStepNames(DietFold(init), lines[|lines| - 1]);
      } else {
        ItemStepNames(DietFold(init), lines[|lines| - 1]);
      }
    }
  }

  /** Text without a meal keyword on any line has no diet plan. */
  lemma NoHeaderNoDiet(lines: seq<string>)
    requires forall k :: 0 <= k < |lines| ==> !IsMealHeader(lines[k])
    ensures DietResult(lines) == None
  {
    DietMealsFollowHeaders(lines);
    NoHeaderNames(lines);
  }

  lemma {:induction false} NoHeaderNames(lines: seq<string>)
    requires forall k :: 0 <= k < |lines| ==> !IsMealHeader(lines[k])
    ensures HeaderNames(lines) == []
    decreases |lines|
  {
    if lines != [] {
      NoHeaderNames(lines[..|lines| - 1]);
    }
  }

  // ---------------------------------------------------------------------
  // Flowcharts

  function NoFlowchartWord(line: string): bool {
    !Includes(ToLower(line), "flowchart")
  }

  /** The steps: non-blank lines without the word "flowchart" in any case. */
  function FlowSteps(text: string): seq<string> {
    Filter(Filter(Split(text, '\n'), NotBlank), NoFlowchartWord)
  }

  /** The arrow drawn between two steps. */
  const DownArrow: char := '\U{2193}'

  datatype FlowPiece = Node(first: bool, last: bool, decision: bool, caption: string) | Arrow

  /** The node drawn for step `k`: tagged start when first, end when last
      and decision when its text has a question mark or, in any case, "if". */
  function FlowNode(steps: seq<string>, k: nat): FlowPiece
    requires k < |steps|
  {
    var cleaned := Cleaned(steps[k]);
    Node(k == 0, k == |steps| - 1, '?' in cleaned || Includes(ToLower(cleaned), "if"), cleaned)
  }

  /** One node per step, tagged start only at the first and end only at
      the last. */
  function FlowNodes(steps: seq<string>): (nodes: seq<FlowPiece>)
    ensures |nodes| == |steps|
    ensures forall k :: 0 <= k < |nodes| ==>
      nodes[k].Node? && (nodes[k].first <==> k == 0) && (nodes[k].last <==> k == |steps| - 1)
  {
    seq(|steps|, k requires 0 <= k < |steps| => FlowNode(steps, k))
  }

  /** The first `n` nodes, each followed by an arrow unless it is the last
      node of all. */
  function Arrowed(nodes: seq<FlowPiece>, n: nat): seq<FlowPiece>
    requires n <= |nodes|
  {
    if n == 0 then []
    else Arrowed(nodes, n - 1) + NodeThenArrow(nodes[n - 1], n < |nodes|)
  }

  function NodeClass(p: FlowPiece): string
    requires p.Node?
  {
    "flowchart-node" + (if p.first then " start" else "") + (if p.last then " end" else "")
      + (if p.decision then " decision" else "")
  }

  function PieceHtml(p: FlowPiece): string {
    match p
    case Node(_, _, _, caption) => "<div class=\"" + NodeClass(p) + "\"><span>" + caption + "</span></div>"
    case Arrow => "<div class=\"flowchart-arrow\">" + [DownArrow] + "</div>"
  }

  function PiecesHtml(ps: seq<FlowPiece>): string {
    if ps == [] then [] else PiecesHtml(ps[..|ps| - 1]) + PieceHtml(ps[|ps| - 1])
  }

  lemma {:induction false} PiecesHtmlAppend(a: seq<FlowPiece>, b: seq<FlowPiece>)
    ensures PiecesHtml(a + b) == PiecesHtml(a) + PiecesHtml(b)
    decreases |b|
  {
    if b != [] {
      var init := b[..|b| - 1];
      PiecesHtmlAppend(a, init);
      assert (a + b)[..|a + b| - 1] == a + init;
      assert (a + b)[|a + b| - 1] == b[|b| - 1];
      assert PiecesHtml(a + b) == PiecesHtml(a + init) + PieceHtml(b[|b| - 1]);
      assert PiecesHtml(b) == PiecesHtml(init) + PieceHtml(b[|b| - 1]);
      AppendAssoc(PiecesHtml(a), PiecesHtml(init), PieceHtml(b[|b| - 1]));
    } else {
      assert a + b == a;
    }
  }

  const FlowOpen: string := "<div class=\"flowchart-container\">"
  const FlowClose: string := "</div>"

  /** `renderFlowchart`: the container around the rendered nodes. */
  method RenderFlowchart(text: string) returns (html: string)
    ensures html == FlowOpen + PiecesHtml(Arrowed(FlowNodes(FlowSteps(text)), |FlowSteps(text)|)) + FlowClose
  {
    var nodes := FlowNodes(FlowSteps(text));
    var body := RenderPieces(nodes);
    html := FlowOpen + body + FlowClose;
  }

  /** The nodes' HTML joined with an arrow after all but the last. */
  method RenderPieces(nodes: seq<FlowPiece>) returns (html: string)
    ensures html == PiecesHtml(Arrowed(nodes, |nodes|))
  {
    html := "";
    for k := 0 to |nodes|
      invariant html == PiecesHtml(Arrowed(nodes, k))
    {
      RenderStep(nodes, k);
      html := html + PieceHtml(nodes[k]);
      if k < |nodes| - 1 {
        html := html + PieceHtml(Arrow);
      }
    }
  }

  /** One more node adds its HTML and, unless it is the last, an arrow's. */
  lemma RenderStep(nodes: seq<FlowPiece>, k: nat)
    requires k < |nodes|
    ensures k < |nodes| - 1 ==>
      PiecesHtml(Arrowed(nodes, k + 1)) == PiecesHtml(Arrowed(nodes, k)) + PieceHtml(nodes[k]) + PieceHtml(Arrow)
    ensures k == |nodes| - 1 ==>
      PiecesHtml(Arrowed(nodes, k + 1)) == PiecesHtml(Arrowed(nodes, k)) + PieceHtml(nodes[k])
  {
    var prev := Arrowed(nodes, k);
    var tail := NodeThenArrow(nodes[k], k < |nodes| - 1);
    PiecesHtmlAppend(prev, tail);
    assert [nodes[k]][..0] == [];
    assert PiecesHtml([nodes[k]]) == PieceHtml(nodes[k]);
    if k < |nodes| - 1 {
      assert tail[..1] == [nodes[k]] && tail[1] == Arrow;
      assert PiecesHtml(tail) == PieceHtml(nodes[k]) + PieceHtml(Arrow);
      AppendAssoc(PiecesHtml(prev), PieceHtml(nodes[k]), PieceHtml(Arrow));
    } else {
      assert tail == [nodes[k]];
    }
  }

  function NodeCount(ps: seq<FlowPiece>): nat {
    if ps == [] then 0 else NodeCount(ps[..|ps| - 1]) + (if ps[|ps| - 1].Node? then 1 else 0)
  }

  function ArrowCount(ps: seq<FlowPiece>): nat {
    if ps == [] then 0 else ArrowCount(ps[..|ps| - 1]) + (if ps[|ps| - 1].Arrow? then 1 else 0)
  }

  lemma {:induction false} CountsAppend(a: seq<FlowPiece>, b: seq<FlowPiece>)
    ensures NodeCount(a + b) == NodeCount(a) + NodeCount(b)
    ensures ArrowCount(a + b) == ArrowCount(a) + ArrowCount(b)
    decreases |b|
  {
    if b == [] {
      assert a + b == a;
    } else {
      CountsAppend(a, b[..|b| - 1]);
      assert (a + b)[..|a + b| - 1] == a + b[..|b| - 1];
    }
  }

  /** Interleaving nodes with arrows keeps every node, in order, and adds
      one arrow fewer than there are nodes. */
  lemma {:induction false} ArrowedShape(nodes: seq<FlowPiece>, n: nat)
    requires n <= |nodes|
    requires forall k :: 0 <= k < |nodes| ==> nodes[k].Node?
    ensures var ps := Arrowed(nodes, n);
      && NodeCount(ps) == n
      && ArrowCount(ps) == (if n == |nodes| && n > 0 then n - 1 else n)
      && (n > 0 ==> ps[0] == nodes[0])
      && (n == |nodes| && n > 0 ==> ps[|ps| - 1] == nodes[n - 1])
    decreases n
  {
    if n > 0 {
      ArrowedShape(nodes, n - 1);
      var prev := Arrowed(nodes, n - 1);
      var tail := NodeThenArrow(nodes[n - 1], n < |nodes|);
      var ps := prev + tail;
      assert Arrowed(nodes, n) == ps;
      CountsAppend(prev, tail);
      TailCounts(nodes[n - 1], n < |nodes|);
      if n == 1 {
        assert prev == [];
        assert ps == tail;
      } else {
        assert ps[0] == prev[0];
      }
      if n == |nodes| {
        assert tail == [nodes[n - 1]];
        assert ps[|ps| - 1] == nodes[n - 1];
      }
    }
  }

  function NodeThenArrow(p: FlowPiece, arrow: bool): seq<FlowPiece> {
    [p] + (if arrow then [Arrow] else [])
  }

  lemma TailCounts(p: FlowPiece, arrow: bool)
    requires p.Node?
    ensures NodeCount(NodeThenArrow(p, arrow)) == 1
    ensures ArrowCount(NodeThenArrow(p, arrow)) == if arrow then 1 else 0
  {
    var t := NodeThenArrow(p, arrow);
    assert [p][..0] == [];
    assert NodeCount([p]) == 1 && ArrowCount([p]) == 0;
    if arrow {
      assert t[..1] == [p] && t[1] == Arrow;
    } else {
      assert t == [p];
    }
  }

  /** A flowchart has one node per step and one arrow fewer; it opens with
      the start node and closes with the end node. */
  lemma FlowchartShape(steps: seq<string>)
    requires steps != []
    ensures var ps := Arrowed(FlowNodes(steps), |steps|);
      && NodeCount(ps) == |steps| && ArrowCount(ps) == |steps| - 1
      && ps[0].Node? && ps[0].first
      && ps[|ps| - 1].Node? && ps[|ps| - 1].last
  {
    ArrowedShape(FlowNodes(steps), |steps|);
  }

  // ---------------------------------------------------------------------
  // The per-conversation store

  /** A stored visualization; the payload is carried as it was given. */
  datatype SavedViz = SavedViz(id: string, timestamp: string, data: string)

  /** The engine object's `storage` and its saved copy. */
  class VizStore {
    var storage: map<string, seq<SavedViz>>
    var persisted: Option<map<string, seq<SavedViz>>>

    constructor ()
      ensures storage == map[] && persisted == None
    {
      storage := map[];
      persisted := None;
    }

    /** `saveToStorage`: appends one record to the conversation's list,
        creating the list when absent, then persists the whole store. */
    method SaveToStorage(conversationId: string, data: string, id: string, timestamp: string)
      modifies this
      ensures conversationId in storage
      ensures storage == old(storage)[conversationId :=
        (if conversationId in old(storage) then old(storage)[conversationId] else []) + [SavedViz(id, timestamp, data)]]
      ensures forall c :: c in old(storage) && c != conversationId ==> c in storage && storage[c] == old(storage)[c]
      ensures persisted == Some(storage)
    {
      if conversationId !in storage {
        storage := storage[conversationId := []];
      }
      storage := storage[conversationId := storage[conversationId] + [SavedViz(id, timestamp, data)]];
      persisted := Some(storage);
    }
  }
}

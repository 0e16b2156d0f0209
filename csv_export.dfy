/** CSV generation of the visualizer's export helper
    (`visualizer/export.js`): a table, or a diet plan with its fixed
    eight columns.  Row fields are quoted and their quotes doubled as in
    section 2 of RFC 4180; header fields are written as they are.  Both
    exporters build the text with an accumulator loop. */
module CsvExport {
  import opened Wrappers
  import opened JsString

  /** `"` doubled: `String(cell).replace(/"/g, '""')`. */
  function Escape(s: string): (r: string)
    ensures |r| >= |s|
  {
    if s == [] then [] else (if s[0] == '"' then "\"\"" else [s[0]]) + Escape(s[1..])
  }

  /** One field as a row writes it: `"` + escaped text + `"`. */
  function Quote(cell: string): string {
    "\"" + Escape(cell) + "\""
  }

  function QuotedCells(cells: seq<string>): (r: seq<string>)
    ensures |r| == |cells| && forall k :: 0 <= k < |cells| ==> r[k] == Quote(cells[k])
  {
    seq(|cells|, k requires 0 <= k < |cells| => Quote(cells[k]))
  }

  /** One row line: the quoted cells joined by commas, then a line break. */
  function RowLine(cells: seq<string>): string {
    Join(QuotedCells(cells), ",") + "\n"
  }

  // ---------------------------------------------------------------------
  // Reading a record back, after section 2 of RFC 4180

  /** The inside of a quoted field up to its closing quote: `""` stands for
      one `"`, a lone `"` ends the field.  Returns the text and what follows
      the closing quote. */
  function ReadQuotedBody(s: string): Option<(string, string)>
    decreases |s|
  {
    if s == [] then None
    else if s[0] == '"' then
      if |s| >= 2 && s[1] == '"' then
        match ReadQuotedBody(s[2..])
        case None => None
        case Some(p) => Some(("\"" + p.0, p.1))
      else Some(([], s[1..]))
    else
      match ReadQuotedBody(s[1..])
      case None => None
      case Some(p) => Some(([s[0]] + p.0, p.1))
  }

  lemma {:induction false} ReadQuotedBodyShrinks(s: string)
    requires ReadQuotedBody(s).Some?
    ensures |ReadQuotedBody(s).value.1| < |s|
    decreases |s|
  {
    if s[0] == '"' {
      if |s| >= 2 && s[1] == '"' {
        ReadQuotedBodyShrinks(s[2..]);
      }
    } else {
      ReadQuotedBodyShrinks(s[1..]);
    }
  }

  /** A record of one or more quoted fields separated by commas. */
  function ReadFields(s: string): Option<seq<string>>
    decreases |s|
  {
    if s == [] || s[0] != '"' then None
    else
      match ReadQuotedBody(s[1..])
      case None => None
      case Some(p) =>
        var field := p.0;
        var rest := p.1;
        if rest == [] then Some([field])
        else if rest[0] != ',' then None
        else
          ReadQuotedBodyShrinks(s[1..]);
          match ReadFields(rest[1..])
          case None => None
          case Some(more) => Some([field] + more)
  }

  /** A row line's text before its line break, read back into cells. */
  function ReadRecord(s: string): Option<seq<string>> {
    if s == [] then Some([]) else ReadFields(s)
  }

  /** An escaped field body followed by the closing quote reads back as the
      original text. */
  lemma {:induction false} EscapeReadsBack(cell: string, rest: string)
    requires rest == [] || rest[0] != '"'
    ensures ReadQuotedBody(Escape(cell) + "\"" + rest) == Some((cell, rest))
    decreases |cell|
  {
    var s := Escape(cell) + "\"" + rest;
    if cell == [] {
      assert s == "\"" + rest;
      assert s[1..] == rest;
      assert |s| < 2 || s[1] != '"';
    } else {
      EscapeReadsBack(cell[1..], rest);
      var tail := Escape(cell[1..]) + "\"" + rest;
      if cell[0] == '"' {
        assert s == "\"\"" + tail;
        assert s[2..] == tail;
        assert "\"" + cell[1..] == cell;
      } else {
        assert s == [cell[0]] + tail;
        assert s[1..] == tail;
        assert [cell[0]] + cell[1..] == cell;
      }
    }
  }

  /** Quoting is injective: every row line reads back as exactly its cells. */
  lemma {:induction false} RowReadsBack(cells: seq<string>)
    ensures ReadRecord(Join(QuotedCells(cells), ",")) == Some(cells)
    decreases |cells|
  {
    if cells != [] {
      var q := QuotedCells(cells);
      var s := Join(q, ",");
      if |cells| == 1 {
        assert s == "\"" + Escape(cells[0]) + "\"";
        assert s[1..] == Escape(cells[0]) + "\"" + [];
        EscapeReadsBack(cells[0], []);
        assert s[0] == '"';
        assert ReadFields(s) == Some([cells[0]]);
        assert [cells[0]] == cells;
      } else {
        var tail := Join(QuotedCells(cells[1..]), ",");
        assert QuotedCells(cells[1..]) == q[1..];
        assert s == "\"" + (Escape(cells[0]) + "\"" + ("," + tail));
        assert s[1..] == Escape(cells[0]) + "\"" + ("," + tail);
        EscapeReadsBack(cells[0], "," + tail);
        RowReadsBack(cells[1..]);
        assert ("," + tail)[1..] == tail;
        assert tail != [] && ReadFields(tail) == Some(cells[1..]);
        assert s[0] == '"';
        assert ReadFields(s) == Some([cells[0]] + cells[1..]);
        assert [cells[0]] + cells[1..] == cells;
      }
    }
  }

  // ---------------------------------------------------------------------
  // tableToCSV

  /** The row lines of the first rows, in order. */
  function RowLines(rows: seq<seq<string>>): string {
    if rows == [] then [] else RowLines(rows[..|rows| - 1]) + RowLine(rows[|rows| - 1])
  }

  function TableCsv(headers: seq<string>, rows: seq<seq<string>>): string {
    Join(headers, ",") + "\n" + RowLines(rows)
  }

  /** `tableToCSV`: the header line, then one line per row. */
  method TableToCsv(headers: seq<string>, rows: seq<seq<string>>) returns (csv: string)
    ensures csv == TableCsv(headers, rows)
  {
    csv := Join(headers, ",") + "\n";
    for k := 0 to |rows|
      invariant csv == Join(headers, ",") + "\n" + RowLines(rows[..k])
    {
      csv := csv + RowLine(rows[k]);
      assert rows[..k + 1][..k] == rows[..k];
    }
    TakeAll(rows);
  }

  predicate NoLineBreak(cells: seq<string>) {
    forall k :: 0 <= k < |cells| ==> '\n' !in cells[k]
  }

  lemma {:induction false} JoinLineBreaks(parts: seq<string>, sep: string)
    requires NoLineBreak(parts) && '\n' !in sep
    ensures '\n' !in Join(parts, sep)
    decreases |parts|
  {
    if |parts| > 1 {
      JoinLineBreaks(parts[1..], sep);
    }
  }

  lemma EscapeLineBreaks(s: string)
    requires '\n' !in s
    ensures '\n' !in Escape(s)
  {
    if s != [] {
      EscapeLineBreaks(s[1..]);
    }
  }

  lemma RowLineBreaks(cells: seq<string>)
    requires NoLineBreak(cells)
    ensures CountChar(RowLine(cells), '\n') == 1
  {
    var q := QuotedCells(cells);
    forall k | 0 <= k < |q| ensures '\n' !in q[k] {
      EscapeLineBreaks(cells[k]);
    }
    JoinLineBreaks(q, ",");
    NoCharCount(Join(q, ","), '\n');
    CountCharAppend(Join(q, ","), "\n", '\n');
  }

  /** With no line break inside a header or a cell, the output has exactly
      one line per row plus the header line. */
  lemma TableCsvLineCount(headers: seq<string>, rows: seq<seq<string>>)
    requires NoLineBreak(headers)
    requires forall r :: 0 <= r < |rows| ==> NoLineBreak(rows[r])
    ensures CountChar(TableCsv(headers, rows), '\n') == 1 + |rows|
  {
    var h := Join(headers, ",");
    JoinLineBreaks(headers, ",");
    NoCharCount(h, '\n');
    CountCharAppend(h, "\n", '\n');
    RowLinesCount(rows);
    CountCharAppend(h + "\n", RowLines(rows), '\n');
  }

  /** Each row line holds exactly one line break. */
  lemma {:induction false} RowLinesCount(rows: seq<seq<string>>)
    requires forall r :: 0 <= r < |rows| ==> NoLineBreak(rows[r])
    ensures CountChar(RowLines(rows), '\n') == |rows|
    decreases |rows|
  {
    if rows != [] {
      var init := rows[..|rows| - 1];
      var last := rows[|rows| - 1];
      RowLinesCount(init);
      RowLineBreaks(last);
      CountCharAppend(RowLines(init), RowLine(last), '\n');
    }
  }

  /** The output begins with the headers joined by commas, unquoted. */
  lemma TableCsvStartsWithHeaders(headers: seq<string>, rows: seq<seq<string>>)
    ensures StartsWith(TableCsv(headers, rows), Join(headers, ",") + "\n")
  {
  }

  // ---------------------------------------------------------------------
  // dietPlanToCSV

  /** A JSON value where the exporter reads it: missing (undefined, null or
      false), a string, or an integer. */
  datatype Value = Missing | Text(s: string) | Integer(n: int)

  predicate Falsy(v: Value) {
    v.Missing? || v == Text("") || v == Integer(0)
  }

  /** `String(v)` for a present value. */
  function Render(v: Value): string {
    match v
    case Missing => ""
    case Text(s) => s
    case Integer(n) => if n < 0 then "-" + NatToString(-n) else NatToString(n)
  }

  /** `v || fallback`, rendered. */
  function OrElse(v: Value, fallback: string): (r: string)
    ensures Falsy(v) ==> r == fallback
    ensures !Falsy(v) ==> r == Render(v)
  {
    if Falsy(v) then fallback else Render(v)
  }

  datatype Nutrients = Nutrients(protein: Value, carbs: Value, fat: Value, fiber: Value)

  datatype DietMeal = DietMeal(time: Value, name: Value, calories: Value, description: Value,
                               nutrients: Option<Nutrients>)

  const DietHeader: string := "Time,Meal,Calories,Description,Protein,Carbs,Fat,Fiber\n"

  /** The eight fields of one meal's line. */
  function MealFields(m: DietMeal): seq<string> {
    [OrElse(m.time, ""), OrElse(m.name, ""), OrElse(m.calories, "0"), OrElse(m.description, ""),
     if m.nutrients.Some? then OrElse(m.nutrients.value.protein, "") else "",
     if m.nutrients.Some? then OrElse(m.nutrients.value.carbs, "") else "",
     if m.nutrients.Some? then OrElse(m.nutrients.value.fat, "") else "",
     if m.nutrients.Some? then OrElse(m.nutrients.value.fiber, "") else ""]
  }

  function MealLines(meals: seq<DietMeal>): string {
    if meals == [] then [] else MealLines(meals[..|meals| - 1]) + RowLine(MealFields(meals[|meals| - 1]))
  }

  function DietCsv(meals: seq<DietMeal>): string {
    DietHeader + MealLines(meals)
  }

  /** `dietPlanToCSV`: the fixed header, then one line per meal. */
  method DietPlanToCsv(meals: seq<DietMeal>) returns (csv: string)
    ensures csv == DietCsv(meals)
  {
    csv := DietHeader;
    assert csv == DietCsv([]);
    for k := 0 to |meals|
      invariant csv == DietCsv(meals[..k])
    {
      DietCsvAppend(meals[..k], meals[k]);
      assert meals[..k + 1] == meals[..k] + [meals[k]];
      csv := csv + RowLine(MealFields(meals[k]));
    }
    TakeAll(meals);
  }

  /** Every meal line reads back as eight fields: time, name, calories
      (`"0"` when falsy), description and the four nutrients (empty when
      falsy or when there are no nutrients). */
  lemma MealLineReadsBack(m: DietMeal)
    ensures var fields := ReadRecord(Join(QuotedCells(MealFields(m)), ","));
      && fields == Some(MealFields(m))
      && |fields.value| == 8
      && (Falsy(m.calories) ==> fields.value[2] == "0")
      && (Falsy(m.time) ==> fields.value[0] == "")
      && (m.nutrients.None? ==> fields.value[4..] == ["", "", "", ""])
  {
    RowReadsBack(MealFields(m));
  }

  /** The diet output is the header and one line per meal, each line the
      next meal's line: adding a meal appends exactly its line. */
  lemma DietCsvAppend(meals: seq<DietMeal>, m: DietMeal)
    ensures DietCsv(meals + [m]) == DietCsv(meals) + RowLine(MealFields(m))
    ensures StartsWith(DietCsv(meals), DietHeader)
  {
    assert (meals + [m])[..|meals|] == meals;
  }
}

/** The output renderer of src/lib/output.ts: indented JSON for machines,
    a column-aligned table for a list, key/value lines for a single object.
    What one call prints is modelled as the sequence of strings it passes to
    console.log, one per call. */
module Output {
  import opened Wrappers
  import opened Js

  /** JSON.stringify(v) and JSON.stringify(v, null, 2), kept opaque. */
  datatype Stringifier = Stringifier(inline: Value -> string, indented: Value -> string)

  /** One column of a table: the row key it shows, its header, an optional
      fixed width and an optional per-cell transform. */
  datatype Column = Column(key: string, header: string, width: Option<nat>, transform: Option<Value -> string>)

  /** A computed column width never exceeds this. */
  const MaxWidth: nat := 50
  const NoResults := "No results."
  /** The separator rule character, U+2500. */
  const Rule: char := '\U{2500}'
  /** The truncation marker, U+2026. */
  const Ellipsis: char := '\U{2026}'
  /** Columns are joined by two spaces. */
  const Gap := "  "

  function Min(a: int, b: int): int { if a <= b then a else b }
  function Max(a: int, b: int): int { if a >= b then a else b }

  // ---------------------------------------------------------------------
  // Cells

  /** formatCell: a transform wins; otherwise null and undefined show as "-",
      arrays and objects as inline JSON, anything else as String(value). */
  function FormatCell(value: Value, transform: Option<Value -> string>, json: Stringifier): (r: string)
    ensures transform.Some? ==> r == transform.value(value)
    ensures transform.None? && (value.Null? || value.Undefined?) ==> r == "-"
    ensures transform.None? && (value.Arr? || value.Obj?) ==> r == json.inline(value)
    ensures transform.None? && value.Str? ==> r == value.s
    ensures transform.None? && value.Num? ==> r == IntToString(value.n)
    ensures transform.None? && !(value.Null? || value.Undefined? || value.Arr? || value.Obj?) ==> r == JsString(value)
  {
    match transform
    case Some(f) => f(value)
    case None =>
      match value
      case Undefined => "-"
      case Null => "-"
      case Arr(_) => json.inline(value)
      case Obj(_) => json.inline(value)
      case Bool(b) => if b then "true" else "false"
      case Num(n) => IntToString(n)
      case Str(s) => s
  }

  /** truncate: a string that fits is kept; a longer one is cut to max - 1
      characters and ends in the ellipsis. With max = 0, JavaScript's
      slice(0, -1) drops only the last character. */
  function Truncate(s: string, max: nat): (r: string)
    ensures |s| <= max ==> r == s
    ensures |s| > max && max >= 1 ==> |r| == max && r[..max - 1] == s[..max - 1] && r[max - 1] == Ellipsis
    ensures |s| > max && max == 0 ==> |r| == |s|
  {
    if |s| <= max then s
    else if max >= 1 then s[..max - 1] + [Ellipsis]
    else s[..|s| - 1] + [Ellipsis]
  }

  /** The text of the cell of column col in a row: the row's property named by the column key, formatted. */
  function CellText(row: Value, col: Column, json: Stringifier): string {
    FormatCell(Member(row, col.key), col.transform, json)
  }

  /** A data cell: truncated to the width, then padded to it. */
  function Cell(text: string, width: nat): (r: string)
    ensures width >= 1 || text == "" ==> |r| == width
    ensures |text| <= width ==> r[..|text|] == text
  {
    PadEnd(Truncate(text, width), width)
  }

  // ---------------------------------------------------------------------
  // Widths

  /** The widest cell of a column over a prefix of the rows, 0 for none. */
  function LongestCell(rows: seq<Value>, col: Column, json: Stringifier): (r: nat)
    ensures forall i :: 0 <= i < |rows| ==> |CellText(rows[i], col, json)| <= r
    ensures r == 0 || exists i :: 0 <= i < |rows| && |CellText(rows[i], col, json)| == r
  {
    if rows == [] then 0
    else
      var init := rows[..|rows| - 1];
      assert forall i :: 0 <= i < |init| ==> init[i] == rows[i];
      Max(LongestCell(init, col, json), |CellText(rows[|rows| - 1], col, json)|)
  }

  /** A fixed width that is truthy (non-zero) wins; otherwise the wider of
      header and longest cell, capped at MaxWidth. */
  function ColumnWidth(rows: seq<Value>, col: Column, json: Stringifier): nat {
    if col.width.Some? && col.width.value != 0 then col.width.value
    else Min(Max(|col.header|, LongestCell(rows, col, json)), MaxWidth)
  }

  predicate FixedWidth(col: Column) {
    col.width.Some? && col.width.value != 0
  }

  /** The width rules: a truthy fixed width is used as given; a computed width
      is at most MaxWidth and fits the header and every cell up to MaxWidth.
      Below the cap it is the header's or some cell's length; at the cap the
      header or some cell is at least that long. */
  lemma ColumnWidthRules(rows: seq<Value>, col: Column, json: Stringifier)
    ensures FixedWidth(col) ==> ColumnWidth(rows, col, json) == col.width.value
    ensures !FixedWidth(col) ==>
      var w := ColumnWidth(rows, col, json);
      && w <= MaxWidth
      && Min(|col.header|, MaxWidth) <= w
      && (forall i :: 0 <= i < |rows| ==> Min(|CellText(rows[i], col, json)|, MaxWidth) <= w)
      && (w < MaxWidth ==> w == |col.header| || exists i :: 0 <= i < |rows| && |CellText(rows[i], col, json)| == w)
      && (w == MaxWidth ==> |col.header| >= MaxWidth || exists i :: 0 <= i < |rows| && |CellText(rows[i], col, json)| >= MaxWidth)
  {
  }

  function Widths(rows: seq<Value>, columns: seq<Column>, json: Stringifier): (ws: seq<nat>)
    ensures |ws| == |columns|
    ensures forall i :: 0 <= i < |columns| ==> ws[i] == ColumnWidth(rows, columns[i], json)
  {
    seq(|columns|, i requires 0 <= i < |columns| => ColumnWidth(rows, columns[i], json))
  }

  // ---------------------------------------------------------------------
  // Lines

  function HeaderCells(columns: seq<Column>, widths: seq<nat>): (r: seq<string>)
    requires |widths| == |columns|
    ensures |r| == |columns|
  {
    seq(|columns|, i requires 0 <= i < |columns| => PadEnd(columns[i].header, widths[i]))
  }

  function RuleCells(widths: seq<nat>): (r: seq<string>)
    ensures |r| == |widths|
  {
    seq(|widths|, i requires 0 <= i < |widths| => Repeat(Rule, widths[i]))
  }

  function RowCells(row: Value, columns: seq<Column>, widths: seq<nat>, json: Stringifier): (r: seq<string>)
    requires |widths| == |columns|
    ensures |r| == |columns|
  {
    seq(|columns|, i requires 0 <= i < |columns| => Cell(CellText(row, columns[i], json), widths[i]))
  }

  function RowLine(row: Value, columns: seq<Column>, widths: seq<nat>, json: Stringifier): string
    requires |widths| == |columns|
  {
    Join(Gap, RowCells(row, columns, widths, json))
  }

  /** What printTable prints: "No results." alone for no rows, otherwise the
      header, the rule and one line per row. */
  function TableLines(rows: seq<Value>, columns: seq<Column>, json: Stringifier): seq<string> {
    if rows == [] then [NoResults]
    else
      var widths := Widths(rows, columns, json);
      [Join(Gap, HeaderCells(columns, widths)), Join(Gap, RuleCells(widths))]
      + seq(|rows|, k requires 0 <= k < |rows| => RowLine(rows[k], columns, widths, json))
  }

  /** printTable, one console.log per line, rows in order. */
  method PrintTable(rows: seq<Value>, columns: seq<Column>, json: Stringifier) returns (lines: seq<string>)
    ensures lines == TableLines(rows, columns, json)
  {
    if |rows| == 0 {
      return [NoResults];
    }
    var widths := Widths(rows, columns, json);
    lines := [Join(Gap, HeaderCells(columns, widths)), Join(Gap, RuleCells(widths))];
    var k := 0;
    while k < |rows|
      invariant 0 <= k <= |rows|
      invariant |lines| == k + 2
      invariant lines[0] == Join(Gap, HeaderCells(columns, widths))
      invariant lines[1] == Join(Gap, RuleCells(widths))
      invariant forall j :: 0 <= j < k ==> lines[j + 2] == RowLine(rows[j], columns, widths, json)
    {
      lines := lines + [RowLine(rows[k], columns, widths, json)];
      k := k + 1;
    }
  }

  /** An empty table is the one line "No results." and no header. */
  lemma EmptyTable(columns: seq<Column>, json: Stringifier)
    ensures TableLines([], columns, json) == [NoResults]
  {
  }

  /** Every data cell of every row is exactly as wide as its column: truncate
      then pad never leaves a cell short or long. */
  lemma CellsFillColumns(rows: seq<Value>, columns: seq<Column>, json: Stringifier, k: nat)
    requires k < |rows|
    ensures var widths := Widths(rows, columns, json);
      forall i :: 0 <= i < |columns| ==> |RowCells(rows[k], columns, widths, json)[i]| == widths[i]
  {
    var widths := Widths(rows, columns, json);
    forall i | 0 <= i < |columns|
      ensures |RowCells(rows[k], columns, widths, json)[i]| == widths[i]
    {
      var text := CellText(rows[k], columns[i], json);
      if widths[i] == 0 {
        assert !FixedWidth(columns[i]);
        assert |text| <= LongestCell(rows, columns[i], json);
      }
    }
  }

  /** A header cell is padded to the column but never truncated: it keeps the
      whole header, and a header wider than a fixed width overflows it. */
  lemma HeaderNeverTruncated(columns: seq<Column>, widths: seq<nat>, i: nat)
    requires |widths| == |columns| && i < |columns|
    ensures var c := HeaderCells(columns, widths)[i];
      && c[..|columns[i].header|] == columns[i].header
      && |c| == Max(|columns[i].header|, widths[i])
  {
  }

  /** Joined cells whose lengths are the widths are as long as the rule. */
  lemma {:induction false} JoinedWidths(cells: seq<string>, widths: seq<nat>)
    requires |cells| == |widths|
    requires forall i :: 0 <= i < |cells| ==> |cells[i]| == widths[i]
    ensures TotalLength(cells) == TotalLength(RuleCells(widths))
  {
    if cells != [] {
      assert RuleCells(widths)[1..] == RuleCells(widths[1..]);
      JoinedWidths(cells[1..], widths[1..]);
    }
  }

  /** A row whose cells fill their columns is exactly as long as the rule. */
  lemma RowLineLength(row: Value, columns: seq<Column>, widths: seq<nat>, json: Stringifier)
    requires |widths| == |columns| && columns != []
    requires forall i :: 0 <= i < |columns| ==> |RowCells(row, columns, widths, json)[i]| == widths[i]
    ensures |RowLine(row, columns, widths, json)| == |Join(Gap, RuleCells(widths))|
  {
    var cells := RowCells(row, columns, widths, json);
    JoinedWidths(cells, widths);
    JoinLength(Gap, cells);
    JoinLength(Gap, RuleCells(widths));
  }

  /** In a non-empty table every row line is exactly as long as the separator
      rule, so the columns line up. */
  lemma RowsAsWideAsRule(rows: seq<Value>, columns: seq<Column>, json: Stringifier, k: nat)
    requires k < |rows|
    ensures var lines := TableLines(rows, columns, json);
      |lines| == |rows| + 2 && |lines[k + 2]| == |lines[1]|
  {
    var widths := Widths(rows, columns, json);
    TableLineAt(rows, columns, json, k);
    if columns == [] {
      assert RowCells(rows[k], columns, widths, json) == [] && RuleCells(widths) == [];
    } else {
      CellsFillColumns(rows, columns, json, k);
      RowLineLength(rows[k], columns, widths, json);
    }
  }

  /** Line k + 2 of a non-empty table is row k; line 1 is the rule. */
  lemma TableLineAt(rows: seq<Value>, columns: seq<Column>, json: Stringifier, k: nat)
    requires k < |rows|
    ensures var widths := Widths(rows, columns, json); var lines := TableLines(rows, columns, json);
      && |lines| == |rows| + 2
      && lines[1] == Join(Gap, RuleCells(widths))
      && lines[k + 2] == RowLine(rows[k], columns, widths, json)
  {
  }

  // ---------------------------------------------------------------------
  // output()

  /** The value shown for a field of a single object: as formatCell without a
      transform. */
  function Display(value: Value, json: Stringifier): string {
    if value.Null? || value.Undefined? then "-"
    else if value.Arr? || value.Obj? then json.inline(value)
    else if value.Bool? then (if value.b then "true" else "false")
    else if value.Num? then IntToString(value.n)
    else value.s
  }

  /** The key/value layout and the table agree on how a value is shown. */
  lemma DisplayIsUntransformedCell(value: Value, json: Stringifier)
    ensures Display(value, json) == FormatCell(value, None, json)
  {
  }

  /** The length of the longest key; for no keys nothing is printed, so the
      value there is immaterial. */
  function LongestKey(fields: Fields): (r: nat)
    ensures forall i :: 0 <= i < |fields| ==> |fields[i].0| <= r
  {
    if fields == [] then 0 else Max(|fields[0].0|, LongestKey(fields[1..]))
  }

  /** The longest key's length is the length of some key. */
  lemma {:induction false} LongestKeyReached(fields: Fields)
    requires fields != []
    ensures exists i :: 0 <= i < |fields| && |fields[i].0| == LongestKey(fields)
  {
    if |fields| > 1 && LongestKey(fields[1..]) > |fields[0].0| {
      LongestKeyReached(fields[1..]);
      var i :| 0 <= i < |fields[1..]| && |fields[1..][i].0| == LongestKey(fields[1..]);
      assert fields[i + 1] == fields[1..][i];
    } else {
      assert |fields[0].0| == LongestKey(fields);
    }
  }

  function KeyValueLine(key: string, value: Value, keyWidth: nat, json: Stringifier): string {
    PadEnd(key, keyWidth) + Display(value, json)
  }

  /** The lines for the given entries, with the key column keyWidth wide,
      built up entry by entry as the loop in output() does. */
  function KeyValueLinesWith(fields: Fields, keyWidth: nat, json: Stringifier): (r: seq<string>)
    ensures |r| == |fields|
  {
    if fields == [] then []
    else
      var last := fields[|fields| - 1];
      KeyValueLinesWith(fields[..|fields| - 1], keyWidth, json) + [KeyValueLine(last.0, last.1, keyWidth, json)]
  }

  /** The key/value layout of a single object: one line per key, each key
      padded to the longest key's length plus two. */
  function KeyValueLines(fields: Fields, json: Stringifier): seq<string> {
    KeyValueLinesWith(fields, LongestKey(fields) + 2, json)
  }

  /** Line i of the layout is entry i's key and value. */
  lemma {:induction false} KeyValueLinesWithAt(fields: Fields, keyWidth: nat, json: Stringifier, i: nat)
    requires i < |fields|
    ensures KeyValueLinesWith(fields, keyWidth, json)[i] == KeyValueLine(fields[i].0, fields[i].1, keyWidth, json)
  {
    var init, last := fields[..|fields| - 1], fields[|fields| - 1];
    var prefix := KeyValueLinesWith(init, keyWidth, json);
    assert KeyValueLinesWith(fields, keyWidth, json) == prefix + [KeyValueLine(last.0, last.1, keyWidth, json)];
    if i < |init| {
      KeyValueLinesWithAt(init, keyWidth, json, i);
      assert init[i] == fields[i];
    }
  }

  /** The loop of output() over Object.entries of a single object. */
  method PrintRecord(record: Fields, json: Stringifier) returns (lines: seq<string>)
    ensures lines == KeyValueLines(record, json)
  {
    var maxKey := LongestKey(record);
    lines := [];
    var i := 0;
    while i < |record|
      invariant 0 <= i <= |record|
      invariant lines == KeyValueLinesWith(record[..i], maxKey + 2, json)
    {
      assert record[..i + 1][..i] == record[..i];
      lines := lines + [KeyValueLine(record[i].0, record[i].1, maxKey + 2, json)];
      i := i + 1;
    }
    assert record[..i] == record;
  }

  /** What output() prints for data, the --json flag and the optional columns. */
  function Rendered(data: Value, jsonMode: bool, columns: Option<seq<Column>>, json: Stringifier): seq<string> {
    if jsonMode then [json.indented(data)]
    else if columns.Some? && data.Arr? then TableLines(data.items, columns.value, json)
    else if data.Obj? then KeyValueLines(data.fields, json)
    else [json.indented(data)]
  }

  /** output(): JSON mode first, then a table for an array with columns, then
      key/value lines for a single object, and indented JSON for the rest. */
  method Render(data: Value, jsonMode: bool, columns: Option<seq<Column>>, json: Stringifier) returns (lines: seq<string>)
    ensures lines == Rendered(data, jsonMode, columns, json)
  {
    if jsonMode {
      lines := [json.indented(data)];
    } else if columns.Some? && data.Arr? {
      lines := PrintTable(data.items, columns.value, json);
    } else if data.Obj? {
      lines := PrintRecord(data.fields, json);
    } else {
      lines := [json.indented(data)];
    }
  }

  /** In JSON mode the output is the indented serialisation of data alone,
      whatever the columns are. */
  lemma JsonModeIgnoresColumns(data: Value, c1: Option<seq<Column>>, c2: Option<seq<Column>>, json: Stringifier)
    ensures Rendered(data, true, c1, json) == Rendered(data, true, c2, json) == [json.indented(data)]
  {
  }

  /** An array without columns falls through to indented JSON. */
  lemma ArrayWithoutColumns(items: seq<Value>, json: Stringifier)
    ensures Rendered(Arr(items), false, None, json) == [json.indented(Arr(items))]
  {
  }

  /** A single object without columns is laid out as key/value lines. */
  lemma SingleObjectLayout(fields: Fields, columns: Option<seq<Column>>, json: Stringifier)
    ensures Rendered(Obj(fields), false, columns, json) == KeyValueLines(fields, json)
  {
  }

  /** A key/value line is the padded key followed by the value. */
  lemma KeyValueLineParts(key: string, value: Value, keyWidth: nat, json: Stringifier)
    requires |key| <= keyWidth
    ensures KeyValueLine(key, value, keyWidth, json)[..keyWidth] == PadEnd(key, keyWidth)
    ensures KeyValueLine(key, value, keyWidth, json)[keyWidth..] == Display(value, json)
  {
  }

  /** A single object prints one line per key, in the object's order: line i
      is key i padded to two past the longest key, which it always fits, and
      then value i (where each part lies is KeyValueLineParts). */
  lemma KeyValueAligned(fields: Fields, json: Stringifier, i: nat)
    requires i < |fields|
    ensures |KeyValueLines(fields, json)| == |fields|
    ensures KeyValueLines(fields, json)[i] == KeyValueLine(fields[i].0, fields[i].1, LongestKey(fields) + 2, json)
    ensures |fields[i].0| <= LongestKey(fields) + 2
  {
    var w := LongestKey(fields) + 2;
    assert KeyValueLines(fields, json) == KeyValueLinesWith(fields, w, json);
    KeyValueLinesWithAt(fields, w, json, i);
    KeyFits(fields, i);
  }

  lemma KeyFits(fields: Fields, i: nat)
    requires i < |fields|
    ensures |fields[i].0| <= LongestKey(fields) + 2
  {
  }
}

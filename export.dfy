/**
 * The spreadsheet export: the filtered ticket query, the rule that sizes
 * every column to its longest cell, and the five sheets of the
 * comprehensive report, with the title merge of each sheet. Fonts, fills,
 * borders and the bytes of the file are not modelled; the rows the
 * queries return are inputs.
 */
module Export {
  import opened Wrappers
  import opened PyText
  import opened Sql
  import opened Rounding

  // ---------------------------------------------------------------------
  // ExcelExporter.get_tickets_data
  // ---------------------------------------------------------------------

  /** The select list and join of the export, up to the always-true `WHERE 1=1`. */
  const TicketsSelect: string :=
    "SELECT t.id, t.title, t.description, t.category, t.priority, t.status, t.created_at, t.updated_at, "
    + "u.username as assigned_agent, CASE WHEN t.status = 'Resolved' THEN "
    + "ROUND((julianday(t.updated_at) - julianday(t.created_at)) * 24, 2) ELSE NULL END as resolution_time_hours "
    + "FROM tickets t LEFT JOIN users u ON t.assigned_to = u.id WHERE 1=1"

  const NewestFirst: string := " ORDER BY t.created_at DESC"

  /** `if v: query += condition + "?"; params.append(v)`. */
  function FilterClause(condition: string, v: Option<string>): seq<Clause> {
    if Truthy(v) then [Clause([Lit(condition), Hole], [Text(v.value)])] else []
  }

  /** The filters of the export, in the order they are tested. */
  function ExportClauses(startDate: Option<string>, endDate: Option<string>, status: Option<string>, category: Option<string>): seq<Clause> {
    FilterClause(" AND DATE(t.created_at) >= ", startDate) +
    FilterClause(" AND DATE(t.created_at) <= ", endDate) +
    FilterClause(" AND t.status = ", status) +
    FilterClause(" AND t.category = ", category)
  }

  /** The select, every filter's condition in turn, newest first. */
  function ExportQuery(clauses: seq<Clause>): Fragment {
    [Lit(TicketsSelect)] + Concat(SqlOf(clauses)) + [Lit(NewestFirst)]
  }

  /** The value a filter binds: itself when truthy, nothing otherwise. */
  function Bound(v: Option<string>): seq<Value> {
    if Truthy(v) then [Text(v.value)] else []
  }

  /**
   * The values the export binds are exactly the truthy filters, start
   * date, end date, status and category in that order; none at all when
   * no filter is given.
   */
  lemma ExportParams(startDate: Option<string>, endDate: Option<string>, status: Option<string>, category: Option<string>)
    ensures ArgsOf(ExportClauses(startDate, endDate, status, category)) ==
      Bound(startDate) + Bound(endDate) + Bound(status) + Bound(category)
    ensures ArgsOf(ExportClauses(startDate, endDate, status, category)) == [] <==>
      !Truthy(startDate) && !Truthy(endDate) && !Truthy(status) && !Truthy(category)
  {
    var a, b := FilterClause(" AND DATE(t.created_at) >= ", startDate), FilterClause(" AND DATE(t.created_at) <= ", endDate);
    var c, d := FilterClause(" AND t.status = ", status), FilterClause(" AND t.category = ", category);
    ArgsOfAppend(a, b);
    ArgsOfAppend(a + b, c);
    ArgsOfAppend(a + b + c, d);
    FilterArgs(" AND DATE(t.created_at) >= ", startDate);
    FilterArgs(" AND DATE(t.created_at) <= ", endDate);
    FilterArgs(" AND t.status = ", status);
    FilterArgs(" AND t.category = ", category);
  }

  lemma FilterArgs(condition: string, v: Option<string>)
    ensures ArgsOf(FilterClause(condition, v)) == Bound(v)
  {
    if Truthy(v) {
      assert ArgsOf(FilterClause(condition, v)) == [Text(v.value)] + [];
    }
  }

  /** Each filter clause has one placeholder and one value, or neither. */
  lemma FilterAligned(condition: string, v: Option<string>)
    ensures forall c | c in FilterClause(condition, v) :: AlignedClause(c)
  {
    if Truthy(v) {
      var f: Fragment := [Lit(condition), Hole];
      assert f[1..] == [Hole];
      assert Holes(f) == 1;
    }
  }

  /** One filter step of `get_tickets_data`. */
  method AddFilter(query: Fragment, params: seq<Value>, condition: string, v: Option<string>)
    returns (query': Fragment, params': seq<Value>)
    ensures query' == query + Concat(SqlOf(FilterClause(condition, v)))
    ensures params' == params + ArgsOf(FilterClause(condition, v))
  {
    query', params' := query, params;
    if Truthy(v) {
      query' := query' + [Lit(condition), Hole];
      params' := params' + [Text(v.value)];
      assert Concat(SqlOf(FilterClause(condition, v))) == [Lit(condition), Hole] + [];
    }
  }

  /** After the clauses `next` are appended to those of `added`, those of `added + next` are there. */
  lemma ExtendQuery(query: Fragment, params: seq<Value>, added: seq<Clause>, next: seq<Clause>)
    ensures (query + Concat(SqlOf(added))) + Concat(SqlOf(next)) == query + Concat(SqlOf(added + next))
    ensures (params + ArgsOf(added)) + ArgsOf(next) == params + ArgsOf(added + next)
  {
    AppendClauses(added, next);
    ConcatAppend(SqlOf(added), SqlOf(next));
    Assoc(query, Concat(SqlOf(added)), Concat(SqlOf(next)));
    Assoc(params, ArgsOf(added), ArgsOf(next));
  }

  /**
   * `get_tickets_data(start_date, end_date, status, category)`: one
   * condition and one value per truthy filter, in that order, and the
   * newest tickets first; as many placeholders as values.
   */
  method GetTicketsData(startDate: Option<string>, endDate: Option<string>, status: Option<string>, category: Option<string>)
    returns (query: Fragment, params: seq<Value>)
    ensures query == ExportQuery(ExportClauses(startDate, endDate, status, category))
    ensures params == ArgsOf(ExportClauses(startDate, endDate, status, category))
    ensures query[|query| - 1] == Lit(NewestFirst)
    ensures Holes(query) == |params|
  {
    var head: Fragment := [Lit(TicketsSelect)];
    query := head;
    params := [];
    ghost var added := FilterClause(" AND DATE(t.created_at) >= ", startDate);
    query, params := AddFilter(query, params, " AND DATE(t.created_at) >= ", startDate);
    assert params == [] + ArgsOf(added);
    ghost var next := FilterClause(" AND DATE(t.created_at) <= ", endDate);
    query, params := AddFilter(query, params, " AND DATE(t.created_at) <= ", endDate);
    ExtendQuery(head, [], added, next);
    added := added + next;
    next := FilterClause(" AND t.status = ", status);
    query, params := AddFilter(query, params, " AND t.status = ", status);
    ExtendQuery(head, [], added, next);
    added := added + next;
    next := FilterClause(" AND t.category = ", category);
    query, params := AddFilter(query, params, " AND t.category = ", category);
    ExtendQuery(head, [], added, next);
    added := added + next;
    query := query + [Lit(NewestFirst)];
    assert added == ExportClauses(startDate, endDate, status, category);
    FilterAligned(" AND DATE(t.created_at) >= ", startDate);
    FilterAligned(" AND DATE(t.created_at) <= ", endDate);
    FilterAligned(" AND t.status = ", status);
    FilterAligned(" AND t.category = ", category);
    AlignedClauses(added);
    HolesConcat(SqlOf(added));
    HolesAppend(head, Concat(SqlOf(added)));
    HolesAppend(head + Concat(SqlOf(added)), [Lit(NewestFirst)]);
  }

  /**
   * The `resolution_time_hours` column: the hours from creation to the
   * last update, to two places, for status `Resolved` only (capitalised:
   * a ticket the ticket pages mark `resolved` gets none). Dates are
   * fractional Julian days.
   */
  function ResolutionTimeHours(status: string, createdDay: real, updatedDay: real): (r: Option<real>)
    ensures r.Some? <==> status == "Resolved"
    ensures r.Some? ==> -0.005 < r.value - (updatedDay - createdDay) * 24.0 <= 0.005
  {
    assert Scale(2) == 100.0;
    if status == "Resolved" then Some(Round((updatedDay - createdDay) * 24.0, 2)) else None
  }

  // ---------------------------------------------------------------------
  // Worksheets and the column-width rule of style_worksheet
  // ---------------------------------------------------------------------

  /** A cell value: text, a whole number, a decimal, or nothing. */
  datatype Cell = TextCell(s: string) | IntCell(i: int) | NumberCell(x: real) | EmptyCell

  function Min(a: int, b: int): int {
    if a <= b then a else b
  }

  /** The length of the longest text, 0 for none: what the `max_length` loop ends with. */
  function MaxLen(texts: seq<string>): (m: nat)
    ensures forall i | 0 <= i < |texts| :: |texts[i]| <= m
    ensures m == 0 || exists i | 0 <= i < |texts| :: |texts[i]| == m
  {
    if texts == [] then 0
    else
      var m := MaxLen(texts[..|texts| - 1]);
      if |texts[|texts| - 1]| > m then |texts[|texts| - 1]| else m
  }

  /** Widths sized to their columns: the longest text plus 2, capped at 50. */
  ghost predicate FitsColumns(widths: seq<nat>, columns: seq<seq<string>>) {
    |widths| == |columns| &&
    forall c | 0 <= c < |columns| :: widths[c] == Min(MaxLen(columns[c]) + 2, 50)
  }

  /**
   * The width loop of `style_worksheet`: for each column, the longest
   * `str(cell.value)` plus 2, at most 50. Every width lies in [2, 50] and
   * leaves every cell two characters of room unless it is capped.
   */
  method ColumnWidths(columns: seq<seq<string>>) returns (widths: seq<nat>)
    ensures FitsColumns(widths, columns)
    ensures forall c | 0 <= c < |widths| :: 2 <= widths[c] <= 50
    ensures forall c, i | 0 <= c < |widths| && 0 <= i < |columns[c]| ::
      widths[c] == 50 || |columns[c][i]| + 2 <= widths[c]
  {
    widths := [];
    var k := 0;
    while k < |columns|
      invariant 0 <= k <= |columns|
      invariant FitsColumns(widths, columns[..k])
    {
      var column := columns[k];
      var maxLength := 0;
      var j := 0;
      while j < |column|
        invariant 0 <= j <= |column|
        invariant maxLength == MaxLen(column[..j])
      {
        assert column[..j + 1][..j] == column[..j];
        if |column[j]| > maxLength {
          maxLength := |column[j]|;
        }
        j := j + 1;
      }
      assert column[..j] == column;
      widths := widths + [Min(maxLength + 2, 50)];
      assert columns[..k + 1][..k] == columns[..k];
      k := k + 1;
    }
    assert columns[..k] == columns;
    forall c, i | 0 <= c < |widths| && 0 <= i < |columns[c]|
      ensures widths[c] == 50 || |columns[c][i]| + 2 <= widths[c]
    {
      assert |columns[c][i]| <= MaxLen(columns[c]);
    }
  }

  /** The number of columns of a sheet: its longest row. */
  function ColumnCount(rows: seq<seq<Cell>>): (n: nat)
    ensures forall r | 0 <= r < |rows| :: |rows[r]| <= n
  {
    if rows == [] then 0
    else
      var n := ColumnCount(rows[..|rows| - 1]);
      if |rows[|rows| - 1]| > n then |rows[|rows| - 1]| else n
  }

  /** `ws.columns` as texts: column by column, a missing cell read as an empty one; `str` is Python's `str`. */
  function Columns(rows: seq<seq<Cell>>, str: Cell -> string): (cols: seq<seq<string>>)
    ensures |cols| == ColumnCount(rows)
    ensures forall c | 0 <= c < |cols| :: |cols[c]| == |rows|
  {
    seq(ColumnCount(rows), c requires 0 <= c < ColumnCount(rows) =>
      seq(|rows|, r requires 0 <= r < |rows| => if c < |rows[r]| then str(rows[r][c]) else str(EmptyCell)))
  }

  // ---------------------------------------------------------------------
  // The title merge of style_worksheet and openpyxl's range check
  // ---------------------------------------------------------------------

  /** The largest column `get_column_letter` accepts, `ZZZ` (an `.xlsx` sheet itself stops at `XFD`, 16384). */
  const MaxColumns: nat := 18278

  /** `str(n)` of a non-negative integer: its decimal digits. */
  function DecimalString(n: nat): (r: string)
    ensures r != [] && '0' <= r[0] <= '9'
    decreases n
  {
    (if n < 10 then [] else DecimalString(n / 10)) + [('0' as int + n % 10) as char]
  }

  /** `get_column_letter(n)`: bijective base 26, so 1 is A, 26 is Z and 27 is AA. */
  function ColumnLetter(n: nat): (r: string)
    requires n >= 1
    ensures r != [] && forall i | 0 <= i < |r| :: IsAsciiLetter(r[i])
    ensures n <= 26 ==> |r| == 1
    ensures n <= 702 ==> |r| <= 2
    ensures n <= MaxColumns ==> |r| <= 3
    decreases n
  {
    var q := (n - 1) / 26;
    (if q == 0 then [] else ColumnLetter(q)) + [('A' as int + (n - 1) % 26) as char]
  }

  /** `column_index_from_string(s)` for upper-case letters: the inverse of `ColumnLetter`. */
  function ColumnIndex(s: string): nat {
    if s == [] then 0
    else
      var c := s[|s| - 1] as int - 'A' as int + 1;
      ColumnIndex(s[..|s| - 1]) * 26 + (if c < 0 then 0 else c)
  }

  /** Reading a column's letters back gives the column. */
  lemma {:induction false} ColumnLetterRoundTrip(n: nat)
    requires n >= 1
    ensures ColumnIndex(ColumnLetter(n)) == n
    decreases n
  {
    var q := (n - 1) / 26;
    var s := ColumnLetter(n);
    var prefix := if q == 0 then [] else ColumnLetter(q);
    assert s[..|s| - 1] == prefix;
    if q > 0 {
      ColumnLetterRoundTrip(q);
    }
  }

  predicate IsAsciiLetter(c: char) {
    'A' <= c <= 'Z' || 'a' <= c <= 'z'
  }

  predicate AllDigits(s: string) {
    forall i | 0 <= i < |s| :: '0' <= s[i] <= '9'
  }

  /** The length of the leading run of ASCII letters. */
  function LetterCount(s: string): (n: nat)
    ensures n <= |s|
    ensures forall i | 0 <= i < n :: IsAsciiLetter(s[i])
    ensures n < |s| ==> !IsAsciiLetter(s[n])
  {
    if s == [] || !IsAsciiLetter(s[0]) then 0 else 1 + LetterCount(s[1..])
  }

  /** Letters followed by anything that does not start with a letter: the letters are the leading run. */
  lemma {:induction false} LetterCountOfLetters(letters: string, rest: string)
    requires forall i | 0 <= i < |letters| :: IsAsciiLetter(letters[i])
    requires rest == [] || !IsAsciiLetter(rest[0])
    ensures LetterCount(letters + rest) == |letters|
    decreases |letters|
  {
    if letters != [] {
      assert (letters + rest)[1..] == letters[1..] + rest;
      LetterCountOfLetters(letters[1..], rest);
    }
  }

  /** The value of a run of decimal digits. */
  function DigitsValue(s: string): nat {
    if s == [] then 0
    else
      var d := s[|s| - 1] as int - '0' as int;
      DigitsValue(s[..|s| - 1]) * 10 + (if d < 0 then 0 else d)
  }

  /** One side of a range as openpyxl's range pattern reads it: up to three column letters, then digits. */
  predicate SideMatches(side: string) {
    LetterCount(side) <= 3 && AllDigits(side[LetterCount(side)..])
  }

  /** The column of a side, when it names one. */
  function SideColumn(side: string): nat {
    ColumnIndex(side[..LetterCount(side)])
  }

  /** The row of a side, when it names one. */
  function SideRow(side: string): nat {
    DigitsValue(side[LetterCount(side)..])
  }

  /**
   * `ws.merge_cells(a + ':' + b)` does not raise: both sides match the
   * pattern; `range_boundaries` wants both to carry a column and a row, or
   * both only a column, or both only a row; and `CellRange` wants the
   * first column and row no later than the second. (`$` marks are not
   * modelled.)
   */
  predicate RangeAccepted(a: string, b: string)
    ensures RangeAccepted(a, b) ==> (LetterCount(a) > 0 <==> LetterCount(b) > 0)
  {
    var colA, colB := LetterCount(a) > 0, LetterCount(b) > 0;
    var rowA, rowB := LetterCount(a) < |a|, LetterCount(b) < |b|;
    && SideMatches(a) && SideMatches(b)
    && ((colA && colB && rowA && rowB) || (colA && colB && !rowA && !rowB) || (rowA && rowB && !colA && !colB))
    && (colA && colB ==> SideColumn(a) <= SideColumn(b))
    && (rowA && rowB ==> SideRow(a) <= SideRow(b))
  }

  /** `ws.max_column`: the longest row, and 1 for a sheet without cells. */
  function MaxColumn(rows: seq<seq<Cell>>): (n: nat)
    ensures n >= 1
  {
    if ColumnCount(rows) == 0 then 1 else ColumnCount(rows)
  }

  /** The two sides of `'A1:' + ws.max_column.__str__() + '1'`, as written: a column number where letters belong. */
  function MergeSidesAsWritten(maxColumn: nat): (string, string) {
    ("A1", DecimalString(maxColumn) + "1")
  }

  /** The two sides of the title merge as intended: `A1` to the last column of the first row. */
  function MergeSides(maxColumn: nat): (string, string)
    requires maxColumn >= 1
  {
    ("A1", ColumnLetter(maxColumn) + "1")
  }

  /** As written, the title merge is rejected whatever the width of the sheet: its right side has no column. */
  lemma TitleMergeRejected(maxColumn: nat)
    ensures !RangeAccepted(MergeSidesAsWritten(maxColumn).0, MergeSidesAsWritten(maxColumn).1)
  {
    var b := MergeSidesAsWritten(maxColumn).1;
    assert LetterCount(b) == 0 by {
      assert b[0] == DecimalString(maxColumn)[0];
    }
    assert LetterCount("A1") == 1 by {
      LetterCountOfLetters("A", "1");
      assert "A" + "1" == "A1";
    }
  }

  /** The intended title merge is accepted for every width openpyxl allows, spanning columns 1 to the last. */
  lemma TitleMergeAccepted(maxColumn: nat)
    requires 1 <= maxColumn <= MaxColumns
    ensures RangeAccepted(MergeSides(maxColumn).0, MergeSides(maxColumn).1)
    ensures SideColumn(MergeSides(maxColumn).0) == 1 && SideColumn(MergeSides(maxColumn).1) == maxColumn
  {
    var letters := ColumnLetter(maxColumn);
    var b := letters + "1";
    LetterCountOfLetters(letters, "1");
    LetterCountOfLetters("A", "1");
    assert "A" + "1" == "A1";
    assert b[..|letters|] == letters && b[|letters|..] == "1";
    assert "A1"[..1] == "A" && "A1"[1..] == "1";
    ColumnLetterRoundTrip(maxColumn);
    assert ColumnIndex("A") == 1 by {
      assert "A"[..0] == [];
    }
    assert DigitsValue("1") == 1 by {
      assert "1"[..0] == [];
    }
  }

  /** One sheet of the workbook. */
  class Worksheet {
    const title: string
    var rows: seq<seq<Cell>>
    var widths: seq<nat>
    var merged: seq<(string, string)>

    constructor(title: string)
      ensures this.title == title && rows == [] && widths == [] && merged == []
    {
      this.title := title;
      rows := [];
      widths := [];
      merged := [];
    }

    /** `ws.append(row)`. */
    method Append(row: seq<Cell>)
      modifies this
      ensures rows == old(rows) + [row] && widths == old(widths) && merged == old(merged)
    {
      rows := rows + [row];
    }

    /** `for row in data: ws.append(row)`. */
    method AppendAll(data: seq<seq<Cell>>)
      modifies this
      ensures rows == old(rows) + data && widths == old(widths) && merged == old(merged)
    {
      var i := 0;
      while i < |data|
        invariant 0 <= i <= |data|
        invariant rows == old(rows) + data[..i] && widths == old(widths) && merged == old(merged)
      {
        Append(data[i]);
        assert data[..i + 1] == data[..i] + [data[i]];
        i := i + 1;
      }
      assert data[..i] == data;
    }

    /**
     * `style_worksheet(ws, heading)` as written: columns sized to the rows
     * as they are, the heading inserted as a new first row, and then the
     * title merge, whose range openpyxl always rejects, raises.
     */
    method StyleAsWritten(heading: string, str: Cell -> string) returns (raised: bool)
      modifies this
      ensures raised
      ensures FitsColumns(widths, Columns(old(rows), str))
      ensures rows == [[TextCell(heading)]] + old(rows) && merged == old(merged)
    {
      widths := ColumnWidths(Columns(rows, str));
      rows := [[TextCell(heading)]] + rows;
      var sides := MergeSidesAsWritten(MaxColumn(rows));
      TitleMergeRejected(MaxColumn(rows));
      raised := !RangeAccepted(sides.0, sides.1);
    }

    /**
     * `style_worksheet(ws, heading)` with the title merge corrected:
     * columns sized to the rows as they are, the heading inserted as a new
     * first row, and the first row merged from `A1` to the last column.
     */
    method Style(heading: string, str: Cell -> string)
      modifies this
      ensures FitsColumns(widths, Columns(old(rows), str))
      ensures rows == [[TextCell(heading)]] + old(rows)
      ensures merged == old(merged) + [MergeSides(MaxColumn(rows))]
    {
      widths := ColumnWidths(Columns(rows, str));
      rows := [[TextCell(heading)]] + rows;
      merged := merged + [MergeSides(MaxColumn(rows))];
    }
  }

  /** The workbook: its sheets in order, the first one active. */
  class Workbook {
    var sheets: seq<Worksheet>

    /** `openpyxl.Workbook()`: one empty sheet named `Sheet`. */
    constructor()
      ensures |sheets| == 1 && fresh(sheets[0]) && sheets[0].title == "Sheet" && sheets[0].rows == []
    {
      var first := new Worksheet("Sheet");
      sheets := [first];
    }

    /** `wb.remove(wb.active)` on a fresh workbook, whose active sheet is the first. */
    method RemoveActive()
      requires |sheets| >= 1
      modifies this
      ensures sheets == old(sheets)[1..]
    {
      sheets := sheets[1..];
    }

    /** `wb.create_sheet(title)`: a new empty sheet at the end. */
    method CreateSheet(title: string) returns (ws: Worksheet)
      modifies this
      ensures fresh(ws) && ws.title == title && ws.rows == [] && ws.widths == [] && ws.merged == []
      ensures sheets == old(sheets) + [ws]
    {
      ws := new Worksheet(title);
      sheets := sheets + [ws];
    }
  }

  // ---------------------------------------------------------------------
  // ExcelExporter.create_comprehensive_report
  // ---------------------------------------------------------------------

  /** The overall statistics row; the average is NULL when nothing is resolved. */
  datatype OverallStats = OverallStats(total: int, open: int, inProgress: int, resolved: int, closed: int, avgHours: Option<real>)

  /** `x or 0` on the average. */
  function OrZero(avg: Option<real>): real {
    if avg.Some? then avg.value else 0.0
  }

  /** The rows of the executive summary, the average rounded to two places. */
  function SummaryRows(stats: OverallStats): (r: seq<seq<Cell>>)
    ensures |r| == 7 && forall k | 0 <= k < |r| :: |r[k]| == 2
  {
    [[TextCell("Metric"), TextCell("Value")],
     [TextCell("Total Tickets"), IntCell(stats.total)],
     [TextCell("Open Tickets"), IntCell(stats.open)],
     [TextCell("In Progress"), IntCell(stats.inProgress)],
     [TextCell("Resolved Tickets"), IntCell(stats.resolved)],
     [TextCell("Closed Tickets"), IntCell(stats.closed)],
     [TextCell("Avg Resolution Time (Hours)"), NumberCell(Round(OrZero(stats.avgHours), 2))]]
  }

  /** With no resolved ticket the summary shows an average of 0. */
  lemma NullAverageWrittenAsZero(stats: OverallStats)
    requires stats.avgHours.None?
    ensures SummaryRows(stats)[6][1] == NumberCell(0.0)
  {
    assert Scale(2) == 100.0;
    assert (0.0 * 100.0 + 0.5).Floor == 0;
  }

  /** The sheets of the report, in order. */
  const ReportSheets: seq<string> :=
    ["Executive Summary", "All Tickets", "Category Analysis", "Priority Analysis", "Trend Analysis"]

  /** The heading `style_worksheet` puts above each sheet. */
  const ReportHeadings: seq<string> :=
    ["Tech Support Dashboard - Executive Summary", "All Tickets Details", "Tickets by Category Analysis",
     "Tickets by Priority Analysis", "Daily Ticket Trends (Last 30 Days)"]

  /** A report sheet as styling leaves it: the heading over the data, columns sized to the data, the first row merged. */
  ghost predicate Styled(rows: seq<seq<Cell>>, widths: seq<nat>, merged: seq<(string, string)>,
                         heading: string, data: seq<seq<Cell>>, str: Cell -> string)
  {
    && rows == [[TextCell(heading)]] + data
    && FitsColumns(widths, Columns(data, str))
    && merged == [MergeSides(MaxColumn(rows))]
  }

  /** One sheet of the report: created at the end, filled with its rows, styled. */
  method AddSheet(wb: Workbook, title: string, heading: string, data: seq<seq<Cell>>, str: Cell -> string)
    returns (ws: Worksheet)
    modifies wb
    ensures fresh(ws) && wb.sheets == old(wb.sheets) + [ws]
    ensures ws.title == title && Styled(ws.rows, ws.widths, ws.merged, heading, data, str)
  {
    ws := wb.CreateSheet(title);
    ws.AppendAll(data);
    assert ws.rows == data;
    ws.Style(heading, str);
  }

  /** The five report sheets, in order, added to a workbook that has none. */
  method FillReport(wb: Workbook, data: seq<seq<seq<Cell>>>, str: Cell -> string)
    requires wb.sheets == [] && |data| == 5
    modifies wb
    ensures |wb.sheets| == 5
    ensures forall i | 0 <= i < 5 :: wb.sheets[i].title == ReportSheets[i]
    ensures forall i, j | 0 <= i < j < 5 :: wb.sheets[i] != wb.sheets[j]
    ensures forall i | 0 <= i < 5 :: Styled(wb.sheets[i].rows, wb.sheets[i].widths, wb.sheets[i].merged, ReportHeadings[i], data[i], str)
  {
    var summary := AddSheet(wb, ReportSheets[0], ReportHeadings[0], data[0], str);
    ghost var s0 := (summary.rows, summary.widths, summary.merged);
    var all := AddSheet(wb, ReportSheets[1], ReportHeadings[1], data[1], str);
    ghost var s1 := (all.rows, all.widths, all.merged);
    var byCategory := AddSheet(wb, ReportSheets[2], ReportHeadings[2], data[2], str);
    ghost var s2 := (byCategory.rows, byCategory.widths, byCategory.merged);
    var byPriority := AddSheet(wb, ReportSheets[3], ReportHeadings[3], data[3], str);
    ghost var s3 := (byPriority.rows, byPriority.widths, byPriority.merged);
    var byDay := AddSheet(wb, ReportSheets[4], ReportHeadings[4], data[4], str);
    assert wb.sheets == [summary, all, byCategory, byPriority, byDay];
    assert s0 == (summary.rows, summary.widths, summary.merged) && s1 == (all.rows, all.widths, all.merged);
    assert s2 == (byCategory.rows, byCategory.widths, byCategory.merged);
    assert s3 == (byPriority.rows, byPriority.widths, byPriority.merged);
    FiveSheets(wb.sheets, data, str);
  }

  /** Five sheets, each with its report title and styled over its data, are five different sheets in report order. */
  lemma FiveSheets(ws: seq<Worksheet>, data: seq<seq<seq<Cell>>>, str: Cell -> string)
    requires |ws| == 5 && |data| == 5
    requires ws[0].title == ReportSheets[0] && ws[1].title == ReportSheets[1] && ws[2].title == ReportSheets[2]
    requires ws[3].title == ReportSheets[3] && ws[4].title == ReportSheets[4]
    requires Styled(ws[0].rows, ws[0].widths, ws[0].merged, ReportHeadings[0], data[0], str) && Styled(ws[1].rows, ws[1].widths, ws[1].merged, ReportHeadings[1], data[1], str)
    requires Styled(ws[2].rows, ws[2].widths, ws[2].merged, ReportHeadings[2], data[2], str) && Styled(ws[3].rows, ws[3].widths, ws[3].merged, ReportHeadings[3], data[3], str)
    requires Styled(ws[4].rows, ws[4].widths, ws[4].merged, ReportHeadings[4], data[4], str)
    ensures forall i | 0 <= i < 5 :: ws[i].title == ReportSheets[i]
    ensures forall i, j | 0 <= i < j < 5 :: ws[i] != ws[j]
    ensures forall i | 0 <= i < 5 :: Styled(ws[i].rows, ws[i].widths, ws[i].merged, ReportHeadings[i], data[i], str)
  {
    forall i, j | 0 <= i < j < 5
      ensures ws[i] != ws[j]
    {
      assert ReportSheets[i] != ReportSheets[j];
    }
  }

  /**
   * `create_comprehensive_report` as written: the summary sheet is created
   * and filled, and styling it raises at the title merge, so the exception
   * escapes before any other sheet exists.
   */
  method CreateComprehensiveReportAsWritten(stats: OverallStats, str: Cell -> string) returns (raised: bool, sheetsMade: nat)
    ensures raised && sheetsMade == 1
  {
    var wb := new Workbook();
    wb.RemoveActive();
    var summary := wb.CreateSheet(ReportSheets[0]);
    summary.AppendAll(SummaryRows(stats));
    raised := summary.StyleAsWritten(ReportHeadings[0], str);
    sheetsMade := |wb.sheets|;
  }

  /**
   * `create_comprehensive_report` with the title merge corrected: the
   * default sheet removed, then exactly the five sheets in their fixed
   * order, each with its heading over its data, its columns sized to the
   * data and its first row merged. The ticket, category, priority and
   * trend tables are the query results, header row first.
   */
  method CreateComprehensiveReport(stats: OverallStats, tickets: seq<seq<Cell>>, categories: seq<seq<Cell>>,
                                   priorities: seq<seq<Cell>>, trend: seq<seq<Cell>>, str: Cell -> string)
    returns (wb: Workbook)
    ensures fresh(wb) && |wb.sheets| == 5
    ensures forall i | 0 <= i < 5 :: wb.sheets[i].title == ReportSheets[i]
    ensures forall i, j | 0 <= i < j < 5 :: wb.sheets[i] != wb.sheets[j]
    ensures var data := [SummaryRows(stats), tickets, categories, priorities, trend];
      forall i | 0 <= i < 5 :: Styled(wb.sheets[i].rows, wb.sheets[i].widths, wb.sheets[i].merged, ReportHeadings[i], data[i], str)
  {
    wb := new Workbook();
    wb.RemoveActive();
    FillReport(wb, [SummaryRows(stats), tickets, categories, priorities, trend], str);
  }
}

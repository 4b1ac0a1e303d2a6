/**
 * Where `TicketPredictor` gets its training data (ml_predictions.py:112-161):
 * the resolved tickets from the database when there are at least ten of
 * them, the synthetic table otherwise, and then the rows whose cleaned text
 * is not empty.
 */
module TrainingData {
  import opened Wrappers
  import opened TextNormalizer
  import opened SampleData

  /** A `tickets` row as the training query reads it; times are in seconds. */
  datatype TicketRow = TicketRow(
    title: Option<string>, description: Option<string>, category: string,
    priority: string, status: string, createdAt: int, updatedAt: int)

  /** Fewer resolved rows than this and the synthetic table is used instead. */
  const MinRealRows: nat := 10

  function OrEmpty(s: Option<string>): (r: string)
    ensures s.None? ==> r == ""
    ensures s.Some? ==> r == s.value
  {
    s.GetOr("")
  }

  /**
   * The query's `WHERE status = 'Resolved'`, with the capital R the query
   * uses (the ticket pages write lower-case `resolved`).
   */
  function ResolvedRows(table: seq<TicketRow>): (r: seq<TicketRow>)
    ensures |r| <= |table|
    ensures forall x | x in r :: x in table && x.status == "Resolved"
    ensures forall x | x in table && x.status == "Resolved" :: x in r
  {
    if table == [] then []
    else (if table[0].status == "Resolved" then [table[0]] else []) + ResolvedRows(table[1..])
  }

  /** One database row as a training example: title and description joined by a space. */
  function RowExample(row: TicketRow): Example {
    Example(OrEmpty(row.title) + " " + OrEmpty(row.description), row.category, row.priority,
            (row.updatedAt - row.createdAt) as real / 3600.0)
  }

  /** `load_data_from_db()`; `table` is None when reading the database raises. */
  function LoadDataFromDb(table: Option<seq<TicketRow>>, draw: nat -> Draw): (r: seq<Example>)
    ensures r == SampleRows(draw) || (table.Some? && |r| == |ResolvedRows(table.value)| >= MinRealRows)
  {
    if table.None? then SampleRows(draw)
    else
      var rows := ResolvedRows(table.value);
      if |rows| < MinRealRows then SampleRows(draw)
      else seq(|rows|, i requires 0 <= i < |rows| => RowExample(rows[i]))
  }

  /**
   * The selection rule: the synthetic table on a failed read or fewer than
   * ten resolved rows; otherwise one example per resolved row, in order.
   */
  lemma LoadSelection(table: Option<seq<TicketRow>>, draw: nat -> Draw)
    ensures table.None? || |ResolvedRows(table.value)| < MinRealRows ==>
      LoadDataFromDb(table, draw) == SampleRows(draw)
    ensures table.Some? && |ResolvedRows(table.value)| >= MinRealRows ==>
      var rows := ResolvedRows(table.value);
      |LoadDataFromDb(table, draw)| == |rows| &&
      forall i | 0 <= i < |rows| ::
        && LoadDataFromDb(table, draw)[i].description == OrEmpty(rows[i].title) + " " + OrEmpty(rows[i].description)
        && LoadDataFromDb(table, draw)[i].category == rows[i].category
        && LoadDataFromDb(table, draw)[i].priority == rows[i].priority
        && LoadDataFromDb(table, draw)[i].hours == (rows[i].updatedAt - rows[i].createdAt) as real / 3600.0
  {
  }

  /**
   * Whatever the database holds, at least ten examples come back, so the
   * `len(df) == 0` guard of `train_models` never fires.
   */
  lemma LoadAtLeastTen(table: Option<seq<TicketRow>>, draw: nat -> Draw)
    ensures |LoadDataFromDb(table, draw)| >= MinRealRows
  {
    SampleShape(draw);
  }

  /**
   * Database durations are not checked: a resolved row whose `updated_at`
   * precedes its `created_at` becomes an example with negative hours.
   */
  lemma NegativeHoursFromDatabase(draw: nat -> Draw)
    ensures exists table: seq<TicketRow> | |table| == MinRealRows ::
        LoadDataFromDb(Some(table), draw)[0].hours == -2.0
  {
    var row := TicketRow(Some("t"), None, "Billing", "Low", "Resolved", 7200, 0);
    var table := seq(MinRealRows, _ => row);
    assert forall x | x in table :: x == row;
    var rows := ResolvedRows(table);
    assert row in rows;
    assert forall x | x in rows :: x == row;
    assert |rows| == MinRealRows by {
      ResolvedAll(table);
    }
    assert rows[0] == row;
    assert LoadDataFromDb(Some(table), draw)[0] == RowExample(row);
  }

  /** A table in which every row is resolved passes the filter unchanged. */
  lemma {:induction false} ResolvedAll(table: seq<TicketRow>)
    requires forall x | x in table :: x.status == "Resolved"
    ensures ResolvedRows(table) == table
  {
    if table != [] {
      ResolvedAll(table[1..]);
    }
  }

  /** A training row after `preprocess_text`: cleaned text, category label, hours. */
  datatype TrainingRow = TrainingRow(text: string, category: string, hours: real)

  function Cleaned(e: Example): TrainingRow {
    TrainingRow(Preprocess(Some(e.description)), e.category, e.hours)
  }

  /**
   * `df[df['description_clean'].str.len() > 0]`: the examples whose cleaned
   * text is not empty, cleaned, in their original order.
   */
  function NonEmptyRows(data: seq<Example>): (r: seq<TrainingRow>)
    ensures |r| <= |data|
    ensures forall x | x in r :: x.text != [] && Normalized(x.text)
    ensures forall x | x in r :: exists e | e in data :: x == Cleaned(e)
    ensures forall e | e in data && Cleaned(e).text != [] :: Cleaned(e) in r
  {
    if data == [] then []
    else
      var rest := NonEmptyRows(data[1..]);
      assert forall e | e in data[1..] :: e in data;
      if Cleaned(data[0]).text != [] then [Cleaned(data[0])] + rest else rest
  }
}

/**
 * The analytics dashboard's data shaping: null averages shown as zero,
 * agent resolution rates, the zero-filled daily time series, and the
 * update statement of a saved custom dashboard. The aggregate queries
 * themselves run in the database; their rows are inputs here.
 */
module Analytics {
  import opened Wrappers
  import opened Sql
  import opened Rounding

  // ---------------------------------------------------------------------
  // Averages: a NULL (or zero) average becomes 0
  // ---------------------------------------------------------------------

  /** `round(x, 2) if x else 0`: an absent or zero average is shown as 0. */
  function HoursOrZero(avg: Option<real>): (r: real)
    ensures avg.None? || avg == Some(0.0) ==> r == 0.0
    ensures avg.Some? && avg.value != 0.0 ==> -0.005 < r - avg.value <= 0.005
  {
    assert Scale(2) == 100.0;
    if avg.Some? && avg.value != 0.0 then Round(avg.value, 2) else 0.0
  }

  /** The one row of the overall query: the average over resolved tickets (NULL when none) and their number. */
  datatype AverageRow = AverageRow(avgHours: Option<real>, resolvedCount: nat)

  datatype Overall = Overall(averageHours: real, resolvedCount: nat)

  /**
   * `get_average_resolution_time`: the rounded average and the count, or
   * both 0 when there is no row or the average is NULL or zero, whatever
   * the count.
   */
  function AverageResolutionTime(row: Option<AverageRow>): (r: Overall)
    ensures row.Some? && row.value.avgHours.Some? && row.value.avgHours.value != 0.0 ==>
      r.resolvedCount == row.value.resolvedCount && -0.005 < r.averageHours - row.value.avgHours.value <= 0.005
    ensures row.None? || row.value.avgHours.None? || row.value.avgHours == Some(0.0) ==> r == Overall(0.0, 0)
  {
    if row.Some? && row.value.avgHours.Some? && row.value.avgHours.value != 0.0
    then Overall(HoursOrZero(row.value.avgHours), row.value.resolvedCount)
    else Overall(0.0, 0)
  }

  /** One row of the per-category query. */
  datatype CategoryRow = CategoryRow(name: string, color: string, avgHours: Option<real>, count: nat)

  datatype CategoryTime = CategoryTime(category: string, avgHours: real, count: nat, color: string)

  /** `get_resolution_time_by_category`: row by row, a NULL or zero average shown as 0. */
  function ResolutionTimeByCategory(rows: seq<CategoryRow>): (r: seq<CategoryTime>)
    ensures |r| == |rows|
    ensures forall i | 0 <= i < |rows| ::
      && r[i].category == rows[i].name && r[i].count == rows[i].count && r[i].color == rows[i].color
      && (rows[i].avgHours.None? ==> r[i].avgHours == 0.0)
      && (rows[i].avgHours.Some? ==> -0.005 <= r[i].avgHours - rows[i].avgHours.value <= 0.005)
  {
    seq(|rows|, i requires 0 <= i < |rows| =>
      CategoryTime(rows[i].name, HoursOrZero(rows[i].avgHours), rows[i].count, rows[i].color))
  }

  // ---------------------------------------------------------------------
  // Agent performance
  // ---------------------------------------------------------------------

  /** One row of the agent query: tickets assigned, those with status `resolved`, the average time. */
  datatype AgentRow = AgentRow(username: string, totalTickets: nat, resolvedTickets: nat, avgResolutionHours: Option<real>)

  datatype AgentStats = AgentStats(agent: string, totalTickets: nat, resolvedTickets: nat, resolutionRate: real, avgResolutionHours: real)

  /** `round(resolved / total * 100, 1) if total > 0 else 0`. */
  function ResolutionRate(resolved: nat, total: nat): (r: real)
    ensures total == 0 ==> r == 0.0
    ensures total > 0 ==> -0.05 < r - (resolved as real / total as real * 100.0) <= 0.05
  {
    assert Scale(1) == 10.0;
    if total > 0 then Round(resolved as real / total as real * 100.0, 1) else 0.0
  }

  /** A part of a positive whole, as a percentage, lies between 0 and 100. */
  lemma PercentBounds(resolved: nat, total: nat)
    requires resolved <= total && total > 0
    ensures 0.0 <= resolved as real / total as real * 100.0 <= 100.0
    ensures resolved == total ==> resolved as real / total as real * 100.0 == 100.0
  {
    var q := resolved as real / total as real;
    DivMono(0.0, resolved as real, total as real);
    DivMono(resolved as real, total as real, total as real);
    assert total as real / total as real == 1.0;
    MulMono(0.0, q, 100.0);
    MulMono(q, 1.0, 100.0);
  }

  /** The resolved tickets are some of the assigned ones, so the rate is a percentage. */
  lemma RateIsPercentage(resolved: nat, total: nat)
    requires resolved <= total
    ensures 0.0 <= ResolutionRate(resolved, total) <= 100.0
    ensures resolved == total && total > 0 ==> ResolutionRate(resolved, total) == 100.0
  {
    if total > 0 {
      var x := resolved as real / total as real * 100.0;
      PercentBounds(resolved, total);
      assert ResolutionRate(resolved, total) == Round(x, 1);
      assert Scale(1) == 10.0;
      RoundWithin(x, 1, 0, 1000);
      if resolved == total {
        RoundWithin(x, 1, 1000, 1000);
      }
    }
  }

  /** `get_agent_performance`: the rows as they come, with the rate and a zeroed NULL average. */
  function AgentPerformance(rows: seq<AgentRow>): (r: seq<AgentStats>)
    ensures |r| == |rows|
    ensures forall i | 0 <= i < |rows| ::
      && r[i].agent == rows[i].username
      && r[i].totalTickets == rows[i].totalTickets && r[i].resolvedTickets == rows[i].resolvedTickets
      && r[i].resolutionRate == ResolutionRate(rows[i].resolvedTickets, rows[i].totalTickets)
      && r[i].avgResolutionHours == HoursOrZero(rows[i].avgResolutionHours)
  {
    seq(|rows|, i requires 0 <= i < |rows| =>
      AgentStats(rows[i].username, rows[i].totalTickets, rows[i].resolvedTickets,
                 ResolutionRate(rows[i].resolvedTickets, rows[i].totalTickets),
                 HoursOrZero(rows[i].avgResolutionHours)))
  }

  // ---------------------------------------------------------------------
  // Daily time series
  // ---------------------------------------------------------------------

  /** One row of a per-day count query; dates are day numbers. */
  datatype DayCount = DayCount(date: int, count: nat)

  /** One day of the series. */
  datatype DayEntry = DayEntry(date: int, created: nat, resolved: nat)

  /** `{row['date']: row[count] for row in rows}`: a later row for the same date overwrites an earlier one. */
  function CountsByDate(rows: seq<DayCount>): (r: map<int, nat>)
    ensures forall k | 0 <= k < |rows| :: rows[k].date in r
    ensures forall d | d in r :: exists k | 0 <= k < |rows| :: rows[k].date == d
  {
    if rows == [] then map[]
    else CountsByDate(rows[..|rows| - 1])[rows[|rows| - 1].date := rows[|rows| - 1].count]
  }

  /** `counts.get(date, 0)`. */
  function CountOn(counts: map<int, nat>, date: int): nat {
    if date in counts then counts[date] else 0
  }

  /** The count of the last row for the date, 0 when there is none. */
  function LastCountOn(rows: seq<DayCount>, date: int): (r: nat)
    ensures (forall i | 0 <= i < |rows| :: rows[i].date != date) ==> r == 0
    ensures r == 0 || exists i | 0 <= i < |rows| :: rows[i].date == date && rows[i].count == r
  {
    if rows == [] then 0
    else if rows[|rows| - 1].date == date then rows[|rows| - 1].count
    else LastCountOn(rows[..|rows| - 1], date)
  }

  /** Looking a date up in the dictionary built from the rows gives the last row's count for it. */
  lemma {:induction false} CountsByDateLast(rows: seq<DayCount>, date: int)
    ensures CountOn(CountsByDate(rows), date) == LastCountOn(rows, date)
  {
    if rows != [] {
      CountsByDateLast(rows[..|rows| - 1], date);
    }
  }

  /** The rows for one date. */
  function RowsOn(rows: seq<DayCount>, date: int): (r: seq<DayCount>)
    ensures forall x | x in r :: x in rows && x.date == date
  {
    if rows == [] then []
    else RowsOn(rows[..|rows| - 1], date) + (if rows[|rows| - 1].date == date then [rows[|rows| - 1]] else [])
  }

  /** The last row decides the day's value when it is for that day; otherwise the earlier rows do. */
  lemma LastCountOnSnoc(init: seq<DayCount>, last: DayCount, date: int)
    ensures LastCountOn(init + [last], date) == if last.date == date then last.count else LastCountOn(init, date)
  {
    assert (init + [last])[..|init|] == init;
  }

  /**
   * A day's value depends only on the rows for that day: rows for other
   * dates, in particular those outside the window, change nothing.
   */
  lemma {:induction false} OnlyThatDate(rows: seq<DayCount>, date: int)
    ensures LastCountOn(rows, date) == LastCountOn(RowsOn(rows, date), date)
  {
    if rows != [] {
      var init, last := rows[..|rows| - 1], rows[|rows| - 1];
      assert rows == init + [last];
      OnlyThatDate(init, date);
      LastCountOnSnoc(init, last, date);
      if last.date == date {
        assert RowsOn(rows, date) == RowsOn(init, date) + [last];
        LastCountOnSnoc(RowsOn(init, date), last, date);
        assert LastCountOn(RowsOn(rows, date), date) == last.count;
      } else {
        assert RowsOn(rows, date) == RowsOn(init, date) + [];
        assert RowsOn(rows, date) == RowsOn(init, date);
      }
    }
  }

  /** With one row per date, as GROUP BY gives them, the day's value is that row's count. */
  lemma UniqueDateCount(rows: seq<DayCount>, k: nat)
    requires k < |rows|
    requires forall j | 0 <= j < |rows| && j != k :: rows[j].date != rows[k].date
    ensures LastCountOn(rows, rows[k].date) == rows[k].count
  {
    var date := rows[k].date;
    if k == |rows| - 1 {
    } else {
      var init := rows[..|rows| - 1];
      assert init[k] == rows[k];
      UniqueDateCount(init, k);
    }
  }

  /**
   * `get_time_series_data(days)`: one entry per day from `days - 1` days
   * before today up to today, each with that day's created and resolved
   * counts or 0. `today` is the clock's date.
   */
  method TimeSeries(days: int, today: int, created: seq<DayCount>, resolved: seq<DayCount>)
    returns (series: seq<DayEntry>)
    ensures |series| == if days >= 1 then days else 0
    ensures forall i | 0 <= i < |series| :: series[i].date == today - days + 1 + i
    ensures days >= 1 ==> series[|series| - 1].date == today
    ensures forall i | 0 <= i < |series| ::
      series[i].created == LastCountOn(created, series[i].date) &&
      series[i].resolved == LastCountOn(resolved, series[i].date)
  {
    var endDate := today;
    var startDate := endDate - (days - 1);
    var createdCounts := CountsByDate(created);
    var resolvedCounts := CountsByDate(resolved);
    series := [];
    var current := startDate;
    while current <= endDate
      invariant startDate <= current
      invariant days >= 1 ==> current <= endDate + 1
      invariant days < 1 ==> current == startDate
      invariant |series| == current - startDate
      invariant forall i | 0 <= i < |series| :: series[i].date == startDate + i
      invariant forall i | 0 <= i < |series| ::
        series[i].created == LastCountOn(created, series[i].date) &&
        series[i].resolved == LastCountOn(resolved, series[i].date)
      decreases endDate - current
    {
      CountsByDateLast(created, current);
      CountsByDateLast(resolved, current);
      series := series + [DayEntry(current, CountOn(createdCounts, current), CountOn(resolvedCounts, current))];
      current := current + 1;
    }
  }

  // ---------------------------------------------------------------------
  // CustomDashboard.update
  // ---------------------------------------------------------------------

  /**
   * The assignments of `CustomDashboard.update`: name, description and the
   * JSON text of the configuration, each when given, then `updated_at`.
   */
  function DashboardAssignments<C>(name: Option<string>, description: Option<string>, config: Option<C>,
                                   dumps: C -> string, stamp: string): seq<Assignment>
  {
    OptionalAssignment("name", TextValue(name)) +
    OptionalAssignment("description", TextValue(description)) +
    OptionalAssignment("config", if config.None? then None else Some(Text(dumps(config.value)))) +
    [Assignment("updated_at", Text(stamp))]
  }

  /**
   * `CustomDashboard.update(dashboard_id, name, description, config)`:
   * `dumps` is `json.dumps` and `stamp` the clock's reading.
   */
  method DashboardUpdate<C>(dashboardId: int, name: Option<string>, description: Option<string>, config: Option<C>,
                            dumps: C -> string, stamp: string)
    returns (query: Fragment, params: seq<Value>)
    ensures var sets := DashboardAssignments(name, description, config, dumps, stamp);
      query == UpdateStatement("UPDATE custom_dashboards SET ", sets) && params == ValuesOf(sets) + [Int(dashboardId)]
    ensures Holes(query) == |params|
  {
    var updates: seq<Fragment>;
    ghost var done: seq<Assignment> := [];
    updates, params := AddIfSet([], [], done, "name", TextValue(name));
    done := OptionalAssignment("name", TextValue(name));
    assert [] + done == done;
    updates, params := AddIfSet(updates, params, done, "description", TextValue(description));
    done := done + OptionalAssignment("description", TextValue(description));
    var json: Option<Value> := if config.None? then None else Some(Text(dumps(config.value)));
    updates, params := AddIfSet(updates, params, done, "config", json);
    done := done + OptionalAssignment("config", json);
    ghost var last := [Assignment("updated_at", Text(stamp))];
    SingleAssignment("updated_at", Text(stamp));
    ExtendAssignments(done, last);
    updates := updates + [[Lit("updated_at"), Lit(" = "), Hole]];
    params := params + [Text(stamp)];
    done := done + last;
    assert done == DashboardAssignments(name, description, config, dumps, stamp);
    assert updates == UpdatesOf(done);
    params := params + [Int(dashboardId)];
    query := [Lit("UPDATE custom_dashboards SET ")] + Join(updates, ", ") + [Lit(" WHERE id = "), Hole];
    UpdateStatementHoles("UPDATE custom_dashboards SET ", done);
  }

  /**
   * Each of name, description and config is set exactly when given, the
   * configuration as its JSON text, and `updated_at` is always the last
   * assignment.
   */
  lemma DashboardColumns<C>(name: Option<string>, description: Option<string>, config: Option<C>,
                            dumps: C -> string, stamp: string)
    ensures var sets := DashboardAssignments(name, description, config, dumps, stamp);
      && (Assignment("updated_at", Text(stamp)) == sets[|sets| - 1])
      && ("name" in ColumnsOf(sets) <==> name.Some?)
      && ("description" in ColumnsOf(sets) <==> description.Some?)
      && ("config" in ColumnsOf(sets) <==> config.Some?)
      && (config.Some? ==> Assignment("config", Text(dumps(config.value))) in sets)
      && |sets| <= 4
  {
    DashboardShape(name, description, config, dumps, stamp);
    DashboardColumnList(name, description, config, dumps, stamp);
  }

  /** At most four assignments, `updated_at` last, and the configuration as its JSON text. */
  lemma DashboardShape<C>(name: Option<string>, description: Option<string>, config: Option<C>,
                          dumps: C -> string, stamp: string)
    ensures var sets := DashboardAssignments(name, description, config, dumps, stamp);
      && (Assignment("updated_at", Text(stamp)) == sets[|sets| - 1])
      && (config.Some? ==> Assignment("config", Text(dumps(config.value))) in sets)
      && |sets| <= 4
  {
    var sets := DashboardAssignments(name, description, config, dumps, stamp);
    if config.Some? {
      var pre := OptionalAssignment("name", TextValue(name)) + OptionalAssignment("description", TextValue(description));
      assert sets == pre + [Assignment("config", Text(dumps(config.value)))] + [Assignment("updated_at", Text(stamp))];
      assert sets[|pre|] == Assignment("config", Text(dumps(config.value)));
    }
  }

  /** The columns the dashboard update sets, in order. */
  lemma DashboardColumnList<C>(name: Option<string>, description: Option<string>, config: Option<C>,
                               dumps: C -> string, stamp: string)
    ensures ColumnsOf(DashboardAssignments(name, description, config, dumps, stamp))
      == (if name.Some? then ["name"] else []) + (if description.Some? then ["description"] else [])
       + (if config.Some? then ["config"] else []) + ["updated_at"]
  {
    var n := OptionalAssignment("name", TextValue(name));
    var d := OptionalAssignment("description", TextValue(description));
    var json := if config.None? then None else Some(Text(dumps(config.value)));
    var c := OptionalAssignment("config", json);
    var u := [Assignment("updated_at", Text(stamp))];
    OptionalColumns("name", TextValue(name));
    OptionalColumns("description", TextValue(description));
    OptionalColumns("config", json);
    ColumnsOfAppend(n, d);
    ColumnsOfAppend(n + d, c);
    ColumnsOfAppend(n + d + c, u);
    assert ColumnsOf(u) == ["updated_at"];
  }
}

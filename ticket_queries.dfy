/**
 * The statements `Ticket.get_all` and `Ticket.update` build
 * (ticket_models.py:38-202): conditions or assignments and their values are
 * appended side by side, and the sort column and direction are whitelisted.
 */
module TicketQueries {
  import opened Wrappers
  import opened Sql

  /** Request filters; a filter is in force when its key is present with a non-empty value. */
  type Filters = map<string, string>

  predicate Given(filters: Filters, key: string) {
    key in filters && filters[key] != ""
  }

  const BaseQuery: string :=
    "SELECT t.*, c.name as category_name, c.color as category_color, " +
    "creator.username as created_by_username, assignee.username as assigned_to_username " +
    "FROM tickets t LEFT JOIN categories c ON t.category_id = c.id " +
    "LEFT JOIN users creator ON t.created_by = creator.id " +
    "LEFT JOIN users assignee ON t.assigned_to = assignee.id"

  const SortFields: seq<string> := ["created_at", "updated_at", "title", "status", "priority"]
  const SortOrders: seq<string> := ["ASC", "DESC"]

  function IdValue(id: Option<int>): Value {
    match id
    case None => Null
    case Some(n) => Int(n)
  }

  /** `(t.assigned_to = ? OR t.created_by = ?)` with the user id twice. */
  function OwnershipClause(userId: Option<int>): Clause {
    Clause([Lit("(t.assigned_to = "), Hole, Lit(" OR t.created_by = "), Hole, Lit(")")],
           [IdValue(userId), IdValue(userId)])
  }

  /** The search term wrapped for LIKE, matched against title and description. */
  function SearchClause(term: string): Clause {
    var pattern := Text("%" + term + "%");
    Clause([Lit("(LOWER(t.title) LIKE LOWER("), Hole, Lit(") OR LOWER(t.description) LIKE LOWER("), Hole, Lit("))")],
           [pattern, pattern])
  }

  /** `<prefix>?` bound to the filter's value. */
  function EqualsClause(prefix: string, value: string): Clause {
    Clause([Lit(prefix), Hole], [Text(value)])
  }

  const UnassignedClause: Clause := Clause([Lit("t.assigned_to IS NULL")], [])

  function Optional(filters: Filters, key: string, prefix: string): seq<Clause> {
    if Given(filters, key) then [EqualsClause(prefix, filters[key])] else []
  }

  function AssigneeClauses(filters: Filters): seq<Clause> {
    if !Given(filters, "assigned_to") then []
    else if filters["assigned_to"] == "unassigned" then [UnassignedClause]
    else [EqualsClause("assignee.username = ", filters["assigned_to"])]
  }

  /** The conditions the request filters contribute, in the order they are checked. */
  function FilterClauses(filters: Filters): seq<Clause> {
    MatchClauses(filters) + AssigneeClauses(filters) + DateClauses(filters)
  }

  /** Search, status, priority, category and creator. */
  function MatchClauses(filters: Filters): seq<Clause> {
    (if Given(filters, "search") then [SearchClause(filters["search"])] else []) +
    Optional(filters, "status", "t.status = ") +
    Optional(filters, "priority", "t.priority = ") +
    Optional(filters, "category", "c.name = ") +
    Optional(filters, "created_by", "creator.username = ")
  }

  /** The creation and last-update date ranges. */
  function DateClauses(filters: Filters): seq<Clause> {
    Optional(filters, "date_from", "DATE(t.created_at) >= ") +
    Optional(filters, "date_to", "DATE(t.created_at) <= ") +
    Optional(filters, "updated_from", "DATE(t.updated_at) >= ") +
    Optional(filters, "updated_to", "DATE(t.updated_at) <= ")
  }

  /** Every condition of `get_all`: ownership for anyone but an admin, then the filters. */
  function Conditions(role: Option<string>, userId: Option<int>, filters: Filters): seq<Clause> {
    (if role != Some("admin") then [OwnershipClause(userId)] else []) + FilterClauses(filters)
  }

  /** The sort column: the requested one if whitelisted, `created_at` otherwise. */
  function SortField(filters: Filters): (r: string)
    ensures r in SortFields
    ensures "sort_by" in filters && filters["sort_by"] in SortFields ==> r == filters["sort_by"]
    ensures !("sort_by" in filters && filters["sort_by"] in SortFields) ==> r == "created_at"
  {
    var requested := if "sort_by" in filters then filters["sort_by"] else "created_at";
    if requested in SortFields then requested else "created_at"
  }

  /** The sort direction: exactly `ASC` or `DESC` as requested, `DESC` otherwise. */
  function SortOrder(filters: Filters): (r: string)
    ensures r in SortOrders
    ensures "sort_order" in filters && filters["sort_order"] in SortOrders ==> r == filters["sort_order"]
    ensures !("sort_order" in filters && filters["sort_order"] in SortOrders) ==> r == "DESC"
  {
    var requested := if "sort_order" in filters then filters["sort_order"] else "DESC";
    if requested in SortOrders then requested else "DESC"
  }

  function OrderBy(field: string, order: string): Piece {
    Lit(" ORDER BY t." + field + " " + order)
  }

  /** The statement text for given conditions and sort. */
  function SelectText(conditions: seq<Fragment>, field: string, order: string): Fragment {
    [Lit(BaseQuery)] +
    (if conditions == [] then [] else [Lit(" WHERE ")] + Join(conditions, " AND ")) +
    [OrderBy(field, order)]
  }

  predicate AllAligned(cs: seq<Clause>) {
    forall c | c in cs :: AlignedClause(c)
  }

  lemma AllAlignedAppend(a: seq<Clause>, b: seq<Clause>)
    requires AllAligned(a) && AllAligned(b)
    ensures AllAligned(a + b)
  {
  }

  lemma OptionalAligned(filters: Filters, key: string, prefix: string)
    ensures AllAligned(Optional(filters, key, prefix))
  {
    assert Holes([Lit(prefix), Hole]) == 1;
  }

  lemma AssigneeAligned(filters: Filters)
    ensures AllAligned(AssigneeClauses(filters))
  {
    assert Holes([Lit("assignee.username = "), Hole]) == 1;
    assert Holes([Lit("t.assigned_to IS NULL")]) == 0;
  }

  lemma FilterClausesAligned(filters: Filters)
    ensures AllAligned(FilterClauses(filters))
  {
    OptionalAligned(filters, "status", "t.status = ");
    OptionalAligned(filters, "priority", "t.priority = ");
    OptionalAligned(filters, "category", "c.name = ");
    OptionalAligned(filters, "created_by", "creator.username = ");
    assert AllAligned(MatchClauses(filters));
    AssigneeAligned(filters);
    OptionalAligned(filters, "date_from", "DATE(t.created_at) >= ");
    OptionalAligned(filters, "date_to", "DATE(t.created_at) <= ");
    OptionalAligned(filters, "updated_from", "DATE(t.updated_at) >= ");
    OptionalAligned(filters, "updated_to", "DATE(t.updated_at) <= ");
    assert AllAligned(DateClauses(filters));
  }

  /** Every condition of `get_all` has as many values as placeholders. */
  lemma ConditionsAligned(role: Option<string>, userId: Option<int>, filters: Filters)
    ensures AllAligned(Conditions(role, userId, filters))
  {
    FilterClausesAligned(filters);
    var own := if role != Some("admin") then [OwnershipClause(userId)] else [];
    assert AllAligned(own);
    AllAlignedAppend(own, FilterClauses(filters));
  }

  /** The statement has exactly the placeholders of its conditions. */
  lemma SelectTextHoles(conditions: seq<Fragment>, field: string, order: string)
    ensures Holes(SelectText(conditions, field, order)) == TotalHoles(conditions)
  {
    HolesJoin(conditions, " AND ");
    var w := if conditions == [] then [] else [Lit(" WHERE ")] + Join(conditions, " AND ");
    HolesAppend([Lit(BaseQuery)], w);
    HolesAppend([Lit(BaseQuery)] + w, [OrderBy(field, order)]);
    if conditions != [] {
      HolesAppend([Lit(" WHERE ")], Join(conditions, " AND "));
    }
  }

  /**
   * One `if filters.get(key): where_conditions.append(...); params.append(...)`
   * step: the condition and its value are appended together or not at all.
   */
  method AddIfGiven(conditions: seq<Fragment>, params: seq<Value>, filters: Filters, key: string, prefix: string)
    returns (conditions': seq<Fragment>, params': seq<Value>)
    ensures conditions' == conditions + SqlOf(Optional(filters, key, prefix))
    ensures params' == params + ArgsOf(Optional(filters, key, prefix))
  {
    conditions', params' := conditions, params;
    if key in filters && filters[key] != "" {
      conditions' := conditions' + [[Lit(prefix), Hole]];
      params' := params' + [Text(filters[key])];
    }
  }

  /** Sequence concatenation regroups; the solver needs this spelled out on long chains. */
  /** After appending `next` to what `added` already contributed, `added + next` has been contributed. */
  lemma Extend(conditions: seq<Fragment>, params: seq<Value>, added: seq<Clause>, next: seq<Clause>)
    ensures (conditions + SqlOf(added)) + SqlOf(next) == conditions + SqlOf(added + next)
    ensures (params + ArgsOf(added)) + ArgsOf(next) == params + ArgsOf(added + next)
  {
    AppendClauses(added, next);
    Assoc(conditions, SqlOf(added), SqlOf(next));
    Assoc(params, ArgsOf(added), ArgsOf(next));
  }

  /**
   * The filter part of `get_all` (ticket_models.py:63-114): one condition
   * per filter in force, in a fixed order, each with its values.
   */
  method AddFilters(conditions: seq<Fragment>, params: seq<Value>, filters: Filters)
    returns (conditions': seq<Fragment>, params': seq<Value>)
    ensures conditions' == conditions + SqlOf(FilterClauses(filters))
    ensures params' == params + ArgsOf(FilterClauses(filters))
  {
    conditions', params' := AddMatchFilters(conditions, params, filters);
    if Given(filters, "assigned_to") {
      if filters["assigned_to"] == "unassigned" {
        conditions' := conditions' + [UnassignedClause.sql];
      } else {
        conditions' := conditions' + [[Lit("assignee.username = "), Hole]];
        params' := params' + [Text(filters["assigned_to"])];
      }
    }
    assert conditions' == (conditions + SqlOf(MatchClauses(filters))) + SqlOf(AssigneeClauses(filters));
    assert params' == (params + ArgsOf(MatchClauses(filters))) + ArgsOf(AssigneeClauses(filters));
    Extend(conditions, params, MatchClauses(filters), AssigneeClauses(filters));
    conditions', params' := AddDateFilters(conditions', params', filters);
    Extend(conditions, params, MatchClauses(filters) + AssigneeClauses(filters), DateClauses(filters));
  }

  method AddMatchFilters(conditions: seq<Fragment>, params: seq<Value>, filters: Filters)
    returns (conditions': seq<Fragment>, params': seq<Value>)
    ensures conditions' == conditions + SqlOf(MatchClauses(filters))
    ensures params' == params + ArgsOf(MatchClauses(filters))
  {
    conditions', params' := conditions, params;
    ghost var added: seq<Clause>;
    if Given(filters, "search") {
      var c := SearchClause(filters["search"]);
      conditions' := conditions' + [c.sql];
      params' := params' + c.args;
      added := [c];
    } else {
      added := [];
    }
    assert conditions' == conditions + SqlOf(added) && params' == params + ArgsOf(added);
    ghost var next := Optional(filters, "status", "t.status = ");
    conditions', params' := AddIfGiven(conditions', params', filters, "status", "t.status = ");
    Extend(conditions, params, added, next);
    added := added + next;
    next := Optional(filters, "priority", "t.priority = ");
    conditions', params' := AddIfGiven(conditions', params', filters, "priority", "t.priority = ");
    Extend(conditions, params, added, next);
    added := added + next;
    next := Optional(filters, "category", "c.name = ");
    conditions', params' := AddIfGiven(conditions', params', filters, "category", "c.name = ");
    Extend(conditions, params, added, next);
    added := added + next;
    next := Optional(filters, "created_by", "creator.username = ");
    conditions', params' := AddIfGiven(conditions', params', filters, "created_by", "creator.username = ");
    Extend(conditions, params, added, next);
    added := added + next;
  }

  method AddDateFilters(conditions: seq<Fragment>, params: seq<Value>, filters: Filters)
    returns (conditions': seq<Fragment>, params': seq<Value>)
    ensures conditions' == conditions + SqlOf(DateClauses(filters))
    ensures params' == params + ArgsOf(DateClauses(filters))
  {
    ghost var added := Optional(filters, "date_from", "DATE(t.created_at) >= ");
    conditions', params' := AddIfGiven(conditions, params, filters, "date_from", "DATE(t.created_at) >= ");
    ghost var next := Optional(filters, "date_to", "DATE(t.created_at) <= ");
    conditions', params' := AddIfGiven(conditions', params', filters, "date_to", "DATE(t.created_at) <= ");
    Extend(conditions, params, added, next);
    added := added + next;
    next := Optional(filters, "updated_from", "DATE(t.updated_at) >= ");
    conditions', params' := AddIfGiven(conditions', params', filters, "updated_from", "DATE(t.updated_at) >= ");
    Extend(conditions, params, added, next);
    added := added + next;
    next := Optional(filters, "updated_to", "DATE(t.updated_at) <= ");
    conditions', params' := AddIfGiven(conditions', params', filters, "updated_to", "DATE(t.updated_at) <= ");
    Extend(conditions, params, added, next);
    added := added + next;
  }

  /** With no filter in force no filter condition is added. */
  lemma NoFilterClauses(filters: Filters)
    requires |filters| == 0
    ensures FilterClauses(filters) == []
  {
  }

  /**
   * The `where_conditions` and `params` of `get_all` (ticket_models.py:54-114):
   * the ownership condition for anyone but an admin, then the filters.
   */
  method WhereConditions(role: Option<string>, userId: Option<int>, filters: Filters)
    returns (conditions: seq<Fragment>, params: seq<Value>)
    ensures conditions == SqlOf(Conditions(role, userId, filters))
    ensures params == ArgsOf(Conditions(role, userId, filters))
  {
    conditions := [];
    params := [];
    if role != Some("admin") {
      conditions := conditions + [OwnershipClause(userId).sql];
      params := params + [IdValue(userId), IdValue(userId)];
    }
    ghost var own := if role != Some("admin") then [OwnershipClause(userId)] else [];
    assert conditions == SqlOf(own) && params == ArgsOf(own);
    if |filters| > 0 {
      conditions, params := AddFilters(conditions, params, filters);
    } else {
      NoFilterClauses(filters);
      assert conditions == conditions + SqlOf(FilterClauses(filters));
      assert params == params + ArgsOf(FilterClauses(filters));
    }
    AppendClauses(own, FilterClauses(filters));
    assert Conditions(role, userId, filters) == own + FilterClauses(filters);
  }

  /** The statement has as many placeholders as `get_all` binds values. */
  lemma GetAllAligned(role: Option<string>, userId: Option<int>, filters: Filters)
    ensures Holes(SelectText(SqlOf(Conditions(role, userId, filters)), SortField(filters), SortOrder(filters)))
      == |ArgsOf(Conditions(role, userId, filters))|
  {
    ConditionsAligned(role, userId, filters);
    AlignedClauses(Conditions(role, userId, filters));
    SelectTextHoles(SqlOf(Conditions(role, userId, filters)), SortField(filters), SortOrder(filters));
  }

  /**
   * `Ticket.get_all(user_role, user_id, filters)`: the statement and its
   * values, with `WHERE` only when some condition exists and the sort
   * column and direction taken from the whitelists.
   */
  method GetAll(role: Option<string>, userId: Option<int>, filters: Filters) returns (query: Fragment, params: seq<Value>)
    ensures query == SelectText(SqlOf(Conditions(role, userId, filters)), SortField(filters), SortOrder(filters))
    ensures params == ArgsOf(Conditions(role, userId, filters))
    ensures Holes(query) == |params|
  {
    var conditions;
    conditions, params := WhereConditions(role, userId, filters);
    if conditions != [] {
      query := [Lit(BaseQuery)] + ([Lit(" WHERE ")] + Join(conditions, " AND "));
    } else {
      query := [Lit(BaseQuery)];
    }
    var sortBy := if "sort_by" in filters then filters["sort_by"] else "created_at";
    var sortOrder := if "sort_order" in filters then filters["sort_order"] else "DESC";
    if sortBy !in SortFields {
      sortBy := "created_at";
    }
    if sortOrder !in SortOrders {
      sortOrder := "DESC";
    }
    query := query + [OrderBy(sortBy, sortOrder)];
    GetAllAligned(role, userId, filters);
  }

  /**
   * Anyone but an admin is restricted to tickets they created or are
   * assigned, and that condition and its two copies of the user id come
   * first; an admin gets no such condition.
   */
  lemma OwnershipFirst(role: Option<string>, userId: Option<int>, filters: Filters)
    ensures role != Some("admin") ==>
      Conditions(role, userId, filters)[0] == OwnershipClause(userId) &&
      ArgsOf(Conditions(role, userId, filters))[..2] == [IdValue(userId), IdValue(userId)]
    ensures role == Some("admin") ==> Conditions(role, userId, filters) == FilterClauses(filters)
  {
    if role != Some("admin") {
      ArgsOfAppend([OwnershipClause(userId)], FilterClauses(filters));
    }
  }

  /** The search term is bound twice, wrapped in `%` for LIKE. */
  lemma SearchBoundTwice(role: Option<string>, userId: Option<int>, filters: Filters)
    requires Given(filters, "search")
    ensures var c := SearchClause(filters["search"]);
      c in Conditions(role, userId, filters) && c.args == [Text("%" + filters["search"] + "%"), Text("%" + filters["search"] + "%")]
  {
    assert SearchClause(filters["search"]) in MatchClauses(filters);
  }

  /** `assigned_to=unassigned` tests for NULL and binds nothing. */
  lemma UnassignedBindsNothing(role: Option<string>, userId: Option<int>, filters: Filters)
    requires "assigned_to" in filters && filters["assigned_to"] == "unassigned"
    ensures UnassignedClause in Conditions(role, userId, filters) && UnassignedClause.args == []
    ensures Holes(UnassignedClause.sql) == 0
  {
    assert UnassignedClause in AssigneeClauses(filters);
  }

  /**
   * `WHERE` follows the base query exactly when there is a condition, the
   * conditions follow it joined by `AND`, and the `ORDER BY` part is last.
   */
  lemma WhereIffConditions(conditions: seq<Fragment>, field: string, order: string)
    ensures conditions == [] ==> SelectText(conditions, field, order) == [Lit(BaseQuery), OrderBy(field, order)]
    ensures conditions != [] ==>
      var q := SelectText(conditions, field, order);
      |q| >= 3 && q[..2] == [Lit(BaseQuery), Lit(" WHERE ")] && q[2..|q| - 1] == Join(conditions, " AND ") &&
      q[|q| - 1] == OrderBy(field, order)
  {
    if conditions != [] {
      var q := SelectText(conditions, field, order);
      var j := Join(conditions, " AND ");
      assert q == [Lit(BaseQuery), Lit(" WHERE ")] + j + [OrderBy(field, order)];
      assert q[2..|q| - 1] == j;
    }
  }

  /** The columns `update` may set, in the order it sets them. */
  const UpdateColumns: seq<string> :=
    ["title", "description", "status", "resolved_at", "priority", "category_id", "assigned_to", "updated_at"]

  /** `UPDATE tickets SET <assignments> WHERE id = ?`. */
  function UpdateText(sets: seq<Assignment>): Fragment {
    UpdateStatement("UPDATE tickets SET ", sets)
  }

  /** Status, followed by `resolved_at` when the new status is exactly `resolved`. */
  function StatusAssignments(status: Option<string>, resolvedStamp: string): seq<Assignment> {
    if status.None? then []
    else [Assignment("status", Text(status.value))] +
         (if status.value == "resolved" then [Assignment("resolved_at", Text(resolvedStamp))] else [])
  }

  /**
   * The assignments of `Ticket.update`: one per argument that is not None,
   * in a fixed order, then `updated_at`. The two time stamps are the two
   * readings of the clock. `assigned_to` is bound to whatever value the
   * caller passes, as Python does.
   */
  function UpdateAssignments(
    title: Option<string>, description: Option<string>, status: Option<string>, priority: Option<string>,
    categoryId: Option<int>, assignedTo: Option<Value>, resolvedStamp: string, updatedStamp: string): (r: seq<Assignment>)
    ensures r != [] && r[|r| - 1] == Assignment("updated_at", Text(updatedStamp))
  {
    OptionalAssignment("title", TextValue(title)) + OptionalAssignment("description", TextValue(description)) +
    StatusAssignments(status, resolvedStamp) + OptionalAssignment("priority", TextValue(priority)) +
    OptionalAssignment("category_id", IntValue(categoryId)) + OptionalAssignment("assigned_to", assignedTo) +
    [Assignment("updated_at", Text(updatedStamp))]
  }

  /** The status assignment and, for `resolved`, the `resolved_at` one right after it. */
  method AddStatus(updates: seq<Fragment>, params: seq<Value>, ghost done: seq<Assignment>,
                   status: Option<string>, resolvedStamp: string)
    returns (updates': seq<Fragment>, params': seq<Value>)
    requires updates == UpdatesOf(done) && params == ValuesOf(done)
    ensures updates' == UpdatesOf(done + StatusAssignments(status, resolvedStamp))
    ensures params' == ValuesOf(done + StatusAssignments(status, resolvedStamp))
  {
    ExtendAssignments(done, StatusAssignments(status, resolvedStamp));
    updates', params' := updates, params;
    if status.Some? {
      updates' := updates' + [[Lit("status"), Lit(" = "), Hole]];
      params' := params' + [Text(status.value)];
      if status.value == "resolved" {
        updates' := updates' + [[Lit("resolved_at"), Lit(" = "), Hole]];
        params' := params' + [Text(resolvedStamp)];
      }
    }
  }

  /**
   * `Ticket.update(ticket_id, ...)`: one assignment per argument that is
   * not None, `resolved_at` right after a `resolved` status, `updated_at`
   * always last, and the ticket id as the final value.
   */
  method Update(
    ticketId: int, title: Option<string>, description: Option<string>, status: Option<string>,
    priority: Option<string>, categoryId: Option<int>, assignedTo: Option<Value>,
    resolvedStamp: string, updatedStamp: string)
    returns (query: Fragment, params: seq<Value>)
    ensures var sets := UpdateAssignments(title, description, status, priority, categoryId, assignedTo, resolvedStamp, updatedStamp);
      query == UpdateText(sets) && params == ValuesOf(sets) + [Int(ticketId)]
    ensures Holes(query) == |params|
  {
    var updates: seq<Fragment>;
    ghost var done: seq<Assignment> := [];
    updates, params := AddIfSet([], [], done, "title", TextValue(title));
    done := OptionalAssignment("title", TextValue(title));
    assert [] + done == done;
    updates, params := AddIfSet(updates, params, done, "description", TextValue(description));
    done := done + OptionalAssignment("description", TextValue(description));
    updates, params := AddStatus(updates, params, done, status, resolvedStamp);
    done := done + StatusAssignments(status, resolvedStamp);
    updates, params := AddIfSet(updates, params, done, "priority", TextValue(priority));
    done := done + OptionalAssignment("priority", TextValue(priority));
    updates, params := AddIfSet(updates, params, done, "category_id", IntValue(categoryId));
    done := done + OptionalAssignment("category_id", IntValue(categoryId));
    updates, params := AddIfSet(updates, params, done, "assigned_to", assignedTo);
    done := done + OptionalAssignment("assigned_to", assignedTo);
    ghost var last := [Assignment("updated_at", Text(updatedStamp))];
    SingleAssignment("updated_at", Text(updatedStamp));
    ExtendAssignments(done, last);
    updates := updates + [[Lit("updated_at"), Lit(" = "), Hole]];
    params := params + [Text(updatedStamp)];
    done := done + last;
    assert done == UpdateAssignments(title, description, status, priority, categoryId, assignedTo, resolvedStamp, updatedStamp);
    assert updates == UpdatesOf(done);
    params := params + [Int(ticketId)];
    query := [Lit("UPDATE tickets SET ")] + Join(updates, ", ") + [Lit(" WHERE id = "), Hole];
    UpdateStatementHoles("UPDATE tickets SET ", done);
  }

  /** The position of a column in the fixed order of `update`. */
  function ColumnRank(column: string): (r: nat)
    ensures column in UpdateColumns ==> r < |UpdateColumns| && UpdateColumns[r] == column
  {
    if column == "title" then 0
    else if column == "description" then 1
    else if column == "status" then 2
    else if column == "resolved_at" then 3
    else if column == "priority" then 4
    else if column == "category_id" then 5
    else if column == "assigned_to" then 6
    else 7
  }

  /** Columns appear in strictly increasing position, so none twice. */
  predicate InColumnOrder(sets: seq<Assignment>) {
    forall i, j | 0 <= i < j < |sets| :: ColumnRank(sets[i].column) < ColumnRank(sets[j].column)
  }

  /** Every column `update` sets has a rank in the given range. */
  predicate RanksWithin(sets: seq<Assignment>, lo: nat, hi: nat) {
    forall x | x in sets :: lo <= ColumnRank(x.column) <= hi
  }

  /** Two ordered runs, the second ranked above the first, make one ordered run. */
  lemma OrderAppend(a: seq<Assignment>, b: seq<Assignment>, k: nat)
    requires InColumnOrder(a) && InColumnOrder(b)
    requires RanksWithin(a, 0, k) && RanksWithin(b, k + 1, 7)
    ensures InColumnOrder(a + b) && RanksWithin(a + b, 0, 7)
  {
    forall i, j | 0 <= i < j < |a + b|
      ensures ColumnRank((a + b)[i].column) < ColumnRank((a + b)[j].column)
    {
      if j < |a| {
        assert (a + b)[i] == a[i] && (a + b)[j] == a[j];
      } else if i >= |a| {
        assert (a + b)[i] == b[i - |a|] && (a + b)[j] == b[j - |a|];
      } else {
        assert (a + b)[i] in a && (a + b)[j] in b;
      }
    }
  }

  lemma ColumnRanks()
    ensures ColumnRank("title") == 0 && ColumnRank("description") == 1
    ensures ColumnRank("status") == 2 && ColumnRank("resolved_at") == 3
    ensures ColumnRank("priority") == 4 && ColumnRank("category_id") == 5
    ensures ColumnRank("assigned_to") == 6 && ColumnRank("updated_at") == 7
  {
  }

  /** Each piece of `update`'s assignments sets only the columns of its own position. */
  lemma PieceRanks(
    title: Option<string>, description: Option<string>, status: Option<string>, priority: Option<string>,
    categoryId: Option<int>, assignedTo: Option<Value>, resolvedStamp: string, updatedStamp: string)
    ensures RanksWithin(OptionalAssignment("title", TextValue(title)), 0, 0)
    ensures RanksWithin(OptionalAssignment("description", TextValue(description)), 1, 1)
    ensures RanksWithin(StatusAssignments(status, resolvedStamp), 2, 3)
    ensures InColumnOrder(StatusAssignments(status, resolvedStamp))
    ensures RanksWithin(OptionalAssignment("priority", TextValue(priority)), 4, 4)
    ensures RanksWithin(OptionalAssignment("category_id", IntValue(categoryId)), 5, 5)
    ensures RanksWithin(OptionalAssignment("assigned_to", assignedTo), 6, 6)
    ensures RanksWithin([Assignment("updated_at", Text(updatedStamp))], 7, 7)
  {
    ColumnRanks();
    OptionalRanksWithin("title", TextValue(title));
    OptionalRanksWithin("description", TextValue(description));
    OptionalRanksWithin("priority", TextValue(priority));
    OptionalRanksWithin("category_id", IntValue(categoryId));
    OptionalRanksWithin("assigned_to", assignedTo);
    StatusRanksWithin(status, resolvedStamp);
  }

  /** An optional assignment sets only its own column, at most once. */
  lemma OptionalRanksWithin(column: string, v: Option<Value>)
    ensures RanksWithin(OptionalAssignment(column, v), ColumnRank(column), ColumnRank(column))
    ensures InColumnOrder(OptionalAssignment(column, v))
  {
  }

  /** Seven ordered pieces, each ranked above the one before, make one ordered run. */
  lemma OrderPieces(t: seq<Assignment>, d: seq<Assignment>, st: seq<Assignment>, p: seq<Assignment>,
                    c: seq<Assignment>, a: seq<Assignment>, u: seq<Assignment>)
    requires InColumnOrder(t) && InColumnOrder(d) && InColumnOrder(st) && InColumnOrder(p)
    requires InColumnOrder(c) && InColumnOrder(a) && InColumnOrder(u)
    requires RanksWithin(t, 0, 0) && RanksWithin(d, 1, 1) && RanksWithin(st, 2, 3) && RanksWithin(p, 4, 4)
    requires RanksWithin(c, 5, 5) && RanksWithin(a, 6, 6) && RanksWithin(u, 7, 7)
    ensures InColumnOrder(t + d + st + p + c + a + u)
  {
    OrderAppend(t, d, 0);
    assert RanksWithin(t + d, 0, 1);
    OrderAppend(t + d, st, 1);
    assert RanksWithin(t + d + st, 0, 3);
    OrderAppend(t + d + st, p, 3);
    assert RanksWithin(t + d + st + p, 0, 4);
    OrderAppend(t + d + st + p, c, 4);
    assert RanksWithin(t + d + st + p + c, 0, 5);
    OrderAppend(t + d + st + p + c, a, 5);
    assert RanksWithin(t + d + st + p + c + a, 0, 6);
    OrderAppend(t + d + st + p + c + a, u, 6);
  }

  /** The status piece sets `status` and then possibly `resolved_at`, ranks 2 and 3 in that order. */
  lemma StatusRanksWithin(status: Option<string>, resolvedStamp: string)
    ensures RanksWithin(StatusAssignments(status, resolvedStamp), 2, 3)
    ensures InColumnOrder(StatusAssignments(status, resolvedStamp))
  {
    ColumnRanks();
  }

  /**
   * `update` sets its columns in the fixed order title, description,
   * status, resolved_at, priority, category_id, assigned_to, updated_at,
   * each at most once, and `updated_at` with the second clock reading last.
   */
  lemma UpdateOrder(
    title: Option<string>, description: Option<string>, status: Option<string>, priority: Option<string>,
    categoryId: Option<int>, assignedTo: Option<Value>, resolvedStamp: string, updatedStamp: string)
    ensures var sets := UpdateAssignments(title, description, status, priority, categoryId, assignedTo, resolvedStamp, updatedStamp);
      InColumnOrder(sets) && sets[|sets| - 1] == Assignment("updated_at", Text(updatedStamp))
  {
    var t := OptionalAssignment("title", TextValue(title));
    var d := OptionalAssignment("description", TextValue(description));
    var st := StatusAssignments(status, resolvedStamp);
    var p := OptionalAssignment("priority", TextValue(priority));
    var c := OptionalAssignment("category_id", IntValue(categoryId));
    var a := OptionalAssignment("assigned_to", assignedTo);
    var u := [Assignment("updated_at", Text(updatedStamp))];
    PieceRanks(title, description, status, priority, categoryId, assignedTo, resolvedStamp, updatedStamp);
    OptionalRanksWithin("title", TextValue(title));
    OptionalRanksWithin("description", TextValue(description));
    OptionalRanksWithin("priority", TextValue(priority));
    OptionalRanksWithin("category_id", IntValue(categoryId));
    OptionalRanksWithin("assigned_to", assignedTo);
    OrderPieces(t, d, st, p, c, a, u);
  }

  /** The positions, in the order of `update`, of the columns a run of assignments sets. */
  function RankSet(sets: seq<Assignment>): set<nat> {
    set x | x in sets :: ColumnRank(x.column)
  }

  /** `{k}` when `present`, otherwise nothing. */
  function Opt(present: bool, k: nat): set<nat> {
    if present then {k} else {}
  }

  lemma RankSetAppend(a: seq<Assignment>, b: seq<Assignment>)
    ensures RankSet(a + b) == RankSet(a) + RankSet(b)
  {
  }

  lemma OptionalRanks(column: string, v: Option<Value>)
    ensures RankSet(OptionalAssignment(column, v)) == Opt(v.Some?, ColumnRank(column))
  {
  }

  lemma StatusRanks(status: Option<string>, resolvedStamp: string)
    ensures RankSet(StatusAssignments(status, resolvedStamp)) == Opt(status.Some?, 2) + Opt(status == Some("resolved"), 3)
  {
    ColumnRanks();
  }

  /** Below `updated_at`, a rank names exactly one column. */
  lemma RankNamesColumn(x: string, column: string)
    requires ColumnRank(x) == ColumnRank(column) < 7
    ensures x == column
  {
  }

  /** A column ranked before `updated_at` is set exactly when its rank is among the ranks. */
  lemma RankedColumn(sets: seq<Assignment>, column: string)
    requires ColumnRank(column) < 7
    ensures column in ColumnsOf(sets) <==> ColumnRank(column) in RankSet(sets)
  {
    var cols := ColumnsOf(sets);
    if column in cols {
      var i :| 0 <= i < |cols| && cols[i] == column;
      assert sets[i] in sets;
    }
    if ColumnRank(column) in RankSet(sets) {
      var x :| x in sets && ColumnRank(x.column) == ColumnRank(column);
      RankNamesColumn(x.column, column);
      var i :| 0 <= i < |sets| && sets[i] == x;
      assert cols[i] == column;
    }
  }

  /** A rank below 7 is among the ranks of `update`'s pieces exactly when its own piece is present. */
  lemma InPieceRanks(b0: bool, b1: bool, b2: bool, b3: bool, b4: bool, b5: bool, b6: bool, k: nat)
    requires k < 7
    ensures k in Opt(b0, 0) + Opt(b1, 1) + (Opt(b2, 2) + Opt(b3, 3)) + Opt(b4, 4) + Opt(b5, 5) + Opt(b6, 6) + {7}
      <==> (k == 0 && b0) || (k == 1 && b1) || (k == 2 && b2) || (k == 3 && b3) || (k == 4 && b4) || (k == 5 && b5) || (k == 6 && b6)
  {
  }

  /** The ranks of the columns `update` sets: one per argument given, 3 after a `resolved` status, 7 always. */
  lemma UpdateRanksListed(
    title: Option<string>, description: Option<string>, status: Option<string>, priority: Option<string>,
    categoryId: Option<int>, assignedTo: Option<Value>, resolvedStamp: string, updatedStamp: string)
    ensures RankSet(UpdateAssignments(title, description, status, priority, categoryId, assignedTo, resolvedStamp, updatedStamp))
      == Opt(title.Some?, 0) + Opt(description.Some?, 1) + (Opt(status.Some?, 2) + Opt(status == Some("resolved"), 3))
       + Opt(priority.Some?, 4) + Opt(categoryId.Some?, 5) + Opt(assignedTo.Some?, 6) + {7}
  {
    var t := OptionalAssignment("title", TextValue(title));
    var d := OptionalAssignment("description", TextValue(description));
    var st := StatusAssignments(status, resolvedStamp);
    var p := OptionalAssignment("priority", TextValue(priority));
    var c := OptionalAssignment("category_id", IntValue(categoryId));
    var a := OptionalAssignment("assigned_to", assignedTo);
    var u := [Assignment("updated_at", Text(updatedStamp))];
    ColumnRanks();
    OptionalRanks("title", TextValue(title));
    OptionalRanks("description", TextValue(description));
    OptionalRanks("priority", TextValue(priority));
    OptionalRanks("category_id", IntValue(categoryId));
    OptionalRanks("assigned_to", assignedTo);
    StatusRanks(status, resolvedStamp);
    RankSetAppend(t, d);
    RankSetAppend(t + d, st);
    RankSetAppend(t + d + st, p);
    RankSetAppend(t + d + st + p, c);
    RankSetAppend(t + d + st + p + c, a);
    RankSetAppend(t + d + st + p + c + a, u);
    assert RankSet(t) == Opt(title.Some?, 0);
    assert RankSet(d) == Opt(description.Some?, 1);
    assert RankSet(p) == Opt(priority.Some?, 4);
    assert RankSet(c) == Opt(categoryId.Some?, 5);
    assert RankSet(a) == Opt(assignedTo.Some?, 6);
    UpdatedAtRank(updatedStamp);
  }

  lemma UpdatedAtRank(stamp: string)
    ensures RankSet([Assignment("updated_at", Text(stamp))]) == {7}
  {
    ColumnRanks();
  }

  /** A column of rank `k` below 7 is set by `update` exactly when the argument of that rank is given. */
  lemma UpdateSets(
    title: Option<string>, description: Option<string>, status: Option<string>, priority: Option<string>,
    categoryId: Option<int>, assignedTo: Option<Value>, resolvedStamp: string, updatedStamp: string, column: string)
    requires ColumnRank(column) < 7
    ensures var k := ColumnRank(column);
      column in ColumnsOf(UpdateAssignments(title, description, status, priority, categoryId, assignedTo, resolvedStamp, updatedStamp))
      <==> ((k == 0 && title.Some?) || (k == 1 && description.Some?) || (k == 2 && status.Some?)
           || (k == 3 && status == Some("resolved")) || (k == 4 && priority.Some?) || (k == 5 && categoryId.Some?)
           || (k == 6 && assignedTo.Some?))
  {
    UpdateRanksListed(title, description, status, priority, categoryId, assignedTo, resolvedStamp, updatedStamp);
    RankedColumn(UpdateAssignments(title, description, status, priority, categoryId, assignedTo, resolvedStamp, updatedStamp), column);
    InPieceRanks(title.Some?, description.Some?, status.Some?, status == Some("resolved"),
                 priority.Some?, categoryId.Some?, assignedTo.Some?, ColumnRank(column));
  }

  /** `title`, `description` and `priority` are set exactly when given. */
  lemma TextColumnsPresent(
    title: Option<string>, description: Option<string>, status: Option<string>, priority: Option<string>,
    categoryId: Option<int>, assignedTo: Option<Value>, resolvedStamp: string, updatedStamp: string)
    ensures var cols := ColumnsOf(UpdateAssignments(title, description, status, priority, categoryId, assignedTo, resolvedStamp, updatedStamp));
      && ("title" in cols <==> title.Some?)
      && ("description" in cols <==> description.Some?)
      && ("priority" in cols <==> priority.Some?)
  {
    ColumnRanks();
    UpdateSets(title, description, status, priority, categoryId, assignedTo, resolvedStamp, updatedStamp, "title");
    UpdateSets(title, description, status, priority, categoryId, assignedTo, resolvedStamp, updatedStamp, "description");
    UpdateSets(title, description, status, priority, categoryId, assignedTo, resolvedStamp, updatedStamp, "priority");
  }

  /** `status` is set exactly when given, and `resolved_at` exactly when it is `resolved`. */
  lemma StatusColumnsPresent(
    title: Option<string>, description: Option<string>, status: Option<string>, priority: Option<string>,
    categoryId: Option<int>, assignedTo: Option<Value>, resolvedStamp: string, updatedStamp: string)
    ensures var cols := ColumnsOf(UpdateAssignments(title, description, status, priority, categoryId, assignedTo, resolvedStamp, updatedStamp));
      && ("status" in cols <==> status.Some?)
      && ("resolved_at" in cols <==> status == Some("resolved"))
  {
    ColumnRanks();
    UpdateSets(title, description, status, priority, categoryId, assignedTo, resolvedStamp, updatedStamp, "status");
    UpdateSets(title, description, status, priority, categoryId, assignedTo, resolvedStamp, updatedStamp, "resolved_at");
  }

  /** `category_id` and `assigned_to` are set exactly when given. */
  lemma IdColumnsPresent(
    title: Option<string>, description: Option<string>, status: Option<string>, priority: Option<string>,
    categoryId: Option<int>, assignedTo: Option<Value>, resolvedStamp: string, updatedStamp: string)
    ensures var cols := ColumnsOf(UpdateAssignments(title, description, status, priority, categoryId, assignedTo, resolvedStamp, updatedStamp));
      && ("category_id" in cols <==> categoryId.Some?)
      && ("assigned_to" in cols <==> assignedTo.Some?)
  {
    ColumnRanks();
    UpdateSets(title, description, status, priority, categoryId, assignedTo, resolvedStamp, updatedStamp, "category_id");
    UpdateSets(title, description, status, priority, categoryId, assignedTo, resolvedStamp, updatedStamp, "assigned_to");
  }

  /** When the new status is `resolved`, `resolved_at` comes right after `status`. */
  lemma ResolvedAfterStatus(
    title: Option<string>, description: Option<string>, priority: Option<string>,
    categoryId: Option<int>, assignedTo: Option<Value>, resolvedStamp: string, updatedStamp: string)
    ensures var sets := UpdateAssignments(title, description, Some("resolved"), priority, categoryId, assignedTo, resolvedStamp, updatedStamp);
      exists i | 0 <= i < |sets| - 1 :: sets[i] == Assignment("status", Text("resolved")) && sets[i + 1] == Assignment("resolved_at", Text(resolvedStamp))
  {
    var sets := UpdateAssignments(title, description, Some("resolved"), priority, categoryId, assignedTo, resolvedStamp, updatedStamp);
    var pre := OptionalAssignment("title", TextValue(title)) + OptionalAssignment("description", TextValue(description));
    var k := |pre|;
    assert sets[k] == Assignment("status", Text("resolved"));
    assert sets[k + 1] == Assignment("resolved_at", Text(resolvedStamp));
  }
}

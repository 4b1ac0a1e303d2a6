/**
 * The ticket pages: who may see and change a ticket, what a new ticket,
 * an edit, a comment and a status change must carry, and what reaches the
 * database when they pass. Each handler is a function from the signed-in
 * user, the ticket as loaded (None when there is no such ticket) and the
 * form to an outcome; rendering, flashing and redirects are left out.
 */
module Tickets {
  import opened Wrappers
  import opened PyText
  import opened Sql
  import TicketQueries

  /** The signed-in user. */
  datatype Viewer = Viewer(id: int, isAdmin: bool)

  /** The two columns of a ticket that decide access. */
  datatype TicketRef = TicketRef(createdBy: int, assignedTo: Option<int>)

  /** Access: an admin, the ticket's creator or its assignee. */
  predicate MayAccess(v: Viewer, t: TicketRef) {
    v.isAdmin || t.createdBy == v.id || t.assignedTo == Some(v.id)
  }

  /** The guard the view, edit, comment and status handlers repeat. */
  function Refused(v: Viewer, t: TicketRef): (r: bool)
    ensures r <==> !MayAccess(v, t)
  {
    !v.isAdmin && t.createdBy != v.id && t.assignedTo != Some(v.id)
  }

  /** `request.form.get(name, '').strip()`. */
  function FormText(field: Option<string>): string {
    Strip(if field.None? then "" else field.value)
  }

  // ---------------------------------------------------------------------
  // ticket_list
  // ---------------------------------------------------------------------

  /** The role and id the list asks `Ticket.get_all` for. */
  function ListScope(v: Viewer): (Option<string>, Option<int>) {
    if v.isAdmin then (Some("admin"), None) else (Some("agent"), Some(v.id))
  }

  /**
   * The list an admin sees is filtered by nothing but the filters; any
   * other user's list is restricted first to the tickets they created or
   * are assigned, their id bound to both places.
   */
  lemma ListScopeOwnership(v: Viewer, filters: TicketQueries.Filters)
    ensures var (role, uid) := ListScope(v);
      var conds := TicketQueries.Conditions(role, uid, filters);
      && (v.isAdmin ==> conds == TicketQueries.FilterClauses(filters))
      && (!v.isAdmin ==> conds[0] == TicketQueries.OwnershipClause(Some(v.id)) && ArgsOf(conds)[..2] == [Int(v.id), Int(v.id)])
  {
    var (role, uid) := ListScope(v);
    TicketQueries.OwnershipFirst(role, uid, filters);
  }

  // ---------------------------------------------------------------------
  // ticket_detail
  // ---------------------------------------------------------------------

  datatype ViewOutcome = ViewNotFound | ViewRefused | Viewed

  /** `ticket_detail`: an existing ticket, shown only to those who may access it. */
  function ViewTicket(v: Viewer, ticket: Option<TicketRef>): (r: ViewOutcome)
    ensures r == Viewed <==> ticket.Some? && MayAccess(v, ticket.value)
    ensures r == ViewNotFound <==> ticket.None?
  {
    if ticket.None? then ViewNotFound
    else if Refused(v, ticket.value) then ViewRefused
    else Viewed
  }

  // ---------------------------------------------------------------------
  // create_ticket
  // ---------------------------------------------------------------------

  /** The fields a form may carry; a field that is absent is None. */
  datatype TicketForm = TicketForm(
    title: Option<string>, description: Option<string>, status: Option<string>, priority: Option<string>,
    categoryId: Option<string>, assignedTo: Option<string>)

  /** The arguments of `Ticket.create`; `assignedTo` as bound, NULL for None. */
  datatype NewTicket = NewTicket(title: string, description: string, priority: string,
                                 categoryId: Option<int>, createdBy: int, assignedTo: Value)

  datatype CreateOutcome = CreateRejected | Created(ticket: NewTicket) | CreateFailed

  /** `int(x)` of a truthy field, None for a falsy one; the outer None is the ValueError. */
  function OptionalInt(field: Option<string>, toInt: string -> Option<int>): Option<Option<int>> {
    if !Truthy(field) then Some(None)
    else if toInt(field.value).None? then None
    else Some(Some(toInt(field.value).value))
  }

  /**
   * An admin's assignee that `int` cannot read: the one conversion of the
   * assignee that raises, in both the create and the edit handler.
   */
  predicate AssigneeUnreadable(v: Viewer, field: Option<string>, toInt: string -> Option<int>) {
    v.isAdmin && field.Some? && field.value != [] && toInt(field.value).None?
  }

  /**
   * `create_ticket`: the stripped title and description must both be
   * non-empty; a non-admin's assignee is dropped; an admin's is converted
   * to a number when truthy and passed on as it is otherwise, so an empty
   * choice is stored as the empty string. `toInt` is Python's `int` on a
   * string, None where it raises.
   */
  function CreateTicket(v: Viewer, form: TicketForm, toInt: string -> Option<int>): (r: CreateOutcome)
    ensures r.Created? ==> r.ticket.title != [] && r.ticket.description != [] && r.ticket.createdBy == v.id
    ensures r.Created? ==> r.ticket.title == FormText(form.title) && r.ticket.description == FormText(form.description)
    ensures FormText(form.title) == [] || FormText(form.description) == [] ==> r == CreateRejected
    ensures r.Created? && !v.isAdmin ==> r.ticket.assignedTo == Null
    ensures r.Created? ==> r.ticket.priority == (if form.priority.None? then "medium" else form.priority.value)
    ensures r == CreateRejected <==> FormText(form.title) == [] || FormText(form.description) == []
    ensures r.Created? <==>
      && FormText(form.title) != [] && FormText(form.description) != []
      && OptionalInt(form.categoryId, toInt).Some?
      && !AssigneeUnreadable(v, form.assignedTo, toInt)
    ensures r.Created? ==> r.ticket.categoryId == OptionalInt(form.categoryId, toInt).value
    ensures r.Created? && v.isAdmin ==>
      && (form.assignedTo.None? ==> r.ticket.assignedTo == Null)
      && (form.assignedTo == Some([]) ==> r.ticket.assignedTo == Text([]))
      && (form.assignedTo.Some? && form.assignedTo.value != [] ==>
            r.ticket.assignedTo == Int(toInt(form.assignedTo.value).value))
  {
    var title, description := FormText(form.title), FormText(form.description);
    var priority := if form.priority.None? then "medium" else form.priority.value;
    var assignee := if v.isAdmin then form.assignedTo else None;
    if title == [] || description == [] then CreateRejected
    else
      var category := OptionalInt(form.categoryId, toInt);
      if category.None? then CreateFailed
      else if assignee.None? then Created(NewTicket(title, description, priority, category.value, v.id, Null))
      else if assignee.value == [] then Created(NewTicket(title, description, priority, category.value, v.id, Text([])))
      else if toInt(assignee.value).None? then CreateFailed
      else Created(NewTicket(title, description, priority, category.value, v.id, Int(toInt(assignee.value).value)))
  }

  /** An admin who leaves the assignee empty stores the empty string, not NULL, as the assignee. */
  lemma AdminEmptyAssigneeStoredAsText(v: Viewer, form: TicketForm, toInt: string -> Option<int>)
    requires v.isAdmin && form.assignedTo == Some([])
    requires FormText(form.title) != [] && FormText(form.description) != []
    requires OptionalInt(form.categoryId, toInt).Some?
    ensures CreateTicket(v, form, toInt).Created?
    ensures CreateTicket(v, form, toInt).ticket.assignedTo == Text([])
  {
  }

  // ---------------------------------------------------------------------
  // edit_ticket
  // ---------------------------------------------------------------------

  /** The `assigned_to` argument an edit passes to `Ticket.update`. */
  datatype AssigneeArg = Omitted | Pass(value: Value) | BadNumber

  /**
   * The assignee of an edit as the handler writes it: only an admin's
   * choice counts, and the empty choice becomes None, which
   * `Ticket.update` reads as "leave the column alone".
   */
  function EditAssigneeAsWritten(v: Viewer, field: Option<string>, toInt: string -> Option<int>): (r: AssigneeArg)
    ensures r == BadNumber <==> AssigneeUnreadable(v, field, toInt)
    ensures r == Omitted <==> !v.isAdmin || field.None? || field == Some([])
    ensures r.Pass? ==> r.value == Int(toInt(field.value).value)
  {
    if !v.isAdmin || field.None? then Omitted
    else if field.value == [] then Omitted
    else if toInt(field.value).None? then BadNumber
    else Pass(Int(toInt(field.value).value))
  }

  /**
   * The assignee of an edit as intended: the empty choice clears the
   * assignee with NULL; otherwise as written.
   */
  function EditAssignee(v: Viewer, field: Option<string>, toInt: string -> Option<int>): (r: AssigneeArg)
    ensures v.isAdmin && field == Some([]) ==> r == Pass(Null)
    ensures !v.isAdmin ==> r == Omitted
    ensures field != Some([]) ==> r == EditAssigneeAsWritten(v, field, toInt)
    ensures r == BadNumber <==> AssigneeUnreadable(v, field, toInt)
  {
    if !v.isAdmin || field.None? then Omitted
    else if field.value == [] then Pass(Null)
    else if toInt(field.value).None? then BadNumber
    else Pass(Int(toInt(field.value).value))
  }

  /** The keyword arguments of `Ticket.update` from an edit. */
  datatype TicketEdit = TicketEdit(title: string, description: string, status: Option<string>,
                                   priority: Option<string>, categoryId: Option<int>, assignedTo: Option<Value>)

  datatype EditOutcome = EditNotFound | EditRefused | EditRejected | Edited(edit: TicketEdit) | EditFailed

  function AssigneeValue(a: AssigneeArg): Option<Value> {
    if a.Pass? then Some(a.value) else None
  }

  /**
   * `edit_ticket` on a POST, with the assignee argument already worked out:
   * the ticket must exist and be accessible, the stripped title and
   * description non-empty; then every field goes to `Ticket.update`.
   */
  function EditWith(v: Viewer, ticket: Option<TicketRef>, form: TicketForm, toInt: string -> Option<int>,
                    assignee: AssigneeArg): (r: EditOutcome)
    ensures ticket.None? <==> r == EditNotFound
    ensures r == EditRefused <==> ticket.Some? && !MayAccess(v, ticket.value)
    ensures r.Edited? ==> MayAccess(v, ticket.value)
    ensures r.Edited? ==> r.edit.title == FormText(form.title) != [] && r.edit.description == FormText(form.description) != []
    ensures r.Edited? ==> assignee != BadNumber && r.edit.assignedTo == AssigneeValue(assignee)
    ensures r == EditRejected <==>
      ticket.Some? && MayAccess(v, ticket.value) && (FormText(form.title) == [] || FormText(form.description) == [])
    ensures r.Edited? <==>
      && ticket.Some? && MayAccess(v, ticket.value)
      && FormText(form.title) != [] && FormText(form.description) != []
      && OptionalInt(form.categoryId, toInt).Some? && assignee != BadNumber
    ensures r.Edited? ==>
      && r.edit.status == form.status && r.edit.priority == form.priority
      && r.edit.categoryId == OptionalInt(form.categoryId, toInt).value
  {
    if ticket.None? then EditNotFound
    else if Refused(v, ticket.value) then EditRefused
    else
      var title, description := FormText(form.title), FormText(form.description);
      if title == [] || description == [] then EditRejected
      else
        var category := OptionalInt(form.categoryId, toInt);
        if category.None? || assignee.BadNumber? then EditFailed
        else Edited(TicketEdit(title, description, form.status, form.priority, category.value, AssigneeValue(assignee)))
  }

  /**
   * `edit_ticket` as written: the assignee only from an admin, and an
   * admin's empty choice passes None, so no assignee is sent at all.
   */
  function EditTicketAsWritten(v: Viewer, ticket: Option<TicketRef>, form: TicketForm, toInt: string -> Option<int>): (r: EditOutcome)
    ensures ticket.None? <==> r == EditNotFound
    ensures r == EditRefused <==> ticket.Some? && !MayAccess(v, ticket.value)
    ensures r.Edited? ==> MayAccess(v, ticket.value)
    ensures r.Edited? ==> r.edit.title == FormText(form.title) != [] && r.edit.description == FormText(form.description) != []
    ensures r.Edited? && !v.isAdmin ==> r.edit.assignedTo.None?
    ensures r.Edited? && form.assignedTo == Some([]) ==> r.edit.assignedTo.None?
    ensures r == EditRejected <==>
      ticket.Some? && MayAccess(v, ticket.value) && (FormText(form.title) == [] || FormText(form.description) == [])
    ensures r.Edited? <==>
      && ticket.Some? && MayAccess(v, ticket.value)
      && FormText(form.title) != [] && FormText(form.description) != []
      && OptionalInt(form.categoryId, toInt).Some? && !AssigneeUnreadable(v, form.assignedTo, toInt)
    ensures r.Edited? ==>
      && r.edit.status == form.status && r.edit.priority == form.priority
      && r.edit.categoryId == OptionalInt(form.categoryId, toInt).value
    ensures r.Edited? && v.isAdmin && form.assignedTo.Some? && form.assignedTo.value != [] ==>
      r.edit.assignedTo == Some(Int(toInt(form.assignedTo.value).value))
  {
    EditWith(v, ticket, form, toInt, EditAssigneeAsWritten(v, form.assignedTo, toInt))
  }

  /**
   * `edit_ticket` with the assignee corrected: the same checks and fields,
   * but an admin's empty choice clears the assignee with NULL.
   */
  function EditTicket(v: Viewer, ticket: Option<TicketRef>, form: TicketForm, toInt: string -> Option<int>): (r: EditOutcome)
    ensures ticket.None? <==> r == EditNotFound
    ensures r == EditRefused <==> ticket.Some? && !MayAccess(v, ticket.value)
    ensures r.Edited? ==> MayAccess(v, ticket.value)
    ensures r.Edited? ==> r.edit.title == FormText(form.title) != [] && r.edit.description == FormText(form.description) != []
    ensures r.Edited? && !v.isAdmin ==> r.edit.assignedTo.None?
    ensures r.Edited? && v.isAdmin && form.assignedTo == Some([]) ==> r.edit.assignedTo == Some(Null)
    ensures r == EditRejected <==>
      ticket.Some? && MayAccess(v, ticket.value) && (FormText(form.title) == [] || FormText(form.description) == [])
    ensures r.Edited? <==>
      && ticket.Some? && MayAccess(v, ticket.value)
      && FormText(form.title) != [] && FormText(form.description) != []
      && OptionalInt(form.categoryId, toInt).Some? && !AssigneeUnreadable(v, form.assignedTo, toInt)
    ensures r.Edited? ==>
      && r.edit.status == form.status && r.edit.priority == form.priority
      && r.edit.categoryId == OptionalInt(form.categoryId, toInt).value
    ensures r.Edited? && v.isAdmin && form.assignedTo.Some? && form.assignedTo.value != [] ==>
      r.edit.assignedTo == Some(Int(toInt(form.assignedTo.value).value))
  {
    EditWith(v, ticket, form, toInt, EditAssignee(v, form.assignedTo, toInt))
  }

  /** The corrected handler differs from the written one only on an admin's empty assignee. */
  lemma EditTicketCorrectsOnlyUnassign(v: Viewer, ticket: Option<TicketRef>, form: TicketForm, toInt: string -> Option<int>)
    ensures !(v.isAdmin && form.assignedTo == Some([])) ==>
      EditTicket(v, ticket, form, toInt) == EditTicketAsWritten(v, ticket, form, toInt)
    ensures v.isAdmin && form.assignedTo == Some([]) && EditTicketAsWritten(v, ticket, form, toInt).Edited? ==>
      EditTicket(v, ticket, form, toInt) == Edited(EditTicketAsWritten(v, ticket, form, toInt).edit.(assignedTo := Some(Null)))
  {
  }

  /** The assignments `Ticket.update` makes for an edit, the clock read twice. */
  function EditAssignments(e: TicketEdit, resolvedStamp: string, updatedStamp: string): seq<Assignment> {
    TicketQueries.UpdateAssignments(Some(e.title), Some(e.description), e.status, e.priority,
                                    e.categoryId, e.assignedTo, resolvedStamp, updatedStamp)
  }

  /**
   * As written, an admin who empties the assignee of a ticket changes
   * nothing: the update sets no `assigned_to` at all.
   */
  lemma UnassignIsLost(v: Viewer, ticket: Option<TicketRef>, form: TicketForm, toInt: string -> Option<int>,
                       resolvedStamp: string, updatedStamp: string)
    requires v.isAdmin && form.assignedTo == Some([])
    requires EditTicketAsWritten(v, ticket, form, toInt).Edited?
    ensures "assigned_to" !in ColumnsOf(EditAssignments(EditTicketAsWritten(v, ticket, form, toInt).edit, resolvedStamp, updatedStamp))
  {
    var e := EditTicketAsWritten(v, ticket, form, toInt).edit;
    TicketQueries.IdColumnsPresent(Some(e.title), Some(e.description), e.status, e.priority,
                                   e.categoryId, e.assignedTo, resolvedStamp, updatedStamp);
  }

  /** As intended, emptying the assignee sets `assigned_to` to NULL. */
  lemma UnassignClears(v: Viewer, ticket: Option<TicketRef>, form: TicketForm, toInt: string -> Option<int>,
                       resolvedStamp: string, updatedStamp: string)
    requires v.isAdmin && form.assignedTo == Some([])
    requires EditTicket(v, ticket, form, toInt).Edited?
    ensures Assignment("assigned_to", Null) in EditAssignments(EditTicket(v, ticket, form, toInt).edit, resolvedStamp, updatedStamp)
  {
    var e := EditTicket(v, ticket, form, toInt).edit;
    var sets := EditAssignments(e, resolvedStamp, updatedStamp);
    TicketQueries.IdColumnsPresent(Some(e.title), Some(e.description), e.status, e.priority,
                                   e.categoryId, e.assignedTo, resolvedStamp, updatedStamp);
    var cols := ColumnsOf(sets);
    var i :| 0 <= i < |cols| && cols[i] == "assigned_to";
    TicketQueries.PieceRanks(Some(e.title), Some(e.description), e.status, e.priority,
                             e.categoryId, e.assignedTo, resolvedStamp, updatedStamp);
    AssigneeOnlyFromArgument(e, resolvedStamp, updatedStamp, i);
  }

  /** The only `assigned_to` assignment of an update is the one for the argument. */
  lemma AssigneeOnlyFromArgument(e: TicketEdit, resolvedStamp: string, updatedStamp: string, i: nat)
    requires i < |EditAssignments(e, resolvedStamp, updatedStamp)|
    requires EditAssignments(e, resolvedStamp, updatedStamp)[i].column == "assigned_to"
    ensures e.assignedTo.Some? && EditAssignments(e, resolvedStamp, updatedStamp)[i].value == e.assignedTo.value
  {
    var sets := EditAssignments(e, resolvedStamp, updatedStamp);
    var x := sets[i];
    assert x in sets;
    TicketQueries.ColumnRanks();
    TicketQueries.PieceRanks(Some(e.title), Some(e.description), e.status, e.priority,
                             e.categoryId, e.assignedTo, resolvedStamp, updatedStamp);
    var a := OptionalAssignment("assigned_to", e.assignedTo);
    assert x in a;
  }

  // ---------------------------------------------------------------------
  // delete_ticket, add_comment, update_status, ticket_stats
  // ---------------------------------------------------------------------

  datatype DeleteOutcome = DeleteRefused | DeleteNotFound | Deleted

  /** `delete_ticket`: admins only, checked before the ticket is even looked up. */
  function DeleteTicket(v: Viewer, ticket: Option<TicketRef>): (r: DeleteOutcome)
    ensures r == Deleted <==> v.isAdmin && ticket.Some?
    ensures r == DeleteRefused <==> !v.isAdmin
    ensures r == DeleteNotFound <==> v.isAdmin && ticket.None?
  {
    if !v.isAdmin then DeleteRefused
    else if ticket.None? then DeleteNotFound
    else Deleted
  }

  datatype CommentOutcome = CommentNotFound | CommentRefused | CommentEmpty | Commented(text: string)

  /** `add_comment`: an accessible ticket and a comment that is not blank; stored stripped. */
  function AddComment(v: Viewer, ticket: Option<TicketRef>, comment: Option<string>): (r: CommentOutcome)
    ensures r.Commented? <==> ticket.Some? && MayAccess(v, ticket.value) && FormText(comment) != []
    ensures r.Commented? ==> r.text == FormText(comment)
    ensures r == CommentNotFound <==> ticket.None?
    ensures r == CommentRefused <==> ticket.Some? && !MayAccess(v, ticket.value)
    ensures r == CommentEmpty <==> ticket.Some? && MayAccess(v, ticket.value) && FormText(comment) == []
    ensures ticket.Some? && MayAccess(v, ticket.value) && comment.Some? && IsBlank(comment.value) ==> r == CommentEmpty
  {
    if ticket.None? then CommentNotFound
    else if Refused(v, ticket.value) then CommentRefused
    else
      var text := FormText(comment);
      if text == [] then CommentEmpty else Commented(text)
  }

  /** The statuses a quick status change may set. */
  const Statuses: seq<string> := ["open", "in_progress", "resolved", "closed"]

  datatype StatusOutcome = StatusNotFound | StatusRefused | StatusInvalid | StatusSet(status: string)

  /** `update_status`: an accessible ticket and one of the four statuses, nothing else. */
  function UpdateStatus(v: Viewer, ticket: Option<TicketRef>, newStatus: Option<string>): (r: StatusOutcome)
    ensures r.StatusSet? <==> ticket.Some? && MayAccess(v, ticket.value) && newStatus.Some? && newStatus.value in Statuses
    ensures r.StatusSet? ==> r.status == newStatus.value
    ensures r == StatusNotFound <==> ticket.None?
    ensures r == StatusRefused <==> ticket.Some? && !MayAccess(v, ticket.value)
    ensures r == StatusInvalid <==> ticket.Some? && MayAccess(v, ticket.value) && (newStatus.None? || newStatus.value !in Statuses)
  {
    if ticket.None? then StatusNotFound
    else if Refused(v, ticket.value) then StatusRefused
    else if newStatus.None? || newStatus.value !in Statuses then StatusInvalid
    else StatusSet(newStatus.value)
  }

  /**
   * A quick change to `resolved` also stamps `resolved_at`; the other three
   * statuses do not.
   */
  lemma StatusChangeStamps(v: Viewer, ticket: Option<TicketRef>, newStatus: Option<string>, resolvedStamp: string, updatedStamp: string)
    requires UpdateStatus(v, ticket, newStatus).StatusSet?
    ensures var sets := TicketQueries.UpdateAssignments(None, None, newStatus, None, None, None, resolvedStamp, updatedStamp);
      "resolved_at" in ColumnsOf(sets) <==> newStatus == Some("resolved")
  {
    TicketQueries.StatusColumnsPresent(None, None, newStatus, None, None, None, resolvedStamp, updatedStamp);
  }

  datatype StatsOutcome = StatsForbidden | StatsShown

  /** `ticket_stats`: 403 for anyone but an admin. */
  function TicketStats(v: Viewer): (r: StatsOutcome)
    ensures r == StatsShown <==> v.isAdmin
    ensures r == StatsForbidden <==> !v.isAdmin
  {
    if v.isAdmin then StatsShown else StatsForbidden
  }
}

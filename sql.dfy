/**
 * SQL text with its placeholders kept apart: a statement is a sequence of
 * literal pieces and `?` holes, and the values bound to the holes travel in
 * a separate list, as the builders of the ticket, dashboard and export code
 * keep them.
 */
module Sql {
  import opened Wrappers

  /** A value bound to a placeholder. */
  datatype Value = Null | Int(i: int) | Text(s: string)

  /** A piece of statement text: literal SQL, or one `?` placeholder. */
  datatype Piece = Lit(text: string) | Hole

  type Fragment = seq<Piece>

  /** The number of `?` placeholders in a fragment. */
  function Holes(f: Fragment): (n: nat)
    ensures n <= |f|
    ensures n == 0 <==> forall i | 0 <= i < |f| :: f[i].Lit?
  {
    if f == [] then 0 else (if f[0].Hole? then 1 else 0) + Holes(f[1..])
  }

  lemma {:induction false} HolesAppend(a: Fragment, b: Fragment)
    ensures Holes(a + b) == Holes(a) + Holes(b)
  {
    if a != [] {
      assert (a + b)[1..] == a[1..] + b;
      HolesAppend(a[1..], b);
    } else {
      assert a + b == b;
    }
  }

  /** `sep.join(parts)` on fragments. */
  function Join(parts: seq<Fragment>, sep: string): Fragment {
    if parts == [] then []
    else if |parts| == 1 then parts[0]
    else parts[0] + [Lit(sep)] + Join(parts[1..], sep)
  }

  /** The placeholders of all parts together. */
  function TotalHoles(parts: seq<Fragment>): nat {
    if parts == [] then 0 else Holes(parts[0]) + TotalHoles(parts[1..])
  }

  /** Joining with a literal separator neither adds nor loses placeholders. */
  lemma {:induction false} HolesJoin(parts: seq<Fragment>, sep: string)
    ensures Holes(Join(parts, sep)) == TotalHoles(parts)
  {
    if |parts| > 1 {
      HolesJoin(parts[1..], sep);
      HolesAppend(parts[0] + [Lit(sep)], Join(parts[1..], sep));
      HolesAppend(parts[0], [Lit(sep)]);
    }
  }

  lemma {:induction false} TotalHolesAppend(a: seq<Fragment>, b: seq<Fragment>)
    ensures TotalHoles(a + b) == TotalHoles(a) + TotalHoles(b)
  {
    if a != [] {
      assert (a + b)[1..] == a[1..] + b;
      TotalHolesAppend(a[1..], b);
    } else {
      assert a + b == b;
    }
  }

  /** One condition or assignment together with the values its placeholders take. */
  datatype Clause = Clause(sql: Fragment, args: seq<Value>)

  /** A clause whose placeholders and values are equally many. */
  predicate AlignedClause(c: Clause) {
    Holes(c.sql) == |c.args|
  }

  function SqlOf(cs: seq<Clause>): (r: seq<Fragment>)
    ensures |r| == |cs| && forall i | 0 <= i < |cs| :: r[i] == cs[i].sql
  {
    if cs == [] then [] else [cs[0].sql] + SqlOf(cs[1..])
  }

  function ArgsOf(cs: seq<Clause>): seq<Value> {
    if cs == [] then [] else cs[0].args + ArgsOf(cs[1..])
  }

  lemma {:induction false} ArgsOfAppend(a: seq<Clause>, b: seq<Clause>)
    ensures ArgsOf(a + b) == ArgsOf(a) + ArgsOf(b)
  {
    if a != [] {
      assert (a + b)[1..] == a[1..] + b;
      ArgsOfAppend(a[1..], b);
    } else {
      assert a + b == b;
    }
  }

  /** Clauses that are each aligned are aligned together. */
  lemma {:induction false} AlignedClauses(cs: seq<Clause>)
    requires forall c | c in cs :: AlignedClause(c)
    ensures TotalHoles(SqlOf(cs)) == |ArgsOf(cs)|
  {
    if cs != [] {
      assert SqlOf(cs)[1..] == SqlOf(cs[1..]);
      AlignedClauses(cs[1..]);
      assert AlignedClause(cs[0]);
    }
  }

  /** One `column = ?` assignment of an UPDATE statement, with its value. */
  datatype Assignment = Assignment(column: string, value: Value)

  /** `column = ?`, the column name and the operator kept as two literal pieces. */
  function AssignmentSql(a: Assignment): Fragment {
    [Lit(a.column), Lit(" = "), Hole]
  }

  function UpdatesOf(sets: seq<Assignment>): (r: seq<Fragment>)
    ensures |r| == |sets| && forall i | 0 <= i < |sets| :: r[i] == AssignmentSql(sets[i])
  {
    seq(|sets|, i requires 0 <= i < |sets| => AssignmentSql(sets[i]))
  }

  function ValuesOf(sets: seq<Assignment>): (r: seq<Value>)
    ensures |r| == |sets| && forall i | 0 <= i < |sets| :: r[i] == sets[i].value
  {
    seq(|sets|, i requires 0 <= i < |sets| => sets[i].value)
  }

  function ColumnsOf(sets: seq<Assignment>): (r: seq<string>)
    ensures |r| == |sets| && forall i | 0 <= i < |sets| :: r[i] == sets[i].column
  {
    seq(|sets|, i requires 0 <= i < |sets| => sets[i].column)
  }

  /** A string argument as a bound value, None staying None. */
  function TextValue(v: Option<string>): Option<Value> {
    if v.None? then None else Some(Text(v.value))
  }

  /** An integer argument as a bound value, None staying None. */
  function IntValue(v: Option<int>): Option<Value> {
    if v.None? then None else Some(Int(v.value))
  }

  /** The assignment for an argument, none when the argument is None. */
  function OptionalAssignment(column: string, v: Option<Value>): seq<Assignment> {
    if v.None? then [] else [Assignment(column, v.value)]
  }

  /** `<head><assignments joined by ", "> WHERE id = ?`, the shape of every single-row update. */
  function UpdateStatement(head: string, sets: seq<Assignment>): Fragment {
    [Lit(head)] + Join(UpdatesOf(sets), ", ") + [Lit(" WHERE id = "), Hole]
  }

  /** One placeholder per assignment and one for the row id. */
  lemma UpdateStatementHoles(head: string, sets: seq<Assignment>)
    ensures Holes(UpdateStatement(head, sets)) == |sets| + 1
  {
    var parts := UpdatesOf(sets);
    HolesJoin(parts, ", ");
    PartsHoles(sets);
    HolesAppend([Lit(head)], Join(parts, ", "));
    HolesAppend([Lit(head)] + Join(parts, ", "), [Lit(" WHERE id = "), Hole]);
  }

  lemma AssignmentHoles(a: Assignment)
    ensures Holes(AssignmentSql(a)) == 1
  {
    var f := AssignmentSql(a);
    assert f[1..][1..] == [Hole];
    assert Holes(f[1..][1..]) == 1;
    assert Holes(f[1..]) == 1;
  }

  lemma {:induction false} PartsHoles(sets: seq<Assignment>)
    ensures TotalHoles(UpdatesOf(sets)) == |sets|
  {
    if sets != [] {
      assert UpdatesOf(sets)[1..] == UpdatesOf(sets[1..]);
      PartsHoles(sets[1..]);
      AssignmentHoles(sets[0]);
    }
  }

  /** The statement pieces and values of two runs of assignments, one after the other. */
  lemma ExtendAssignments(done: seq<Assignment>, next: seq<Assignment>)
    ensures UpdatesOf(done) + UpdatesOf(next) == UpdatesOf(done + next)
    ensures ValuesOf(done) + ValuesOf(next) == ValuesOf(done + next)
  {
  }

  /** A single assignment's piece and value. */
  lemma SingleAssignment(column: string, value: Value)
    ensures UpdatesOf([Assignment(column, value)]) == [[Lit(column), Lit(" = "), Hole]]
    ensures ValuesOf([Assignment(column, value)]) == [value]
  {
  }

  /**
   * One `if x is not None: updates.append("x = ?"); params.append(x)` step of
   * an update builder; `done` are the assignments appended so far.
   */
  method AddIfSet(updates: seq<Fragment>, params: seq<Value>, ghost done: seq<Assignment>, column: string, v: Option<Value>)
    returns (updates': seq<Fragment>, params': seq<Value>)
    requires updates == UpdatesOf(done) && params == ValuesOf(done)
    ensures updates' == UpdatesOf(done + OptionalAssignment(column, v))
    ensures params' == ValuesOf(done + OptionalAssignment(column, v))
  {
    ExtendAssignments(done, OptionalAssignment(column, v));
    updates', params' := updates, params;
    if v.Some? {
      updates' := updates' + [[Lit(column), Lit(" = "), Hole]];
      params' := params' + [v.value];
    }
  }

  /** The columns of two runs of assignments, one after the other. */
  lemma ColumnsOfAppend(a: seq<Assignment>, b: seq<Assignment>)
    ensures ColumnsOf(a + b) == ColumnsOf(a) + ColumnsOf(b)
  {
  }

  /** An optional assignment sets its column exactly when the argument is given. */
  lemma OptionalColumns(column: string, v: Option<Value>)
    ensures ColumnsOf(OptionalAssignment(column, v)) == if v.None? then [] else [column]
  {
  }

  lemma Assoc<T>(a: seq<T>, b: seq<T>, c: seq<T>)
    ensures (a + b) + c == a + (b + c)
  {
  }

  /** The statement text and the values of clauses taken together. */
  lemma AppendClauses(a: seq<Clause>, b: seq<Clause>)
    ensures SqlOf(a + b) == SqlOf(a) + SqlOf(b)
    ensures ArgsOf(a + b) == ArgsOf(a) + ArgsOf(b)
  {
    ArgsOfAppend(a, b);
  }

  /** `query += part`, one part after another. */
  function Concat(parts: seq<Fragment>): Fragment {
    if parts == [] then [] else parts[0] + Concat(parts[1..])
  }

  lemma {:induction false} HolesConcat(parts: seq<Fragment>)
    ensures Holes(Concat(parts)) == TotalHoles(parts)
  {
    if parts != [] {
      HolesConcat(parts[1..]);
      HolesAppend(parts[0], Concat(parts[1..]));
    }
  }

  lemma {:induction false} ConcatAppend(a: seq<Fragment>, b: seq<Fragment>)
    ensures Concat(a + b) == Concat(a) + Concat(b)
  {
    if a == [] {
      assert a + b == b;
    } else {
      assert (a + b)[1..] == a[1..] + b;
      ConcatAppend(a[1..], b);
      Assoc(a[0], Concat(a[1..]), Concat(b));
    }
  }
}

/** The processing-step access: the steps in one state, joined with their
    task and partner. */
module StepAccess {
  import opened Wrappers
  import opened Json
  import opened States
  import opened EntityBase
  import opened Entities
  import opened Storage
  import opened AccessBase

  /** A SELECT keeps exactly the rows that meet the WHERE clause and find
      every joined row. */
  lemma {:induction false} SelectExact(ts: Tables, rows: seq<Row>, conds: Conditions, targets: seq<(string, string, string)>)
    ensures forall x :: x in SelectMain(ts, rows, conds, targets) <==> x in rows && Matches(x, conds) && Joinable(ts, x, targets)
  {
    if rows != [] {
      SelectExact(ts, rows[1..], conds, targets);
      assert forall x :: x in rows <==> x == rows[0] || x in rows[1..];
    }
  }

  /** Reading by a non-zero state selects the joinable rows in that state;
      the state 0 reads every row not deleted instead. */
  lemma ByStateSelects(ts: Tables, rows: seq<Row>, state: int, targets: seq<(string, string, string)>)
    ensures forall x :: x in SelectMain(ts, rows, ReadConditions(state, true), targets) <==>
      (&& x in rows && Joinable(ts, x, targets)
       && (if state == 0 then SqlEq(Cell(x, "DELETED"), JInt(0)) else SqlEq(Cell(x, "STATE"), JInt(state))))
  {
    SelectExact(ts, rows, ReadConditions(state, true), targets);
    forall x
      ensures Matches(x, ReadConditions(state, true)) <==>
        (if state == 0 then SqlEq(Cell(x, "DELETED"), JInt(0)) else SqlEq(Cell(x, "STATE"), JInt(state)))
    {
      assert ReadConditions(state, true)[0] == (FilterColumn(state == 0, true), JInt(state));
    }
  }

  /** `read_processing_steps`: `read` by state with joins; whatever it
      counts, the answer is RequestStored. */
  method ReadProcessingSteps(a: DataAccess, state: int, now: int) returns (r: Outcome<State>)
    modifies a
    ensures var n := NameProperty(old(a.cachedName), old(a.data));
      && a.cachedName == n.1
      && (n.0.Raised? ==> r == Raised(n.0.error) && a.data == old(a.data))
      && (n.0.Ok? && n.0.value !in ALLOWED ==> r == Ok(RequestStored) && a.data == old(a.data))
      && (n.0.Ok? && n.0.value in ALLOWED ==>
            var rows := ReadRows(a.codec, a.db.tables, n.0.value, state, false, true, now);
            && (rows.Raised? ==>
                  && r == Raised(rows.error)
                  && a.data == (if ReadReachesSelect(a.codec, n.0.value, state, false, now) then [] else old(a.data)))
            && (rows.Ok? ==>
                  var m := Materialise(Factory(a.codec, n.0.value, now), rows.value);
                  a.data == m.0 && r == (if m.1.None? then Ok(RequestStored) else Raised(m.1.value))))
  {
    var _ :- a.Read(state, false, true, now);
    r := Ok(RequestStored);
  }
}

/** The task access: the duplicate check run before a task is stored, and
    the read of all tasks in one state. */
module TaskAccess {
  import opened Wrappers
  import opened Json
  import opened States
  import opened Entities
  import opened Storage
  import opened AccessBase

  /** Two minutes, in the seconds the time stamps are counted in. */
  const RECENT: int := 120

  /** What one stored duplicate adds to the score: nothing once it was
      published or processed, 1 when it failed, 2 when it was touched less
      than two minutes ago. A time stamp that is not a time cannot be
      subtracted. */
  function Weight(row: DupRow, now: int): (r: Outcome<int>)
    ensures r.Ok? ==> 0 <= r.value <= 2
    ensures r.Raised? ==> r.error == TypeError
  {
    if row.state == JInt(3) || row.state == JInt(4) then Ok(0)
    else if row.state == JInt(5) then Ok(1)
    else if !row.updatedOn.JInt? then Raised(TypeError)
    else if now - row.updatedOn.i < RECENT then Ok(2)
    else Ok(0)
  }

  predicate IsPost(row: DupRow) {
    row.eventMethod == JStr("POST")
  }

  /** The loop of `duplicate_check` from a running total: a duplicate
      posted through a POST event ends it with 100. */
  function Scan(rows: seq<DupRow>, now: int, acc: int): Outcome<int>
  {
    if rows == [] then Ok(acc)
    else if IsPost(rows[0]) then Ok(100)
    else
      var w :- Weight(rows[0], now);
      Scan(rows[1..], now, acc + w)
  }

  /** The sum of the weights, when every row has one. */
  function Total(rows: seq<DupRow>, now: int): Outcome<int>
  {
    if rows == [] then Ok(0)
    else
      var w :- Weight(rows[0], now);
      var rest :- Total(rows[1..], now);
      Ok(w + rest)
  }

  /** Without a POST duplicate the scan adds up the weights. */
  lemma {:induction false} ScanIsTotal(rows: seq<DupRow>, now: int, acc: int)
    requires forall i :: 0 <= i < |rows| ==> !IsPost(rows[i])
    ensures Scan(rows, now, acc).Ok? <==> Total(rows, now).Ok?
    ensures Scan(rows, now, acc).Ok? ==> Scan(rows, now, acc).value == acc + Total(rows, now).value
  {
    if rows != [] && Weight(rows[0], now).Ok? {
      ScanIsTotal(rows[1..], now, acc + Weight(rows[0], now).value);
    }
  }

  /** Each duplicate adds at most 2. */
  lemma {:induction false} TotalBounds(rows: seq<DupRow>, now: int)
    ensures Total(rows, now).Ok? ==> 0 <= Total(rows, now).value <= 2 * |rows|
  {
    if rows != [] {
      TotalBounds(rows[1..], now);
    }
  }

  /** The weights of two lists add up, so without a POST the score does not
      depend on the order the rows come in. */
  lemma {:induction false} TotalAppend(a: seq<DupRow>, b: seq<DupRow>, now: int)
    ensures Total(a + b, now).Ok? <==> Total(a, now).Ok? && Total(b, now).Ok?
    ensures Total(a + b, now).Ok? ==> Total(a + b, now).value == Total(a, now).value + Total(b, now).value
  {
    if a == [] {
      assert a + b == b;
    } else {
      assert (a + b)[0] == a[0] && (a + b)[1..] == a[1..] + b;
      TotalAppend(a[1..], b, now);
    }
  }

  /** A POST duplicate ahead of every failing row makes the score 100. */
  lemma {:induction false} PostFirstIs100(rows: seq<DupRow>, now: int, acc: int, k: int)
    requires 0 <= k < |rows| && IsPost(rows[k])
    requires forall i :: 0 <= i < k ==> !IsPost(rows[i]) && Weight(rows[i], now).Ok?
    ensures Scan(rows, now, acc) == Ok(100)
  {
    if k > 0 {
      PostFirstIs100(rows[1..], now, acc + Weight(rows[0], now).value, k - 1);
    }
  }

  /** The store refuses a task as a conflict when the score passes 5: that
      takes a POST duplicate or at least three duplicates. */
  lemma ConflictNeedsThree(rows: seq<DupRow>, now: int)
    requires Scan(rows, now, 0).Ok? && Scan(rows, now, 0).value > 5
    ensures (exists i :: 0 <= i < |rows| && IsPost(rows[i])) || |rows| >= 3
  {
    if forall i :: 0 <= i < |rows| ==> !IsPost(rows[i]) {
      ScanIsTotal(rows, now, 0);
      TotalBounds(rows, now);
    }
  }

  /** Two stored twins posted through PUT, one failed and one in state New
      touched within two minutes, score 3; a twin in state New touched
      longer ago scores nothing. */
  lemma FailedAndRecentScoreThree(now: int, failedAt: int, touchedAt: int)
    requires now - touchedAt < RECENT
    ensures Scan([DupRow(1, JInt(5), JInt(failedAt), JStr("PUT")), DupRow(2, JInt(1), JInt(touchedAt), JStr("PUT"))],
                 now, 0) == Ok(3)
    ensures Scan([DupRow(1, JInt(1), JInt(now - RECENT), JStr("PUT"))], now, 0) == Ok(0)
  {
    var rows := [DupRow(1, JInt(5), JInt(failedAt), JStr("PUT")), DupRow(2, JInt(1), JInt(touchedAt), JStr("PUT"))];
    assert rows[1..] == [rows[1]] && rows[1..][1..] == [];
    assert Scan(rows[1..], now, 1) == Scan([], now, 3);
  }

  /** A named parameter of the statement: a key the dictionary lacks is a
      ProgrammingError (a DatabaseError), a list or dict cannot be bound. */
  function BindNamed(params: Kwargs, key: string): (r: Outcome<Json>)
    ensures key !in params ==> r == Raised(DatabaseError)
    ensures key in params ==> r == Bind(params[key])
  {
    if key !in params then Raised(DatabaseError) else Bind(params[key])
  }

  /** The duplicate check of a task given its `to_dict`: EVENT_ID,
      PARTNER_ID and LOCAL_ID bound in the order the statement names them,
      the stored tasks that match them, scored. */
  function DupScore(ts: Tables, params: Kwargs, now: int): Outcome<int> {
    var eventId :- BindNamed(params, "EVENT_ID");
    var partnerId :- BindNamed(params, "PARTNER_ID");
    var localId :- BindNamed(params, "LOCAL_ID");
    Scan(DupRows(Rows(ts, "TASKS"), Rows(ts, "EVENTS"), eventId, partnerId, localId), now, 0)
  }

  /** Whether a value can be bound as a statement parameter. */
  predicate Bindable(params: Kwargs, key: string) {
    key in params && !(params[key].JArr? || params[key].JObj?)
  }

  /** A task with no stored twin scores 0. */
  lemma NoTwinScoresZero(ts: Tables, params: Kwargs, now: int)
    requires Bindable(params, "EVENT_ID") && Bindable(params, "PARTNER_ID") && Bindable(params, "LOCAL_ID")
    requires forall i :: 0 <= i < |Rows(ts, "TASKS")| ==>
      var t := Rows(ts, "TASKS")[i];
      !(SqlEq(Cell(t, "EVENT_ID"), SqlValue(params["EVENT_ID"])) && SqlEq(Cell(t, "PARTNER_ID"), SqlValue(params["PARTNER_ID"]))
        && SqlEq(Cell(t, "LOCAL_ID"), SqlValue(params["LOCAL_ID"])))
    ensures DupScore(ts, params, now) == Ok(0)
  {
    NoMatchNoRows(Rows(ts, "TASKS"), Rows(ts, "EVENTS"), SqlValue(params["EVENT_ID"]), SqlValue(params["PARTNER_ID"]),
                  SqlValue(params["LOCAL_ID"]));
  }

  /** `duplicate_check`: the loop over the selected rows. */
  method DuplicateCheck(db: Database, params: Kwargs, now: int) returns (r: Outcome<int>)
    ensures r == DupScore(db.tables, params, now)
  {
    var eventId :- BindNamed(params, "EVENT_ID");
    var partnerId :- BindNamed(params, "PARTNER_ID");
    var localId :- BindNamed(params, "LOCAL_ID");
    var rows := DupRows(Rows(db.tables, "TASKS"), Rows(db.tables, "EVENTS"), eventId, partnerId, localId);
    var credibly := 0;
    var i := 0;
    while i < |rows|
      invariant 0 <= i <= |rows|
      invariant Scan(rows, now, 0) == Scan(rows[i..], now, credibly)
    {
      assert rows[i..][0] == rows[i] && rows[i..][1..] == rows[i + 1..];
      var row := rows[i];
      if IsPost(row) {
        return Ok(100);
      }
      if row.state == JInt(3) || row.state == JInt(4) {
        i := i + 1;
        continue;
      }
      if row.state == JInt(5) {
        credibly := credibly + 1;
        i := i + 1;
        continue;
      }
      if !row.updatedOn.JInt? {
        return Raised(TypeError);
      }
      if now - row.updatedOn.i < RECENT {
        credibly := credibly + 2;
      }
      i := i + 1;
    }
    assert rows[i..] == [];
    r := Ok(credibly);
  }

  /** The WHERE clause of `SELECT * FROM name WHERE STATE = ?`. */
  function InState(state: int): Conditions {
    [("STATE", JInt(state))]
  }

  function StateRows(ts: Tables, name: string, state: int): seq<Kwargs> {
    SelectResult(ts, name, InState(state), [], false)
  }

  /** That select keeps exactly the rows whose STATE equals the state. */
  lemma StateSelectExact(ts: Tables, rows: seq<Row>, state: int)
    ensures forall x :: x in SelectMain(ts, rows, InState(state), []) <==> x in rows && SqlEq(Cell(x, "STATE"), JInt(state))
  {
    SelectWithoutJoinsExact(ts, rows, InState(state));
    assert forall x :: Matches(x, InState(state)) <==> SqlEq(Cell(x, "STATE"), JInt(state)) by {
      forall x ensures Matches(x, InState(state)) <==> SqlEq(Cell(x, "STATE"), JInt(state)) {
        assert InState(state)[0] == ("STATE", JInt(state));
      }
    }
  }

  /** `read_tasks`: the held records become the tasks in the state; a
      missing table fails the statement after the records were cleared. */
  method ReadTasks(a: DataAccess, state: int, now: int) returns (r: Outcome<State>)
    modifies a
    ensures var n := NameProperty(old(a.cachedName), old(a.data));
      && a.cachedName == n.1
      && (n.0.Raised? ==> r == Raised(n.0.error) && a.data == old(a.data))
      && (n.0.Ok? && n.0.value !in a.db.tables ==> r == Raised(DatabaseError) && a.data == [])
      && (n.0.Ok? && n.0.value in a.db.tables ==>
            var m := Materialise(Factory(a.codec, n.0.value, now), StateRows(a.db.tables, n.0.value, state));
            a.data == m.0 && r == (if m.1.None? then Ok(RequestStored) else Raised(m.1.value)))
  {
    var name :- a.GetName();
    if name !in a.db.tables {
      a.data := [];
      return Raised(DatabaseError);
    }
    var rows := a.db.Select(name, InState(state), [], false);
    var count :- a.Load(Factory(a.codec, name, now), rows);
    r := Ok(RequestStored);
  }
}

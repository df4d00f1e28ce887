/** The SQLite database the access layer talks to, reduced to what the
    modelled statements do: tables as sequences of rows in rowid order, the
    statements' effect written as functions over the tables, and a class
    whose methods apply them. The SQL text itself is built in EntityBase;
    here the same ingredients (the INSERT's named columns, the UPDATE's SET
    columns, the SELECT's filter and joins) give the statement's meaning. */
module Storage {
  import opened Wrappers
  import opened Text
  import opened Json
  import opened EntityBase
  import Entities

  /** A stored row: its INTEGER PRIMARY KEY and the other columns' values. */
  datatype Row = Row(id: int, cells: Kwargs)

  type Tables = map<string, seq<Row>>

  /** Row ids are positive and strictly increasing in storage order. */
  predicate IdsIncreasing(rows: seq<Row>) {
    (forall i :: 0 <= i < |rows| ==> rows[i].id >= 1)
    && (forall i :: 0 < i < |rows| ==> rows[i - 1].id < rows[i].id)
  }

  predicate WellFormed(ts: Tables) {
    forall name :: name in Entities.ALLOWED ==> name in ts && IdsIncreasing(ts[name])
  }

  function Rows(ts: Tables, name: string): seq<Row> {
    if name in ts then ts[name] else []
  }

  /** The value of a column in a row; an absent column reads as NULL. */
  function Cell(r: Row, column: string): Json {
    if column == "ID" then JInt(r.id) else Get(r.cells, column, JNull)
  }

  /** A WHERE clause of `column = value` conditions joined by AND. */
  type Conditions = seq<(string, Json)>

  predicate Matches(r: Row, conds: Conditions) {
    forall i :: 0 <= i < |conds| ==> SqlEq(Cell(r, conds[i].0), conds[i].1)
  }

  /** The first row whose `key` column equals `value`. */
  function Lookup(rows: seq<Row>, key: string, value: Json): (r: Option<Row>)
    ensures r.Some? ==> r.value in rows && SqlEq(Cell(r.value, key), value)
    ensures r.None? ==> forall i :: 0 <= i < |rows| ==> !SqlEq(Cell(rows[i], key), value)
  {
    if rows == [] then None
    else if SqlEq(Cell(rows[0], key), value) then Some(rows[0])
    else Lookup(rows[1..], key, value)
  }

  /** The joined partner of a row is found for every join target. */
  predicate Joinable(ts: Tables, r: Row, targets: seq<(string, string, string)>) {
    forall i :: 0 <= i < |targets| ==>
      Lookup(Rows(ts, targets[i].0), targets[i].1, Cell(r, targets[i].2)).Some?
  }

  // ----- SELECT -----

  /** The main-table rows a SELECT returns: those meeting the WHERE clause
      whose every join finds its row, in rowid order. */
  function SelectMain(ts: Tables, rows: seq<Row>, conds: Conditions, targets: seq<(string, string, string)>): (r: seq<Row>)
    ensures |r| <= |rows|
    ensures forall x :: x in r ==> x in rows && Matches(x, conds) && Joinable(ts, x, targets)
  {
    if rows == [] then []
    else
      (if Matches(rows[0], conds) && Joinable(ts, rows[0], targets) then [rows[0]] else [])
      + SelectMain(ts, rows[1..], conds, targets)
  }

  /** Without joins the SELECT returns exactly the matching rows. */
  lemma {:induction false} SelectWithoutJoinsExact(ts: Tables, rows: seq<Row>, conds: Conditions)
    ensures forall x :: x in SelectMain(ts, rows, conds, []) <==> x in rows && Matches(x, conds)
  {
    if rows != [] {
      SelectWithoutJoinsExact(ts, rows[1..], conds);
      assert forall x :: x in rows <==> x == rows[0] || x in rows[1..];
    }
  }

  /** SQLite's description of a table's row: ID, then the declared columns
      in index order. */
  function ColumnPairs(cols: seq<DbColumn>, r: Row): (p: seq<(string, Json)>)
    ensures |p| == |cols|
    ensures forall i :: 0 <= i < |cols| ==> p[i] == (cols[i].name, Get(r.cells, cols[i].name, JNull))
  {
    if cols == [] then [] else [(cols[0].name, Get(r.cells, cols[0].name, JNull))] + ColumnPairs(cols[1..], r)
  }

  function TablePairs(table: string, r: Row): seq<(string, Json)> {
    [("ID", JInt(r.id))] + ColumnPairs(SortByIndex(Entities.ColumnsOf(table)), r)
  }

  function JoinedPairs(ts: Tables, r: Row, targets: seq<(string, string, string)>): seq<(string, Json)>
    requires Joinable(ts, r, targets)
  {
    if targets == [] then []
    else
      TablePairs(targets[0].0, Lookup(Rows(ts, targets[0].0), targets[0].1, Cell(r, targets[0].2)).value)
      + JoinedPairs(ts, r, targets[1..])
  }

  /** `row_to_dict`: each column keyed by its upper-cased name, in the
      description's order, so that a later column overwrites an earlier one
      of the same name. */
  function RowToDict(pairs: seq<(string, Json)>): (d: Kwargs)
    ensures pairs != [] ==> Upper(pairs[|pairs| - 1].0) in d && d[Upper(pairs[|pairs| - 1].0)] == pairs[|pairs| - 1].1
  {
    if pairs == [] then map[]
    else RowToDict(pairs[..|pairs| - 1])[Upper(pairs[|pairs| - 1].0) := pairs[|pairs| - 1].1]
  }

  /** The keys are exactly the upper-cased column names. */
  lemma {:induction false} RowToDictKeys(pairs: seq<(string, Json)>)
    ensures forall k :: k in RowToDict(pairs) <==> exists i :: 0 <= i < |pairs| && Upper(pairs[i].0) == k
  {
    if pairs != [] {
      var init := pairs[..|pairs| - 1];
      RowToDictKeys(init);
      assert forall i :: 0 <= i < |init| ==> init[i] == pairs[i];
    }
  }

  /** The value under a key is that of the last column with that name. */
  lemma {:induction false} RowToDictLastWins(pairs: seq<(string, Json)>, i: int)
    requires 0 <= i < |pairs|
    requires forall j :: i < j < |pairs| ==> Upper(pairs[j].0) != Upper(pairs[i].0)
    ensures Upper(pairs[i].0) in RowToDict(pairs)
    ensures RowToDict(pairs)[Upper(pairs[i].0)] == pairs[i].1
  {
    if i < |pairs| - 1 {
      var init := pairs[..|pairs| - 1];
      assert init[i] == pairs[i];
      RowToDictLastWins(init, i);
    }
  }

  /** Reading two descriptions one after the other is reading the first
      and letting the second overwrite it. */
  lemma {:induction false} RowToDictAppend(p: seq<(string, Json)>, q: seq<(string, Json)>)
    ensures RowToDict(p + q) == RowToDict(p) + RowToDict(q)
  {
    if q == [] {
      assert p + q == p;
    } else {
      var q0 := q[..|q| - 1];
      var last := q[|q| - 1];
      assert (p + q)[..|p + q| - 1] == p + q0;
      assert (p + q)[|p + q| - 1] == last;
      RowToDictAppend(p, q0);
      assert RowToDict(p + q) == (RowToDict(p) + RowToDict(q0))[Upper(last.0) := last.1];
      assert RowToDict(q) == RowToDict(q0)[Upper(last.0) := last.1];
    }
  }

  /** One result row of a SELECT as the access layer receives it: the
      joined tables' columns, then the main table's, then (for the
      entity's own statement) the `name` column. */
  function RowDict(ts: Tables, name: string, r: Row, targets: seq<(string, string, string)>, tagged: bool): Kwargs
    requires Joinable(ts, r, targets)
  {
    RowToDict(JoinedPairs(ts, r, targets) + TablePairs(name, r) + (if tagged then [("name", JStr(name))] else []))
  }

  function Dicts(ts: Tables, name: string, rows: seq<Row>, targets: seq<(string, string, string)>, tagged: bool): (r: seq<Kwargs>)
    requires forall x :: x in rows ==> Joinable(ts, x, targets)
    ensures |r| == |rows|
    ensures forall i :: 0 <= i < |rows| ==> r[i] == RowDict(ts, name, rows[i], targets, tagged)
  {
    seq(|rows|, i requires 0 <= i < |rows| => RowDict(ts, name, rows[i], targets, tagged))
  }

  /** The rows a SELECT hands to `row_to_dict`, one per selected main row. */
  function SelectResult(ts: Tables, name: string, conds: Conditions, targets: seq<(string, string, string)>, tagged: bool): (r: seq<Kwargs>)
    ensures |r| == |SelectMain(ts, Rows(ts, name), conds, targets)|
  {
    Dicts(ts, name, SelectMain(ts, Rows(ts, name), conds, targets), targets, tagged)
  }

  // ----- INSERT -----

  /** What sqlite3 binds for a parameter; a list or dict cannot be bound,
      which sqlite3 reports as an InterfaceError, not a DatabaseError. */
  function Bind(v: Json): (r: Outcome<Json>)
    ensures r.Ok? <==> !(v.JArr? || v.JObj?)
    ensures r.Ok? ==> r.value == SqlValue(v)
    ensures r.Raised? ==> r.error == InterfaceError
  {
    if v.JArr? || v.JObj? then Raised(InterfaceError) else Ok(SqlValue(v))
  }

  /** The errors a statement can end in. */
  /** Every table a select names, the main one and each joined one, is in
      the database; otherwise SQLite refuses the statement ("no such table"). */
  predicate TablesPresent(ts: Tables, name: string, targets: seq<(string, string, string)>) {
    name in ts && forall k :: 0 <= k < |targets| ==> targets[k].0 in ts
  }

  predicate IsSqliteError(e: Exception) {
    e == DatabaseError || e == InterfaceError
  }

  /** The cells of a new row: the named columns from the parameters (a
      missing one is an error), the others from their DEFAULT clause. */
  function NewCells(cols: seq<DbColumn>, param: Kwargs, now: int): (r: Outcome<Kwargs>)
    ensures r.Ok? ==> forall i :: 0 <= i < |cols| ==> cols[i].name in r.value
  {
    if cols == [] then Ok(map[])
    else
      var c := cols[0];
      var v :-
        if c.default == "" then (if c.name in param then Bind(param[c.name]) else Raised(DatabaseError))
        else Ok(DefaultValue(c.default, now));
      var rest :- NewCells(cols[1..], param, now);
      Ok(rest[c.name := v])
  }

  /** Every foreign key of the new row is NULL or names an existing row. */
  predicate ForeignKeysHold(ts: Tables, cols: seq<DbColumn>, cells: Kwargs) {
    forall i :: 0 <= i < |cols| && cols[i].fk.Some? ==>
      var v := Get(cells, cols[i].name, JNull);
      v == JNull
      || (FkParts(cols[i].fk.value).Ok?
          && Lookup(Rows(ts, FkParts(cols[i].fk.value).value.0),
                    RemoveChar(FkParts(cols[i].fk.value).value.1, ')'), v).Some?)
  }

  /** The rowid SQLite gives a new row: one more than the last. */
  function NextId(rows: seq<Row>): (id: int)
    ensures rows != [] ==> id == rows[|rows| - 1].id + 1
  {
    if rows == [] then 1 else rows[|rows| - 1].id + 1
  }

  /** With increasing ids the next id is above every stored one. */
  lemma NextIdAbove(rows: seq<Row>)
    requires IdsIncreasing(rows)
    ensures NextId(rows) >= 1
    ensures forall i :: 0 <= i < |rows| ==> rows[i].id < NextId(rows)
  {
    if rows != [] {
      forall i | 0 <= i < |rows|
        ensures rows[i].id < NextId(rows)
      {
        EarlierIdsSmaller(rows, i, |rows| - 1);
      }
    }
  }

  lemma {:induction false} EarlierIdsSmaller(rows: seq<Row>, i: int, j: int)
    requires IdsIncreasing(rows) && 0 <= i <= j < |rows|
    ensures rows[i].id <= rows[j].id
    decreases j - i
  {
    if i < j {
      EarlierIdsSmaller(rows, i, j - 1);
    }
  }

  /** The tables after rows were appended to one of them: still well formed,
      the others untouched, the old rows a prefix of the new. */
  predicate Grows(ts: Tables, ts': Tables, name: string, k: nat)
    requires name in ts
  {
    && WellFormed(ts')
    && ts'.Keys == ts.Keys
    && (forall n :: n in ts && n != name ==> ts'[n] == ts[n])
    && |ts'[name]| == |ts[name]| + k
    && ts'[name][..|ts[name]|] == ts[name]
  }

  lemma GrowsTrans(a: Tables, b: Tables, c: Tables, name: string, k1: nat, k2: nat)
    requires name in a && name in b
    requires Grows(a, b, name, k1) && Grows(b, c, name, k2)
    ensures Grows(a, c, name, k1 + k2)
  {
    assert c[name][..|a[name]|] == c[name][..|b[name]|][..|a[name]|];
  }

  /** A row appended with the next id. */
  function AppendRow(ts: Tables, name: string, cells: Kwargs): Tables {
    ts[name := Rows(ts, name) + [Row(NextId(Rows(ts, name)), cells)]]
  }

  lemma AppendRowGrows(ts: Tables, name: string, cells: Kwargs)
    requires WellFormed(ts) && name in Entities.ALLOWED
    ensures Grows(ts, AppendRow(ts, name, cells), name, 1)
    ensures AppendRow(ts, name, cells)[name][|ts[name]|].id == NextId(ts[name])
  {
    var rows := ts[name];
    NextIdAbove(rows);
    var rows' := rows + [Row(NextId(rows), cells)];
    assert rows'[..|rows|] == rows;
    assert IdsIncreasing(rows');
  }

  /** One row inserted; the result is the new row's id. */
  function InsertOne(ts: Tables, name: string, cols: seq<DbColumn>, param: Kwargs, now: int): (r: Outcome<(Tables, int)>)
    ensures r.Ok? ==> r.value.1 == NextId(Rows(ts, name))
  {
    var cells :- NewCells(cols, param, now);
    if !ForeignKeysHold(ts, cols, cells) then Raised(DatabaseError)
    else Ok((AppendRow(ts, name, cells), NextId(Rows(ts, name))))
  }

  /** Rows inserted one after the other; any error undoes them all, since
      the caller only keeps the result on success. */
  function InsertEach(ts: Tables, name: string, cols: seq<DbColumn>, params: seq<Kwargs>, now: int): (r: Outcome<Tables>)
    decreases |params|
  {
    if params == [] then Ok(ts)
    else
      var step :- InsertOne(ts, name, cols, params[0], now);
      InsertEach(step.0, name, cols, params[1..], now)
  }

  /** `_execute_one` with an INSERT: a single parameter set answers the new
      row id, several answer the row count. A table whose columns all have
      defaults yields a statement SQLite rejects. */
  function InsertResult(ts: Tables, name: string, params: seq<Kwargs>, now: int): (r: Outcome<(Tables, int)>)
  {
    InsertWith(ts, name, Entities.ColumnsOf(name), params, now)
  }

  /** The same, for a table with the given columns. */
  function InsertWith(ts: Tables, name: string, cols: seq<DbColumn>, params: seq<Kwargs>, now: int): (r: Outcome<(Tables, int)>)
  {
    if InsertColumns(cols) == [] then Raised(DatabaseError)
    else if |params| == 1 then InsertOne(ts, name, cols, params[0], now)
    else
      var ts' :- InsertEach(ts, name, cols, params, now);
      Ok((ts', |params|))
  }

  /** The result of an INSERT: with one parameter set the new row's id,
      with several the row count, every row appended in order; its only
      error is a database error, which leaves nothing behind. */
  lemma InsertWithSpec(ts: Tables, name: string, cols: seq<DbColumn>, params: seq<Kwargs>, now: int)
    requires WellFormed(ts) && name in Entities.ALLOWED
    ensures var r := InsertWith(ts, name, cols, params, now);
      && (r.Ok? ==>
            && InsertColumns(cols) != []
            && Grows(ts, r.value.0, name, |params|)
            && r.value.1 == (if |params| == 1 then NextId(ts[name]) else |params|))
      && (r.Raised? ==> IsSqliteError(r.error))
  {
    if InsertColumns(cols) != [] {
      if |params| == 1 {
        InsertOneSpec(ts, name, cols, params[0], now);
      } else {
        InsertEachSpec(ts, name, cols, params, now);
      }
    }
  }

  lemma {:induction false} NewCellsError(cols: seq<DbColumn>, param: Kwargs, now: int)
    ensures NewCells(cols, param, now).Raised? ==> IsSqliteError(NewCells(cols, param, now).error)
  {
    if cols != [] {
      NewCellsError(cols[1..], param, now);
    }
  }

  /** An insert only appends to its own table, one row whose id is above
      all present; its only errors are sqlite errors. */
  lemma InsertOneSpec(ts: Tables, name: string, cols: seq<DbColumn>, param: Kwargs, now: int)
    requires WellFormed(ts) && name in Entities.ALLOWED
    ensures var r := InsertOne(ts, name, cols, param, now);
      && (r.Ok? ==> Grows(ts, r.value.0, name, 1) && r.value.0[name][|ts[name]|].id == r.value.1)
      && (r.Raised? ==> IsSqliteError(r.error))
      && (r.Ok? <==> NewCells(cols, param, now).Ok? && ForeignKeysHold(ts, cols, NewCells(cols, param, now).value))
  {
    NewCellsError(cols, param, now);
    var cells := NewCells(cols, param, now);
    if cells.Ok? && ForeignKeysHold(ts, cols, cells.value) {
      AppendRowGrows(ts, name, cells.value);
      assert InsertOne(ts, name, cols, param, now) == Ok((AppendRow(ts, name, cells.value), NextId(Rows(ts, name))));
    } else if cells.Ok? {
      assert InsertOne(ts, name, cols, param, now) == Raised(DatabaseError);
    } else {
      assert InsertOne(ts, name, cols, param, now) == Raised(cells.error);
    }
  }

  /** The same for a table's own columns: a single record gets the id of
      the row appended for it. */
  lemma InsertResultSpec(ts: Tables, name: string, params: seq<Kwargs>, now: int)
    requires WellFormed(ts) && name in Entities.ALLOWED
    ensures var r := InsertResult(ts, name, params, now);
      && (r.Ok? ==> Grows(ts, r.value.0, name, |params|))
      && (r.Ok? && |params| == 1 ==> r.value.1 == NextId(ts[name]) && r.value.0[name][|ts[name]|].id == r.value.1)
      && (r.Raised? ==> IsSqliteError(r.error))
  {
    var cols := Entities.ColumnsOf(name);
    InsertWithSpec(ts, name, cols, params, now);
    if InsertColumns(cols) != [] && |params| == 1 {
      InsertOneSpec(ts, name, cols, params[0], now);
    }
  }

  /** Several rows: all appended in order, or an error and nothing kept. */
  lemma {:induction false} InsertEachSpec(ts: Tables, name: string, cols: seq<DbColumn>, params: seq<Kwargs>, now: int)
    requires WellFormed(ts) && name in Entities.ALLOWED
    ensures var r := InsertEach(ts, name, cols, params, now);
      && (r.Ok? ==> Grows(ts, r.value, name, |params|))
      && (r.Raised? ==> IsSqliteError(r.error))
    decreases |params|
  {
    if params == [] {
      assert ts[name][..|ts[name]|] == ts[name];
    } else {
      InsertOneSpec(ts, name, cols, params[0], now);
      var step := InsertOne(ts, name, cols, params[0], now);
      if step.Ok? {
        var ts1 := step.value.0;
        InsertEachSpec(ts1, name, cols, params[1..], now);
        var r := InsertEach(ts1, name, cols, params[1..], now);
        if r.Ok? {
          GrowsTrans(ts, ts1, r.value, name, 1, |params| - 1);
        }
      }
    }
  }

  // ----- UPDATE -----

  /** `UPDATE name SET ... WHERE ID = id` on the stored rows. */
  function UpdateWhereId(rows: seq<Row>, id: int, assigns: Kwargs): (r: seq<Row>)
    ensures |r| == |rows|
    ensures forall i :: 0 <= i < |rows| ==>
      r[i] == (if rows[i].id == id then Row(id, rows[i].cells + assigns) else rows[i])
  {
    if rows == [] then []
    else [if rows[0].id == id then Row(id, rows[0].cells + assigns) else rows[0]] + UpdateWhereId(rows[1..], id, assigns)
  }

  function CountId(rows: seq<Row>, id: int): (n: nat)
    ensures n <= |rows|
  {
    if rows == [] then 0 else (if rows[0].id == id then 1 else 0) + CountId(rows[1..], id)
  }

  /** Distinct ids: at most one row carries a given id. */
  lemma {:induction false} CountIdAtMostOne(rows: seq<Row>, id: int)
    requires IdsIncreasing(rows)
    ensures CountId(rows, id) <= 1
    ensures CountId(rows, id) == 1 <==> exists i :: 0 <= i < |rows| && rows[i].id == id
  {
    if rows != [] {
      assert IdsIncreasing(rows[1..]);
      CountIdAtMostOne(rows[1..], id);
      if rows[0].id == id {
        LaterIdsLarger(rows, 0);
      }
      assert (exists i :: 0 <= i < |rows| && rows[i].id == id)
        <==> rows[0].id == id || exists i :: 0 <= i < |rows[1..]| && rows[1..][i].id == id;
    }
  }

  lemma {:induction false} LaterIdsLarger(rows: seq<Row>, i: int)
    requires IdsIncreasing(rows) && 0 <= i < |rows|
    ensures forall j :: i < j < |rows| ==> rows[i].id < rows[j].id
    decreases |rows| - i
  {
    if i < |rows| - 1 {
      EarlierIdsSmaller(rows, i, i + 1);
      LaterIdsLarger(rows, i + 1);
    }
  }

  /** The assignments of `update_state`: STATE where the table has such a
      column (the SET list keeps the keyword arguments that are columns and
      not protected), and the time stamp. */
  function StateAssigns(cols: seq<DbColumn>, state: int, now: int): (r: Kwargs)
    ensures "UPDATED_ON" in r && r["UPDATED_ON"] == JInt(now)
    ensures "STATE" in r <==> "STATE" in Names(cols)
    ensures "STATE" in r ==> r["STATE"] == JInt(state)
    ensures r.Keys <= {"STATE", "UPDATED_ON"}
  {
    SetColumnsSpec(cols, {"ID", "STATE"});
    var set_ := SetColumns(cols, {"ID", "STATE"});
    (if "STATE" in set_ then map["STATE" := JInt(state)] else map[]) + map["UPDATED_ON" := JInt(now)]
  }

  /** `update_state`'s statement: the new tables and the row count. */
  function UpdateResult(ts: Tables, name: string, id: int, state: int, now: int): (Tables, int) {
    UpdateWith(ts, name, Entities.ColumnsOf(name), id, state, now)
  }

  /** The same, for a table with the given columns. */
  function UpdateWith(ts: Tables, name: string, cols: seq<DbColumn>, id: int, state: int, now: int): (Tables, int) {
    var rows := Rows(ts, name);
    (ts[name := UpdateWhereId(rows, id, StateAssigns(cols, state, now))], CountId(rows, id))
  }

  /** The update touches only its table and the row with that id, which it
      stamps and, where the table has a STATE, moves to the new state; the
      row count says whether such a row exists. */
  lemma UpdateSpec(ts: Tables, name: string, cols: seq<DbColumn>, id: int, state: int, now: int)
    requires WellFormed(ts) && name in Entities.ALLOWED
    ensures var u := UpdateWith(ts, name, cols, id, state, now);
      && WellFormed(u.0)
      && u.0.Keys == ts.Keys
      && (forall n :: n in ts && n != name ==> u.0[n] == ts[n])
      && |u.0[name]| == |ts[name]|
      && (forall i :: 0 <= i < |ts[name]| && ts[name][i].id != id ==> u.0[name][i] == ts[name][i])
      && (forall i :: 0 <= i < |ts[name]| && ts[name][i].id == id ==>
            && u.0[name][i].id == id
            && u.0[name][i].cells["UPDATED_ON"] == JInt(now)
            && ("STATE" in Names(cols) ==> u.0[name][i].cells["STATE"] == JInt(state)))
      && 0 <= u.1 <= 1
      && (u.1 == 1 <==> exists i :: 0 <= i < |ts[name]| && ts[name][i].id == id)
  {
    var rows := ts[name];
    var assigns := StateAssigns(cols, state, now);
    UpdateWhereIdKeepsIds(rows, id, assigns);
    ReplaceKeepsWellFormed(ts, name, UpdateWhereId(rows, id, assigns));
    CountIdAtMostOne(rows, id);
  }

  lemma ReplaceKeepsWellFormed(ts: Tables, name: string, rows: seq<Row>)
    requires WellFormed(ts) && IdsIncreasing(rows)
    ensures WellFormed(ts[name := rows])
  {
  }

  /** The tables `u` are `ts` with only the rows of the table that carry
      the id written: they keep their id and hold the state and the time
      stamp. */
  predicate UpdatedRows(ts: Tables, u: Tables, name: string, id: int, state: int, now: int) {
    && name in ts
    && u.Keys == ts.Keys
    && (forall n :: n in ts && n != name ==> u[n] == ts[n])
    && |u[name]| == |ts[name]|
    && (forall i :: 0 <= i < |ts[name]| && ts[name][i].id != id ==> u[name][i] == ts[name][i])
    && (forall i :: 0 <= i < |ts[name]| && ts[name][i].id == id ==>
          && u[name][i].id == id
          && Cell(u[name][i], "STATE") == JInt(state) && Cell(u[name][i], "UPDATED_ON") == JInt(now))
  }

  /** A second update of the same row after a first: only that row has
      changed, and it holds the second state. */
  lemma UpdateThenUpdate(ts: Tables, name: string, cols: seq<DbColumn>, id: int, first: int, second: int, now: int)
    requires WellFormed(ts) && name in Entities.ALLOWED && "STATE" in Names(cols)
    ensures var u := UpdateWith(UpdateWith(ts, name, cols, id, first, now).0, name, cols, id, second, now).0;
      WellFormed(u) && UpdatedRows(ts, u, name, id, second, now)
  {
    var u1 := UpdateWith(ts, name, cols, id, first, now).0;
    UpdateSpec(ts, name, cols, id, first, now);
    UpdateSpec(u1, name, cols, id, second, now);
    var u := UpdateWith(u1, name, cols, id, second, now).0;
    forall i | 0 <= i < |ts[name]| && ts[name][i].id == id
      ensures Cell(u[name][i], "STATE") == JInt(second) && Cell(u[name][i], "UPDATED_ON") == JInt(now)
    {
      assert u1[name][i].id == id;
    }
  }

  lemma UpdateWhereIdKeepsIds(rows: seq<Row>, id: int, assigns: Kwargs)
    requires IdsIncreasing(rows)
    ensures IdsIncreasing(UpdateWhereId(rows, id, assigns))
  {
  }

  // ----- the spread of a task -----

  /** The rows of `INSERT INTO PROCESSING_STEPS (TASK_ID, PARTNER_ID)
      SELECT TASKS.ID, SUBSCRIBERS.PARTNER_ID FROM TASKS, SUBSCRIBERS WHERE
      TASKS.ID = :ID AND TASKS.EVENT_ID = SUBSCRIBERS.EVENT_ID`: one per
      subscriber of the task's event, soft-deleted subscribers included. */
  function SpreadParams(task: Row, subscribers: seq<Row>): (r: seq<Kwargs>)
    ensures |r| <= |subscribers|
  {
    if subscribers == [] then []
    else
      (if SqlEq(Cell(task, "EVENT_ID"), Cell(subscribers[0], "EVENT_ID"))
       then [map["TASK_ID" := JInt(task.id), "PARTNER_ID" := Cell(subscribers[0], "PARTNER_ID")]]
       else [])
      + SpreadParams(task, subscribers[1..])
  }

  function CountSubscribers(task: Row, subscribers: seq<Row>): nat {
    if subscribers == [] then 0
    else
      (if SqlEq(Cell(task, "EVENT_ID"), Cell(subscribers[0], "EVENT_ID")) then 1 else 0)
      + CountSubscribers(task, subscribers[1..])
  }

  lemma {:induction false} SpreadParamsCount(task: Row, subscribers: seq<Row>)
    ensures |SpreadParams(task, subscribers)| == CountSubscribers(task, subscribers)
    ensures forall p :: p in SpreadParams(task, subscribers) ==> p.Keys == {"TASK_ID", "PARTNER_ID"} && p["TASK_ID"] == JInt(task.id)
  {
    if subscribers != [] {
      SpreadParamsCount(task, subscribers[1..]);
    }
  }

  /** The steps a spread inserts: none for an unknown task. */
  function SpreadRows(ts: Tables, taskId: int): seq<Kwargs> {
    match Lookup(Rows(ts, "TASKS"), "ID", JInt(taskId))
    case None => []
    case Some(task) => SpreadParams(task, Rows(ts, "SUBSCRIBERS"))
  }

  /** `UPDATE TASKS SET STATE = 3, UPDATED_ON = now WHERE ID = :ID`. */
  function Publish(ts: Tables, taskId: int, now: int): Tables {
    ts["TASKS" := UpdateWhereId(Rows(ts, "TASKS"), taskId, map["STATE" := JInt(3), "UPDATED_ON" := JInt(now)])]
  }

  /** `_spread_task`: the steps and the task's move to state 3 (Published)
      in one transaction; an error keeps the tables as they were. */
  function SpreadResult(ts: Tables, taskId: int, now: int): (r: Outcome<Tables>)
  {
    SpreadWith(ts, Entities.ColumnsOf("PROCESSING_STEPS"), taskId, now)
  }

  /** The same, for steps with the given columns. */
  function SpreadWith(ts: Tables, stepColumns: seq<DbColumn>, taskId: int, now: int): (r: Outcome<Tables>)
  {
    var ts1 :- InsertEach(ts, "PROCESSING_STEPS", stepColumns, SpreadRows(ts, taskId), now);
    Ok(Publish(ts1, taskId, now))
  }

  /** The number of steps a spread adds: one per subscriber of the task's
      event, none for an unknown task. */
  function SpreadCount(ts: Tables, taskId: int): nat {
    match Lookup(Rows(ts, "TASKS"), "ID", JInt(taskId))
    case None => 0
    case Some(task) => CountSubscribers(task, Rows(ts, "SUBSCRIBERS"))
  }

  /** A spread adds one step per subscriber of the task's event, marks the
      task published, and leaves the other tables alone; its only errors are
      sqlite errors. */
  lemma SpreadSpec(ts: Tables, stepColumns: seq<DbColumn>, taskId: int, now: int)
    requires WellFormed(ts)
    ensures var r := SpreadWith(ts, stepColumns, taskId, now);
      && (r.Raised? ==> IsSqliteError(r.error))
      && (r.Ok? ==>
            && WellFormed(r.value)
            && r.value.Keys == ts.Keys
            && (forall n :: n in ts && n != "PROCESSING_STEPS" && n != "TASKS" ==> r.value[n] == ts[n])
            && |r.value["PROCESSING_STEPS"]| == |ts["PROCESSING_STEPS"]| + SpreadCount(ts, taskId)
            && r.value["PROCESSING_STEPS"][..|ts["PROCESSING_STEPS"]|] == ts["PROCESSING_STEPS"]
            && r.value["TASKS"] == UpdateWhereId(ts["TASKS"], taskId, map["STATE" := JInt(3), "UPDATED_ON" := JInt(now)]))
  {
    SpreadRowsCount(ts, taskId);
    var params := SpreadRows(ts, taskId);
    InsertEachSpec(ts, "PROCESSING_STEPS", stepColumns, params, now);
    var r := InsertEach(ts, "PROCESSING_STEPS", stepColumns, params, now);
    if r.Ok? {
      PublishSpec(ts, r.value, taskId, now);
    }
  }

  /** The steps one spread appends carry the cells of its task's rows. */
  lemma SpreadStepCells(ts: Tables, stepColumns: seq<DbColumn>, taskId: int, now: int)
    requires WellFormed(ts)
    ensures var r := SpreadWith(ts, stepColumns, taskId, now);
      r.Ok? ==> StepsAdded(ts, r.value, stepColumns, SpreadRows(ts, taskId), now)
  {
    var ts1 := InsertEach(ts, "PROCESSING_STEPS", stepColumns, SpreadRows(ts, taskId), now);
    if ts1.Ok? {
      InsertEachCells(ts, "PROCESSING_STEPS", stepColumns, SpreadRows(ts, taskId), now);
      InsertEachSpec(ts, "PROCESSING_STEPS", stepColumns, SpreadRows(ts, taskId), now);
      assert SpreadWith(ts, stepColumns, taskId, now) == Ok(Publish(ts1.value, taskId, now));
    }
  }

  lemma SpreadRowsCount(ts: Tables, taskId: int)
    ensures |SpreadRows(ts, taskId)| == SpreadCount(ts, taskId)
  {
    match Lookup(Rows(ts, "TASKS"), "ID", JInt(taskId)) {
      case None =>
      case Some(task) => SpreadParamsCount(task, Rows(ts, "SUBSCRIBERS"));
    }
  }

  /** Publishing after the steps were added changes only the task table. */
  lemma PublishSpec(ts: Tables, ts1: Tables, taskId: int, now: int)
    requires "PROCESSING_STEPS" in ts && "TASKS" in ts
    requires Grows(ts, ts1, "PROCESSING_STEPS", SpreadCount(ts, taskId))
    ensures var p := Publish(ts1, taskId, now);
      && WellFormed(p)
      && p.Keys == ts.Keys
      && (forall n :: n in ts && n != "PROCESSING_STEPS" && n != "TASKS" ==> p[n] == ts[n])
      && |p["PROCESSING_STEPS"]| == |ts["PROCESSING_STEPS"]| + SpreadCount(ts, taskId)
      && p["PROCESSING_STEPS"][..|ts["PROCESSING_STEPS"]|] == ts["PROCESSING_STEPS"]
      && p["TASKS"] == UpdateWhereId(ts["TASKS"], taskId, map["STATE" := JInt(3), "UPDATED_ON" := JInt(now)])
  {
    assert ts1["TASKS"] == ts["TASKS"];
    UpdateWhereIdKeepsIds(ts1["TASKS"], taskId, map["STATE" := JInt(3), "UPDATED_ON" := JInt(now)]);
  }

  /** From `start` on, `rows` are the rows built from `params` in order. */
  predicate CellsFrom(rows: seq<Row>, start: nat, cols: seq<DbColumn>, params: seq<Kwargs>, now: int) {
    && |rows| == start + |params|
    && forall j :: 0 <= j < |params| ==>
         NewCells(cols, params[j], now).Ok? && rows[start + j].cells == NewCells(cols, params[j], now).value
  }

  lemma CellsFromCons(rows: seq<Row>, start: nat, cols: seq<DbColumn>, params: seq<Kwargs>, now: int)
    requires params != [] && start < |rows|
    requires NewCells(cols, params[0], now).Ok? && rows[start].cells == NewCells(cols, params[0], now).value
    requires CellsFrom(rows, start + 1, cols, params[1..], now)
    ensures CellsFrom(rows, start, cols, params, now)
  {
    forall j | 1 <= j < |params|
      ensures NewCells(cols, params[j], now).Ok? && rows[start + j].cells == NewCells(cols, params[j], now).value
    {
      assert params[j] == params[1..][j - 1];
      assert start + j == (start + 1) + (j - 1);
    }
  }

  /** Rows built from `p` followed by rows built from `q` are the rows
      built from `p + q`. */
  lemma CellsFromAppend(rows: seq<Row>, prefix: seq<Row>, start: nat, cols: seq<DbColumn>, p: seq<Kwargs>, q: seq<Kwargs>, now: int)
    requires |prefix| <= |rows| && rows[..|prefix|] == prefix
    requires CellsFrom(prefix, start, cols, p, now)
    requires CellsFrom(rows, start + |p|, cols, q, now)
    ensures CellsFrom(rows, start, cols, p + q, now)
  {
    forall j | 0 <= j < |p + q|
      ensures NewCells(cols, (p + q)[j], now).Ok? && rows[start + j].cells == NewCells(cols, (p + q)[j], now).value
    {
      if j < |p| {
        assert rows[start + j] == prefix[start + j];
      } else {
        assert start + j == (start + |p|) + (j - |p|);
      }
    }
  }

  /** `ts'` holds the steps of `ts` first, then the steps built from
      `params` in order. */
  predicate StepsAdded(ts: Tables, ts': Tables, cols: seq<DbColumn>, params: seq<Kwargs>, now: int) {
    && "PROCESSING_STEPS" in ts && "PROCESSING_STEPS" in ts'
    && CellsFrom(ts'["PROCESSING_STEPS"], |ts["PROCESSING_STEPS"]|, cols, params, now)
    && ts'["PROCESSING_STEPS"][..|ts["PROCESSING_STEPS"]|] == ts["PROCESSING_STEPS"]
  }

  lemma StepsAddedNone(ts: Tables, cols: seq<DbColumn>, now: int)
    requires "PROCESSING_STEPS" in ts
    ensures StepsAdded(ts, ts, cols, [], now)
  {
    assert ts["PROCESSING_STEPS"][..|ts["PROCESSING_STEPS"]|] == ts["PROCESSING_STEPS"];
  }

  lemma StepsAddedTrans(a: Tables, b: Tables, c: Tables, cols: seq<DbColumn>, p: seq<Kwargs>, q: seq<Kwargs>, now: int)
    requires StepsAdded(a, b, cols, p, now) && StepsAdded(b, c, cols, q, now)
    ensures StepsAdded(a, c, cols, p + q, now)
  {
    var x := a["PROCESSING_STEPS"];
    var y := b["PROCESSING_STEPS"];
    var z := c["PROCESSING_STEPS"];
    CellsFromAppend(z, y, |x|, cols, p, q, now);
    assert z[..|x|] == y[..|x|] == x;
  }

  /** One insert appends the row built from its parameters. */
  lemma InsertOneAppends(ts: Tables, name: string, cols: seq<DbColumn>, param: Kwargs, now: int)
    requires name in ts
    ensures var r := InsertOne(ts, name, cols, param, now);
      r.Ok? ==>
        && NewCells(cols, param, now).Ok?
        && name in r.value.0
        && r.value.0[name] == ts[name] + [Row(NextId(ts[name]), NewCells(cols, param, now).value)]
  {
  }

  /** The rows several inserts append carry, in order, the cells each
      parameter set gives. */
  lemma {:induction false} InsertEachCells(ts: Tables, name: string, cols: seq<DbColumn>, params: seq<Kwargs>, now: int)
    requires WellFormed(ts) && name in Entities.ALLOWED
    ensures var r := InsertEach(ts, name, cols, params, now);
      r.Ok? ==> name in r.value && CellsFrom(r.value[name], |ts[name]|, cols, params, now)
    decreases |params|
  {
    if params == [] {
    } else {
      var step := InsertOne(ts, name, cols, params[0], now);
      if step.Ok? {
        InsertOneSpec(ts, name, cols, params[0], now);
        InsertOneAppends(ts, name, cols, params[0], now);
        var ts1 := step.value.0;
        var n := |ts[name]|;
        InsertEachCells(ts1, name, cols, params[1..], now);
        InsertEachSpec(ts1, name, cols, params[1..], now);
        var r := InsertEach(ts1, name, cols, params[1..], now);
        assert InsertEach(ts, name, cols, params, now) == r;
        if r.Ok? {
          var rows := r.value[name];
          assert rows[n] == ts1[name][n] by {
            assert rows[..n + 1] == ts1[name];
          }
          CellsFromCons(rows, n, cols, params, now);
        }
      }
    }
  }

  /** Looking a task up by id after an update that leaves EVENT_ID alone
      finds the same task, with the same event. */
  lemma {:induction false} LookupAfterUpdate(rows: seq<Row>, id0: int, assigns: Kwargs, id: int)
    requires "EVENT_ID" !in assigns
    ensures var a := Lookup(rows, "ID", JInt(id));
      var b := Lookup(UpdateWhereId(rows, id0, assigns), "ID", JInt(id));
      && (a.None? <==> b.None?)
      && (a.Some? ==> b.value.id == a.value.id && Cell(b.value, "EVENT_ID") == Cell(a.value, "EVENT_ID"))
  {
    if rows != [] {
      var u := UpdateWhereId(rows, id0, assigns);
      assert u[1..] == UpdateWhereId(rows[1..], id0, assigns);
      assert u[0].id == rows[0].id && Cell(u[0], "EVENT_ID") == Cell(rows[0], "EVENT_ID");
      if !SqlEq(Cell(rows[0], "ID"), JInt(id)) {
        LookupAfterUpdate(rows[1..], id0, assigns, id);
      }
    }
  }

  /** The steps a task spreads to depend only on its id and its event. */
  lemma {:induction false} SpreadParamsSameEvent(t: Row, t': Row, subscribers: seq<Row>)
    requires t'.id == t.id && Cell(t', "EVENT_ID") == Cell(t, "EVENT_ID")
    ensures SpreadParams(t', subscribers) == SpreadParams(t, subscribers)
  {
    if subscribers != [] {
      SpreadParamsSameEvent(t, t', subscribers[1..]);
    }
  }

  /** Publishing a task does not change the steps any task spreads to. */
  lemma SpreadRowsAfterPublish(ts: Tables, ts': Tables, taskId: int, now: int, id: int)
    requires "TASKS" in ts && "TASKS" in ts'
    requires ts'["TASKS"] == UpdateWhereId(ts["TASKS"], taskId, map["STATE" := JInt(3), "UPDATED_ON" := JInt(now)])
    requires Rows(ts', "SUBSCRIBERS") == Rows(ts, "SUBSCRIBERS")
    ensures SpreadRows(ts', id) == SpreadRows(ts, id)
  {
    var m := map["STATE" := JInt(3), "UPDATED_ON" := JInt(now)];
    assert "EVENT_ID" !in m;
    LookupAfterUpdate(ts["TASKS"], taskId, m, id);
    var a := Lookup(ts["TASKS"], "ID", JInt(id));
    if a.Some? {
      SpreadParamsSameEvent(a.value, Lookup(ts'["TASKS"], "ID", JInt(id)).value, Rows(ts, "SUBSCRIBERS"));
    }
  }

  // ----- the rows the duplicate check reads -----

  /** A stored task of the same event, partner and local id, with the
      method of its event. */
  datatype DupRow = DupRow(id: int, state: Json, updatedOn: Json, eventMethod: Json)

  /** `SELECT TASKS.ID, TASKS.STATE, TASKS.UPDATED_ON, EV.METHOD FROM TASKS,
      EVENTS EV WHERE TASKS.EVENT_ID = :EVENT_ID AND PARTNER_ID = :PARTNER_ID
      AND TASKS.EVENT_ID = EV.ID AND LOCAL_ID = :LOCAL_ID`. */
  function DupRows(tasks: seq<Row>, events: seq<Row>, eventId: Json, partnerId: Json, localId: Json): (r: seq<DupRow>)
    ensures |r| <= |tasks|
  {
    if tasks == [] then []
    else
      var t := tasks[0];
      var ev := Lookup(events, "ID", Cell(t, "EVENT_ID"));
      (if SqlEq(Cell(t, "EVENT_ID"), eventId) && SqlEq(Cell(t, "PARTNER_ID"), partnerId)
          && SqlEq(Cell(t, "LOCAL_ID"), localId) && ev.Some?
       then [DupRow(t.id, Cell(t, "STATE"), Cell(t, "UPDATED_ON"), Cell(ev.value, "METHOD"))]
       else [])
      + DupRows(tasks[1..], events, eventId, partnerId, localId)
  }

  /** No stored task with the same keys, no rows. */
  lemma {:induction false} NoMatchNoRows(tasks: seq<Row>, events: seq<Row>, eventId: Json, partnerId: Json, localId: Json)
    requires forall i :: 0 <= i < |tasks| ==>
      !(SqlEq(Cell(tasks[i], "EVENT_ID"), eventId) && SqlEq(Cell(tasks[i], "PARTNER_ID"), partnerId)
        && SqlEq(Cell(tasks[i], "LOCAL_ID"), localId))
    ensures DupRows(tasks, events, eventId, partnerId, localId) == []
  {
    if tasks != [] {
      NoMatchNoRows(tasks[1..], events, eventId, partnerId, localId);
    }
  }

  // ----- the database object -----

  class Database {
    var tables: Tables

    /** The five tables, empty. */
    constructor ()
      ensures WellFormed(tables)
      ensures forall n :: n in Entities.ALLOWED ==> tables[n] == []
    {
      tables := map n | n in Entities.ALLOWED :: [];
    }

    /** `con.execute(select)`: the rows of a SELECT, nothing changed. */
    method Select(name: string, conds: Conditions, targets: seq<(string, string, string)>, tagged: bool)
      returns (rows: seq<Kwargs>)
      ensures rows == SelectResult(tables, name, conds, targets, tagged)
    {
      rows := SelectResult(tables, name, conds, targets, tagged);
    }

    /** `_execute_one` with an INSERT inside `with con`: all rows or none. */
    method Insert(name: string, params: seq<Kwargs>, now: int) returns (r: Outcome<int>)
      modifies this
      ensures var e := InsertResult(old(tables), name, params, now);
        && (e.Ok? ==> tables == e.value.0 && r == Ok(e.value.1))
        && (e.Raised? ==> tables == old(tables) && r == Raised(e.error))
    {
      var e := InsertResult(tables, name, params, now);
      if e.Ok? {
        tables := e.value.0;
        r := Ok(e.value.1);
      } else {
        r := Raised(e.error);
      }
    }

    /** `_execute_one` with `update_state`'s UPDATE: the row count. */
    method UpdateState(name: string, id: int, state: int, now: int) returns (count: int)
      modifies this
      ensures (tables, count) == UpdateResult(old(tables), name, id, state, now)
    {
      var u := UpdateResult(tables, name, id, state, now);
      tables := u.0;
      count := u.1;
    }

    /** `_spread_task`. */
    method Spread(taskId: int, now: int) returns (r: Outcome<bool>)
      modifies this
      ensures var e := SpreadResult(old(tables), taskId, now);
        && (e.Ok? ==> tables == e.value && r == Ok(true))
        && (e.Raised? ==> tables == old(tables) && r == Raised(e.error))
    {
      var e := SpreadResult(tables, taskId, now);
      if e.Ok? {
        tables := e.value;
        r := Ok(true);
      } else {
        r := Raised(e.error);
      }
    }
  }
}

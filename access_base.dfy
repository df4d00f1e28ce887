/** `DataAccessBase`: a list of records of one table, the table name it is
    cached under, and the reads and writes that go through the database. */
module AccessBase {
  import opened Wrappers
  import opened Text
  import opened Json
  import opened EntityBase
  import opened Entities
  import opened Storage

  /** The first record's table name ("" for no records). The property
      upper-cases the names, which leaves them as they are (NameIsUpper). */
  function FirstName(data: seq<Entity>): string {
    if data == [] then "" else data[0].Name()
  }

  predicate SameEntity(data: seq<Entity>) {
    forall i :: 0 <= i < |data| ==> data[i].Name() == FirstName(data)
  }

  /** The `name` property: its result and the cached name it leaves. A set
      cache answers at once; otherwise the first record's name is cached,
      and records of another table make the property raise after that. */
  function NameProperty(cache: string, data: seq<Entity>): (Outcome<string>, string) {
    if cache != "" then (Ok(cache), cache)
    else if SameEntity(data) then (Ok(FirstName(data)), FirstName(data))
    else (Raised(MixedEntitiesException), FirstName(data))
  }

  /** `get_result`: its result and the cached name it leaves (the error
      texts evaluate the name property). */
  function ResultProperty(cache: string, data: seq<Entity>, uniq: bool): (Outcome<Entity>, string) {
    if |data| == 0 then (Raised(EntityNotFound), NameProperty(cache, data).1)
    else if uniq && |data| > 1 then
      var n := NameProperty(cache, data);
      (if n.0.Raised? then Raised(n.0.error) else Raised(EntityNotFound), n.1)
    else (Ok(data[0]), cache)
  }

  /** `_execute_select`'s loop: the records built from the rows, up to the
      first row the factory rejects, and that rejection. */
  function Materialise(build: Kwargs -> Outcome<Entity>, rows: seq<Kwargs>): (r: (seq<Entity>, Option<Exception>))
    ensures |r.0| <= |rows|
    ensures r.1.None? ==> |r.0| == |rows|
    ensures forall i :: 0 <= i < |r.0| ==> build(rows[i]) == Ok(r.0[i])
    ensures r.1.Some? ==> |r.0| < |rows| && build(rows[|r.0|]) == Raised(r.1.value)
  {
    if rows == [] then ([], None)
    else
      match build(rows[0])
      case Raised(e) => ([], Some(e))
      case Ok(x) =>
        var rest := Materialise(build, rows[1..]);
        ([x] + rest.0, rest.1)
  }

  /** `_entity_factory` of an access object whose name is `name`. */
  function Factory(codec: Codec, name: string, now: int): Kwargs -> Outcome<Entity> {
    row => EntityFactory(codec, name, row, now)
  }

  /** One row of the loop: a rejected row ends it, a record is prepended. */
  lemma MaterialiseStep(build: Kwargs -> Outcome<Entity>, rows: seq<Kwargs>, i: int)
    requires 0 <= i < |rows|
    ensures build(rows[i]).Raised? ==> Materialise(build, rows[i..]) == ([], Some(build(rows[i]).error))
    ensures build(rows[i]).Ok? ==>
      Materialise(build, rows[i..]) == ([build(rows[i]).value] + Materialise(build, rows[i + 1..]).0, Materialise(build, rows[i + 1..]).1)
  {
    assert rows[i..][0] == rows[i] && rows[i..][1..] == rows[i + 1..];
  }

  /** One turn of the loop of `_execute_select`, from the records built so
      far: a rejected row fixes the outcome, a record is appended. */
  lemma LoadStep(build: Kwargs -> Outcome<Entity>, rows: seq<Kwargs>, i: int, built: seq<Entity>,
                 whole: (seq<Entity>, Option<Exception>))
    requires 0 <= i < |rows|
    requires whole == (built + Materialise(build, rows[i..]).0, Materialise(build, rows[i..]).1)
    ensures build(rows[i]).Raised? ==> whole == (built, Some(build(rows[i]).error))
    ensures build(rows[i]).Ok? ==>
      whole == (built + [build(rows[i]).value] + Materialise(build, rows[i + 1..]).0, Materialise(build, rows[i + 1..]).1)
  {
    MaterialiseStep(build, rows, i);
    if build(rows[i]).Ok? {
      var rest := Materialise(build, rows[i + 1..]).0;
      assert built + ([build(rows[i]).value] + rest) == built + [build(rows[i]).value] + rest;
    } else {
      assert built + [] == built;
    }
  }

  /** The WHERE clause of `read`: not deleted when reading all (the id 0 is
      the DELETED value looked for), else the STATE or the ID. */
  function ReadConditions(entityId: int, byState: bool): Conditions {
    [(FilterColumn(entityId == 0, byState), JInt(entityId))]
  }

  /** The column `read` filters on is one the table has: ID and DELETED
      are on every table, STATE only on the tables with a lifecycle. SQLite
      refuses a statement naming any other ("no such column"). */
  predicate FilterDeclared(name: string, entityId: int, byState: bool) {
    var c := FilterColumn(entityId == 0, byState);
    c == "ID" || c in Names(ColumnsOf(name))
  }

  function ReadTargets(name: string, noJoin: bool): Outcome<seq<(string, string, string)>> {
    JoinTargets(if noJoin then [] else GetJoins(ColumnsOf(name)))
  }

  /** The rows `read` selects for a served table, after building the probe
      record from `{'ID': entity_id}` and the statement. */
  function ReadRows(codec: Codec, ts: Tables, name: string, entityId: int, noJoin: bool, byState: bool, now: int)
    : Outcome<seq<Kwargs>>
  {
    var probe :- EntityFactory(codec, name, map["ID" := JInt(entityId)], now);
    var targets :- ReadTargets(name, noJoin);
    if !TablesPresent(ts, name, targets) || !FilterDeclared(name, entityId, byState) then Raised(DatabaseError)
    else Ok(SelectResult(ts, name, ReadConditions(entityId, byState), targets, true))
  }

  /** `read` got as far as `_execute_select`: the probe record and the
      statement were built, so the held records were cleared. */
  predicate ReadReachesSelect(codec: Codec, name: string, entityId: int, noJoin: bool, now: int) {
    EntityFactory(codec, name, map["ID" := JInt(entityId)], now).Ok? && ReadTargets(name, noJoin).Ok?
  }

  /** Two foreign keys on the id of their tables join those two tables. */
  lemma PairTargets(a: DbColumn, ta: string, b: DbColumn, tb: string)
    requires a.fk == Some(ta + "(" + "ID)") && b.fk == Some(tb + "(" + "ID)")
    requires '(' !in ta && '(' !in tb
    ensures var t := JoinTargets([a, b]);
      t.Ok? && |t.value| == 2 && t.value[0].0 == ta && t.value[1].0 == tb
  {
    FkPartsRoundTrip(ta, "ID)");
    FkPartsRoundTrip(tb, "ID)");
    assert [b][1..] == [];
    assert FkParts(b.fk.value) == Ok((tb, "ID)"));
    assert JoinTargets([]) == Ok([]);
    var rb := JoinTargets([b]);
    assert rb.Ok? && rb.value[0].0 == tb;
    assert [a, b][1..] == [b];
    var ra := JoinTargets([a, b]);
    assert ra == Ok([(ta, RemoveChar("ID)", ')'), a.name)] + rb.value);
  }

  /** Every table joined in is a served table. */
  predicate JoinsServed(targets: seq<(string, string, string)>) {
    forall k :: 0 <= k < |targets| ==> targets[k].0 in ALLOWED
  }

  /** The reference texts of the served tables' ids, as table and key. */
  lemma ReferenceTexts()
    ensures "TASKS(ID)" == "TASKS" + "(" + "ID)"
    ensures "PARTNERS(ID)" == "PARTNERS" + "(" + "ID)"
    ensures "EVENTS(ID)" == "EVENTS" + "(" + "ID)"
    ensures '(' !in "TASKS" && '(' !in "PARTNERS" && '(' !in "EVENTS"
  {
  }

  /** Two joined tables that are both served. */
  lemma ServedPair(t: seq<(string, string, string)>, ta: string, tb: string)
    requires |t| == 2 && t[0].0 == ta && t[1].0 == tb && ta in ALLOWED && tb in ALLOWED
    ensures JoinsServed(t)
  {
  }

  /** A task read joins in partners, then events. */
  lemma TaskTargets(name: string)
    requires name == TaskEntity.NAME
    ensures var t := ReadTargets(name, false);
      t.Ok? && |t.value| == 2 && t.value[0].0 == "PARTNERS" && t.value[1].0 == "EVENTS"
  {
    ReferenceTexts();
    var joins := [TaskEntity.PARTNER_ID_COLUMN, TaskEntity.EVENT_ID_COLUMN];
    assert ReadTargets(name, false) == JoinTargets(joins) by {
      TaskEntity.AllColumns();
      TaskEntity.Joins();
      assert ColumnsOf(name) == TaskEntity.COLUMNS;
    }
    assert TaskEntity.PARTNER_ID_COLUMN.fk == Some("PARTNERS" + "(" + "ID)");
    assert TaskEntity.EVENT_ID_COLUMN.fk == Some("EVENTS" + "(" + "ID)");
    PairTargets(TaskEntity.PARTNER_ID_COLUMN, "PARTNERS", TaskEntity.EVENT_ID_COLUMN, "EVENTS");
  }

  /** A step read joins in tasks, then partners. */
  lemma StepTargets(name: string)
    requires name == StepEntity.NAME
    ensures var t := ReadTargets(name, false);
      t.Ok? && |t.value| == 2 && t.value[0].0 == "TASKS" && t.value[1].0 == "PARTNERS"
  {
    ReferenceTexts();
    var joins := [StepEntity.TASK_ID_COLUMN, StepEntity.PARTNER_ID_COLUMN];
    assert ReadTargets(name, false) == JoinTargets(joins) by {
      StepColumns();
      StepEntity.Joins();
      assert ColumnsOf(name) == StepEntity.COLUMNS;
    }
    assert StepEntity.TASK_ID_COLUMN.fk == Some("TASKS" + "(" + "ID)");
    assert StepEntity.PARTNER_ID_COLUMN.fk == Some("PARTNERS" + "(" + "ID)");
    PairTargets(StepEntity.TASK_ID_COLUMN, "TASKS", StepEntity.PARTNER_ID_COLUMN, "PARTNERS");
  }

  /** A subscriber read joins in events, then partners. */
  lemma SubscriberTargets(name: string)
    requires name == SubscriberEntity.NAME
    ensures var t := ReadTargets(name, false);
      t.Ok? && |t.value| == 2 && t.value[0].0 == "EVENTS" && t.value[1].0 == "PARTNERS"
  {
    ReferenceTexts();
    var joins := [SubscriberEntity.EVENT_ID_COLUMN, SubscriberEntity.PARTNER_ID_COLUMN];
    assert ReadTargets(name, false) == JoinTargets(joins) by {
      SubscriberColumns();
      SubscriberEntity.Joins();
      assert ColumnsOf(name) == SubscriberEntity.COLUMNS;
    }
    assert SubscriberEntity.EVENT_ID_COLUMN.fk == Some("EVENTS" + "(" + "ID)");
    assert SubscriberEntity.PARTNER_ID_COLUMN.fk == Some("PARTNERS" + "(" + "ID)");
    PairTargets(SubscriberEntity.EVENT_ID_COLUMN, "EVENTS", SubscriberEntity.PARTNER_ID_COLUMN, "PARTNERS");
  }

  /** Events and partners join nothing. */
  lemma PlainTargets(name: string)
    requires name == EventEntity.NAME || name == PartnerEntity.NAME
    ensures ReadTargets(name, false) == Ok([])
  {
    if name == EventEntity.NAME {
      EventColumns();
      EventEntity.Joins();
      assert ColumnsOf(name) == EventEntity.COLUMNS;
    } else {
      PartnerColumns();
      PartnerEntity.Joins();
      assert ColumnsOf(name) == PartnerEntity.COLUMNS;
    }
  }

  /** A served table's joins all render, and every table a read joins in
      is itself a served table. */
  lemma {:induction false} JoinedTablesServed(name: string, noJoin: bool)
    requires name in ALLOWED
    ensures ReadTargets(name, noJoin).Ok? && JoinsServed(ReadTargets(name, noJoin).value)
  {
    if noJoin {
      assert ReadTargets(name, noJoin) == JoinTargets([]);
    } else if name == TaskEntity.NAME {
      TaskTargets(name);
      ServedPair(ReadTargets(name, noJoin).value, "PARTNERS", "EVENTS");
    } else if name == StepEntity.NAME {
      StepTargets(name);
      ServedPair(ReadTargets(name, noJoin).value, "TASKS", "PARTNERS");
    } else if name == SubscriberEntity.NAME {
      SubscriberTargets(name);
      ServedPair(ReadTargets(name, noJoin).value, "EVENTS", "PARTNERS");
    } else {
      PlainTargets(name);
    }
  }

  /** A read of a table the database lacks, or of one it joins in, or one
      filtering on a column the table lacks, is refused; in a database
      holding every served table no read is refused for a missing table. */
  lemma ReadNeedsTables(codec: Codec, ts: Tables, name: string, entityId: int, noJoin: bool, byState: bool, now: int)
    requires name in ALLOWED
    ensures ReadTargets(name, noJoin).Ok?
    ensures var rows := ReadRows(codec, ts, name, entityId, noJoin, byState, now);
      var targets := ReadTargets(name, noJoin).value;
      && (name !in ts ==> rows.Raised?)
      && (rows.Ok? ==> TablesPresent(ts, name, targets) && FilterDeclared(name, entityId, byState))
      && (WellFormed(ts) ==> TablesPresent(ts, name, targets))
  {
    JoinedTablesServed(name, noJoin);
    var targets := ReadTargets(name, noJoin).value;
    var probe := EntityFactory(codec, name, map["ID" := JInt(entityId)], now);
    if probe.Ok? {
      assert ReadRows(codec, ts, name, entityId, noJoin, byState, now)
        == if !TablesPresent(ts, name, targets) || !FilterDeclared(name, entityId, byState) then Raised(DatabaseError)
           else Ok(SelectResult(ts, name, ReadConditions(entityId, byState), targets, true));
    }
    if WellFormed(ts) {
      ServedPresent(ts, name, targets);
    }
  }

  /** Every served table has DELETED; only tasks and steps have STATE. */
  lemma StateColumnOwners(name: string)
    requires name in ALLOWED
    ensures "DELETED" in Names(ColumnsOf(name))
    ensures "STATE" in Names(ColumnsOf(name)) <==> name == TaskEntity.NAME || name == StepEntity.NAME
  {
    var ns := Names(ColumnsOf(name));
    assert ns[2] == "DELETED";
    if name == TaskEntity.NAME || name == StepEntity.NAME {
      assert ns[3] == "STATE";
    } else {
      forall i | 0 <= i < |ns|
        ensures ns[i] != "STATE"
      {
        if name == EventEntity.NAME {
          assert ColumnsOf(name) == EventEntity.COLUMNS;
        } else if name == SubscriberEntity.NAME {
          assert ColumnsOf(name) == SubscriberEntity.COLUMNS;
        } else {
          assert ColumnsOf(name) == PartnerEntity.COLUMNS;
        }
      }
    }
  }

  /** `read`'s filter names a column of the table exactly when it is not a
      by-state read, or the table is one of the two with a lifecycle: a
      by-state read of events, subscribers or partners is refused. */
  lemma {:induction false} FilterDeclaredExactly(name: string, entityId: int, byState: bool)
    requires name in ALLOWED
    ensures FilterDeclared(name, entityId, byState)
      <==> entityId == 0 || !byState || name == TaskEntity.NAME || name == StepEntity.NAME
  {
    StateColumnOwners(name);
  }

  /** A well-formed database holds every served table a select names. */
  lemma ServedPresent(ts: Tables, name: string, targets: seq<(string, string, string)>)
    requires WellFormed(ts) && name in ALLOWED
    requires JoinsServed(targets)
    ensures TablesPresent(ts, name, targets)
  {
    forall k | 0 <= k < |targets|
      ensures targets[k].0 in ts
    {
      assert targets[k].0 in ALLOWED;
    }
  }

  /** The record dictionaries `insert` passes, one per record. */
  function DictsOf(codec: Codec, data: seq<Entity>): (r: seq<Kwargs>)
    ensures |r| == |data|
    ensures forall i :: 0 <= i < |data| ==> r[i] == Entities.ToDict(codec, data[i])
  {
    if data == [] then [] else [Entities.ToDict(codec, data[0])] + DictsOf(codec, data[1..])
  }

  /** Once the name is cached it is answered unchanged; a successful
      answer is the cached name. */
  lemma NameCacheStable(cache: string, data: seq<Entity>)
    ensures var n := NameProperty(cache, data);
      && (n.0.Ok? ==> n.0.value == n.1)
      && (n.1 != "" ==> NameProperty(n.1, data) == (Ok(n.1), n.1))
      && (cache != "" ==> n.1 == cache)
  {
  }

  /** Records of two tables: the name raises MixedEntitiesException but
      caches the first record's table, so a later `get_result` that
      expects one record raises EntityNotFound, an IndexError. */
  lemma MixedThenNotFound(data: seq<Entity>)
    requires |data| >= 2 && data[0].Name() != data[1].Name()
    ensures NameProperty("", data) == (Raised(MixedEntitiesException), data[0].Name())
    ensures ResultProperty(data[0].Name(), data, true) == (Raised(EntityNotFound), data[0].Name())
    ensures IsIndexError(ResultProperty(data[0].Name(), data, true).0.error)
  {
    assert data[1].Name() != FirstName(data);
  }

  /** `get_result` answers the first record exactly when there is one, or
      there are several and uniqueness is not asked for; it fails with an
      IndexError, or with MixedEntitiesException from the name it reports. */
  lemma ResultSpec(cache: string, data: seq<Entity>, uniq: bool)
    ensures var r := ResultProperty(cache, data, uniq);
      && (r.0.Ok? <==> |data| > 0 && (!uniq || |data| == 1))
      && (r.0.Ok? ==> r.0.value == data[0] && r.1 == cache)
      && (r.0.Raised? ==>
            IsIndexError(r.0.error)
            || (r.0.error == MixedEntitiesException && cache == "" && !SameEntity(data)))
  {
  }

  /** The records loaded for a served table all belong to it, and a row
      the factory rejects is never blamed on the table name. */
  lemma LoadedNamed(codec: Codec, name: string, rows: seq<Kwargs>, now: int)
    requires name in ALLOWED
    ensures var m := Materialise(Factory(codec, name, now), rows);
      && (forall i :: 0 <= i < |m.0| ==> m.0[i].Name() == name)
      && (m.1.Some? ==> m.1.value != NoValidEntity)
  {
    var m := Materialise(Factory(codec, name, now), rows);
    forall i | 0 <= i < |m.0|
      ensures m.0[i].Name() == name
    {
      FactoryBuildsNamed(codec, name, rows[i], now);
    }
    if m.1.Some? {
      FactoryBuildsNamed(codec, name, rows[|m.0|], now);
    }
  }

  /** Reading all without joins selects exactly the rows not deleted. */
  lemma ReadAllIsNotDeleted(ts: Tables, name: string)
    ensures forall x :: (x in SelectMain(ts, Rows(ts, name), ReadConditions(0, false), [])
                         <==> x in Rows(ts, name) && SqlEq(Cell(x, "DELETED"), JInt(0)))
  {
    SelectWithoutJoinsExact(ts, Rows(ts, name), ReadConditions(0, false));
    forall x
      ensures Matches(x, ReadConditions(0, false)) <==> SqlEq(Cell(x, "DELETED"), JInt(0))
    {
      assert ReadConditions(0, false)[0] == ("DELETED", JInt(0));
    }
  }

  class DataAccess {
    var data: seq<Entity>
    var cachedName: string
    const db: Database
    const codec: Codec

    /** The name is upper-cased; an empty one is learnt from the records. */
    constructor (db: Database, codec: Codec, name: string)
      ensures this.db == db && this.codec == codec
      ensures data == [] && cachedName == Upper(name)
    {
      this.db := db;
      this.codec := codec;
      data := [];
      cachedName := Upper(name);
    }

    /** The `name` property. */
    method GetName() returns (r: Outcome<string>)
      modifies this
      ensures data == old(data)
      ensures (r, cachedName) == NameProperty(old(cachedName), data)
    {
      if cachedName == "" {
        var i := 0;
        while i < |data|
          invariant 0 <= i <= |data|
          invariant data == old(data)
          invariant i == 0 ==> cachedName == ""
          invariant i > 0 ==> cachedName == data[0].Name()
          invariant forall j :: 0 <= j < i ==> data[j].Name() == cachedName
        {
          if i == 0 {
            cachedName := data[i].Name();
          }
          if cachedName != data[i].Name() {
            r := Raised(MixedEntitiesException);
            return;
          }
          i := i + 1;
        }
      }
      r := Ok(cachedName);
    }

    /** `get_result`. */
    method GetResult(uniq: bool) returns (r: Outcome<Entity>)
      modifies this
      ensures data == old(data)
      ensures (r, cachedName) == ResultProperty(old(cachedName), data, uniq)
    {
      if |data| == 0 {
        var _ := GetName();
        return Raised(EntityNotFound);
      }
      if uniq && |data| > 1 {
        var n := GetName();
        if n.Raised? {
          return Raised(n.error);
        }
        return Raised(EntityNotFound);
      }
      r := Ok(data[0]);
    }

    /** `_execute_select` after the statement ran: the records replace the
        held ones; the count is returned unless a row could not be turned
        into a record, which leaves the records built before it. */
    method Load(build: Kwargs -> Outcome<Entity>, rows: seq<Kwargs>) returns (r: Outcome<int>)
      modifies this
      ensures cachedName == old(cachedName)
      ensures data == Materialise(build, rows).0
      ensures r == match Materialise(build, rows).1
                   case None => Ok(|data|)
                   case Some(e) => Raised(e)
    {
      ghost var whole := Materialise(build, rows);
      data := [];
      var i := 0;
      assert rows[0..] == rows;
      assert data + whole.0 == whole.0;
      while i < |rows|
        invariant 0 <= i <= |rows|
        invariant cachedName == old(cachedName)
        invariant whole == (data + Materialise(build, rows[i..]).0, Materialise(build, rows[i..]).1)
      {
        var e := build(rows[i]);
        LoadStep(build, rows, i, data, whole);
        if e.Raised? {
          r := Raised(e.error);
          return;
        }
        data := data + [e.value];
        i := i + 1;
      }
      assert rows[i..] == [];
      r := Ok(|data|);
    }

    /** `read`: a table that is not served reads nothing and answers 0; a
        table the statement names but the database lacks, or a filter
        column the table lacks, is a DatabaseError raised after
        `_execute_select` cleared the records. */
    method Read(entityId: int, noJoin: bool, byState: bool, now: int) returns (r: Outcome<int>)
      modifies this
      ensures var n := NameProperty(old(cachedName), old(data));
        && cachedName == n.1
        && (n.0.Raised? ==> r == Raised(n.0.error) && data == old(data))
        && (n.0.Ok? && n.0.value !in ALLOWED ==> r == Ok(0) && data == old(data))
        && (n.0.Ok? && n.0.value in ALLOWED ==>
              var rows := ReadRows(codec, db.tables, n.0.value, entityId, noJoin, byState, now);
              && (rows.Raised? ==>
                    && r == Raised(rows.error)
                    && data == (if ReadReachesSelect(codec, n.0.value, entityId, noJoin, now) then [] else old(data)))
              && (rows.Ok? ==>
                    var m := Materialise(Factory(codec, n.0.value, now), rows.value);
                    data == m.0 && r == (if m.1.None? then Ok(|m.0|) else Raised(m.1.value))))
    {
      var name :- GetName();
      if name !in ALLOWED {
        return Ok(0);
      }
      var probe :- EntityFactory(codec, name, map["ID" := JInt(entityId)], now);
      var targets :- ReadTargets(name, noJoin);
      assert ReadReachesSelect(codec, name, entityId, noJoin, now);
      if !TablesPresent(db.tables, name, targets) || !FilterDeclared(name, entityId, byState) {
        assert ReadRows(codec, db.tables, name, entityId, noJoin, byState, now) == Raised(DatabaseError);
        data := [];
        return Raised(DatabaseError);
      }
      var rows := db.Select(name, ReadConditions(entityId, byState), targets, true);
      assert ReadRows(codec, db.tables, name, entityId, noJoin, byState, now) == Ok(rows);
      r := Load(Factory(codec, name, now), rows);
    }

    /** `update_state`: the first record's row gets the new state. */
    method UpdateState(state: int, now: int) returns (count: int)
      modifies db
      ensures |data| == 0 ==> count == 0 && db.tables == old(db.tables)
      ensures |data| > 0 ==> (db.tables, count) == UpdateResult(old(db.tables), data[0].Name(), data[0].Id(), state, now)
    {
      if |data| == 0 {
        return 0;
      }
      count := db.UpdateState(data[0].Name(), data[0].Id(), state, now);
    }

    /** `insert`: every held record into the first record's table. */
    method Insert(now: int) returns (r: Outcome<int>)
      modifies db
      ensures |data| == 0 ==> r == Ok(0) && db.tables == old(db.tables)
      ensures |data| > 0 ==>
        var e := InsertResult(old(db.tables), data[0].Name(), DictsOf(codec, data), now);
        && (e.Ok? ==> db.tables == e.value.0 && r == Ok(e.value.1))
        && (e.Raised? ==> db.tables == old(db.tables) && r == Raised(e.error))
    {
      if |data| == 0 {
        return Ok(0);
      }
      r := db.Insert(data[0].Name(), DictsOf(codec, data), now);
    }
  }
}

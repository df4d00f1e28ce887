/** The Task entity: one received transaction request, stored in TASKS. */
module TaskEntity {
  import opened Wrappers
  import opened Text
  import opened Json
  import opened EntityBase

  const NAME: string := "TASKS"

  datatype Task = Task(
    common: Common,
    state: Json,
    localId: Json,
    partnerId: Json,
    eventId: Json,
    data: Json,
    url: Json,
    httpMethod: Json,
    description: Json,
    ipAddress: Json,
    port: Json)

  /** The sender's own id of the transaction. A non-zero LOCAL_ID is kept;
      otherwise DATA is decoded and its ID taken when it has one. Text that
      does not decode is a TaskException; `in` and `[]` on the decoded value
      follow Python (a list or string answers `in`, only a dict can be
      indexed by 'ID'); DATA that is not text cannot be decoded at all. */
  function DeriveLocalId(codec: Codec, localId: Json, data: Json): (r: Outcome<Json>)
    ensures !IsZero(localId) ==> r == Ok(localId)
    ensures IsZero(localId) && data.JStr? && codec.loads(data.s).None? ==> r == Raised(TaskException)
    ensures IsZero(localId) && !data.JStr? ==> r == Raised(TypeError)
    ensures IsZero(localId) && data.JStr? && codec.loads(data.s).Some? && codec.loads(data.s).value.JObj? ==>
      r == Ok(Get(codec.loads(data.s).value.fields, "ID", localId))
  {
    if !IsZero(localId) then Ok(localId)
    else if !data.JStr? then Raised(TypeError)
    else match codec.loads(data.s)
      case None => Raised(TaskException)
      case Some(decoded) =>
        var present :- PyContains(decoded, "ID");
        if present then PyIndex(decoded, "ID") else Ok(localId)
  }

  /** DATA, an empty JSON object when absent. */
  function DataArg(codec: Codec, kwargs: Kwargs): Json {
    Get(kwargs, "DATA", JStr(codec.dumps(JObj(map[]))))
  }

  /** The constructor on a keyword dictionary. */
  function MakeTask(codec: Codec, kwargs: Kwargs, now: int): (r: Outcome<Task>)
    ensures r.Ok? <==>
      (MakeCommon(kwargs, now).Ok? && DeriveLocalId(codec, Get(kwargs, "LOCAL_ID", JInt(0)), DataArg(codec, kwargs)).Ok?)
    ensures r.Ok? ==> r.value.common == MakeCommon(kwargs, now).value
    ensures r.Ok? ==> r.value.localId == DeriveLocalId(codec, Get(kwargs, "LOCAL_ID", JInt(0)), DataArg(codec, kwargs)).value
    ensures r.Ok? ==> r.value.data == DataArg(codec, kwargs)
    ensures r.Ok? ==> r.value.partnerId == Get(kwargs, "PARTNER_ID", JInt(0)) && r.value.eventId == Get(kwargs, "EVENT_ID", JInt(0))
    ensures r.Ok? ==> r.value.state == StateOf(kwargs)
    ensures r.Ok? ==> r.value.url == Get(kwargs, "URL", JStr("")) && r.value.httpMethod == Get(kwargs, "METHOD", JStr("POST"))
    ensures r.Ok? ==> r.value.description == Get(kwargs, "DESCRIPTION", JStr(""))
    ensures r.Ok? ==> r.value.ipAddress == Get(kwargs, "IP_ADDRESS", JStr("")) && r.value.port == Get(kwargs, "PORT", JInt(0))
  {
    var common :- MakeCommon(kwargs, now);
    var data := DataArg(codec, kwargs);
    var localId :- DeriveLocalId(codec, Get(kwargs, "LOCAL_ID", JInt(0)), data);
    Ok(Task(common, StateOf(kwargs), localId, Get(kwargs, "PARTNER_ID", JInt(0)), Get(kwargs, "EVENT_ID", JInt(0)),
            data, Get(kwargs, "URL", JStr("")), Get(kwargs, "METHOD", JStr("POST")),
            Get(kwargs, "DESCRIPTION", JStr("")), Get(kwargs, "IP_ADDRESS", JStr("")), Get(kwargs, "PORT", JInt(0))))
  }

  function OwnColumns(): seq<DbColumn> {
    [MakeColumn("LOCAL_ID", 1, None, "integer", NoDefault),
     MakeColumn("PARTNER_ID", 2, Some("PARTNERS(ID)"), "integer", NoDefault),
     MakeColumn("EVENT_ID", 3, Some("EVENTS(ID)"), "integer", NoDefault),
     MakeColumn("DATA", 4, None, "TEXT", NoDefault)]
  }

  /** The base columns, STATE, then the task's own columns. */
  function Columns(): seq<DbColumn> {
    BaseColumns() + [StateColumn()] + OwnColumns()
  }

  /** `to_dict`: the task's own fields, STATE and the base fields. */
  function ToDict(t: Task): Kwargs
  {
    map["LOCAL_ID" := t.localId, "PARTNER_ID" := t.partnerId, "EVENT_ID" := t.eventId, "DATA" := t.data,
        "URL" := t.url, "METHOD" := t.httpMethod, "DESCRIPTION" := t.description,
        "IP_ADDRESS" := t.ipAddress, "PORT" := t.port, "STATE" := t.state]
      + CommonDict(NAME, t.common)
  }

  /** A task built without arguments: id 0, not deleted, state New, empty
      JSON object as data, local id 0, method POST. */
  lemma {:induction false} Defaults(codec: Codec, now: int)
    requires Lawful(codec)
    ensures MakeTask(codec, map[], now)
      == Ok(Task(Common(0, JInt(now), JInt(now), JBool(false)), JInt(1), JInt(0), JInt(0), JInt(0),
                 JStr(codec.dumps(JObj(map[]))), JStr(""), JStr("POST"), JStr(""), JStr(""), JInt(0)))
  {
    assert codec.loads(codec.dumps(JObj(map[]))) == Some(JObj(map[]));
    assert PyInt(JInt(0)) == Ok(0);
  }

  /** A task rebuilt from its own dictionary is the same task, provided its
      local id is already settled (rederiving it changes nothing). */
  lemma {:induction false} ToDictRoundTrip(codec: Codec, t: Task, now: int)
    requires DeriveLocalId(codec, t.localId, t.data) == Ok(t.localId)
    ensures MakeTask(codec, ToDict(t), now) == Ok(t)
  {
    var d := ToDict(t);
    CommonKeys(t);
    OwnKeys(t);
    TargetKeys(t);
    assert MakeCommon(d, now) == Ok(t.common);
  }

  lemma CommonKeys(t: Task)
    ensures var d := ToDict(t);
      && d["ID"] == JInt(t.common.id) && d["UPDATED_ON"] == t.common.updatedOn
      && d["CREATED_ON"] == t.common.createdOn && d["DELETED"] == t.common.deleted
  {
  }

  lemma OwnKeys(t: Task)
    ensures var d := ToDict(t);
      && d["LOCAL_ID"] == t.localId && d["DATA"] == t.data && d["STATE"] == t.state
      && d["PARTNER_ID"] == t.partnerId && d["EVENT_ID"] == t.eventId
  {
  }

  lemma TargetKeys(t: Task)
    ensures var d := ToDict(t);
      && d["URL"] == t.url && d["METHOD"] == t.httpMethod && d["DESCRIPTION"] == t.description
      && d["IP_ADDRESS"] == t.ipAddress && d["PORT"] == t.port
  {
  }

  // ----- the concrete column list and the statements it gives -----

  const LOCAL_ID_COLUMN := DbColumn("LOCAL_ID", "INTEGER", 1, None, "")
  const PARTNER_ID_COLUMN := DbColumn("PARTNER_ID", "INTEGER", 2, Some("PARTNERS(ID)"), "")
  const EVENT_ID_COLUMN := DbColumn("EVENT_ID", "INTEGER", 3, Some("EVENTS(ID)"), "")
  const DATA_COLUMN := DbColumn("DATA", "TEXT", 4, None, "")

  /** The columns a task renders, in declaration order. */
  const COLUMNS: seq<DbColumn> := [UPDATED_ON_COLUMN, CREATED_ON_COLUMN, DELETED_COLUMN, STATE_COLUMN,
                                   LOCAL_ID_COLUMN, PARTNER_ID_COLUMN, EVENT_ID_COLUMN, DATA_COLUMN]

  lemma AllColumns()
    ensures Columns() == COLUMNS
  {
    ColumnValues();
    BaseColumnValues();
    StateColumnValue();
    AppendColumns(BaseColumns(), StateColumn(), OwnColumns());
  }

  /** The task's own columns: no defaults, so the INSERT names them all. */
  lemma ColumnValues()
    ensures OwnColumns() == [LOCAL_ID_COLUMN, PARTNER_ID_COLUMN, EVENT_ID_COLUMN, DATA_COLUMN]
  {
    LocalIdColumn();
    PartnerIdColumn();
    EventIdColumn();
    DataColumn();
  }

  lemma LocalIdColumn() ensures OwnColumns()[0] == LOCAL_ID_COLUMN {}
  lemma PartnerIdColumn() ensures OwnColumns()[1] == PARTNER_ID_COLUMN {}
  lemma EventIdColumn() ensures OwnColumns()[2] == EVENT_ID_COLUMN {}
  lemma DataColumn() ensures OwnColumns()[3] == DATA_COLUMN { UpperKeeps("TEXT"); }

  lemma AppendColumns(b: seq<DbColumn>, st: DbColumn, o: seq<DbColumn>)
    requires |b| == 3 && |o| == 4
    ensures b + [st] + o == [b[0], b[1], b[2], st, o[0], o[1], o[2], o[3]]
  {
  }

  lemma SortOwn()
    ensures SortByIndex([LOCAL_ID_COLUMN, PARTNER_ID_COLUMN, EVENT_ID_COLUMN, DATA_COLUMN])
      == [LOCAL_ID_COLUMN, PARTNER_ID_COLUMN, EVENT_ID_COLUMN, DATA_COLUMN]
  {
    var l, p, e, d := LOCAL_ID_COLUMN, PARTNER_ID_COLUMN, EVENT_ID_COLUMN, DATA_COLUMN;
    SortStep(d, []);
    assert SortByIndex([d]) == [d];
    SortStep(e, [d]);
    InsertStep(e, d, []);
    assert SortByIndex([e, d]) == [e, d];
    SortStep(p, [e, d]);
    InsertStep(p, e, [d]);
    assert SortByIndex([p, e, d]) == [p, e, d];
    SortStep(l, [p, e, d]);
    InsertStep(l, p, [e, d]);
  }

  lemma SortWithState()
    ensures SortByIndex([STATE_COLUMN, LOCAL_ID_COLUMN, PARTNER_ID_COLUMN, EVENT_ID_COLUMN, DATA_COLUMN])
      == [LOCAL_ID_COLUMN, PARTNER_ID_COLUMN, EVENT_ID_COLUMN, DATA_COLUMN, STATE_COLUMN]
  {
    var s, l, p, e, d := STATE_COLUMN, LOCAL_ID_COLUMN, PARTNER_ID_COLUMN, EVENT_ID_COLUMN, DATA_COLUMN;
    SortOwn();
    SortStep(s, [l, p, e, d]);
    InsertStep(s, l, [p, e, d]);
    InsertStep(s, p, [e, d]);
    InsertStep(s, e, [d]);
    InsertStep(s, d, []);
  }

  lemma SortWithDeleted()
    ensures SortByIndex([DELETED_COLUMN, STATE_COLUMN, LOCAL_ID_COLUMN, PARTNER_ID_COLUMN, EVENT_ID_COLUMN, DATA_COLUMN])
      == [LOCAL_ID_COLUMN, PARTNER_ID_COLUMN, EVENT_ID_COLUMN, DATA_COLUMN, STATE_COLUMN, DELETED_COLUMN]
  {
    var x, s, l, p, e, d := DELETED_COLUMN, STATE_COLUMN, LOCAL_ID_COLUMN, PARTNER_ID_COLUMN, EVENT_ID_COLUMN, DATA_COLUMN;
    SortWithState();
    SortStep(x, [s, l, p, e, d]);
    InsertStep(x, l, [p, e, d, s]);
    InsertStep(x, p, [e, d, s]);
    InsertStep(x, e, [d, s]);
    InsertStep(x, d, [s]);
    InsertStep(x, s, []);
  }

  lemma SortWithCreated()
    ensures SortByIndex([CREATED_ON_COLUMN, DELETED_COLUMN, STATE_COLUMN, LOCAL_ID_COLUMN, PARTNER_ID_COLUMN, EVENT_ID_COLUMN, DATA_COLUMN])
      == [LOCAL_ID_COLUMN, PARTNER_ID_COLUMN, EVENT_ID_COLUMN, DATA_COLUMN, STATE_COLUMN, CREATED_ON_COLUMN, DELETED_COLUMN]
  {
    var c, x, s, l, p, e, d := CREATED_ON_COLUMN, DELETED_COLUMN, STATE_COLUMN, LOCAL_ID_COLUMN, PARTNER_ID_COLUMN, EVENT_ID_COLUMN, DATA_COLUMN;
    SortWithDeleted();
    SortStep(c, [x, s, l, p, e, d]);
    InsertStep(c, l, [p, e, d, s, x]);
    InsertStep(c, p, [e, d, s, x]);
    InsertStep(c, e, [d, s, x]);
    InsertStep(c, d, [s, x]);
    InsertStep(c, s, [x]);
    InsertStep(c, x, []);
  }

  lemma SortAll()
    ensures SortByIndex([UPDATED_ON_COLUMN, CREATED_ON_COLUMN, DELETED_COLUMN, STATE_COLUMN,
                         LOCAL_ID_COLUMN, PARTNER_ID_COLUMN, EVENT_ID_COLUMN, DATA_COLUMN])
      == [LOCAL_ID_COLUMN, PARTNER_ID_COLUMN, EVENT_ID_COLUMN, DATA_COLUMN,
          STATE_COLUMN, UPDATED_ON_COLUMN, CREATED_ON_COLUMN, DELETED_COLUMN]
  {
    var u, c, x, s, l, p, e, d := UPDATED_ON_COLUMN, CREATED_ON_COLUMN, DELETED_COLUMN, STATE_COLUMN, LOCAL_ID_COLUMN, PARTNER_ID_COLUMN, EVENT_ID_COLUMN, DATA_COLUMN;
    SortWithCreated();
    SortStep(u, [c, x, s, l, p, e, d]);
    InsertStep(u, l, [p, e, d, s, c, x]);
    InsertStep(u, p, [e, d, s, c, x]);
    InsertStep(u, e, [d, s, c, x]);
    InsertStep(u, d, [s, c, x]);
    InsertStep(u, s, [c, x]);
    InsertStep(u, c, [x]);
  }

  /** The table lists its columns by index: own columns, STATE, then the
      time stamps and the deletion flag. */
  lemma SortedColumns()
    ensures SortByIndex(Columns()) == [LOCAL_ID_COLUMN, PARTNER_ID_COLUMN, EVENT_ID_COLUMN, DATA_COLUMN,
                                       STATE_COLUMN, UPDATED_ON_COLUMN, CREATED_ON_COLUMN, DELETED_COLUMN]
  {
    AllColumns();
    SortAll();
  }

  /** Of the task's own columns, PARTNER_ID and EVENT_ID are foreign keys. */
  lemma FkOwn()
    ensures FkColumns([LOCAL_ID_COLUMN, PARTNER_ID_COLUMN, EVENT_ID_COLUMN, DATA_COLUMN]) == [PARTNER_ID_COLUMN, EVENT_ID_COLUMN]
  {
    var l, p, e, d := LOCAL_ID_COLUMN, PARTNER_ID_COLUMN, EVENT_ID_COLUMN, DATA_COLUMN;
    FkStep(d, []);
    FkStep(e, [d]);
    FkStep(p, [e, d]);
    FkStep(l, [p, e, d]);
  }

  /** The foreign keys are PARTNER_ID then EVENT_ID. */
  lemma Joins()
    ensures GetJoins(Columns()) == [PARTNER_ID_COLUMN, EVENT_ID_COLUMN]
  {
    ColumnValues();
    StatefulPrefix(OwnColumns());
    FkOwn();
    SortTwo(PARTNER_ID_COLUMN, EVENT_ID_COLUMN);
  }

  /** The CREATE TABLE text of TASKS: the header, then one line per column
      by index and one constraint per foreign key, separated by ",\n" with
      none after the last, then ");". */
  lemma TableText()
    ensures CreateTableStatement(NAME, Columns())
      == TableHeader(NAME)
         + JoinWith(Indented(
             ColumnLines([LOCAL_ID_COLUMN, PARTNER_ID_COLUMN, EVENT_ID_COLUMN, DATA_COLUMN,
                          STATE_COLUMN, UPDATED_ON_COLUMN, CREATED_ON_COLUMN, DELETED_COLUMN])
             + ConstraintLines(NAME, [PARTNER_ID_COLUMN, EVENT_ID_COLUMN])), ",\n")
         + ");"
  {
    AllColumns();
    CreateTableShape(NAME, Columns());
    SortedColumns();
    Joins();
  }

  /** The own column lines: an empty default leaves a trailing blank. */
  lemma OwnLines()
    ensures ColumnLine(LOCAL_ID_COLUMN) == "LOCAL_ID INTEGER "
    ensures ColumnLine(PARTNER_ID_COLUMN) == "PARTNER_ID INTEGER "
    ensures ColumnLine(EVENT_ID_COLUMN) == "EVENT_ID INTEGER "
    ensures ColumnLine(DATA_COLUMN) == "DATA TEXT "
  {
  }

  /** The STATE and DELETED lines carry their defaults. */
  lemma DefaultedLines()
    ensures ColumnLine(STATE_COLUMN) == "STATE INTEGER DEFAULT(1)"
    ensures ColumnLine(DELETED_COLUMN) == "DELETED INTEGER DEFAULT(0)"
  {
  }

  lemma InsertOwn()
    ensures InsertColumns([LOCAL_ID_COLUMN, PARTNER_ID_COLUMN, EVENT_ID_COLUMN, DATA_COLUMN])
      == [LOCAL_ID_COLUMN, PARTNER_ID_COLUMN, EVENT_ID_COLUMN, DATA_COLUMN]
  {
    var l, p, e, d := LOCAL_ID_COLUMN, PARTNER_ID_COLUMN, EVENT_ID_COLUMN, DATA_COLUMN;
    InsertColumnsStep(d, []);
    InsertColumnsStep(e, [d]);
    InsertColumnsStep(p, [e, d]);
    InsertColumnsStep(l, [p, e, d]);
  }

  /** The INSERT names the four own columns; all others have defaults. */
  lemma InsertNames()
    ensures InsertColumns(Columns()) == [LOCAL_ID_COLUMN, PARTNER_ID_COLUMN, EVENT_ID_COLUMN, DATA_COLUMN]
  {
    ColumnValues();
    StatefulPrefix(OwnColumns());
    InsertOwn();
  }
}

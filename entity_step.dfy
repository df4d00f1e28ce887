/** The ProcessingStep entity: the delivery of one task to one subscribing
    partner, stored in PROCESSING_STEPS. */
module StepEntity {
  import opened Wrappers
  import opened Json
  import opened EntityBase

  const NAME: string := "PROCESSING_STEPS"

  /** Every step is delivered with POST to the `orders` path, whatever the
      record says. */
  const METHOD: string := "POST"
  const URL: string := "orders"

  /** The ip address, port, data and local id reach a step through the joins
      of its SELECT with TASKS and PARTNERS. */
  datatype Step = Step(
    common: Common,
    state: Json,
    taskId: Json,
    partnerId: Json,
    localId: Json,
    eventId: Json,
    data: Json,
    ipAddress: Json,
    port: Json,
    description: Json)

  /** The constructor on a keyword dictionary; only `int(ID)` can fail. */
  function MakeStep(codec: Codec, kwargs: Kwargs, now: int): (r: Outcome<Step>)
    ensures r.Ok? <==> PyInt(Get(kwargs, "ID", JInt(0))).Ok?
    ensures r.Ok? ==> r.value.common.id == PyInt(Get(kwargs, "ID", JInt(0))).value
  {
    var common :- MakeCommon(kwargs, now);
    Ok(Step(common, StateOf(kwargs), Get(kwargs, "TASK_ID", JInt(0)), Get(kwargs, "PARTNER_ID", JInt(0)),
            Get(kwargs, "LOCAL_ID", JInt(0)), Get(kwargs, "EVENT_ID", JInt(0)),
            Get(kwargs, "DATA", JStr(codec.dumps(JObj(map[])))),
            Get(kwargs, "IP_ADDRESS", JStr("localhost")), Get(kwargs, "PORT", JStr("80")),
            Get(kwargs, "DESCRIPTION", JStr(""))))
  }

  function OwnColumns(): seq<DbColumn> {
    [MakeColumn("TASK_ID", 1, Some("TASKS(ID)"), "integer", NoDefault),
     MakeColumn("PARTNER_ID", 2, Some("PARTNERS(ID)"), "integer", NoDefault)]
  }

  function Columns(): seq<DbColumn> {
    BaseColumns() + [StateColumn()] + OwnColumns()
  }

  /** `to_dict`: the step's fields, STATE and the base fields. */
  function ToDict(s: Step): Kwargs {
    map["TASK_ID" := s.taskId, "PARTNER_ID" := s.partnerId, "LOCAL_ID" := s.localId,
        "EVENT_ID" := s.eventId, "DATA" := s.data, "DESCRIPTION" := s.description,
        "IP_ADDRESS" := s.ipAddress, "PORT" := s.port, "STATE" := s.state]
      + CommonDict(NAME, s.common)
  }

  /** The keys `to_dict` writes (besides the lower-case `name`). */
  predicate IsStepKey(k: string) {
    k in {"TASK_ID", "PARTNER_ID", "LOCAL_ID", "EVENT_ID", "DATA", "DESCRIPTION", "IP_ADDRESS", "PORT",
          "STATE", "ID", "UPDATED_ON", "CREATED_ON", "DELETED"}
  }

  /** A step built from nothing: id 0, no task or partner, an empty JSON
      object as data, localhost port 80, state New, not deleted. */
  lemma Defaults(codec: Codec, now: int)
    ensures MakeStep(codec, map[], now) == Ok(Step(
      Common(0, JInt(now), JInt(now), JBool(false)), JInt(1), JInt(0), JInt(0), JInt(0), JInt(0),
      JStr(codec.dumps(JObj(map[]))), JStr("localhost"), JStr("80"), JStr("")))
  {
  }

  /** A step built from a record carries the record's ID, TASK_ID and
      PARTNER_ID. */
  lemma RecordFields(codec: Codec, kwargs: Kwargs, now: int, id: int)
    requires "ID" in kwargs && kwargs["ID"] == JInt(id)
    ensures MakeStep(codec, kwargs, now).Ok?
    ensures var s := MakeStep(codec, kwargs, now).value;
      s.common.id == id
      && ("TASK_ID" in kwargs ==> s.taskId == kwargs["TASK_ID"])
      && ("PARTNER_ID" in kwargs ==> s.partnerId == kwargs["PARTNER_ID"])
  {
  }

  /** `to_dict` of a step built from a record holds every entry of that
      record, when the record only uses the step's keys and its ID is an
      integer. */
  lemma ToDictContainsRecord(codec: Codec, kwargs: Kwargs, now: int)
    requires forall k :: k in kwargs ==> IsStepKey(k)
    requires "ID" in kwargs ==> kwargs["ID"].JInt?
    ensures MakeStep(codec, kwargs, now).Ok?
    ensures var d := ToDict(MakeStep(codec, kwargs, now).value);
      forall k :: k in kwargs ==> k in d && d[k] == kwargs[k]
  {
    var s := MakeStep(codec, kwargs, now).value;
    OwnKeys(s);
    TargetKeys(s);
    CommonKeys(s);
  }

  lemma OwnKeys(s: Step)
    ensures var d := ToDict(s);
      && d["TASK_ID"] == s.taskId && d["PARTNER_ID"] == s.partnerId && d["LOCAL_ID"] == s.localId
      && d["EVENT_ID"] == s.eventId && d["DATA"] == s.data
  {
  }

  lemma TargetKeys(s: Step)
    ensures var d := ToDict(s);
      && d["DESCRIPTION"] == s.description && d["IP_ADDRESS"] == s.ipAddress && d["PORT"] == s.port
      && d["STATE"] == s.state
  {
  }

  lemma CommonKeys(s: Step)
    ensures var d := ToDict(s);
      && d["ID"] == JInt(s.common.id) && d["UPDATED_ON"] == s.common.updatedOn
      && d["CREATED_ON"] == s.common.createdOn && d["DELETED"] == s.common.deleted
  {
  }

  /** Building a step from its own `to_dict` gives the step back. */
  lemma ToDictRoundTrip(codec: Codec, s: Step, now: int)
    ensures MakeStep(codec, ToDict(s), now) == Ok(s)
  {
    var d := ToDict(s);
    OwnKeys(s);
    TargetKeys(s);
    CommonKeys(s);
    assert MakeCommon(d, now) == Ok(s.common);
  }

  // ----- the concrete column list -----

  const TASK_ID_COLUMN := DbColumn("TASK_ID", "INTEGER", 1, Some("TASKS(ID)"), "")
  const PARTNER_ID_COLUMN := DbColumn("PARTNER_ID", "INTEGER", 2, Some("PARTNERS(ID)"), "")

  /** The columns a step renders, in declaration order. */
  const COLUMNS: seq<DbColumn> := [UPDATED_ON_COLUMN, CREATED_ON_COLUMN, DELETED_COLUMN, STATE_COLUMN,
                                   TASK_ID_COLUMN, PARTNER_ID_COLUMN]

  lemma ColumnValues()
    ensures OwnColumns() == [TASK_ID_COLUMN, PARTNER_ID_COLUMN]
  {
    TaskIdColumn();
    PartnerIdColumn();
  }

  lemma TaskIdColumn() ensures OwnColumns()[0] == TASK_ID_COLUMN {}
  lemma PartnerIdColumn() ensures OwnColumns()[1] == PARTNER_ID_COLUMN {}

  /** A step joins TASKS through TASK_ID, then PARTNERS through PARTNER_ID. */
  lemma Joins()
    ensures GetJoins(Columns()) == [TASK_ID_COLUMN, PARTNER_ID_COLUMN]
  {
    ColumnValues();
    StatefulPrefix(OwnColumns());
    FkStep(PARTNER_ID_COLUMN, []);
    FkStep(TASK_ID_COLUMN, [PARTNER_ID_COLUMN]);
    SortTwo(TASK_ID_COLUMN, PARTNER_ID_COLUMN);
  }

  /** The INSERT names exactly TASK_ID and PARTNER_ID; state, time stamps
      and the deletion flag come from the column defaults. */
  lemma InsertNames()
    ensures InsertColumns(Columns()) == [TASK_ID_COLUMN, PARTNER_ID_COLUMN]
  {
    ColumnValues();
    StatefulPrefix(OwnColumns());
    InsertOwn();
  }

  lemma InsertOwn()
    ensures InsertColumns([TASK_ID_COLUMN, PARTNER_ID_COLUMN]) == [TASK_ID_COLUMN, PARTNER_ID_COLUMN]
  {
    InsertColumnsStep(PARTNER_ID_COLUMN, []);
    InsertColumnsStep(TASK_ID_COLUMN, [PARTNER_ID_COLUMN]);
  }
}

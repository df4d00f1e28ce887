/** The Event entity: a url and request method the distributor accepts,
    stored in EVENTS. */
module EventEntity {
  import opened Wrappers
  import opened Text
  import opened Json
  import opened EntityBase

  const NAME: string := "EVENTS"

  datatype Event = Event(common: Common, url: Json, httpMethod: Json, description: Json)

  /** The constructor on a keyword dictionary; only `int(ID)` can fail. */
  function MakeEvent(kwargs: Kwargs, now: int): (r: Outcome<Event>)
    ensures r.Ok? <==> PyInt(Get(kwargs, "ID", JInt(0))).Ok?
    ensures r.Ok? ==> r.value.common.id == PyInt(Get(kwargs, "ID", JInt(0))).value
  {
    var common :- MakeCommon(kwargs, now);
    Ok(Event(common, Get(kwargs, "URL", JStr("")), Get(kwargs, "METHOD", JStr("POST")),
             Get(kwargs, "DESCRIPTION", JStr(""))))
  }

  /** URL has no default, METHOD defaults to POST, DESCRIPTION to the empty
      text. */
  function OwnColumns(): seq<DbColumn> {
    [MakeColumn("URL", 1, None, "TEXT", NoDefault),
     MakeColumn("METHOD", 2, None, "TEXT", GivenText("POST")),
     MakeColumn("DESCRIPTION", 3, None, "TEXT", GivenText(DEFAULT_KEYWORD))]
  }

  function Columns(): seq<DbColumn> {
    BaseColumns() + OwnColumns()
  }

  function ToDict(e: Event): Kwargs {
    map["METHOD" := e.httpMethod, "URL" := e.url, "DESCRIPTION" := e.description]
      + CommonDict(NAME, e.common)
  }

  predicate IsEventKey(k: string) {
    k in {"METHOD", "URL", "DESCRIPTION", "ID", "UPDATED_ON", "CREATED_ON", "DELETED"}
  }

  /** An event built from nothing: id 0, empty url, POST, not deleted. */
  lemma Defaults(now: int)
    ensures MakeEvent(map[], now) == Ok(Event(Common(0, JInt(now), JInt(now), JBool(false)), JStr(""), JStr("POST"), JStr("")))
  {
  }

  lemma OwnKeys(e: Event)
    ensures var d := ToDict(e);
      d["METHOD"] == e.httpMethod && d["URL"] == e.url && d["DESCRIPTION"] == e.description
  {
  }

  lemma CommonKeys(e: Event)
    ensures var d := ToDict(e);
      && d["ID"] == JInt(e.common.id) && d["UPDATED_ON"] == e.common.updatedOn
      && d["CREATED_ON"] == e.common.createdOn && d["DELETED"] == e.common.deleted
  {
  }

  /** `to_dict` of an event built from a record holds every entry of that
      record (when it only uses the event's keys and its ID is an integer),
      and a record without DELETED reports a deletion flag equal to 0. */
  lemma ToDictContainsRecord(kwargs: Kwargs, now: int)
    requires forall k :: k in kwargs ==> IsEventKey(k)
    requires "ID" in kwargs ==> kwargs["ID"].JInt?
    ensures MakeEvent(kwargs, now).Ok?
    ensures var d := ToDict(MakeEvent(kwargs, now).value);
      && (forall k :: k in kwargs ==> k in d && d[k] == kwargs[k])
      && ("DELETED" !in kwargs ==> IsZero(d["DELETED"]))
  {
    var e := MakeEvent(kwargs, now).value;
    OwnKeys(e);
    CommonKeys(e);
  }

  /** Building an event from its own `to_dict` gives the event back. */
  lemma ToDictRoundTrip(e: Event, now: int)
    ensures MakeEvent(ToDict(e), now) == Ok(e)
  {
    OwnKeys(e);
    CommonKeys(e);
    assert MakeCommon(ToDict(e), now) == Ok(e.common);
  }

  // ----- the concrete column list -----

  const URL_COLUMN := DbColumn("URL", "TEXT", 1, None, "")
  const METHOD_COLUMN := DbColumn("METHOD", "TEXT", 2, None, "DEFAULT(POST)")
  const DESCRIPTION_COLUMN := DbColumn("DESCRIPTION", "TEXT", 3, None, "DEFAULT('')")

  /** The columns an event renders, in declaration order. */
  const COLUMNS: seq<DbColumn> := [UPDATED_ON_COLUMN, CREATED_ON_COLUMN, DELETED_COLUMN, URL_COLUMN, METHOD_COLUMN, DESCRIPTION_COLUMN]

  lemma ColumnValues()
    ensures OwnColumns() == [URL_COLUMN, METHOD_COLUMN, DESCRIPTION_COLUMN]
  {
    UrlColumn();
    MethodColumn();
    DescriptionColumn();
  }

  lemma UrlColumn() ensures OwnColumns()[0] == URL_COLUMN { UpperKeeps("TEXT"); }

  lemma MethodColumn() ensures OwnColumns()[1] == METHOD_COLUMN {
    UpperKeeps("TEXT");
    assert DefaultClause("TEXT", GivenText("POST")) == "DEFAULT(POST)";
  }

  lemma DescriptionColumn() ensures OwnColumns()[2] == DESCRIPTION_COLUMN {
    UpperKeeps("TEXT");
    assert DefaultClause("TEXT", GivenText(DEFAULT_KEYWORD)) == "DEFAULT('')";
  }

  /** Only URL has no default, so an INSERT names URL alone. */
  lemma InsertNames()
    ensures InsertColumns(Columns()) == [URL_COLUMN]
  {
    ColumnValues();
    StatelessPrefix(OwnColumns());
    InsertOwn();
  }

  lemma InsertOwn()
    ensures InsertColumns([URL_COLUMN, METHOD_COLUMN, DESCRIPTION_COLUMN]) == [URL_COLUMN]
  {
    InsertColumnsStep(DESCRIPTION_COLUMN, []);
    InsertColumnsStep(METHOD_COLUMN, [DESCRIPTION_COLUMN]);
    InsertColumnsStep(URL_COLUMN, [METHOD_COLUMN, DESCRIPTION_COLUMN]);
  }

  /** Events refer to nothing. */
  lemma Joins()
    ensures GetJoins(Columns()) == []
  {
    ColumnValues();
    StatelessPrefix(OwnColumns());
    FkStep(DESCRIPTION_COLUMN, []);
    FkStep(METHOD_COLUMN, [DESCRIPTION_COLUMN]);
    FkStep(URL_COLUMN, [METHOD_COLUMN, DESCRIPTION_COLUMN]);
  }
}

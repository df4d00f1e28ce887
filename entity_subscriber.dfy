/** The Subscriber entity: a partner's subscription to an event, stored in
    SUBSCRIBERS. */
module SubscriberEntity {
  import opened Wrappers
  import opened Text
  import opened Json
  import opened EntityBase

  const NAME: string := "SUBSCRIBERS"

  datatype Subscriber = Subscriber(
    common: Common,
    eventId: Json,
    partnerId: Json,
    url: Json,
    httpMethod: Json,
    description: Json,
    ipAddress: Json,
    port: Json)

  /** The constructor on a keyword dictionary; only `int(ID)` can fail. */
  function MakeSubscriber(kwargs: Kwargs, now: int): (r: Outcome<Subscriber>)
    ensures r.Ok? <==> PyInt(Get(kwargs, "ID", JInt(0))).Ok?
    ensures r.Ok? ==> r.value.common.id == PyInt(Get(kwargs, "ID", JInt(0))).value
  {
    var common :- MakeCommon(kwargs, now);
    Ok(Subscriber(common, Get(kwargs, "EVENT_ID", JInt(0)), Get(kwargs, "PARTNER_ID", JInt(0)),
                  Get(kwargs, "URL", JStr("")), Get(kwargs, "METHOD", JStr("POST")),
                  Get(kwargs, "DESCRIPTION", JStr("")), Get(kwargs, "IP_ADDRESS", JStr("")),
                  Get(kwargs, "PORT", JInt(0))))
  }

  function OwnColumns(): seq<DbColumn> {
    [MakeColumn("EVENT_ID", 1, Some("EVENTS(ID)"), "INTEGER", NoDefault),
     MakeColumn("PARTNER_ID", 2, Some("PARTNERS(ID)"), "INTEGER", NoDefault)]
  }

  function Columns(): seq<DbColumn> {
    BaseColumns() + OwnColumns()
  }

  /** `to_dict`; the ip address is reported through `str()`. */
  function ToDict(codec: Codec, s: Subscriber): Kwargs {
    map["EVENT_ID" := s.eventId, "PARTNER_ID" := s.partnerId, "METHOD" := s.httpMethod,
        "URL" := s.url, "DESCRIPTION" := s.description,
        "IP_ADDRESS" := JStr(PyStr(codec, s.ipAddress)), "PORT" := s.port]
      + CommonDict(NAME, s.common)
  }

  /** A subscriber built from nothing: no event or partner, POST, an empty
      ip address and port 0. */
  lemma Defaults(now: int)
    ensures MakeSubscriber(map[], now) == Ok(Subscriber(
      Common(0, JInt(now), JInt(now), JBool(false)), JInt(0), JInt(0), JStr(""), JStr("POST"), JStr(""),
      JStr(""), JInt(0)))
  {
  }

  lemma Keys(codec: Codec, s: Subscriber)
    ensures var d := ToDict(codec, s);
      && d["EVENT_ID"] == s.eventId && d["PARTNER_ID"] == s.partnerId && d["METHOD"] == s.httpMethod
      && d["URL"] == s.url
  {
  }

  lemma TargetKeys(codec: Codec, s: Subscriber)
    ensures var d := ToDict(codec, s);
      && d["DESCRIPTION"] == s.description && d["IP_ADDRESS"] == JStr(PyStr(codec, s.ipAddress)) && d["PORT"] == s.port
  {
  }

  lemma CommonKeys(codec: Codec, s: Subscriber)
    ensures var d := ToDict(codec, s);
      && d["ID"] == JInt(s.common.id) && d["UPDATED_ON"] == s.common.updatedOn
      && d["CREATED_ON"] == s.common.createdOn && d["DELETED"] == s.common.deleted
  {
  }

  /** The ip address is always reported as text; a subscriber whose ip
      address already is text is rebuilt unchanged from its `to_dict`. */
  lemma ToDictRoundTrip(codec: Codec, s: Subscriber, now: int)
    ensures ToDict(codec, s)["IP_ADDRESS"].JStr?
    ensures s.ipAddress.JStr? ==> MakeSubscriber(ToDict(codec, s), now) == Ok(s)
  {
    Keys(codec, s);
    TargetKeys(codec, s);
    CommonKeys(codec, s);
    assert MakeCommon(ToDict(codec, s), now) == Ok(s.common);
  }

  // ----- the concrete column list -----

  const EVENT_ID_COLUMN := DbColumn("EVENT_ID", "INTEGER", 1, Some("EVENTS(ID)"), "")
  const PARTNER_ID_COLUMN := DbColumn("PARTNER_ID", "INTEGER", 2, Some("PARTNERS(ID)"), "")

  /** The columns a subscriber renders, in declaration order. */
  const COLUMNS: seq<DbColumn> := [UPDATED_ON_COLUMN, CREATED_ON_COLUMN, DELETED_COLUMN, EVENT_ID_COLUMN, PARTNER_ID_COLUMN]

  lemma ColumnValues()
    ensures OwnColumns() == [EVENT_ID_COLUMN, PARTNER_ID_COLUMN]
  {
    EventIdColumn();
    PartnerIdColumn();
  }

  lemma EventIdColumn() ensures OwnColumns()[0] == EVENT_ID_COLUMN { UpperKeeps("INTEGER"); }
  lemma PartnerIdColumn() ensures OwnColumns()[1] == PARTNER_ID_COLUMN { UpperKeeps("INTEGER"); }

  /** A subscriber joins EVENTS, then PARTNERS. */
  lemma Joins()
    ensures GetJoins(Columns()) == [EVENT_ID_COLUMN, PARTNER_ID_COLUMN]
  {
    ColumnValues();
    StatelessPrefix(OwnColumns());
    FkStep(PARTNER_ID_COLUMN, []);
    FkStep(EVENT_ID_COLUMN, [PARTNER_ID_COLUMN]);
    SortTwo(EVENT_ID_COLUMN, PARTNER_ID_COLUMN);
  }
}

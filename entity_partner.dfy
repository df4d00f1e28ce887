/** The Partner entity, as far as the pipeline needs it: the address a
    processing step is delivered to, stored in PARTNERS. Parsing and
    normalising the address is not modelled; it is kept as given. */
module PartnerEntity {
  import opened Wrappers
  import opened Text
  import opened Json
  import opened EntityBase

  const NAME: string := "PARTNERS"

  datatype Partner = Partner(common: Common, ipAddress: Json, port: Json, description: Json)

  function MakePartner(kwargs: Kwargs, now: int): (r: Outcome<Partner>)
    ensures r.Ok? <==> PyInt(Get(kwargs, "ID", JInt(0))).Ok?
    ensures r.Ok? ==> r.value.common.id == PyInt(Get(kwargs, "ID", JInt(0))).value
  {
    var common :- MakeCommon(kwargs, now);
    Ok(Partner(common, Get(kwargs, "IP_ADDRESS", JStr("127.0.0.1")), Get(kwargs, "PORT", JStr("80")),
               Get(kwargs, "DESCRIPTION", JStr(""))))
  }

  function OwnColumns(): seq<DbColumn> {
    [MakeColumn("IP_ADDRESS", 1, None, "TEXT", NoDefault),
     MakeColumn("PORT", 2, None, "integer", NoDefault),
     MakeColumn("DESCRIPTION", 3, None, "TEXT", NoDefault)]
  }

  function Columns(): seq<DbColumn> {
    BaseColumns() + OwnColumns()
  }

  function ToDict(codec: Codec, p: Partner): Kwargs {
    map["IP_ADDRESS" := JStr(PyStr(codec, p.ipAddress)), "PORT" := p.port, "DESCRIPTION" := p.description]
      + CommonDict(NAME, p.common)
  }

  /** A partner built from nothing is the local host on port 80. */
  lemma Defaults(now: int)
    ensures MakePartner(map[], now) == Ok(Partner(
      Common(0, JInt(now), JInt(now), JBool(false)), JStr("127.0.0.1"), JStr("80"), JStr("")))
  {
  }

  const IP_ADDRESS_COLUMN := DbColumn("IP_ADDRESS", "TEXT", 1, None, "")
  const PORT_COLUMN := DbColumn("PORT", "INTEGER", 2, None, "")
  const DESCRIPTION_COLUMN := DbColumn("DESCRIPTION", "TEXT", 3, None, "")

  /** The columns a partner renders, in declaration order. */
  const COLUMNS: seq<DbColumn> := [UPDATED_ON_COLUMN, CREATED_ON_COLUMN, DELETED_COLUMN, IP_ADDRESS_COLUMN, PORT_COLUMN, DESCRIPTION_COLUMN]

  lemma ColumnValues()
    ensures OwnColumns() == [IP_ADDRESS_COLUMN, PORT_COLUMN, DESCRIPTION_COLUMN]
  {
    IpColumn();
    PortColumn();
    DescriptionColumn();
  }

  lemma IpColumn() ensures OwnColumns()[0] == IP_ADDRESS_COLUMN { UpperKeeps("TEXT"); }
  lemma PortColumn() ensures OwnColumns()[1] == PORT_COLUMN {}
  lemma DescriptionColumn() ensures OwnColumns()[2] == DESCRIPTION_COLUMN { UpperKeeps("TEXT"); }

  /** Partners refer to nothing. */
  lemma Joins()
    ensures GetJoins(Columns()) == []
  {
    ColumnValues();
    StatelessPrefix(OwnColumns());
    FkStep(DESCRIPTION_COLUMN, []);
    FkStep(PORT_COLUMN, [DESCRIPTION_COLUMN]);
    FkStep(IP_ADDRESS_COLUMN, [PORT_COLUMN, DESCRIPTION_COLUMN]);
  }
}

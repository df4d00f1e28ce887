/** The transaction pipeline: a request body is received as a task, stored
    unless it duplicates one, spread to the partners subscribed to its event,
    and every resulting processing step delivered by a client. The
    transaction is an access object of the TASKS table. */
module Transaction {
  import opened Wrappers
  import opened Text
  import opened Json
  import opened States
  import opened EntityBase
  import opened Entities
  import opened Storage
  import opened AccessBase
  import TaskAccess
  import TaskEntity
  import EventEntity
  import StepEntity

  // ----- receive -----

  /** What `receive` makes of a body: a task to hold, or the state it
      answers without one. */
  datatype Verdict = Refused(state: State) | Accepted(task: TaskEntity.Task)

  /** The keyword arguments the task is built from: the event's id, url and
      method replace the body's; a DATA object gives its ID as LOCAL_ID and
      is stored serialised; the id is 0. */
  function TaskArguments(codec: Codec, fields: Kwargs, event: Option<EventEntity.Event>): (r: Kwargs)
    requires "DATA" in fields
    ensures fields.Keys + {"ID"} <= r.Keys
    ensures r["ID"] == JInt(0)
    ensures forall k :: k in fields && k !in {"ID", "DATA", "LOCAL_ID", "EVENT_ID", "URL", "METHOD"} ==> r[k] == fields[k]
    ensures event.Some? ==>
      && {"EVENT_ID", "URL", "METHOD"} <= r.Keys
      && r["EVENT_ID"] == JInt(event.value.common.id) && r["URL"] == event.value.url && r["METHOD"] == event.value.httpMethod
    ensures event.None? && "EVENT_ID" in fields ==> r["EVENT_ID"] == fields["EVENT_ID"]
    ensures fields["DATA"].JObj? && "ID" in fields["DATA"].fields ==>
      "LOCAL_ID" in r && r["LOCAL_ID"] == fields["DATA"].fields["ID"] && r["DATA"] == JStr(codec.dumps(fields["DATA"]))
    ensures !fields["DATA"].JObj? ==> r["DATA"] == fields["DATA"]
  {
    var withEvent := match event
      case None => fields
      case Some(e) => fields["EVENT_ID" := JInt(e.common.id)]["URL" := e.url]["METHOD" := e.httpMethod];
    var data := fields["DATA"];
    var withData :=
      if data.JObj? && "ID" in data.fields
      then withEvent["LOCAL_ID" := data.fields["ID"]]["DATA" := JStr(codec.dumps(data))]
      else withEvent;
    withData["ID" := JInt(0)]
  }

  /** `receive` on a body (None: it is not JSON) and the event the request
      was addressed to, in the order the checks are made. A body that is
      not an object has no `keys` to check. */
  function Received(codec: Codec, body: Option<Json>, event: Option<EventEntity.Event>, now: int): Outcome<Verdict> {
    if body.None? then Ok(Refused(BadRequestJsonDecode))
    else if !body.value.JObj? then Raised(AttributeError)
    else ReceivedFields(codec, body.value.fields, event, now)
  }

  /** The checks on a received dictionary and the task built from it. */
  function ReceivedFields(codec: Codec, fields: Kwargs, event: Option<EventEntity.Event>, now: int): Outcome<Verdict> {
    if !("PARTNER_ID" in fields && "DATA" in fields) then Ok(Refused(BadRequestMandatoryKey))
    else if event.None? && "EVENT_ID" !in fields then Ok(Refused(BadRequestMandatoryKey))
    else
      var data := fields["DATA"];
      if data.JObj? && "ID" !in data.fields then Ok(Refused(BadRequestMandatoryKey))
      else if !data.JObj? && !data.JStr? then Ok(Refused(BadRequestNotStoreAble))
      else
        Built(codec, TaskArguments(codec, fields, event), now)
  }

  /** The task built from the keyword arguments; a TaskException refuses
      the body as not storable. */
  function Built(codec: Codec, kwargs: Kwargs, now: int): Outcome<Verdict> {
    match TaskEntity.MakeTask(codec, kwargs, now)
    case Ok(task) => Ok(Accepted(task))
    case Raised(e) => if e == TaskException then Ok(Refused(BadRequestNotStoreAble)) else Raised(e)
  }

  /** A body without PARTNER_ID or DATA, or without EVENT_ID when no event
      supplies one, or whose DATA object has no ID, is refused as missing a
      mandatory key; a body that is no JSON is refused as such. */
  lemma ReceiveMandatoryKeys(codec: Codec, fields: Kwargs, event: Option<EventEntity.Event>, now: int)
    ensures Received(codec, None, event, now) == Ok(Refused(BadRequestJsonDecode))
    ensures ("PARTNER_ID" !in fields || "DATA" !in fields || (event.None? && "EVENT_ID" !in fields))
      ==> Received(codec, Some(JObj(fields)), event, now) == Ok(Refused(BadRequestMandatoryKey))
    ensures ("PARTNER_ID" in fields && "DATA" in fields && fields["DATA"].JObj? && "ID" !in fields["DATA"].fields)
      ==> Received(codec, Some(JObj(fields)), event, now) == Ok(Refused(BadRequestMandatoryKey))
  {
  }

  /** DATA that is neither an object nor a text is not storable; so is a
      text that does not parse when no local id is given. */
  lemma ReceiveNotStoreAble(codec: Codec, fields: Kwargs, event: Option<EventEntity.Event>, now: int)
    requires "PARTNER_ID" in fields && "DATA" in fields && (event.Some? || "EVENT_ID" in fields)
    ensures !fields["DATA"].JObj? && !fields["DATA"].JStr?
      ==> Received(codec, Some(JObj(fields)), event, now) == Ok(Refused(BadRequestNotStoreAble))
    ensures fields["DATA"].JStr? && codec.loads(fields["DATA"].s).None? && IsZero(Get(fields, "LOCAL_ID", JInt(0)))
      ==> Received(codec, Some(JObj(fields)), event, now) == Ok(Refused(BadRequestNotStoreAble))
  {
    var kwargs := TaskArguments(codec, fields, event);
    if fields["DATA"].JStr? {
      assert kwargs["DATA"] == fields["DATA"] && Get(kwargs, "LOCAL_ID", JInt(0)) == Get(fields, "LOCAL_ID", JInt(0));
      assert PyInt(Get(kwargs, "ID", JInt(0))) == Ok(0);
    }
  }

  /** A body answers either a task or a bad request. An accepted task has
      the id 0, the partner of the body, the event's id, url and method when
      an event is given (the body's EVENT_ID otherwise), and DATA as text. */
  lemma ReceiveAccepted(codec: Codec, body: Option<Json>, event: Option<EventEntity.Event>, now: int)
    ensures var r := Received(codec, body, event, now);
      && (r.Ok? && r.value.Refused? ==> r.value.state.IsBadRequest())
      && (r.Ok? && r.value.Accepted? ==>
            var t := r.value.task;
            var fields := body.value.fields;
            && t.common.id == 0
            && t.partnerId == fields["PARTNER_ID"]
            && t.data.JStr?
            && (event.Some? ==> t.eventId == JInt(event.value.common.id) && t.url == event.value.url
                                && t.httpMethod == event.value.httpMethod)
            && (event.None? ==> t.eventId == fields["EVENT_ID"]))
  {
    var r := Received(codec, body, event, now);
    if r.Ok? && r.value.Accepted? {
      var fields := body.value.fields;
      var kwargs := TaskArguments(codec, fields, event);
      assert PyInt(Get(kwargs, "ID", JInt(0))) == Ok(0);
    }
  }

  /** A DATA object with an ID is accepted (whatever the event), its ID
      becoming the local id and the object being stored serialised. */
  lemma ReceiveDataObject(codec: Codec, fields: Kwargs, event: Option<EventEntity.Event>, now: int)
    requires Lawful(codec)
    requires "PARTNER_ID" in fields && "DATA" in fields && (event.Some? || "EVENT_ID" in fields)
    requires fields["DATA"].JObj? && "ID" in fields["DATA"].fields
    ensures var r := Received(codec, Some(JObj(fields)), event, now);
      && r.Ok? && r.value.Accepted?
      && r.value.task.localId == fields["DATA"].fields["ID"]
      && r.value.task.data == JStr(codec.dumps(fields["DATA"]))
  {
    var data := fields["DATA"];
    var kwargs := TaskArguments(codec, fields, event);
    assert kwargs["LOCAL_ID"] == data.fields["ID"] && kwargs["DATA"] == JStr(codec.dumps(data));
    assert codec.loads(codec.dumps(data)) == Some(data);
    assert PyInt(Get(kwargs, "ID", JInt(0))) == Ok(0);
    assert TaskEntity.DeriveLocalId(codec, data.fields["ID"], JStr(codec.dumps(data))) == Ok(data.fields["ID"]);
  }

  /** What `receive` answers for a verdict: RequestReceived for a task it
      accepted, the refusal's state otherwise, or the exception. */
  function ReceiptAnswer(v: Outcome<Verdict>): Outcome<State> {
    match v
    case Raised(e) => Raised(e)
    case Ok(Accepted(_)) => Ok(RequestReceived)
    case Ok(Refused(s)) => Ok(s)
  }

  /** The records `receive` appends to the held ones: the accepted task. */
  function Appended(v: Outcome<Verdict>): seq<Entity> {
    if v.Ok? && v.value.Accepted? then [TaskE(v.value.task)] else []
  }

  /** `receive`: the checks on the received dictionary, then the task
      appended to the held records. */
  method Receive(t: DataAccess, body: Option<Json>, event: Option<EventEntity.Event>, now: int) returns (r: Outcome<State>)
    modifies t
    ensures t.cachedName == old(t.cachedName)
    ensures r == ReceiptAnswer(Received(t.codec, body, event, now))
    ensures t.data == old(t.data) + Appended(Received(t.codec, body, event, now))
  {
    if body.None? {
      return Ok(BadRequestJsonDecode);
    }
    if !body.value.JObj? {
      return Raised(AttributeError);
    }
    r := ReceiveFields(t, body.value.fields, event, now);
  }

  /** The checks on the received dictionary: the keys it must have, the
      event's values written over it, and DATA made storable. */
  method ReceiveFields(t: DataAccess, fields: Kwargs, event: Option<EventEntity.Event>, now: int) returns (r: Outcome<State>)
    modifies t
    ensures t.cachedName == old(t.cachedName)
    ensures r == ReceiptAnswer(ReceivedFields(t.codec, fields, event, now))
    ensures t.data == old(t.data) + Appended(ReceivedFields(t.codec, fields, event, now))
  {
    if !("PARTNER_ID" in fields && "DATA" in fields) {
      return Ok(BadRequestMandatoryKey);
    }
    if event.None? && "EVENT_ID" !in fields {
      return Ok(BadRequestMandatoryKey);
    }
    var data := fields["DATA"];
    if data.JObj? && "ID" !in data.fields {
      return Ok(BadRequestMandatoryKey);
    }
    if !data.JObj? && !data.JStr? {
      return Ok(BadRequestNotStoreAble);
    }
    var received := Arguments(t.codec, fields, event);
    r := Build(t, received, now);
  }

  /** The task built and appended to the held records. */
  method Build(t: DataAccess, received: Kwargs, now: int) returns (r: Outcome<State>)
    modifies t
    ensures t.cachedName == old(t.cachedName)
    ensures r == ReceiptAnswer(Built(t.codec, received, now))
    ensures t.data == old(t.data) + Appended(Built(t.codec, received, now))
  {
    var task := TaskEntity.MakeTask(t.codec, received, now);
    if task.Raised? {
      if task.error == TaskException {
        return Ok(BadRequestNotStoreAble);
      }
      return Raised(task.error);
    }
    t.data := t.data + [TaskE(task.value)];
    r := Ok(RequestReceived);
  }

  /** The received dictionary rewritten in place: the event's id, url and
      method over the body's, a DATA object's ID as LOCAL_ID and the object
      serialised, and the id 0. The checks that refuse a body do not depend
      on these writes, so they are made first here. */
  method Arguments(codec: Codec, fields: Kwargs, event: Option<EventEntity.Event>) returns (received: Kwargs)
    requires "DATA" in fields
    ensures received == TaskArguments(codec, fields, event)
  {
    received := fields;
    if event.Some? {
      received := received["EVENT_ID" := JInt(event.value.common.id)];
      received := received["URL" := event.value.url];
      received := received["METHOD" := event.value.httpMethod];
    }
    var data := received["DATA"];
    assert data == fields["DATA"];
    if data.JObj? && "ID" in data.fields {
      received := received["LOCAL_ID" := data.fields["ID"]];
      received := received["DATA" := JStr(codec.dumps(data))];
    }
    received := received["ID" := JInt(0)];
  }

  // ----- store -----

  /** The records with the generated id. */
  function WithIds(data: seq<Entity>, id: int): (r: seq<Entity>)
    ensures |r| == |data|
    ensures forall i :: 0 <= i < |data| ==> r[i] == data[i].WithId(id)
  {
    if data == [] then [] else [data[0].WithId(id)] + WithIds(data[1..], id)
  }

  /** `store` on the held records: its answer, the tables, the records and
      the cached name it leaves. The held task must be unique; a score above
      5 is a conflict; a database error on the insert is a bad request,
      while a value that cannot be bound is never answered. */
  function StoreResult(codec: Codec, ts: Tables, cache: string, data: seq<Entity>, now: int)
    : (Outcome<State>, Tables, seq<Entity>, string)
  {
    StoreWith(codec, ts, cache, data, if data == [] then [] else Entities.ColumnsOf(data[0].Name()), now)
  }

  /** The same, with the columns of the held records' table given. */
  function StoreWith(codec: Codec, ts: Tables, cache: string, data: seq<Entity>, cols: seq<DbColumn>, now: int)
    : (Outcome<State>, Tables, seq<Entity>, string)
  {
    var task := ResultProperty(cache, data, true);
    if task.0.Raised? then (Raised(task.0.error), ts, data, task.1)
    else
      var score := TaskAccess.DupScore(ts, Entities.ToDict(codec, task.0.value), now);
      if score.Raised? then (Raised(score.error), ts, data, task.1)
      else if score.value > 5 then (Ok(ConflictRequest), ts, data, task.1)
      else
        var i := Inserted(codec, ts, data, cols, now);
        (i.0, i.1, i.2, task.1)
  }

  /** The insert of the held records and the id it gives them. */
  function Inserted(codec: Codec, ts: Tables, data: seq<Entity>, cols: seq<DbColumn>, now: int)
    : (Outcome<State>, Tables, seq<Entity>)
    requires data != []
  {
    var inserted := InsertWith(ts, data[0].Name(), cols, DictsOf(codec, data), now);
    if inserted.Raised? then
      (if inserted.error == DatabaseError then Ok(BadRequestDBError) else Raised(inserted.error), ts, data)
    else (Ok(RequestStored), inserted.value.0, WithIds(data, inserted.value.1))
  }

  lemma NameAllowed(e: Entity)
    ensures e.Name() in ALLOWED
  {
  }

  /** A store answers only for exactly one held record. A conflict comes
      exactly from a score above 5, so a score of 5 is still stored. A
      stored record gets the id of the one row appended to its table;
      every other answer leaves the tables and the records as they were. */
  lemma StoreSpec(codec: Codec, ts: Tables, cache: string, data: seq<Entity>, cols: seq<DbColumn>, now: int)
    requires WellFormed(ts)
    ensures var s := StoreWith(codec, ts, cache, data, cols, now);
      && (s.0.Ok? ==> |data| == 1 && s.0.value in {RequestStored, ConflictRequest, BadRequestDBError})
      && (s.0.Ok? ==>
            var score := TaskAccess.DupScore(ts, Entities.ToDict(codec, data[0]), now);
            score.Ok? && (s.0.value == ConflictRequest <==> score.value > 5))
      && (s.0 == Ok(RequestStored) ==>
            var name := data[0].Name();
            && Grows(ts, s.1, name, 1)
            && |s.2| == 1
            && s.2[0] == data[0].WithId(NextId(ts[name]))
            && s.1[name][|ts[name]|].id == s.2[0].Id())
      && (s.0 != Ok(RequestStored) ==> s.1 == ts && s.2 == data)
  {
    ResultSpec(cache, data, true);
    var task := ResultProperty(cache, data, true);
    if |data| == 1 {
      assert task.0 == Ok(data[0]);
      var score := TaskAccess.DupScore(ts, Entities.ToDict(codec, data[0]), now);
      if score.Ok? && score.value <= 5 {
        InsertedSpec(codec, ts, data, cols, now);
      }
    } else {
      assert task.0.Raised?;
    }
  }

  /** The insert of one held record: stored with the appended row's id, a
      bad request, or an error, and nothing written unless stored. */
  lemma InsertedSpec(codec: Codec, ts: Tables, data: seq<Entity>, cols: seq<DbColumn>, now: int)
    requires WellFormed(ts) && |data| == 1
    ensures var i := Inserted(codec, ts, data, cols, now);
      && (i.0.Ok? ==> i.0.value in {RequestStored, BadRequestDBError})
      && (i.0 == Ok(RequestStored) ==>
            var name := data[0].Name();
            && Grows(ts, i.1, name, 1)
            && |i.2| == 1
            && i.2[0] == data[0].WithId(NextId(ts[name]))
            && i.1[name][|ts[name]|].id == i.2[0].Id())
      && (i.0 != Ok(RequestStored) ==> i.1 == ts && i.2 == data)
  {
    var name := data[0].Name();
    NameAllowed(data[0]);
    var params := DictsOf(codec, data);
    InsertWithSpec(ts, name, cols, params, now);
    if InsertColumns(cols) != [] {
      InsertOneSpec(ts, name, cols, params[0], now);
    }
  }

  /** `store`: the duplicate check of the task, then the insert, then the
      generated id written into every held record. */
  method Store(t: DataAccess, now: int) returns (r: Outcome<State>)
    modifies t, t.db
    ensures (r, t.db.tables, t.data, t.cachedName) == StoreResult(t.codec, old(t.db.tables), old(t.cachedName), old(t.data), now)
  {
    var task :- t.GetResult(true);
    ResultSpec(old(t.cachedName), t.data, true);
    var score :- TaskAccess.DuplicateCheck(t.db, Entities.ToDict(t.codec, task), now);
    if score > 5 {
      return Ok(ConflictRequest);
    }
    r := InsertHeld(t, now);
  }

  /** The insert of `store` and the loop writing the generated id into
      every held record. */
  method InsertHeld(t: DataAccess, now: int) returns (r: Outcome<State>)
    requires t.data != []
    modifies t, t.db
    ensures t.cachedName == old(t.cachedName)
    ensures (r, t.db.tables, t.data)
      == Inserted(t.codec, old(t.db.tables), old(t.data), Entities.ColumnsOf(old(t.data)[0].Name()), now)
  {
    ghost var data := t.data;
    ghost var name := data[0].Name();
    ghost var e := InsertWith(t.db.tables, name, Entities.ColumnsOf(name), DictsOf(t.codec, data), now);
    assert InsertResult(t.db.tables, name, DictsOf(t.codec, data), now) == e;
    var recordId := t.Insert(now);
    assert e.Raised? ==> recordId == Raised(e.error) && t.db.tables == old(t.db.tables);
    assert e.Ok? ==> recordId == Ok(e.value.1) && t.db.tables == e.value.0;
    if recordId.Raised? {
      if recordId.error == DatabaseError {
        return Ok(BadRequestDBError);
      }
      return Raised(recordId.error);
    }
    AssignIds(t, recordId.value);
    r := Ok(RequestStored);
  }

  /** The loop of `store` giving every held record the generated id. */
  method AssignIds(t: DataAccess, id: int)
    modifies t
    ensures t.cachedName == old(t.cachedName)
    ensures t.data == WithIds(old(t.data), id)
  {
    var i := 0;
    while i < |t.data|
      invariant 0 <= i <= |t.data| == |old(t.data)|
      invariant forall k :: 0 <= k < i ==> t.data[k] == old(t.data)[k].WithId(id)
      invariant forall k :: i <= k < |t.data| ==> t.data[k] == old(t.data)[k]
      invariant t.cachedName == old(t.cachedName)
    {
      t.data := t.data[i := t.data[i].WithId(id)];
      i := i + 1;
    }
  }

  // ----- spread -----

  /** `spread`: the task fanned out to its event's subscribers and
      published, in one database transaction; an error is raised. */
  method Spread(t: DataAccess, taskId: int, now: int) returns (r: Outcome<State>)
    modifies t.db
    ensures var e := SpreadResult(old(t.db.tables), taskId, now);
      && (e.Ok? ==> r == Ok(RequestStored) && t.db.tables == e.value)
      && (e.Raised? ==> r == Raised(e.error) && t.db.tables == old(t.db.tables))
  {
    var _ :- t.db.Spread(taskId, now);
    r := Ok(RequestStored);
  }

  // ----- process -----

  /** What the client's request comes to: a reply with a status, a client
      error, or no reply in time. */
  datatype Reply = Status(code: int) | ClientFailure | Timeout

  /** The HTTP client as the request it is given, method, url and body,
      to what comes back. */
  type Client = (string, string, Json) -> Reply

  /** `http://<ip>:<port>/transactions/<url>`; joining needs the ip address
      to be text. */
  function TargetUrl(codec: Codec, step: StepEntity.Step): Outcome<string> {
    if !step.ipAddress.JStr? then Raised(TypeError)
    else Ok(Concat(["http://", step.ipAddress.s, ":", PyStr(codec, step.port), "/transactions/", StepEntity.URL]))
  }

  /** `process` of a step: the answer and the tables it leaves. The step is
      first put in progress; a 200 or 201 reply makes it processed, another
      status makes it failed, a client error puts it back in progress, and a
      time-out is raised. */
  function ProcessResult(codec: Codec, ts: Tables, step: StepEntity.Step, client: Client, now: int): (Outcome<State>, Tables) {
    ProcessWith(codec, ts, Entities.ColumnsOf(StepE(step).Name()), step, client, now)
  }

  /** The same, for steps with the given columns. */
  function ProcessWith(codec: Codec, ts: Tables, cols: seq<DbColumn>, step: StepEntity.Step, client: Client, now: int)
    : (Outcome<State>, Tables)
  {
    var started := UpdateWith(ts, StepEntity.NAME, cols, step.common.id, InProgress.Code(), now).0;
    Requested(codec, started, cols, step, client, now)
  }

  /** What follows once the step is in progress: the request to the
      partner and the state its reply leaves the step in. */
  function Requested(codec: Codec, started: Tables, cols: seq<DbColumn>, step: StepEntity.Step, client: Client, now: int)
    : (Outcome<State>, Tables)
  {
    match TargetUrl(codec, step)
    case Raised(e) => (Raised(e), started)
    case Ok(url) =>
      var reply := client(StepEntity.METHOD, url, step.data);
      if reply.Timeout? then (Raised(TimeoutError), started)
      else
        var state := ReplyState(reply);
        var answer := if state == Processed then RequestStored else BadRequest;
        (Ok(answer), UpdateWith(started, StepEntity.NAME, cols, step.common.id, state.Code(), now).0)
  }

  /** The state a reply puts the step in: processed on 200 or 201, failed
      on another status, back in progress on a client error. */
  function ReplyState(reply: Reply): State
    requires !reply.Timeout?
  {
    if reply.ClientFailure? then InProgress else if IsSuccessCode(reply.code) then Processed else Error
  }

  /** The state a processed step ends in, by what the client did. */
  function FinalState(codec: Codec, step: StepEntity.Step, client: Client): State {
    match TargetUrl(codec, step)
    case Raised(_) => InProgress
    case Ok(url) =>
      match client(StepEntity.METHOD, url, step.data)
      case Status(code) => if IsSuccessCode(code) then Processed else Error
      case _ => InProgress
  }

  /** Setting the same state twice in a row is setting it once. */
  lemma UpdateTwice(ts: Tables, name: string, cols: seq<DbColumn>, id: int, state: int, now: int)
    ensures var once := UpdateWith(ts, name, cols, id, state, now).0;
      UpdateWith(once, name, cols, id, state, now).0 == once
  {
    var assigns := StateAssigns(cols, state, now);
    var rows := Rows(ts, name);
    var once := UpdateWhereId(rows, id, assigns);
    var twice := UpdateWhereId(once, id, assigns);
    assert |twice| == |once|;
    forall i | 0 <= i < |once|
      ensures twice[i] == once[i]
    {
      if rows[i].id == id {
        assert rows[i].cells + assigns + assigns == rows[i].cells + assigns;
      }
    }
    assert twice == once;
  }

  /** Whatever the client does, the step's row ends as if it had been put
      in progress and then in its final state. */
  lemma ProcessFinal(codec: Codec, ts: Tables, cols: seq<DbColumn>, step: StepEntity.Step, client: Client, now: int)
    ensures var started := UpdateWith(ts, StepEntity.NAME, cols, step.common.id, InProgress.Code(), now).0;
      ProcessWith(codec, ts, cols, step, client, now).1
        == UpdateWith(started, StepEntity.NAME, cols, step.common.id, FinalState(codec, step, client).Code(), now).0
  {
    UpdateTwice(ts, StepEntity.NAME, cols, step.common.id, InProgress.Code(), now);
  }

  /** Processing touches only the step's own row: it ends in the final
      state, stamped with the time, and every other row and table is
      unchanged. */
  lemma ProcessRows(codec: Codec, ts: Tables, cols: seq<DbColumn>, step: StepEntity.Step, client: Client, now: int)
    requires WellFormed(ts) && "STATE" in Names(cols)
    ensures var p := ProcessWith(codec, ts, cols, step, client, now).1;
      WellFormed(p) && UpdatedRows(ts, p, StepEntity.NAME, step.common.id, FinalState(codec, step, client).Code(), now)
  {
    ProcessFinal(codec, ts, cols, step, client, now);
    UpdateThenUpdate(ts, StepEntity.NAME, cols, step.common.id, InProgress.Code(), FinalState(codec, step, client).Code(), now);
  }

  /** The answer is RequestStored exactly when the step was processed, and
      BadRequest for any other reply the client gave. */
  lemma ProcessAnswer(codec: Codec, ts: Tables, cols: seq<DbColumn>, step: StepEntity.Step, client: Client, now: int)
    ensures var p := ProcessWith(codec, ts, cols, step, client, now).0;
      && (p == Ok(RequestStored) <==> FinalState(codec, step, client) == Processed)
      && (p.Ok? ==> p.value in {RequestStored, BadRequest})
  {
  }

  /** The step table has a STATE column. */
  lemma StepsHaveState()
    ensures "STATE" in Names(Entities.ColumnsOf(StepEntity.NAME))
  {
    var cols := Entities.ColumnsOf(StepEntity.NAME);
    assert Names(cols)[3] == "STATE";
  }

  /** `process`: a new access object holding the step writes its states. */
  method Process(t: DataAccess, step: StepEntity.Step, client: Client, now: int) returns (r: Outcome<State>)
    modifies t.db
    ensures (r, t.db.tables) == ProcessResult(t.codec, old(t.db.tables), step, client, now)
  {
    var ba := new DataAccess(t.db, t.codec, "");
    ba.data := [StepE(step)];
    assert ba.data[0].Name() == StepEntity.NAME && ba.data[0].Id() == step.common.id;
    var _ := ba.UpdateState(InProgress.Code(), now);
    r := Request(ba, step, client, now);
  }

  /** The request of `process` for the step an access object holds, and
      the state written for its reply. */
  method Request(ba: DataAccess, step: StepEntity.Step, client: Client, now: int) returns (r: Outcome<State>)
    requires ba.data == [StepE(step)]
    modifies ba.db
    ensures (r, ba.db.tables) == Requested(ba.codec, old(ba.db.tables), Entities.ColumnsOf(StepE(step).Name()), step, client, now)
  {
    var url :- TargetUrl(ba.codec, step);
    var reply := client(StepEntity.METHOD, url, step.data);
    if reply.Timeout? {
      return Raised(TimeoutError);
    }
    // a 200 or 201 reply: processed; another status: failed; a client
    // error: back in progress
    var state, answer := InProgress, BadRequest;
    if reply.Status? {
      if IsSuccessCode(reply.code) {
        state, answer := Processed, RequestStored;
      } else {
        state := Error;
      }
    }
    ghost var cols := Entities.ColumnsOf(StepE(step).Name());
    ghost var ts := ba.db.tables;
    assert state == ReplyState(reply);
    assert Requested(ba.codec, ts, cols, step, client, now)
      == (Ok(answer), UpdateWith(ts, StepEntity.NAME, cols, step.common.id, state.Code(), now).0);
    var _ := ba.UpdateState(state.Code(), now);
    r := Ok(answer);
  }

  // ----- message and task -----

  /** `/<url>/<local id>/<id>` of a stored task. */
  function MessageOf(codec: Codec, task: TaskEntity.Task): string {
    "/" + PyStr(codec, task.url) + "/" + PyStr(codec, task.localId) + "/" + IntToString(task.common.id)
  }

  lemma {:induction false} SplitAfter(a: string, b: string, sep: char)
    requires sep !in a
    ensures Split(a + [sep] + b, sep) == [a] + Split(b, sep)
  {
    if a == [] {
      assert a + [sep] + b == [sep] + b;
      assert ([sep] + b)[1..] == b;
    } else {
      assert (a + [sep] + b)[1..] == a[1..] + [sep] + b;
      SplitAfter(a[1..], b, sep);
      assert [a[0]] + a[1..] == a;
    }
  }

  lemma NumberHasNoSlash(n: int)
    ensures '/' !in IntToString(n)
  {
    var d := NatToString(if n < 0 then -n else n);
    assert forall i :: 0 <= i < |d| ==> IsDigitChar(d[i]);
    if n < 0 {
      assert IntToString(n) == "-" + d;
      assert forall i :: 0 <= i < |"-" + d| ==> ("-" + d)[i] != '/';
    }
  }

  /** The message of a task with a url free of '/' and an integer local id
      splits back into the url, the local id and the id. */
  lemma MessageRoundTrip(codec: Codec, task: TaskEntity.Task, url: string, localId: int)
    requires task.url == JStr(url) && '/' !in url && task.localId == JInt(localId)
    ensures var parts := Split(MessageOf(codec, task), '/');
      && |parts| == 4 && parts[0] == "" && parts[1] == url
      && ParseInt(parts[2]) == Some(localId) && ParseInt(parts[3]) == Some(task.common.id)
  {
    var l := IntToString(localId);
    var i := IntToString(task.common.id);
    NumberHasNoSlash(localId);
    NumberHasNoSlash(task.common.id);
    IntToStringParses(localId);
    IntToStringParses(task.common.id);
    var m := MessageOf(codec, task);
    assert m == "" + ['/'] + (url + ['/'] + (l + ['/'] + i));
    SplitAfter("", url + ['/'] + (l + ['/'] + i), '/');
    SplitAfter(url, l + ['/'] + i, '/');
    SplitOfPair(l, i, '/');
  }

  /** The message of task 2, sent as local id 239 on the orders event. */
  lemma MessageExample(codec: Codec, task: TaskEntity.Task)
    requires task.url == JStr("orders") && task.localId == JInt(239) && task.common.id == 2
    ensures MessageOf(codec, task) == "/orders/239/2"
  {
  }

  /** `message`: the text of the task `get_result` answers. A record that
      is not a task answers AttributeError; no caller holds one. */
  method Message(t: DataAccess) returns (r: Outcome<string>)
    modifies t
    ensures t.data == old(t.data)
    ensures var g := ResultProperty(old(t.cachedName), t.data, true);
      && t.cachedName == g.1
      && r == (if g.0.Raised? then Raised(g.0.error)
               else if g.0.value.TaskE? then Ok(MessageOf(t.codec, g.0.value.task))
               else Raised(AttributeError))
  {
    var stored :- t.GetResult(true);
    if !stored.TaskE? {
      return Raised(AttributeError);
    }
    r := Ok(MessageOf(t.codec, stored.task));
  }
}

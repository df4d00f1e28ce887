/** The distributor: the HTTP handler that turns a request on
    `/transactions/<name>` into a stored task and a status, and one cycle of
    the background loop that spreads the new tasks and delivers the steps. */
module Distributor {
  import opened Wrappers
  import opened Text
  import opened Json
  import opened States
  import opened EntityBase
  import opened Entities
  import opened Storage
  import opened AccessBase
  import TaskAccess
  import EventAccess
  import StepAccess
  import Transaction
  import TaskEntity
  import EventEntity
  import StepEntity

  /** An HTTP response: status and body text. */
  datatype Response = Response(status: int, text: string)

  /** `web.HTTPNotImplemented()`, aiohttp's default 501 response. */
  const NOT_IMPLEMENTED := Response(501, "501: Not Implemented")

  /** The response a pipeline state gives when it is not a success. */
  function Refusal(s: State): Response {
    Response(s.Code(), s.Reason())
  }

  // ----- the request handler -----

  /** `Distributor.post` on the tables: the response (or the exception that
      escapes) and the tables it leaves. The event of the path and method is
      looked up first, and a missing one answers 501 before the body is
      read. */
  function Handled(codec: Codec, ts: Tables, name: string, httpMethod: string, body: Option<Json>, now: int)
    : (Outcome<Response>, Tables)
  {
    var ev := EventAccess.EventLookup(EventEntity.NAME, ts, name, httpMethod, now).0;
    if ev.Raised? then (if IsIndexError(ev.error) then Ok(NOT_IMPLEMENTED) else Raised(ev.error), ts)
    else
      EventAccess.EventLookupSpec(EventEntity.NAME, ts, name, httpMethod, now);
      Answered(codec, ts, ev.value.event, body, now)
  }

  /** What follows once the event is known: `receive`, and `store` when
      the body was received. */
  function Answered(codec: Codec, ts: Tables, event: EventEntity.Event, body: Option<Json>, now: int)
    : (Outcome<Response>, Tables)
  {
    match Transaction.Received(codec, body, Some(event), now)
    case Raised(e) => (Raised(e), ts)
    case Ok(v) => AfterReceipt(codec, ts, v, now)
  }

  /** The state `receive` answers with for its verdict. */
  function ReceiptState(v: Transaction.Verdict): State {
    if v.Accepted? then RequestReceived else v.state
  }

  /** After `receive`: a refusal is answered with its state, otherwise the
      received task is stored. */
  function AfterReceipt(codec: Codec, ts: Tables, v: Transaction.Verdict, now: int): (Outcome<Response>, Tables) {
    if !IsSuccessCode(ReceiptState(v).Code()) then (Ok(Refusal(ReceiptState(v))), ts)
    else Stored(codec, ts, if v.Accepted? then [TaskE(v.task)] else [], now)
  }

  /** `store` of the received records, then the message of the stored task
      with status 201. */
  function Stored(codec: Codec, ts: Tables, data: seq<Entity>, now: int): (Outcome<Response>, Tables) {
    var s := Transaction.StoreResult(codec, ts, TaskEntity.NAME, data, now);
    match s.0
    case Raised(e) => (Raised(e), s.1)
    case Ok(state) =>
      if !IsSuccessCode(state.Code()) then (Ok(Refusal(state)), s.1)
      else
        var m := ResultProperty(s.3, s.2, true).0;
        if m.Raised? then (Raised(m.error), s.1)
        else if m.value.TaskE? then (Ok(Response(201, Transaction.MessageOf(codec, m.value.task))), s.1)
        else (Raised(AttributeError), s.1)
  }

  /** The live events registered for a path and a request method. */
  function EventRows(ts: Tables, name: string, httpMethod: string): seq<Row> {
    SelectMain(ts, Rows(ts, EventEntity.NAME), EventAccess.ByUrl(name, httpMethod), [])
  }

  /** No live event for the path and method: 501, and nothing is written. */
  lemma UnknownEvent(codec: Codec, ts: Tables, name: string, httpMethod: string, body: Option<Json>, now: int)
    requires EventEntity.NAME in ts && |EventRows(ts, name, httpMethod)| == 0
    ensures Handled(codec, ts, name, httpMethod, body, now) == (Ok(NOT_IMPLEMENTED), ts)
  {
    EventAccess.EventLookupSpec(EventEntity.NAME, ts, name, httpMethod, now);
  }

  /** A body `receive` refuses answers 400 with the reason of the refusal,
      and `store` is not reached. */
  lemma RefusedBody(codec: Codec, ts: Tables, event: EventEntity.Event, body: Option<Json>, now: int, s: State)
    requires Transaction.Received(codec, body, Some(event), now) == Ok(Transaction.Refused(s))
    ensures Answered(codec, ts, event, body, now) == (Ok(Response(400, s.Reason())), ts)
  {
    Transaction.ReceiveAccepted(codec, body, Some(event), now);
    HttpCodes(s);
  }

  /** A received task whose duplicate score passes 5 answers 409, "already
      stored", and nothing is written. */
  lemma ConflictAnswer(codec: Codec, ts: Tables, event: EventEntity.Event, body: Option<Json>, now: int,
                       task: TaskEntity.Task)
    requires Transaction.Received(codec, body, Some(event), now) == Ok(Transaction.Accepted(task))
    requires var score := TaskAccess.DupScore(ts, TaskEntity.ToDict(task), now); score.Ok? && score.value > 5
    ensures Answered(codec, ts, event, body, now) == (Ok(Response(409, "already stored")), ts)
  {
    StoredConflict(codec, ts, task, now);
  }

  lemma StoredConflict(codec: Codec, ts: Tables, task: TaskEntity.Task, now: int)
    requires var score := TaskAccess.DupScore(ts, TaskEntity.ToDict(task), now); score.Ok? && score.value > 5
    ensures Stored(codec, ts, [TaskE(task)], now) == (Ok(Response(409, "already stored")), ts)
  {
    assert ResultProperty(TaskEntity.NAME, [TaskE(task)], true).0 == Ok(TaskE(task));
    assert Refusal(ConflictRequest) == Response(409, "already stored");
  }

  /** Every answer is 501, 400, 409 or 201, and the tables change exactly
      when the answer is 201: then the received task was appended to TASKS
      with the next id, and the body is its message. */
  lemma AnswerSpec(codec: Codec, ts: Tables, event: EventEntity.Event, body: Option<Json>, now: int)
    requires WellFormed(ts)
    ensures var h := Answered(codec, ts, event, body, now);
      && (h.0.Ok? ==> h.0.value.status in {400, 409, 201})
      && (h.0.Ok? && h.0.value.status == 201 <==> h.1 != ts)
      && (h.0.Ok? && h.0.value.status == 201 ==>
            var v := Transaction.Received(codec, body, Some(event), now);
            && v.Ok? && v.value.Accepted?
            && Grows(ts, h.1, TaskEntity.NAME, 1)
            && h.1[TaskEntity.NAME][|ts[TaskEntity.NAME]|].id == NextId(ts[TaskEntity.NAME])
            && h.0.value.text == Transaction.MessageOf(codec,
                 v.value.task.(common := v.value.task.common.(id := NextId(ts[TaskEntity.NAME])))))
  {
    var v := Transaction.Received(codec, body, Some(event), now);
    Transaction.ReceiveAccepted(codec, body, Some(event), now);
    if v.Ok? {
      var data := if v.value.Accepted? then [TaskE(v.value.task)] else [];
      if v.value.Refused? {
        HttpCodes(v.value.state);
      } else {
        StoredSpec(codec, ts, data, now);
      }
    }
  }

  lemma StoredSpec(codec: Codec, ts: Tables, data: seq<Entity>, now: int)
    requires WellFormed(ts) && |data| == 1 && data[0].TaskE?
    ensures var h := Stored(codec, ts, data, now);
      && (h.0.Ok? ==> h.0.value.status in {400, 409, 201})
      && (h.0.Ok? && h.0.value.status == 201 <==> h.1 != ts)
      && (h.0.Ok? && h.0.value.status == 201 ==>
            && Grows(ts, h.1, TaskEntity.NAME, 1)
            && h.1[TaskEntity.NAME][|ts[TaskEntity.NAME]|].id == NextId(ts[TaskEntity.NAME])
            && h.0.value.text == Transaction.MessageOf(codec,
                 data[0].task.(common := data[0].task.common.(id := NextId(ts[TaskEntity.NAME])))))
  {
    var cols := Entities.ColumnsOf(data[0].Name());
    Transaction.StoreSpec(codec, ts, TaskEntity.NAME, data, cols, now);
    var s := Transaction.StoreResult(codec, ts, TaskEntity.NAME, data, now);
    if s.0.Ok? {
      HttpCodes(s.0.value);
      if s.0.value == RequestStored {
        ResultSpec(s.3, s.2, true);
        assert s.1[TaskEntity.NAME] != ts[TaskEntity.NAME];
      }
    }
  }

  /** `Distributor.post`: the event access and the transaction are two
      access objects on the same database. */
  method Post(db: Database, codec: Codec, name: string, httpMethod: string, body: Option<Json>, now: int)
    returns (r: Outcome<Response>)
    modifies db
    ensures (r, db.tables) == Handled(codec, old(db.tables), name, httpMethod, body, now)
  {
    UpperKeeps(EventEntity.NAME);
    UpperKeeps(TaskEntity.NAME);
    var eventAccess := new DataAccess(db, codec, EventEntity.NAME);
    var transaction := new DataAccess(db, codec, TaskEntity.NAME);
    var event := EventAccess.GetEventData(eventAccess, name, httpMethod, now);
    if event.Raised? {
      if IsIndexError(event.error) {
        return Ok(NOT_IMPLEMENTED);
      }
      return Raised(event.error);
    }
    EventAccess.EventLookupSpec(EventEntity.NAME, db.tables, name, httpMethod, now);
    r := Answer(transaction, event.value.event, body, now);
  }

  /** `receive`, `store` and `message` on the transaction. */
  method Answer(transaction: DataAccess, event: EventEntity.Event, body: Option<Json>, now: int)
    returns (r: Outcome<Response>)
    requires transaction.data == [] && transaction.cachedName == TaskEntity.NAME
    modifies transaction, transaction.db
    ensures (r, transaction.db.tables) == Answered(transaction.codec, old(transaction.db.tables), event, body, now)
  {
    ghost var v := Transaction.Received(transaction.codec, body, Some(event), now);
    var response :- Transaction.Receive(transaction, body, Some(event), now);
    r := AnswerReceipt(transaction, v.value, response, now);
  }

  /** The refusal of the state `receive` answered, or `store` and `message`. */
  method AnswerReceipt(transaction: DataAccess, ghost v: Transaction.Verdict, response: State, now: int)
    returns (r: Outcome<Response>)
    requires response == ReceiptState(v)
    requires transaction.data == (if v.Accepted? then [TaskE(v.task)] else [])
    requires transaction.cachedName == TaskEntity.NAME
    modifies transaction, transaction.db
    ensures (r, transaction.db.tables) == AfterReceipt(transaction.codec, old(transaction.db.tables), v, now)
  {
    if !IsSuccessCode(response.Code()) {
      return Ok(Refusal(response));
    }
    r := StoreAnswer(transaction, now);
  }

  /** `store`, then `message` when the task was stored. */
  method StoreAnswer(transaction: DataAccess, now: int) returns (r: Outcome<Response>)
    requires transaction.cachedName == TaskEntity.NAME
    modifies transaction, transaction.db
    ensures (r, transaction.db.tables) == Stored(transaction.codec, old(transaction.db.tables), old(transaction.data), now)
  {
    var response :- Transaction.Store(transaction, now);
    if !IsSuccessCode(response.Code()) {
      return Ok(Refusal(response));
    }
    var message :- Transaction.Message(transaction);
    r := Ok(Response(201, message));
  }

  /** `Distributor.put` is `post`. */
  method Put(db: Database, codec: Codec, name: string, httpMethod: string, body: Option<Json>, now: int)
    returns (r: Outcome<Response>)
    modifies db
    ensures (r, db.tables) == Handled(codec, old(db.tables), name, httpMethod, body, now)
  {
    r := Post(db, codec, name, httpMethod, body, now);
  }

  // ----- one cycle of the background loop -----

  /** `read_tasks(state=1)` on a new task access: the tasks in state New,
      or the error that ends the cycle. */
  function TasksRead(codec: Codec, ts: Tables, now: int): Outcome<seq<Entity>> {
    if TaskEntity.NAME !in ts then Raised(DatabaseError)
    else
      var m := Materialise(Factory(codec, TaskEntity.NAME, now), TaskAccess.StateRows(ts, TaskEntity.NAME, 1));
      if m.1.Some? then Raised(m.1.value) else Ok(m.0)
  }

  /** `read_processing_steps(state)`: the steps in that state, joined with
      their task and partner. */
  function StepsRead(codec: Codec, ts: Tables, state: int, now: int): Outcome<seq<Entity>> {
    var rows :- ReadRows(codec, ts, StepEntity.NAME, state, false, true, now);
    var m := Materialise(Factory(codec, StepEntity.NAME, now), rows);
    if m.1.Some? then Raised(m.1.value) else Ok(m.0)
  }

  /** The spreads of the tasks read, in order; the first error ends them. */
  function SpreadAll(ts: Tables, tasks: seq<Entity>, now: int): (Outcome<()>, Tables) {
    SpreadAllWith(ts, ColumnsOf("PROCESSING_STEPS"), tasks, now)
  }

  /** The same, for steps with the given columns. */
  function SpreadAllWith(ts: Tables, stepColumns: seq<DbColumn>, tasks: seq<Entity>, now: int): (Outcome<()>, Tables)
    decreases |tasks|
  {
    if tasks == [] then (Ok(()), ts)
    else
      match SpreadWith(ts, stepColumns, tasks[0].Id(), now)
      case Raised(e) => (Raised(e), ts)
      case Ok(ts1) => SpreadAllWith(ts1, stepColumns, tasks[1..], now)
  }

  /** `process` of each step read, in order; the first exception ends the
      pass. The AttributeError branch stands for a record of another entity,
      which this pass never reads. */
  function ProcessAll(codec: Codec, ts: Tables, steps: seq<Entity>, client: Transaction.Client, now: int)
    : (Outcome<()>, Tables)
    decreases |steps|
  {
    if steps == [] then (Ok(()), ts)
    else if !steps[0].StepE? then (Raised(AttributeError), ts)
    else
      var p := Transaction.ProcessResult(codec, ts, steps[0].step, client, now);
      if p.0.Raised? then (Raised(p.0.error), p.1)
      else ProcessAll(codec, p.1, steps[1..], client, now)
  }

  /** The passes over the check states, each reading the steps in its state
      from the tables the previous pass left. */
  function CheckStates(codec: Codec, ts: Tables, states: seq<int>, client: Transaction.Client, now: int)
    : (Outcome<()>, Tables)
    decreases |states|
  {
    if states == [] then (Ok(()), ts)
    else
      var p := CheckOne(codec, ts, states[0], client, now);
      if p.0.Raised? then p else CheckStates(codec, p.1, states[1..], client, now)
  }

  /** One pass: the steps in the state read, then processed. */
  function CheckOne(codec: Codec, ts: Tables, state: int, client: Transaction.Client, now: int): (Outcome<()>, Tables) {
    match StepsRead(codec, ts, state, now)
    case Raised(e) => (Raised(e), ts)
    case Ok(steps) => ProcessAll(codec, ts, steps, client, now)
  }

  /** The check states: New, then InProgress. */
  const CHECK_STATES: seq<int> := [1, 2]

  /** The first half of a cycle: the tasks in state New read and spread. */
  function SpreadPhase(codec: Codec, ts: Tables, now: int): (Outcome<()>, Tables) {
    match TasksRead(codec, ts, now)
    case Raised(e) => (Raised(e), ts)
    case Ok(tasks) => SpreadAll(ts, tasks, now)
  }

  /** One cycle: the tasks in state New spread, then the steps in state New
      and those in progress processed. An exception ends the cycle (and the
      loop) with the tables as far as it got. */
  function CycleResult(codec: Codec, ts: Tables, states: seq<int>, client: Transaction.Client, now: int)
    : (Outcome<()>, Tables)
  {
    var spread := SpreadPhase(codec, ts, now);
    if spread.0.Raised? then spread else CheckStates(codec, spread.1, states, client, now)
  }

  /** The tables `s` are `ts` with steps appended after the ones there
      were, tasks written, and no other table touched. */
  predicate StepsAppended(ts: Tables, s: Tables) {
    && StepEntity.NAME in ts
    && s.Keys == ts.Keys
    && (forall n :: n in ts && n != StepEntity.NAME && n != TaskEntity.NAME ==> s[n] == ts[n])
    && |s[StepEntity.NAME]| >= |ts[StepEntity.NAME]|
    && s[StepEntity.NAME][..|ts[StepEntity.NAME]|] == ts[StepEntity.NAME]
  }

  lemma AppendedTrans(a: Tables, b: Tables, c: Tables)
    requires StepsAppended(a, b) && StepsAppended(b, c)
    ensures StepsAppended(a, c)
  {
    var n := |a[StepEntity.NAME]|;
    assert c[StepEntity.NAME][..n] == c[StepEntity.NAME][..|b[StepEntity.NAME]|][..n];
  }

  /** One spread appends steps and writes tasks. */
  lemma SpreadOne(ts: Tables, taskId: int, now: int)
    requires WellFormed(ts)
    ensures var r := SpreadResult(ts, taskId, now);
      r.Ok? ==> WellFormed(r.value) && StepsAppended(ts, r.value)
  {
    SpreadSpec(ts, Entities.ColumnsOf(StepEntity.NAME), taskId, now);
  }

  /** The spreads only add steps and publish tasks: the tables stay well
      formed, the steps there were stay first, and the other tables are
      untouched. */
  lemma {:induction false} SpreadAllSpec(ts: Tables, tasks: seq<Entity>, now: int)
    requires WellFormed(ts)
    ensures var s := SpreadAll(ts, tasks, now).1;
      WellFormed(s) && StepsAppended(ts, s)
    decreases |tasks|
  {
    assert StepEntity.NAME in ALLOWED;
    if tasks != [] {
      SpreadOne(ts, tasks[0].Id(), now);
      var r := SpreadResult(ts, tasks[0].Id(), now);
      if r.Ok? {
        SpreadAllSpec(r.value, tasks[1..], now);
        AppendedTrans(ts, r.value, SpreadAll(r.value, tasks[1..], now).1);
      } else {
        assert ts[StepEntity.NAME][..|ts[StepEntity.NAME]|] == ts[StepEntity.NAME];
      }
    } else {
      assert ts[StepEntity.NAME][..|ts[StepEntity.NAME]|] == ts[StepEntity.NAME];
    }
  }


  /** The task rows after the spreads: the same rows in the same order,
      every spread task in state 3 (Published), every other task as it was. */
  predicate TasksPublished(before: seq<Row>, after: seq<Row>, tasks: seq<Entity>) {
    && |after| == |before|
    && forall k :: 0 <= k < |before| ==>
         && after[k].id == before[k].id
         && (Named(tasks, before[k].id) ==> Cell(after[k], "STATE") == JInt(3))
         && (!Named(tasks, before[k].id) ==> after[k] == before[k])
  }

  /** Publishing the first task, then the rest, publishes them all. */
  lemma PublishedCons(before: seq<Row>, mid: seq<Row>, after: seq<Row>, tasks: seq<Entity>, now: int)
    requires tasks != []
    requires mid == UpdateWhereId(before, tasks[0].Id(), map["STATE" := JInt(3), "UPDATED_ON" := JInt(now)])
    requires TasksPublished(mid, after, tasks[1..])
    ensures TasksPublished(before, after, tasks)
  {
    var m := map["STATE" := JInt(3), "UPDATED_ON" := JInt(now)];
    forall k | 0 <= k < |before|
      ensures after[k].id == before[k].id
      ensures Named(tasks, before[k].id) ==> Cell(after[k], "STATE") == JInt(3)
      ensures !Named(tasks, before[k].id) ==> after[k] == before[k]
    {
      var id := before[k].id;
      assert mid[k].id == id;
      if Named(tasks[1..], id) {
        var i :| 0 <= i < |tasks[1..]| && tasks[1..][i].Id() == id;
        assert tasks[i + 1].Id() == id;
      } else if id == tasks[0].Id() {
        assert (mid[k].cells)["STATE"] == JInt(3);
      }
    }
  }

  /** The spreads that all succeed leave every spread task published and
      every other task untouched. */
  lemma {:induction false} SpreadAllPublishes(ts: Tables, tasks: seq<Entity>, now: int)
    requires WellFormed(ts)
    ensures var s := SpreadAll(ts, tasks, now);
      s.0.Ok? ==> TaskEntity.NAME in s.1 && TasksPublished(ts[TaskEntity.NAME], s.1[TaskEntity.NAME], tasks)
    decreases |tasks|
  {
    assert TaskEntity.NAME == "TASKS" && TaskEntity.NAME in ALLOWED;
    if tasks == [] {
    } else {
      SpreadSpec(ts, Entities.ColumnsOf(StepEntity.NAME), tasks[0].Id(), now);
      var r := SpreadResult(ts, tasks[0].Id(), now);
      if r.Ok? {
        SpreadAllPublishes(r.value, tasks[1..], now);
        var s := SpreadAll(r.value, tasks[1..], now);
        if s.0.Ok? {
          PublishedCons(ts["TASKS"], r.value["TASKS"], s.1["TASKS"], tasks, now);
        }
      }
    }
  }

  /** The steps the spreads of `tasks` insert, each task's in turn, all read
      from the tables before the first spread. */
  function SpreadAllParams(ts: Tables, tasks: seq<Entity>): (r: seq<Kwargs>)
    decreases |tasks|
  {
    if tasks == [] then [] else SpreadRows(ts, tasks[0].Id()) + SpreadAllParams(ts, tasks[1..])
  }

  /** A spread does not change the steps the later tasks spread to. */
  lemma {:induction false} SpreadAllParamsAfter(ts: Tables, ts': Tables, taskId: int, tasks: seq<Entity>, now: int)
    requires "TASKS" in ts && "TASKS" in ts'
    requires ts'["TASKS"] == UpdateWhereId(ts["TASKS"], taskId, map["STATE" := JInt(3), "UPDATED_ON" := JInt(now)])
    requires Rows(ts', "SUBSCRIBERS") == Rows(ts, "SUBSCRIBERS")
    ensures SpreadAllParams(ts', tasks) == SpreadAllParams(ts, tasks)
    decreases |tasks|
  {
    if tasks != [] {
      SpreadRowsAfterPublish(ts, ts', taskId, now, tasks[0].Id());
      SpreadAllParamsAfter(ts, ts', taskId, tasks[1..], now);
    }
  }

  /** The same, for the tables the spread of `taskId` leaves. */
  lemma SpreadKeepsLaterParams(ts: Tables, stepColumns: seq<DbColumn>, taskId: int, tasks: seq<Entity>, now: int)
    requires WellFormed(ts)
    ensures var r := SpreadWith(ts, stepColumns, taskId, now);
      r.Ok? ==> SpreadAllParams(r.value, tasks) == SpreadAllParams(ts, tasks)
  {
    SpreadSpec(ts, stepColumns, taskId, now);
    var r := SpreadWith(ts, stepColumns, taskId, now);
    if r.Ok? {
      assert "SUBSCRIBERS" in ts && r.value["SUBSCRIBERS"] == ts["SUBSCRIBERS"];
      SpreadAllParamsAfter(ts, r.value, taskId, tasks, now);
    }
  }

  /** The spreads that all succeed append, after the steps there were, the
      steps of each task in turn: one per subscriber of its event. */
  lemma SpreadAllSteps(ts: Tables, tasks: seq<Entity>, now: int)
    requires WellFormed(ts)
    ensures var s := SpreadAll(ts, tasks, now);
      s.0.Ok? ==> StepsAdded(ts, s.1, ColumnsOf("PROCESSING_STEPS"), SpreadAllParams(ts, tasks), now)
  {
    SpreadAllWithSteps(ts, ColumnsOf("PROCESSING_STEPS"), tasks, now);
  }

  /** The same, for steps with any columns. */
  lemma {:induction false} SpreadAllWithSteps(ts: Tables, stepColumns: seq<DbColumn>, tasks: seq<Entity>, now: int)
    requires WellFormed(ts)
    ensures var s := SpreadAllWith(ts, stepColumns, tasks, now);
      s.0.Ok? ==> StepsAdded(ts, s.1, stepColumns, SpreadAllParams(ts, tasks), now)
    decreases |tasks|
  {
    if tasks == [] {
      StepsAddedNone(ts, stepColumns, now);
    } else {
      var id := tasks[0].Id();
      var r := SpreadWith(ts, stepColumns, id, now);
      if r.Ok? {
        var s := SpreadAllWith(r.value, stepColumns, tasks[1..], now);
        assert SpreadAllWith(ts, stepColumns, tasks, now) == s;
        assert SpreadAllParams(ts, tasks) == SpreadRows(ts, id) + SpreadAllParams(ts, tasks[1..]);
        SpreadSpec(ts, stepColumns, id, now);
        SpreadStepCells(ts, stepColumns, id, now);
        SpreadKeepsLaterParams(ts, stepColumns, id, tasks[1..], now);
        SpreadAllWithSteps(r.value, stepColumns, tasks[1..], now);
        if s.0.Ok? {
          StepsAddedTrans(ts, r.value, s.1, stepColumns, SpreadRows(ts, id), SpreadAllParams(ts, tasks[1..]), now);
        }
      }
    }
  }

  /** Whether a processed step carries the id. */
  predicate Named(steps: seq<Entity>, id: int) {
    exists i :: 0 <= i < |steps| && steps[i].Id() == id
  }

  /** The tables `p` differ from `ts` only in the step rows the steps
      name: the same tables, the same step rows in number and ids, a row no
      step names unchanged. */
  predicate StepsOnly(ts: Tables, p: Tables, steps: seq<Entity>) {
    && StepEntity.NAME in ts
    && p.Keys == ts.Keys
    && (forall n :: n in ts && n != StepEntity.NAME ==> p[n] == ts[n])
    && |p[StepEntity.NAME]| == |ts[StepEntity.NAME]|
    && (forall k :: 0 <= k < |ts[StepEntity.NAME]| ==> p[StepEntity.NAME][k].id == ts[StepEntity.NAME][k].id)
    && (forall k :: 0 <= k < |ts[StepEntity.NAME]| && !Named(steps, ts[StepEntity.NAME][k].id) ==>
          p[StepEntity.NAME][k] == ts[StepEntity.NAME][k])
  }

  /** The step rows of `p` hold, for each step, the state its reply put it in. */
  predicate InFinalStates(codec: Codec, ts: Tables, p: Tables, steps: seq<Entity>, client: Transaction.Client)
    requires StepsOnly(ts, p, steps)
  {
    forall i, k :: 0 <= i < |steps| && 0 <= k < |ts[StepEntity.NAME]| && steps[i].StepE? && ts[StepEntity.NAME][k].id == steps[i].Id() ==>
      Cell(p[StepEntity.NAME][k], "STATE") == JInt(Transaction.FinalState(codec, steps[i].step, client).Code())
  }

  /** One step processed changes only its own rows... */
  lemma ProcessOneFrame(codec: Codec, ts: Tables, cols: seq<DbColumn>, step: StepEntity.Step, client: Transaction.Client, now: int)
    requires WellFormed(ts) && "STATE" in Names(cols)
    ensures var p := Transaction.ProcessWith(codec, ts, cols, step, client, now).1;
      WellFormed(p) && StepsOnly(ts, p, [StepE(step)])
  {
    Transaction.ProcessRows(codec, ts, cols, step, client, now);
    assert [StepE(step)][0] == StepE(step);
  }

  /** ... and leaves them in its final state. */
  lemma ProcessOneFinal(codec: Codec, ts: Tables, cols: seq<DbColumn>, step: StepEntity.Step, client: Transaction.Client, now: int)
    requires WellFormed(ts) && "STATE" in Names(cols)
    ensures var p := Transaction.ProcessWith(codec, ts, cols, step, client, now).1;
      StepsOnly(ts, p, [StepE(step)]) && InFinalStates(codec, ts, p, [StepE(step)], client)
  {
    ProcessOneFrame(codec, ts, cols, step, client, now);
    Transaction.ProcessRows(codec, ts, cols, step, client, now);
    assert [StepE(step)][0] == StepE(step);
  }

  /** The first step of a pass, processed with the step table's columns. */
  lemma ProcessFirst(codec: Codec, ts: Tables, steps: seq<Entity>, client: Transaction.Client, now: int)
    requires WellFormed(ts) && |steps| >= 1 && steps[0].StepE?
    ensures var p := Transaction.ProcessResult(codec, ts, steps[0].step, client, now).1;
      && WellFormed(p)
      && StepsOnly(ts, p, [steps[0]])
      && InFinalStates(codec, ts, p, [steps[0]], client)
  {
    var step := steps[0].step;
    assert StepE(step) == steps[0];
    Transaction.StepsHaveState();
    ProcessOneFrame(codec, ts, Entities.ColumnsOf(StepEntity.NAME), step, client, now);
    ProcessOneFinal(codec, ts, Entities.ColumnsOf(StepEntity.NAME), step, client, now);
  }

  /** Steps processed one after the other change only the rows they name,
      and every row keeps its id. */
  lemma {:induction false} ProcessAllFrame(codec: Codec, ts: Tables, steps: seq<Entity>, client: Transaction.Client, now: int)
    requires WellFormed(ts)
    ensures var p := ProcessAll(codec, ts, steps, client, now).1;
      WellFormed(p) && StepsOnly(ts, p, steps)
    decreases |steps|
  {
    var p := ProcessAll(codec, ts, steps, client, now);
    if steps == [] || !steps[0].StepE? {
      assert p.1 == ts;
      assert StepEntity.NAME in ALLOWED;
    } else {
      ProcessFirst(codec, ts, steps, client, now);
      var p0 := Transaction.ProcessResult(codec, ts, steps[0].step, client, now);
      if p0.0.Raised? {
        assert p.1 == p0.1;
        NamedFirst(steps, [steps[0]]);
      } else {
        ProcessAllFrame(codec, p0.1, steps[1..], client, now);
        assert p == ProcessAll(codec, p0.1, steps[1..], client, now);
        ComposeFrame(ts, p0.1, p.1, steps);
      }
    }
  }

  /** When such a pass completes, each step's rows hold the state its reply
      put it in. */
  lemma {:induction false} ProcessAllFinal(codec: Codec, ts: Tables, steps: seq<Entity>, client: Transaction.Client, now: int)
    requires WellFormed(ts)
    requires forall i :: 0 <= i < |steps| ==> steps[i].StepE?
    requires forall i, j :: 0 <= i < j < |steps| ==> steps[i].Id() != steps[j].Id()
    ensures var p := ProcessAll(codec, ts, steps, client, now);
      StepsOnly(ts, p.1, steps) && (p.0.Ok? ==> InFinalStates(codec, ts, p.1, steps, client))
    decreases |steps|
  {
    ProcessAllFrame(codec, ts, steps, client, now);
    var p := ProcessAll(codec, ts, steps, client, now);
    if steps != [] {
      ProcessFirst(codec, ts, steps, client, now);
      var p0 := Transaction.ProcessResult(codec, ts, steps[0].step, client, now);
      if p0.0.Ok? {
        ProcessAllFinal(codec, p0.1, steps[1..], client, now);
        assert p == ProcessAll(codec, p0.1, steps[1..], client, now);
        if p.0.Ok? {
          ComposeFinal(codec, ts, p0.1, p.1, steps, client);
        }
      }
    }
  }

  /** A row one list of steps names is named by any list that starts with it. */
  lemma NamedFirst(steps: seq<Entity>, first: seq<Entity>)
    requires |first| == 1 <= |steps| && first[0] == steps[0]
    ensures forall id :: Named(first, id) ==> Named(steps, id)
  {
    forall id | Named(first, id) ensures Named(steps, id) {
      assert steps[0].Id() == id;
    }
  }

  /** The first step's change followed by the rest's is the whole pass's. */
  lemma ComposeFrame(ts: Tables, ts1: Tables, p: Tables, steps: seq<Entity>)
    requires |steps| >= 1
    requires StepsOnly(ts, ts1, [steps[0]]) && StepsOnly(ts1, p, steps[1..])
    ensures StepsOnly(ts, p, steps)
  {
    var rows := ts[StepEntity.NAME];
    var rows1 := ts1[StepEntity.NAME];
    forall k | 0 <= k < |rows| && !Named(steps, rows[k].id)
      ensures p[StepEntity.NAME][k] == rows[k]
    {
      assert steps[0].Id() != rows[k].id;
      assert [steps[0]][0] == steps[0];
      NotNamedTail(steps, rows1[k].id);
    }
  }

  /** ... and so are the states the steps end in. */
  lemma ComposeFinal(codec: Codec, ts: Tables, ts1: Tables, p: Tables, steps: seq<Entity>, client: Transaction.Client)
    requires |steps| >= 1
    requires forall i, j :: 0 <= i < j < |steps| ==> steps[i].Id() != steps[j].Id()
    requires StepsOnly(ts, ts1, [steps[0]]) && InFinalStates(codec, ts, ts1, [steps[0]], client)
    requires StepsOnly(ts1, p, steps[1..]) && InFinalStates(codec, ts1, p, steps[1..], client)
    requires StepsOnly(ts, p, steps)
    ensures InFinalStates(codec, ts, p, steps, client)
  {
    var rows := ts[StepEntity.NAME];
    var rows1 := ts1[StepEntity.NAME];
    forall i, k | 0 <= i < |steps| && 0 <= k < |rows| && steps[i].StepE? && rows[k].id == steps[i].Id()
      ensures Cell(p[StepEntity.NAME][k], "STATE") == JInt(Transaction.FinalState(codec, steps[i].step, client).Code())
    {
      if i == 0 {
        assert [steps[0]][0] == steps[0];
        NotNamedRest(steps, rows1[k].id);
      } else {
        assert steps[1..][i - 1] == steps[i];
      }
    }
  }

  /** An id no step names is not named by the steps after the first. */
  lemma NotNamedTail(steps: seq<Entity>, id: int)
    requires |steps| >= 1 && !Named(steps, id)
    ensures !Named(steps[1..], id)
  {
    forall j | 0 <= j < |steps[1..]| ensures steps[1..][j].Id() != id {
      assert steps[1..][j] == steps[j + 1];
    }
  }

  /** With distinct ids, the steps after the first do not name the first's. */
  lemma NotNamedRest(steps: seq<Entity>, id: int)
    requires |steps| >= 1 && steps[0].Id() == id
    requires forall i, j :: 0 <= i < j < |steps| ==> steps[i].Id() != steps[j].Id()
    ensures !Named(steps[1..], id)
  {
    forall j | 0 <= j < |steps[1..]| ensures steps[1..][j].Id() != id {
      assert steps[1..][j] == steps[j + 1];
    }
  }

  /** The tables `p` hold the same step rows as `ts`, by number and id, and
      every other table unchanged. */
  predicate SameStepRows(ts: Tables, p: Tables) {
    && StepEntity.NAME in ts
    && p.Keys == ts.Keys
    && (forall n :: n in ts && n != StepEntity.NAME ==> p[n] == ts[n])
    && |p[StepEntity.NAME]| == |ts[StepEntity.NAME]|
    && (forall k :: 0 <= k < |ts[StepEntity.NAME]| ==> p[StepEntity.NAME][k].id == ts[StepEntity.NAME][k].id)
  }

  /** The passes over the check states only write step rows: no row is
      added, removed or renumbered, and no other table changes. */
  lemma {:induction false} CheckStatesFrame(codec: Codec, ts: Tables, states: seq<int>, client: Transaction.Client, now: int)
    requires WellFormed(ts)
    ensures var c := CheckStates(codec, ts, states, client, now).1;
      WellFormed(c) && SameStepRows(ts, c)
    decreases |states|
  {
    assert StepEntity.NAME in ALLOWED;
    if states != [] {
      CheckOneFrame(codec, ts, states[0], client, now);
      var p := CheckOne(codec, ts, states[0], client, now);
      if p.0.Ok? {
        CheckStatesFrame(codec, p.1, states[1..], client, now);
      }
    }
  }

  /** One pass writes only step rows. */
  lemma CheckOneFrame(codec: Codec, ts: Tables, state: int, client: Transaction.Client, now: int)
    requires WellFormed(ts)
    ensures var c := CheckOne(codec, ts, state, client, now).1;
      WellFormed(c) && SameStepRows(ts, c)
  {
    assert StepEntity.NAME in ALLOWED;
    match StepsRead(codec, ts, state, now) {
      case Raised(_) =>
      case Ok(steps) => ProcessAllFrame(codec, ts, steps, client, now);
    }
  }

  /** The spread half of a cycle keeps the tables well formed, touches no
      table but the tasks and the steps, and keeps the steps there were, in
      number and id, at the front of the step table. */
  lemma SpreadPhaseFrame(codec: Codec, ts: Tables, now: int)
    requires WellFormed(ts)
    ensures var s := SpreadPhase(codec, ts, now).1;
      WellFormed(s) && StepsKept(ts, s)
  {
    var s: Tables := SpreadPhase(codec, ts, now).1;
    assert StepEntity.NAME in ALLOWED;
    match TasksRead(codec, ts, now) {
      case Raised(_) =>
      case Ok(tasks) =>
        SpreadAllSpec(ts, tasks, now);
        forall k | 0 <= k < |ts[StepEntity.NAME]|
          ensures s[StepEntity.NAME][k].id == ts[StepEntity.NAME][k].id
        {
          assert s[StepEntity.NAME][..|ts[StepEntity.NAME]|][k] == s[StepEntity.NAME][k];
        }
    }
  }

  /** The tables `c` are `ts` with rows only written in the tasks and the
      steps, and steps only added after the ones there were, which keep
      their ids. */
  predicate StepsKept(ts: Tables, c: Tables) {
    && StepEntity.NAME in ts
    && c.Keys == ts.Keys
    && (forall n :: n in ts && n != StepEntity.NAME && n != TaskEntity.NAME ==> c[n] == ts[n])
    && |c[StepEntity.NAME]| >= |ts[StepEntity.NAME]|
    && (forall k :: 0 <= k < |ts[StepEntity.NAME]| ==> c[StepEntity.NAME][k].id == ts[StepEntity.NAME][k].id)
  }

  lemma KeptThenSame(ts: Tables, s: Tables, c: Tables)
    requires StepsKept(ts, s) && SameStepRows(s, c)
    ensures StepsKept(ts, c)
  {
  }

  /** A cycle keeps the tables well formed, touches no table but the tasks
      and the steps, and keeps the steps there were, in number and id, at
      the front of the step table. */
  lemma CycleFrame(codec: Codec, ts: Tables, states: seq<int>, client: Transaction.Client, now: int)
    requires WellFormed(ts)
    ensures var c := CycleResult(codec, ts, states, client, now).1;
      WellFormed(c) && StepsKept(ts, c)
  {
    SpreadPhaseFrame(codec, ts, now);
    var s := SpreadPhase(codec, ts, now);
    if s.0.Ok? {
      var c := CheckStates(codec, s.1, states, client, now);
      assert CycleResult(codec, ts, states, client, now) == c;
      CheckStatesFrame(codec, s.1, states, client, now);
      KeptThenSame(ts, s.1, c.1);
    } else {
      assert CycleResult(codec, ts, states, client, now) == s;
    }
  }

  /** A step whose request fails in the client is left in progress, so the
      read of the steps in progress picks it up again as long as its task
      and partner can still be joined. */
  lemma RetriedOnClientFailure(codec: Codec, ts: Tables, steps: seq<Entity>, client: Transaction.Client, now: int,
                               i: int, k: int)
    requires WellFormed(ts)
    requires forall j :: 0 <= j < |steps| ==> steps[j].StepE?
    requires forall j, l :: 0 <= j < l < |steps| ==> steps[j].Id() != steps[l].Id()
    requires ProcessAll(codec, ts, steps, client, now).0.Ok?
    requires 0 <= i < |steps| && Transaction.TargetUrl(codec, steps[i].step).Ok?
    requires client(StepEntity.METHOD, Transaction.TargetUrl(codec, steps[i].step).value, steps[i].step.data).ClientFailure?
    requires StepEntity.NAME in ts && 0 <= k < |ts[StepEntity.NAME]| && ts[StepEntity.NAME][k].id == steps[i].Id()
    ensures var p := ProcessAll(codec, ts, steps, client, now).1;
      && StepEntity.NAME in p && |p[StepEntity.NAME]| == |ts[StepEntity.NAME]|
      && Cell(p[StepEntity.NAME][k], "STATE") == JInt(InProgress.Code())
      && forall targets :: Joinable(p, p[StepEntity.NAME][k], targets) ==>
           p[StepEntity.NAME][k] in SelectMain(p, p[StepEntity.NAME], ReadConditions(InProgress.Code(), true), targets)
  {
    ProcessAllFinal(codec, ts, steps, client, now);
    var p := ProcessAll(codec, ts, steps, client, now).1;
    assert StepsOnly(ts, p, steps) && InFinalStates(codec, ts, p, steps, client);
    assert Transaction.FinalState(codec, steps[i].step, client) == InProgress;
    assert Cell(p[StepEntity.NAME][k], "STATE") == JInt(InProgress.Code());
    InProgressSelected(p, k);
  }

  /** A step row in progress is read again by the in-progress pass. */
  lemma InProgressSelected(p: Tables, k: int)
    requires StepEntity.NAME in p && 0 <= k < |p[StepEntity.NAME]|
    requires Cell(p[StepEntity.NAME][k], "STATE") == JInt(InProgress.Code())
    ensures forall targets :: Joinable(p, p[StepEntity.NAME][k], targets) ==>
      p[StepEntity.NAME][k] in SelectMain(p, p[StepEntity.NAME], ReadConditions(InProgress.Code(), true), targets)
  {
    forall targets | Joinable(p, p[StepEntity.NAME][k], targets)
      ensures p[StepEntity.NAME][k] in SelectMain(p, p[StepEntity.NAME], ReadConditions(InProgress.Code(), true), targets)
    {
      StepAccess.ByStateSelects(p, p[StepEntity.NAME], InProgress.Code(), targets);
    }
  }

  // ----- the cycle as the loop runs it -----

  /** The spread of each task read: a failing spread ends the loop. */
  method SpreadTasks(t: DataAccess, tasks: seq<Entity>, now: int) returns (r: Outcome<()>)
    modifies t.db
    ensures (r, t.db.tables) == SpreadAll(old(t.db.tables), tasks, now)
  {
    var i := 0;
    while i < |tasks|
      invariant 0 <= i <= |tasks|
      invariant SpreadAll(old(t.db.tables), tasks, now) == SpreadAll(t.db.tables, tasks[i..], now)
    {
      assert tasks[i..][0] == tasks[i] && tasks[i..][1..] == tasks[i + 1..];
      var code := Transaction.Spread(t, tasks[i].Id(), now);
      if code.Raised? {
        return Raised(code.error);
      }
      i := i + 1;
    }
    assert tasks[i..] == [];
    r := Ok(());
  }

  /** `process` of each step read: an exception ends the loop. */
  method ProcessSteps(t: DataAccess, steps: seq<Entity>, client: Transaction.Client, now: int) returns (r: Outcome<()>)
    modifies t.db
    ensures (r, t.db.tables) == ProcessAll(t.codec, old(t.db.tables), steps, client, now)
  {
    var i := 0;
    while i < |steps|
      invariant 0 <= i <= |steps|
      invariant ProcessAll(t.codec, old(t.db.tables), steps, client, now) == ProcessAll(t.codec, t.db.tables, steps[i..], client, now)
    {
      assert steps[i..][0] == steps[i] && steps[i..][1..] == steps[i + 1..];
      if !steps[i].StepE? {
        return Raised(AttributeError);
      }
      var state := Transaction.Process(t, steps[i].step, client, now);
      if state.Raised? {
        return Raised(state.error);
      }
      i := i + 1;
    }
    assert steps[i..] == [];
    r := Ok(());
  }

  /** The task access reads the tasks in state New and the transaction
      spreads them. */
  method SpreadNew(t: DataAccess, now: int) returns (r: Outcome<()>)
    modifies t.db
    ensures (r, t.db.tables) == SpreadPhase(t.codec, old(t.db.tables), now)
  {
    UpperKeeps(TaskEntity.NAME);
    var taskAccess := new DataAccess(t.db, t.codec, TaskEntity.NAME);
    var read :- TaskAccess.ReadTasks(taskAccess, 1, now);
    r := SpreadTasks(t, taskAccess.data, now);
  }

  /** The step access reads the steps of each check state, and the
      transaction processes them. */
  method CheckSteps(t: DataAccess, states: seq<int>, client: Transaction.Client, now: int) returns (r: Outcome<()>)
    modifies t.db
    ensures (r, t.db.tables) == CheckStates(t.codec, old(t.db.tables), states, client, now)
  {
    UpperKeeps(StepEntity.NAME);
    var stepAccess := new DataAccess(t.db, t.codec, StepEntity.NAME);
    var i := 0;
    while i < |states|
      invariant 0 <= i <= |states|
      invariant stepAccess.db == t.db && stepAccess.codec == t.codec
      invariant stepAccess.cachedName == StepEntity.NAME
      invariant CheckStates(t.codec, old(t.db.tables), states, client, now) == CheckStates(t.codec, t.db.tables, states[i..], client, now)
    {
      assert states[i..][0] == states[i] && states[i..][1..] == states[i + 1..];
      var _ :- CheckState(t, stepAccess, states[i], client, now);
      i := i + 1;
    }
    assert states[i..] == [];
    r := Ok(());
  }

  /** The step access reads the steps in the state, and the transaction
      processes them. */
  method CheckState(t: DataAccess, stepAccess: DataAccess, state: int, client: Transaction.Client, now: int)
    returns (r: Outcome<()>)
    requires stepAccess.db == t.db && stepAccess.codec == t.codec && stepAccess.cachedName == StepEntity.NAME
    modifies stepAccess, t.db
    ensures stepAccess.cachedName == StepEntity.NAME
    ensures (r, t.db.tables) == CheckOne(t.codec, old(t.db.tables), state, client, now)
  {
    var _ :- StepAccess.ReadProcessingSteps(stepAccess, state, now);
    r := ProcessSteps(t, stepAccess.data, client, now);
  }

  /** One pass of `spread`'s loop, up to its sleep: the transaction spreads
      the new tasks, then processes the steps of each check state. */
  method Cycle(db: Database, codec: Codec, client: Transaction.Client, now: int) returns (r: Outcome<()>)
    modifies db
    ensures (r, db.tables) == CycleResult(codec, old(db.tables), CHECK_STATES, client, now)
  {
    var transaction := new DataAccess(db, codec, TaskEntity.NAME);
    var _ :- SpreadNew(transaction, now);
    r := CheckSteps(transaction, CHECK_STATES, client, now);
  }
}

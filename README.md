# asynctransaction, modelled in Dafny

asynctransaction is a small distributor of transactions between partners.

- A partner sends a transaction to `/transactions/<name>` by POST or PUT.
- The distributor looks up the event registered for that path and method and validates the body (`receive`).
- It scores the risk that the request is a resend of a task already stored (`duplicate_check`). It then stores the task and answers with its location, or refuses it with a status.
- A background loop reads the new tasks and fans each one out into one processing step per subscriber of its event (`spread`).
- The loop then delivers every step that is new or still in progress to its partner's address and records the state the reply leaves it in (`process`).

This project models that core and proves what it promises:

- the entity records and the SQL text built from their column lists;
- the in-memory access layer over the tables;
- the duplicate score;
- the four pipeline steps;
- the request handler;
- one cycle of the background loop.

Modules: one per core source file, plus the support modules `Wrappers`, `Text`, `Json`, `Storage` and `Entities`:

| module | models |
|---|---|
| `Wrappers` | `Outcome` (a value, or the Python exception raised), `Option` |
| `Text` | the `str` operations the code uses: `upper`, `lower`, `capitalize`, `split`, `join`, `replace`, `int`/`str` of numbers |
| `Json` | the values `json.loads` yields, `dict.get`, `int()`, `str()`, `in` and `[]` as Python applies them; the json library is a parameter (`Codec`) |
| `States` | the `State` enum: codes, reasons, messages |
| `EntityBase` | `DbColumn`, the base constructor and columns, and the CREATE/INSERT/SELECT/UPDATE statement builders |
| `TaskEntity`, `StepEntity`, `EventEntity`, `SubscriberEntity`, `PartnerEntity` | each entity's constructor defaults, columns, `to_dict` |
| `Entities` | the five entities as one type, the allowed table names and `_entity_factory`'s name-to-class mapping |
| `Storage` | the SQLite tables as sequences of rows in rowid order, and what the statements the core issues do to them; class `Database` |
| `AccessBase` | `DataAccessBase` as class `DataAccess`: held records, cached name, `name`, `get_result`, `read`, `update_state`, `insert`, `_execute_select` |
| `TaskAccess` | `duplicate_check` and `read_tasks` |
| `EventAccess` | `get_event_data` |
| `StepAccess` | `read_processing_steps` |
| `Transaction` | `receive`, `store`, `spread`, `process`, `message`, `task` |
| `Distributor` | `Distributor.post`/`put`, and one cycle of the `spread` background loop |

Exceptions are values: an operation that can raise returns `Outcome`.

- `Raised(e)` names the exception.
- A method stops at the first one, as the Python code does.

State-changing code is modelled imperatively:

- `Database` and `DataAccess` are classes whose methods update their fields.
- The loops are `while` loops with invariants.
- Each method's `ensures` ties its result and new state to a pure function of the old state.
- The properties are proved about those functions as lemmas.

Some behaviour of the code that is easy to miss, and that the model keeps:

- **Success codes.** Only 200 and 201 count as success, both in `process` and in the handler; any other reply status is a failure.
- **Conflict status.** A conflict is answered with status 409, the code of `ConflictRequest`.
- **No deleted filter.** `spread` inserts a step for every subscriber of the event, deleted or not. Reads by state (`read_tasks`, `read_processing_steps`) do not filter deleted rows either.
- **Errors in the loop.** An exception in a cycle (a failed spread, for instance) is not caught; it ends the loop.
- **Event fields.** When the request's event is known, `receive` overwrites the body's EVENT_ID, URL and METHOD with the event's. A body EVENT_ID that disagrees is not an error.

## Model

| member | source | states |
|---|---|---|
| Text.Upper | asynctransaction/data/entity/base.py:25 | `str.upper` keeps the length and upper-cases each character |
| Text.UpperIdempotent | asynctransaction/data/access/base.py:40-41 | upper-casing twice is upper-casing once, so the cached name compares equal to the upper-cased record name |
| Text.Capitalize | asynctransaction/data/access/base.py:109 | `str.capitalize` upper-cases the first character and lower-cases the rest |
| Text.Split | asynctransaction/data/access/base.py:109 | `str.split` always yields at least one piece |
| Text.SplitJoin | asynctransaction/data/entity/base.py:127 | the pieces of a split hold no separator, and joining them back gives the original text |
| Text.SplitOfPair | asynctransaction/data/entity/base.py:137 | a text with one separator splits into exactly the two parts around it |
| Text.RemoveChar | asynctransaction/data/entity/base.py:138 | `replace(c, '')` leaves no `c`, and leaves a text without `c` as it was |
| Text.IntToStringParses | asynctransaction/data/access/transaction.py:107 | `str` of an integer parses back to the integer |
| Json.Get | asynctransaction/data/entity/base.py:66-69 | `dict.get` answers the stored value, or the default for an absent key |
| Json.PyInt | asynctransaction/data/entity/base.py:66 | `int()` keeps an integer and raises TypeError on None, a list or a dict |
| Json.PyStr | asynctransaction/data/access/transaction.py:86 | `str()` keeps text and renders an integer as text that parses back to it |
| Json.PyContains | asynctransaction/data/entity/task.py:23 | `in` raises exactly on values that are not containers, and on a dict tests the keys |
| Json.PyIndex | asynctransaction/data/entity/task.py:24 | `[key]` succeeds exactly on a dict holding the key and answers its value |
| States.LifecycleOf | asynctransaction/data/entity/state.py:13-17 | a lifecycle code names the lifecycle state with that code |
| States.LifecycleCodes | asynctransaction/data/entity/state.py:13-17 | New..Error have codes 1..5, and every other state has an HTTP code of at least 200 |
| States.HttpCodes | asynctransaction/data/entity/state.py:5-12 | every BadRequest variant, and only those, has code 400; only RequestReceived and RequestStored have 200 or 201; only ConflictRequest has 409 |
| States.MessageIsReasonColon | asynctransaction/data/entity/state.py:28-34 | `message` is the reason followed by ':' (every detail is empty) |
| States.ReasonsDistinct | asynctransaction/data/entity/state.py:5-17 | no two states share a reason text |
| EntityBase.MakeColumn | asynctransaction/data/entity/base.py:13-39 | the column keeps name, index and fk, upper-cases the type, and has an empty default exactly when none was given |
| EntityBase.DefaultClause | asynctransaction/data/entity/base.py:28-39 | the rendered default is empty exactly when no default was given |
| EntityBase.DefaultRoundTrip | asynctransaction/data/entity/base.py:28-39 | the value the rendered default supplies: NULL for none; 0, the time or '' for the 'default' keyword by type; the number or text given otherwise |
| EntityBase.KeywordRoundTrip | asynctransaction/data/entity/base.py:31-37 | the 'default' keyword supplies 0 for INTEGER and FLOAT, the current time for TIMESTAMP and '' otherwise |
| EntityBase.TimestampKeyword | asynctransaction/data/entity/base.py:34-35 | a TIMESTAMP column's 'default' renders `DEFAULT(datetime('now','localtime'))` |
| EntityBase.IntegerKeyword | asynctransaction/data/entity/base.py:32-33 | an INTEGER column's 'default' renders `DEFAULT(0)` |
| EntityBase.SortByIndexSpec | asynctransaction/data/entity/base.py:90 | sorting by index yields an ordered permutation of the columns |
| EntityBase.FkColumnsSpec | asynctransaction/data/entity/base.py:85 | the filter keeps exactly the columns with a foreign key |
| EntityBase.GetJoinsSpec | asynctransaction/data/entity/base.py:84-85 | `get_joins` is ordered by index and holds exactly the columns with a foreign key |
| EntityBase.PopInterleave | asynctransaction/data/entity/base.py:91-100 | appending a separator after every item and popping the last gives the items joined by the separator |
| EntityBase.CreateTableShape | asynctransaction/data/entity/base.py:87-101 | CREATE TABLE is the header, the column lines by index then one constraint per join, separated by ",\n" with no trailing comma, then ");" |
| EntityBase.InsertColumnsSpec | asynctransaction/data/entity/base.py:105-107 | the INSERT names exactly the columns with an empty default |
| EntityBase.Placeholders | asynctransaction/data/entity/base.py:111-115 | the k-th placeholder is ':' followed by the k-th name |
| EntityBase.CreateInsertShape | asynctransaction/data/entity/base.py:103-118 | INSERT INTO names the columns with no default, then the same names as placeholders, both comma-separated |
| EntityBase.FkParts | asynctransaction/data/entity/base.py:127 | a foreign key splits on '(' into table and key, neither holding '(' |
| EntityBase.FkPartsRoundTrip | asynctransaction/data/entity/base.py:137-138 | `table(key` splits back into the table and the key |
| EntityBase.FilterColumn | asynctransaction/data/entity/base.py:129-134 | the select filters on DELETED when reading all, else on STATE exactly when by state, else on ID |
| EntityBase.JoinTargetsOk | asynctransaction/data/entity/base.py:135-139 | the joins render exactly when every foreign key has the `table(key)` form |
| EntityBase.CreateSelectStatement | asynctransaction/data/entity/base.py:120-141 | with no joins the statement is the plain filtered select; with joins it succeeds exactly when they render |
| EntityBase.SelectWithoutJoins | asynctransaction/data/entity/base.py:121-140 | the select without joins is `SELECT *, '<name>' name FROM <name> WHERE <name>.<filter> = ? ;` |
| EntityBase.SetColumnsSpec | asynctransaction/data/entity/base.py:145-150 | UPDATE sets exactly the columns given that are not ID, UPDATED_ON or CREATED_ON |
| EntityBase.UpdateEndsWithTail | asynctransaction/data/entity/base.py:151 | every UPDATE ends with `UPDATED_ON = datetime('now','localtime') WHERE ID = :ID;` |
| EntityBase.MakeCommon | asynctransaction/data/entity/base.py:57-73 | the base constructor succeeds exactly when `int(ID)` does; id defaults to 0, deleted to False, UPDATED_ON to now |
| EntityBase.BaseColumnValues | asynctransaction/data/entity/base.py:70-73 | the base columns are UPDATED_ON (101), CREATED_ON (102) and DELETED (103), with their rendered defaults |
| EntityBase.StateColumnValue | asynctransaction/data/entity/base.py:159 | a stateful entity's STATE column is INTEGER at index 99 with `DEFAULT(1)` |
| EntityBase.StatefulPrefix | asynctransaction/data/entity/base.py:155-159 | the base and STATE columns add no join and no INSERT column |
| EntityBase.StatelessPrefix | asynctransaction/data/entity/base.py:70-73 | the base columns add no join and no INSERT column |
| TaskEntity.DeriveLocalId | asynctransaction/data/entity/task.py:16-26 | a non-zero LOCAL_ID is kept; otherwise DATA's ID when it has one; undecodable DATA raises TaskException, DATA that is not text a TypeError |
| TaskEntity.MakeTask | asynctransaction/data/entity/task.py:13-36 | the constructor succeeds exactly when the base one and the local-id derivation do; the base fields, local id and DATA are as derived, and PARTNER_ID, EVENT_ID, STATE (1), URL (''), METHOD (POST), DESCRIPTION (''), IP_ADDRESS ('') and PORT (0) are taken from the keywords or their defaults |
| TaskEntity.Defaults | asynctransaction/data/entity/task.py:13-32 | a task built from nothing has id 0, state 1, not deleted, DATA `{}`, METHOD POST |
| TaskEntity.ToDictRoundTrip | asynctransaction/data/entity/task.py:38-48 | building a task from its `to_dict` gives the task back |
| TaskEntity.OwnKeys | asynctransaction/data/entity/task.py:38-42 | `to_dict` carries LOCAL_ID, PARTNER_ID, EVENT_ID, DATA and STATE |
| TaskEntity.TargetKeys | asynctransaction/data/entity/task.py:43-47 | `to_dict` carries URL, METHOD, DESCRIPTION, IP_ADDRESS and PORT |
| TaskEntity.CommonKeys | asynctransaction/data/entity/base.py:81-82 | `to_dict` carries ID, UPDATED_ON, CREATED_ON and DELETED |
| TaskEntity.ColumnValues | asynctransaction/data/entity/task.py:33-36 | the own columns are LOCAL_ID, PARTNER_ID (FK PARTNERS(ID)), EVENT_ID (FK EVENTS(ID)) and DATA |
| TaskEntity.AllColumns | asynctransaction/data/entity/task.py:33-36 | the task's columns are the base ones, STATE, LOCAL_ID, PARTNER_ID, EVENT_ID and DATA |
| TaskEntity.SortedColumns | asynctransaction/data/entity/task.py:33-36 | by index: LOCAL_ID, PARTNER_ID, EVENT_ID, DATA, STATE, UPDATED_ON, CREATED_ON, DELETED |
| TaskEntity.Joins | asynctransaction/data/entity/task.py:34-35 | the joins are PARTNER_ID then EVENT_ID |
| TaskEntity.InsertNames | asynctransaction/data/entity/task.py:33-36 | the INSERT names LOCAL_ID, PARTNER_ID, EVENT_ID and DATA |
| TaskEntity.TableText | tests/test_task.py:51-64 | the TASKS table text: the header, the eight column lines by index, then the PARTNERS and EVENTS constraints |
| TaskEntity.OwnLines | asynctransaction/data/entity/base.py:92 | a column without a default renders as name, type and a trailing blank |
| TaskEntity.DefaultedLines | asynctransaction/data/entity/base.py:92 | the STATE and DELETED lines render `DEFAULT(1)` and `DEFAULT(0)` |
| StepEntity.MakeStep | asynctransaction/data/entity/processing_step.py:12-29 | the constructor succeeds exactly when `int(ID)` does, with that id |
| StepEntity.Defaults | asynctransaction/data/entity/processing_step.py:15-22 | a step built from nothing has task and partner 0, DATA `{}`, ip localhost, port 80, state 1 |
| StepEntity.RecordFields | tests/test_processing.py:17-21 | a step built from a record takes its id, TASK_ID and PARTNER_ID |
| StepEntity.ToDictContainsRecord | tests/test_processing.py:23-25 | `to_dict` of a step built from a record contains every key and value of the record |
| StepEntity.OwnKeys | asynctransaction/data/entity/processing_step.py:42-46 | `to_dict` carries TASK_ID, PARTNER_ID, LOCAL_ID, EVENT_ID and DATA |
| StepEntity.TargetKeys | asynctransaction/data/entity/processing_step.py:47-50 | `to_dict` carries DESCRIPTION, IP_ADDRESS, PORT and STATE |
| StepEntity.CommonKeys | asynctransaction/data/entity/base.py:81-82 | `to_dict` carries ID, UPDATED_ON, CREATED_ON and DELETED |
| StepEntity.ToDictRoundTrip | asynctransaction/data/entity/processing_step.py:41-50 | building a step from its `to_dict` gives the step back |
| StepEntity.ColumnValues | asynctransaction/data/entity/processing_step.py:24-26 | the own columns are TASK_ID (FK TASKS(ID)) and PARTNER_ID (FK PARTNERS(ID)) |
| StepEntity.Joins | asynctransaction/data/entity/processing_step.py:24-26 | the joins are TASK_ID then PARTNER_ID |
| StepEntity.InsertNames | asynctransaction/data/entity/processing_step.py:24-26 | the INSERT names exactly TASK_ID and PARTNER_ID |
| EventEntity.MakeEvent | asynctransaction/data/entity/event.py:6-16 | the constructor succeeds exactly when `int(ID)` does, with that id |
| EventEntity.Defaults | asynctransaction/data/entity/event.py:8-12 | an event built from nothing has id 0, url '', method POST, description '' |
| EventEntity.OwnKeys | asynctransaction/data/entity/event.py:18-19 | `to_dict` carries METHOD, URL and DESCRIPTION |
| EventEntity.CommonKeys | asynctransaction/data/entity/base.py:81-82 | `to_dict` carries ID, UPDATED_ON, CREATED_ON and DELETED |
| EventEntity.ToDictContainsRecord | tests/test_event.py:46-49 | `to_dict` of an event built from a record contains the record, and DELETED is false by default |
| EventEntity.ToDictRoundTrip | asynctransaction/data/entity/event.py:18-20 | building an event from its `to_dict` gives the event back |
| EventEntity.ColumnValues | asynctransaction/data/entity/event.py:13-16 | the own columns are URL, METHOD and DESCRIPTION |
| EventEntity.MethodColumn | asynctransaction/data/entity/event.py:15 | METHOD renders `DEFAULT(POST)` |
| EventEntity.DescriptionColumn | asynctransaction/data/entity/event.py:16 | DESCRIPTION renders `DEFAULT('')` |
| EventEntity.InsertNames | asynctransaction/data/entity/event.py:13-16 | the INSERT names only URL |
| EventEntity.Joins | asynctransaction/data/entity/event.py:13-16 | an event joins nothing |
| SubscriberEntity.MakeSubscriber | asynctransaction/data/entity/subscriber.py:6-19 | the constructor succeeds exactly when `int(ID)` does, with that id |
| SubscriberEntity.Defaults | asynctransaction/data/entity/subscriber.py:8-16 | a subscriber built from nothing has event and partner 0, url '', method POST, ip '', port 0 |
| SubscriberEntity.Keys | asynctransaction/data/entity/subscriber.py:22-23 | `to_dict` carries EVENT_ID, PARTNER_ID, METHOD and URL |
| SubscriberEntity.TargetKeys | asynctransaction/data/entity/subscriber.py:23-24 | `to_dict` carries DESCRIPTION, PORT and the ip address as text |
| SubscriberEntity.CommonKeys | asynctransaction/data/entity/base.py:81-82 | `to_dict` carries ID, UPDATED_ON, CREATED_ON and DELETED |
| SubscriberEntity.ToDictRoundTrip | asynctransaction/data/entity/subscriber.py:21-25 | the ip address comes out as text, and a subscriber whose ip is text is rebuilt from its `to_dict` |
| SubscriberEntity.ColumnValues | asynctransaction/data/entity/subscriber.py:17-19 | the own columns are EVENT_ID (FK EVENTS(ID)) and PARTNER_ID (FK PARTNERS(ID)) |
| SubscriberEntity.Joins | asynctransaction/data/entity/subscriber.py:17-19 | the joins are EVENT_ID then PARTNER_ID |
| PartnerEntity.MakePartner | asynctransaction/data/entity/partner.py:14-30 | the constructor succeeds exactly when `int(ID)` does, with that id |
| PartnerEntity.Defaults | asynctransaction/data/entity/partner.py:19-26 | a partner built from nothing has ip 127.0.0.1, port 80, description '' |
| PartnerEntity.ColumnValues | asynctransaction/data/entity/partner.py:27-30 | the own columns are IP_ADDRESS, PORT and DESCRIPTION |
| PartnerEntity.Joins | asynctransaction/data/entity/partner.py:27-30 | a partner joins nothing |
| Entities.WithId | asynctransaction/data/access/transaction.py:66-67 | assigning the generated id changes the id and keeps the table name |
| Entities.ColumnsDeclared | asynctransaction/data/access/base.py:75 | the columns a record's statements are built from are its entity's columns |
| Entities.CapitalizeAll | asynctransaction/data/access/base.py:109 | every '_'-separated part is capitalised |
| Entities.DropLast | asynctransaction/data/access/base.py:109 | `name[:-1]` drops exactly the last character |
| Entities.EntityFactory | asynctransaction/data/access/base.py:105-107 | a name outside the allowed set raises NoValidEntity |
| Entities.FactoryBuildsNamed | asynctransaction/data/access/base.py:105-113 | for an allowed name the factory builds a record of that table, or fails with the constructor's error, never NoValidEntity |
| Entities.FactoryClass | asynctransaction/data/access/base.py:109 | each allowed name resolves to its class: TASKS→Task, EVENTS→Event, PARTNERS→Partner, SUBSCRIBERS→Subscriber, PROCESSING_STEPS→ProcessingStep |
| Entities.StepClass | asynctransaction/data/access/base.py:109 | PROCESSING_STEPS drops its S, splits on '_' and capitalises to ProcessingStep |
| Entities.TaskClass | asynctransaction/data/access/base.py:109 | TASKS resolves to Task |
| Entities.EventClass | asynctransaction/data/access/base.py:109 | EVENTS resolves to Event |
| Entities.PartnerClass | asynctransaction/data/access/base.py:109 | PARTNERS resolves to Partner |
| Entities.SubscriberClass | asynctransaction/data/access/base.py:109 | SUBSCRIBERS resolves to Subscriber |
| Entities.ConstructNamed | asynctransaction/data/access/base.py:109 | each class builds a record of its own table, or fails with its constructor's error, never NoValidEntity |
| Entities.NameIsUpper | asynctransaction/data/access/base.py:40-41 | every table name is already upper case |
| Storage.SelectMain | asynctransaction/data/entity/base.py:129-139 | a select keeps only rows that match the filter and whose joins resolve, never more rows than stored |
| Storage.SelectWithoutJoinsExact | asynctransaction/data/entity/base.py:122-134 | with no joins a row is selected exactly when it matches the filter |
| Storage.RowToDict | asynctransaction/data/access/base.py:116-120 | the last column lands under its upper-cased name |
| Storage.RowToDictKeys | asynctransaction/data/access/base.py:118-119 | the keys are exactly the upper-cased column names |
| Storage.RowToDictLastWins | asynctransaction/data/access/base.py:118-119 | a column's value survives unless a later column has the same upper-cased name |
| Storage.RowToDictAppend | asynctransaction/data/access/base.py:118-119 | the dict of joined columns is the earlier columns' dict overridden by the later ones |
| Storage.Dicts | asynctransaction/data/access/base.py:85-86 | one dict per selected row, in order |
| Storage.SelectResult | asynctransaction/data/access/base.py:85 | one result dict per selected row |
| Storage.Bind | asynctransaction/data/access/task.py:25 | a list or dict cannot be bound as a parameter (InterfaceError); other values bind as their SQL value |
| Storage.NewCells | asynctransaction/data/entity/base.py:103-118 | an inserted row has a value for every column |
| Storage.NewCellsError | asynctransaction/data/access/base.py:102-103 | a failed insert fails with an SQLite error |
| Storage.NextId | asynctransaction/data/access/base.py:94-96 | the new rowid is one past the last row's |
| Storage.NextIdAbove | asynctransaction/data/access/base.py:94-96 | the new rowid is positive and above every stored id |
| Storage.InsertOne | asynctransaction/data/access/base.py:94-96 | a single insert answers the new rowid |
| Storage.InsertOneSpec | asynctransaction/data/access/base.py:94-96 | a single insert appends one row carrying the answered id, and leaves the other rows and tables alone; a failure is an SQLite error; with `PRAGMA foreign_keys=ON` (line 126) it succeeds exactly when its cells are valid and every foreign key is NULL or the id of an existing row |
| Storage.InsertEachSpec | asynctransaction/data/access/base.py:99-100 | `executemany` appends one row per parameter set, or fails with an SQLite error |
| Storage.InsertEachCells | asynctransaction/data/access/base.py:99 | the rows `executemany` appends carry, in order, the cells built from each parameter set |
| Storage.InsertWithSpec | asynctransaction/data/access/base.py:91-100 | a successful insert named columns and grew the table by one row per parameter set; it answers the rowid for one set and the count otherwise |
| Storage.InsertResultSpec | asynctransaction/data/access/base.py:91-103 | an insert grows the table by the parameter sets; for one set it answers the new row's id; errors are SQLite errors |
| Storage.UpdateWhereId | asynctransaction/data/entity/base.py:151 | `WHERE ID = :ID` assigns the columns in the rows with that id and keeps every other row |
| Storage.StateAssigns | asynctransaction/data/entity/base.py:143-152 | a state update always sets UPDATED_ON to now, and STATE exactly when the table has that column |
| Storage.CountIdAtMostOne | asynctransaction/data/access/base.py:99-100 | with increasing ids at most one row has an id, so an update by id counts 0 or 1 |
| Storage.UpdateSpec | asynctransaction/data/entity/base.py:143-152 | the update rewrites only the row with the id (its state and time), keeps ids and every other row and table, and counts 1 exactly when that row exists |
| Storage.UpdateThenUpdate | asynctransaction/data/access/transaction.py:82-95 | two state updates of one row leave it in the second state, everything else as the first found it |
| Storage.SpreadParams | asynctransaction/data/access/transaction.py:115-116 | at most one step per subscriber row |
| Storage.SpreadParamsCount | asynctransaction/data/access/transaction.py:115-116 | one step per subscriber of the task's event, each with that TASK_ID and the subscriber's PARTNER_ID only |
| Storage.SpreadSpec | asynctransaction/data/access/transaction.py:114-124 | the fan-out appends one step per subscriber after the existing ones and sets the task to state 3, touching no other table; on error nothing is written |
| Storage.SpreadStepCells | asynctransaction/data/access/transaction.py:114-121 | one spread keeps the existing steps first and appends, in order, steps whose cells are built from its task's INSERT…SELECT rows |
| Storage.LookupAfterUpdate | asynctransaction/data/access/transaction.py:115-117 | after the UPDATE of a task, a lookup by id finds a row exactly when it did before, with the same id and event |
| Storage.SpreadParamsSameEvent | asynctransaction/data/access/transaction.py:115-116 | the INSERT…SELECT rows depend only on the task's id and event |
| Storage.SpreadRowsAfterPublish | asynctransaction/data/access/transaction.py:115-121 | publishing one task leaves the steps any task spreads to unchanged |
| Storage.PublishSpec | asynctransaction/data/access/transaction.py:117-121 | the publish step sets the task's state to 3 and its time, keeps the appended steps and the other tables |
| Storage.DupRows | asynctransaction/data/access/task.py:21-25 | the duplicate select yields at most one row per stored task |
| Storage.NoMatchNoRows | asynctransaction/data/access/task.py:21-25 | with no stored task of the same event, partner and local id, nothing is selected |
| Storage.Database.Select | asynctransaction/data/access/base.py:85 | the select answers the dicts of the selected rows |
| Storage.Database.Insert | asynctransaction/data/access/base.py:91-103 | the tables become the insert's result, or stay as they were when it raises |
| Storage.Database.UpdateState | asynctransaction/data/access/base.py:99-100 | the tables and the count become the update's result |
| Storage.Database.Spread | asynctransaction/data/access/transaction.py:118-124 | both writes of the fan-out happen, or neither |
| AccessBase.Materialise | asynctransaction/data/access/base.py:82-87 | the records are the factory's results for the rows, in order, up to the first row it rejects, and that rejection |
| AccessBase.DictsOf | asynctransaction/data/access/base.py:77 | one `to_dict` per held record, in order |
| AccessBase.NameCacheStable | asynctransaction/data/access/base.py:35-43 | a set name is answered and kept; a name taken from the records is cached and answered again |
| AccessBase.MixedThenNotFound | asynctransaction/data/access/base.py:36-49 | records of two tables make `name` raise MixedEntitiesException after caching the first; `get_result` then raises EntityNotFound |
| AccessBase.ResultSpec | asynctransaction/data/access/base.py:45-50 | `get_result` answers the first record exactly when there is exactly one, or at least one when uniqueness is not asked for; otherwise an IndexError, or MixedEntitiesException when the name must first be taken from records of two tables |
| AccessBase.LoadedNamed | asynctransaction/data/access/base.py:105-113 | every record loaded for an allowed name belongs to that table |
| AccessBase.ReadAllIsNotDeleted | asynctransaction/data/access/base.py:52-60 | reading all selects exactly the rows not deleted |
| AccessBase.DataAccess.constructor | asynctransaction/data/access/base.py:21-29 | no records, and the name upper-cased |
| AccessBase.DataAccess.GetName | asynctransaction/data/access/base.py:35-43 | the `name` property, its answer and the name it caches |
| AccessBase.DataAccess.GetResult | asynctransaction/data/access/base.py:45-50 | the `get_result` rules, records untouched |
| AccessBase.DataAccess.Load | asynctransaction/data/access/base.py:81-89 | the held records are replaced by those built from the rows; the count, or the first build error |
| AccessBase.DataAccess.Read | asynctransaction/data/access/base.py:52-89 | a name outside the allowed set answers 0 and changes nothing; otherwise the records become the selected rows; a table the statement names but the database lacks, or a by-state read of a table without a STATE column, raises DatabaseError after the records were cleared |
| AccessBase.TaskTargets | asynctransaction/data/entity/task.py:34-35 | a task read renders its joins and joins in PARTNERS, then EVENTS |
| AccessBase.StepTargets | asynctransaction/data/entity/processing_step.py:24-26 | a step read renders its joins and joins in TASKS, then PARTNERS |
| AccessBase.SubscriberTargets | asynctransaction/data/entity/subscriber.py:17-19 | a subscriber read renders its joins and joins in EVENTS, then PARTNERS |
| AccessBase.PlainTargets | asynctransaction/data/entity/event.py:13-16 | event and partner reads join nothing |
| AccessBase.JoinedTablesServed | asynctransaction/data/entity/base.py:120-141 | every served table's select renders, and the tables it joins in are served tables |
| AccessBase.ReadNeedsTables | asynctransaction/data/access/base.py:81-89 | a read of a missing table is refused; in a database holding every served table no read is refused for a missing table; a read that succeeds filters on a declared column |
| AccessBase.StateColumnOwners | asynctransaction/data/entity/base.py:129-134 | every table has a DELETED column, and only TASKS and PROCESSING_STEPS have a STATE column |
| AccessBase.FilterDeclaredExactly | asynctransaction/data/entity/base.py:129-134 | the WHERE column of a read exists exactly when the read is of all records, not by state, or of tasks or steps |
| AccessBase.DataAccess.UpdateState | asynctransaction/data/access/base.py:62-70 | no records: 0 and nothing written; otherwise the first record's row is set to the state |
| AccessBase.DataAccess.Insert | asynctransaction/data/access/base.py:72-79 | no records: 0 and nothing written; otherwise every record is inserted |
| TaskAccess.Weight | asynctransaction/data/access/task.py:28-37 | a duplicate adds 0 when published or processed, 1 when failed, 2 when touched under two minutes ago, else 0 |
| TaskAccess.ScanIsTotal | asynctransaction/data/access/task.py:25-38 | without a POST duplicate the score is the sum of the weights |
| TaskAccess.TotalBounds | asynctransaction/data/access/task.py:25-38 | the sum lies between 0 and twice the number of duplicates |
| TaskAccess.TotalAppend | asynctransaction/data/access/task.py:25-38 | the sum over two lists is the sum of their sums, so the order of the rows does not matter |
| TaskAccess.PostFirstIs100 | asynctransaction/data/access/task.py:26-27 | a POST duplicate scores 100, whatever came before it |
| TaskAccess.ConflictNeedsThree | asynctransaction/data/access/transaction.py:59-60 | a score above 5 takes a POST duplicate or at least three duplicates |
| TaskAccess.FailedAndRecentScoreThree | tests/test_task.py:109-130 | example: a failed and a recent twin score 3; a twin touched two minutes ago scores 0 |
| TaskAccess.BindNamed | asynctransaction/data/access/task.py:25 | a parameter the task's dict lacks is a DatabaseError |
| TaskAccess.NoTwinScoresZero | asynctransaction/data/access/task.py:20-38 | a task with no stored twin scores 0 |
| TaskAccess.DuplicateCheck | asynctransaction/data/access/task.py:19-38 | the loop answers the score of the selected duplicates |
| TaskAccess.StateSelectExact | asynctransaction/data/access/task.py:42 | `WHERE STATE = ?` selects exactly the rows in that state, deleted or not |
| TaskAccess.ReadTasks | asynctransaction/data/access/task.py:40-46 | the records become the tasks in the state, answering RequestStored; a missing table raises |
| EventAccess.ByUrlExact | asynctransaction/data/access/event.py:23 | the lookup selects exactly the live events with that url and method |
| EventAccess.EventLookupSpec | asynctransaction/data/access/event.py:14-26 | no match raises EntityNotFound, two or more raise, one answers the event built from its row |
| EventAccess.GetEventData | asynctransaction/data/access/event.py:14-26 | the records are cleared, refilled by the lookup, and the unique one answered |
| StepAccess.SelectExact | asynctransaction/data/entity/base.py:129-139 | a select keeps exactly the rows that match the filter and whose joins resolve |
| StepAccess.ByStateSelects | asynctransaction/data/access/processing_step.py:13-16 | for state s ≠ 0 the read selects exactly the joined steps in state s; for 0, the rows not deleted |
| StepAccess.ReadProcessingSteps | asynctransaction/data/access/processing_step.py:13-16 | the records become the steps read, answering RequestStored; a statement refused for a missing table leaves no records |
| Transaction.TaskArguments | asynctransaction/data/access/transaction.py:32-46 | the task's arguments: ID 0, the event's id, url and method when known, LOCAL_ID and serialised DATA from a DATA object, other keys as sent |
| Transaction.ReceiveMandatoryKeys | asynctransaction/data/access/transaction.py:25-41 | an undecodable body is BadRequestJsonDecode; a missing PARTNER_ID, DATA, EVENT_ID (no event) or DATA ID is BadRequestMandatoryKey |
| Transaction.ReceiveNotStoreAble | asynctransaction/data/access/transaction.py:44-50 | DATA neither object nor text, or text that does not decode, is BadRequestNotStoreAble |
| Transaction.ReceiveAccepted | asynctransaction/data/access/transaction.py:46-51 | every refusal is a 400; an accepted task has id 0, the sent partner, text DATA and the event's fields |
| Transaction.ReceiveDataObject | asynctransaction/data/access/transaction.py:39-43 | a DATA object with an ID is accepted with that ID as local id and DATA serialised |
| Transaction.Receive | asynctransaction/data/access/transaction.py:23-51 | the answer is the verdict's state, and exactly one task is appended when accepted, none otherwise |
| Transaction.ReceiveFields | asynctransaction/data/access/transaction.py:30-51 | the same, once the body is a dict |
| Transaction.Build | asynctransaction/data/access/transaction.py:47-51 | a task built appends it and answers RequestReceived; a TaskException answers BadRequestNotStoreAble |
| Transaction.Arguments | asynctransaction/data/access/transaction.py:32-46 | the writes to the received dict give the task's arguments |
| Transaction.WithIds | asynctransaction/data/access/transaction.py:66-67 | every held record gets the id, in order |
| Transaction.StoreSpec | asynctransaction/data/access/transaction.py:53-68 | store needs one held task; conflict exactly when the score exceeds 5; stored: one row appended and the task given its id; otherwise tables and records unchanged |
| Transaction.InsertedSpec | asynctransaction/data/access/transaction.py:61-67 | the insert of the one held task answers RequestStored with the appended row's id given to the task, or BadRequestDBError or an error with nothing written |
| Transaction.Store | asynctransaction/data/access/transaction.py:53-68 | the answer, tables and records are `store`'s |
| Transaction.InsertHeld | asynctransaction/data/access/transaction.py:61-65 | the insert of the held records, a storage error answering BadRequestDBError |
| Transaction.AssignIds | asynctransaction/data/access/transaction.py:66-67 | the loop gives every held record the id |
| Transaction.Spread | asynctransaction/data/access/transaction.py:70-75 | the fan-out is applied and RequestStored answered, or its error raised with nothing written |
| Transaction.UpdateTwice | asynctransaction/data/access/transaction.py:98-100 | setting a row to a state it was just set to changes nothing |
| Transaction.ProcessFinal | asynctransaction/data/access/transaction.py:77-101 | the step is put in progress, then in the state its reply gives |
| Transaction.ProcessRows | asynctransaction/data/access/transaction.py:77-101 | after `process` the step's row holds its final state and the time, and nothing else changed |
| Transaction.ProcessAnswer | asynctransaction/data/access/transaction.py:91-101 | `process` answers RequestStored exactly when the step ended processed, BadRequest otherwise |
| Transaction.StepsHaveState | asynctransaction/data/entity/processing_step.py:7 | the step table has a STATE column |
| Transaction.Process | asynctransaction/data/access/transaction.py:77-82 | the answer and tables are `process`'s |
| Transaction.Request | asynctransaction/data/access/transaction.py:83-101 | the request and the state update its reply calls for |
| Transaction.MessageRoundTrip | asynctransaction/data/access/transaction.py:103-107 | the message splits on '/' into '', the url, the local id and the id |
| Transaction.MessageExample | tests/test_distributor.py:42-48 | example: task 2 with local id 239 on orders has message `/orders/239/2` |
| Transaction.Message | asynctransaction/data/access/transaction.py:103-107 | the message of the unique held task, the error `get_result` raises, or AttributeError for a record that is not a task, which no caller holds |
| Distributor.UnknownEvent | asynctransaction/server/distributor.py:100-103 | no event for the path and method: 501, nothing written |
| Distributor.RefusedBody | asynctransaction/server/distributor.py:104-108 | a refused body answers 400 with the state's reason, nothing written |
| Distributor.ConflictAnswer | asynctransaction/server/distributor.py:109-112 | an accepted task with a score above 5 answers 409 "already stored", nothing written |
| Distributor.StoredConflict | asynctransaction/server/distributor.py:109-112 | storing a task that scores above 5 answers 409, nothing written |
| Distributor.AnswerSpec | asynctransaction/server/distributor.py:104-113 | the answer is 400, 409 or 201; 201 exactly when a task row was written, with the message of the new row's id |
| Distributor.StoredSpec | asynctransaction/server/distributor.py:109-113 | the same, for the store step |
| Distributor.Post | asynctransaction/server/distributor.py:96-113 | the response and tables are the handler's |
| Distributor.Answer | asynctransaction/server/distributor.py:104-113 | receive, then store when received |
| Distributor.AnswerReceipt | asynctransaction/server/distributor.py:106-113 | a refused receipt is answered with its state, otherwise the task is stored |
| Distributor.StoreAnswer | asynctransaction/server/distributor.py:109-113 | store, then 201 with the message, or the store state's code and reason |
| Distributor.Put | asynctransaction/server/distributor.py:115-120 | PUT answers exactly as POST |
| Distributor.SpreadOne | asynctransaction/server/distributor.py:141 | one spread only appends steps and writes tasks |
| Distributor.SpreadAllSpec | asynctransaction/server/distributor.py:140-142 | the spreads keep the tables well formed and the steps there were at the front, touching only tasks and steps |
| Distributor.SpreadAllPublishes | asynctransaction/server/distributor.py:140-141 | when every spread succeeds, the task table keeps its rows and ids in order, every task spread is in state 3 (Published), and every other task row is unchanged |
| Distributor.SpreadAllParamsAfter | asynctransaction/server/distributor.py:140-141 | a spread does not change the steps the later tasks of the pass spread to |
| Distributor.SpreadKeepsLaterParams | asynctransaction/data/access/transaction.py:114-121 | the tables a successful spread leaves give the later tasks the same steps as the tables before it |
| Distributor.SpreadAllWithSteps | asynctransaction/server/distributor.py:140-141 | the same as SpreadAllSteps, for steps with any column list |
| Distributor.SpreadAllSteps | asynctransaction/server/distributor.py:140-141 | when every spread succeeds, the existing steps stay first and the steps after them are each task's INSERT…SELECT rows in turn, as read from the tables before the pass |
| Distributor.ProcessOneFrame | asynctransaction/server/distributor.py:148 | processing a step writes only its own rows |
| Distributor.ProcessOneFinal | asynctransaction/server/distributor.py:148 | after processing, the step's rows hold its final state |
| Distributor.ProcessFirst | asynctransaction/server/distributor.py:147-148 | the same, for the first step of a pass |
| Distributor.ProcessAllFrame | asynctransaction/server/distributor.py:147-149 | a pass writes only the rows of the steps it read, never adds, drops or renumbers a row |
| Distributor.ProcessAllFinal | asynctransaction/server/distributor.py:147-149 | after a complete pass, every step's row holds the state its reply gave |
| Distributor.CheckOneFrame | asynctransaction/server/distributor.py:145-149 | one check pass keeps the step rows in number and id and every other table |
| Distributor.CheckStatesFrame | asynctransaction/server/distributor.py:144-149 | the check passes keep the step rows in number and id and every other table |
| Distributor.SpreadPhaseFrame | asynctransaction/server/distributor.py:137-142 | the spread half keeps the existing steps' ids and touches only tasks and steps |
| Distributor.CycleFrame | asynctransaction/server/distributor.py:137-149 | a cycle keeps the tables well formed, the existing steps' ids and every table but tasks and steps |
| Distributor.RetriedOnClientFailure | asynctransaction/server/distributor.py:144-149 | a step whose delivery hit a client error is back in progress, and the in-progress pass reads it again |
| Distributor.SpreadTasks | asynctransaction/server/distributor.py:140-142 | the loop spreads every task read, stopping at the first error |
| Distributor.ProcessSteps | asynctransaction/server/distributor.py:147-149 | the loop processes every step read, stopping at the first exception |
| Distributor.SpreadNew | asynctransaction/server/distributor.py:137-142 | the tasks in state New read and spread |
| Distributor.CheckSteps | asynctransaction/server/distributor.py:144-149 | one pass per check state, in order |
| Distributor.CheckState | asynctransaction/server/distributor.py:145-149 | the steps in the state read, then processed |
| Distributor.Cycle | asynctransaction/server/distributor.py:137-149 | one cycle: spread the new tasks, then process the new steps and those in progress |

## Left out

- The event loop: futures, `ensure_future`, `asyncio.sleep`, the endless `while True`, cancellation and the logging. One cycle is modelled; a coroutine that would hang on an exception raises it instead.
- aiohttp: the server, request objects and middleware, the client session and its time-out, SSL and the config file. The HTTP client is a function parameter from (method, url, body) to a reply (status, client error, or time-out).
- The admin views, the partner and subscriber access classes, `access/factory.py` (it always answers the default implementation) and the abstract interfaces. They have no behaviour of their own in the pipeline.
- `json.dumps` and `json.loads`: the codec is a parameter. `Lawful` (a value that was dumped loads back) is a hypothesis only where a lemma needs it.
- The wall clock: `now` is an integer of seconds passed in, and time stamps are integers.
- SQLite: tables are sequences of rows with increasing ids. Statements are given their meaning directly, not parsed from the SQL text. Type affinity is not modelled, and NULL equals nothing. The schema file is not part of this model; a table's columns are the entity's.
- `prepare_connection`: only its effect is modelled. With `PRAGMA foreign_keys` on, every INSERT (a single row, `executemany` and the spread's INSERT…SELECT) refuses a row whose foreign key is neither NULL nor the id of an existing row, and raises DatabaseError (Storage.ForeignKeysHold, checked by Storage.InsertOne).
- Floating-point JSON numbers: a JSON number is an integer. A body holding `1.0`, `0.0` or `7.5` is not modelled, so neither is Python's `0.0 == 0` nor `int(1.0)`.
- Python's `str` details: `upper`, `lower` and `capitalize` act on ASCII letters only; `int(s)` reads an optional sign and decimal digits, without surrounding blanks or digit underscores; `str()` of a list or dict is the codec's text rather than Python's repr.
- `Partner` address parsing (`ipaddress`, `urlparse`, `is_local`): ip address and port are opaque values.
- The order of the Python set literals: the entity columns are taken in index order, and the check states `{1, 2}` as 1 then 2.
- `ProcessingStep.get_data` and `get_result`: these read `DataAccess.data`, or call `DataAccess.GetResult(true)`; the step access keeps no separate state.
- Transaction.ReceiveFields: the checks on the body are made before the writes to the received dict, since no check reads what a write changes.
- TaskEntity.TableText: states the TASKS table text through the rendered column and constraint lines. It does not give the whole text as one string, because comparing long literal strings character by character is beyond the solver's budget. OwnLines and DefaultedLines pin the short lines' exact text.
- Storage.SelectResult: states only the number of result dicts; Storage.Dicts states their contents.
- StepEntity.MakeStep, EventEntity.MakeEvent, SubscriberEntity.MakeSubscriber, PartnerEntity.MakePartner: state only when the constructor succeeds and the id; the defaults and the fields taken from a record are stated by each entity's Defaults, ToDictRoundTrip and ToDictContainsRecord lemmas.
- Distributor.SpreadAllSteps: states the cells of the appended steps, not their row ids; the ids are increasing by the tables' well-formedness but their exact values are not stated.
- Distributor.ProcessAllFinal: assumes the steps read have distinct ids. Storage ids are distinct, but that the joined read keeps them distinct is not proved.

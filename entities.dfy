/** The five entity kinds side by side, the closed mapping from table names
    to kinds, and the entity factory of the access layer. */
module Entities {
  import opened Wrappers
  import opened Text
  import opened Json
  import opened EntityBase
  import TaskEntity
  import StepEntity
  import EventEntity
  import SubscriberEntity
  import PartnerEntity

  datatype Entity =
    | TaskE(task: TaskEntity.Task)
    | StepE(step: StepEntity.Step)
    | EventE(event: EventEntity.Event)
    | SubscriberE(subscriber: SubscriberEntity.Subscriber)
    | PartnerE(partner: PartnerEntity.Partner)
  {
    /** The `name` attribute: the table the record belongs to. */
    function Name(): string {
      match this
      case TaskE(_) => TaskEntity.NAME
      case StepE(_) => StepEntity.NAME
      case EventE(_) => EventEntity.NAME
      case SubscriberE(_) => SubscriberEntity.NAME
      case PartnerE(_) => PartnerEntity.NAME
    }

    function Common(): Common {
      match this
      case TaskE(t) => t.common
      case StepE(s) => s.common
      case EventE(e) => e.common
      case SubscriberE(s) => s.common
      case PartnerE(p) => p.common
    }

    function Id(): int {
      Common().id
    }

    /** The record with `id` assigned. */
    function WithId(id: int): (r: Entity)
      ensures r.Id() == id && r.Name() == Name()
    {
      match this
      case TaskE(t) => TaskE(t.(common := t.common.(id := id)))
      case StepE(s) => StepE(s.(common := s.common.(id := id)))
      case EventE(e) => EventE(e.(common := e.common.(id := id)))
      case SubscriberE(s) => SubscriberE(s.(common := s.common.(id := id)))
      case PartnerE(p) => PartnerE(p.(common := p.common.(id := id)))
    }
  }

  function ToDict(codec: Codec, e: Entity): Kwargs {
    match e
    case TaskE(t) => TaskEntity.ToDict(t)
    case StepE(s) => StepEntity.ToDict(s)
    case EventE(ev) => EventEntity.ToDict(ev)
    case SubscriberE(s) => SubscriberEntity.ToDict(codec, s)
    case PartnerE(p) => PartnerEntity.ToDict(codec, p)
  }

  /** `_allowed_entities`: the tables the access layer serves. */
  const ALLOWED: set<string> := {"PROCESSING_STEPS", "TASKS", "PARTNERS", "EVENTS", "SUBSCRIBERS"}

  /** The columns each served table's entity renders. */
  function ColumnsOf(name: string): seq<DbColumn> {
    if name == TaskEntity.NAME then TaskEntity.COLUMNS
    else if name == StepEntity.NAME then StepEntity.COLUMNS
    else if name == EventEntity.NAME then EventEntity.COLUMNS
    else if name == SubscriberEntity.NAME then SubscriberEntity.COLUMNS
    else if name == PartnerEntity.NAME then PartnerEntity.COLUMNS
    else []
  }

  /** They are the columns each entity declares. */
  lemma ColumnsDeclared()
    ensures ColumnsOf(TaskEntity.NAME) == TaskEntity.Columns()
    ensures ColumnsOf(StepEntity.NAME) == StepEntity.Columns()
    ensures ColumnsOf(EventEntity.NAME) == EventEntity.Columns()
    ensures ColumnsOf(SubscriberEntity.NAME) == SubscriberEntity.Columns()
    ensures ColumnsOf(PartnerEntity.NAME) == PartnerEntity.Columns()
  {
    TaskEntity.AllColumns();
    StepColumns();
    EventColumns();
    SubscriberColumns();
    PartnerColumns();
  }

  lemma StepColumns()
    ensures StepEntity.Columns() == StepEntity.COLUMNS
  {
    StepEntity.ColumnValues();
    StatefulPrefix(StepEntity.OwnColumns());
  }

  lemma EventColumns()
    ensures EventEntity.Columns() == EventEntity.COLUMNS
  {
    EventEntity.ColumnValues();
    StatelessPrefix(EventEntity.OwnColumns());
  }

  lemma SubscriberColumns()
    ensures SubscriberEntity.Columns() == SubscriberEntity.COLUMNS
  {
    SubscriberEntity.ColumnValues();
    StatelessPrefix(SubscriberEntity.OwnColumns());
  }

  lemma PartnerColumns()
    ensures PartnerEntity.Columns() == PartnerEntity.COLUMNS
  {
    PartnerEntity.ColumnValues();
    StatelessPrefix(PartnerEntity.OwnColumns());
  }

  /** Python's `s[:-1]`. */
  function DropLast(s: string): (r: string)
    ensures s != [] ==> r + [s[|s| - 1]] == s
    ensures s == [] ==> r == []
  {
    if s == [] then [] else s[..|s| - 1]
  }

  function CapitalizeAll(parts: seq<string>): (r: seq<string>)
    ensures |r| == |parts|
    ensures forall i :: 0 <= i < |parts| ==> r[i] == Capitalize(parts[i])
  {
    if parts == [] then [] else [Capitalize(parts[0])] + CapitalizeAll(parts[1..])
  }

  /** The class name the factory derives from a table name: the trailing
      plural 's' dropped, then each '_'-separated part capitalised. */
  function ClassName(name: string): string {
    Concat(CapitalizeAll(Split(DropLast(name), '_')))
  }

  /** The constructor called for a class name. */
  function Construct(codec: Codec, className: string, row: Kwargs, now: int): Outcome<Entity> {
    if className == "Task" then
      var t :- TaskEntity.MakeTask(codec, row, now); Ok(TaskE(t))
    else if className == "ProcessingStep" then
      var s :- StepEntity.MakeStep(codec, row, now); Ok(StepE(s))
    else if className == "Event" then
      var e :- EventEntity.MakeEvent(row, now); Ok(EventE(e))
    else if className == "Subscriber" then
      var s :- SubscriberEntity.MakeSubscriber(row, now); Ok(SubscriberE(s))
    else if className == "Partner" then
      var p :- PartnerEntity.MakePartner(row, now); Ok(PartnerE(p))
    else Raised(NoValidEntity)
  }

  /** `_entity_factory`: a record of the named table built from a row. */
  function EntityFactory(codec: Codec, name: string, row: Kwargs, now: int): (r: Outcome<Entity>)
    ensures name !in ALLOWED ==> r == Raised(NoValidEntity)
  {
    if name !in ALLOWED then Raised(NoValidEntity)
    else Construct(codec, ClassName(name), row, now)
  }

  /** Capitalising a word of upper-case letters keeps its first letter
      and lower-cases the rest. */
  lemma CapitalizeWord(w: string, r: string)
    requires |w| == |r| && w != []
    requires forall i :: 0 <= i < |w| ==> IsUpperChar(w[i])
    requires r[0] == w[0] && forall i :: 1 <= i < |w| ==> r[i] == LowerChar(w[i])
    ensures Capitalize(w) == r
  {
  }

  /** The class name of a table whose name is one word followed by 'S'. */
  lemma OneWordClass(name: string, word: string, className: string)
    requires name == word + "S" && '_' !in word
    requires Capitalize(word) == className
    ensures ClassName(name) == className
  {
    assert DropLast(name) == word;
    SplitFree(word, '_');
    assert CapitalizeAll([word]) == [className];
  }

  lemma TaskClass() ensures ClassName("TASKS") == "Task" {
    CapitalizeWord("TASK", "Task");
    OneWordClass("TASKS", "TASK", "Task");
  }

  lemma EventClass() ensures ClassName("EVENTS") == "Event" {
    CapitalizeWord("EVENT", "Event");
    OneWordClass("EVENTS", "EVENT", "Event");
  }

  lemma PartnerClass() ensures ClassName("PARTNERS") == "Partner" {
    CapitalizeWord("PARTNER", "Partner");
    OneWordClass("PARTNERS", "PARTNER", "Partner");
  }

  lemma SubscriberClass() ensures ClassName("SUBSCRIBERS") == "Subscriber" {
    CapitalizeWord("SUBSCRIBER", "Subscriber");
    OneWordClass("SUBSCRIBERS", "SUBSCRIBER", "Subscriber");
  }

  /** The class name of a table named by two words joined with '_' and
      followed by 'S'. */
  lemma TwoWordClass(name: string, w1: string, w2: string, c1: string, c2: string)
    requires name == w1 + "_" + w2 + "S" && '_' !in w1 && '_' !in w2
    requires Capitalize(w1) == c1 && Capitalize(w2) == c2
    ensures ClassName(name) == c1 + c2
  {
    assert DropLast(name) == w1 + "_" + w2;
    SplitOfPair(w1, w2, '_');
    assert CapitalizeAll([w1, w2]) == [c1, c2];
    assert Concat([c1, c2]) == c1 + Concat([c2]);
  }

  lemma ProcessingWord() ensures Capitalize("PROCESSING") == "Processing" {
    CapitalizeWord("PROCESSING", "Processing");
  }

  lemma StepClass(name: string)
    requires name == "PROCESSING_STEPS"
    ensures ClassName(name) == "ProcessingStep"
  {
    ProcessingWord();
    CapitalizeWord("STEP", "Step");
    assert name == "PROCESSING" + "_" + "STEP" + "S";
    TwoWordClass(name, "PROCESSING", "STEP", "Processing", "Step");
  }

  /** A record the factory builds for a served table belongs to that table;
      for a served table the only errors are the constructor's own. */
  lemma FactoryBuildsNamed(codec: Codec, name: string, row: Kwargs, now: int)
    requires name in ALLOWED
    ensures var r := EntityFactory(codec, name, row, now);
      && (r.Ok? ==> r.value.Name() == name)
      && (r.Raised? ==> r.error != NoValidEntity)
  {
    if name == "TASKS" {
      FactoryClass(codec, name, row, now, "Task");
      ConstructNamed(codec, "Task", row, now);
    } else if name == "EVENTS" {
      FactoryClass(codec, name, row, now, "Event");
      ConstructNamed(codec, "Event", row, now);
    } else if name == "PARTNERS" {
      FactoryClass(codec, name, row, now, "Partner");
      ConstructNamed(codec, "Partner", row, now);
    } else if name == "SUBSCRIBERS" {
      FactoryClass(codec, name, row, now, "Subscriber");
      ConstructNamed(codec, "Subscriber", row, now);
    } else {
      FactoryClass(codec, name, row, now, "ProcessingStep");
      ConstructNamed(codec, "ProcessingStep", row, now);
    }
  }

  /** The constructor chosen by a class name builds a record of the
      matching table and never reports a missing class. */
  lemma ConstructNamed(codec: Codec, className: string, row: Kwargs, now: int)
    requires className in {"Task", "Event", "Partner", "Subscriber", "ProcessingStep"}
    ensures var r := Construct(codec, className, row, now);
      && (r.Ok? ==> r.value.Name() == (if className == "Task" then "TASKS" else if className == "Event" then "EVENTS"
                                       else if className == "Partner" then "PARTNERS"
                                       else if className == "Subscriber" then "SUBSCRIBERS" else "PROCESSING_STEPS"))
      && (r.Raised? ==> r.error != NoValidEntity)
  {
  }

  /** The class each served table's records are built with. */
  lemma FactoryClass(codec: Codec, name: string, row: Kwargs, now: int, className: string)
    requires name in ALLOWED
    requires className == (if name == "TASKS" then "Task" else if name == "EVENTS" then "Event"
                           else if name == "PARTNERS" then "Partner" else if name == "SUBSCRIBERS" then "Subscriber"
                           else "ProcessingStep")
    ensures EntityFactory(codec, name, row, now) == Construct(codec, className, row, now)
  {
    if name == "TASKS" {
      TaskClass();
    } else if name == "EVENTS" {
      EventClass();
    } else if name == "PARTNERS" {
      PartnerClass();
    } else if name == "SUBSCRIBERS" {
      SubscriberClass();
    } else {
      StepClass(name);
    }
  }

  /** `name.upper()` of a record is its name: the table names are written
      in capitals, so the access layer's upper-casing can be left out. */
  lemma NameIsUpper(e: Entity)
    ensures Upper(e.Name()) == e.Name()
  {
    match e
    case TaskE(_) => UpperKeeps(TaskEntity.NAME);
    case StepE(_) => UpperKeeps(StepEntity.NAME);
    case EventE(_) => UpperKeeps(EventEntity.NAME);
    case SubscriberE(_) => UpperKeeps(SubscriberEntity.NAME);
    case PartnerE(_) => UpperKeeps(PartnerEntity.NAME);
  }
}

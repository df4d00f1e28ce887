/** The entity base: column descriptions, the fields every entity shares, and
    the SQL text an entity builds from its column list. */
module EntityBase {
  import opened Wrappers
  import opened Text
  import opened Json

  /** The `default` argument of a column: absent, a string or an integer. */
  datatype DefaultArg = NoDefault | GivenText(s: string) | GivenInt(n: int)

  /** A column with its data type upper-cased and its DEFAULT clause rendered
      ("" when there is none). */
  datatype DbColumn = DbColumn(name: string, dataType: string, index: int, fk: Option<string>, default: string)

  const DEFAULT_KEYWORD: string := "default"
  const NOW_EXPRESSION: string := "datetime('now','localtime')"

  /** The column constructor: the type is upper-cased and the keyword
      'default' picks the type's zero value. */
  function MakeColumn(name: string, index: int, fk: Option<string>, dataType: string, default: DefaultArg): (c: DbColumn)
    ensures c.name == name && c.index == index && c.fk == fk && c.dataType == Upper(dataType)
    ensures c.default == "" <==> default.NoDefault?
  {
    var t := Upper(dataType);
    DbColumn(name, t, index, fk, DefaultClause(t, default))
  }

  /** The DEFAULT clause for a column of (upper-cased) type `t`: the keyword
      picks the type's zero, or the current time for a time stamp. */
  function DefaultClause(t: string, default: DefaultArg): (d: string)
    ensures d == "" <==> default.NoDefault?
  {
    match default
    case NoDefault => ""
    case GivenText(s) =>
      if s == DEFAULT_KEYWORD then
        (if t == "INTEGER" || t == "FLOAT" then "DEFAULT(0)"
         else if t == "TIMESTAMP" then "DEFAULT(" + NOW_EXPRESSION + ")"
         else "DEFAULT('')")
      else "DEFAULT(" + s + ")"
    case GivenInt(n) => "DEFAULT(" + IntToString(n) + ")"
  }

  /** The value the database gives a column that an INSERT leaves out, read
      off its rendered DEFAULT clause; `now` is the local time in seconds.
      A bare word in the clause is read as text. */
  function DefaultValue(default: string, now: int): Json
  {
    if |default| >= 9 && default[..8] == "DEFAULT(" && default[|default| - 1] == ')' then
      var e := default[8..|default| - 1];
      if e == NOW_EXPRESSION then JInt(now)
      else if e == "''" then JStr("")
      else match ParseInt(e)
        case Some(n) => JInt(n)
        case None => JStr(e)
    else JNull
  }

  lemma DefaultClauseInner(x: string)
    ensures var d := "DEFAULT(" + x + ")"; |d| >= 9 && d[..8] == "DEFAULT(" && d[|d| - 1] == ')' && d[8..|d| - 1] == x
  {
    var d := "DEFAULT(" + x + ")";
    assert d[..8] == "DEFAULT(";
    assert d[8..|d| - 1] == x;
  }

  /** Rendering a default and reading it back gives the value the column's
      declaration asked for: NULL without a default, the type's zero (or the
      current time) for the keyword, the given number or text otherwise. */
  lemma {:induction false} DefaultRoundTrip(t: string, default: DefaultArg, now: int)
    ensures var v := DefaultValue(DefaultClause(t, default), now);
      && (default.NoDefault? ==> v == JNull)
      && (default == GivenText(DEFAULT_KEYWORD) ==>
            v == (if t in {"INTEGER", "FLOAT"} then JInt(0)
                  else if t == "TIMESTAMP" then JInt(now)
                  else JStr("")))
      && (default.GivenInt? ==> v == JInt(default.n))
      && ((default.GivenText? && default.s != DEFAULT_KEYWORD && default.s != NOW_EXPRESSION
           && default.s != "''" && ParseInt(default.s).None?) ==> v == JStr(default.s))
  {
    match default
    case NoDefault =>
    case GivenInt(n) =>
      IntToStringParses(n);
      DefaultClauseInner(IntToString(n));
      assert DefaultClause(t, default) == "DEFAULT(" + IntToString(n) + ")";
    case GivenText(s) =>
      if s == DEFAULT_KEYWORD {
        KeywordRoundTrip(t, now);
      } else {
        DefaultClauseInner(s);
        assert DefaultClause(t, default) == "DEFAULT(" + s + ")";
      }
  }

  /** The keyword's default read back: zero, the time, or empty text. */
  lemma KeywordRoundTrip(t: string, now: int)
    ensures DefaultValue(DefaultClause(t, GivenText(DEFAULT_KEYWORD)), now)
      == (if t in {"INTEGER", "FLOAT"} then JInt(0) else if t == "TIMESTAMP" then JInt(now) else JStr(""))
  {
    if t == "INTEGER" || t == "FLOAT" {
      DefaultClauseInner("0");
      ZeroParses();
    } else if t == "TIMESTAMP" {
      DefaultClauseInner(NOW_EXPRESSION);
    } else {
      DefaultClauseInner("''");
    }
  }

  lemma ZeroParses()
    ensures ParseInt("0") == Some(0)
  {
    assert AllDigits("0");
    assert DigitsValue("0") == DigitsValue("0"[..0]) * 10 + DigitValue('0');
  }

  // ----- ordering by index -----

  /** Every column's index is at least its predecessor's. */
  predicate SortedByIndex(cols: seq<DbColumn>) {
    forall i :: 0 < i < |cols| ==> cols[i - 1].index <= cols[i].index
  }

  /** Places `c` before the first column whose index is not smaller, so that
      equal indexes keep their original order. */
  function InsertByIndex(c: DbColumn, sorted: seq<DbColumn>): seq<DbColumn>
  {
    if sorted == [] || c.index <= sorted[0].index then [c] + sorted
    else [sorted[0]] + InsertByIndex(c, sorted[1..])
  }

  /** Python's `sorted(columns, key=lambda x: x.index)`, a stable sort. */
  function SortByIndex(cols: seq<DbColumn>): seq<DbColumn>
  {
    if cols == [] then [] else InsertByIndex(cols[0], SortByIndex(cols[1..]))
  }

  lemma {:induction false} InsertByIndexMembers(c: DbColumn, sorted: seq<DbColumn>)
    ensures multiset(InsertByIndex(c, sorted)) == multiset(sorted) + multiset{c}
  {
    if !(sorted == [] || c.index <= sorted[0].index) {
      InsertByIndexMembers(c, sorted[1..]);
      assert sorted == [sorted[0]] + sorted[1..];
      assert multiset(InsertByIndex(c, sorted)) == multiset{sorted[0]} + multiset(InsertByIndex(c, sorted[1..]));
    }
  }

  lemma {:induction false} InsertByIndexSpec(c: DbColumn, sorted: seq<DbColumn>)
    requires SortedByIndex(sorted)
    ensures SortedByIndex(InsertByIndex(c, sorted))
    ensures InsertByIndex(c, sorted)[0] == c || InsertByIndex(c, sorted)[0] == sorted[0]
    ensures multiset(InsertByIndex(c, sorted)) == multiset(sorted) + multiset{c}
  {
    InsertByIndexMembers(c, sorted);
    if sorted == [] || c.index <= sorted[0].index {
      var r := [c] + sorted;
      assert SortedByIndex(r) by {
        forall i | 0 < i < |r| ensures r[i - 1].index <= r[i].index {
          if i > 1 {
            assert r[i - 1] == sorted[i - 2] && r[i] == sorted[i - 1];
          }
        }
      }
    } else {
      var rest := InsertByIndex(c, sorted[1..]);
      assert SortedByIndex(sorted[1..]) by {
        forall i | 0 < i < |sorted[1..]| ensures sorted[1..][i - 1].index <= sorted[1..][i].index {
          assert sorted[1..][i - 1] == sorted[i] && sorted[1..][i] == sorted[i + 1];
        }
      }
      InsertByIndexSpec(c, sorted[1..]);
      var r := [sorted[0]] + rest;
      assert SortedByIndex(r) by {
        forall i | 0 < i < |r| ensures r[i - 1].index <= r[i].index {
          if i > 1 {
            assert r[i - 1] == rest[i - 2] && r[i] == rest[i - 1];
          } else if |sorted| > 1 {
            assert sorted[0].index <= sorted[1].index;
          }
        }
      }
    }
  }

  /** The sorted columns are ordered by index and are the same columns. */
  lemma {:induction false} SortByIndexSpec(cols: seq<DbColumn>)
    ensures SortedByIndex(SortByIndex(cols))
    ensures multiset(SortByIndex(cols)) == multiset(cols)
    ensures |SortByIndex(cols)| == |cols|
  {
    if cols != [] {
      SortByIndexSpec(cols[1..]);
      InsertByIndexSpec(cols[0], SortByIndex(cols[1..]));
      assert cols == [cols[0]] + cols[1..];
      assert |multiset(SortByIndex(cols))| == |multiset(cols)|;
    }
  }

  // One-step unfoldings, for computing the orders of concrete column lists.

  lemma SortStep(c: DbColumn, rest: seq<DbColumn>)
    ensures SortByIndex([c] + rest) == InsertByIndex(c, SortByIndex(rest))
  {
    assert ([c] + rest)[1..] == rest;
  }

  lemma InsertStep(c: DbColumn, first: DbColumn, rest: seq<DbColumn>)
    ensures c.index <= first.index ==> InsertByIndex(c, [first] + rest) == [c, first] + rest
    ensures c.index > first.index ==> InsertByIndex(c, [first] + rest) == [first] + InsertByIndex(c, rest)
  {
    assert ([first] + rest)[1..] == rest;
  }

  lemma FkStep(c: DbColumn, rest: seq<DbColumn>)
    ensures FkColumns([c] + rest) == (if c.fk.Some? then [c] else []) + FkColumns(rest)
  {
    assert ([c] + rest)[1..] == rest;
  }

  lemma InsertColumnsStep(c: DbColumn, rest: seq<DbColumn>)
    ensures InsertColumns([c] + rest) == (if c.default == "" then [c] else []) + InsertColumns(rest)
  {
    assert ([c] + rest)[1..] == rest;
  }

  function FkColumns(cols: seq<DbColumn>): seq<DbColumn>
  {
    if cols == [] then []
    else (if cols[0].fk.Some? then [cols[0]] else []) + FkColumns(cols[1..])
  }

  lemma {:induction false} FkColumnsSpec(cols: seq<DbColumn>)
    ensures forall c :: c in FkColumns(cols) <==> c in cols && c.fk.Some?
  {
    if cols != [] {
      FkColumnsSpec(cols[1..]);
      assert forall c :: c in cols <==> c == cols[0] || c in cols[1..];
    }
  }

  /** `get_joins`: the foreign-key columns in ascending index order. */
  function GetJoins(cols: seq<DbColumn>): seq<DbColumn>
  {
    SortByIndex(FkColumns(cols))
  }

  /** The joins are exactly the columns with a foreign key, ordered by index. */
  lemma GetJoinsSpec(cols: seq<DbColumn>)
    ensures SortedByIndex(GetJoins(cols))
    ensures forall c :: c in GetJoins(cols) <==> c in cols && c.fk.Some?
  {
    SortByIndexSpec(FkColumns(cols));
    FkColumnsSpec(cols);
    assert forall c :: c in GetJoins(cols) <==> c in multiset(FkColumns(cols));
  }

  // ----- statement pieces -----

  /** `list.pop()` on a list of text pieces. */
  function Pop(pieces: seq<string>): seq<string>
    requires |pieces| >= 1
  {
    pieces[..|pieces| - 1]
  }

  /** The pieces a loop appends when it follows every item by a separator. */
  function Interleave(items: seq<string>, sep: string): (r: seq<string>)
    ensures |r| == 2 * |items|
  {
    if items == [] then [] else [items[0], sep] + Interleave(items[1..], sep)
  }

  /** Popping the last separator and joining gives the items joined by the
      separator: the trailing-comma idiom of the statement builders. */
  lemma {:induction false} PopInterleave(items: seq<string>, sep: string)
    requires items != []
    ensures Concat(Pop(Interleave(items, sep))) == JoinWith(items, sep)
  {
    if |items| == 1 {
      assert Pop(Interleave(items, sep)) == [items[0]];
    } else {
      var rest := Interleave(items[1..], sep);
      assert Pop(Interleave(items, sep)) == [items[0], sep] + Pop(rest);
      PopInterleave(items[1..], sep);
      ConcatAppend([items[0], sep], Pop(rest));
    }
  }

  /** A pop after a header and interleaved items removes the last separator,
      or the header itself when there are no items. */
  lemma PopAfterHeader(header: string, items: seq<string>, sep: string)
    ensures items == [] ==> Pop([header] + Interleave(items, sep)) == []
    ensures items != [] ==> Pop([header] + Interleave(items, sep)) == [header] + Pop(Interleave(items, sep))
  {
  }

  function Indented(lines: seq<string>): (r: seq<string>)
    ensures |r| == |lines|
    ensures forall i :: 0 <= i < |lines| ==> r[i] == "    " + lines[i]
  {
    if lines == [] then [] else ["    " + lines[0]] + Indented(lines[1..])
  }

  function ColumnLine(c: DbColumn): string {
    c.name + " " + c.dataType + " " + c.default
  }

  function ColumnLines(cols: seq<DbColumn>): (r: seq<string>)
    ensures |r| == |cols|
    ensures forall i :: 0 <= i < |cols| ==> r[i] == ColumnLine(cols[i])
  {
    if cols == [] then [] else [ColumnLine(cols[0])] + ColumnLines(cols[1..])
  }

  function ConstraintLine(table: string, c: DbColumn): string {
    "CONSTRAINT FK_" + table + "_" + c.name + " foreign key(" + c.name + ") REFERENCES "
      + (match c.fk case Some(f) => f case None => "None")
  }

  function ConstraintLines(table: string, joins: seq<DbColumn>): (r: seq<string>)
    ensures |r| == |joins|
    ensures forall i :: 0 <= i < |joins| ==> r[i] == ConstraintLine(table, joins[i])
  {
    if joins == [] then [] else [ConstraintLine(table, joins[0])] + ConstraintLines(table, joins[1..])
  }

  lemma {:induction false} InterleaveAppend(a: seq<string>, b: seq<string>, sep: string)
    ensures Interleave(a + b, sep) == Interleave(a, sep) + Interleave(b, sep)
  {
    if a == [] {
      assert a + b == b;
    } else {
      assert (a + b)[1..] == a[1..] + b;
      InterleaveAppend(a[1..], b, sep);
    }
  }

  lemma JoinStep(first: string, rest: seq<string>, sep: string)
    requires rest != []
    ensures JoinWith([first] + rest, sep) == first + sep + JoinWith(rest, sep)
  {
    assert ([first] + rest)[1..] == rest;
  }

  // ----- CREATE TABLE -----

  function TableHeader(name: string): string {
    "CREATE TABLE " + name + " (\n    ID INTEGER PRIMARY KEY,\n"
  }

  /** The body lines of CREATE TABLE: every column by ascending index, then
      one constraint per foreign-key column. */
  function TableLines(name: string, cols: seq<DbColumn>): seq<string> {
    ColumnLines(SortByIndex(cols)) + ConstraintLines(name, GetJoins(cols))
  }

  /** `create_table_statement`: the two loops append indented lines each
      followed by ",\n"; the last separator is popped and ");" appended. */
  function CreateTableStatement(name: string, cols: seq<DbColumn>): string {
    var pieces := [TableHeader(name)]
      + Interleave(Indented(ColumnLines(SortByIndex(cols))), ",\n")
      + Interleave(Indented(ConstraintLines(name, GetJoins(cols))), ",\n");
    Concat(Pop(pieces) + [");"])
  }

  /** The table text is the header, the body lines joined by ",\n" with no
      trailing comma, and ");". With no columns at all the pop removes the
      header and only ");" is left. */
  lemma {:induction false} CreateTableShape(name: string, cols: seq<DbColumn>)
    ensures cols != [] ==>
      CreateTableStatement(name, cols) == TableHeader(name) + JoinWith(Indented(TableLines(name, cols)), ",\n") + ");"
    ensures cols == [] ==> CreateTableStatement(name, cols) == ");"
  {
    var x := ColumnLines(SortByIndex(cols));
    var y := ConstraintLines(name, GetJoins(cols));
    var h := TableHeader(name);
    InterleaveAppend(Indented(x), Indented(y), ",\n");
    IndentedAppend(x, y);
    var items := Indented(TableLines(name, cols));
    assert [h] + Interleave(Indented(x), ",\n") + Interleave(Indented(y), ",\n") == [h] + Interleave(items, ",\n");
    ClosePieces(h, items, ",\n");
    SortByIndexSpec(cols);
  }

  /** Header, separated items, a pop and the closing ");". */
  lemma ClosePieces(h: string, items: seq<string>, sep: string)
    ensures items != [] ==> Concat(Pop([h] + Interleave(items, sep)) + [");"]) == h + JoinWith(items, sep) + ");"
    ensures items == [] ==> Concat(Pop([h] + Interleave(items, sep)) + [");"]) == ");"
  {
    PopAfterHeader(h, items, sep);
    if items != [] {
      var p := Pop(Interleave(items, sep));
      PopInterleave(items, sep);
      ConcatAppend([h] + p, [");"]);
      ConcatAppend([h], p);
    }
  }

  lemma IndentedAppend(x: seq<string>, y: seq<string>)
    ensures Indented(x + y) == Indented(x) + Indented(y)
  {
    assert |Indented(x + y)| == |Indented(x) + Indented(y)|;
    forall i | 0 <= i < |x + y| ensures Indented(x + y)[i] == (Indented(x) + Indented(y))[i] {
      if i >= |x| {
        assert (x + y)[i] == y[i - |x|];
      }
    }
  }

  // ----- INSERT -----

  /** The columns an INSERT names: those without a DEFAULT clause, in list order. */
  function InsertColumns(cols: seq<DbColumn>): seq<DbColumn>
  {
    if cols == [] then []
    else (if cols[0].default == "" then [cols[0]] else []) + InsertColumns(cols[1..])
  }

  /** The INSERT names exactly the columns without a DEFAULT clause. */
  lemma {:induction false} InsertColumnsSpec(cols: seq<DbColumn>)
    ensures forall c :: c in InsertColumns(cols) <==> c in cols && c.default == ""
    ensures |InsertColumns(cols)| <= |cols|
  {
    if cols != [] {
      InsertColumnsSpec(cols[1..]);
      assert forall c :: c in cols <==> c == cols[0] || c in cols[1..];
    }
  }

  function Names(cols: seq<DbColumn>): (r: seq<string>)
    ensures |r| == |cols|
    ensures forall i :: 0 <= i < |cols| ==> r[i] == cols[i].name
  {
    if cols == [] then [] else [cols[0].name] + Names(cols[1..])
  }

  function Placeholders(names: seq<string>): (r: seq<string>)
    ensures |r| == |names|
    ensures forall i :: 0 <= i < |names| ==> r[i] == ":" + names[i]
  {
    if names == [] then [] else [":" + names[0]] + Placeholders(names[1..])
  }

  /** `create_insert_statement`: two loops over the columns without a
      default, each followed by a pop. */
  function CreateInsertStatement(name: string, cols: seq<DbColumn>): string {
    var names := Names(InsertColumns(cols));
    var first := [("INSERT INTO " + name + " (")] + Interleave(names, ", ");
    var second := Pop(first) + [") VALUES ("] + Interleave(Placeholders(names), ", ");
    Concat(Pop(second) + [");"])
  }

  /** The INSERT names exactly the columns without a default and binds the
      k-th one to the placeholder ':' + its name. Without such columns both
      pops eat the fixed text and the statement is the bare ");". */
  lemma {:induction false} CreateInsertShape(name: string, cols: seq<DbColumn>)
    ensures var names := Names(InsertColumns(cols));
      names != [] ==>
        (CreateInsertStatement(name, cols)
         == "INSERT INTO " + name + " (" + JoinWith(names, ", ") + ") VALUES (" + JoinWith(Placeholders(names), ", ") + ");")
    ensures InsertColumns(cols) == [] ==> CreateInsertStatement(name, cols) == ");"
  {
    var names := Names(InsertColumns(cols));
    var h := "INSERT INTO " + name + " (";
    PopAfterHeader(h, names, ", ");
    if names != [] {
      var first := [h] + Interleave(names, ", ");
      PopInterleave(names, ", ");
      PopInterleave(Placeholders(names), ", ");
      var second := Pop(first) + [") VALUES ("] + Interleave(Placeholders(names), ", ");
      assert Pop(second) == [h] + Pop(Interleave(names, ", ")) + [") VALUES ("] + Pop(Interleave(Placeholders(names), ", "));
      ConcatAppend(Pop(second), [");"]);
      ConcatAppend([h] + Pop(Interleave(names, ", ")) + [") VALUES ("], Pop(Interleave(Placeholders(names), ", ")));
      ConcatAppend([h] + Pop(Interleave(names, ", ")), [") VALUES ("]);
      ConcatAppend([h], Pop(Interleave(names, ", ")));
    } else {
      assert Pop([h] + Interleave(names, ", ")) == [];
      assert Pop([") VALUES ("]) == [];
    }
  }

  // ----- SELECT -----

  /** `table, key = fk.split('(')`: anything but exactly two parts is a
      ValueError. */
  function FkParts(fk: string): (r: Outcome<(string, string)>)
    ensures r.Ok? ==> '(' !in r.value.0 && '(' !in r.value.1
  {
    var parts := Split(fk, '(');
    SplitJoin(fk, '(');
    if |parts| == 2 then Ok((parts[0], parts[1])) else Raised(ValueError)
  }

  /** A reference written as table(key) splits back into its table and key. */
  lemma FkPartsRoundTrip(table: string, key: string)
    requires '(' !in table && '(' !in key
    ensures FkParts(table + "(" + key).Ok?
    ensures FkParts(table + "(" + key).value == (table, key)
  {
    SplitOfPair(table, key, '(');
  }

  /** The column a SELECT filters on: DELETED for read_all, otherwise STATE
      for by_state, otherwise ID. */
  function FilterColumn(readAll: bool, byState: bool): (r: string)
    ensures r in {"DELETED", "STATE", "ID"}
    ensures readAll ==> r == "DELETED"
    ensures r == "STATE" <==> !readAll && byState
  {
    if readAll then "DELETED" else if byState then "STATE" else "ID"
  }

  /** The tables joined in: one (table, key, column) per foreign key. */
  function JoinTargets(joins: seq<DbColumn>): (r: Outcome<seq<(string, string, string)>>)
    ensures r.Ok? ==> |r.value| == |joins|
  {
    if joins == [] then Ok([])
    else
      var fk :- if joins[0].fk.Some? then Ok(joins[0].fk.value) else Raised(AttributeError);
      var parts :- FkParts(fk);
      var rest :- JoinTargets(joins[1..]);
      Ok([(parts.0, RemoveChar(parts.1, ')'), joins[0].name)] + rest)
  }

  /** A well-formed reference text on every join is what the statement needs. */
  predicate WellFormedFk(c: DbColumn) {
    c.fk.Some? && FkParts(c.fk.value).Ok?
  }

  lemma {:induction false} JoinTargetsOk(joins: seq<DbColumn>)
    ensures JoinTargets(joins).Ok? <==> forall c :: c in joins ==> WellFormedFk(c)
  {
    if joins != [] {
      JoinTargetsOk(joins[1..]);
      assert JoinTargets(joins).Ok? <==> WellFormedFk(joins[0]) && JoinTargets(joins[1..]).Ok?;
      assert forall c :: c in joins <==> c == joins[0] || c in joins[1..];
    }
  }

  function FromPieces(targets: seq<(string, string, string)>): seq<string> {
    if targets == [] then [] else [targets[0].0 + ", "] + FromPieces(targets[1..])
  }

  function AndPieces(name: string, targets: seq<(string, string, string)>): seq<string> {
    if targets == [] then []
    else
      ["AND ", targets[0].0 + "." + targets[0].1 + " = " + name + "." + targets[0].2 + " "]
      + AndPieces(name, targets[1..])
  }

  function SelectText(name: string, filter: string, targets: seq<(string, string, string)>): string {
    Concat(["SELECT *, '" + name + "' name FROM "] + FromPieces(targets)
      + [name + "\n    WHERE " + name + "." + filter + " = ? "] + AndPieces(name, targets) + [";"])
  }

  /** `create_select_statement`. A malformed foreign-key text raises the
      ValueError of the unpacking. */
  function CreateSelectStatement(name: string, cols: seq<DbColumn>, readAll: bool, byState: bool, noJoins: bool): (r: Outcome<string>)
    ensures noJoins ==> r == Ok(SelectText(name, FilterColumn(readAll, byState), []))
    ensures !noJoins ==> (r.Ok? <==> JoinTargets(GetJoins(cols)).Ok?)
  {
    var joins := if noJoins then [] else GetJoins(cols);
    var targets :- JoinTargets(joins);
    Ok(SelectText(name, FilterColumn(readAll, byState), targets))
  }

  /** Without joins the statement reads one table, filtered on one column. */
  lemma SelectWithoutJoins(name: string, filter: string)
    ensures SelectText(name, filter, []) == "SELECT *, '" + name + "' name FROM " + name + "\n    WHERE " + name + "." + filter + " = ? ;"
  {
    var a := "SELECT *, '" + name + "' name FROM ";
    var w := name + "\n    WHERE " + name + "." + filter + " = ? ";
    var p := [a] + FromPieces([]) + [w] + AndPieces(name, []) + [";"];
    assert p == [a, w, ";"];
    assert Concat([";"]) == ";";
    assert Concat([w, ";"]) == w + Concat([";"]);
    assert Concat(p) == a + Concat([w, ";"]);
  }

  // ----- UPDATE -----

  predicate Protected(column: string) {
    column == "ID" || column == "UPDATED_ON" || column == "CREATED_ON"
  }

  /** The columns an UPDATE assigns from its keyword arguments, in list order. */
  function SetColumns(cols: seq<DbColumn>, keys: set<string>): seq<string>
  {
    if cols == [] then []
    else (if cols[0].name in keys && !Protected(cols[0].name) then [cols[0].name] else []) + SetColumns(cols[1..], keys)
  }

  /** An UPDATE assigns exactly the columns that are among its arguments and
      are not ID, UPDATED_ON or CREATED_ON. */
  lemma {:induction false} SetColumnsSpec(cols: seq<DbColumn>, keys: set<string>)
    ensures forall n :: n in SetColumns(cols, keys) <==> n in keys && !Protected(n) && n in Names(cols)
  {
    if cols != [] {
      SetColumnsSpec(cols[1..], keys);
      assert Names(cols) == [cols[0].name] + Names(cols[1..]);
    }
  }

  function Assignments(names: seq<string>): seq<string> {
    if names == [] then [] else [names[0], "= :", names[0], ", "] + Assignments(names[1..])
  }

  const UPDATE_TAIL: string := "UPDATED_ON = datetime('now','localtime') WHERE ID = :ID;"

  /** `create_update_statement`. */
  function CreateUpdateStatement(name: string, cols: seq<DbColumn>, keys: set<string>): string {
    Concat(["UPDATE " + name + " SET "] + Assignments(SetColumns(cols, keys)) + [UPDATE_TAIL])
  }

  /** Every UPDATE ends by stamping UPDATED_ON and selecting the row by ID. */
  lemma UpdateEndsWithTail(name: string, cols: seq<DbColumn>, keys: set<string>)
    ensures var s := CreateUpdateStatement(name, cols, keys);
      |s| >= |UPDATE_TAIL| && s[|s| - |UPDATE_TAIL|..] == UPDATE_TAIL
  {
    var p := ["UPDATE " + name + " SET "] + Assignments(SetColumns(cols, keys));
    ConcatAppend(p, [UPDATE_TAIL]);
  }

  // ----- the fields and columns every entity has -----

  /** id, updated_on, created_on and deleted. */
  datatype Common = Common(id: int, updatedOn: Json, createdOn: Json, deleted: Json)

  /** The base constructor on a keyword dictionary: `int(ID)` may raise. */
  function MakeCommon(kwargs: Kwargs, now: int): (r: Outcome<Common>)
    ensures r.Ok? <==> PyInt(Get(kwargs, "ID", JInt(0))).Ok?
    ensures r.Ok? ==> r.value.id == PyInt(Get(kwargs, "ID", JInt(0))).value
    ensures "ID" !in kwargs ==> r.Ok? && r.value.id == 0
    ensures r.Ok? && "DELETED" !in kwargs ==> r.value.deleted == JBool(false)
    ensures r.Ok? && "UPDATED_ON" !in kwargs ==> r.value.updatedOn == JInt(now)
  {
    var id :- PyInt(Get(kwargs, "ID", JInt(0)));
    Ok(Common(id, Get(kwargs, "UPDATED_ON", JInt(now)), Get(kwargs, "CREATED_ON", JInt(now)),
              Get(kwargs, "DELETED", JBool(false))))
  }

  function BaseColumns(): seq<DbColumn> {
    [MakeColumn("UPDATED_ON", 101, None, "TIMESTAMP", GivenText(DEFAULT_KEYWORD)),
     MakeColumn("CREATED_ON", 102, None, "TIMESTAMP", GivenText(DEFAULT_KEYWORD)),
     MakeColumn("DELETED", 103, None, "INTEGER", GivenText(DEFAULT_KEYWORD))]
  }

  /** The rendered base columns, shared by every entity. */
  const UPDATED_ON_COLUMN := DbColumn("UPDATED_ON", "TIMESTAMP", 101, None, "DEFAULT(" + NOW_EXPRESSION + ")")
  const CREATED_ON_COLUMN := DbColumn("CREATED_ON", "TIMESTAMP", 102, None, "DEFAULT(" + NOW_EXPRESSION + ")")
  const DELETED_COLUMN := DbColumn("DELETED", "INTEGER", 103, None, "DEFAULT(0)")
  const STATE_COLUMN := DbColumn("STATE", "INTEGER", 99, None, "DEFAULT(1)")

  /** The time stamps default to the local time of the insert, the deletion
      flag to 0. */
  lemma BaseColumnValues()
    ensures BaseColumns() == [UPDATED_ON_COLUMN, CREATED_ON_COLUMN, DELETED_COLUMN]
  {
    UpdatedOnColumn();
    CreatedOnColumn();
    DeletedColumn();
  }

  lemma TimestampKeyword()
    ensures DefaultClause("TIMESTAMP", GivenText(DEFAULT_KEYWORD)) == "DEFAULT(" + NOW_EXPRESSION + ")"
  {
  }

  lemma IntegerKeyword()
    ensures DefaultClause("INTEGER", GivenText(DEFAULT_KEYWORD)) == "DEFAULT(0)"
  {
  }

  lemma UpdatedOnColumn()
    ensures BaseColumns()[0] == UPDATED_ON_COLUMN
  {
    UpperKeeps("TIMESTAMP");
    TimestampKeyword();
  }

  lemma CreatedOnColumn()
    ensures BaseColumns()[1] == CREATED_ON_COLUMN
  {
    UpperKeeps("TIMESTAMP");
    TimestampKeyword();
  }

  lemma DeletedColumn()
    ensures BaseColumns()[2] == DELETED_COLUMN
  {
    UpperKeeps("INTEGER");
    IntegerKeyword();
  }

  /** STATE defaults to 1, New. */
  lemma StateColumnValue()
    ensures StateColumn() == STATE_COLUMN
  {
    UpperKeeps("INTEGER");
    assert DefaultClause("INTEGER", GivenInt(1)) == "DEFAULT(1)";
  }

  /** Columns with a default and without a foreign key, put in front of an
      entity's own columns, add no join and no INSERT name. */
  lemma {:induction false} DefaultedPrefix(prefix: seq<DbColumn>, own: seq<DbColumn>)
    requires forall i :: 0 <= i < |prefix| ==> prefix[i].fk.None? && prefix[i].default != ""
    ensures FkColumns(prefix + own) == FkColumns(own)
    ensures InsertColumns(prefix + own) == InsertColumns(own)
  {
    if prefix != [] {
      assert prefix + own == [prefix[0]] + (prefix[1..] + own);
      FkStep(prefix[0], prefix[1..] + own);
      InsertColumnsStep(prefix[0], prefix[1..] + own);
      DefaultedPrefix(prefix[1..], own);
    } else {
      assert prefix + own == own;
    }
  }

  /** The columns of an entity with a life cycle start with the base
      columns and STATE, all of them defaulted. */
  lemma StatefulPrefix(own: seq<DbColumn>)
    ensures BaseColumns() + [StateColumn()] + own == [UPDATED_ON_COLUMN, CREATED_ON_COLUMN, DELETED_COLUMN, STATE_COLUMN] + own
    ensures FkColumns(BaseColumns() + [StateColumn()] + own) == FkColumns(own)
    ensures InsertColumns(BaseColumns() + [StateColumn()] + own) == InsertColumns(own)
  {
    BaseColumnValues();
    StateColumnValue();
    DefaultedPrefix([UPDATED_ON_COLUMN, CREATED_ON_COLUMN, DELETED_COLUMN, STATE_COLUMN], own);
  }

  /** The same for an entity without a life cycle. */
  lemma StatelessPrefix(own: seq<DbColumn>)
    ensures BaseColumns() + own == [UPDATED_ON_COLUMN, CREATED_ON_COLUMN, DELETED_COLUMN] + own
    ensures FkColumns(BaseColumns() + own) == FkColumns(own)
    ensures InsertColumns(BaseColumns() + own) == InsertColumns(own)
  {
    BaseColumnValues();
    DefaultedPrefix([UPDATED_ON_COLUMN, CREATED_ON_COLUMN, DELETED_COLUMN], own);
  }

  /** Two columns already in index order sort to themselves. */
  lemma SortTwo(a: DbColumn, b: DbColumn)
    requires a.index <= b.index
    ensures SortByIndex([a, b]) == [a, b]
  {
    SortStep(b, []);
    SortStep(a, [b]);
    InsertStep(a, b, []);
  }

  /** The STATE column of the entities with a life cycle. */
  function StateColumn(): DbColumn {
    MakeColumn("STATE", 99, None, "INTEGER", GivenInt(1))
  }

  /** `state`: the STATE argument, New (1) when absent. */
  function StateOf(kwargs: Kwargs): Json {
    Get(kwargs, "STATE", JInt(1))
  }

  /** The base `to_dict`. */
  function CommonDict(name: string, c: Common): Kwargs {
    map["ID" := JInt(c.id), "CREATED_ON" := c.createdOn, "UPDATED_ON" := c.updatedOn,
        "DELETED" := c.deleted, "name" := JStr(name)]
  }
}

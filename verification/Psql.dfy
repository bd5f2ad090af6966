/**
 The part of psql and SQL the object storage script is written in: the text of a script is cut
 into lines, each line is parsed, and the lines are run against a table in one transaction.
 */
module Psql {
  import opened Wrappers
  import opened Text

  datatype Value = Null | Bool(b: bool) | Int(n: int) | Str(s: string)

  type Row = map<string, Value>

  datatype Table = Table(columns: set<string>, defaults: Row, rows: seq<Row>)

  const ID := "id"
  const QUOTE := '\''
  const DQUOTE := '"'

  predicate HasId(r: Row, id: string) {
    ID in r && r[ID] == Str(id)
  }

  // ----- Statements -----

  datatype Expr = Const(value: Value) | Var(name: string)

  datatype Line =
    | Comment
    | Setting
    | GetEnv(name: string, env: string)
    | Insert(id: string)
    | Update
    | Assign(column: string, expr: Expr, more: bool)
    | Where(id: string)
    | Malformed

  const GETENV := "\\getenv "
  const SETTING := "\\set "
  const INSERT := "INSERT INTO meta (id) VALUES ('"
  const CONFLICT := ") ON CONFLICT (id) DO NOTHING;"
  const UPDATE := "UPDATE meta SET"
  const ASSIGN := "  \""
  const EQUALS := " = "
  const WHERE := "WHERE id = '"
  const END := ";"
  const VAR := ":'"

  function ParseExpr(s: string): Option<Expr> {
    if s == "NULL" then Some(Const(Null))
    else if s == "true" then Some(Const(Bool(true)))
    else if s == "false" then Some(Const(Bool(false)))
    else if s != "" && s[0] == QUOTE then
      var cut := Cut(s[1..], QUOTE);
      if cut.Some? && cut.value.1 == "" then Some(Const(Str(cut.value.0))) else None
    else if s != "" && s[0] == ':' then
      if !Starts(s, VAR) then None else
      var cut := Cut(s[|VAR|..], QUOTE);
      if cut.Some? && cut.value.1 == "" then Some(Var(cut.value.0)) else None
    else
      var n := IntOf(s);
      if n.Some? then Some(Const(Int(n.value))) else None
  }

  function ParseCommand(l: string): Line {
    if Starts(l, SETTING) then Setting
    else if Starts(l, GETENV) then
      var cut := Cut(l[|GETENV|..], ' ');
      if cut.Some? then GetEnv(cut.value.0, cut.value.1) else Malformed
    else Malformed
  }

  function ParseInsert(l: string): Line {
    if !Starts(l, INSERT) then Malformed else
    var cut := Cut(l[|INSERT|..], QUOTE);
    if cut.Some? && cut.value.1 == CONFLICT then Insert(cut.value.0) else Malformed
  }

  function ParseWhere(l: string): Line {
    if !Starts(l, WHERE) then Malformed else
    var cut := Cut(l[|WHERE|..], QUOTE);
    if cut.Some? && cut.value.1 == END then Where(cut.value.0) else Malformed
  }

  /** An expression, and a comma if another assignment follows. */
  function ParseSet(column: string, s: string): Line {
    if !Starts(s, EQUALS) then Malformed else
    var e := s[|EQUALS|..];
    var more := e != "" && e[|e| - 1] == ',';
    var expr := ParseExpr(if more then e[..|e| - 1] else e);
    if expr.Some? then Assign(column, expr.value, more) else Malformed
  }

  function ParseAssign(l: string): Line {
    if !Starts(l, ASSIGN) then Malformed else
    var cut := Cut(l[|ASSIGN|..], DQUOTE);
    if cut.Some? then ParseSet(cut.value.0, cut.value.1) else Malformed
  }

  function Parse(l: string): Line {
    if l == "" then Malformed
    else if l[0] == '-' then if Starts(l, "--") then Comment else Malformed
    else if l[0] == '\\' then ParseCommand(l)
    else if l[0] == 'I' then ParseInsert(l)
    else if l[0] == 'U' then if l == UPDATE then Update else Malformed
    else if l[0] == ' ' then ParseAssign(l)
    else if l[0] == 'W' then ParseWhere(l)
    else Malformed
  }

  // ----- Execution -----

  type Sets = seq<(string, Value)>

  /** The assignments of an UPDATE read so far, and whether a comma promised another one. */
  datatype Pending = Pending(sets: Sets, more: bool)

  datatype Session = Session(vars: map<string, string>, table: Table, update: Option<Pending>)

  function Eval(e: Expr, vars: map<string, string>): Option<Value> {
    match e
    case Const(v) => Some(v)
    case Var(x) => if x in vars then Some(Str(vars[x])) else None
  }

  function InsertRow(t: Table, id: string): Table {
    if exists i | 0 <= i < |t.rows| :: HasId(t.rows[i], id) then t
    else t.(rows := t.rows + [t.defaults[ID := Str(id)]])
  }

  function Columns(sets: Sets): seq<string> {
    seq(|sets|, i requires 0 <= i < |sets| => sets[i].0)
  }

  predicate Distinct(s: seq<string>) {
    forall i, j | 0 <= i < j < |s| :: s[i] != s[j]
  }

  predicate Known(s: seq<string>, columns: set<string>) {
    forall i | 0 <= i < |s| :: s[i] in columns
  }

  function AsMap(sets: Sets): Row {
    if sets == [] then map[] else AsMap(sets[..|sets| - 1])[sets[|sets| - 1].0 := sets[|sets| - 1].1]
  }

  function Overridden(t: Table, id: string, values: Row): Table {
    t.(rows := seq(|t.rows|, i requires 0 <= i < |t.rows| =>
      if HasId(t.rows[i], id) then t.rows[i] + values else t.rows[i]))
  }

  /** SQL refuses an unknown column and a column assigned twice. */
  function UpdateRows(t: Table, id: string, sets: Sets): Option<Table> {
    if Distinct(Columns(sets)) && Known(Columns(sets), t.columns) then Some(Overridden(t, id, AsMap(sets))) else None
  }

  function Step(l: Line, env: map<string, string>, s: Session): Option<Session> {
    match l
    case Comment => Some(s)
    case Setting => if s.update.None? then Some(s) else None
    case GetEnv(x, e) =>
      if s.update.Some? then None
      else Some(if e in env then s.(vars := s.vars[x := env[e]]) else s)
    case Insert(id) => if s.update.None? then Some(s.(table := InsertRow(s.table, id))) else None
    case Update => if s.update.None? then Some(s.(update := Some(Pending([], true)))) else None
    case Assign(c, e, more) =>
      var v := Eval(e, s.vars);
      if s.update.None? || !s.update.value.more || v.None? then None
      else Some(s.(update := Some(Pending(s.update.value.sets + [(c, v.value)], more))))
    case Where(id) =>
      if s.update.None? || s.update.value.more then None
      else
        var t := UpdateRows(s.table, id, s.update.value.sets);
        if t.Some? then Some(s.(table := t.value, update := None)) else None
    case Malformed => None
  }

  function Run(lines: seq<string>, env: map<string, string>, s: Session): Option<Session> {
    if lines == [] then Some(s)
    else
      var s' := Step(Parse(lines[0]), env, s);
      if s'.None? then None else Run(lines[1..], env, s'.value)
  }

  /** psql -1 -f: all of the script or nothing of it. */
  function Execute(text: string, env: map<string, string>, t: Table): (bool, Table) {
    var end := Run(SplitLines(text), env, Session(map[], t, None));
    if end.Some? && end.value.update.None? then (true, end.value.table) else (false, t)
  }

  lemma {:induction false} RunAppend(a: seq<string>, b: seq<string>, env: map<string, string>, s: Session)
    ensures Run(a + b, env, s) ==
      var m := Run(a, env, s);
      if m.None? then None else Run(b, env, m.value)
  {
    if a == [] {
      assert a + b == b;
    } else {
      var s' := Step(Parse(a[0]), env, s);
      assert (a + b)[0] == a[0] && (a + b)[1..] == a[1..] + b;
      if s'.Some? {
        RunAppend(a[1..], b, env, s'.value);
      }
    }
  }

  lemma RunOne(l: string, env: map<string, string>, s: Session)
    ensures Run([l], env, s) == Step(Parse(l), env, s)
  {
    assert [l][1..] == [];
  }

  // ----- Printing and parsing -----

  predicate IdentChar(c: char) {
    'A' <= c <= 'Z' || 'a' <= c <= 'z' || '0' <= c <= '9' || c == '_'
  }

  /** ^[A-Za-z_][A-Za-z0-9_]*$ */
  predicate SafeIdent(s: string) {
    s != "" && !IsDigit(s[0]) && forall i | 0 <= i < |s| :: IdentChar(s[i])
  }

  /** Safe is a letter or underscore, and letters, digits and underscores after it. */
  lemma SafeIdentIff(s: string)
    ensures SafeIdent(s) <==>
      && |s| >= 1 && ('A' <= s[0] <= 'Z' || 'a' <= s[0] <= 'z' || s[0] == '_')
      && forall i | 1 <= i < |s| :: 'A' <= s[i] <= 'Z' || 'a' <= s[i] <= 'z' || '0' <= s[i] <= '9' || s[i] == '_'
  {
  }

  lemma SafeIdentFree(s: string, c: char)
    requires SafeIdent(s) && !IdentChar(c)
    ensures Free(s, c)
  {
  }

  lemma ParsesGetEnv(x: string, e: string)
    requires Free(x, ' ')
    ensures Parse(GETENV + x + " " + e) == GetEnv(x, e)
  {
    var l := GETENV + x + " " + e;
    assert l == GETENV + (x + [' '] + e);
    Strip(GETENV, x + [' '] + e);
    assert l[0] == '\\' && l[1] == 'g';
    assert !Starts(l, SETTING);
    CutAt(x, ' ', e);
  }

  lemma ParsesInsert(id: string)
    requires Free(id, QUOTE)
    ensures Parse(INSERT + id + "'" + CONFLICT) == Insert(id)
  {
    var l := INSERT + id + "'" + CONFLICT;
    assert l == INSERT + (id + [QUOTE] + CONFLICT);
    Strip(INSERT, id + [QUOTE] + CONFLICT);
    assert l[0] == 'I';
    CutAt(id, QUOTE, CONFLICT);
  }

  lemma ParsesWhere(id: string)
    requires Free(id, QUOTE)
    ensures Parse(WHERE + id + "'" + END) == Where(id)
  {
    var l := WHERE + id + "'" + END;
    assert l == WHERE + (id + [QUOTE] + END);
    Strip(WHERE, id + [QUOTE] + END);
    assert l[0] == 'W';
    CutAt(id, QUOTE, END);
  }

  lemma ParsesVar(x: string)
    requires Free(x, QUOTE)
    ensures ParseExpr(VAR + x + "'") == Some(Var(x))
  {
    var s := VAR + x + "'";
    assert s == VAR + (x + [QUOTE] + "");
    Strip(VAR, x + [QUOTE] + "");
    assert s[0] == ':';
    CutAt(x, QUOTE, "");
  }

  lemma ParsesQuoted(x: string)
    requires Free(x, QUOTE)
    ensures ParseExpr("'" + x + "'") == Some(Const(Str(x)))
  {
    var s := "'" + x + "'";
    assert s[0] == QUOTE && s[1..] == x + [QUOTE] + "";
    CutAt(x, QUOTE, "");
  }

  lemma ParsesInt(n: int)
    ensures ParseExpr(IntText(n)) == Some(Const(Int(n)))
  {
    var s := IntText(n);
    IntRoundTrip(n);
    assert s[0] == '-' || IsDigit(s[0]) by {
      if n >= 0 { NatRoundTrip(n); }
    }
  }

  lemma ParsesAssign(column: string, e: string, expr: Expr, more: bool)
    requires Free(column, DQUOTE) && ParseExpr(e) == Some(expr)
    requires e != "" && e[|e| - 1] != ','
    ensures Parse(ASSIGN + column + "\"" + EQUALS + e + if more then "," else "") == Assign(column, expr, more)
  {
    var tail := if more then "," else "";
    var rest := EQUALS + (e + tail);
    var l := ASSIGN + column + "\"" + EQUALS + e + tail;
    assert l == ASSIGN + (column + [DQUOTE] + rest);
    Strip(ASSIGN, column + [DQUOTE] + rest);
    assert l[0] == ' ';
    CutAt(column, DQUOTE, rest);
    Strip(EQUALS, e + tail);
    if more {
      assert (e + tail)[..|e + tail| - 1] == e;
    } else {
      assert e + tail == e;
    }
  }
}

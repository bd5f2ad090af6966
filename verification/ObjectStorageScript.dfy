/**
 The script and the environment made from a list of assignments, and what running the one in
 the other does to the meta table.
 */
module ObjectStorageScript {
  import opened Wrappers
  import opened Text
  import opened Psql
  import opened ObjectStorage

  const ROW := "x"
  const DASHES := "--"
  const OWNER := " Managed by cloudnative-misskey."
  const NOTICE := " Do not edit by hand."
  const TITLE := OWNER + NOTICE
  const STOP := "ON_ERROR_STOP on"
  const HEADER := [DASHES + TITLE] + [SETTING + STOP]

  function LiteralText(v: Value): string {
    match v
    case Null => "NULL"
    case Bool(b) => if b then "true" else "false"
    case Int(n) => IntText(n)
    case Str(s) => "'" + s + "'"
  }

  function GetEnvLine(a: Assignment): string
    requires !a.Literal?
  {
    GETENV + a.name + " " + a.env
  }

  function GetEnvLines(assigns: seq<Assignment>): seq<string> {
    if assigns == [] then []
    else
      var n := |assigns| - 1;
      GetEnvLines(assigns[..n]) + if assigns[n].Literal? then [] else [GetEnvLine(assigns[n])]
  }

  function ExprText(a: Assignment): string {
    if a.Literal? then LiteralText(a.value) else VAR + a.name + "'"
  }

  function SetLine(a: Assignment, more: bool): string {
    ASSIGN + a.column + "\"" + EQUALS + ExprText(a) + if more then "," else ""
  }

  function SetLines(assigns: seq<Assignment>, n: nat): seq<string>
    requires n <= |assigns|
  {
    seq(n, i requires 0 <= i < n => SetLine(assigns[i], i < |assigns| - 1))
  }

  const INSERT_LINE := INSERT + ROW + "'" + CONFLICT
  const WHERE_LINE := WHERE + ROW + "'" + END

  function ScriptLines(assigns: seq<Assignment>): seq<string> {
    HEADER + GetEnvLines(assigns) + [INSERT_LINE] + [UPDATE] + SetLines(assigns, |assigns|) + [WHERE_LINE]
  }

  lemma AddLine(text: string, lines: seq<string>, line: string)
    requires text == JoinLines(lines)
    ensures text + line + "\n" == JoinLines(lines + [line])
  {
    JoinAppend(lines, [line]);
    JoinOne(line);
  }

  /** The script's text is the lines of the script, one after the other. */
  method RenderSql(assigns: seq<Assignment>) returns (sql: string)
    ensures sql == JoinLines(ScriptLines(assigns))
  {
    hide JoinLines, GetEnvLine, SetLine;
    sql := DASHES + TITLE + "\n" + SETTING + STOP + "\n";
    JoinOne(DASHES + TITLE);
    JoinOne(SETTING + STOP);
    JoinAppend([DASHES + TITLE], [SETTING + STOP]);
    ghost var lines := HEADER;
    for i := 0 to |assigns|
      invariant lines == HEADER + GetEnvLines(assigns[..i])
      invariant sql == JoinLines(lines)
    {
      assert assigns[..i + 1][..i] == assigns[..i];
      if !assigns[i].Literal? {
        AddLine(sql, lines, GetEnvLine(assigns[i]));
        lines := lines + [GetEnvLine(assigns[i])];
        sql := sql + GetEnvLine(assigns[i]) + "\n";
      }
    }
    assert assigns[..|assigns|] == assigns;
    AddLine(sql, lines, INSERT_LINE);
    sql, lines := sql + INSERT_LINE + "\n", lines + [INSERT_LINE];
    AddLine(sql, lines, UPDATE);
    sql, lines := sql + UPDATE + "\n", lines + [UPDATE];
    ghost var head := lines;
    for i := 0 to |assigns|
      invariant lines == head + SetLines(assigns, i)
      invariant sql == JoinLines(lines)
    {
      var line := SetLine(assigns[i], i < |assigns| - 1);
      assert SetLines(assigns, i + 1) == SetLines(assigns, i) + [line];
      AddLine(sql, lines, line);
      sql, lines := sql + line + "\n", lines + [line];
    }
    AddLine(sql, lines, WHERE_LINE);
    sql := sql + WHERE_LINE + "\n";
  }

  // ----- Running the script -----

  /** A character that must not occur in a line. */
  predicate Breaks(c: char) {
    c == NEWLINE || c == NUL
  }

  /** A name psql and the script's line structure leave alone. */
  predicate Tame(s: string) {
    Free(s, ' ') && Free(s, QUOTE) && Free(s, NEWLINE) && Free(s, NUL)
  }

  predicate WellFormed(a: Assignment) {
    && SafeIdent(a.column)
    && (a.Literal? && a.value.Str? ==> Tame(a.value.s))
    && (!a.Literal? ==> Tame(a.name) && Tame(a.env))
  }

  /** Every line parses back, and no variable is loaded twice. */
  predicate Sound(assigns: seq<Assignment>) {
    && (forall i | 0 <= i < |assigns| :: WellFormed(assigns[i]))
    && (forall i, j | 0 <= i < j < |assigns| && !assigns[i].Literal? && !assigns[j].Literal? ::
          assigns[i].name != assigns[j].name && assigns[i].env != assigns[j].env)
  }

  predicate Provided(assigns: seq<Assignment>, env: map<string, string>) {
    forall i | 0 <= i < |assigns| && !assigns[i].Literal? :: assigns[i].env in env
  }

  function ValueOf(a: Assignment, env: map<string, string>): Value {
    if a.Literal? then a.value else if a.env in env then Str(env[a.env]) else Null
  }

  function SetsOf(assigns: seq<Assignment>, n: nat, env: map<string, string>): Sets
    requires n <= |assigns|
  {
    seq(n, i requires 0 <= i < n => (assigns[i].column, ValueOf(assigns[i], env)))
  }

  /** The variables after the \getenv lines. */
  function Loaded(assigns: seq<Assignment>, env: map<string, string>): map<string, string> {
    if assigns == [] then map[]
    else
      var n := |assigns| - 1;
      var before := Loaded(assigns[..n], env);
      if !assigns[n].Literal? && assigns[n].env in env then before[assigns[n].name := env[assigns[n].env]] else before
  }

  lemma {:induction false} LoadedHolds(assigns: seq<Assignment>, env: map<string, string>, i: nat)
    requires Sound(assigns) && Provided(assigns, env) && i < |assigns| && !assigns[i].Literal?
    ensures assigns[i].name in Loaded(assigns, env) && Loaded(assigns, env)[assigns[i].name] == env[assigns[i].env]
  {
    var n := |assigns| - 1;
    if i < n {
      assert assigns[..n][i] == assigns[i];
      LoadedHolds(assigns[..n], env, i);
    }
  }

  lemma {:induction false} GetEnvRuns(assigns: seq<Assignment>, env: map<string, string>, t: Table)
    requires Sound(assigns) && Provided(assigns, env)
    ensures Run(GetEnvLines(assigns), env, Session(map[], t, None)) == Some(Session(Loaded(assigns, env), t, None))
  {
    hide Parse, SafeIdent, Tame;
    if assigns != [] {
      var n := |assigns| - 1;
      var a := assigns[n];
      var s := Session(map[], t, None);
      GetEnvRuns(assigns[..n], env, t);
      if a.Literal? {
        assert GetEnvLines(assigns) == GetEnvLines(assigns[..n]);
      } else {
        RunAppend(GetEnvLines(assigns[..n]), [GetEnvLine(a)], env, s);
        RunOne(GetEnvLine(a), env, Session(Loaded(assigns[..n], env), t, None));
        GetEnvLineParses(a);
      }
    }
  }

  lemma GetEnvLineParses(a: Assignment)
    requires !a.Literal? && WellFormed(a)
    ensures Parse(GetEnvLine(a)) == GetEnv(a.name, a.env)
  {
    ParsesGetEnv(a.name, a.env);
  }

  function ExprOf(a: Assignment): Expr {
    if a.Literal? then Const(a.value) else Var(a.name)
  }

  lemma IntParses(n: int)
    ensures ParseExpr(IntText(n)) == Some(Const(Int(n)))
    ensures var e := IntText(n); e != "" && e[|e| - 1] != ','
  {
    hide ParseExpr;
    ParsesInt(n);
    NatRoundTrip(if n < 0 then -n else n);
  }

  lemma WordParses(v: Value)
    requires v.Null? || v.Bool?
    ensures ParseExpr(LiteralText(v)) == Some(Const(v))
    ensures var e := LiteralText(v); e != "" && e[|e| - 1] != ','
  {
  }

  lemma ExprParses(a: Assignment)
    requires WellFormed(a)
    ensures ParseExpr(ExprText(a)) == Some(ExprOf(a))
    ensures var e := ExprText(a); e != "" && e[|e| - 1] != ','
  {
    hide ParseExpr, IntText, SafeIdent;
    if !a.Literal? {
      ParsesVar(a.name);
    } else if a.value.Int? {
      IntParses(a.value.n);
    } else if a.value.Str? {
      ParsesQuoted(a.value.s);
    } else {
      WordParses(a.value);
    }
  }

  lemma ExprFree(a: Assignment, c: char)
    requires WellFormed(a) && Breaks(c)
    ensures Free(ExprText(a), c)
  {
    if a.Literal? && a.value.Int? {
      NatRoundTrip(if a.value.n < 0 then -a.value.n else a.value.n);
    } else if a.Literal? && a.value.Str? {
      FreeConcat("'", a.value.s, c);
      FreeConcat("'" + a.value.s, "'", c);
    } else if !a.Literal? {
      FreeConcat(VAR, a.name, c);
      FreeConcat(VAR + a.name, "'", c);
    }
  }

  lemma SetLineParses(a: Assignment, more: bool)
    requires WellFormed(a)
    ensures Parse(SetLine(a, more)) == Assign(a.column, ExprOf(a), more)
  {
    hide ParseExpr, Parse, ExprText;
    ExprParses(a);
    SafeIdentFree(a.column, DQUOTE);
    ParsesAssign(a.column, ExprText(a), ExprOf(a), more);
  }

  lemma {:induction false} SetRuns(assigns: seq<Assignment>, n: nat, env: map<string, string>, t: Table)
    requires Sound(assigns) && Provided(assigns, env) && n <= |assigns|
    ensures Run(SetLines(assigns, n), env, Session(Loaded(assigns, env), t, Some(Pending([], true)))) ==
      Some(Session(Loaded(assigns, env), t, Some(Pending(SetsOf(assigns, n, env), n == 0 || n < |assigns|))))
  {
    hide Parse, WellFormed, SetLine, Loaded;
    var s := Session(Loaded(assigns, env), t, Some(Pending([], true)));
    if n > 0 {
      var a, more := assigns[n - 1], n < |assigns|;
      var line := SetLine(a, more);
      SetRuns(assigns, n - 1, env, t);
      assert SetLines(assigns, n) == SetLines(assigns, n - 1) + [line];
      RunAppend(SetLines(assigns, n - 1), [line], env, s);
      RunOne(line, env, s.(update := Some(Pending(SetsOf(assigns, n - 1, env), true))));
      SetLineParses(a, more);
      if !a.Literal? {
        LoadedHolds(assigns, env, n - 1);
      }
      assert SetsOf(assigns, n, env) == SetsOf(assigns, n - 1, env) + [(a.column, ValueOf(a, env))];
    } else {
      assert SetLines(assigns, 0) == [] && SetsOf(assigns, 0, env) == [];
    }
  }

  lemma HeaderRuns(env: map<string, string>, s: Session)
    requires s.update.None?
    ensures Run(HEADER, env, s) == Some(s)
  {
    var a, b := DASHES + TITLE, SETTING + STOP;
    Strip(DASHES, TITLE);
    Strip(SETTING, STOP);
    hide Starts;
    assert a[0] == '-' && b[0] == '\\';
    RunAppend([a], [b], env, s);
    RunOne(a, env, s);
    RunOne(b, env, s);
  }

  lemma MiddleRuns(env: map<string, string>, s: Session)
    requires s.update.None?
    ensures Run([INSERT_LINE] + [UPDATE], env, s) ==
      Some(s.(table := InsertRow(s.table, ROW), update := Some(Pending([], true))))
  {
    ParsesInsert(ROW);
    assert Parse(UPDATE) == Update;
    RunAppend([INSERT_LINE], [UPDATE], env, s);
    RunOne(INSERT_LINE, env, s);
    RunOne(UPDATE, env, s.(table := InsertRow(s.table, ROW)));
  }

  /** Running the lines: a WHERE on everything that was loaded and assigned. */
  lemma ScriptRuns(assigns: seq<Assignment>, env: map<string, string>, t: Table)
    requires Sound(assigns) && Provided(assigns, env) && assigns != []
    ensures Run(ScriptLines(assigns), env, Session(map[], t, None)) ==
      Step(Where(ROW), env, Session(Loaded(assigns, env), InsertRow(t, ROW),
        Some(Pending(SetsOf(assigns, |assigns|, env), false))))
  {
    hide Parse, Run, Step, InsertRow, Loaded, GetEnvLines, SetLines, SetsOf;
    var s := Session(map[], t, None);
    var loaded := Session(Loaded(assigns, env), t, None);
    var open := loaded.(table := InsertRow(t, ROW), update := Some(Pending([], true)));
    var full := open.(update := Some(Pending(SetsOf(assigns, |assigns|, env), false)));
    var a, b, c, d := HEADER, GetEnvLines(assigns), [INSERT_LINE] + [UPDATE], SetLines(assigns, |assigns|);
    HeaderRuns(env, s);
    GetEnvRuns(assigns, env, t);
    MiddleRuns(env, loaded);
    SetRuns(assigns, |assigns|, env, InsertRow(t, ROW));
    RunAppend(a, b, env, s);
    RunAppend(a + b, c, env, s);
    RunAppend(a + b + c, d, env, s);
    RunAppend(a + b + c + d, [WHERE_LINE], env, s);
    assert ScriptLines(assigns) == a + b + c + d + [WHERE_LINE];
    ParsesWhere(ROW);
    RunOne(WHERE_LINE, env, full);
  }

  // ----- Lines are lines -----

  lemma {:induction false} GetEnvFree(assigns: seq<Assignment>, c: char)
    requires Sound(assigns) && Breaks(c)
    ensures AllFree(GetEnvLines(assigns), c)
  {
    if assigns != [] {
      var n := |assigns| - 1;
      GetEnvFree(assigns[..n], c);
      var a := assigns[n];
      if !a.Literal? {
        assert WellFormed(a);
        FreeConcat(GETENV, a.name, c);
        FreeConcat(GETENV + a.name, " ", c);
        FreeConcat(GETENV + a.name + " ", a.env, c);
      }
    }
  }

  lemma SetLineFree(a: Assignment, more: bool, c: char)
    requires WellFormed(a) && Breaks(c)
    ensures Free(SetLine(a, more), c)
  {
    hide ExprText;
    ExprFree(a, c);
    SafeIdentFree(a.column, c);
    FreeConcat(ASSIGN, a.column, c);
    FreeConcat(ASSIGN + a.column, "\"", c);
    FreeConcat(ASSIGN + a.column + "\"", EQUALS, c);
    FreeConcat(ASSIGN + a.column + "\"" + EQUALS, ExprText(a), c);
    FreeConcat(ASSIGN + a.column + "\"" + EQUALS + ExprText(a), if more then "," else "", c);
  }

  lemma FixedFree(c: char)
    requires Breaks(c)
    ensures AllFree(HEADER, c) && Free(INSERT_LINE, c) && Free(WHERE_LINE, c) && Free(UPDATE, c)
  {
    FreeConcat(OWNER, NOTICE, c);
    FreeConcat(DASHES, TITLE, c);
    FreeConcat(SETTING, STOP, c);
    FreeConcat(INSERT, ROW, c);
    FreeConcat(INSERT + ROW, "'", c);
    FreeConcat(INSERT + ROW + "'", CONFLICT, c);
  }

  lemma AllFreeConcat(a: seq<string>, b: seq<string>, c: char)
    requires AllFree(a, c) && AllFree(b, c)
    ensures AllFree(a + b, c)
  {
  }

  lemma ScriptFree(assigns: seq<Assignment>, c: char)
    requires Sound(assigns) && Breaks(c)
    ensures AllFree(ScriptLines(assigns), c)
  {
    hide Free, SetLine, WellFormed;
    FixedFree(c);
    GetEnvFree(assigns, c);
    forall i | 0 <= i < |assigns| ensures Free(SetLine(assigns[i], i < |assigns| - 1), c) {
      SetLineFree(assigns[i], i < |assigns| - 1, c);
    }
    AllFreeConcat(HEADER, GetEnvLines(assigns), c);
    AllFreeConcat(HEADER + GetEnvLines(assigns), [INSERT_LINE], c);
    AllFreeConcat(HEADER + GetEnvLines(assigns) + [INSERT_LINE], [UPDATE], c);
    AllFreeConcat(HEADER + GetEnvLines(assigns) + [INSERT_LINE] + [UPDATE], SetLines(assigns, |assigns|), c);
  }

  function ColumnsOf(assigns: seq<Assignment>): seq<string> {
    seq(|assigns|, i requires 0 <= i < |assigns| => assigns[i].column)
  }

  /**
   Running the rendered text: it succeeds exactly when the columns are pairwise distinct and all
   exist, and then row x, made if there was none, is overridden and no other row is touched.
   */
  lemma ScriptMeans(assigns: seq<Assignment>, env: map<string, string>, t: Table)
    requires Sound(assigns) && Provided(assigns, env) && assigns != []
    ensures Execute(JoinLines(ScriptLines(assigns)), env, t) ==
      if Distinct(ColumnsOf(assigns)) && Known(ColumnsOf(assigns), t.columns)
      then (true, Overridden(InsertRow(t, ROW), ROW, AsMap(SetsOf(assigns, |assigns|, env))))
      else (false, t)
  {
    hide Run, ScriptLines, SplitLines, JoinLines, Overridden, Loaded, Sound;
    ScriptFree(assigns, NEWLINE);
    SplitJoined(ScriptLines(assigns));
    ScriptRuns(assigns, env, t);
    assert Columns(SetsOf(assigns, |assigns|, env)) == ColumnsOf(assigns);
    assert InsertRow(t, ROW).columns == t.columns;
  }
}

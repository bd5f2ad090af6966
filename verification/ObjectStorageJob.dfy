/**
 The Job that writes the object storage settings: its environment as a container gets it, and
 the proof that running its script changes the meta table exactly as the plan says.
 */
module ObjectStorageJob {
  import opened Wrappers
  import opened Text
  import opened Psql
  import opened ObjectStorage
  import opened ObjectStorageScript

  datatype EnvVar = Given(name: string, value: string) | FromSecret(name: string, sel: Selector)

  datatype Database = Database(host: string, port: int, name: string, user: string, password: Selector)

  type Env = map<string, string>

  // ----- Starting a container -----

  const DOLLAR := '$'

  function Resolve(name: string, before: Env, service: Env): string {
    if name in before then before[name] else if name in service then service[name] else "$(" + name + ")"
  }

  /** Kubernetes expands $(NAME) in a given value and turns $$ into $. */
  function Expand(s: string, before: Env, service: Env): string
    decreases |s|
  {
    if |s| < 2 then s
    else if s[0] != DOLLAR then [s[0]] + Expand(s[1..], before, service)
    else if s[1] == DOLLAR then "$" + Expand(s[2..], before, service)
    else if s[1] == '(' then
      var cut := Cut(s[2..], ')');
      if cut.None? then "$(" + Expand(s[2..], before, service)
      else
        CutShrinks(s[2..], ')');
        Resolve(cut.value.0, before, service) + Expand(cut.value.1, before, service)
    else s[..2] + Expand(s[2..], before, service)
  }

  /** The container's variables, in order; no container starts while a secret is missing. */
  function Started(list: seq<EnvVar>, service: Env, secrets: map<Selector, string>): Option<Env> {
    if list == [] then Some(map[])
    else
      var n := |list| - 1;
      var before := Started(list[..n], service, secrets);
      if before.None? then None
      else match list[n]
        case Given(x, v) => Some(before.value[x := Expand(v, before.value, service)])
        case FromSecret(x, sel) => if sel in secrets then Some(before.value[x := secrets[sel]]) else None
  }

  /** No $$ and no $( that is closed later on. */
  predicate Intact(s: string) {
    && (forall i | 0 <= i < |s| - 1 && s[i] == DOLLAR :: s[i + 1] != DOLLAR)
    && (forall i | 0 <= i < |s| - 1 && s[i] == DOLLAR && s[i + 1] == '(' :: Free(s[i + 2..], ')'))
  }

  lemma {:induction false} CutNone(s: string, c: char)
    ensures Cut(s, c).None? <==> Free(s, c)
  {
    if s != "" {
      CutNone(s[1..], c);
      assert s == [s[0]] + s[1..];
    }
  }

  /** Leaving off a start that ends in no $ keeps the rest as intact as it was. */
  lemma IntactSuffix(s: string, n: nat)
    requires 1 <= n <= |s| && s[n - 1] != DOLLAR && n <= 2
    requires n == 2 && s[0] == DOLLAR ==> s[1] != '(' || Free(s[2..], ')')
    ensures Intact(s) <==> Intact(s[n..])
  {
    var t := s[n..];
    assert forall i | 0 <= i < |t| :: t[i] == s[n + i];
    if Intact(t) {
      forall i | 0 <= i < |s| - 1 && s[i] == DOLLAR ensures s[i + 1] != DOLLAR && (s[i + 1] == '(' ==> Free(s[i + 2..], ')')) {
        if i >= n {
          assert t[i - n] == DOLLAR && t[i - n + 2..] == s[i + 2..];
        }
      }
    }
    if Intact(s) {
      forall i | 0 <= i < |t| - 1 && t[i] == DOLLAR ensures t[i + 1] != DOLLAR && (t[i + 1] == '(' ==> Free(t[i + 2..], ')')) {
        assert s[n + i] == DOLLAR && t[i + 2..] == s[n + i + 2..];
      }
    }
  }

  /** The names that the expansion looks up. */
  function Names(s: string): set<string>
    decreases |s|
  {
    if |s| < 2 then {}
    else if s[0] != DOLLAR then Names(s[1..])
    else if s[1] == '(' && Cut(s[2..], ')').Some? then
      var cut := Cut(s[2..], ')').value;
      CutShrinks(s[2..], ')');
      {cut.0} + Names(cut.1)
    else Names(s[2..])
  }

  lemma {:induction false} IntactStays(s: string, before: Env, service: Env)
    requires Intact(s)
    ensures Expand(s, before, service) == s
    decreases |s|
  {
    if |s| >= 2 {
      if s[0] != DOLLAR {
        IntactSuffix(s, 1);
        IntactStays(s[1..], before, service);
      } else {
        CutNone(s[2..], ')');
        IntactSuffix(s, 2);
        IntactStays(s[2..], before, service);
        assert s == s[..2] + s[2..];
      }
    }
  }

  /** Where all the names have empty values, a string that is not intact gets shorter. */
  lemma {:induction false} OthersShrink(s: string, before: Env, service: Env)
    requires forall n | n in Names(s) :: n in before && before[n] == ""
    ensures |Expand(s, before, service)| <= |s|
    ensures !Intact(s) ==> |Expand(s, before, service)| < |s|
    decreases |s|
  {
    if |s| < 2 {
    } else if s[0] != DOLLAR {
      IntactSuffix(s, 1);
      OthersShrink(s[1..], before, service);
    } else if s[1] == DOLLAR {
      OthersShrink(s[2..], before, service);
    } else {
      CutNone(s[2..], ')');
      if s[1] == '(' && Cut(s[2..], ')').Some? {
        CutShrinks(s[2..], ')');
        OthersShrink(Cut(s[2..], ')').value.1, before, service);
      } else {
        IntactSuffix(s, 2);
        OthersShrink(s[2..], before, service);
      }
    }
  }

  /** A user's string arrives unchanged in every environment exactly when it is intact. */
  lemma ArrivesVerbatimIff(s: string)
    ensures (forall before, service :: Expand(s, before, service) == s) <==> Intact(s)
  {
    if Intact(s) {
      forall before, service ensures Expand(s, before, service) == s {
        IntactStays(s, before, service);
      }
    } else {
      var before := map n | n in Names(s) :: "";
      OthersShrink(s, before, map[]);
      assert Expand(s, before, map[]) != s;
    }
  }

  // ----- The Job -----

  function VarOf(a: Assignment): EnvVar
    requires !a.Literal?
  {
    if a.Secret? then FromSecret(a.env, a.sel) else Given(a.env, a.text)
  }

  function EnvVars(assigns: seq<Assignment>): seq<EnvVar> {
    if assigns == [] then []
    else
      var n := |assigns| - 1;
      EnvVars(assigns[..n]) + if assigns[n].Literal? then [] else [VarOf(assigns[n])]
  }

  method JobEnv(assigns: seq<Assignment>) returns (env: seq<EnvVar>)
    ensures env == EnvVars(assigns)
  {
    env := [];
    for i := 0 to |assigns|
      invariant env == EnvVars(assigns[..i])
    {
      assert assigns[..i + 1][..i] == assigns[..i];
      if !assigns[i].Literal? {
        env := env + [VarOf(assigns[i])];
      }
    }
    assert assigns[..|assigns|] == assigns;
  }

  function DatabaseEnv(db: Database): seq<EnvVar> {
    [Given("PGHOST", db.host), Given("PGPORT", IntText(db.port)), Given("PGDATABASE", db.name),
     Given("PGUSER", db.user), FromSecret("PGPASSWORD", db.password), Given("HOME", "/tmp")]
  }

  datatype Job = Job(sql: string, env: seq<EnvVar>)

  ghost function JobOf(p: Plan, db: Database): Job {
    Job(JoinLines(ScriptLines(Compiled(p))), DatabaseEnv(db) + EnvVars(Compiled(p)))
  }

  /** From a plan to the Job: refused exactly for unsafe identifiers and colliding extra columns. */
  method BuildJob(p: Plan, db: Database) returns (r: Result<Job, Error>)
    ensures r.Ok? <==> Acceptable(p)
    ensures r.Ok? ==> r.value == JobOf(p, db)
  {
    hide Compiled, ScriptLines, EnvVars, JoinLines, DatabaseEnv, Acceptable;
    var assigns := Assignments(p);
    if assigns.Err? {
      return Err(assigns.error);
    }
    var sql := RenderSql(assigns.value);
    var env := JobEnv(assigns.value);
    return Ok(Job(sql, DatabaseEnv(db) + env));
  }

  // ----- What the names are -----

  lemma NameInjective(a: Logical, b: Logical)
    requires Name(a) == Name(b)
    ensures a == b
  {
  }

  lemma NameLetters(l: Logical)
    ensures Tame(Name(l))
  {
    var n := Name(l);
    assert forall i | 0 <= i < |n| :: IdentChar(n[i]);
  }

  lemma NameTame(l: Logical)
    ensures Tame(OBJVAL + Name(l)) && Tame(V + Name(l))
  {
    NameLetters(l);
    hide Name;
    TameConcat(OBJVAL, Name(l));
    TameConcat(V, Name(l));
  }

  lemma TameConcat(a: string, b: string)
    requires Tame(a) && Tame(b)
    ensures Tame(a + b)
  {
  }

  lemma NumberTame(i: nat)
    ensures Tame(OBJEXTRA + NatText(i)) && Tame(X + NatText(i))
  {
    NatRoundTrip(i);
    assert Tame(NatText(i));
    hide NatText;
    TameConcat(OBJEXTRA, NatText(i));
    TameConcat(X, NatText(i));
  }

  lemma PrefixInjective(p: string, a: string, b: string)
    requires p + a == p + b
    ensures a == b
  {
    assert a == (p + a)[|p|..] && b == (p + b)[|p|..];
  }

  lemma StandardApart(p: Plan, l: Logical, k: Logical)
    requires l != k && !StandardAssignment(p, l).Literal? && !StandardAssignment(p, k).Literal?
    ensures StandardAssignment(p, l).name != StandardAssignment(p, k).name
    ensures StandardAssignment(p, l).env != StandardAssignment(p, k).env
  {
    hide SettingOf, Column, Name;
    if V + Name(l) == V + Name(k) {
      PrefixInjective(V, Name(l), Name(k));
      NameInjective(l, k);
    }
    if OBJVAL + Name(l) == OBJVAL + Name(k) {
      PrefixInjective(OBJVAL, Name(l), Name(k));
      NameInjective(l, k);
    }
  }

  lemma ExtrasApart(i: nat, j: nat)
    requires i != j
    ensures X + NatText(i) != X + NatText(j) && OBJEXTRA + NatText(i) != OBJEXTRA + NatText(j)
  {
    if X + NatText(i) == X + NatText(j) {
      PrefixInjective(X, NatText(i), NatText(j));
      NatTextInjective(i, j);
    }
    if OBJEXTRA + NatText(i) == OBJEXTRA + NatText(j) {
      PrefixInjective(OBJEXTRA, NatText(i), NatText(j));
      NatTextInjective(i, j);
    }
  }

  lemma KindsApart(l: Logical, i: nat)
    ensures V + Name(l) != X + NatText(i) && OBJVAL + Name(l) != OBJEXTRA + NatText(i)
  {
    assert (V + Name(l))[0] == 'v' && (X + NatText(i))[0] == 'x';
    assert (OBJVAL + Name(l))[3] == 'V' && (OBJEXTRA + NatText(i))[3] == 'E';
  }

  lemma OrderDistinct(i: nat, j: nat)
    requires i < j < |ORDER|
    ensures ORDER[i] != ORDER[j]
  {
  }

  lemma StandardWellFormed(p: Plan, l: Logical)
    requires SafeIdent(Column(p, l))
    ensures WellFormed(StandardAssignment(p, l))
  {
    hide Name, Column, SafeIdent, Tame;
    NameTame(l);
  }

  /** Variables, and environment names, are pairwise distinct and parse back. */
  lemma CompiledSound(p: Plan)
    requires Acceptable(p)
    ensures Sound(Compiled(p))
  {
    hide StandardAssignment, SafeIdent, Column, Name, NatText, WellFormed, Keys;
    KeysHold(p);
    var a, n := Compiled(p), |ORDER|;
    forall i | 0 <= i < |a| ensures WellFormed(a[i]) {
      if i < n {
        StandardWellFormed(p, ORDER[i]);
      } else {
        ExtraWellFormed(Keys(p)[i - n], i - n, p.extra[Keys(p)[i - n]]);
      }
    }
    forall i, j | 0 <= i < j < |a| && !a[i].Literal? && !a[j].Literal?
      ensures a[i].name != a[j].name && a[i].env != a[j].env
    {
      if j < n {
        OrderDistinct(i, j);
        StandardApart(p, ORDER[i], ORDER[j]);
      } else if i < n {
        StandardNames(p, ORDER[i]);
        KindsApart(ORDER[i], j - n);
      } else {
        ExtrasApart(i - n, j - n);
      }
    }
  }

  lemma StandardNames(p: Plan, l: Logical)
    ensures var a := StandardAssignment(p, l); !a.Literal? ==> a.name == V + Name(l) && a.env == OBJVAL + Name(l)
  {
  }

  lemma ExtraWellFormed(key: string, i: nat, text: string)
    requires SafeIdent(key)
    ensures WellFormed(ExtraAssignment(key, i, text))
  {
    hide NatText, Tame;
    NumberTame(i);
  }

  // ----- What the environment holds -----

  /** What a container starts from: the variables before the assignments' own, the Services', the Secrets. */
  datatype Launch = Launch(base: seq<EnvVar>, service: Env, secrets: map<Selector, string>)

  /** The variables set before that of the i-th assignment. */
  ghost function EnvBefore(x: Launch, assigns: seq<Assignment>, i: nat): Env
    requires i <= |assigns|
  {
    var s := Started(x.base + EnvVars(assigns[..i]), x.service, x.secrets);
    if s.Some? then s.value else map[]
  }

  /** The variable holds the assignment's text, expanded, or its secret. */
  predicate Holds(env: Env, a: Assignment, x: Launch, before: Env)
    requires !a.Literal?
  {
    && a.env in env
    && (a.Plain? ==> env[a.env] == Expand(a.text, before, x.service))
    && (a.Secret? ==> a.sel in x.secrets && env[a.env] == x.secrets[a.sel])
  }

  lemma {:induction false} EnvHolds(x: Launch, assigns: seq<Assignment>, i: nat)
    requires Sound(assigns) && Started(x.base + EnvVars(assigns), x.service, x.secrets).Some?
    requires i < |assigns| && !assigns[i].Literal?
    ensures Holds(Started(x.base + EnvVars(assigns), x.service, x.secrets).value, assigns[i], x, EnvBefore(x, assigns, i))
  {
    hide WellFormed, Expand, Started;
    var n := |assigns| - 1;
    var list, before := x.base + EnvVars(assigns), x.base + EnvVars(assigns[..n]);
    if assigns[n].Literal? {
      assert list == before;
    } else {
      assert list == before + [VarOf(assigns[n])];
      StartedNext(before, VarOf(assigns[n]), x.service, x.secrets);
    }
    if i < n {
      assert assigns[..n][..i] == assigns[..i];
      EnvHolds(x, assigns[..n], i);
    }
  }

  lemma StartedNext(list: seq<EnvVar>, v: EnvVar, service: Env, secrets: map<Selector, string>)
    requires Started(list + [v], service, secrets).Some?
    ensures Started(list, service, secrets).Some? && (v.FromSecret? ==> v.sel in secrets)
    ensures
      var before := Started(list, service, secrets).value;
      Started(list + [v], service, secrets).value ==
      before[v.name := if v.Given? then Expand(v.value, before, service) else secrets[v.sel]]
  {
    assert (list + [v])[..|list|] == list;
  }

  lemma HoldsOver(service: Env, env: Env, a: Assignment, x: Launch, before: Env)
    requires !a.Literal? && Holds(env, a, x, before)
    ensures Holds(service + env, a, x, before)
  {
  }

  // ----- The meaning of the plan -----

  /** No two settings share a column. */
  ghost predicate ColumnsInjective(p: Plan) {
    forall l, k :: Column(p, l) == Column(p, k) ==> l == k
  }

  ghost predicate ColumnsExist(p: Plan, columns: set<string>) {
    (forall l :: Column(p, l) in columns) && (forall k | k in p.extra :: k in columns)
  }

  /** A user's text as it stands in the row: nothing for an empty one. */
  ghost predicate IsText(v: Value, t: string, x: Launch, before: Env) {
    if t == "" then v == Null else v == Str(Expand(t, before, x.service))
  }

  ghost predicate IsSecret(v: Value, sel: Selector, x: Launch) {
    sel in x.secrets && v == Str(x.secrets[sel])
  }

  /** `v` is what the plan puts in the column of a setting, given the variables set before. */
  ghost predicate Wanted(p: Plan, x: Launch, before: Env, l: Logical, v: Value) {
    match l
    case UseObjectStorage => v == Bool(true)
    case Bucket => IsText(v, p.bucket, x, before)
    case Endpoint => IsText(v, p.endpoint, x, before)
    case Region => IsText(v, p.region, x, before)
    case Prefix => IsText(v, p.prefix, x, before)
    case BaseUrl => IsText(v, p.baseUrl, x, before)
    case Port => if p.port.None? then v == Null else v == Int(p.port.value)
    case AccessKey => IsSecret(v, p.accessKey, x)
    case SecretKey => IsSecret(v, p.secretKey, x)
    case UseSSL => v == Bool(p.useSSL)
    case UseProxy => v == Bool(p.useProxy)
    case SetPublicRead => v == Bool(p.setPublicRead)
    case ForcePathStyle => v == Bool(p.forcePathStyle)
  }

  ghost predicate IsPlanned(p: Plan, c: string) {
    IsStandard(p, c) || c in p.extra
  }

  /** The row after: planned columns hold what the plan puts there, the others what they held. */
  ghost predicate RowMeets(p: Plan, x: Launch, before: Row, after: Row) {
    && (forall l :: Column(p, l) in after
          && Wanted(p, x, EnvBefore(x, Compiled(p), PositionIn(p, l)), l, after[Column(p, l)]))
    && (forall i | 0 <= i < |Keys(p)| :: Keys(p)[i] in p.extra && Keys(p)[i] in after
          && after[Keys(p)[i]] == Str(Expand(p.extra[Keys(p)[i]], EnvBefore(x, Compiled(p), ExtraPosition(p, i)), x.service)))
    && (forall c | !IsPlanned(p, c) :: (c in after <==> c in before) && (c in before ==> after[c] == before[c]))
  }

  /** Where a setting stands among the assignments. */
  ghost function PositionIn(p: Plan, l: Logical): (i: nat)
    ensures i < |Compiled(p)| && i < |ORDER| && ORDER[i] == l
  {
    Position(l)
  }

  ghost function ExtraPosition(p: Plan, i: nat): (k: nat)
    requires i < |Keys(p)|
    ensures k < |Compiled(p)|
  {
    |ORDER| + i
  }

  /** The table after: row x meets the plan, every other row is as it was. */
  ghost predicate TableMeets(p: Plan, x: Launch, before: Table, after: Table) {
    && after.columns == before.columns && after.defaults == before.defaults && |after.rows| == |before.rows|
    && (forall i | 0 <= i < |before.rows| && HasId(before.rows[i], ROW) :: RowMeets(p, x, before.rows[i], after.rows[i]))
    && (forall i | 0 <= i < |before.rows| && !HasId(before.rows[i], ROW) :: after.rows[i] == before.rows[i])
  }

  lemma {:induction false} AsMapHolds(sets: Sets)
    requires Distinct(Columns(sets))
    ensures forall i | 0 <= i < |sets| :: sets[i].0 in AsMap(sets) && AsMap(sets)[sets[i].0] == sets[i].1
    ensures forall c | c in AsMap(sets) :: exists i :: 0 <= i < |sets| && sets[i].0 == c
  {
    if sets != [] {
      var n := |sets| - 1;
      var m := AsMap(sets[..n]);
      forall i | 0 <= i < |sets| ensures Columns(sets)[i] == sets[i].0 {}
      assert Columns(sets[..n]) == Columns(sets)[..n];
      AsMapHolds(sets[..n]);
      forall i | 0 <= i < n ensures sets[i].0 in AsMap(sets) && AsMap(sets)[sets[i].0] == sets[i].1 {
        assert sets[..n][i] == sets[i];
      }
      forall c | c in AsMap(sets) ensures exists i :: 0 <= i < |sets| && sets[i].0 == c {
        if c == sets[n].0 {
        } else {
          var i :| 0 <= i < n && sets[..n][i].0 == c;
          assert sets[i].0 == c;
        }
      }
    }
  }

  lemma StandardColumn(p: Plan, l: Logical)
    ensures StandardAssignment(p, l).column == Column(p, l)
  {
  }

  lemma CompiledColumns(p: Plan)
    ensures var c := ColumnsOf(Compiled(p)); |c| == |ORDER| + |Keys(p)| && c[|ORDER|..] == Keys(p)
    ensures forall i | 0 <= i < |ORDER| :: ColumnsOf(Compiled(p))[i] == Column(p, ORDER[i])
  {
    hide StandardAssignment, Column, Keys;
    forall i | 0 <= i < |ORDER| ensures ColumnsOf(Compiled(p))[i] == Column(p, ORDER[i]) {
      StandardColumn(p, ORDER[i]);
    }
  }

  /** Where a setting stands in the fixed order. */
  ghost function Position(l: Logical): (i: nat)
    ensures i < |ORDER| && ORDER[i] == l
  {
    OrderComplete(l);
    var i: nat :| i < |ORDER| && ORDER[i] == l;
    i
  }

  lemma DistinctIff(p: Plan)
    requires Acceptable(p)
    ensures Distinct(ColumnsOf(Compiled(p))) <==> ColumnsInjective(p)
  {
    hide Column, Keys, Compiled, SafeIdent;
    var c, n := ColumnsOf(Compiled(p)), |ORDER|;
    CompiledColumns(p);
    KeysHold(p);
    if Distinct(c) {
      forall l, k | Column(p, l) == Column(p, k) ensures l == k {
        assert c[Position(l)] == c[Position(k)];
      }
    }
    if ColumnsInjective(p) {
      forall i, j | 0 <= i < j < |c| ensures c[i] != c[j] {
        if j < n {
          OrderDistinct(i, j);
        } else if i < n {
          assert c[j] == Keys(p)[j - n] && IsStandard(p, c[i]);
        } else {
          assert c[i] == Keys(p)[i - n] && c[j] == Keys(p)[j - n];
        }
      }
    }
  }

  lemma KnownIff(p: Plan, columns: set<string>)
    ensures Known(ColumnsOf(Compiled(p)), columns) <==> ColumnsExist(p, columns)
  {
    hide Column, Keys, Compiled;
    var c, n := ColumnsOf(Compiled(p)), |ORDER|;
    CompiledColumns(p);
    KeysHold(p);
    if Known(c, columns) {
      forall l ensures Column(p, l) in columns {
        assert c[Position(l)] == Column(p, l);
      }
      forall k | k in p.extra ensures k in columns {
        var i :| 0 <= i < |Keys(p)| && Keys(p)[i] == k;
        assert c[n + i] == k;
      }
    }
    if ColumnsExist(p, columns) {
      forall i | 0 <= i < |c| ensures c[i] in columns {
        if i >= n {
          assert c[i] == Keys(p)[i - n];
        }
      }
    }
  }

  /** All that travels in the environment has arrived. */
  ghost predicate Arrived(p: Plan, env: Env, x: Launch) {
    forall i | 0 <= i < |Compiled(p)| && !Compiled(p)[i].Literal? ::
      Holds(env, Compiled(p)[i], x, EnvBefore(x, Compiled(p), i))
  }

  lemma StandardWanted(p: Plan, l: Logical, env: Env, x: Launch, before: Env)
    requires StandardAssignment(p, l).Literal? || Holds(env, StandardAssignment(p, l), x, before)
    ensures Wanted(p, x, before, l, ValueOf(StandardAssignment(p, l), env))
  {
    hide Name, Column, Expand;
  }

  ghost function SetsFor(p: Plan, env: Env): Sets {
    SetsOf(Compiled(p), |Compiled(p)|, env)
  }

  lemma SetsForHolds(p: Plan, env: Env)
    requires Acceptable(p) && ColumnsInjective(p)
    ensures var s := SetsFor(p, env);
      && (forall i | 0 <= i < |s| :: s[i].0 in AsMap(s) && AsMap(s)[s[i].0] == s[i].1)
      && (forall c | c in AsMap(s) :: exists i :: 0 <= i < |s| && s[i].0 == c)
  {
    hide Column, Keys, SafeIdent, Acceptable, ColumnsInjective, Compiled, ValueOf;
    DistinctIff(p);
    assert Columns(SetsFor(p, env)) == ColumnsOf(Compiled(p));
    AsMapHolds(SetsFor(p, env));
  }

  lemma StandardMet(p: Plan, env: Env, x: Launch, l: Logical)
    requires Acceptable(p) && ColumnsInjective(p) && Arrived(p, env, x)
    ensures Column(p, l) in AsMap(SetsFor(p, env))
    ensures Wanted(p, x, EnvBefore(x, Compiled(p), PositionIn(p, l)), l, AsMap(SetsFor(p, env))[Column(p, l)])
  {
    hide Column, Keys, Wanted, SafeIdent, StandardAssignment, Acceptable, ColumnsInjective, AsMap, Holds, ValueOf, EnvBefore;
    var a, i := Compiled(p), PositionIn(p, l);
    SetsForHolds(p, env);
    StandardColumn(p, l);
    assert a[i] == StandardAssignment(p, l);
    assert SetsFor(p, env)[i] == (a[i].column, ValueOf(a[i], env));
    StandardWanted(p, l, env, x, EnvBefore(x, a, i));
  }

  lemma ExtraMet(p: Plan, env: Env, x: Launch, i: nat)
    requires Acceptable(p) && ColumnsInjective(p) && Arrived(p, env, x) && i < |Keys(p)|
    ensures Keys(p)[i] in p.extra && Keys(p)[i] in AsMap(SetsFor(p, env))
    ensures AsMap(SetsFor(p, env))[Keys(p)[i]] ==
      Str(Expand(p.extra[Keys(p)[i]], EnvBefore(x, Compiled(p), ExtraPosition(p, i)), x.service))
  {
    hide Column, Keys, SafeIdent, StandardAssignment, Acceptable, ColumnsInjective, AsMap, Expand, EnvBefore;
    KeysHold(p);
    SetsForHolds(p, env);
    var a, n, k := Compiled(p), |ORDER|, Keys(p)[i];
    assert a[n + i] == ExtraAssignment(k, i, p.extra[k]);
    assert SetsFor(p, env)[n + i] == (k, ValueOf(a[n + i], env));
    assert Holds(env, a[n + i], x, EnvBefore(x, a, n + i));
  }

  lemma OnlyPlanned(p: Plan, env: Env, c: string)
    requires Acceptable(p) && ColumnsInjective(p) && c in AsMap(SetsFor(p, env))
    ensures IsPlanned(p, c)
  {
    hide Column, Keys, SafeIdent, Compiled, Acceptable, ColumnsInjective, AsMap, ValueOf;
    KeysHold(p);
    SetsForHolds(p, env);
    CompiledColumns(p);
    var i :| 0 <= i < |SetsFor(p, env)| && SetsFor(p, env)[i].0 == c;
    assert c == ColumnsOf(Compiled(p))[i];
    if i >= |ORDER| {
      assert c == Keys(p)[i - |ORDER|];
    }
  }

  lemma RowMeetsPlan(p: Plan, env: Env, x: Launch, r: Row)
    requires Acceptable(p) && ColumnsInjective(p) && Arrived(p, env, x)
    ensures RowMeets(p, x, r, r + AsMap(SetsFor(p, env)))
  {
    hide Column, Wanted, Acceptable, ColumnsInjective, Arrived, IsPlanned, AsMap, SetsFor, EnvBefore, Expand, Keys, Compiled;
    var m := AsMap(SetsFor(p, env));
    forall l ensures Column(p, l) in m
      && Wanted(p, x, EnvBefore(x, Compiled(p), PositionIn(p, l)), l, m[Column(p, l)])
    {
      StandardMet(p, env, x, l);
    }
    forall i | 0 <= i < |Keys(p)| ensures Keys(p)[i] in p.extra && Keys(p)[i] in m
      && m[Keys(p)[i]] == Str(Expand(p.extra[Keys(p)[i]], EnvBefore(x, Compiled(p), ExtraPosition(p, i)), x.service))
    {
      ExtraMet(p, env, x, i);
    }
    forall c | !IsPlanned(p, c) ensures c !in m {
      if c in m {
        OnlyPlanned(p, env, c);
      }
    }
  }

  function LaunchOf(db: Database, service: Env, secrets: map<Selector, string>): Launch {
    Launch(DatabaseEnv(db), service, secrets)
  }

  lemma CompiledArrives(p: Plan, db: Database, service: Env, secrets: map<Selector, string>)
    requires Acceptable(p) && Started(JobOf(p, db).env, service, secrets).Some?
    ensures Arrived(p, service + Started(JobOf(p, db).env, service, secrets).value, LaunchOf(db, service, secrets))
  {
    hide Compiled, Started, Sound, Acceptable, EnvVars, DatabaseEnv, Holds, EnvBefore;
    CompiledSound(p);
    var a, x := Compiled(p), LaunchOf(db, service, secrets);
    var env := Started(JobOf(p, db).env, service, secrets).value;
    forall i | 0 <= i < |a| && !a[i].Literal? ensures Holds(service + env, a[i], x, EnvBefore(x, a, i)) {
      EnvHolds(x, a, i);
      HoldsOver(service, env, a[i], x, EnvBefore(x, a, i));
    }
  }

  /**
   Compilation preserves meaning: whenever the Job's container starts, its script succeeds exactly
   if no two settings share a column and all columns exist; then row x meets the plan and the rest
   of the table is untouched, and otherwise nothing changes.
   */
  lemma JobMeans(p: Plan, db: Database, service: Env, secrets: map<Selector, string>, t: Table)
    requires Acceptable(p) && Started(JobOf(p, db).env, service, secrets).Some?
    ensures
      var env := service + Started(JobOf(p, db).env, service, secrets).value;
      var (ok, after) := Execute(JobOf(p, db).sql, env, t);
      && (ok <==> ColumnsInjective(p) && ColumnsExist(p, t.columns))
      && (ok ==> TableMeets(p, LaunchOf(db, service, secrets), InsertRow(t, ROW), after))
      && (!ok ==> after == t)
  {
    hide Compiled, Started, Sound, Acceptable, EnvVars, DatabaseEnv, JoinLines, ScriptLines, Execute,
      RowMeets, ColumnsInjective, ColumnsExist, Distinct, Known, InsertRow, AsMap, SetsOf, ColumnsOf, Holds;
    var env := service + Started(JobOf(p, db).env, service, secrets).value;
    var a, x := Compiled(p), LaunchOf(db, service, secrets);
    CompiledSound(p);
    CompiledArrives(p, db, service, secrets);
    HoldsMeansProvided(p, env, x);
    ScriptMeans(a, env, t);
    DistinctIff(p);
    KnownIff(p, t.columns);
    if ColumnsInjective(p) {
      forall i | 0 <= i < |InsertRow(t, ROW).rows|
        ensures RowMeets(p, x, InsertRow(t, ROW).rows[i], InsertRow(t, ROW).rows[i] + AsMap(SetsFor(p, env)))
      {
        RowMeetsPlan(p, env, x, InsertRow(t, ROW).rows[i]);
      }
    }
  }

  lemma HoldsMeansProvided(p: Plan, env: Env, x: Launch)
    requires Arrived(p, env, x)
    ensures Provided(Compiled(p), env) && Compiled(p) != []
  {
    hide StandardAssignment;
    assert |Standard(p)| == |ORDER|;
  }

  // ----- Strings that arrive as they are -----

  /** Every user's string is intact. */
  ghost predicate PlainTexts(p: Plan) {
    && Intact(p.bucket) && Intact(p.endpoint) && Intact(p.region) && Intact(p.prefix) && Intact(p.baseUrl)
    && (forall k | k in p.extra :: Intact(p.extra[k]))
  }

  /** The very string, or nothing for an empty one. */
  ghost predicate IsExactly(v: Value, t: string) {
    if t == "" then v == Null else v == Str(t)
  }

  /** The planned columns hold the user's own strings. */
  ghost predicate RowVerbatim(p: Plan, after: Row) {
    && Column(p, Bucket) in after && IsExactly(after[Column(p, Bucket)], p.bucket)
    && Column(p, Endpoint) in after && IsExactly(after[Column(p, Endpoint)], p.endpoint)
    && Column(p, Region) in after && IsExactly(after[Column(p, Region)], p.region)
    && Column(p, Prefix) in after && IsExactly(after[Column(p, Prefix)], p.prefix)
    && Column(p, BaseUrl) in after && IsExactly(after[Column(p, BaseUrl)], p.baseUrl)
    && (forall k | k in p.extra :: k in after && after[k] == Str(p.extra[k]))
  }

  lemma TextStays(v: Value, t: string, x: Launch, before: Env)
    requires IsText(v, t, x, before) && Intact(t)
    ensures IsExactly(v, t)
  {
    IntactStays(t, before, x.service);
  }

  lemma WantedStays(p: Plan, x: Launch, l: Logical, before: Row, after: Row)
    requires RowMeets(p, x, before, after)
    ensures Column(p, l) in after && Wanted(p, x, EnvBefore(x, Compiled(p), PositionIn(p, l)), l, after[Column(p, l)])
  {
  }

  /** With intact strings the row holds them as the user wrote them. */
  lemma IntactIsVerbatim(p: Plan, x: Launch, before: Row, after: Row)
    requires RowMeets(p, x, before, after) && PlainTexts(p)
    ensures RowVerbatim(p, after)
  {
    hide RowMeets, Column, Intact, Expand, EnvBefore, Compiled, IsText;
    WantedStays(p, x, Bucket, before, after);
    TextStays(after[Column(p, Bucket)], p.bucket, x, EnvBefore(x, Compiled(p), PositionIn(p, Bucket)));
    WantedStays(p, x, Endpoint, before, after);
    TextStays(after[Column(p, Endpoint)], p.endpoint, x, EnvBefore(x, Compiled(p), PositionIn(p, Endpoint)));
    WantedStays(p, x, Region, before, after);
    TextStays(after[Column(p, Region)], p.region, x, EnvBefore(x, Compiled(p), PositionIn(p, Region)));
    WantedStays(p, x, Prefix, before, after);
    TextStays(after[Column(p, Prefix)], p.prefix, x, EnvBefore(x, Compiled(p), PositionIn(p, Prefix)));
    WantedStays(p, x, BaseUrl, before, after);
    TextStays(after[Column(p, BaseUrl)], p.baseUrl, x, EnvBefore(x, Compiled(p), PositionIn(p, BaseUrl)));
    forall k | k in p.extra ensures k in after && after[k] == Str(p.extra[k]) {
      ExtraStays(p, x, k, before, after);
    }
  }

  lemma ExtraStays(p: Plan, x: Launch, k: string, before: Row, after: Row)
    requires RowMeets(p, x, before, after) && k in p.extra && Intact(p.extra[k])
    ensures k in after && after[k] == Str(p.extra[k])
  {
    hide Wanted, Intact, Expand, EnvBefore, Compiled, Keys, Column;
    KeysHold(p);
    var i :| 0 <= i < |Keys(p)| && Keys(p)[i] == k;
    IntactStays(p.extra[k], EnvBefore(x, Compiled(p), ExtraPosition(p, i)), x.service);
  }

  lemma PairIsLost(service: Env)
    ensures !Intact("a$$b") && Expand("a$$b", map[], service) == "a$b"
  {
    var s := "a$$b";
    assert s[1] == DOLLAR && s[2] == DOLLAR;
    assert s[1..] == "$$b" && "$$b"[2..] == "b";
  }

  lemma ReferenceIsReplaced(service: Env)
    ensures !Intact("$(PGUSER)") && Expand("$(PGUSER)", map["PGUSER" := "misskey"], service) == "misskey"
  {
    var name, s := "PGUSER", "$(PGUSER)";
    assert s[2..] == name + [')'] + "";
    assert s[0] == DOLLAR && s[1] == '(';
    CutAt(name, ')', "");
    CutNone(s[2..], ')');
  }

  lemma OpenStays()
    ensures Intact("$(open")
  {
    var s := "$(open";
    assert s[2..] == "open";
    assert Free(s[2..], ')');
    assert forall i | 0 < i < |s| :: s[i] != DOLLAR;
  }

  /** Two strings that are not intact, and what becomes of them; and one with $( that is. */
  lemma DollarsAreLost(service: Env)
    ensures !Intact("a$$b") && Expand("a$$b", map[], service) == "a$b"
    ensures !Intact("$(PGUSER)") && Expand("$(PGUSER)", map["PGUSER" := "misskey"], service) == "misskey"
    ensures Intact("$(open")
  {
    hide Intact, Expand;
    PairIsLost(service);
    ReferenceIsReplaced(service);
    OpenStays();
  }

  /** A plan in which two settings share a column. */
  const SHARED := Plan(
    map[Bucket := "c", Region := "c"], "b", "e", "r", "p", "u", None, Selector("s", "k"), Selector("s", "l"),
    true, true, true, true, map[])

  /** It is accepted, and its script fails on every table. */
  lemma SharedColumnFails(db: Database, service: Env, secrets: map<Selector, string>, t: Table)
    ensures Acceptable(SHARED) && !ColumnsInjective(SHARED)
    ensures Started(JobOf(SHARED, db).env, service, secrets).Some? ==>
      Execute(JobOf(SHARED, db).sql, service + Started(JobOf(SHARED, db).env, service, secrets).value, t) == (false, t)
  {
    hide DefaultColumn, Compiled, Started, EnvVars, DatabaseEnv, JoinLines, ScriptLines, Execute, TableMeets, ColumnsExist;
    assert SafeIdent("c");
    forall l ensures SafeIdent(Column(SHARED, l)) {
      DefaultSafe(l);
    }
    assert Column(SHARED, Bucket) == Column(SHARED, Region);
    if Started(JobOf(SHARED, db).env, service, secrets).Some? {
      JobMeans(SHARED, db, service, secrets, t);
    }
  }

  /** With upstream's columns and no extra ones every plan is accepted and can succeed. */
  lemma DefaultsWork(p: Plan)
    requires p.overrides == map[] && p.extra == map[]
    ensures Acceptable(p) && ColumnsInjective(p)
  {
    hide SafeIdent, DefaultColumn;
    forall l ensures SafeIdent(Column(p, l)) {
      DefaultSafe(l);
    }
    forall l, k | Column(p, l) == Column(p, k) ensures l == k {
      DefaultInjective(l, k);
    }
  }

  lemma SuffixLetters(l: Logical)
    ensures forall i | 0 <= i < |ColumnSuffix(l)| :: IdentChar(ColumnSuffix(l)[i])
  {
  }

  lemma DefaultSafe(l: Logical)
    ensures SafeIdent(DefaultColumn(l))
  {
    SuffixLetters(l);
    hide ColumnSuffix;
  }

  lemma SuffixInjective(l: Logical, k: Logical)
    requires ColumnSuffix(l) == ColumnSuffix(k)
    ensures l == k
  {
  }

  lemma DefaultInjective(l: Logical, k: Logical)
    requires DefaultColumn(l) == DefaultColumn(k)
    ensures l == k
  {
    hide ColumnSuffix;
    if l != UseObjectStorage && k != UseObjectStorage {
      PrefixInjective(OBJECT_STORAGE, ColumnSuffix(l), ColumnSuffix(k));
      SuffixInjective(l, k);
    } else {
      assert "useObjectStorage"[0] == 'u';
    }
  }
}

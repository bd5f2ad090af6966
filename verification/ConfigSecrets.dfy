/**
 The secrets of default.yml: its placeholders are exactly the variables of the init container,
 its script fills them all in, and a rotation of any Secret behind them is noticed.
 */
module ConfigSecrets {
  import opened Wrappers
  import opened Text
  import opened Template
  import opened ObjectStorage
  import opened Config

  type Variable = (string, Selector)

  /** The names the script goes through, in its order. */
  const NAMES: seq<string> := [
    DB_PASSWORD, MEILI_KEY, REDIS_PASSWORD, PassEnv(JobQueue), PassEnv(Pubsub), PassEnv(Timelines), PassEnv(Reactions),
    SETUP_PASSWORD]

  // ----- Variables -----

  function Given(name: string, sel: Option<Selector>): seq<Variable> {
    if sel.None? then [] else [(name, sel.value)]
  }

  function RolePass(p: Config.Plan, r: Role): Option<Selector> {
    if r in p.roles then p.roles[r].pass else None
  }

  function MeiliKey(p: Config.Plan): Option<Selector> {
    if p.meili.Some? then Some(p.meili.value.key) else None
  }

  function RoleVars(p: Config.Plan, n: nat): seq<Variable>
    requires n <= |ROLES|
  {
    if n == 0 then [] else RoleVars(p, n - 1) + Given(PassEnv(ROLES[n - 1]), RolePass(p, ROLES[n - 1]))
  }

  function Variables(p: Config.Plan): seq<Variable> {
    [(DB_PASSWORD, p.dbPass)] + Given(MEILI_KEY, MeiliKey(p)) + Given(REDIS_PASSWORD, p.redis.pass)
    + RoleVars(p, |ROLES|) + Given(SETUP_PASSWORD, p.setup)
  }

  method RenderInitEnv(p: Config.Plan) returns (env: seq<Variable>)
    ensures env == Variables(p)
  {
    env := [(DB_PASSWORD, p.dbPass)];
    if p.meili.Some? {
      env := env + [(MEILI_KEY, p.meili.value.key)];
    }
    if p.redis.pass.Some? {
      env := env + [(REDIS_PASSWORD, p.redis.pass.value)];
    }
    hide RoleVars;
    var roles := RenderRoleEnv(p);
    env := env + roles;
    if p.setup.Some? {
      env := env + [(SETUP_PASSWORD, p.setup.value)];
    }
  }

  method RenderRoleEnv(p: Config.Plan) returns (env: seq<Variable>)
    ensures env == RoleVars(p, |ROLES|)
  {
    hide PassEnv;
    env := [];
    for i := 0 to |ROLES|
      invariant env == RoleVars(p, i)
    {
      if ROLES[i] in p.roles && p.roles[ROLES[i]].pass.Some? {
        env := env + [(PassEnv(ROLES[i]), p.roles[ROLES[i]].pass.value)];
      }
    }
  }

  function NamesIn(vars: seq<Variable>): set<string> {
    set i | 0 <= i < |vars| :: vars[i].0
  }

  function SecretsIn(vars: seq<Variable>): set<string> {
    set i | 0 <= i < |vars| :: vars[i].1.name
  }

  lemma NamesConcat(a: seq<Variable>, b: seq<Variable>)
    ensures NamesIn(a + b) == NamesIn(a) + NamesIn(b) && SecretsIn(a + b) == SecretsIn(a) + SecretsIn(b)
  {
    var c := a + b;
    assert forall i | 0 <= i < |a| :: c[i] == a[i];
    assert forall i | 0 <= i < |b| :: c[|a| + i] == b[i];
    forall x | x in NamesIn(b) ensures x in NamesIn(c) {
      var i :| 0 <= i < |b| && b[i].0 == x;
      assert c[|a| + i].0 == x;
    }
    forall x | x in SecretsIn(b) ensures x in SecretsIn(c) {
      var i :| 0 <= i < |b| && b[i].1.name == x;
      assert c[|a| + i].1.name == x;
    }
    forall x | x in NamesIn(a) ensures x in NamesIn(c) {
      var i :| 0 <= i < |a| && a[i].0 == x;
      assert c[i].0 == x;
    }
    forall x | x in SecretsIn(a) ensures x in SecretsIn(c) {
      var i :| 0 <= i < |a| && a[i].1.name == x;
      assert c[i].1.name == x;
    }
  }

  function Opt(name: string, sel: Option<Selector>): set<string> {
    if sel.Some? then {name} else {}
  }

  function SecretOf(sel: Option<Selector>): set<string> {
    if sel.Some? then {sel.value.name} else {}
  }

  lemma GivenNames(name: string, sel: Option<Selector>)
    ensures NamesIn(Given(name, sel)) == Opt(name, sel) && SecretsIn(Given(name, sel)) == SecretOf(sel)
  {
    if sel.Some? {
      assert Given(name, sel)[0] == (name, sel.value);
    }
  }

  function RoleNames(p: Config.Plan, n: nat): set<string>
    requires n <= |ROLES|
  {
    if n == 0 then {} else RoleNames(p, n - 1) + Opt(PassEnv(ROLES[n - 1]), RolePass(p, ROLES[n - 1]))
  }

  function RoleSecrets(p: Config.Plan, n: nat): set<string>
    requires n <= |ROLES|
  {
    if n == 0 then {} else RoleSecrets(p, n - 1) + SecretOf(RolePass(p, ROLES[n - 1]))
  }

  function VariableNames(p: Config.Plan): set<string> {
    {DB_PASSWORD} + Opt(MEILI_KEY, MeiliKey(p)) + Opt(REDIS_PASSWORD, p.redis.pass) + RoleNames(p, |ROLES|)
    + Opt(SETUP_PASSWORD, p.setup)
  }

  function SecretNames(p: Config.Plan): set<string> {
    {p.dbPass.name} + SecretOf(MeiliKey(p)) + SecretOf(p.redis.pass) + RoleSecrets(p, |ROLES|) + SecretOf(p.setup)
  }

  lemma {:induction false} RoleVarsNames(p: Config.Plan, n: nat)
    requires n <= |ROLES|
    ensures NamesIn(RoleVars(p, n)) == RoleNames(p, n) && SecretsIn(RoleVars(p, n)) == RoleSecrets(p, n)
  {
    if n > 0 {
      hide PassEnv, NamesIn, SecretsIn, RolePass, Opt, SecretOf;
      RoleVarsNames(p, n - 1);
      GivenNames(PassEnv(ROLES[n - 1]), RolePass(p, ROLES[n - 1]));
      NamesConcat(RoleVars(p, n - 1), Given(PassEnv(ROLES[n - 1]), RolePass(p, ROLES[n - 1])));
    }
  }

  lemma VariablesNames(p: Config.Plan)
    ensures NamesIn(Variables(p)) == VariableNames(p) && SecretsIn(Variables(p)) == SecretNames(p)
  {
    hide RoleVars, RoleNames, RoleSecrets, Given, MeiliKey, Opt, SecretOf;
    var a, b, c, d, e := [(DB_PASSWORD, p.dbPass)], Given(MEILI_KEY, MeiliKey(p)), Given(REDIS_PASSWORD, p.redis.pass),
      RoleVars(p, |ROLES|), Given(SETUP_PASSWORD, p.setup);
    assert a[0] == (DB_PASSWORD, p.dbPass);
    assert NamesIn(a) == {DB_PASSWORD} && SecretsIn(a) == {p.dbPass.name};
    hide NamesIn, SecretsIn;
    GivenNames(MEILI_KEY, MeiliKey(p));
    GivenNames(REDIS_PASSWORD, p.redis.pass);
    RoleVarsNames(p, |ROLES|);
    GivenNames(SETUP_PASSWORD, p.setup);
    NamesConcat(a, b);
    NamesConcat(a + b, c);
    NamesConcat(a + b + c, d);
    NamesConcat(a + b + c + d, e);
  }

  // ----- No name twice -----

  predicate Apart(vars: seq<Variable>) {
    forall i, j | 0 <= i < j < |vars| :: vars[i].0 != vars[j].0
  }

  /** The names of the variables are among the first `n` of the script. */
  predicate Within(vars: seq<Variable>, n: nat)
    requires n <= |NAMES|
  {
    forall i | 0 <= i < |vars| :: vars[i].0 in NAMES[..n]
  }

  lemma NamesDistinct(i: nat, j: nat)
    requires i < j < |NAMES|
    ensures NAMES[i] != NAMES[j]
  {
    assert NAMES[2][0] == 'R' && NAMES[7][0] == 'S';
    assert NAMES[5][15] == 'T' && NAMES[6][15] == 'R';
  }

  lemma NextApart(vars: seq<Variable>, n: nat, sel: Option<Selector>)
    requires n < |NAMES| && Apart(vars) && Within(vars, n)
    ensures Apart(vars + Given(NAMES[n], sel)) && Within(vars + Given(NAMES[n], sel), n + 1)
  {
    forall i | 0 <= i < |vars| ensures vars[i].0 != NAMES[n] {
      assert vars[i].0 in NAMES[..n];
      var k :| 0 <= k < n && NAMES[..n][k] == vars[i].0;
      NamesDistinct(k, n);
    }
    assert NAMES[..n + 1] == NAMES[..n] + [NAMES[n]];
  }

  /** No two variables share a name, so each holds the secret it was given. */
  lemma VariablesApart(p: Config.Plan)
    ensures Apart(Variables(p))
  {
    hide Apart, Within, Given;
    var a, b, c := [(DB_PASSWORD, p.dbPass)], Given(MEILI_KEY, MeiliKey(p)), Given(REDIS_PASSWORD, p.redis.pass);
    assert Apart([]) && Within([], 0) by { EmptyApart(); }
    NextApart([], 0, Some(p.dbPass));
    assert [] + Given(NAMES[0], Some(p.dbPass)) == a by { OneGiven(DB_PASSWORD, p.dbPass); }
    NextApart(a, 1, MeiliKey(p));
    NextApart(a + b, 2, p.redis.pass);
    RolesApart(a + b + c, p, |ROLES|);
    NextApart(a + b + c + RoleVars(p, |ROLES|), 7, p.setup);
  }

  lemma EmptyApart()
    ensures Apart([]) && Within([], 0)
  {
  }

  lemma OneGiven(name: string, sel: Selector)
    ensures [] + Given(name, Some(sel)) == [(name, sel)]
  {
  }

  lemma {:induction false} RolesApart(before: seq<Variable>, p: Config.Plan, n: nat)
    requires n <= |ROLES| && Apart(before) && Within(before, 3)
    ensures Apart(before + RoleVars(p, n)) && Within(before + RoleVars(p, n), 3 + n)
  {
    if n == 0 {
      assert before + RoleVars(p, 0) == before;
    } else {
      hide Apart, Within, PassEnv, RolePass, Given;
      RolesApart(before, p, n - 1);
      var r := ROLES[n - 1];
      assert NAMES[2 + n] == PassEnv(r);
      NextApart(before + RoleVars(p, n - 1), 2 + n, RolePass(p, r));
      assert before + RoleVars(p, n - 1) + Given(PassEnv(r), RolePass(p, r)) == before + RoleVars(p, n);
    }
  }

  /** The Secrets whose versions enter the checksum are exactly those the variables read. */
  method ReferencedSecretNames(p: Config.Plan) returns (names: set<string>)
    ensures names == SecretsIn(Variables(p))
  {
    hide Variables, SecretsIn;
    names := {p.dbPass.name};
    if p.meili.Some? {
      names := names + {p.meili.value.key.name};
    }
    if p.redis.pass.Some? {
      names := names + {p.redis.pass.value.name};
    }
    ghost var start := names;
    for i := 0 to |ROLES|
      invariant names == start + RoleSecrets(p, i)
    {
      if ROLES[i] in p.roles && p.roles[ROLES[i]].pass.Some? {
        names := names + {p.roles[ROLES[i]].pass.value.name};
      }
    }
    if p.setup.Some? {
      names := names + {p.setup.value.name};
    }
    VariablesNames(p);
  }

  // ----- Placeholders -----

  lemma NoHoles(cs: seq<Chunk>)
    requires forall i | 0 <= i < |cs| :: cs[i].Lit?
    ensures Holes(cs) == {}
  {
  }

  lemma SecretLineHoles(key: string, env: string)
    ensures Holes(SecretLine(key, env)) == {env}
  {
    var cs := SecretLine(key, env);
    NoHoles(cs[2..]);
    assert cs[1..][1..] == cs[2..] && cs[1..][0] == Hole(env);
  }

  lemma {:induction false} SentinelHoles(ep: Endpoint, n: nat)
    requires n <= |ep.sentinels|
    ensures Holes(SentinelsUpTo(ep, n)) == {}
  {
    if n > 0 {
      hide Holes, Line;
      SentinelHoles(ep, n - 1);
      NoHoles(SentinelLines(ep.sentinels[n - 1]));
      HolesConcat(SentinelsUpTo(ep, n - 1), SentinelLines(ep.sentinels[n - 1]));
    }
  }

  lemma SentinelPartHoles(ep: Endpoint)
    ensures Holes(SentinelPart(ep)) == {}
  {
    if ep.sentinels == [] {
      NoHoles(SentinelPart(ep));
    } else {
      hide Holes;
      var a, b, c := [Lit("  sentinels:\n")], SentinelsUpTo(ep, |ep.sentinels|), [Line("  name: ", Yq(ep.master))];
      NoHoles(a);
      SentinelHoles(ep, |ep.sentinels|);
      NoHoles(c);
      HolesConcat(a, b);
      HolesConcat(a + b, c);
    }
  }

  lemma PassPartHoles(ep: Endpoint, env: string)
    ensures Holes(PassPart(ep, env)) == Opt(env, ep.pass)
  {
    hide SecretLine;
    if ep.pass.None? {
      NoHoles(PassPart(ep, env));
    } else {
      SecretLineHoles("  pass: ", env);
      SecretLineHoles("  sentinelPassword: ", env);
      NoHoles([]);
      hide Holes;
      HolesConcat(SecretLine("  pass: ", env), if ep.sentinels != [] then SecretLine("  sentinelPassword: ", env) else []);
    }
  }

  lemma RedisHoles(key: string, ep: Endpoint, env: string)
    ensures Holes(RedisBlock(key, ep, env)) == Opt(env, ep.pass)
  {
    hide Holes, SentinelPart, PassPart, Yq, IntText;
    NoHoles(AddressPart(key, ep));
    hide AddressPart;
    SentinelPartHoles(ep);
    PassPartHoles(ep, env);
    NoHoles(TlsPart(ep));
    HolesConcat(AddressPart(key, ep), SentinelPart(ep));
    HolesConcat(AddressPart(key, ep) + SentinelPart(ep), PassPart(ep, env));
    HolesConcat(AddressPart(key, ep) + SentinelPart(ep) + PassPart(ep, env), TlsPart(ep));
  }

  lemma {:induction false} RolesHoles(p: Config.Plan, n: nat)
    requires n <= |ROLES|
    ensures Holes(RolesUpTo(p, n)) == RoleNames(p, n)
  {
    NoHoles([]);
    if n > 0 {
      hide Holes, RedisBlock, PassEnv, ConfigKey;
      var r := ROLES[n - 1];
      RolesHoles(p, n - 1);
      if r in p.roles {
        RedisHoles(ConfigKey(r), p.roles[r], PassEnv(r));
      }
      HolesConcat(RolesUpTo(p, n - 1), RoleBlock(p, r));
    }
  }

  lemma SlaveHoles(s: Slave)
    ensures Holes(SlaveLines(s)) == {DB_PASSWORD}
  {
    hide Holes, SecretLine, Yq, IntText;
    var a := [Line("  - host: ", Yq(s.host)), Line("    port: ", IntText(s.port)), Line("    db: ", Yq(s.db)),
      Line("    user: ", Yq(s.user))];
    NoHoles(a);
    SecretLineHoles("    pass: ", DB_PASSWORD);
    HolesConcat(a, SecretLine("    pass: ", DB_PASSWORD));
  }

  lemma {:induction false} SlavesHoles(slaves: seq<Slave>, n: nat)
    requires n <= |slaves|
    ensures Holes(SlavesUpTo(slaves, n)) == if n == 0 then {} else {DB_PASSWORD}
  {
    if n > 0 {
      hide Holes, SlaveLines;
      SlavesHoles(slaves, n - 1);
      SlaveHoles(slaves[n - 1]);
      HolesConcat(SlavesUpTo(slaves, n - 1), SlaveLines(slaves[n - 1]));
    }
  }

  lemma SlavesPartHoles(p: Config.Plan)
    ensures Holes(SlavesPart(p)) <= {DB_PASSWORD}
  {
    if p.slaves.None? {
      NoHoles(SlavesPart(p));
    } else {
      hide Holes, SlavesUpTo;
      var a, b, c := [Lit("dbReplications: true\n"), Lit("dbSlaves:\n")], SlavesUpTo(p.slaves.value, |p.slaves.value|), [Lit("\n")];
      NoHoles(a);
      SlavesHoles(p.slaves.value, |p.slaves.value|);
      NoHoles(c);
      HolesConcat(a, b);
      HolesConcat(a + b, c);
    }
  }

  lemma DatabaseHoles(p: Config.Plan)
    ensures Holes(DatabasePart(p)) == {DB_PASSWORD}
  {
    hide Holes, SecretLine, Yq, IntText;
    var a := [Lit("db:\n"), Line("  host: ", Yq(p.dbHost)), Line("  port: ", IntText(p.dbPort)), Line("  db: ", Yq(p.dbName)),
      Line("  user: ", Yq(p.dbUser))];
    NoHoles(a);
    SecretLineHoles("  pass: ", DB_PASSWORD);
    HolesConcat(a, SecretLine("  pass: ", DB_PASSWORD));
  }

  lemma SetupHoles(p: Config.Plan)
    ensures Holes(SetupPart(p)) == Opt(SETUP_PASSWORD, p.setup)
  {
    NoHoles([]);
    NoHoles([Lit("\n")]);
    hide Holes, SecretLine;
    SecretLineHoles("setupPassword: ", SETUP_PASSWORD);
    HolesConcat(SecretLine("setupPassword: ", SETUP_PASSWORD), [Lit("\n")]);
  }

  lemma MeiliHoles(p: Config.Plan)
    ensures Holes(MeiliPart(p)) == Opt(MEILI_KEY, MeiliKey(p))
  {
    hide Holes, SecretLine, Yq, IntText, BoolText;
    if p.meili.None? {
      NoHoles(MeiliPart(p));
    } else {
      var m := p.meili.value;
      var a := [Lit("\nmeilisearch:\n"), Line("  host: ", Yq(m.host)), Line("  port: ", IntText(m.port))];
      var b := SecretLine("  apiKey: ", MEILI_KEY);
      var c := [Line("  ssl: ", BoolText(m.ssl)), Line("  index: ", Yq(m.index)), Line("  scope: ", m.scope)];
      NoHoles(a);
      NoHoles(c);
      SecretLineHoles("  apiKey: ", MEILI_KEY);
      HolesConcat(a, b);
      HolesConcat(a + b, c);
    }
  }

  lemma PlainParts(p: Config.Plan)
    ensures Holes(HeadPart(p)) == Holes(SearchPart(p)) == Holes(TailPart(p)) == Holes(ExtraPart(p)) == {}
  {
    hide Holes, Yq, BoolText, Blank, TrimNewlines;
    NoHoles(HeadPart(p));
    NoHoles(SearchPart(p));
    NoHoles(TailPart(p));
    NoHoles(ExtraPart(p));
  }

  lemma FirstHoles(p: Config.Plan)
    ensures Holes(FirstHalf(p)) == {DB_PASSWORD} + Opt(SETUP_PASSWORD, p.setup)
  {
    hide Holes, HeadPart, SetupPart, DatabasePart, SlavesPart;
    PlainParts(p);
    SetupHoles(p);
    DatabaseHoles(p);
    SlavesPartHoles(p);
    HolesConcat(HeadPart(p), SetupPart(p));
    HolesConcat(HeadPart(p) + SetupPart(p), DatabasePart(p));
    HolesConcat(HeadPart(p) + SetupPart(p) + DatabasePart(p), SlavesPart(p));
  }

  lemma SecondHoles(p: Config.Plan)
    ensures Holes(SecondHalf(p)) == Opt(REDIS_PASSWORD, p.redis.pass) + RoleNames(p, |ROLES|) + Opt(MEILI_KEY, MeiliKey(p))
  {
    hide Holes, RedisBlock, RolesUpTo, SearchPart, MeiliPart, TailPart, ExtraPart, RoleNames, Opt, MeiliKey;
    var a, b, c, d, e, f := RedisBlock("redis", p.redis, REDIS_PASSWORD), RolesUpTo(p, |ROLES|), SearchPart(p), MeiliPart(p),
      TailPart(p), ExtraPart(p);
    PlainParts(p);
    RedisHoles("redis", p.redis, REDIS_PASSWORD);
    RolesHoles(p, |ROLES|);
    MeiliHoles(p);
    HolesConcat(a, b);
    HolesConcat(a + b, c);
    HolesConcat(a + b + c, d);
    HolesConcat(a + b + c + d, e);
    HolesConcat(a + b + c + d + e, f);
  }

  /** The placeholders of default.yml are exactly the names of the variables. */
  lemma PlaceholdersAreVariables(p: Config.Plan)
    ensures Holes(Chunks(p)) == NamesIn(Variables(p))
  {
    hide Holes, FirstHalf, SecondHalf, Variables, NamesIn, RoleNames, MeiliKey;
    FirstHoles(p);
    SecondHoles(p);
    HolesConcat(FirstHalf(p), SecondHalf(p));
    VariablesNames(p);
  }

  /** The script goes through the name of every variable. */
  lemma {:induction false} RolesListed(p: Config.Plan, n: nat)
    requires n <= |ROLES|
    ensures forall x | x in RoleNames(p, n) :: x in NAMES
  {
    if n > 0 {
      RolesListed(p, n - 1);
      RoleListed(ROLES[n - 1]);
    }
  }

  lemma RoleListed(r: Role)
    ensures PassEnv(r) in NAMES
  {
    hide PassEnv;
    assert NAMES[3] == PassEnv(JobQueue) && NAMES[4] == PassEnv(Pubsub) && NAMES[5] == PassEnv(Timelines);
    assert NAMES[6] == PassEnv(Reactions);
  }

  lemma ScriptListsAll(p: Config.Plan)
    ensures forall x | x in Holes(Chunks(p)) :: x in NAMES
  {
    hide Holes, Chunks, Variables, NamesIn, RoleNames, PassEnv;
    PlaceholdersAreVariables(p);
    VariablesNames(p);
    RolesListed(p, |ROLES|);
    assert NAMES[0] == DB_PASSWORD && NAMES[1] == MEILI_KEY && NAMES[2] == REDIS_PASSWORD && NAMES[7] == SETUP_PASSWORD;
  }
}

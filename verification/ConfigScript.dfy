/**
 The init container's script on default.yml: when no user string and no secret value has "${" in
 it, the script puts every secret in its place and nothing else.
 */
module ConfigScript {
  import opened Wrappers
  import opened Text
  import opened Template
  import opened ObjectStorage
  import opened Config
  import opened ConfigSecrets

  // ----- What the user may write -----

  ghost predicate CleanEndpoint(ep: Endpoint) {
    Clean(ep.host) && Clean(ep.master) && forall i | 0 <= i < |ep.sentinels| :: Clean(ep.sentinels[i].host)
  }

  ghost predicate CleanSlave(s: Slave) {
    Clean(s.host) && Clean(s.db) && Clean(s.user)
  }

  ghost predicate CleanMeili(m: Meili) {
    Clean(m.host) && Clean(m.index) && Clean(m.scope)
  }

  /** No user string has "${" in it. The optional settings end with a line break. */
  ghost predicate CleanPlan(p: Config.Plan) {
    && Clean(p.url) && Clean(p.dbHost) && Clean(p.dbName) && Clean(p.dbUser)
    && (p.slaves.Some? ==> forall i | 0 <= i < |p.slaves.value| :: CleanSlave(p.slaves.value[i]))
    && CleanEndpoint(p.redis) && (forall r | r in p.roles :: CleanEndpoint(p.roles[r]))
    && Clean(p.provider) && (p.meili.Some? ==> CleanMeili(p.meili.value))
    && Clean(p.idMethod) && Clean(p.extraConfig)
    && (p.knobs != "" ==> Closed(p.knobs))
  }

  // ----- The template is well made -----

  lemma GoodLine(key: string, body: string)
    requires Free(key, DOLLAR) && Clean(body)
    ensures Good(Line(key, body))
  {
    CleanConcat(key, body);
    CleanConcat(key + body, "\n");
  }

  lemma GoodQuoted(key: string, s: string)
    requires Free(key, DOLLAR) && Clean(s)
    ensures Good(Line(key, Yq(s)))
  {
    QuoteClosed(s, true);
    hide Quote;
    GoodLine(key, Yq(s));
  }

  lemma GoodNumber(key: string, n: int)
    requires Free(key, DOLLAR)
    ensures Good(Line(key, IntText(n)))
  {
    NatRoundTrip(if n < 0 then -n else n);
    GoodLine(key, IntText(n));
  }

  lemma GoodSecret(key: string, env: string)
    requires Free(key, DOLLAR) && key != "" && Proper(env)
    ensures AllGood(SecretLine(key, env))
  {
  }

  lemma GoodConcat(a: seq<Chunk>, b: seq<Chunk>)
    requires AllGood(a) && AllGood(b)
    ensures AllGood(a + b)
  {
  }

  lemma GoodSentinel(s: HostPort)
    requires Clean(s.host)
    ensures AllGood(SentinelLines(s))
  {
    hide Good, Line, Yq, IntText, Clean;
    GoodQuoted("    - host: ", s.host);
    GoodNumber("      port: ", s.port);
  }

  lemma {:induction false} GoodSentinels(ep: Endpoint, n: nat)
    requires CleanEndpoint(ep) && n <= |ep.sentinels|
    ensures AllGood(SentinelsUpTo(ep, n))
  {
    if n > 0 {
      hide AllGood, Clean, SentinelLines;
      GoodSentinels(ep, n - 1);
      GoodSentinel(ep.sentinels[n - 1]);
      GoodConcat(SentinelsUpTo(ep, n - 1), SentinelLines(ep.sentinels[n - 1]));
    }
  }

  lemma GoodSentinelPart(ep: Endpoint)
    requires CleanEndpoint(ep)
    ensures AllGood(SentinelPart(ep))
  {
    assert Good(Lit("  sentinels:\n"));
    hide Good, Line, Yq, SentinelsUpTo, Clean;
    GoodSentinels(ep, |ep.sentinels|);
    GoodQuoted("  name: ", ep.master);
  }

  lemma GoodAddress(key: string, ep: Endpoint)
    requires CleanEndpoint(ep) && Free(key, DOLLAR)
    ensures AllGood(AddressPart(key, ep))
  {
    hide Good, Line, Yq, IntText;
    GoodLine(key, ":");
    GoodQuoted("  host: ", ep.host);
    GoodNumber("  port: ", ep.port);
    GoodNumber("  db: ", ep.db);
  }

  lemma GoodPass(ep: Endpoint, env: string)
    requires Proper(env)
    ensures AllGood(PassPart(ep, env)) && AllGood(TlsPart(ep))
  {
    assert Good(Lit("  tls: {}\n"));
    hide Good, SecretLine, Proper;
    GoodSecret("  pass: ", env);
    GoodSecret("  sentinelPassword: ", env);
  }

  lemma GoodRedis(key: string, ep: Endpoint, env: string)
    requires CleanEndpoint(ep) && Free(key, DOLLAR) && Proper(env)
    ensures AllGood(RedisBlock(key, ep, env))
  {
    hide AllGood, CleanEndpoint, Proper, Free, AddressPart, SentinelPart, PassPart, TlsPart;
    GoodAddress(key, ep);
    GoodSentinelPart(ep);
    GoodPass(ep, env);
    GoodConcat(AddressPart(key, ep), SentinelPart(ep));
    GoodConcat(AddressPart(key, ep) + SentinelPart(ep), PassPart(ep, env));
    GoodConcat(AddressPart(key, ep) + SentinelPart(ep) + PassPart(ep, env), TlsPart(ep));
  }

  lemma RoleKeyProper(r: Role)
    ensures Free(ConfigKey(r), DOLLAR)
  {
  }

  lemma RoleEnvProper(r: Role)
    ensures Proper(PassEnv(r))
  {
    assert Free(PassEnv(r), DOLLAR);
    assert Free(PassEnv(r), CLOSE);
  }

  lemma {:induction false} GoodRoles(p: Config.Plan, n: nat)
    requires CleanPlan(p) && n <= |ROLES|
    ensures AllGood(RolesUpTo(p, n))
  {
    if n > 0 {
      hide Good, ConfigKey, PassEnv, RedisBlock, CleanEndpoint, Proper;
      var r := ROLES[n - 1];
      GoodRoles(p, n - 1);
      RoleKeyProper(r);
      RoleEnvProper(r);
      if r in p.roles {
        GoodRedis(ConfigKey(r), p.roles[r], PassEnv(r));
      }
    }
  }

  lemma GoodSlave(s: Slave)
    requires CleanSlave(s)
    ensures AllGood(SlaveLines(s))
  {
    hide Good, Line, Yq, IntText, SecretLine;
    GoodQuoted("  - host: ", s.host);
    GoodNumber("    port: ", s.port);
    GoodQuoted("    db: ", s.db);
    GoodQuoted("    user: ", s.user);
    GoodSecret("    pass: ", DB_PASSWORD);
  }

  lemma {:induction false} GoodSlaves(slaves: seq<Slave>, n: nat)
    requires n <= |slaves| && forall i | 0 <= i < |slaves| :: CleanSlave(slaves[i])
    ensures AllGood(SlavesUpTo(slaves, n))
  {
    hide Good, SlaveLines, CleanSlave, Clean;
    if n > 0 {
      hide AllGood;
      GoodSlaves(slaves, n - 1);
      GoodSlave(slaves[n - 1]);
      GoodConcat(SlavesUpTo(slaves, n - 1), SlaveLines(slaves[n - 1]));
    }
  }

  lemma GoodReplicationLiterals()
    ensures Good(Lit("dbReplications: false\n\n")) && Good(Lit("dbReplications: true\n")) && Good(Lit("dbSlaves:\n"))
  {
  }

  lemma GoodSlavesPart(p: Config.Plan)
    requires p.slaves.Some? ==> forall i | 0 <= i < |p.slaves.value| :: CleanSlave(p.slaves.value[i])
    ensures AllGood(SlavesPart(p))
  {
    hide Good, SlavesUpTo, CleanSlave;
    GoodReplicationLiterals();
    GoodLiterals();
    if p.slaves.Some? {
      GoodSlaves(p.slaves.value, |p.slaves.value|);
      var a, b := [Lit("dbReplications: true\n"), Lit("dbSlaves:\n")], SlavesUpTo(p.slaves.value, |p.slaves.value|);
      assert AllGood(a) && AllGood([Lit("\n")]);
      hide AllGood;
      GoodConcat(a, b);
      GoodConcat(a + b, [Lit("\n")]);
    }
  }

  lemma GoodDatabase(p: Config.Plan)
    requires Clean(p.dbHost) && Clean(p.dbName) && Clean(p.dbUser)
    ensures AllGood(DatabasePart(p))
  {
    GoodLiterals();
    hide Good, Line, Yq, IntText, SecretLine, Clean;
    GoodQuoted("  host: ", p.dbHost);
    GoodNumber("  port: ", p.dbPort);
    GoodQuoted("  db: ", p.dbName);
    GoodQuoted("  user: ", p.dbUser);
    GoodSecret("  pass: ", DB_PASSWORD);
  }

  lemma GoodLiterals()
    ensures Good(Lit("db:\n")) && Good(Lit("\n")) && Good(Lit("port: 3000\n\n"))
  {
  }

  lemma GoodHeadings()
    ensures Good(Lit("fulltextSearch:\n")) && Good(Lit("\nmeilisearch:\n"))
  {
  }

  lemma GoodTitle()
    ensures Good(Lit("# Managed by cloudnative-misskey. ")) && Good(Lit("Do not edit by hand.\n"))
  {
  }

  lemma GoodHead(p: Config.Plan)
    requires Clean(p.url)
    ensures AllGood(HeadPart(p)) && AllGood(SetupPart(p))
  {
    hide Good, Line, Yq, SecretLine, Clean;
    GoodTitle();
    GoodLiterals();
    GoodQuoted("url: ", p.url);
    GoodSecret("setupPassword: ", SETUP_PASSWORD);
  }

  lemma GoodSearch(p: Config.Plan)
    requires Clean(p.provider)
    ensures AllGood(SearchPart(p))
  {
    hide Good, Line, Clean;
    GoodLiterals();
    GoodHeadings();
    GoodLine("  provider: ", p.provider);
  }

  lemma BoolClean(b: bool)
    ensures Clean(BoolText(b))
  {
  }

  lemma GoodMeili(p: Config.Plan)
    requires p.meili.Some? ==> CleanMeili(p.meili.value)
    ensures AllGood(MeiliPart(p))
  {
    hide Good, Line, Yq, IntText, SecretLine, Clean, BoolText;
    GoodHeadings();
    if p.meili.Some? {
      var m := p.meili.value;
      BoolClean(m.ssl);
      GoodQuoted("  host: ", m.host);
      GoodNumber("  port: ", m.port);
      GoodSecret("  apiKey: ", MEILI_KEY);
      GoodLine("  ssl: ", BoolText(m.ssl));
      GoodQuoted("  index: ", m.index);
      GoodLine("  scope: ", m.scope);
    }
  }

  lemma {:induction false} TrimClean(s: string)
    requires Clean(s)
    ensures Clean(TrimNewlines(s))
  {
    if s != "" && s[|s| - 1] == '\n' {
      TrimClean(s[..|s| - 1]);
    }
  }

  lemma GoodTail(p: Config.Plan)
    requires Clean(p.idMethod) && (p.knobs != "" ==> Closed(p.knobs))
    ensures AllGood(TailPart(p))
  {
    CleanConcat(p.idMethod, "'");
    BoolClean(p.proxyRemoteFiles);
    BoolClean(true);
    assert p.knobs != "" ==> Good(Lit(p.knobs));
    GoodLiterals();
    hide Good, Line, Clean, Closed, BoolText;
    GoodLine("id: '", p.idMethod + "'");
    GoodLine("proxyRemoteFiles: ", BoolText(p.proxyRemoteFiles));
    GoodLine("signToActivityPubGet: ", BoolText(true));
  }

  lemma GoodExtra(p: Config.Plan)
    requires Clean(p.extraConfig)
    ensures AllGood(ExtraPart(p))
  {
    assert Good(Lit("\n# --- extraConfig ---\n"));
    hide Good, Line, TrimNewlines, Blank, Clean;
    TrimClean(p.extraConfig);
    GoodLine("", TrimNewlines(p.extraConfig));
  }

  lemma GoodFirst(p: Config.Plan)
    requires CleanPlan(p)
    ensures AllGood(FirstHalf(p))
  {
    hide Good, Clean, CleanEndpoint, CleanSlave, HeadPart, SetupPart, DatabasePart, SlavesPart;
    GoodHead(p);
    GoodDatabase(p);
    GoodSlavesPart(p);
    GoodConcat(HeadPart(p), SetupPart(p));
    GoodConcat(HeadPart(p) + SetupPart(p), DatabasePart(p));
    GoodConcat(HeadPart(p) + SetupPart(p) + DatabasePart(p), SlavesPart(p));
  }

  lemma GoodSecond(p: Config.Plan)
    requires CleanPlan(p)
    ensures AllGood(SecondHalf(p))
  {
    hide Good, Clean, CleanEndpoint, CleanSlave, CleanMeili, RedisBlock, RolesUpTo, SearchPart, MeiliPart, TailPart, ExtraPart;
    var a, b, c, d, e, f := RedisBlock("redis", p.redis, REDIS_PASSWORD), RolesUpTo(p, |ROLES|), SearchPart(p), MeiliPart(p),
      TailPart(p), ExtraPart(p);
    GoodRedis("redis", p.redis, REDIS_PASSWORD);
    GoodRoles(p, |ROLES|);
    GoodSearch(p);
    GoodMeili(p);
    GoodTail(p);
    GoodExtra(p);
    hide AllGood;
    GoodConcat(a, b);
    GoodConcat(a + b, c);
    GoodConcat(a + b + c, d);
    GoodConcat(a + b + c + d, e);
    GoodConcat(a + b + c + d + e, f);
  }

  lemma GoodTemplate(p: Config.Plan)
    requires CleanPlan(p)
    ensures AllGood(Chunks(p))
  {
    hide CleanPlan, Good, FirstHalf, SecondHalf;
    GoodFirst(p);
    GoodSecond(p);
    GoodConcat(FirstHalf(p), SecondHalf(p));
  }

  // ----- The script -----

  /** The script: each name in turn, if the environment has it. */
  method RenderConfig(template: string, env: map<string, string>) returns (s: string)
    ensures s == Sequential(template, NAMES, map k | k in env :: Quote(env[k], false))
  {
    ghost var values := map k | k in env :: Quote(env[k], false);
    hide Quote, Replace, Placeholder;
    s := template;
    for i := 0 to |NAMES|
      invariant s == Sequential(template, NAMES[..i], values)
    {
      var k := NAMES[i];
      assert NAMES[..i + 1][..i] == NAMES[..i];
      if k in env {
        JoinSplit(s, Placeholder(k), Quote(env[k], false));
        s := Join(Split(s, Placeholder(k)), Quote(env[k], false));
      }
    }
    assert NAMES[..|NAMES|] == NAMES;
  }

  /** The environment holds the variables of the init container, as their Secrets have them. */
  ghost predicate Provides(env: map<string, string>, vars: seq<Variable>, secrets: map<Selector, string>) {
    forall i | 0 <= i < |vars| :: vars[i].0 in env && vars[i].1 in secrets && env[vars[i].0] == secrets[vars[i].1]
  }

  ghost predicate CleanValues(vars: seq<Variable>, secrets: map<Selector, string>) {
    forall i | 0 <= i < |vars| && vars[i].1 in secrets :: Clean(secrets[vars[i].1])
  }

  lemma NamesProper()
    ensures forall i | 0 <= i < |NAMES| :: Proper(NAMES[i])
  {
    assert Proper(DB_PASSWORD) && Proper(MEILI_KEY) && Proper(REDIS_PASSWORD) && Proper(SETUP_PASSWORD);
    RoleEnvProper(JobQueue);
    RoleEnvProper(Pubsub);
    RoleEnvProper(Timelines);
    RoleEnvProper(Reactions);
    hide Proper, PassEnv, ConfigKey;
  }

  /**
   The script's result is the template with every placeholder replaced, at once, by its quoted
   secret; no placeholder is left and nothing else is touched.
   */
  lemma ScriptSubstitutes(p: Config.Plan, env: map<string, string>, secrets: map<Selector, string>)
    requires CleanPlan(p) && Provides(env, Variables(p), secrets) && CleanValues(Variables(p), secrets)
    ensures
      var values := map k | k in env :: Quote(env[k], false);
      var result := Sequential(Flatten(Chunks(p)), NAMES, values);
      result == Flatten(Substitute(Chunks(p), values)) && Clean(result)
  {
    hide Chunks, Variables, Quote, Sequential, Substitute, Flatten, Clean, AllGood, CleanPlan, Holes, Closed;
    var values := map k | k in env :: Quote(env[k], false);
    GoodTemplate(p);
    PlaceholdersAreVariables(p);
    ScriptListsAll(p);
    NamesProper();
    forall k | k in Holes(Chunks(p)) ensures k in values && Closed(values[k]) {
      var i :| 0 <= i < |Variables(p)| && Variables(p)[i].0 == k;
      QuoteClosed(env[k], false);
    }
    AllFilled(Chunks(p), NAMES, values);
  }
}

/** default.yml line by line, once the secrets stand where their placeholders were. */
module ConfigLines {
  import opened Wrappers
  import opened Text
  import opened Template
  import opened ObjectStorage
  import opened Config

  lemma {:induction false} SplitJoinedThen(lines: seq<string>, rest: string)
    requires AllFree(lines, NEWLINE)
    ensures SplitLines(JoinLines(lines) + rest) == lines + SplitLines(rest)
  {
    if lines == [] {
      assert JoinLines(lines) + rest == rest;
    } else {
      assert JoinLines(lines) + rest == lines[0] + [NEWLINE] + (JoinLines(lines[1..]) + rest);
      CutAt(lines[0], NEWLINE, JoinLines(lines[1..]) + rest);
      SplitJoinedThen(lines[1..], rest);
      assert lines == [lines[0]] + lines[1..];
    }
  }

  // ----- The lines of the file -----

  /** What stands where the placeholder was. */
  ghost function Put(values: map<string, string>, name: string): string {
    if name in values then values[name] else Placeholder(name)
  }

  ghost function HeadLines(p: Config.Plan): seq<string> {
    ["# Managed by cloudnative-misskey. " + "Do not edit by hand.", "url: " + Quote(p.url, true), "port: 3000", ""]
  }

  ghost function SetupLines(p: Config.Plan, v: map<string, string>): seq<string> {
    if p.setup.Some? then ["setupPassword: " + Put(v, "SETUP_PASSWORD"), ""] else []
  }

  /** What stands under db. */
  ghost function DatabaseBlock(p: Config.Plan, pass: string): seq<string> {
    ["  host: " + Quote(p.dbHost, true), "  port: " + IntText(p.dbPort), "  db: " + Quote(p.dbName, true),
     "  user: " + Quote(p.dbUser, true), "  pass: " + pass]
  }

  ghost function SlaveBlock(s: Slave, pass: string): seq<string> {
    ["  - host: " + Quote(s.host, true), "    port: " + IntText(s.port), "    db: " + Quote(s.db, true),
     "    user: " + Quote(s.user, true), "    pass: " + pass]
  }

  /** What stands under dbSlaves, of the first `n`. */
  ghost function SlaveBlocks(slaves: seq<Slave>, n: nat, pass: string): seq<string>
    requires n <= |slaves|
  {
    if n == 0 then [] else SlaveBlocks(slaves, n - 1, pass) + SlaveBlock(slaves[n - 1], pass)
  }

  ghost function SlaveHead(p: Config.Plan): seq<string> {
    if p.slaves.None? then ["dbReplications: false", ""] else ["dbReplications: true", "dbSlaves:"]
  }

  ghost function SlaveRest(p: Config.Plan, pass: string): seq<string> {
    if p.slaves.None? then [] else SlaveBlocks(p.slaves.value, |p.slaves.value|, pass) + [""]
  }

  ghost function SentinelBlock(s: HostPort): seq<string> {
    ["    - host: " + Quote(s.host, true), "      port: " + IntText(s.port)]
  }

  ghost function SentinelBlocks(sentinels: seq<HostPort>, n: nat): seq<string>
    requires n <= |sentinels|
  {
    if n == 0 then [] else SentinelBlocks(sentinels, n - 1) + SentinelBlock(sentinels[n - 1])
  }

  ghost function AddressLines(ep: Endpoint): seq<string> {
    ["  host: " + Quote(ep.host, true), "  port: " + IntText(ep.port)] + if ep.db != 0 then ["  db: " + IntText(ep.db)] else []
  }

  ghost function WatchLines(ep: Endpoint): seq<string> {
    if ep.sentinels == [] then []
    else ["  sentinels:"] + SentinelBlocks(ep.sentinels, |ep.sentinels|) + ["  name: " + Quote(ep.master, true)]
  }

  ghost function PassLines(ep: Endpoint, pass: string): seq<string> {
    if ep.pass.None? then [] else ["  pass: " + pass] + if ep.sentinels != [] then ["  sentinelPassword: " + pass] else []
  }

  ghost function TlsLines(ep: Endpoint): seq<string> {
    if ep.tls then ["  tls: {}"] else []
  }

  /** What stands under a Redis of its own. */
  ghost function EndpointBlock(ep: Endpoint, pass: string): seq<string> {
    AddressLines(ep) + WatchLines(ep) + PassLines(ep, pass) + TlsLines(ep)
  }

  /** A role that has none is left out. */
  ghost function RoleLines(p: Config.Plan, r: Role, heading: string, pass: string): seq<string> {
    if r in p.roles then [heading + ":"] + EndpointBlock(p.roles[r], pass) else []
  }

  ghost function SearchLines(p: Config.Plan): seq<string> {
    ["", "fulltextSearch:", "  provider: " + p.provider]
  }

  /** What stands under meilisearch. */
  ghost function MeiliBlock(m: Meili, key: string): seq<string> {
    ["  host: " + Quote(m.host, true), "  port: " + IntText(m.port), "  apiKey: " + key,
     "  ssl: " + (if m.ssl then "true" else "false"), "  index: " + Quote(m.index, true), "  scope: " + m.scope]
  }

  ghost function MeiliLines(p: Config.Plan, key: string): seq<string> {
    if p.meili.None? then [] else ["", "meilisearch:"] + MeiliBlock(p.meili.value, key)
  }

  ghost function EndLines(p: Config.Plan): seq<string> {
    ["", "id: '" + (p.idMethod + "'"), "proxyRemoteFiles: " + (if p.proxyRemoteFiles then "true" else "false"),
     "signToActivityPubGet: " + "true"]
  }

  ghost function TopLines(p: Config.Plan, v: map<string, string>): seq<string> {
    HeadLines(p) + SetupLines(p, v) + (["db:"] + DatabaseBlock(p, Put(v, "DB_PASSWORD")))
    + (SlaveHead(p) + SlaveRest(p, Put(v, "DB_PASSWORD")))
  }

  ghost function RolesLines(p: Config.Plan, v: map<string, string>): seq<string> {
    RoleLines(p, JobQueue, "redisForJobQueue", Put(v, "REDIS_PASSWORD_JOBQUEUE"))
    + RoleLines(p, Pubsub, "redisForPubsub", Put(v, "REDIS_PASSWORD_PUBSUB"))
    + RoleLines(p, Timelines, "redisForTimelines", Put(v, "REDIS_PASSWORD_TIMELINES"))
    + RoleLines(p, Reactions, "redisForReactions", Put(v, "REDIS_PASSWORD_REACTIONS"))
  }

  ghost function MiddleLines(p: Config.Plan, v: map<string, string>): seq<string> {
    (["redis:"] + EndpointBlock(p.redis, Put(v, "REDIS_PASSWORD"))) + RolesLines(p, v)
    + SearchLines(p) + MeiliLines(p, Put(v, "MEILI_KEY"))
  }

  ghost function BottomLines(p: Config.Plan, v: map<string, string>): seq<string> {
    MiddleLines(p, v) + EndLines(p)
  }

  /** The lines the operator writes; after them come the optional settings and the user's own text. */
  ghost function FileLines(p: Config.Plan, v: map<string, string>): seq<string> {
    TopLines(p, v) + BottomLines(p, v)
  }

  ghost function Appendix(p: Config.Plan): string {
    p.knobs + if Blank(p.extraConfig) then "" else "\n# --- extraConfig ---\n" + (TrimNewlines(p.extraConfig) + "\n")
  }

  // ----- From chunks to lines -----

  /** With the secrets in place the chunks are these lines. */
  ghost predicate Reads(cs: seq<Chunk>, v: map<string, string>, lines: seq<string>) {
    Flatten(Substitute(cs, v)) == JoinLines(lines)
  }

  lemma ReadsConcat(a: seq<Chunk>, b: seq<Chunk>, v: map<string, string>, l: seq<string>, m: seq<string>)
    requires Reads(a, v, l) && Reads(b, v, m)
    ensures Reads(a + b, v, l + m)
  {
    hide Flatten, Substitute, JoinLines;
    SubstituteTwo(a, b, v);
    JoinAppend(l, m);
  }

  lemma ReadsNothing(v: map<string, string>)
    ensures Reads([], v, [])
  {
  }

  /** Chunks that are lines each. */
  lemma {:induction false} ReadsLines(cs: seq<Chunk>, v: map<string, string>, lines: seq<string>)
    requires |cs| == |lines| && forall i | 0 <= i < |cs| :: cs[i] == Lit(lines[i] + "\n")
    ensures Reads(cs, v, lines)
  {
    if cs != [] {
      ReadsLines(cs[1..], v, lines[1..]);
      assert Substitute(cs, v)[1..] == Substitute(cs[1..], v);
      assert lines == [lines[0]] + lines[1..];
    }
  }

  lemma ReadsSecret(key: string, env: string, v: map<string, string>)
    ensures Reads(SecretLine(key, env), v, [key + Put(v, env)])
  {
    var cs := Substitute(SecretLine(key, env), v);
    assert |cs| == 3 && cs[1..][0] == cs[1] && cs[1..][1..] == cs[2..] && cs[2..][0] == cs[2] && cs[2..][1..] == [];
    assert TextOf(cs[1]) == Put(v, env);
    assert Flatten(cs[2..]) == "\n" + "";
    assert Flatten(cs) == key + (Put(v, env) + ("\n" + ""));
    JoinOne(key + Put(v, env));
  }

  lemma ReadsHead(p: Config.Plan, v: map<string, string>)
    ensures Reads(HeadPart(p), v, HeadLines(p))
  {
    hide Quote, Reads;
    var a, b, u := "# Managed by cloudnative-misskey. ", "Do not edit by hand.", "url: " + Quote(p.url, true);
    Merge(a, b, v);
    ReadsLines([Lit(u + "\n")], v, [u]);
    ReadsConcat([Lit(a), Lit(b + "\n")], [Lit(u + "\n")], v, [a + b], [u]);
    ReadsTwo("port: 3000", v);
    ReadsConcat([Lit(a), Lit(b + "\n")] + [Lit(u + "\n")], [Lit("port: 3000" + "\n\n")], v, [a + b] + [u], ["port: 3000", ""]);
    HeadSplit(p, a, b, u);
  }

  lemma HeadSplit(p: Config.Plan, a: string, b: string, u: string)
    requires a == "# Managed by cloudnative-misskey. " && b == "Do not edit by hand." && u == "url: " + Quote(p.url, true)
    ensures HeadPart(p) == [Lit(a), Lit(b + "\n")] + [Lit(u + "\n")] + [Lit("port: 3000" + "\n\n")]
    ensures HeadLines(p) == [a + b] + [u] + ["port: 3000", ""]
  {
    hide Quote;
    assert "Do not edit by hand." + "\n" == "Do not edit by hand.\n";
    assert "port: 3000" + "\n\n" == "port: 3000\n\n";
  }

  lemma Merge(a: string, b: string, v: map<string, string>)
    ensures Reads([Lit(a), Lit(b + "\n")], v, [a + b])
  {
    var cs := [Lit(a), Lit(b + "\n")];
    var d := [Lit(b + "\n")];
    assert Substitute(cs, v) == cs && cs[1..] == d && d[1..] == [];
    assert Flatten(d) == (b + "\n") + "";
    assert Flatten(cs) == a + Flatten(d);
    JoinOne(a + b);
  }

  /** A line with an empty one after it. */
  lemma ReadsTwo(line: string, v: map<string, string>)
    ensures Reads([Lit(line + "\n\n")], v, [line, ""])
  {
    var cs := [Lit(line + "\n\n")];
    assert Substitute(cs, v) == cs && cs[1..] == [];
    assert [line, ""][1..] == [""];
    JoinOne("");
    assert Flatten(cs) == line + "\n\n" + "";
    assert "" + "\n" == "\n";
  }

  lemma ReadsSetup(p: Config.Plan, v: map<string, string>)
    ensures Reads(SetupPart(p), v, SetupLines(p, v))
  {
    ReadsNothing(v);
    if p.setup.Some? {
      ReadsSecret("setupPassword: ", SETUP_PASSWORD, v);
      ReadsLines([Lit("\n")], v, [""]) by { assert "" + "\n" == "\n"; }
      ReadsConcat(SecretLine("setupPassword: ", SETUP_PASSWORD), [Lit("\n")], v,
        ["setupPassword: " + Put(v, SETUP_PASSWORD)], [""]);
    }
  }

  lemma ReadsDatabase(p: Config.Plan, v: map<string, string>)
    ensures Reads(DatabasePart(p), v, ["db:"] + DatabaseBlock(p, Put(v, "DB_PASSWORD")))
  {
    hide Quote, IntText, Reads;
    var l := ["db:", "  host: " + Quote(p.dbHost, true), "  port: " + IntText(p.dbPort), "  db: " + Quote(p.dbName, true),
      "  user: " + Quote(p.dbUser, true)];
    var cs := DatabasePart(p)[..5];
    ReadsLines(cs, v, l);
    ReadsSecret("  pass: ", DB_PASSWORD, v);
    ReadsConcat(cs, SecretLine("  pass: ", DB_PASSWORD), v, l, ["  pass: " + Put(v, DB_PASSWORD)]);
    assert DatabasePart(p) == cs + SecretLine("  pass: ", DB_PASSWORD);
    assert ["db:"] + DatabaseBlock(p, Put(v, "DB_PASSWORD")) == l + ["  pass: " + Put(v, DB_PASSWORD)];
  }

  lemma ReadsSlave(s: Slave, v: map<string, string>)
    ensures Reads(SlaveLines(s), v, SlaveBlock(s, Put(v, "DB_PASSWORD")))
  {
    hide Quote, IntText, Reads;
    var l := ["  - host: " + Quote(s.host, true), "    port: " + IntText(s.port), "    db: " + Quote(s.db, true),
      "    user: " + Quote(s.user, true)];
    var cs := SlaveLines(s)[..4];
    ReadsLines(cs, v, l);
    ReadsSecret("    pass: ", DB_PASSWORD, v);
    ReadsConcat(cs, SecretLine("    pass: ", DB_PASSWORD), v, l, ["    pass: " + Put(v, DB_PASSWORD)]);
    assert SlaveLines(s) == cs + SecretLine("    pass: ", DB_PASSWORD);
    assert SlaveBlock(s, Put(v, "DB_PASSWORD")) == l + ["    pass: " + Put(v, DB_PASSWORD)];
  }

  lemma {:induction false} ReadsSlaves(slaves: seq<Slave>, n: nat, v: map<string, string>)
    requires n <= |slaves|
    ensures Reads(SlavesUpTo(slaves, n), v, SlaveBlocks(slaves, n, Put(v, "DB_PASSWORD")))
  {
    hide Reads, SlaveLines, SlaveBlock;
    ReadsNothing(v);
    if n > 0 {
      ReadsSlaves(slaves, n - 1, v);
      ReadsSlave(slaves[n - 1], v);
      ReadsConcat(SlavesUpTo(slaves, n - 1), SlaveLines(slaves[n - 1]), v,
        SlaveBlocks(slaves, n - 1, Put(v, "DB_PASSWORD")), SlaveBlock(slaves[n - 1], Put(v, "DB_PASSWORD")));
    }
  }

  lemma ReadsReplication(p: Config.Plan, v: map<string, string>)
    ensures Reads(SlavesPart(p), v, SlaveHead(p) + SlaveRest(p, Put(v, "DB_PASSWORD")))
  {
    hide Reads, SlavesUpTo, SlaveBlocks;
    var pass := Put(v, "DB_PASSWORD");
    if p.slaves.None? {
      ReadsTwo("dbReplications: false", v);
      assert "dbReplications: false" + "\n\n" == "dbReplications: false\n\n";
      assert SlaveHead(p) + SlaveRest(p, pass) == ["dbReplications: false", ""];
    } else {
      var n := |p.slaves.value|;
      var top := [Lit("dbReplications: true\n"), Lit("dbSlaves:\n")];
      assert top[0].text == "dbReplications: true" + "\n" && top[1].text == "dbSlaves:" + "\n";
      ReadsLines(top, v, ["dbReplications: true", "dbSlaves:"]);
      ReadsSlaves(p.slaves.value, n, v);
      ReadsConcat(top, SlavesUpTo(p.slaves.value, n), v, ["dbReplications: true", "dbSlaves:"], SlaveBlocks(p.slaves.value, n, pass));
      ReadsLines([Lit("\n")], v, [""]) by { assert "" + "\n" == "\n"; }
      ReadsConcat(top + SlavesUpTo(p.slaves.value, n), [Lit("\n")], v,
        ["dbReplications: true", "dbSlaves:"] + SlaveBlocks(p.slaves.value, n, pass), [""]);
      assert SlaveHead(p) + SlaveRest(p, pass)
        == ["dbReplications: true", "dbSlaves:"] + SlaveBlocks(p.slaves.value, n, pass) + [""];
    }
  }

  lemma {:induction false} ReadsSentinels(ep: Endpoint, n: nat, v: map<string, string>)
    requires n <= |ep.sentinels|
    ensures Reads(SentinelsUpTo(ep, n), v, SentinelBlocks(ep.sentinels, n))
  {
    hide Reads, Quote, IntText;
    ReadsNothing(v);
    if n > 0 {
      ReadsSentinels(ep, n - 1, v);
      var s := ep.sentinels[n - 1];
      var l := ["    - host: " + Quote(s.host, true), "      port: " + IntText(s.port)];
      ReadsLines(SentinelLines(s), v, l);
      ReadsConcat(SentinelsUpTo(ep, n - 1), SentinelLines(s), v, SentinelBlocks(ep.sentinels, n - 1), l);
    }
  }

  lemma ReadsAddress(key: string, ep: Endpoint, v: map<string, string>)
    ensures Reads(AddressPart(key, ep), v, [key + ":"] + AddressLines(ep))
  {
    hide Reads, Quote, IntText;
    ReadsLines(AddressPart(key, ep), v, [key + ":"] + AddressLines(ep));
  }

  lemma ReadsWatch(ep: Endpoint, v: map<string, string>)
    ensures Reads(SentinelPart(ep), v, WatchLines(ep))
  {
    hide Reads, Quote, SentinelsUpTo, SentinelBlocks;
    ReadsNothing(v);
    if ep.sentinels != [] {
      var n := |ep.sentinels|;
      assert "  sentinels:\n" == "  sentinels:" + "\n";
      ReadsLines([Lit("  sentinels:\n")], v, ["  sentinels:"]);
      ReadsSentinels(ep, n, v);
      ReadsConcat([Lit("  sentinels:\n")], SentinelsUpTo(ep, n), v, ["  sentinels:"], SentinelBlocks(ep.sentinels, n));
      ReadsLines([Line("  name: ", Yq(ep.master))], v, ["  name: " + Quote(ep.master, true)]);
      ReadsConcat([Lit("  sentinels:\n")] + SentinelsUpTo(ep, n), [Line("  name: ", Yq(ep.master))], v,
        ["  sentinels:"] + SentinelBlocks(ep.sentinels, n), ["  name: " + Quote(ep.master, true)]);
    }
  }

  lemma ReadsPass(ep: Endpoint, env: string, v: map<string, string>)
    ensures Reads(PassPart(ep, env), v, PassLines(ep, Put(v, env)))
  {
    hide Reads, SecretLine;
    ReadsNothing(v);
    if ep.pass.Some? {
      ReadsSecret("  pass: ", env, v);
      if ep.sentinels != [] {
        ReadsSecret("  sentinelPassword: ", env, v);
        ReadsConcat(SecretLine("  pass: ", env), SecretLine("  sentinelPassword: ", env), v,
          ["  pass: " + Put(v, env)], ["  sentinelPassword: " + Put(v, env)]);
      } else {
        assert SecretLine("  pass: ", env) + [] == SecretLine("  pass: ", env);
        assert ["  pass: " + Put(v, env)] + [] == ["  pass: " + Put(v, env)];
      }
    }
  }

  lemma ReadsTls(ep: Endpoint, v: map<string, string>)
    ensures Reads(TlsPart(ep), v, TlsLines(ep))
  {
    ReadsNothing(v);
    if ep.tls {
      assert "  tls: {}\n" == "  tls: {}" + "\n";
      ReadsLines([Lit("  tls: {}\n")], v, ["  tls: {}"]);
    }
  }

  lemma EndpointParts(key: string, ep: Endpoint, pass: string)
    ensures [key + ":"] + EndpointBlock(ep, pass)
      == [key + ":"] + AddressLines(ep) + WatchLines(ep) + PassLines(ep, pass) + TlsLines(ep)
  {
    hide AddressLines, WatchLines, PassLines, TlsLines;
  }

  lemma ReadsEndpoint(key: string, ep: Endpoint, env: string, v: map<string, string>)
    ensures Reads(RedisBlock(key, ep, env), v, [key + ":"] + EndpointBlock(ep, Put(v, env)))
  {
    var a, b, c, d := [key + ":"] + AddressLines(ep), WatchLines(ep), PassLines(ep, Put(v, env)), TlsLines(ep);
    EndpointParts(key, ep, Put(v, env));
    hide Put, Reads, AddressPart, SentinelPart, PassPart, TlsPart, EndpointBlock, AddressLines, WatchLines, PassLines, TlsLines;
    ReadsAddress(key, ep, v);
    ReadsWatch(ep, v);
    ReadsPass(ep, env, v);
    ReadsTls(ep, v);
    ReadsConcat(AddressPart(key, ep), SentinelPart(ep), v, a, b);
    ReadsConcat(AddressPart(key, ep) + SentinelPart(ep), PassPart(ep, env), v, a + b, c);
    ReadsConcat(AddressPart(key, ep) + SentinelPart(ep) + PassPart(ep, env), TlsPart(ep), v, a + b + c, d);
  }

  lemma ReadsRole(p: Config.Plan, r: Role, v: map<string, string>)
    ensures Reads(RoleBlock(p, r), v, RoleLines(p, r, ConfigKey(r), Put(v, PassEnv(r))))
  {
    hide Reads, RedisBlock, EndpointBlock, ConfigKey, PassEnv;
    ReadsNothing(v);
    if r in p.roles {
      ReadsEndpoint(ConfigKey(r), p.roles[r], PassEnv(r), v);
    }
  }

  lemma ReadsRoles(p: Config.Plan, v: map<string, string>)
    ensures Reads(RolesUpTo(p, 4), v, RolesLines(p, v))
  {
    hide Reads, RoleBlock, RoleLines;
    ReadsNothing(v);
    ReadsRole(p, JobQueue, v);
    ReadsRole(p, Pubsub, v);
    ReadsRole(p, Timelines, v);
    ReadsRole(p, Reactions, v);
    var a := RoleLines(p, JobQueue, "redisForJobQueue", Put(v, "REDIS_PASSWORD_JOBQUEUE"));
    var b := RoleLines(p, Pubsub, "redisForPubsub", Put(v, "REDIS_PASSWORD_PUBSUB"));
    var c := RoleLines(p, Timelines, "redisForTimelines", Put(v, "REDIS_PASSWORD_TIMELINES"));
    var d := RoleLines(p, Reactions, "redisForReactions", Put(v, "REDIS_PASSWORD_REACTIONS"));
    ReadsConcat([], RoleBlock(p, JobQueue), v, [], a);
    assert [] + a == a && RolesUpTo(p, 0) == [] && RolesUpTo(p, 1) == [] + RoleBlock(p, JobQueue);
    ReadsConcat(RolesUpTo(p, 1), RoleBlock(p, Pubsub), v, a, b);
    ReadsConcat(RolesUpTo(p, 2), RoleBlock(p, Timelines), v, a + b, c);
    ReadsConcat(RolesUpTo(p, 3), RoleBlock(p, Reactions), v, a + b + c, d);
  }

  lemma ReadsSearch(p: Config.Plan, v: map<string, string>)
    ensures Reads(SearchPart(p), v, SearchLines(p))
  {
    hide Reads;
    assert "fulltextSearch:\n" == "fulltextSearch:" + "\n" && "\n" == "" + "\n";
    ReadsLines(SearchPart(p), v, SearchLines(p));
  }

  lemma ReadsMeili(p: Config.Plan, v: map<string, string>)
    ensures Reads(MeiliPart(p), v, MeiliLines(p, Put(v, "MEILI_KEY")))
  {
    hide Reads, Quote, IntText;
    ReadsNothing(v);
    if p.meili.Some? {
      var m, cs := p.meili.value, MeiliPart(p);
      var a := ["  host: " + Quote(m.host, true), "  port: " + IntText(m.port)];
      var b := ["  ssl: " + (if m.ssl then "true" else "false"), "  index: " + Quote(m.index, true), "  scope: " + m.scope];
      ReadsAfterBlank("meilisearch:", v);
      assert "\n" + "meilisearch:" + "\n" == "\nmeilisearch:\n";
      ReadsLines(cs[1..3], v, a);
      ReadsConcat([cs[0]], cs[1..3], v, ["", "meilisearch:"], a);
      ReadsSecret("  apiKey: ", MEILI_KEY, v);
      ReadsConcat([cs[0]] + cs[1..3], SecretLine("  apiKey: ", MEILI_KEY), v, ["", "meilisearch:"] + a,
        ["  apiKey: " + Put(v, MEILI_KEY)]);
      ReadsLines(cs[6..], v, b);
      ReadsConcat([cs[0]] + cs[1..3] + SecretLine("  apiKey: ", MEILI_KEY), cs[6..], v,
        ["", "meilisearch:"] + a + ["  apiKey: " + Put(v, MEILI_KEY)], b);
      assert cs == [cs[0]] + cs[1..3] + SecretLine("  apiKey: ", MEILI_KEY) + cs[6..];
      assert MeiliLines(p, Put(v, "MEILI_KEY")) == ["", "meilisearch:"] + a + ["  apiKey: " + Put(v, MEILI_KEY)] + b;
    }
  }

  lemma ReadsAfterBlank(line: string, v: map<string, string>)
    ensures Reads([Lit("\n" + line + "\n")], v, ["", line])
  {
    var cs := [Lit("\n" + line + "\n")];
    assert Substitute(cs, v) == cs && cs[1..] == [];
    assert ["", line][1..] == [line];
    JoinOne(line);
    assert Flatten(cs) == "\n" + line + "\n" + "";
    assert JoinLines(["", line]) == "" + "\n" + (line + "\n");
  }

  ghost function KnobPart(p: Config.Plan): seq<Chunk> {
    if p.knobs == "" then [] else [Lit(p.knobs)]
  }

  lemma ReadsTail(p: Config.Plan, v: map<string, string>)
    ensures Reads(TailPart(p)[..4], v, EndLines(p)) && TailPart(p) == TailPart(p)[..4] + KnobPart(p)
  {
    hide Reads;
    assert "\n" == "" + "\n";
    ReadsLines(TailPart(p)[..4], v, EndLines(p));
  }

  lemma TextStays(cs: seq<Chunk>, v: map<string, string>)
    requires forall i | 0 <= i < |cs| :: cs[i].Lit?
    ensures Substitute(cs, v) == cs
  {
  }

  /** The end of the chunks: lines, then the optional settings and the user's own text. */
  lemma ReadsEnd(p: Config.Plan, v: map<string, string>)
    ensures Flatten(Substitute(TailPart(p) + ExtraPart(p), v)) == JoinLines(EndLines(p)) + Appendix(p)
  {
    var a, k, x := TailPart(p)[..4], KnobPart(p), ExtraPart(p);
    TextStays(k + x, v);
    OneText(k, p.knobs);
    hide TailPart, ExtraPart, KnobPart, EndLines, JoinLines, Flatten, Substitute, Appendix;
    ReadsTail(p, v);
    assert TailPart(p) + x == a + (k + x);
    SubstituteTwo(a, k + x, v);
    FlattenConcat(k, x);
    ExtraText(p);
  }

  lemma OneText(k: seq<Chunk>, text: string)
    requires k == if text == "" then [] else [Lit(text)]
    ensures Flatten(k) == text
  {
    if text != "" {
      assert k[1..] == [] && Flatten(k) == text + "";
    }
  }

  lemma ExtraText(p: Config.Plan)
    ensures p.knobs + Flatten(ExtraPart(p)) == Appendix(p)
  {
    hide TrimNewlines, Blank;
    if !Blank(p.extraConfig) {
      var x := ExtraPart(p);
      assert x[1..] == [x[1]] && x[1..][1..] == [];
      assert x[1].text == TrimNewlines(p.extraConfig) + "\n" by { assert "" + TrimNewlines(p.extraConfig) == TrimNewlines(p.extraConfig); }
      assert Flatten(x[1..]) == x[1].text + "";
      assert Flatten(x) == x[0].text + Flatten(x[1..]);
    }
  }

  lemma ReadsTop(p: Config.Plan, v: map<string, string>)
    ensures Reads(FirstHalf(p), v, TopLines(p, v))
  {
    hide Reads, HeadPart, SetupPart, DatabasePart, SlavesPart, HeadLines, SetupLines, DatabaseBlock, SlaveHead, SlaveRest;
    var a, b, c := HeadLines(p), SetupLines(p, v), ["db:"] + DatabaseBlock(p, Put(v, "DB_PASSWORD"));
    ReadsHead(p, v);
    ReadsSetup(p, v);
    ReadsDatabase(p, v);
    ReadsReplication(p, v);
    ReadsConcat(HeadPart(p), SetupPart(p), v, a, b);
    ReadsConcat(HeadPart(p) + SetupPart(p), DatabasePart(p), v, a + b, c);
    ReadsConcat(HeadPart(p) + SetupPart(p) + DatabasePart(p), SlavesPart(p), v, a + b + c,
      SlaveHead(p) + SlaveRest(p, Put(v, "DB_PASSWORD")));
  }

  lemma ReadsMiddle(p: Config.Plan, v: map<string, string>)
    ensures Reads(RedisBlock("redis", p.redis, REDIS_PASSWORD) + RolesUpTo(p, 4) + SearchPart(p) + MeiliPart(p), v, MiddleLines(p, v))
  {
    hide Reads, RedisBlock, RolesUpTo, SearchPart, MeiliPart, EndpointBlock, RolesLines, SearchLines, MeiliLines;
    var r := RedisBlock("redis", p.redis, REDIS_PASSWORD);
    var a := ["redis:"] + EndpointBlock(p.redis, Put(v, "REDIS_PASSWORD"));
    assert "redis" + ":" == "redis:";
    ReadsEndpoint("redis", p.redis, REDIS_PASSWORD, v);
    ReadsRoles(p, v);
    ReadsSearch(p, v);
    ReadsMeili(p, v);
    ReadsConcat(r, RolesUpTo(p, 4), v, a, RolesLines(p, v));
    ReadsConcat(r + RolesUpTo(p, 4), SearchPart(p), v, a + RolesLines(p, v), SearchLines(p));
    ReadsConcat(r + RolesUpTo(p, 4) + SearchPart(p), MeiliPart(p), v, a + RolesLines(p, v) + SearchLines(p),
      MeiliLines(p, Put(v, "MEILI_KEY")));
  }

  /** The file is the operator's lines, and after them the optional settings and the user's own text. */
  lemma FileIs(p: Config.Plan, v: map<string, string>)
    ensures Flatten(Substitute(Chunks(p), v)) == JoinLines(FileLines(p, v)) + Appendix(p)
  {
    hide HeadPart, SetupPart, DatabasePart, SlavesPart, RedisBlock, RolesUpTo, SearchPart, MeiliPart, TailPart, ExtraPart,
      TopLines, EndLines, RolesLines, EndpointBlock, SearchLines, MeiliLines, JoinLines, Flatten, Substitute, Appendix, FirstHalf;
    var mid := RedisBlock("redis", p.redis, REDIS_PASSWORD) + RolesUpTo(p, 4) + SearchPart(p) + MeiliPart(p);
    var end := TailPart(p) + ExtraPart(p);
    ReadsTop(p, v);
    ReadsMiddle(p, v);
    ReadsConcat(FirstHalf(p), mid, v, TopLines(p, v), MiddleLines(p, v));
    ReadsEnd(p, v);
    assert Chunks(p) == (FirstHalf(p) + mid) + end;
    SubstituteTwo(FirstHalf(p) + mid, end, v);
    assert FileLines(p, v) == (TopLines(p, v) + MiddleLines(p, v)) + EndLines(p);
    JoinAppend(TopLines(p, v) + MiddleLines(p, v), EndLines(p));
  }

  lemma SubstituteTwo(a: seq<Chunk>, b: seq<Chunk>, v: map<string, string>)
    ensures Flatten(Substitute(a + b, v)) == Flatten(Substitute(a, v)) + Flatten(Substitute(b, v))
  {
    hide Flatten;
    assert Substitute(a + b, v) == Substitute(a, v) + Substitute(b, v);
    FlattenConcat(Substitute(a, v), Substitute(b, v));
  }

  // ----- The lines are lines -----

  lemma {:induction false} EscapeFree(t: string, html: bool)
    ensures Free(Escape(t, html), NEWLINE)
  {
    if t != "" {
      EscapedFree(t[0], html);
      EscapeFree(t[1..], html);
      FreeConcat(Escaped(t[0], html), Escape(t[1..], html), NEWLINE);
    }
  }

  lemma EscapedFree(c: char, html: bool)
    ensures Free(Escaped(c, html), NEWLINE)
  {
  }

  lemma QuoteFree(t: string, html: bool)
    ensures Free(Quote(t, html), NEWLINE)
  {
    EscapeFree(t, html);
  }

  lemma IntFree(n: int)
    ensures Free(IntText(n), NEWLINE)
  {
    NatRoundTrip(if n < 0 then -n else n);
    hide IntOf, NatOf;
  }

  /** The words that are written as they are hold no line break. */
  ghost predicate Wordy(p: Config.Plan) {
    Free(p.provider, NEWLINE) && Free(p.idMethod, NEWLINE) && (p.meili.Some? ==> Free(p.meili.value.scope, NEWLINE))
  }

  lemma AllFreeConcat(a: seq<string>, b: seq<string>)
    requires AllFree(a, NEWLINE) && AllFree(b, NEWLINE)
    ensures AllFree(a + b, NEWLINE)
  {
    hide Free;
  }

  /** What stands in the place of the placeholders is one line each. */
  ghost predicate OneLine(v: map<string, string>) {
    forall k | k in v :: Free(v[k], NEWLINE)
  }

  lemma PutFree(v: map<string, string>, name: string)
    requires OneLine(v) && Free(name, NEWLINE)
    ensures Free(Put(v, name), NEWLINE)
  {
  }

  lemma DatabaseFree(p: Config.Plan, pass: string)
    requires Free(pass, NEWLINE)
    ensures AllFree(["db:"] + DatabaseBlock(p, pass), NEWLINE)
  {
    QuoteFree(p.dbHost, true);
    IntFree(p.dbPort);
    QuoteFree(p.dbName, true);
    QuoteFree(p.dbUser, true);
    hide Quote, IntText;
  }

  lemma {:induction false} SlavesFree(slaves: seq<Slave>, n: nat, pass: string)
    requires n <= |slaves| && Free(pass, NEWLINE)
    ensures AllFree(SlaveBlocks(slaves, n, pass), NEWLINE)
  {
    if n > 0 {
      SlavesFree(slaves, n - 1, pass);
      SlaveFree(slaves[n - 1], pass);
      hide SlaveBlock;
      AllFreeConcat(SlaveBlocks(slaves, n - 1, pass), SlaveBlock(slaves[n - 1], pass));
    }
  }

  lemma SlaveFree(x: Slave, pass: string)
    requires Free(pass, NEWLINE)
    ensures AllFree(SlaveBlock(x, pass), NEWLINE)
  {
    QuoteFree(x.host, true);
    IntFree(x.port);
    QuoteFree(x.db, true);
    QuoteFree(x.user, true);
    hide Quote, IntText;
  }

  lemma HeadFree(p: Config.Plan, v: map<string, string>)
    requires OneLine(v)
    ensures AllFree(HeadLines(p) + SetupLines(p, v), NEWLINE)
  {
    assert Free("# Managed by cloudnative-misskey. ", NEWLINE) && Free("Do not edit by hand.", NEWLINE);
    assert Free("url: ", NEWLINE) && Free("port: 3000", NEWLINE) && Free("setupPassword: ", NEWLINE);
    assert Free("SETUP_PASSWORD", NEWLINE) && Free("", NEWLINE);
    PutFree(v, "SETUP_PASSWORD");
    QuoteFree(p.url, true);
    hide Quote, Put, Free;
    FreeConcat("# Managed by cloudnative-misskey. ", "Do not edit by hand.", NEWLINE);
    FreeConcat("url: ", Quote(p.url, true), NEWLINE);
    FreeConcat("setupPassword: ", Put(v, "SETUP_PASSWORD"), NEWLINE);
    AllFreeConcat(HeadLines(p), SetupLines(p, v));
  }

  lemma ReplicationFree(p: Config.Plan, pass: string)
    requires Free(pass, NEWLINE)
    ensures AllFree(SlaveHead(p) + SlaveRest(p, pass), NEWLINE)
  {
    if p.slaves.Some? {
      SlavesFree(p.slaves.value, |p.slaves.value|, pass);
      assert AllFree([""], NEWLINE);
      AllFreeConcat(SlaveBlocks(p.slaves.value, |p.slaves.value|, pass), [""]);
    }
    AllFreeConcat(SlaveHead(p), SlaveRest(p, pass));
  }

  lemma TopFree(p: Config.Plan, v: map<string, string>)
    requires OneLine(v)
    ensures AllFree(TopLines(p, v), NEWLINE)
  {
    var pass := Put(v, "DB_PASSWORD");
    assert Free("DB_PASSWORD", NEWLINE);
    PutFree(v, "DB_PASSWORD");
    hide Put, HeadLines, SetupLines, DatabaseBlock, SlaveHead, SlaveRest, AllFree, Free;
    HeadFree(p, v);
    DatabaseFree(p, pass);
    ReplicationFree(p, pass);
    AllFreeConcat(HeadLines(p) + SetupLines(p, v), ["db:"] + DatabaseBlock(p, pass));
    AllFreeConcat(HeadLines(p) + SetupLines(p, v) + (["db:"] + DatabaseBlock(p, pass)), SlaveHead(p) + SlaveRest(p, pass));
  }

  lemma {:induction false} SentinelsFree(sentinels: seq<HostPort>, n: nat)
    requires n <= |sentinels|
    ensures AllFree(SentinelBlocks(sentinels, n), NEWLINE)
  {
    if n > 0 {
      SentinelsFree(sentinels, n - 1);
      QuoteFree(sentinels[n - 1].host, true);
      IntFree(sentinels[n - 1].port);
      hide Quote, IntText;
      AllFreeConcat(SentinelBlocks(sentinels, n - 1), SentinelBlock(sentinels[n - 1]));
    }
  }

  lemma EndpointFree(ep: Endpoint, pass: string)
    requires Free(pass, NEWLINE)
    ensures AllFree(EndpointBlock(ep, pass), NEWLINE)
  {
    QuoteFree(ep.host, true);
    QuoteFree(ep.master, true);
    IntFree(ep.port);
    IntFree(ep.db);
    hide Quote, IntText;
    assert AllFree(AddressLines(ep), NEWLINE) && AllFree(PassLines(ep, pass), NEWLINE) && AllFree(TlsLines(ep), NEWLINE);
    assert AllFree(WatchLines(ep), NEWLINE) by {
      if ep.sentinels != [] {
        var n := |ep.sentinels|;
        SentinelsFree(ep.sentinels, n);
        assert AllFree(["  sentinels:"], NEWLINE) && AllFree(["  name: " + Quote(ep.master, true)], NEWLINE);
        AllFreeConcat(["  sentinels:"], SentinelBlocks(ep.sentinels, n));
        AllFreeConcat(["  sentinels:"] + SentinelBlocks(ep.sentinels, n), ["  name: " + Quote(ep.master, true)]);
      }
    }
    hide AddressLines, WatchLines, PassLines, TlsLines, AllFree;
    AllFreeConcat(AddressLines(ep), WatchLines(ep));
    AllFreeConcat(AddressLines(ep) + WatchLines(ep), PassLines(ep, pass));
    AllFreeConcat(AddressLines(ep) + WatchLines(ep) + PassLines(ep, pass), TlsLines(ep));
  }

  lemma RoleFree(p: Config.Plan, r: Role, heading: string, v: map<string, string>, env: string)
    requires OneLine(v) && Free(heading, NEWLINE) && Free(env, NEWLINE)
    ensures AllFree(RoleLines(p, r, heading, Put(v, env)), NEWLINE)
  {
    PutFree(v, env);
    hide Put, EndpointBlock;
    if r in p.roles {
      EndpointFree(p.roles[r], Put(v, env));
      assert AllFree([heading + ":"], NEWLINE);
      AllFreeConcat([heading + ":"], EndpointBlock(p.roles[r], Put(v, env)));
    }
  }

  lemma RolesFree(p: Config.Plan, v: map<string, string>)
    requires OneLine(v)
    ensures AllFree(RolesLines(p, v), NEWLINE)
  {
    assert Free("redisForJobQueue", NEWLINE) && Free("redisForPubsub", NEWLINE) && Free("redisForTimelines", NEWLINE);
    assert Free("redisForReactions", NEWLINE) && Free("REDIS_PASSWORD_JOBQUEUE", NEWLINE) && Free("REDIS_PASSWORD_PUBSUB", NEWLINE);
    assert Free("REDIS_PASSWORD_TIMELINES", NEWLINE) && Free("REDIS_PASSWORD_REACTIONS", NEWLINE);
    hide Free, OneLine, AllFree, RoleLines;
    RoleFree(p, JobQueue, "redisForJobQueue", v, "REDIS_PASSWORD_JOBQUEUE");
    RoleFree(p, Pubsub, "redisForPubsub", v, "REDIS_PASSWORD_PUBSUB");
    RoleFree(p, Timelines, "redisForTimelines", v, "REDIS_PASSWORD_TIMELINES");
    RoleFree(p, Reactions, "redisForReactions", v, "REDIS_PASSWORD_REACTIONS");
    var a := RoleLines(p, JobQueue, "redisForJobQueue", Put(v, "REDIS_PASSWORD_JOBQUEUE"));
    var b := RoleLines(p, Pubsub, "redisForPubsub", Put(v, "REDIS_PASSWORD_PUBSUB"));
    var c := RoleLines(p, Timelines, "redisForTimelines", Put(v, "REDIS_PASSWORD_TIMELINES"));
    AllFreeConcat(a, b);
    AllFreeConcat(a + b, c);
    AllFreeConcat(a + b + c, RoleLines(p, Reactions, "redisForReactions", Put(v, "REDIS_PASSWORD_REACTIONS")));
  }

  lemma MeiliFree(p: Config.Plan, key: string)
    requires Wordy(p) && Free(key, NEWLINE)
    ensures AllFree(MeiliLines(p, key), NEWLINE)
  {
    if p.meili.Some? {
      QuoteFree(p.meili.value.host, true);
      QuoteFree(p.meili.value.index, true);
      IntFree(p.meili.value.port);
      hide Quote, IntText;
    }
  }

  lemma SharedFree(p: Config.Plan, v: map<string, string>)
    requires OneLine(v)
    ensures AllFree(["redis:"] + EndpointBlock(p.redis, Put(v, "REDIS_PASSWORD")), NEWLINE)
  {
    assert Free("REDIS_PASSWORD", NEWLINE);
    PutFree(v, "REDIS_PASSWORD");
    hide Put;
    EndpointFree(p.redis, Put(v, "REDIS_PASSWORD"));
    hide EndpointBlock;
    assert AllFree(["redis:"], NEWLINE);
    AllFreeConcat(["redis:"], EndpointBlock(p.redis, Put(v, "REDIS_PASSWORD")));
  }

  lemma KeyFree(p: Config.Plan, v: map<string, string>)
    requires Wordy(p) && OneLine(v)
    ensures AllFree(MeiliLines(p, Put(v, "MEILI_KEY")), NEWLINE)
  {
    assert Free("MEILI_KEY", NEWLINE);
    PutFree(v, "MEILI_KEY");
    hide Put;
    MeiliFree(p, Put(v, "MEILI_KEY"));
  }

  lemma PlainFree(p: Config.Plan)
    requires Wordy(p)
    ensures AllFree(SearchLines(p), NEWLINE) && AllFree(EndLines(p), NEWLINE)
  {
    var b := if p.proxyRemoteFiles then "true" else "false";
    assert Free("", NEWLINE) && Free("fulltextSearch:", NEWLINE) && Free("  provider: ", NEWLINE);
    assert Free("id: '", NEWLINE) && Free("'", NEWLINE) && Free("proxyRemoteFiles: ", NEWLINE) && Free(b, NEWLINE);
    assert Free("signToActivityPubGet: ", NEWLINE) && Free("true", NEWLINE);
    hide Free;
    FreeConcat("  provider: ", p.provider, NEWLINE);
    FreeConcat(p.idMethod, "'", NEWLINE);
    FreeConcat("id: '", p.idMethod + "'", NEWLINE);
    FreeConcat("proxyRemoteFiles: ", b, NEWLINE);
    FreeConcat("signToActivityPubGet: ", "true", NEWLINE);
  }

  lemma BottomFree(p: Config.Plan, v: map<string, string>)
    requires Wordy(p) && OneLine(v)
    ensures AllFree(BottomLines(p, v), NEWLINE)
  {
    hide EndpointBlock, MeiliLines, RolesLines, AllFree, Wordy, SearchLines, EndLines, Put, OneLine;
    SharedFree(p, v);
    KeyFree(p, v);
    PlainFree(p);
    RolesFree(p, v);
    var a, b, c := ["redis:"] + EndpointBlock(p.redis, Put(v, "REDIS_PASSWORD")), RolesLines(p, v), SearchLines(p);
    AllFreeConcat(a, b);
    AllFreeConcat(a + b, c);
    AllFreeConcat(a + b + c, MeiliLines(p, Put(v, "MEILI_KEY")));
    AllFreeConcat(MiddleLines(p, v), EndLines(p));
  }

  /** Read line by line, the file begins with the operator's lines. */
  lemma FileSplits(p: Config.Plan, v: map<string, string>)
    requires Wordy(p) && OneLine(v)
    ensures SplitLines(Flatten(Substitute(Chunks(p), v))) == FileLines(p, v) + SplitLines(Appendix(p))
  {
    hide TopLines, BottomLines, Chunks, Flatten, Substitute, Appendix, SplitLines, JoinLines, AllFree;
    FileIs(p, v);
    TopFree(p, v);
    BottomFree(p, v);
    AllFreeConcat(TopLines(p, v), BottomLines(p, v));
    SplitJoinedThen(FileLines(p, v), Appendix(p));
  }
}

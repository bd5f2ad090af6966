/**
 default.yml as it is read: its sections and what stands in them, after the init container's script
 has put the secrets in place.
 */
module ConfigReading {
  import opened Wrappers
  import opened Text
  import opened Template
  import opened ObjectStorage
  import opened Config
  import opened ConfigSecrets
  import opened ConfigScript
  import opened ConfigExact
  import opened ConfigLines

  // ----- Reading -----

  /** The indented lines at the beginning. */
  function Indented(lines: seq<string>): seq<string> {
    if lines != [] && lines[0] != "" && lines[0][0] == ' ' then [lines[0]] + Indented(lines[1..]) else []
  }

  /** What is indented under the first line that is the heading. */
  function Section(lines: seq<string>, heading: string): seq<string> {
    if lines == [] then []
    else if lines[0] == heading then Indented(lines[1..])
    else Section(lines[1..], heading)
  }

  lemma {:induction false} IndentedBlock(block: seq<string>, after: seq<string>)
    requires forall i | 0 <= i < |block| :: block[i] != "" && block[i][0] == ' '
    requires after == [] || after[0] == "" || after[0][0] != ' '
    ensures Indented(block + after) == block
  {
    if block == [] {
      assert block + after == after;
    } else {
      assert (block + after)[1..] == block[1..] + after;
      IndentedBlock(block[1..], after);
    }
  }

  /** A block under a heading that does not come before is read as it stands. */
  lemma {:induction false} SectionIn(before: seq<string>, heading: string, block: seq<string>, after: seq<string>)
    requires heading !in before
    requires forall i | 0 <= i < |block| :: block[i] != "" && block[i][0] == ' '
    requires after == [] || after[0] == "" || after[0][0] != ' '
    ensures Section(before + [heading] + block + after, heading) == block
  {
    var lines := before + [heading] + block + after;
    if before == [] {
      assert lines[1..] == block + after;
      IndentedBlock(block, after);
    } else {
      assert lines[1..] == before[1..] + [heading] + block + after;
      SectionIn(before[1..], heading, block, after);
    }
  }

  // ----- The sections -----

  ghost predicate NoStart(lines: seq<string>, c: char) {
    forall i | 0 <= i < |lines| :: lines[i] == "" || lines[i][0] != c
  }

  ghost predicate AllIndented(lines: seq<string>) {
    forall i | 0 <= i < |lines| :: lines[i] != "" && lines[i][0] == ' '
  }

  lemma NoStartConcat(a: seq<string>, b: seq<string>, c: char)
    requires NoStart(a, c) && NoStart(b, c)
    ensures NoStart(a + b, c)
  {
  }

  lemma IndentedConcat(a: seq<string>, b: seq<string>)
    requires AllIndented(a) && AllIndented(b)
    ensures AllIndented(a + b)
  {
  }

  lemma IndentedNoStart(a: seq<string>, c: char)
    requires AllIndented(a) && c != ' '
    ensures NoStart(a, c)
  {
  }

  lemma DatabaseIndented(p: Config.Plan, pass: string)
    ensures AllIndented(DatabaseBlock(p, pass))
  {
    hide Quote, IntText;
  }

  lemma {:induction false} SlavesIndented(slaves: seq<Slave>, n: nat, pass: string)
    requires n <= |slaves|
    ensures AllIndented(SlaveBlocks(slaves, n, pass))
  {
    hide Quote, IntText;
    if n > 0 {
      SlavesIndented(slaves, n - 1, pass);
      assert AllIndented(SlaveBlock(slaves[n - 1], pass));
      IndentedConcat(SlaveBlocks(slaves, n - 1, pass), SlaveBlock(slaves[n - 1], pass));
    }
  }

  lemma {:induction false} SentinelsIndented(sentinels: seq<HostPort>, n: nat)
    requires n <= |sentinels|
    ensures AllIndented(SentinelBlocks(sentinels, n))
  {
    hide Quote, IntText;
    if n > 0 {
      SentinelsIndented(sentinels, n - 1);
      assert AllIndented(SentinelBlock(sentinels[n - 1]));
      IndentedConcat(SentinelBlocks(sentinels, n - 1), SentinelBlock(sentinels[n - 1]));
    }
  }

  lemma EndpointIndented(ep: Endpoint, pass: string)
    ensures AllIndented(EndpointBlock(ep, pass))
  {
    hide Quote, IntText;
    assert AllIndented(AddressLines(ep)) && AllIndented(PassLines(ep, pass)) && AllIndented(TlsLines(ep));
    assert AllIndented(WatchLines(ep)) by {
      if ep.sentinels != [] {
        var n := |ep.sentinels|;
        SentinelsIndented(ep.sentinels, n);
        IndentedConcat(["  sentinels:"], SentinelBlocks(ep.sentinels, n));
        IndentedConcat(["  sentinels:"] + SentinelBlocks(ep.sentinels, n), ["  name: " + Quote(ep.master, true)]);
      }
    }
    hide AddressLines, WatchLines, PassLines, TlsLines, AllIndented;
    IndentedConcat(AddressLines(ep), WatchLines(ep));
    IndentedConcat(AddressLines(ep) + WatchLines(ep), PassLines(ep, pass));
    IndentedConcat(AddressLines(ep) + WatchLines(ep) + PassLines(ep, pass), TlsLines(ep));
  }

  lemma MeiliIndented(m: Meili, key: string)
    ensures AllIndented(MeiliBlock(m, key))
  {
    hide Quote, IntText;
  }

  /** The lines before db. */
  lemma StartsOfHead(p: Config.Plan, v: map<string, string>, c: char)
    requires c == 'd' || c == 'r' || c == 'f' || c == 'm'
    ensures NoStart(HeadLines(p) + SetupLines(p, v), c)
  {
    hide Quote, Put;
  }

  lemma StartsOfTop(p: Config.Plan, v: map<string, string>, c: char)
    requires c == 'r' || c == 'f' || c == 'm'
    ensures NoStart(TopLines(p, v), c)
  {
    var pass := Put(v, "DB_PASSWORD");
    hide Put;
    StartsOfHead(p, v, c);
    DatabaseIndented(p, pass);
    IndentedNoStart(DatabaseBlock(p, pass), c);
    hide HeadLines, SetupLines, DatabaseBlock;
    NoStartConcat(["db:"], DatabaseBlock(p, pass), c);
    NoStartConcat(HeadLines(p) + SetupLines(p, v), ["db:"] + DatabaseBlock(p, pass), c);
    assert NoStart(SlaveRest(p, pass), c) by {
      if p.slaves.Some? {
        SlavesIndented(p.slaves.value, |p.slaves.value|, pass);
        IndentedNoStart(SlaveBlocks(p.slaves.value, |p.slaves.value|, pass), c);
      }
    }
    NoStartConcat(SlaveHead(p), SlaveRest(p, pass), c);
    NoStartConcat(HeadLines(p) + SetupLines(p, v) + (["db:"] + DatabaseBlock(p, pass)), SlaveHead(p) + SlaveRest(p, pass), c);
  }

  ghost predicate Unindented(lines: seq<string>) {
    lines == [] || lines[0] == "" || lines[0][0] != ' '
  }

  /** The section db holds the plan's host, port, database, user and the password. */
  lemma DatabaseReads(p: Config.Plan, v: map<string, string>, rest: seq<string>)
    ensures Section(FileLines(p, v) + rest, "db:") == DatabaseBlock(p, Put(v, "DB_PASSWORD"))
  {
    hide Quote, IntText, Section, Put, BottomLines;
    var pass := Put(v, "DB_PASSWORD");
    var before, after := HeadLines(p) + SetupLines(p, v), SlaveHead(p) + SlaveRest(p, pass) + BottomLines(p, v) + rest;
    StartsOfHead(p, v, 'd');
    assert "db:" !in before;
    DatabaseIndented(p, pass);
    assert Unindented(after);
    SectionIn(before, "db:", DatabaseBlock(p, pass), after);
    hide HeadLines, SetupLines, DatabaseBlock, SlaveHead, SlaveRest;
    assert FileLines(p, v) + rest == before + ["db:"] + DatabaseBlock(p, pass) + after;
  }

  /** The section dbSlaves holds one block for each replica, in order. */
  lemma SlavesRead(p: Config.Plan, v: map<string, string>, rest: seq<string>)
    requires p.slaves.Some?
    ensures Section(FileLines(p, v) + rest, "dbSlaves:")
      == SlaveBlocks(p.slaves.value, |p.slaves.value|, Put(v, "DB_PASSWORD"))
  {
    hide Quote, IntText, Section, Put, BottomLines, SlaveBlocks;
    var pass := Put(v, "DB_PASSWORD");
    var block := SlaveBlocks(p.slaves.value, |p.slaves.value|, pass);
    var top, db := HeadLines(p) + SetupLines(p, v), ["db:"] + DatabaseBlock(p, pass);
    var before, after := top + db + ["dbReplications: true"], [""] + BottomLines(p, v) + rest;
    StartsOfHead(p, v, 'd');
    assert "dbSlaves:" !in top;
    DatabaseIndented(p, pass);
    assert "dbSlaves:"[2] == 'S' && "db:"[2] == ':' && "dbReplications: true"[2] == 'R';
    assert "dbSlaves:" !in db;
    assert "dbSlaves:" !in before;
    SlavesIndented(p.slaves.value, |p.slaves.value|, pass);
    SectionIn(before, "dbSlaves:", block, after);
    hide HeadLines, SetupLines, DatabaseBlock;
    assert FileLines(p, v) + rest == before + ["dbSlaves:"] + block + after;
  }

  /** What comes after the blocks of Redis. */
  ghost function LastLines(p: Config.Plan, v: map<string, string>, rest: seq<string>): seq<string> {
    SearchLines(p) + MeiliLines(p, Put(v, "MEILI_KEY")) + EndLines(p) + rest
  }

  lemma LastUnindented(p: Config.Plan, v: map<string, string>, rest: seq<string>)
    ensures Unindented(LastLines(p, v, rest)) && LastLines(p, v, rest) != []
  {
    hide MeiliLines, EndLines, Put;
    assert LastLines(p, v, rest)[0] == "";
  }

  lemma FileParts(p: Config.Plan, v: map<string, string>, rest: seq<string>)
    ensures FileLines(p, v) + rest
      == TopLines(p, v) + ["redis:"] + EndpointBlock(p.redis, Put(v, "REDIS_PASSWORD")) + (RolesLines(p, v) + LastLines(p, v, rest))
  {
    hide TopLines, EndpointBlock, RolesLines, SearchLines, MeiliLines, EndLines, Put;
  }

  lemma UnindentedConcat(a: seq<string>, b: seq<string>)
    requires a == [] || (a[0] != "" && a[0][0] == 'r')
    requires Unindented(b)
    ensures Unindented(a + b)
  {
    if a == [] {
      assert a + b == b;
    } else {
      assert (a + b)[0] == a[0];
    }
  }

  lemma NotIn(lines: seq<string>, c: char, line: string)
    requires NoStart(lines, c) && line != "" && line[0] == c
    ensures line !in lines
  {
  }

  /** The section redis holds the shared endpoint. */
  lemma RedisReads(p: Config.Plan, v: map<string, string>, rest: seq<string>)
    ensures Section(FileLines(p, v) + rest, "redis:") == EndpointBlock(p.redis, Put(v, "REDIS_PASSWORD"))
  {
    hide Section, Put, TopLines, EndpointBlock, FileLines, RolesLines, LastLines, Unindented;
    var block := EndpointBlock(p.redis, Put(v, "REDIS_PASSWORD"));
    StartsOfTop(p, v, 'r');
    NotIn(TopLines(p, v), 'r', "redis:");
    EndpointIndented(p.redis, Put(v, "REDIS_PASSWORD"));
    RolesUnindented(p, v);
    LastUnindented(p, v, rest);
    UnindentedConcat(RolesLines(p, v), LastLines(p, v, rest));
    ReadsAs(TopLines(p, v), "redis:", block, RolesLines(p, v) + LastLines(p, v, rest));
    FileParts(p, v, rest);
  }

  lemma ReadsAs(before: seq<string>, heading: string, block: seq<string>, after: seq<string>)
    requires heading !in before && AllIndented(block) && Unindented(after)
    ensures Section(before + [heading] + block + after, heading) == block
  {
    hide Section;
    SectionIn(before, heading, block, after);
  }

  lemma RolesUnindented(p: Config.Plan, v: map<string, string>)
    ensures RolesLines(p, v) == [] || (RolesLines(p, v)[0] != "" && RolesLines(p, v)[0][0] == 'r')
  {
    hide Put, EndpointBlock;
  }

  /** Of the lines that begin with r, only these headings. */
  ghost predicate OnlyHeadings(lines: seq<string>, headings: seq<string>) {
    forall i | 0 <= i < |lines| :: lines[i] == "" || lines[i][0] != 'r' || lines[i] in headings
  }

  lemma OnlyConcat(a: seq<string>, b: seq<string>, g: seq<string>, h: seq<string>)
    requires OnlyHeadings(a, g) && OnlyHeadings(b, h)
    ensures OnlyHeadings(a + b, g + h)
  {
  }

  lemma RoleHeading(p: Config.Plan, r: Role, heading: string, pass: string)
    ensures OnlyHeadings(RoleLines(p, r, heading, pass), [heading + ":"])
  {
    hide EndpointBlock;
    if r in p.roles {
      EndpointIndented(p.roles[r], pass);
    }
  }

  lemma RedisHeading(p: Config.Plan, v: map<string, string>)
    ensures OnlyHeadings(TopLines(p, v) + (["redis:"] + EndpointBlock(p.redis, Put(v, "REDIS_PASSWORD"))), ["redis:"])
  {
    hide Put, TopLines, EndpointBlock;
    StartsOfTop(p, v, 'r');
    EndpointIndented(p.redis, Put(v, "REDIS_PASSWORD"));
  }

  /** A role's block, after lines of other headings only. */
  lemma RoleReads(before: seq<string>, heading: string, ep: Endpoint, pass: string, after: seq<string>, others: seq<string>)
    requires OnlyHeadings(before, others) && heading !in others && heading != "" && heading[0] == 'r' && Unindented(after)
    ensures Section(before + [heading] + EndpointBlock(ep, pass) + after, heading) == EndpointBlock(ep, pass)
  {
    hide EndpointBlock, Section;
    EndpointIndented(ep, pass);
    SectionIn(before, heading, EndpointBlock(ep, pass), after);
  }

  lemma HeadingsApart()
    ensures "redisForJobQueue:" !in ["redis:"] && "redisForPubsub:" !in ["redis:", "redisForJobQueue:"]
    ensures "redisForTimelines:" !in ["redis:", "redisForJobQueue:", "redisForPubsub:"]
    ensures "redisForReactions:" !in ["redis:", "redisForJobQueue:", "redisForPubsub:", "redisForTimelines:"]
    ensures "redisForJobQueue" + ":" == "redisForJobQueue:" && "redisForPubsub" + ":" == "redisForPubsub:"
    ensures "redisForTimelines" + ":" == "redisForTimelines:" && "redisForReactions" + ":" == "redisForReactions:"
  {
    assert "redisForJobQueue:"[8] == 'J' && "redisForPubsub:"[8] == 'P' && "redisForTimelines:"[8] == 'T';
    assert "redisForReactions:"[8] == 'R';
  }

  /** The section of a role holds the role's own endpoint. */
  ghost predicate RoleSection(lines: seq<string>, p: Config.Plan, r: Role, heading: string, pass: string) {
    r in p.roles ==> Section(lines, heading) == EndpointBlock(p.roles[r], pass)
  }

  lemma RoleUnindented(p: Config.Plan, r: Role, heading: string, pass: string)
    requires heading != "" && heading[0] == 'r'
    ensures var l := RoleLines(p, r, heading, pass); l == [] || (l[0] != "" && l[0][0] == 'r')
  {
    hide EndpointBlock;
  }

  lemma RolesRead(p: Config.Plan, v: map<string, string>, rest: seq<string>)
    ensures
      var lines := FileLines(p, v) + rest;
      && RoleSection(lines, p, JobQueue, "redisForJobQueue:", Put(v, "REDIS_PASSWORD_JOBQUEUE"))
      && RoleSection(lines, p, Pubsub, "redisForPubsub:", Put(v, "REDIS_PASSWORD_PUBSUB"))
      && RoleSection(lines, p, Timelines, "redisForTimelines:", Put(v, "REDIS_PASSWORD_TIMELINES"))
      && RoleSection(lines, p, Reactions, "redisForReactions:", Put(v, "REDIS_PASSWORD_REACTIONS"))
  {
    hide Section, Put, TopLines, EndpointBlock, FileLines, RoleLines, LastLines, OnlyHeadings, Unindented, RoleSection;
    var top := TopLines(p, v) + (["redis:"] + EndpointBlock(p.redis, Put(v, "REDIS_PASSWORD")));
    RedisHeading(p, v);
    LastUnindented(p, v, rest);
    FileParts(p, v, rest);
    assert FileLines(p, v) + rest == top + (RolesLines(p, v) + LastLines(p, v, rest));
    FourRoles(p, top, LastLines(p, v, rest), Put(v, "REDIS_PASSWORD_JOBQUEUE"), Put(v, "REDIS_PASSWORD_PUBSUB"),
      Put(v, "REDIS_PASSWORD_TIMELINES"), Put(v, "REDIS_PASSWORD_REACTIONS"));
  }

  lemma FourRoles(p: Config.Plan, top: seq<string>, end: seq<string>, a: string, b: string, c: string, d: string)
    requires OnlyHeadings(top, ["redis:"]) && Unindented(end)
    ensures
      var roles := RoleLines(p, JobQueue, "redisForJobQueue", a) + RoleLines(p, Pubsub, "redisForPubsub", b)
        + RoleLines(p, Timelines, "redisForTimelines", c) + RoleLines(p, Reactions, "redisForReactions", d);
      var lines := top + (roles + end);
      && RoleSection(lines, p, JobQueue, "redisForJobQueue:", a) && RoleSection(lines, p, Pubsub, "redisForPubsub:", b)
      && RoleSection(lines, p, Timelines, "redisForTimelines:", c) && RoleSection(lines, p, Reactions, "redisForReactions:", d)
  {
    HeadingsApart();
    var j, u := RoleLines(p, JobQueue, "redisForJobQueue", a), RoleLines(p, Pubsub, "redisForPubsub", b);
    var t, r := RoleLines(p, Timelines, "redisForTimelines", c), RoleLines(p, Reactions, "redisForReactions", d);
    RoleUnindented(p, Pubsub, "redisForPubsub", b);
    RoleUnindented(p, Timelines, "redisForTimelines", c);
    RoleUnindented(p, Reactions, "redisForReactions", d);
    hide Section, EndpointBlock, RoleLines, OnlyHeadings, Unindented, RoleSection;
    UnindentedConcat(r, end);
    UnindentedConcat(t, r + end);
    UnindentedConcat(u, t + (r + end));
    RoleHeading(p, JobQueue, "redisForJobQueue", a);
    RoleHeading(p, Pubsub, "redisForPubsub", b);
    RoleHeading(p, Timelines, "redisForTimelines", c);
    OnlyConcat(top, j, ["redis:"], ["redisForJobQueue:"]);
    OnlyConcat(top + j, u, ["redis:"] + ["redisForJobQueue:"], ["redisForPubsub:"]);
    OnlyConcat(top + j + u, t, ["redis:"] + ["redisForJobQueue:"] + ["redisForPubsub:"], ["redisForTimelines:"]);
    Regroup(top, j, u, t, r, end);
    OneRole(p, JobQueue, "redisForJobQueue", top, j, u + (t + (r + end)), a, ["redis:"]);
    OneRole(p, Pubsub, "redisForPubsub", top + j, u, t + (r + end), b, ["redis:"] + ["redisForJobQueue:"]);
    OneRole(p, Timelines, "redisForTimelines", top + j + u, t, r + end, c, ["redis:"] + ["redisForJobQueue:"] + ["redisForPubsub:"]);
    OneRole(p, Reactions, "redisForReactions", top + j + u + t, r, end, d,
      ["redis:"] + ["redisForJobQueue:"] + ["redisForPubsub:"] + ["redisForTimelines:"]);
  }

  lemma Regroup(top: seq<string>, j: seq<string>, u: seq<string>, t: seq<string>, r: seq<string>, end: seq<string>)
    ensures top + (j + u + t + r + end) == top + j + (u + (t + (r + end)))
    ensures top + (j + u + t + r + end) == top + j + u + (t + (r + end))
    ensures top + (j + u + t + r + end) == top + j + u + t + (r + end)
    ensures top + (j + u + t + r + end) == top + j + u + t + r + end
  {
  }

  lemma OneRole(p: Config.Plan, r: Role, heading: string, before: seq<string>, lines: seq<string>, after: seq<string>,
      pass: string, others: seq<string>)
    requires lines == RoleLines(p, r, heading, pass) && OnlyHeadings(before, others) && Unindented(after)
    requires heading + ":" !in others && heading != "" && heading[0] == 'r'
    ensures RoleSection(before + lines + after, p, r, heading + ":", pass)
  {
    hide Section, EndpointBlock, OnlyHeadings, Unindented;
    if r in p.roles {
      RoleReads(before, heading + ":", p.roles[r], pass, after, others);
      assert before + lines + after == before + [heading + ":"] + EndpointBlock(p.roles[r], pass) + after;
    }
  }

  /** The section meilisearch holds the host, port, key and index of the search. */
  lemma MeiliReads(p: Config.Plan, v: map<string, string>, rest: seq<string>)
    requires p.meili.Some?
    ensures Section(FileLines(p, v) + rest, "meilisearch:") == MeiliBlock(p.meili.value, Put(v, "MEILI_KEY"))
  {
    hide Section, Put, TopLines, EndpointBlock, RolesLines, MeiliBlock, EndLines, Unindented;
    var block := MeiliBlock(p.meili.value, Put(v, "MEILI_KEY"));
    var redis := ["redis:"] + EndpointBlock(p.redis, Put(v, "REDIS_PASSWORD"));
    var before := TopLines(p, v) + redis + RolesLines(p, v) + SearchLines(p) + [""];
    StartsOfTop(p, v, 'm');
    RedisStart(p, v);
    RolesStart(p, v, 'm');
    NoStartConcat(TopLines(p, v), redis, 'm');
    NoStartConcat(TopLines(p, v) + redis, RolesLines(p, v), 'm');
    NoStartConcat(TopLines(p, v) + redis + RolesLines(p, v), SearchLines(p), 'm');
    NotIn(before, 'm', "meilisearch:");
    MeiliIndented(p.meili.value, Put(v, "MEILI_KEY"));
    assert Unindented(EndLines(p) + rest) by { EndUnindented(p, rest); }
    ReadsAs(before, "meilisearch:", block, EndLines(p) + rest);
    hide SearchLines;
    assert FileLines(p, v) + rest == before + ["meilisearch:"] + block + (EndLines(p) + rest);
  }

  lemma EndUnindented(p: Config.Plan, rest: seq<string>)
    ensures Unindented(EndLines(p) + rest)
  {
    assert (EndLines(p) + rest)[0] == "";
  }

  lemma RedisStart(p: Config.Plan, v: map<string, string>)
    ensures NoStart(["redis:"] + EndpointBlock(p.redis, Put(v, "REDIS_PASSWORD")), 'm')
  {
    hide Put, EndpointBlock;
    EndpointIndented(p.redis, Put(v, "REDIS_PASSWORD"));
    IndentedNoStart(EndpointBlock(p.redis, Put(v, "REDIS_PASSWORD")), 'm');
  }

  lemma RoleStart(p: Config.Plan, r: Role, heading: string, pass: string, c: char)
    requires heading != "" && heading[0] == 'r' && c != 'r' && c != ' '
    ensures NoStart(RoleLines(p, r, heading, pass), c)
  {
    hide EndpointBlock;
    if r in p.roles {
      EndpointIndented(p.roles[r], pass);
      IndentedNoStart(EndpointBlock(p.roles[r], pass), c);
    }
  }

  lemma RolesStart(p: Config.Plan, v: map<string, string>, c: char)
    requires c != 'r' && c != ' '
    ensures NoStart(RolesLines(p, v), c)
  {
    RoleStart(p, JobQueue, "redisForJobQueue", Put(v, "REDIS_PASSWORD_JOBQUEUE"), c);
    RoleStart(p, Pubsub, "redisForPubsub", Put(v, "REDIS_PASSWORD_PUBSUB"), c);
    RoleStart(p, Timelines, "redisForTimelines", Put(v, "REDIS_PASSWORD_TIMELINES"), c);
    RoleStart(p, Reactions, "redisForReactions", Put(v, "REDIS_PASSWORD_REACTIONS"), c);
    hide RoleLines, Put;
  }

  // ----- The secrets -----

  /** The secret as it is quoted. */
  ghost function Secret(secrets: map<Selector, string>, sel: Selector): string {
    if sel in secrets then Quote(secrets[sel], false) else ""
  }

  lemma VariableStands(p: Config.Plan, env: map<string, string>, secrets: map<Selector, string>, x: Variable)
    requires Provides(env, Variables(p), secrets) && x in Variables(p)
    ensures x.1 in secrets && Put(Quoted(env), x.0) == Secret(secrets, x.1)
  {
    hide Variables, Quote;
    var i :| 0 <= i < |Variables(p)| && Variables(p)[i] == x;
  }

  /** Every variable there is, by the name of its placeholder. */
  lemma VariablesListed(p: Config.Plan)
    ensures ("DB_PASSWORD", p.dbPass) in Variables(p)
    ensures p.meili.Some? ==> ("MEILI_KEY", p.meili.value.key) in Variables(p)
    ensures p.redis.pass.Some? ==> ("REDIS_PASSWORD", p.redis.pass.value) in Variables(p)
    ensures p.setup.Some? ==> ("SETUP_PASSWORD", p.setup.value) in Variables(p)
    ensures forall r | r in p.roles && p.roles[r].pass.Some? :: (PassEnv(r), p.roles[r].pass.value) in Variables(p)
  {
    hide PassEnv;
    forall r | r in p.roles && p.roles[r].pass.Some? ensures (PassEnv(r), p.roles[r].pass.value) in RoleVars(p, 4) {
      RoleListed(p, r);
    }
    hide RoleVars;
  }

  lemma RoleListed(p: Config.Plan, r: Role)
    requires r in p.roles && p.roles[r].pass.Some?
    ensures (PassEnv(r), p.roles[r].pass.value) in RoleVars(p, 4)
  {
    hide PassEnv;
    var k := match r case JobQueue => 0 case Pubsub => 1 case Timelines => 2 case Reactions => 3;
    assert ROLES[k] == r;
    RoleUpTo(p, k, 4);
  }

  lemma {:induction false} RoleUpTo(p: Config.Plan, k: nat, n: nat)
    requires k < n <= |ROLES| && RolePass(p, ROLES[k]).Some?
    ensures (PassEnv(ROLES[k]), RolePass(p, ROLES[k]).value) in RoleVars(p, n)
  {
    hide PassEnv, RolePass;
    if k < n - 1 {
      RoleUpTo(p, k, n - 1);
    }
  }

  ghost function SecretOr(secrets: map<Selector, string>, sel: Option<Selector>): string {
    if sel.Some? then Secret(secrets, sel.value) else ""
  }

  /** A block does not depend on a password it does not show. */
  lemma NoPassNoMatter(ep: Endpoint, a: string, b: string)
    requires ep.pass.None?
    ensures EndpointBlock(ep, a) == EndpointBlock(ep, b)
  {
    hide Quote, IntText;
  }

  lemma EndpointSecret(p: Config.Plan, env: map<string, string>, secrets: map<Selector, string>, ep: Endpoint, name: string)
    requires Provides(env, Variables(p), secrets) && (ep.pass.Some? ==> (name, ep.pass.value) in Variables(p))
    ensures EndpointBlock(ep, Put(Quoted(env), name)) == EndpointBlock(ep, SecretOr(secrets, ep.pass))
  {
    hide EndpointBlock, Variables, Secret, Put;
    if ep.pass.Some? {
      VariableStands(p, env, secrets, (name, ep.pass.value));
    } else {
      NoPassNoMatter(ep, Put(Quoted(env), name), "");
    }
  }

  /** The file as Misskey reads it: under each heading the plan's own values, with the secrets in place. */
  ghost predicate FileSays(p: Config.Plan, secrets: map<Selector, string>, lines: seq<string>) {
    && p.dbPass in secrets && Section(lines, "db:") == DatabaseBlock(p, Secret(secrets, p.dbPass))
    && (p.slaves.Some? ==>
          Section(lines, "dbSlaves:") == SlaveBlocks(p.slaves.value, |p.slaves.value|, Secret(secrets, p.dbPass)))
    && Section(lines, "redis:") == EndpointBlock(p.redis, SecretOr(secrets, p.redis.pass))
    && RoleSays(p, JobQueue, "redisForJobQueue:", secrets, lines) && RoleSays(p, Pubsub, "redisForPubsub:", secrets, lines)
    && RoleSays(p, Timelines, "redisForTimelines:", secrets, lines) && RoleSays(p, Reactions, "redisForReactions:", secrets, lines)
    && (p.meili.Some? ==>
          p.meili.value.key in secrets
          && Section(lines, "meilisearch:") == MeiliBlock(p.meili.value, Secret(secrets, p.meili.value.key)))
  }

  ghost predicate RoleSays(p: Config.Plan, r: Role, heading: string, secrets: map<Selector, string>, lines: seq<string>) {
    r in p.roles ==> Section(lines, heading) == EndpointBlock(p.roles[r], SecretOr(secrets, p.roles[r].pass))
  }

  lemma RoleSaid(p: Config.Plan, env: map<string, string>, secrets: map<Selector, string>, r: Role, heading: string, lines: seq<string>)
    requires Provides(env, Variables(p), secrets) && RoleSection(lines, p, r, heading, Put(Quoted(env), PassEnv(r)))
    ensures RoleSays(p, r, heading, secrets, lines)
  {
    hide Section, EndpointBlock, Variables, PassEnv, Put;
    VariablesListed(p);
    if r in p.roles {
      EndpointSecret(p, env, secrets, p.roles[r], PassEnv(r));
    }
  }

  lemma QuotedOneLine(env: map<string, string>)
    ensures OneLine(Quoted(env))
  {
    forall k | k in Quoted(env) ensures Free(Quoted(env)[k], NEWLINE) {
      QuoteFree(env[k], false);
    }
  }

  lemma PutsSay(p: Config.Plan, env: map<string, string>, secrets: map<Selector, string>, rest: seq<string>)
    requires Provides(env, Variables(p), secrets)
    ensures FileSays(p, secrets, FileLines(p, Quoted(env)) + rest)
  {
    hide Section, EndpointBlock, Variables, FileLines, DatabaseBlock, SlaveBlocks, MeiliBlock, Put, Secret, RoleSection, RoleSays;
    var v := Quoted(env);
    var lines := FileLines(p, v) + rest;
    VariablesListed(p);
    VariableStands(p, env, secrets, ("DB_PASSWORD", p.dbPass));
    DatabaseReads(p, v, rest);
    if p.slaves.Some? {
      SlavesRead(p, v, rest);
    }
    RedisReads(p, v, rest);
    EndpointSecret(p, env, secrets, p.redis, "REDIS_PASSWORD");
    RolesRead(p, v, rest);
    RoleSaid(p, env, secrets, JobQueue, "redisForJobQueue:", lines);
    RoleSaid(p, env, secrets, Pubsub, "redisForPubsub:", lines);
    RoleSaid(p, env, secrets, Timelines, "redisForTimelines:", lines);
    RoleSaid(p, env, secrets, Reactions, "redisForReactions:", lines);
    if p.meili.Some? {
      MeiliReads(p, v, rest);
      VariableStands(p, env, secrets, ("MEILI_KEY", p.meili.value.key));
    }
  }

  /**
   From the plan to the file: when no secret holds the placeholder of a later name, the script leaves a
   file in which every section says what the plan and the Secrets say.
   */
  lemma ScriptedFileSays(p: Config.Plan, env: map<string, string>, secrets: map<Selector, string>)
    requires CleanPlan(p) && Wordy(p) && Provides(env, Variables(p), secrets)
    requires forall i: nat, j: nat :: !Rewritten(p, env, i, j)
    ensures FileSays(p, secrets, SplitLines(Sequential(Flatten(Chunks(p)), NAMES, Quoted(env))))
  {
    hide Chunks, Variables, Quoted, Sequential, Substitute, Flatten, CleanPlan, Wordy, Rewritten, SplitLines, Appendix, FileSays,
      FileLines;
    ScriptIff(p, env, secrets);
    QuotedOneLine(env);
    FileSplits(p, Quoted(env));
    PutsSay(p, env, secrets, SplitLines(Appendix(p)));
  }
}

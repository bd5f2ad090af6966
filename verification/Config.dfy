/**
 Misskey's default.yml: the renderer that leaves a placeholder for every secret, the variables
 an init container gets for them, and the script that fills them in.
 */
module Config {
  import opened Wrappers
  import opened Text
  import opened Template
  import opened ObjectStorage

  // ----- Quoting -----

  function HexDigit(n: nat): char
    requires n < 16
  {
    if n < 10 then '0' + n as char else 'a' + (n - 10) as char
  }

  /** One character of a JSON string. Go also escapes what matters in HTML and the line separators. */
  function Escaped(c: char, html: bool): string {
    if c == '"' then "\\\""
    else if c == '\\' then "\\\\"
    else if c == '\n' then "\\n"
    else if c == '\r' then "\\r"
    else if c == '\t' then "\\t"
    else if c == '\U{08}' then "\\b"
    else if c == '\U{0c}' then "\\f"
    else if c < ' ' then "\\u00" + [HexDigit(c as nat / 16), HexDigit(c as nat % 16)]
    else if html && c == '<' then "\\u003c"
    else if html && c == '>' then "\\u003e"
    else if html && c == '&' then "\\u0026"
    else if html && c == '\U{2028}' then "\\u2028"
    else if html && c == '\U{2029}' then "\\u2029"
    else [c]
  }

  function Escape(s: string, html: bool): string {
    if s == "" then "" else Escaped(s[0], html) + Escape(s[1..], html)
  }

  function Quote(s: string, html: bool): string {
    "\"" + Escape(s, html) + "\""
  }

  lemma EscapedKeeps(c: char, html: bool)
    ensures Escaped(c, html) == [c] || (c != DOLLAR && c != OPEN && Free(Escaped(c, html), DOLLAR) && Free(Escaped(c, html), OPEN))
    ensures Escaped(c, html) != ""
  {
  }

  lemma {:induction false} EscapeClean(s: string, html: bool)
    requires Clean(s)
    ensures Clean(Escape(s, html))
    ensures s != "" ==> Escape(s, html) != "" && (Escape(s, html)[0] == OPEN ==> s[0] == OPEN)
  {
    if s != "" {
      hide Escaped;
      var a, b := Escaped(s[0], html), Escape(s[1..], html);
      EscapedKeeps(s[0], html);
      EscapeClean(s[1..], html);
      assert Escape(s, html) == a + b;
      assert Clean(a);
      CleanConcat(a, b);
    }
  }

  /** Quoting brings in no placeholder. */
  lemma QuoteClosed(s: string, html: bool)
    requires Clean(s)
    ensures Closed(Quote(s, html)) && Quote(s, html)[0] == '"'
  {
    EscapeClean(s, html);
    CleanConcat("\"", Escape(s, html));
    CleanConcat("\"" + Escape(s, html), "\"");
  }

  // ----- The resolved plan -----

  datatype HostPort = HostPort(host: string, port: int)

  datatype Endpoint = Endpoint(
    host: string, port: int, db: int, sentinels: seq<HostPort>, master: string, pass: Option<Selector>, tls: bool)

  datatype Slave = Slave(host: string, port: int, db: string, user: string)

  datatype Meili = Meili(host: string, port: int, ssl: bool, index: string, scope: string, key: Selector)

  datatype Role = JobQueue | Pubsub | Timelines | Reactions

  const ROLES: seq<Role> := [JobQueue, Pubsub, Timelines, Reactions]

  function ConfigKey(r: Role): string {
    match r
    case JobQueue => "redisForJobQueue"
    case Pubsub => "redisForPubsub"
    case Timelines => "redisForTimelines"
    case Reactions => "redisForReactions"
  }

  const DB_PASSWORD := "DB_PASSWORD"
  const MEILI_KEY := "MEILI_KEY"
  const REDIS_PASSWORD := "REDIS_PASSWORD"
  const SETUP_PASSWORD := "SETUP_PASSWORD"

  function PassEnv(r: Role): string {
    match r
    case JobQueue => "REDIS_PASSWORD_JOBQUEUE"
    case Pubsub => "REDIS_PASSWORD_PUBSUB"
    case Timelines => "REDIS_PASSWORD_TIMELINES"
    case Reactions => "REDIS_PASSWORD_REACTIONS"
  }

  /** `knobs` is the text of the optional performance, proxy and media settings. */
  datatype Plan = Plan(
    url: string, setup: Option<Selector>,
    dbHost: string, dbPort: int, dbName: string, dbUser: string, dbPass: Selector, slaves: Option<seq<Slave>>,
    redis: Endpoint, roles: map<Role, Endpoint>,
    provider: string, meili: Option<Meili>,
    idMethod: string, proxyRemoteFiles: bool, knobs: string, extraConfig: string)

  // ----- The template -----

  function Line(key: string, body: string): Chunk {
    Lit(key + body + "\n")
  }

  function Yq(s: string): string {
    Quote(s, true)
  }

  function BoolText(b: bool): string {
    if b then "true" else "false"
  }

  function SecretLine(key: string, env: string): seq<Chunk> {
    [Lit(key), Hole(env), Lit("\n")]
  }

  function SentinelLines(s: HostPort): seq<Chunk> {
    [Line("    - host: ", Yq(s.host)), Line("      port: ", IntText(s.port))]
  }

  function SentinelsUpTo(ep: Endpoint, n: nat): seq<Chunk>
    requires n <= |ep.sentinels|
  {
    if n == 0 then [] else SentinelsUpTo(ep, n - 1) + SentinelLines(ep.sentinels[n - 1])
  }

  function AddressPart(key: string, ep: Endpoint): seq<Chunk> {
    [Line(key, ":"), Line("  host: ", Yq(ep.host)), Line("  port: ", IntText(ep.port))]
    + (if ep.db != 0 then [Line("  db: ", IntText(ep.db))] else [])
  }

  function SentinelPart(ep: Endpoint): seq<Chunk> {
    if ep.sentinels == [] then []
    else [Lit("  sentinels:\n")] + SentinelsUpTo(ep, |ep.sentinels|) + [Line("  name: ", Yq(ep.master))]
  }

  function PassPart(ep: Endpoint, env: string): seq<Chunk> {
    if ep.pass.None? then []
    else SecretLine("  pass: ", env) + if ep.sentinels != [] then SecretLine("  sentinelPassword: ", env) else []
  }

  function TlsPart(ep: Endpoint): seq<Chunk> {
    if ep.tls then [Lit("  tls: {}\n")] else []
  }

  function RedisBlock(key: string, ep: Endpoint, env: string): seq<Chunk> {
    AddressPart(key, ep) + SentinelPart(ep) + PassPart(ep, env) + TlsPart(ep)
  }

  function HeadPart(p: Plan): seq<Chunk> {
    [Lit("# Managed by cloudnative-misskey. "), Lit("Do not edit by hand.\n"), Line("url: ", Yq(p.url)), Lit("port: 3000\n\n")]
  }

  function SetupPart(p: Plan): seq<Chunk> {
    if p.setup.Some? then SecretLine("setupPassword: ", SETUP_PASSWORD) + [Lit("\n")] else []
  }

  function DatabasePart(p: Plan): seq<Chunk> {
    [Lit("db:\n"), Line("  host: ", Yq(p.dbHost)), Line("  port: ", IntText(p.dbPort)), Line("  db: ", Yq(p.dbName)),
     Line("  user: ", Yq(p.dbUser))] + SecretLine("  pass: ", DB_PASSWORD)
  }

  function SlaveLines(s: Slave): seq<Chunk> {
    [Line("  - host: ", Yq(s.host)), Line("    port: ", IntText(s.port)), Line("    db: ", Yq(s.db)),
     Line("    user: ", Yq(s.user))] + SecretLine("    pass: ", DB_PASSWORD)
  }

  function SlavesUpTo(slaves: seq<Slave>, n: nat): seq<Chunk>
    requires n <= |slaves|
  {
    if n == 0 then [] else SlavesUpTo(slaves, n - 1) + SlaveLines(slaves[n - 1])
  }

  function SlavesPart(p: Plan): seq<Chunk> {
    if p.slaves.None? then [Lit("dbReplications: false\n\n")]
    else [Lit("dbReplications: true\n"), Lit("dbSlaves:\n")] + SlavesUpTo(p.slaves.value, |p.slaves.value|) + [Lit("\n")]
  }

  function RoleBlock(p: Plan, r: Role): seq<Chunk> {
    if r in p.roles then RedisBlock(ConfigKey(r), p.roles[r], PassEnv(r)) else []
  }

  function RolesUpTo(p: Plan, n: nat): seq<Chunk>
    requires n <= |ROLES|
  {
    if n == 0 then [] else RolesUpTo(p, n - 1) + RoleBlock(p, ROLES[n - 1])
  }

  function SearchPart(p: Plan): seq<Chunk> {
    [Lit("\n"), Lit("fulltextSearch:\n"), Line("  provider: ", p.provider)]
  }

  function MeiliPart(p: Plan): seq<Chunk> {
    if p.meili.None? then []
    else
      var m := p.meili.value;
      [Lit("\nmeilisearch:\n"), Line("  host: ", Yq(m.host)), Line("  port: ", IntText(m.port))]
      + SecretLine("  apiKey: ", MEILI_KEY)
      + [Line("  ssl: ", BoolText(m.ssl)), Line("  index: ", Yq(m.index)), Line("  scope: ", m.scope)]
  }

  function TailPart(p: Plan): seq<Chunk> {
    [Lit("\n"), Line("id: '", p.idMethod + "'"), Line("proxyRemoteFiles: ", BoolText(p.proxyRemoteFiles)),
     Line("signToActivityPubGet: ", BoolText(true))]
    + (if p.knobs == "" then [] else [Lit(p.knobs)])
  }

  predicate IsSpace(c: char) {
    c in " \t\n\r" || c == '\U{0b}' || c == '\U{0c}' || c == '\U{85}' || c == '\U{a0}' || c == '\U{1680}'
    || '\U{2000}' <= c <= '\U{200a}' || c == '\U{2028}' || c == '\U{2029}' || c == '\U{202f}' || c == '\U{205f}'
    || c == '\U{3000}'
  }

  predicate Blank(s: string) {
    forall i | 0 <= i < |s| :: IsSpace(s[i])
  }

  function TrimNewlines(s: string): string {
    if s != "" && s[|s| - 1] == '\n' then TrimNewlines(s[..|s| - 1]) else s
  }

  /** Of ASCII the white space is space, tab, line feed, vertical tab, form feed and carriage return. */
  lemma SpaceInAscii(c: char)
    requires c as nat < 128
    ensures IsSpace(c) <==> c == ' ' || 9 <= c as nat <= 13
  {
  }

  /** A text is blank when there is nothing in it but white space. */
  lemma BlankIff(s: string)
    ensures Blank(s) <==> forall c | c in s :: IsSpace(c)
  {
    if Blank(s) {
      forall c | c in s ensures IsSpace(c) {
        var i :| 0 <= i < |s| && s[i] == c;
      }
    }
  }

  /** Only line feeds at the end are cut off, and all of them. */
  lemma {:induction false} TrimCuts(s: string)
    ensures TrimNewlines(s) <= s && forall i | |TrimNewlines(s)| <= i < |s| :: s[i] == '\n'
    ensures TrimNewlines(s) == "" || TrimNewlines(s)[|TrimNewlines(s)| - 1] != '\n'
  {
    if s != "" && s[|s| - 1] == '\n' {
      TrimCuts(s[..|s| - 1]);
    }
  }

  function ExtraPart(p: Plan): seq<Chunk> {
    if Blank(p.extraConfig) then [] else [Lit("\n# --- extraConfig ---\n"), Line("", TrimNewlines(p.extraConfig))]
  }

  function FirstHalf(p: Plan): seq<Chunk> {
    HeadPart(p) + SetupPart(p) + DatabasePart(p) + SlavesPart(p)
  }

  function SecondHalf(p: Plan): seq<Chunk> {
    RedisBlock("redis", p.redis, REDIS_PASSWORD) + RolesUpTo(p, |ROLES|) + SearchPart(p) + MeiliPart(p) + TailPart(p)
    + ExtraPart(p)
  }

  function Chunks(p: Plan): seq<Chunk> {
    FirstHalf(p) + SecondHalf(p)
  }

  // ----- The renderer -----

  lemma TakeNext(a: seq<Chunk>, b: seq<Chunk>, i: nat)
    requires i < |b|
    ensures a + b[..i] + [b[i]] == a + b[..i + 1]
  {
  }

  /** The buffer the renderer writes to. */
  class Writer {
    var text: string
    ghost var chunks: seq<Chunk>

    ghost predicate Valid()
      reads this
    {
      text == Flatten(chunks)
    }

    constructor ()
      ensures Valid() && chunks == []
    {
      text, chunks := "", [];
    }

    method Put(cs: seq<Chunk>)
      requires Valid()
      modifies this
      ensures Valid() && chunks == old(chunks) + cs
    {
      hide Flatten, TextOf;
      assert old(chunks) + cs[..0] == chunks;
      for i := 0 to |cs|
        invariant Valid() && chunks == old(chunks) + cs[..i]
      {
        FlattenNext(chunks, cs[i]);
        TakeNext(old(chunks), cs, i);
        text, chunks := text + TextOf(cs[i]), chunks + [cs[i]];
      }
      assert cs[..|cs|] == cs;
    }
  }

  method RenderSentinels(w: Writer, ep: Endpoint)
    requires w.Valid()
    modifies w
    ensures w.Valid() && w.chunks == old(w.chunks) + SentinelPart(ep)
  {
    hide Line, Yq, IntText, Flatten, SentinelLines;
    if ep.sentinels != [] {
      w.Put([Lit("  sentinels:\n")]);
      ghost var start := w.chunks;
      for i := 0 to |ep.sentinels|
        invariant w.Valid() && w.chunks == start + SentinelsUpTo(ep, i)
      {
        w.Put(SentinelLines(ep.sentinels[i]));
      }
      w.Put([Line("  name: ", Yq(ep.master))]);
    }
  }

  method RenderRedisBlock(w: Writer, key: string, ep: Endpoint, env: string)
    requires w.Valid()
    modifies w
    ensures w.Valid() && w.chunks == old(w.chunks) + RedisBlock(key, ep, env)
  {
    hide Flatten, AddressPart, SentinelPart, PassPart, TlsPart;
    w.Put(AddressPart(key, ep));
    RenderSentinels(w, ep);
    w.Put(PassPart(ep, env));
    w.Put(TlsPart(ep));
  }

  /** default.yml is the text of the template. */
  method RenderDefaultYml(p: Plan) returns (text: string)
    ensures text == Flatten(Chunks(p))
  {
    hide Flatten, HeadPart, SetupPart, DatabasePart, SlavesPart, RedisBlock, RolesUpTo, SearchPart, MeiliPart, TailPart, ExtraPart;
    var w := new Writer();
    w.Put(HeadPart(p));
    w.Put(SetupPart(p));
    w.Put(DatabasePart(p));
    RenderSlaves(w, p);
    assert w.chunks == FirstHalf(p);
    hide FirstHalf;
    RenderRedisBlock(w, "redis", p.redis, REDIS_PASSWORD);
    RenderRoles(w, p);
    w.Put(SearchPart(p));
    w.Put(MeiliPart(p));
    w.Put(TailPart(p));
    w.Put(ExtraPart(p));
    assert w.chunks == FirstHalf(p) + SecondHalf(p);
    text := w.text;
  }

  /** The blocks of the roles that have a Redis of their own, in order. */
  method RenderRoles(w: Writer, p: Plan)
    requires w.Valid()
    modifies w
    ensures w.Valid() && w.chunks == old(w.chunks) + RolesUpTo(p, |ROLES|)
  {
    hide Flatten, RedisBlock, ConfigKey, PassEnv;
    for i := 0 to |ROLES|
      invariant w.Valid() && w.chunks == old(w.chunks) + RolesUpTo(p, i)
    {
      if ROLES[i] in p.roles {
        RenderRedisBlock(w, ConfigKey(ROLES[i]), p.roles[ROLES[i]], PassEnv(ROLES[i]));
      }
    }
  }

  method RenderSlaves(w: Writer, p: Plan)
    requires w.Valid()
    modifies w
    ensures w.Valid() && w.chunks == old(w.chunks) + SlavesPart(p)
  {
    hide Flatten, SlaveLines;
    if p.slaves.None? {
      w.Put([Lit("dbReplications: false\n\n")]);
    } else {
      w.Put([Lit("dbReplications: true\n"), Lit("dbSlaves:\n")]);
      ghost var start := w.chunks;
      for i := 0 to |p.slaves.value|
        invariant w.Valid() && w.chunks == start + SlavesUpTo(p.slaves.value, i)
      {
        w.Put(SlaveLines(p.slaves.value[i]));
      }
      w.Put([Lit("\n")]);
    }
  }
}

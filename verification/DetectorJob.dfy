/**
 The hash that names the Sensitive Detector's configuration Job. What is hashed is a list of
 strings, each ended by a NUL; the hash stands for that text.
 */
module DetectorJob {
  import opened Wrappers
  import opened Text
  import opened Psql
  import opened ObjectStorage
  import opened ObjectStorageScript
  import opened ObjectStorageJob

  const DEFAULT_IMAGE := "ghcr.io/cloudnative-pg/postgresql:17"

  datatype Detector = Detector(
    mode: string, sensitivity: string, setFlag: bool, videos: bool, timeout: int, maxImages: int,
    url: string, apiKey: Selector, configJobImage: string)

  /** What one pass sees: the spec's part, and the versions of the Secrets it reads. */
  datatype State = State(
    db: Database, pullSecrets: seq<string>, detector: Option<Detector>, passwordVersion: string, keyVersion: string)

  function Or(s: string, default: string): string {
    if s == "" then default else s
  }

  function IntOr(n: int, default: int): int {
    if n == 0 then default else n
  }

  // ----- The script -----

  datatype Field = Mode | Sensitivity | SetFlag | Videos | Url | Key | Timeout | MaxImages

  const FIELDS: seq<Field> := [Mode, Sensitivity, SetFlag, Videos, Url, Key, Timeout, MaxImages]

  const MEDIA := "sensitiveMediaDetection"
  const ENABLE := "enableSensitiveMediaDetection"
  const LOWER := "sensitive_detector_"
  const UPPER := "SENSITIVE_DETECTOR_"

  function ColumnStart(f: Field): string {
    match f
    case SetFlag => "setSensitive"
    case Videos => ENABLE
    case _ => MEDIA
  }

  function ColumnEnd(f: Field): string {
    match f
    case Mode => ""
    case Sensitivity => "Sensitivity"
    case SetFlag => "FlagAutomatically"
    case Videos => "ForVideos"
    case Url => "ApiUrl"
    case Key => "ApiKey"
    case Timeout => "Timeout"
    case MaxImages => "MaxImagesPerRequest"
  }

  function ColumnOf(f: Field): string {
    ColumnStart(f) + ColumnEnd(f)
  }

  function VarEnd(f: Field): string {
    match f
    case Mode => "mode"
    case Sensitivity => "sensitivity"
    case Url => "url"
    case _ => "key"
  }

  function EnvEnd(f: Field): string {
    match f
    case Mode => "MODE"
    case Sensitivity => "SENSITIVITY"
    case Url => "URL"
    case _ => "API_KEY"
  }

  function VarName(f: Field): string {
    LOWER + VarEnd(f)
  }

  function EnvName(f: Field): string {
    UPPER + EnvEnd(f)
  }

  /** What the Job sets a column to. */
  function Assigned(d: Option<Detector>, f: Field): Assignment {
    var c := ColumnOf(f);
    if d.None? then
      match f
      case Mode => Literal(c, Str("none"))
      case Sensitivity => Literal(c, Str("medium"))
      case SetFlag => Literal(c, Bool(false))
      case Videos => Literal(c, Bool(false))
      case Url => Literal(c, Null)
      case Key => Literal(c, Null)
      case Timeout => Literal(c, Int(60000))
      case MaxImages => Literal(c, Int(4))
    else
      match f
      case Mode => Plain(c, EnvName(f), VarName(f), d.value.mode)
      case Sensitivity => Plain(c, EnvName(f), VarName(f), Or(d.value.sensitivity, "medium"))
      case SetFlag => Literal(c, Bool(d.value.setFlag))
      case Videos => Literal(c, Bool(d.value.videos))
      case Url => Plain(c, EnvName(f), VarName(f), d.value.url)
      case Key => Secret(c, EnvName(f), VarName(f), d.value.apiKey)
      case Timeout => Literal(c, Int(IntOr(d.value.timeout, 60000)))
      case MaxImages => Literal(c, Int(IntOr(d.value.maxImages, 4)))
  }

  function AllAssigned(d: Option<Detector>): seq<Assignment> {
    seq(|FIELDS|, i requires 0 <= i < |FIELDS| => Assigned(d, FIELDS[i]))
  }

  /** The script has the shape of the object storage one. */
  function Sql(d: Option<Detector>): string {
    JoinLines(ScriptLines(AllAssigned(d)))
  }

  // ----- The Job -----

  function DetectorEnv(d: Option<Detector>): seq<EnvVar> {
    EnvVars(AllAssigned(d))
  }

  /** The parts of the Job that are not the same for every spec. */
  datatype ConfigJob = ConfigJob(sql: string, image: string, env: seq<EnvVar>, pullSecrets: seq<string>)

  function ConfigImage(d: Option<Detector>): string {
    if d.None? then DEFAULT_IMAGE else Or(d.value.configJobImage, DEFAULT_IMAGE)
  }

  function JobOf(s: State): ConfigJob {
    ConfigJob(Sql(s.detector), ConfigImage(s.detector), DatabaseEnv(s.db) + DetectorEnv(s.detector), s.pullSecrets)
  }

  // ----- What is hashed -----

  function Encode(fields: seq<string>): string {
    if fields == [] then "" else Encode(fields[..|fields| - 1]) + fields[|fields| - 1] + [NUL]
  }

  function DatabaseFields(s: State): seq<string> {
    [Sql(s.detector), s.db.host, IntText(s.db.port), s.db.name, s.db.user, s.db.password.name, s.db.password.key,
     s.passwordVersion, NatText(|s.pullSecrets|)]
  }

  function DetectorFields(s: State): seq<string> {
    if s.detector.None? then []
    else
      var d := s.detector.value;
      [d.mode, Or(d.sensitivity, "medium"), d.url, d.apiKey.name, d.apiKey.key, ConfigImage(s.detector), s.keyVersion]
  }

  function Fields(s: State): seq<string> {
    DatabaseFields(s) + s.pullSecrets + DetectorFields(s)
  }

  function Preimage(s: State): string {
    Encode(Fields(s))
  }

  lemma EncodeNext(fields: seq<string>, f: string)
    ensures Encode(fields + [f]) == Encode(fields) + f + [NUL]
  {
    assert (fields + [f])[..|fields|] == fields;
  }

  lemma EncodeNone()
    ensures Encode([]) == ""
  {
  }

  /** The text as it is written: reading a Secret may fail, and then there is no hash. */
  method Write(s: State, passwordRead: bool, keyRead: bool) returns (r: Option<string>)
    ensures r.Some? <==> passwordRead && (s.detector.Some? ==> keyRead)
    ensures r.Some? ==> r.value == Preimage(s)
  {
    hide Encode, Sql, IntText, NatText;
    if !passwordRead {
      return None;
    }
    EncodeNone();
    var h := WriteAll("", [], DatabaseFields(s));
    assert [] + DatabaseFields(s) == DatabaseFields(s);
    h := WriteAll(h, DatabaseFields(s), s.pullSecrets);
    if s.detector.Some? && !keyRead {
      return None;
    }
    h := WriteAll(h, DatabaseFields(s) + s.pullSecrets, DetectorFields(s));
    return Some(h);
  }

  method WriteAll(h: string, ghost written: seq<string>, more: seq<string>) returns (r: string)
    requires h == Encode(written)
    ensures r == Encode(written + more)
  {
    hide Encode;
    r := h;
    assert written + more[..0] == written;
    for i := 0 to |more|
      invariant r == Encode(written + more[..i])
    {
      EncodeNext(written + more[..i], more[i]);
      assert written + more[..i] + [more[i]] == written + more[..i + 1];
      r := r + more[i] + [NUL];
    }
    assert more[..|more|] == more;
  }

  // ----- Unique decoding -----

  lemma {:induction false} EncodeFirst(f: string, rest: seq<string>)
    ensures Encode([f] + rest) == f + [NUL] + Encode(rest)
  {
    var all := [f] + rest;
    if rest == [] {
      assert all[..0] == [];
    } else {
      var n := |rest| - 1;
      assert all[..|all| - 1] == [f] + rest[..n];
      EncodeFirst(f, rest[..n]);
    }
  }

  /** Over NUL-free strings the text determines the fields. */
  lemma {:induction false} EncodeInjective(a: seq<string>, b: seq<string>)
    requires AllFree(a, NUL) && AllFree(b, NUL) && Encode(a) == Encode(b)
    ensures a == b
  {
    if a != [] && b != [] {
      assert a == [a[0]] + a[1..] && b == [b[0]] + b[1..];
      EncodeFirst(a[0], a[1..]);
      EncodeFirst(b[0], b[1..]);
      FirstSeparator(a[0], b[0], Encode(a[1..]), Encode(b[1..]), NUL);
      EncodeInjective(a[1..], b[1..]);
    }
  }

  /** Strings with a NUL in them can be confused. */
  lemma EncodeAmbiguous()
    ensures Encode(["a\0b"]) == Encode(["a", "b"])
  {
    EncodeFirst("a\0b", []);
    EncodeFirst("a", ["b"]);
    EncodeFirst("b", []);
    assert ["a\0b"] + [] == ["a\0b"] && ["b"] + [] == ["b"] && ["a"] + ["b"] == ["a", "b"];
    assert "a\0b" + [NUL] + "" == "a" + [NUL] + ("b" + [NUL] + "");
  }

  // ----- The strings the operator itself writes -----

  lemma StartLetters(f: Field)
    ensures SafeIdent(ColumnStart(f))
  {
  }

  lemma EndLetters(f: Field)
    ensures ColumnEnd(f) == "" || SafeIdent(ColumnEnd(f))
  {
  }

  lemma Letters(f: Field)
    ensures SafeIdent(ColumnOf(f))
  {
    hide ColumnStart, ColumnEnd;
    StartLetters(f);
    EndLetters(f);
  }

  lemma ColumnInjective(f: Field, g: Field)
    requires ColumnOf(f) == ColumnOf(g)
    ensures f == g
  {
    if ColumnStart(f) == MEDIA == ColumnStart(g) {
      PrefixInjective(MEDIA, ColumnEnd(f), ColumnEnd(g));
    } else {
      assert ColumnOf(f)[0] == ColumnStart(f)[0] && ColumnOf(g)[0] == ColumnStart(g)[0];
      assert ColumnOf(f)[2] == ColumnStart(f)[2] && ColumnOf(g)[2] == ColumnStart(g)[2];
    }
  }

  lemma NamesTame(f: Field)
    ensures Tame(VarName(f)) && Tame(EnvName(f))
  {
    assert Tame(LOWER) && Tame(UPPER) && Tame(VarEnd(f)) && Tame(EnvEnd(f));
    hide Tame, VarEnd, EnvEnd;
    TameConcat(UPPER, EnvEnd(f));
    TameConcat(LOWER, VarEnd(f));
  }

  lemma AssignedWellFormed(d: Option<Detector>, f: Field)
    ensures WellFormed(Assigned(d, f))
  {
    assert Tame("none") && Tame("medium");
    hide ColumnOf, SafeIdent, Tame, VarName, EnvName;
    Letters(f);
    NamesTame(f);
  }

  lemma AssignedApart(d: Option<Detector>, f: Field, g: Field)
    requires f != g && !Assigned(d, f).Literal? && !Assigned(d, g).Literal?
    ensures Assigned(d, f).name != Assigned(d, g).name && Assigned(d, f).env != Assigned(d, g).env
  {
    hide ColumnOf;
    assert VarEnd(f) != VarEnd(g) && EnvEnd(f) != EnvEnd(g);
    hide VarEnd, EnvEnd;
    if VarName(f) == VarName(g) {
      PrefixInjective(LOWER, VarEnd(f), VarEnd(g));
    }
    if EnvName(f) == EnvName(g) {
      PrefixInjective(UPPER, EnvEnd(f), EnvEnd(g));
    }
  }

  lemma FieldsDistinct(i: nat, j: nat)
    requires i < j < |FIELDS|
    ensures FIELDS[i] != FIELDS[j]
  {
  }

  lemma AllAssignedSound(d: Option<Detector>)
    ensures Sound(AllAssigned(d)) && Distinct(ObjectStorageScript.ColumnsOf(AllAssigned(d)))
  {
    hide Assigned, WellFormed, ColumnOf;
    var a := AllAssigned(d);
    forall i | 0 <= i < |a| ensures WellFormed(a[i]) && a[i].column == ColumnOf(FIELDS[i]) {
      AssignedWellFormed(d, FIELDS[i]);
      AssignedColumn(d, FIELDS[i]);
    }
    forall i, j | 0 <= i < j < |a| ensures a[i].column != a[j].column {
      FieldsDistinct(i, j);
      if a[i].column == a[j].column {
        ColumnInjective(FIELDS[i], FIELDS[j]);
      }
    }
    forall i, j | 0 <= i < j < |a| && !a[i].Literal? && !a[j].Literal?
      ensures a[i].name != a[j].name && a[i].env != a[j].env
    {
      FieldsDistinct(i, j);
      AssignedApart(d, FIELDS[i], FIELDS[j]);
    }
  }

  lemma AssignedColumn(d: Option<Detector>, f: Field)
    ensures Assigned(d, f).column == ColumnOf(f)
  {
  }

  lemma SqlFree(d: Option<Detector>)
    ensures Free(Sql(d), NUL)
  {
    hide Sound, AllAssigned, ScriptLines, JoinLines;
    AllAssignedSound(d);
    ScriptFree(AllAssigned(d), NUL);
    JoinFree(ScriptLines(AllAssigned(d)), NUL);
  }

  lemma NumberFree(n: int)
    ensures Free(IntText(n), NUL) && (n >= 0 ==> Free(NatText(n), NUL))
  {
    NatRoundTrip(if n < 0 then -n else n);
  }

  // ----- The hash covers the Job -----

  /** The user's strings and the versions hold no NUL. */
  predicate Clean(s: State) {
    && Free(s.db.host, NUL) && Free(s.db.name, NUL) && Free(s.db.user, NUL)
    && Free(s.db.password.name, NUL) && Free(s.db.password.key, NUL) && Free(s.passwordVersion, NUL)
    && AllFree(s.pullSecrets, NUL)
    && (s.detector.Some? ==>
          var d := s.detector.value;
          && Free(d.mode, NUL) && Free(d.sensitivity, NUL) && Free(d.url, NUL) && Free(d.apiKey.name, NUL)
          && Free(d.apiKey.key, NUL) && Free(d.configJobImage, NUL) && Free(s.keyVersion, NUL))
  }

  lemma FieldsFree(s: State)
    requires Clean(s)
    ensures AllFree(Fields(s), NUL)
  {
    hide Sql, IntText, NatText;
    SqlFree(s.detector);
    NumberFree(s.db.port);
    NumberFree(|s.pullSecrets|);
    assert Free(DEFAULT_IMAGE, NUL) && Free("medium", NUL);
    hide Free;
    assert AllFree(DatabaseFields(s), NUL);
    assert AllFree(DetectorFields(s), NUL);
  }

  /** The fields are known from their list: the count says where the pull secrets end. */
  lemma FieldsApart(s: State, t: State)
    requires Fields(s) == Fields(t)
    ensures DatabaseFields(s) == DatabaseFields(t) && s.pullSecrets == t.pullSecrets
    ensures DetectorFields(s) == DetectorFields(t)
  {
    var f, g := Fields(s), Fields(t);
    assert DatabaseFields(s) == f[..9] && DatabaseFields(t) == g[..9];
    assert f[8] == NatText(|s.pullSecrets|) && g[8] == NatText(|t.pullSecrets|);
    NatTextInjective(|s.pullSecrets|, |t.pullSecrets|);
    var n := 9 + |s.pullSecrets|;
    assert s.pullSecrets == f[9..n] && t.pullSecrets == g[9..n];
    assert DetectorFields(s) == f[n..] && DetectorFields(t) == g[n..];
  }

  /** The versions a Job depends on. */
  predicate SameVersions(s: State, t: State) {
    s.passwordVersion == t.passwordVersion && (s.detector.Some? && t.detector.Some? ==> s.keyVersion == t.keyVersion)
  }

  lemma IntTextInjective(m: int, n: int)
    requires IntText(m) == IntText(n)
    ensures m == n
  {
    IntRoundTrip(m);
    IntRoundTrip(n);
  }

  /** The variables of an enabled detector, written out. */
  lemma DetectorEnvIs(d: Option<Detector>)
    ensures d.None? ==> DetectorEnv(d) == []
    ensures d.Some? ==> DetectorEnv(d) == [
      Given(EnvName(Mode), d.value.mode), Given(EnvName(Sensitivity), Or(d.value.sensitivity, "medium")),
      Given(EnvName(Url), d.value.url), FromSecret(EnvName(Key), d.value.apiKey)]
  {
    hide ColumnOf, Or, VarName, EnvName;
    var a := AllAssigned(d);
    if d.None? {
      forall i | 0 <= i < |a| ensures a[i].Literal? {
        assert a[i] == Assigned(d, FIELDS[i]);
      }
      OnlyLiterals(a);
    } else {
      assert a[0] == Assigned(d, Mode) && a[1] == Assigned(d, Sensitivity) && a[2] == Assigned(d, SetFlag);
      assert a[3] == Assigned(d, Videos) && a[4] == Assigned(d, Url) && a[5] == Assigned(d, Key);
      assert a[6] == Assigned(d, Timeout) && a[7] == Assigned(d, MaxImages);
      FourVariables(a);
    }
  }

  lemma {:induction false} OnlyLiterals(a: seq<Assignment>)
    requires forall i | 0 <= i < |a| :: a[i].Literal?
    ensures EnvVars(a) == []
  {
    if a != [] {
      OnlyLiterals(a[..|a| - 1]);
    }
  }

  lemma FourVariables(a: seq<Assignment>)
    requires |a| == 8 && !a[0].Literal? && !a[1].Literal? && a[2].Literal? && a[3].Literal?
    requires !a[4].Literal? && !a[5].Literal? && a[6].Literal? && a[7].Literal?
    ensures EnvVars(a) == [VarOf(a[0]), VarOf(a[1]), VarOf(a[4]), VarOf(a[5])]
  {
    hide VarOf;
    assert a[..8] == a && a[..0] == [];
    EnvVarsStep(a, 7);
    EnvVarsStep(a, 6);
    EnvVarsStep(a, 5);
    EnvVarsStep(a, 4);
    EnvVarsStep(a, 3);
    EnvVarsStep(a, 2);
    EnvVarsStep(a, 1);
    EnvVarsStep(a, 0);
  }

  lemma EnvVarsStep(a: seq<Assignment>, n: nat)
    requires n < |a|
    ensures EnvVars(a[..n + 1]) == EnvVars(a[..n]) + if a[n].Literal? then [] else [VarOf(a[n])]
  {
    assert a[..n + 1][..n] == a[..n];
  }

  /**
   Two passes hash the same text exactly when they build the same Job and see the same versions
   of its Secrets. In particular an enabled and a disabled spec never share a hash.
   */
  lemma HashCoversJob(s: State, t: State)
    requires Clean(s) && Clean(t)
    ensures Preimage(s) == Preimage(t) <==> JobOf(s) == JobOf(t) && SameVersions(s, t)
    ensures Preimage(s) == Preimage(t) ==> (s.detector.Some? <==> t.detector.Some?)
  {
    hide Sql, Encode, Clean, IntText, NatText, DetectorEnv;
    DetectorEnvIs(s.detector);
    DetectorEnvIs(t.detector);
    if Preimage(s) == Preimage(t) {
      FieldsFree(s);
      FieldsFree(t);
      EncodeInjective(Fields(s), Fields(t));
      FieldsApart(s, t);
      SameFieldsSameJob(s, t);
    }
    if JobOf(s) == JobOf(t) && SameVersions(s, t) {
      SameJobSameFields(s, t);
    }
  }

  lemma SameFieldsSameJob(s: State, t: State)
    requires DatabaseFields(s) == DatabaseFields(t) && s.pullSecrets == t.pullSecrets
    requires DetectorFields(s) == DetectorFields(t)
    ensures JobOf(s) == JobOf(t) && SameVersions(s, t) && (s.detector.Some? <==> t.detector.Some?)
  {
    hide Sql, IntText, NatText, DetectorEnv, Or;
    var f, g := DatabaseFields(s), DatabaseFields(t);
    assert f[0] == g[0] && f[1] == g[1] && f[2] == g[2] && f[3] == g[3] && f[4] == g[4] && f[5] == g[5];
    assert f[6] == g[6] && f[7] == g[7];
    IntTextInjective(s.db.port, t.db.port);
    DetectorEnvIs(s.detector);
    DetectorEnvIs(t.detector);
    if s.detector.Some? {
      var d, e := DetectorFields(s), DetectorFields(t);
      assert |d| == 7 && |e| == 7;
      assert d[0] == e[0] && d[1] == e[1] && d[2] == e[2] && d[3] == e[3] && d[4] == e[4] && d[5] == e[5] && d[6] == e[6];
    }
  }

  lemma SameJobSameFields(s: State, t: State)
    requires JobOf(s) == JobOf(t) && SameVersions(s, t)
    ensures Fields(s) == Fields(t)
  {
    hide Sql, IntText, NatText, DetectorEnv, Or;
    DetectorEnvIs(s.detector);
    DetectorEnvIs(t.detector);
    var f, g := JobOf(s).env, JobOf(t).env;
    assert |DatabaseEnv(s.db)| == 6 && |DatabaseEnv(t.db)| == 6;
    assert f[0] == g[0] && f[1] == g[1] && f[2] == g[2] && f[3] == g[3] && f[4] == g[4];
    assert f[6..] == DetectorEnv(s.detector) && g[6..] == DetectorEnv(t.detector);
    if s.detector.Some? {
      assert f[6..][0] == g[6..][0] && f[6..][1] == g[6..][1] && f[6..][2] == g[6..][2] && f[6..][3] == g[6..][3];
    }
  }

  // ----- What the Job does -----

  /** What the meta row is to hold, given the variables set before that of the field. */
  ghost predicate Wants(d: Option<Detector>, x: Launch, before: Env, f: Field, v: Value) {
    match f
    case Mode => v == Str(if d.None? then "none" else Expand(d.value.mode, before, x.service))
    case Sensitivity => v == Str(if d.None? then "medium" else Expand(Or(d.value.sensitivity, "medium"), before, x.service))
    case SetFlag => v == Bool(d.Some? && d.value.setFlag)
    case Videos => v == Bool(d.Some? && d.value.videos)
    case Url => v == if d.None? then Null else Str(Expand(d.value.url, before, x.service))
    case Key => if d.None? then v == Null else d.value.apiKey in x.secrets && v == Str(x.secrets[d.value.apiKey])
    case Timeout => v == Int(if d.None? then 60000 else IntOr(d.value.timeout, 60000))
    case MaxImages => v == Int(if d.None? then 4 else IntOr(d.value.maxImages, 4))
  }

  ghost function FieldEnv(d: Option<Detector>, x: Launch, f: Field): Env {
    EnvBefore(x, AllAssigned(d), Index(f))
  }

  ghost predicate RowConfigured(d: Option<Detector>, x: Launch, before: Row, after: Row) {
    && (forall f :: ColumnOf(f) in after && Wants(d, x, FieldEnv(d, x, f), f, after[ColumnOf(f)]))
    && (forall c | forall f :: c != ColumnOf(f) :: (c in after <==> c in before) && (c in before ==> after[c] == before[c]))
  }

  ghost function Index(f: Field): (i: nat)
    ensures i < |FIELDS| && FIELDS[i] == f
  {
    match f
    case Mode => 0
    case Sensitivity => 1
    case SetFlag => 2
    case Videos => 3
    case Url => 4
    case Key => 5
    case Timeout => 6
    case MaxImages => 7
  }

  lemma AssignedWants(d: Option<Detector>, f: Field, env: Env, x: Launch, before: Env)
    requires Assigned(d, f).Literal? || Holds(env, Assigned(d, f), x, before)
    ensures Wants(d, x, before, f, ValueOf(Assigned(d, f), env))
  {
    hide ColumnOf, EnvName, VarName, Or, IntOr, Expand;
  }

  ghost predicate Arrived(d: Option<Detector>, env: Env, x: Launch) {
    forall f :: Assigned(d, f).Literal? || Holds(env, Assigned(d, f), x, FieldEnv(d, x, f))
  }

  ghost function SetsFor(d: Option<Detector>, env: Env): Sets {
    SetsOf(AllAssigned(d), |AllAssigned(d)|, env)
  }

  lemma SetsForHolds(d: Option<Detector>, env: Env)
    ensures var s := SetsFor(d, env);
      && (forall i | 0 <= i < |s| :: s[i].0 in AsMap(s) && AsMap(s)[s[i].0] == s[i].1)
      && (forall c | c in AsMap(s) :: exists i :: 0 <= i < |s| && s[i].0 == c)
  {
    hide Assigned, ValueOf, Sound;
    AllAssignedSound(d);
    assert Columns(SetsFor(d, env)) == ColumnsOf(AllAssigned(d));
    AsMapHolds(SetsFor(d, env));
  }

  lemma FieldMet(d: Option<Detector>, env: Env, x: Launch, f: Field)
    requires Arrived(d, env, x)
    ensures ColumnOf(f) in AsMap(SetsFor(d, env))
    ensures Wants(d, x, FieldEnv(d, x, f), f, AsMap(SetsFor(d, env))[ColumnOf(f)])
  {
    hide Assigned, ColumnOf, Wants, ValueOf, AsMap, Holds, FieldEnv;
    SetsForHolds(d, env);
    assert SetsFor(d, env)[Index(f)] == (Assigned(d, f).column, ValueOf(Assigned(d, f), env));
    AssignedColumn(d, f);
    AssignedWants(d, f, env, x, FieldEnv(d, x, f));
  }

  lemma OnlyFields(d: Option<Detector>, env: Env, c: string)
    requires c in AsMap(SetsFor(d, env))
    ensures exists f :: c == ColumnOf(f)
  {
    hide Assigned, ColumnOf, ValueOf, AsMap;
    SetsForHolds(d, env);
    var i :| 0 <= i < |SetsFor(d, env)| && SetsFor(d, env)[i].0 == c;
    AssignedColumn(d, FIELDS[i]);
  }

  lemma RowIsConfigured(d: Option<Detector>, env: Env, x: Launch, r: Row)
    requires Arrived(d, env, x)
    ensures RowConfigured(d, x, r, r + AsMap(SetsFor(d, env)))
  {
    hide Arrived, ColumnOf, Wants, AsMap, FieldEnv, SetsFor;
    var m := AsMap(SetsFor(d, env));
    forall f ensures ColumnOf(f) in m && Wants(d, x, FieldEnv(d, x, f), f, m[ColumnOf(f)]) {
      FieldMet(d, env, x, f);
    }
    forall c | forall f :: c != ColumnOf(f) ensures c !in m {
      if c in m {
        OnlyFields(d, env, c);
      }
    }
  }

  lemma AllArrive(s: State, service: Env, secrets: map<Selector, string>)
    requires Started(JobOf(s).env, service, secrets).Some?
    ensures Arrived(s.detector, service + Started(JobOf(s).env, service, secrets).value, LaunchOf(s.db, service, secrets))
  {
    hide Started, Sound, EnvVars, DatabaseEnv, Holds, Sql, Assigned, EnvBefore;
    var d, a := s.detector, AllAssigned(s.detector);
    var x := LaunchOf(s.db, service, secrets);
    var env := Started(JobOf(s).env, service, secrets).value;
    AllAssignedSound(d);
    forall f ensures Assigned(d, f).Literal? || Holds(service + env, Assigned(d, f), x, FieldEnv(d, x, f)) {
      assert a[Index(f)] == Assigned(d, f);
      if !Assigned(d, f).Literal? {
        EnvHolds(x, a, Index(f));
        HoldsOver(service, env, a[Index(f)], x, FieldEnv(d, x, f));
      }
    }
  }

  /**
   Whenever its container starts, the Job succeeds exactly if the columns exist; then it configures
   row x and touches no other row, and otherwise nothing changes.
   */
  lemma JobConfigures(s: State, service: Env, secrets: map<Selector, string>, t: Table)
    requires Started(JobOf(s).env, service, secrets).Some?
    ensures
      var env := service + Started(JobOf(s).env, service, secrets).value;
      var (ok, after) := Execute(Sql(s.detector), env, t);
      && (ok <==> forall f :: ColumnOf(f) in t.columns)
      && (ok ==> TableConfigured(s.detector, LaunchOf(s.db, service, secrets), InsertRow(t, ROW), after))
      && (!ok ==> after == t)
  {
    hide Started, Sound, EnvVars, DatabaseEnv, JoinLines, ScriptLines, Execute, RowConfigured, Distinct, InsertRow,
      AsMap, SetsOf, Holds, Assigned, ColumnOf, Known, Arrived;
    var d, a := s.detector, AllAssigned(s.detector);
    var x := LaunchOf(s.db, service, secrets);
    var env := service + Started(JobOf(s).env, service, secrets).value;
    AllAssignedSound(d);
    AllArrive(s, service, secrets);
    ArrivedIsProvided(d, env, x);
    ScriptMeans(a, env, t);
    ColumnsKnownIff(d, t.columns);
    forall i | 0 <= i < |InsertRow(t, ROW).rows|
      ensures RowConfigured(d, x, InsertRow(t, ROW).rows[i], InsertRow(t, ROW).rows[i] + AsMap(SetsFor(d, env)))
    {
      RowIsConfigured(d, env, x, InsertRow(t, ROW).rows[i]);
    }
  }

  /** The table after: row x is configured, every other row is as it was. */
  ghost predicate TableConfigured(d: Option<Detector>, x: Launch, before: Table, after: Table) {
    && after.columns == before.columns && after.defaults == before.defaults && |after.rows| == |before.rows|
    && (forall i | 0 <= i < |before.rows| && HasId(before.rows[i], ROW) :: RowConfigured(d, x, before.rows[i], after.rows[i]))
    && (forall i | 0 <= i < |before.rows| && !HasId(before.rows[i], ROW) :: after.rows[i] == before.rows[i])
  }

  lemma ColumnsKnownIff(d: Option<Detector>, columns: set<string>)
    ensures Known(ColumnsOf(AllAssigned(d)), columns) <==> forall f :: ColumnOf(f) in columns
  {
    hide Assigned, ColumnOf;
    var c := ColumnsOf(AllAssigned(d));
    forall i | 0 <= i < |c| ensures c[i] == ColumnOf(FIELDS[i]) {
      AssignedColumn(d, FIELDS[i]);
    }
    if Known(c, columns) {
      forall f ensures ColumnOf(f) in columns {
        assert c[Index(f)] == ColumnOf(f);
      }
    }
  }

  lemma ArrivedIsProvided(d: Option<Detector>, env: Env, x: Launch)
    requires Arrived(d, env, x)
    ensures Provided(AllAssigned(d), env)
  {
    hide Assigned, FieldEnv;
    var a := AllAssigned(d);
    forall i | 0 <= i < |a| && !a[i].Literal? ensures a[i].env in env {
      assert a[i] == Assigned(d, FIELDS[i]);
      assert Holds(env, Assigned(d, FIELDS[i]), x, FieldEnv(d, x, FIELDS[i]));
    }
  }

  lemma WantsAt(d: Option<Detector>, x: Launch, f: Field, before: Row, after: Row)
    requires RowConfigured(d, x, before, after)
    ensures ColumnOf(f) in after && Wants(d, x, FieldEnv(d, x, f), f, after[ColumnOf(f)])
  {
  }

  lemma MediumIntact()
    ensures Intact("medium")
  {
  }

  /** With intact texts the row holds the detector's own settings. */
  lemma IntactIsVerbatim(d: Detector, x: Launch, before: Row, after: Row)
    requires RowConfigured(Some(d), x, before, after)
    requires Intact(d.mode) && Intact(d.sensitivity) && Intact(d.url)
    ensures ColumnOf(Mode) in after && after[ColumnOf(Mode)] == Str(d.mode)
    ensures ColumnOf(Sensitivity) in after && after[ColumnOf(Sensitivity)] == Str(Or(d.sensitivity, "medium"))
    ensures ColumnOf(Url) in after && after[ColumnOf(Url)] == Str(d.url)
  {
    hide Intact, Expand, ColumnOf, FieldEnv, RowConfigured;
    MediumIntact();
    WantsAt(Some(d), x, Mode, before, after);
    WantsAt(Some(d), x, Sensitivity, before, after);
    WantsAt(Some(d), x, Url, before, after);
    IntactStays(d.mode, FieldEnv(Some(d), x, Mode), x.service);
    IntactStays(Or(d.sensitivity, "medium"), FieldEnv(Some(d), x, Sensitivity), x.service);
    IntactStays(d.url, FieldEnv(Some(d), x, Url), x.service);
  }
}

/** What the object storage Job leaves in the meta row, under the names of upstream's columns. */
module ObjectStorageRow {
  import opened Wrappers
  import opened Text
  import opened Psql
  import opened ObjectStorage
  import opened ObjectStorageScript
  import opened ObjectStorageJob

  /** Where a setting is written: to the user's column if one is named, to upstream's otherwise. */
  ghost function At(p: Plan, l: Logical, upstream: string): string {
    if l in p.overrides && p.overrides[l] != "" then p.overrides[l] else upstream
  }

  /** The user's own string stands there, or nothing for an empty one, if it reaches the container unchanged. */
  ghost predicate TextAt(row: Row, column: string, text: string) {
    column in row && (Intact(text) ==> row[column] == if text == "" then Null else Str(text))
  }

  ghost predicate SecretAt(row: Row, column: string, sel: Selector, secrets: map<Selector, string>) {
    column in row && sel in secrets && row[column] == Str(secrets[sel])
  }

  ghost predicate ValueAt(row: Row, column: string, v: Value) {
    column in row && row[column] == v
  }

  /** Every setting of the plan is in its column. */
  ghost predicate RowHolds(p: Plan, secrets: map<Selector, string>, row: Row) {
    TextsIn(p, row) && SecretsIn(p, secrets, row) && SwitchesIn(p, row)
  }

  ghost predicate TextsIn(p: Plan, row: Row) {
    && TextAt(row, At(p, Bucket, "objectStorage" + "Bucket"), p.bucket)
    && TextAt(row, At(p, Endpoint, "objectStorage" + "Endpoint"), p.endpoint)
    && TextAt(row, At(p, Region, "objectStorage" + "Region"), p.region)
    && TextAt(row, At(p, Prefix, "objectStorage" + "Prefix"), p.prefix)
    && TextAt(row, At(p, BaseUrl, "objectStorage" + "BaseUrl"), p.baseUrl)
    && (forall k | k in p.extra :: k in row && (Intact(p.extra[k]) ==> row[k] == Str(p.extra[k])))
  }

  ghost predicate SecretsIn(p: Plan, secrets: map<Selector, string>, row: Row) {
    && SecretAt(row, At(p, AccessKey, "objectStorage" + "AccessKey"), p.accessKey, secrets)
    && SecretAt(row, At(p, SecretKey, "objectStorage" + "SecretKey"), p.secretKey, secrets)
  }

  ghost predicate SwitchesIn(p: Plan, row: Row) {
    && ValueAt(row, At(p, UseObjectStorage, "useObjectStorage"), Bool(true))
    && ValueAt(row, At(p, Port, "objectStorage" + "Port"), if p.port.Some? then Int(p.port.value) else Null)
    && ValueAt(row, At(p, UseSSL, "objectStorage" + "UseSSL"), Bool(p.useSSL))
    && ValueAt(row, At(p, UseProxy, "objectStorage" + "UseProxy"), Bool(p.useProxy))
    && ValueAt(row, At(p, SetPublicRead, "objectStorage" + "SetPublicRead"), Bool(p.setPublicRead))
    && ValueAt(row, At(p, ForcePathStyle, "objectStorage" + "S3ForcePathStyle"), Bool(p.forcePathStyle))
  }

  lemma TextIsAt(p: Plan, x: Launch, l: Logical, text: string, before: Row, after: Row)
    requires RowMeets(p, x, before, after)
    requires forall v, env :: Wanted(p, x, env, l, v) ==> IsText(v, text, x, env)
    ensures TextAt(after, Column(p, l), text)
  {
    hide RowMeets, Column, Intact, Expand, EnvBefore, Compiled, IsText, Wanted;
    WantedStays(p, x, l, before, after);
    if Intact(text) {
      TextStays(after[Column(p, l)], text, x, EnvBefore(x, Compiled(p), PositionIn(p, l)));
    }
  }

  lemma ExtrasHeld(p: Plan, x: Launch, before: Row, after: Row)
    requires RowMeets(p, x, before, after)
    ensures forall k | k in p.extra :: k in after && (Intact(p.extra[k]) ==> after[k] == Str(p.extra[k]))
  {
    hide Wanted, Intact, Expand, EnvBefore, Compiled, Keys, Column;
    forall k | k in p.extra ensures k in after && (Intact(p.extra[k]) ==> after[k] == Str(p.extra[k])) {
      KeysHold(p);
      var i :| 0 <= i < |Keys(p)| && Keys(p)[i] == k;
      if Intact(p.extra[k]) {
        ExtraStays(p, x, k, before, after);
      }
    }
  }

  lemma TextsHeld(p: Plan, x: Launch, before: Row, after: Row)
    requires RowMeets(p, x, before, after)
    ensures TextsIn(p, after)
  {
    hide RowMeets, Column, DefaultColumn, Intact, Expand, EnvBefore, Compiled, IsText, TextAt, At;
    ExtrasHeld(p, x, before, after);
    TextIsAt(p, x, Bucket, p.bucket, before, after);
    TextIsAt(p, x, Endpoint, p.endpoint, before, after);
    TextIsAt(p, x, Region, p.region, before, after);
    TextIsAt(p, x, Prefix, p.prefix, before, after);
    TextIsAt(p, x, BaseUrl, p.baseUrl, before, after);
    ColumnsAre(p);
  }

  /** A row that meets the plan has every setting under its name. */
  lemma MeetsMeansHolds(p: Plan, x: Launch, before: Row, after: Row)
    requires RowMeets(p, x, before, after)
    ensures RowHolds(p, x.secrets, after)
  {
    hide RowMeets, Column, DefaultColumn, EnvBefore, Compiled, IsText, TextsIn, At;
    TextsHeld(p, x, before, after);
    forall l ensures Column(p, l) in after && Wanted(p, x, EnvBefore(x, Compiled(p), PositionIn(p, l)), l, after[Column(p, l)]) {
      WantedStays(p, x, l, before, after);
    }
    ColumnsAre(p);
  }

  lemma ColumnsAre(p: Plan)
    ensures Column(p, UseObjectStorage) == At(p, UseObjectStorage, "useObjectStorage")
    ensures Column(p, Bucket) == At(p, Bucket, "objectStorage" + "Bucket")
    ensures Column(p, Endpoint) == At(p, Endpoint, "objectStorage" + "Endpoint")
    ensures Column(p, Region) == At(p, Region, "objectStorage" + "Region")
    ensures Column(p, Prefix) == At(p, Prefix, "objectStorage" + "Prefix")
    ensures Column(p, BaseUrl) == At(p, BaseUrl, "objectStorage" + "BaseUrl")
    ensures Column(p, Port) == At(p, Port, "objectStorage" + "Port")
    ensures Column(p, AccessKey) == At(p, AccessKey, "objectStorage" + "AccessKey")
    ensures Column(p, SecretKey) == At(p, SecretKey, "objectStorage" + "SecretKey")
    ensures Column(p, UseSSL) == At(p, UseSSL, "objectStorage" + "UseSSL")
    ensures Column(p, UseProxy) == At(p, UseProxy, "objectStorage" + "UseProxy")
    ensures Column(p, SetPublicRead) == At(p, SetPublicRead, "objectStorage" + "SetPublicRead")
    ensures Column(p, ForcePathStyle) == At(p, ForcePathStyle, "objectStorage" + "S3ForcePathStyle")
  {
    SuffixesAre();
    hide Column, At, ColumnSuffix;
    FirstColumn(p);
    ColumnAt(p, Bucket, "Bucket");
    ColumnAt(p, Endpoint, "Endpoint");
    ColumnAt(p, Region, "Region");
    ColumnAt(p, Prefix, "Prefix");
    ColumnAt(p, BaseUrl, "BaseUrl");
    ColumnAt(p, Port, "Port");
    ColumnAt(p, AccessKey, "AccessKey");
    ColumnAt(p, SecretKey, "SecretKey");
    ColumnAt(p, UseSSL, "UseSSL");
    ColumnAt(p, UseProxy, "UseProxy");
    ColumnAt(p, SetPublicRead, "SetPublicRead");
    ColumnAt(p, ForcePathStyle, "S3ForcePathStyle");
  }

  lemma FirstColumn(p: Plan)
    ensures Column(p, UseObjectStorage) == At(p, UseObjectStorage, "useObjectStorage")
  {
  }

  lemma ColumnAt(p: Plan, l: Logical, suffix: string)
    requires l != UseObjectStorage && ColumnSuffix(l) == suffix
    ensures Column(p, l) == At(p, l, "objectStorage" + suffix)
  {
    hide ColumnSuffix;
  }

  lemma SuffixesAre()
    ensures ColumnSuffix(Bucket) == "Bucket" && ColumnSuffix(Endpoint) == "Endpoint" && ColumnSuffix(Region) == "Region"
    ensures ColumnSuffix(Prefix) == "Prefix" && ColumnSuffix(BaseUrl) == "BaseUrl" && ColumnSuffix(Port) == "Port"
    ensures ColumnSuffix(AccessKey) == "AccessKey" && ColumnSuffix(SecretKey) == "SecretKey" && ColumnSuffix(UseSSL) == "UseSSL"
    ensures ColumnSuffix(UseProxy) == "UseProxy" && ColumnSuffix(SetPublicRead) == "SetPublicRead"
    ensures ColumnSuffix(ForcePathStyle) == "S3ForcePathStyle"
  {
  }

  /** A column the user names replaces that of its own setting and no other. */
  lemma OverrideReplacesItsOwn(p: Plan, l: Logical, column: string, k: Logical)
    requires column != ""
    ensures Column(p.(overrides := p.overrides[l := column]), k) == if k == l then column else Column(p, k)
  {
  }

  /**
   Whenever the Job's container starts and its script succeeds, every row whose id is x holds each
   setting of the plan under upstream's name, or the user's for it, and there is such a row.
   */
  lemma JobFillsRow(p: Plan, db: Database, service: Env, secrets: map<Selector, string>, t: Table)
    requires Acceptable(p) && Started(JobOf(p, db).env, service, secrets).Some?
    ensures
      var env := service + Started(JobOf(p, db).env, service, secrets).value;
      var (ok, after) := Execute(JobOf(p, db).sql, env, t);
      ok ==>
        && |after.rows| == |InsertRow(t, "x").rows|
        && (exists i :: 0 <= i < |after.rows| && HasId(InsertRow(t, "x").rows[i], "x"))
        && forall i | 0 <= i < |after.rows| && HasId(InsertRow(t, "x").rows[i], "x") :: RowHolds(p, secrets, after.rows[i])
  {
    hide Compiled, Started, Acceptable, EnvVars, DatabaseEnv, Execute, RowMeets, ColumnsInjective, ColumnsExist, InsertRow, RowHolds;
    JobMeans(p, db, service, secrets, t);
    RowExists(t);
    var env := service + Started(JobOf(p, db).env, service, secrets).value;
    var (ok, after) := Execute(JobOf(p, db).sql, env, t);
    var first := InsertRow(t, "x");
    if ok {
      forall i | 0 <= i < |after.rows| && HasId(first.rows[i], "x") ensures RowHolds(p, secrets, after.rows[i]) {
        MeetsMeansHolds(p, LaunchOf(db, service, secrets), first.rows[i], after.rows[i]);
      }
    }
  }

  /** After the insert there is a row with the id. */
  lemma RowExists(t: Table)
    ensures exists i :: 0 <= i < |InsertRow(t, "x").rows| && HasId(InsertRow(t, "x").rows[i], "x")
  {
    var after := InsertRow(t, "x");
    if i :| 0 <= i < |t.rows| && HasId(t.rows[i], "x") {
      assert HasId(after.rows[i], "x");
    } else {
      assert HasId(after.rows[|t.rows|], "x");
    }
  }

  // ----- When the container starts -----

  /** A container starts exactly when every Secret its variables name is there. */
  lemma {:induction false} StartsIff(list: seq<EnvVar>, service: Env, secrets: map<Selector, string>)
    ensures Started(list, service, secrets).Some? <==> forall i | 0 <= i < |list| && list[i].FromSecret? :: list[i].sel in secrets
  {
    hide Expand;
    if list != [] {
      var n := |list| - 1;
      StartsIff(list[..n], service, secrets);
      assert forall i | 0 <= i < n :: list[..n][i] == list[i];
    }
  }

  ghost function Needed(list: seq<EnvVar>): set<Selector> {
    set i | 0 <= i < |list| && list[i].FromSecret? :: list[i].sel
  }

  ghost function Named(assigns: seq<Assignment>): set<Selector> {
    set i | 0 <= i < |assigns| && assigns[i].Secret? :: assigns[i].sel
  }

  lemma NeededNext(list: seq<EnvVar>, v: EnvVar)
    ensures Needed(list + [v]) == Needed(list) + if v.FromSecret? then {v.sel} else {}
  {
    var all := list + [v];
    assert forall i | 0 <= i < |list| :: all[i] == list[i];
    assert all[|list|] == v;
  }

  lemma NamedNext(assigns: seq<Assignment>)
    requires assigns != []
    ensures
      var n := |assigns| - 1;
      Named(assigns) == Named(assigns[..n]) + if assigns[n].Secret? then {assigns[n].sel} else {}
  {
    var n := |assigns| - 1;
    assert forall i | 0 <= i < n :: assigns[..n][i] == assigns[i];
  }

  /** The Secrets the variables need are those of the assignments. */
  lemma {:induction false} VariablesNeed(assigns: seq<Assignment>)
    ensures Needed(EnvVars(assigns)) == Named(assigns)
  {
    if assigns != [] {
      var n := |assigns| - 1;
      VariablesNeed(assigns[..n]);
      NamedNext(assigns);
      if assigns[n].Literal? {
        assert EnvVars(assigns) == EnvVars(assigns[..n]) + [] == EnvVars(assigns[..n]);
      } else {
        NeededNext(EnvVars(assigns[..n]), VarOf(assigns[n]));
      }
    } else {
      assert Named(assigns) == {};
    }
  }

  /** Of a plan's assignments exactly the two keys come from Secrets. */
  lemma PlanNames(p: Plan)
    ensures Named(Compiled(p)) == {p.accessKey, p.secretKey}
  {
    hide Column, Name, Keys, NatText;
    var a := Compiled(p);
    assert a[7] == StandardAssignment(p, ORDER[7]) && a[8] == StandardAssignment(p, ORDER[8]);
    forall i | 0 <= i < |a| && a[i].Secret? ensures a[i].sel == p.accessKey || a[i].sel == p.secretKey {
      if i < |ORDER| {
        assert a[i] == StandardAssignment(p, ORDER[i]);
      }
    }
  }

  lemma NeedsTwo(a: seq<EnvVar>, b: seq<EnvVar>)
    ensures Needed(a + b) == Needed(a) + Needed(b)
  {
    var c := a + b;
    assert forall i | 0 <= i < |a| :: c[i] == a[i];
    assert forall i | 0 <= i < |b| :: c[|a| + i] == b[i];
    forall x | x in Needed(b) ensures x in Needed(c) {
      var i :| 0 <= i < |b| && b[i].FromSecret? && b[i].sel == x;
      assert c[|a| + i].sel == x;
    }
    forall x | x in Needed(a) ensures x in Needed(c) {
      var i :| 0 <= i < |a| && a[i].FromSecret? && a[i].sel == x;
      assert c[i].sel == x;
    }
  }

  lemma DatabaseNeeds(db: Database)
    ensures Needed(DatabaseEnv(db)) == {db.password}
  {
    hide IntText;
    var d := DatabaseEnv(db);
    assert d[4] == FromSecret("PGPASSWORD", db.password);
  }

  /** The Job's container starts exactly when the database password and the two keys are there. */
  lemma JobStartsIff(p: Plan, db: Database, service: Env, secrets: map<Selector, string>)
    ensures Started(JobOf(p, db).env, service, secrets).Some? <==>
      db.password in secrets && p.accessKey in secrets && p.secretKey in secrets
  {
    hide Started, Compiled, JoinLines, ScriptLines, EnvVars, DatabaseEnv, Needed, Named;
    var d, e := DatabaseEnv(db), EnvVars(Compiled(p));
    DatabaseNeeds(db);
    StartsIff(d + e, service, secrets);
    VariablesNeed(Compiled(p));
    PlanNames(p);
    NeedsTwo(d, e);
    StartsByNeed(d + e, secrets);
  }

  lemma StartsByNeed(list: seq<EnvVar>, secrets: map<Selector, string>)
    ensures (forall i | 0 <= i < |list| && list[i].FromSecret? :: list[i].sel in secrets) <==> Needed(list) <= secrets.Keys
  {
  }

  // ----- The database the Job talks to -----

  /** A variable that no later one replaces is in the environment as it was given. */
  lemma {:induction false} StartedHas(list: seq<EnvVar>, i: nat, service: Env, secrets: map<Selector, string>)
    requires i < |list| && Started(list, service, secrets).Some?
    requires forall j | i < j < |list| :: list[j].name != list[i].name
    ensures
      var env := Started(list, service, secrets).value;
      && list[i].name in env
      && (list[i].Given? && Intact(list[i].value) ==> env[list[i].name] == list[i].value)
      && (list[i].FromSecret? ==> list[i].sel in secrets && env[list[i].name] == secrets[list[i].sel])
  {
    hide Intact, Expand;
    var n := |list| - 1;
    var before := Started(list[..n], service, secrets);
    if i < n {
      StartedHas(list[..n], i, service, secrets);
    } else if list[i].Given? && Intact(list[i].value) {
      IntactStays(list[i].value, before.value, service);
    }
  }

  /** psql finds the plan's database in its environment. */
  ghost predicate Reaches(db: Database, secrets: map<Selector, string>, env: Env) {
    && "PGHOST" in env && (Intact(db.host) ==> env["PGHOST"] == db.host)
    && "PGPORT" in env && env["PGPORT"] == IntText(db.port)
    && "PGDATABASE" in env && (Intact(db.name) ==> env["PGDATABASE"] == db.name)
    && "PGUSER" in env && (Intact(db.user) ==> env["PGUSER"] == db.user)
    && "PGPASSWORD" in env && db.password in secrets && env["PGPASSWORD"] == secrets[db.password]
  }

  lemma NumberIntact(n: int)
    ensures Intact(IntText(n))
  {
    NatRoundTrip(if n < 0 then -n else n);
    hide IntOf, NatOf;
    assert forall i | 0 <= i < |IntText(n)| :: IntText(n)[i] != DOLLAR;
  }

  /** The name of no variable after the database's begins as theirs do. */
  ghost predicate Elsewhere(list: seq<EnvVar>) {
    forall i | 0 <= i < |list| :: list[i].name != "" && list[i].name[0] != 'P'
  }

  lemma StartedReaches(db: Database, more: seq<EnvVar>, service: Env, secrets: map<Selector, string>)
    requires Elsewhere(more) && Started(DatabaseEnv(db) + more, service, secrets).Some?
    ensures Reaches(db, secrets, Started(DatabaseEnv(db) + more, service, secrets).value)
  {
    hide Started, Intact, IntText;
    var list := DatabaseEnv(db) + more;
    assert forall j | 6 <= j < |list| :: list[j] == more[j - 6];
    NumberIntact(db.port);
    StartedHas(list, 0, service, secrets);
    StartedHas(list, 1, service, secrets);
    StartedHas(list, 2, service, secrets);
    StartedHas(list, 3, service, secrets);
    StartedHas(list, 4, service, secrets);
  }

  lemma {:induction false} VariablesElsewhere(assigns: seq<Assignment>)
    requires forall i | 0 <= i < |assigns| && !assigns[i].Literal? :: assigns[i].env != "" && assigns[i].env[0] != 'P'
    ensures Elsewhere(EnvVars(assigns))
  {
    if assigns != [] {
      VariablesElsewhere(assigns[..|assigns| - 1]);
    }
  }

  lemma StandardElsewhere(p: Plan, l: Logical)
    requires !StandardAssignment(p, l).Literal?
    ensures StandardAssignment(p, l).env != "" && StandardAssignment(p, l).env[0] == 'O'
  {
    hide Column, Name;
  }

  lemma CompiledElsewhere(p: Plan)
    ensures Elsewhere(EnvVars(Compiled(p)))
  {
    hide Elsewhere, EnvVars, StandardAssignment, Keys, NatText;
    var a := Compiled(p);
    forall i | 0 <= i < |a| && !a[i].Literal? ensures a[i].env != "" && a[i].env[0] != 'P' {
      if i < |ORDER| {
        assert a[i] == StandardAssignment(p, ORDER[i]);
        StandardElsewhere(p, ORDER[i]);
      } else {
        assert a[i] == Extras(p)[i - |ORDER|];
      }
    }
    VariablesElsewhere(a);
  }

  /** Whenever the Job's container starts, its psql is given the host, port, name, user and password of the database. */
  lemma JobReachesDatabase(p: Plan, db: Database, service: Env, secrets: map<Selector, string>)
    requires Started(JobOf(p, db).env, service, secrets).Some?
    ensures Reaches(db, secrets, service + Started(JobOf(p, db).env, service, secrets).value)
  {
    hide Compiled, EnvVars, Started, DatabaseEnv, JoinLines, ScriptLines, Elsewhere, Intact;
    CompiledElsewhere(p);
    StartedReaches(db, EnvVars(Compiled(p)), service, secrets);
  }
}

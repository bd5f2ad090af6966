/**
 The gates of a pass: database, backup, migration, the settings in the meta row, Redis, and only then
 the templates of app and worker; or suspension.
 */
module GateChain {
  import opened Wrappers
  import opened ClusterState
  import opened History
  import opened Cluster
  import opened MetaRow
  import opened Workload
  import Detector
  import opened Migration
  import opened Preparation

  /** Why a pass that met no error stopped where it did. */
  datatype Stop =
    | Paused
    | DatabaseDown
    | AwaitingBackup
    | AwaitingMigration
    | AwaitingObjectStorage
    | AwaitingDetector
    | RedisDown
    | Rolled

  /** What the pass waits for has been asked for; if for nothing, both templates are at the image. */
  ghost predicate Asked(stop: Stop, m: Spec, v: View, before: seq<Event>, after: seq<Event>) {
    match stop
    case Paused => m.suspend && Suspended(m, v.w.work)
    case DatabaseDown => !m.suspend && v.facts.db == Some(false)
    case AwaitingBackup => m.image in v.w.mig.backups
    case AwaitingMigration => m.image in v.w.mig.jobs || Retried(before, after)
    case AwaitingObjectStorage => ObjPending(m, v.w, Within(v.facts))
    case AwaitingDetector => Detector.DetPending(m, v.w, Within(v.facts))
    case RedisDown => v.facts.redis == Some(false)
    case Rolled => Deployed(m, App, v) && Deployed(m, Worker, v)
  }

  /** The detector settings of `m`, at the current Secret versions, are in the row. */
  ghost predicate DetDone(m: Spec, w: World) {
    exists h :: MetaDone(w.det, h) && DetHashFor(m, h, Exact, w.secrets)
  }

  /** The pass, which started at `from`, had to wait: what it waits for was not there at the start. */
  ghost predicate Because(stop: Stop, m: Spec, from: View, v: View) {
    match stop
    case AwaitingBackup => !BackupGate(m, from.w.mig)
    case AwaitingMigration => !Succeeded(from.w.mig.jobs, m.image)
    case AwaitingObjectStorage => v.facts.quiet ==> !ObjConfigured(m, from.w, Exact)
    case AwaitingDetector => v.facts.quiet ==> !DetDone(m, from.w)
    case _ => true
  }

  ghost predicate Quieter(a: View, b: View) {
    b.facts.quiet ==> a.facts.quiet && a.w.secrets == b.w.secrets
  }

  /** The pass went as far as the cluster allowed. */
  ghost predicate Reached(stop: Stop, m: Spec, from: View, v: View, before: seq<Event>, after: seq<Event>) {
    Asked(stop, m, v, before, after) && Because(stop, m, from, v)
  }

  lemma AskedBefore(stop: Stop, m: Spec, v: View, a: seq<Event>, b: seq<Event>, c: seq<Event>)
    requires Asked(stop, m, v, b, c) && |a| <= |b|
    ensures Asked(stop, m, v, a, c)
  {
  }

  lemma DetDoneKept(m: Spec, a: World, b: World)
    requires DetDone(m, a) && KeepsMeta(a.det, b.det) && Sound(b.det) && a.secrets == b.secrets
    ensures DetDone(m, b)
  {
    var h :| MetaDone(a.det, h) && DetHashFor(m, h, Exact, a.secrets);
    MetaDoneKept(a.det, b.det, h);
  }

  lemma ObjDoneKept(m: Spec, a: World, b: World)
    requires ObjConfigured(m, a, Exact) && KeepsMeta(a.obj, b.obj) && Sound(b.obj) && a.secrets == b.secrets
    ensures ObjConfigured(m, b, Exact)
  {
    if ObjAuto(m) {
      var h :| MetaDone(a.obj, h) && ObjHashFor(m, h, Exact, a.secrets);
      MetaDoneKept(a.obj, b.obj, h);
    }
  }

  /** A reason that holds at `b` held at `a`, if the steps between lose nothing. */
  lemma BecauseEarlier(stop: Stop, m: Spec, a: View, b: View, v: View)
    requires Because(stop, m, b, v) && Inv(b.w) && Quieter(a, b) && Quieter(b, v)
    requires stop.AwaitingBackup? || stop.AwaitingMigration? ==> StillOpen(m, a.w.mig, b.w.mig)
    requires KeepsMeta(a.w.det, b.w.det)
    requires stop.AwaitingObjectStorage? ==> KeepsMeta(a.w.obj, b.w.obj)
    ensures Because(stop, m, a, v)
  {
    hide Calm, Eased, KeepsMeta, MetaDone, ObjHashFor, DetHashFor, Sound, BackupGate, ManagedInUse, Rooted, FactsBacked;
    if v.facts.quiet && stop.AwaitingObjectStorage? && ObjConfigured(m, a.w, Exact) {
      ObjDoneKept(m, a.w, b.w);
    }
    if v.facts.quiet && stop.AwaitingDetector? && DetDone(m, a.w) {
      DetDoneKept(m, a.w, b.w);
    }
  }

  /** Components without autoscaling, now and before, have the replicas of the spec. */
  ghost predicate StaticBoth(m: Spec, was: Workloads, work: Workloads) {
    StaticAt(m.app, was, work, App) && StaticAt(m.worker, was, work, Worker)
  }

  /** In calm both have been rolled from what they were, and the rest is as it was. */
  ghost predicate CalmlyRolled(m: Spec, a: View, b: View) {
    && IsRolled(m, App, Present(a.w.work, App), b) && IsRolled(m, Worker, Present(a.w.work, Worker), b)
    && SameDeployment(a.w.work, b.w.work, DetectorRole) && Unstirred(a, b)
  }

  lemma DeployedStays(m: Spec, role: Role, a: View, b: View, touched: Area)
    requires Deployed(m, role, a) && Moved(a, b, touched) && KeepsRole(a.w.work, b.w.work, role)
    ensures Deployed(m, role, b)
  {
    hide Moved, ChecksumFor;
    ChecksumStays(a, b, touched, m, a.w.work.deployments[role].checksum.value);
  }

  lemma StaticKept(m: Spec, role: Role, was: Workloads, a: Workloads, b: Workloads)
    requires !role.DetectorRole?
    requires StaticAt(if role.App? then m.app else m.worker, was, a, role) && KeepsRole(a, b, role)
    requires ScalersAs((if role.App? then m.app else m.worker).scale, a, role)
    ensures StaticAt(if role.App? then m.app else m.worker, was, b, role)
  {
  }

  /** What was rolled is as rolled while nobody writes it. */
  lemma SparedStays(m: Spec, role: Role, other: Role, was: Workloads, seen: Option<Deployment>, a: View, b: View, touched: Area)
    requires role != other && !role.DetectorRole? && Deployed(m, role, a) && Moved(a, b, touched) && Spares(a, b, other)
    requires StaticAt(if role.App? then m.app else m.worker, was, a.w.work, role)
    ensures Deployed(m, role, b)
    ensures StaticAt(if role.App? then m.app else m.worker, was, b.w.work, role)
    ensures Calm(a.script) && IsRolled(m, role, seen, a) ==> IsRolled(m, role, seen, b)
  {
    hide Moved, Calm, TemplateFor, StaticAt, KeepsRole, ScalersAs;
    assert KeepsRole(a.w.work, b.w.work, role);
    DeployedStays(m, role, a, b, touched);
    StaticKept(m, role, was, a.w.work, b.w.work);
    if Calm(a.script) && IsRolled(m, role, seen, a) {
      OneRolledStays(m, role, seen, a, b, touched);
    }
  }

  lemma OneRolledStays(m: Spec, role: Role, seen: Option<Deployment>, a: View, b: View, touched: Area)
    requires IsRolled(m, role, seen, a) && Moved(a, b, touched) && SameDeployment(a.w.work, b.w.work, role)
    ensures IsRolled(m, role, seen, b)
  {
    hide Moved, ChecksumFor, ReplicasAsWanted;
    ChecksumStays(a, b, touched, m, a.w.work.deployments[role].checksum.value);
  }

  /** App, then worker. */
  method RollApart(c: Cluster, m: Spec) returns (ok: bool)
    requires c.Valid() && RollGate(m, c.w, c.facts)
    modifies c
    ensures c.Valid() && Extends(old(c.log), c.log, m) && Moved(old(c.Now()), c.Now(), WorkloadArea)
    ensures RollGate(m, c.w, c.facts)
    ensures ok ==> Deployed(m, App, c.Now()) && Deployed(m, Worker, c.Now()) && StaticBoth(m, old(c.w.work), c.w.work)
    ensures Calm(old(c.script)) ==> ok && CalmlyRolled(m, old(c.Now()), c.Now())
  {
    hide Cluster.Valid, Calm, Moved, RollGate, Deployed, StaticAt, Spares, IsRolled, SameDeployment, Unstirred;
    ghost var v0 := c.Now();
    ok := ReconcileComponent(c, m, App);
    ghost var v1 := c.Now();
    StaysCalm(v0, v1, WorkloadArea);
    if !ok { return; }
    SparedScalers(v0, v1, App);
    ok := ReconcileComponent(c, m, Worker);
    Compose(v0, v1, c.Now(), WorkloadArea, WorkloadArea);
    if !ok { return; }
    SparedStays(m, App, Worker, v0.w.work, Present(v0.w.work, App), v1, c.Now(), WorkloadArea);
    StaticBack(m.worker, v0.w.work, v1.w.work, c.w.work, Worker);
    if Calm(v0.script) {
      SparedSame(v0, v1, App, Worker);
      SparedSame(v0, v1, App, DetectorRole);
      SparedSame(v1, c.Now(), Worker, DetectorRole);
      SameTwice(v0.w.work, v1.w.work, c.w.work, DetectorRole);
      SameWhenCalm(v0, c.Now(), WorkloadArea);
    }
  }

  lemma SparedScalers(a: View, b: View, other: Role)
    requires Spares(a, b, other)
    ensures forall r | r != other :: Scaled(a.w.work, r) == Scaled(b.w.work, r)
  {
    forall r | r != other ensures Scaled(a.w.work, r) == Scaled(b.w.work, r) {
      assert KeepsRole(a.w.work, b.w.work, r);
    }
  }

  lemma StaticBack(comp: Component, a: Workloads, b: Workloads, c: Workloads, role: Role)
    requires StaticAt(comp, b, c, role) && Scaled(a, role) == Scaled(b, role)
    ensures StaticAt(comp, a, c, role)
  {
  }

  lemma SparedSame(a: View, b: View, other: Role, role: Role)
    requires Spares(a, b, other) && Calm(a.script) && role != other
    ensures SameDeployment(a.w.work, b.w.work, role) && Present(a.w.work, role) == Present(b.w.work, role)
  {
    hide Calm;
  }

  lemma SameTwice(a: Workloads, b: Workloads, c: Workloads, role: Role)
    requires SameDeployment(a, b, role) && SameDeployment(b, c, role)
    ensures SameDeployment(a, c, role)
  {
  }

  /** Rolls app, then worker, once Redis is ready. */
  method RollBoth(c: Cluster, m: Spec) returns (ok: bool, ghost stop: Stop)
    requires c.Valid() && !m.suspend && c.facts.DbReady() && MigrationDone(c.w.mig, m.image)
    requires ObjConfigured(m, c.w, Within(c.facts)) && DetConfigured(m, c.w, Within(c.facts))
    modifies c
    ensures c.Valid() && Extends(old(c.log), c.log, m)
    ensures DetConfigured(m, c.w, Within(c.facts))
    ensures ok ==> Reached(stop, m, old(c.Now()), c.Now(), old(c.log), c.log)
    ensures Quieter(old(c.Now()), c.Now())
    ensures ok ==> stop.RedisDown? || stop.Rolled?
    ensures ok && stop.Rolled? ==> StaticBoth(m, old(c.w.work), c.w.work)
    ensures Calm(old(c.script)) ==> ok && Calm(c.script)
    ensures Calm(old(c.script)) && old(c.w.redisReady) ==> stop.Rolled? && CalmlyRolled(m, old(c.Now()), c.Now())
  {
    hide EventOk, Honest, Balanced, Calm, Moved, Deployed, StaticBoth, CalmlyRolled, MigrationDone, ObjConfigured, DetConfigured,
      Inv, Rooted, FactsBacked;
    ghost var v0 := c.Now();
    var redis := c.RedisReady(m);
    ghost var v1, v2 := v0.(facts := v0.facts.(redis := Some(redis))), c.Now();
    SameTrust(m, v0.w, v0.facts, v1.facts);
    GateStays(m, v1, v2);
    QuieterByMove(v1, v2, Nothing);
    StaysCalm(v1, v2, Nothing);
    if !redis { return true, RedisDown; }
    assert RollGate(m, c.w, c.facts);
    stop := Rolled;
    ok := RollApart(c, m);
    QuieterByMove(v2, c.Now(), WorkloadArea);
    StaysCalm(v2, c.Now(), WorkloadArea);
    StaticFrom(m, v1, v2, Nothing, c.w.work);
    if Calm(v0.script) {
      SameWhenCalm(v1, v2, Nothing);
      CalmlyFrom(m, v0, v2, c.Now());
    }
  }

  /** The gates stay open while the environment moves. */
  lemma GateStays(m: Spec, a: View, b: View)
    requires Moved(a, b, Nothing) && Inv(b.w)
    requires MigrationDone(a.w.mig, m.image) && ObjConfigured(m, a.w, Within(a.facts)) && DetConfigured(m, a.w, Within(a.facts))
    ensures MigrationDone(b.w.mig, m.image) && ObjConfigured(m, b.w, Within(b.facts)) && DetConfigured(m, b.w, Within(b.facts))
    ensures a.facts.db == b.facts.db && a.facts.redis == b.facts.redis
  {
    hide Moved, MigrationDone, ObjConfigured, DetConfigured, Sound, ManagedInUse;
    MigrationDoneKept(a, b, m.image);
    ObjConfiguredKept(m, a, b);
    DetConfiguredKept(m, a, b);
  }

  lemma QuieterByMove(a: View, b: View, touched: Area)
    requires Moved(a, b, touched)
    ensures Quieter(a, b)
  {
    hide KeepsMigrations, KeepsMeta, KeepsWork, Calm, Steady;
  }

  lemma StaticFrom(m: Spec, a: View, b: View, touched: Area, work: Workloads)
    requires Moved(a, b, touched) && !touched.WorkloadArea? && !touched.Wide?
    ensures StaticBoth(m, b.w.work, work) ==> StaticBoth(m, a.w.work, work)
  {
    hide KeepsMigrations, KeepsMeta, Calm, Steady;
  }

  lemma CalmlyFrom(m: Spec, a: View, b: View, c: View)
    requires a.w.work.deployments == b.w.work.deployments && Unstirred(a, b)
    ensures CalmlyRolled(m, b, c) ==> CalmlyRolled(m, a, c)
  {
  }

  /** Settings that are to be written to the row could be made into a script. */
  ghost predicate PlanThere(m: Spec) {
    m.obj.Some? && m.obj.value.autoConfigure ==> m.obj.value.plan.Some?
  }

  /** The object-storage settings, where the spec has any for the row. */
  method StoreSettings(c: Cluster, m: Spec) returns (r: Option<bool>)
    requires c.Valid() && !m.suspend && c.facts.DbReady() && MigrationDone(c.w.mig, m.image)
    modifies c
    ensures c.Valid() && Extends(old(c.log), c.log, m)
    ensures Moved(old(c.Now()), c.Now(), ObjectStorageArea)
    ensures r == Some(true) ==> ObjConfigured(m, c.w, Within(c.facts))
    ensures r == Some(false) ==> ObjPending(m, c.w, Within(c.facts))
    ensures r == Some(false) && c.facts.quiet ==> !ObjConfigured(m, old(c.w), Exact)
    ensures Calm(old(c.script)) && PlanThere(m) ==> r.Some?
  {
    hide Cluster.Valid, Calm, Moved, MigrationDone;
    if ObjAuto(m) {
      r := ReconcileObjectStorage(c, m);
      return;
    }
    Idle(c.Now(), ObjectStorageArea);
    NothingToStore(m, c.Now());
    r := Some(true);
  }

  /** The detector's settings are in the row, or there never were any and none are wanted. */
  ghost predicate DetReady(m: Spec, w: World) {
    (m.det.Off? && w.det.sql.None?) || DetDone(m, w)
  }

  lemma DetReadyKept(m: Spec, a: View, b: View, touched: Area)
    requires DetReady(m, a.w) && Moved(a, b, touched) && Calm(a.script) && Inv(b.w)
    requires touched.Nothing? || touched.MigrationArea? || touched.ObjectStorageArea?
    ensures DetReady(m, b.w)
  {
    hide KeepsMigrations, KeepsMeta, KeepsWork, Calm, Steady, DetDone, ManagedInUse;
    if DetDone(m, a.w) {
      DetDoneKept(m, a.w, b.w);
    } else {
      SqlKept(a.w.det, b.w.det);
    }
  }

  lemma SqlKept(a: MetaConfig<DetHash>, b: MetaConfig<DetHash>)
    requires KeepsMeta(a, b)
    ensures a.sql == b.sql
  {
  }

  /** The row's settings of the detector. `Some(done)`: whether they are the wanted ones. */
  method ConfigureDetector(c: Cluster, m: Spec, existing: bool) returns (r: Option<bool>)
    requires c.Valid() && !m.suspend && c.facts.DbReady() && MigrationDone(c.w.mig, m.image)
    requires Prepared(m, c.w, existing)
    modifies c
    ensures c.Valid() && Extends(old(c.log), c.log, m) && Moved(old(c.Now()), c.Now(), DetectorArea)
    ensures r == Some(true) ==> DetConfigured(m, c.w, Within(c.facts))
    ensures r == Some(false) ==> Detector.DetPending(m, c.w, Within(c.facts))
    ensures r == Some(false) && c.facts.quiet ==> !DetDone(m, old(c.w))
    ensures Calm(old(c.script)) ==> r.Some?
    ensures Calm(old(c.script)) && old(c.facts.quiet) && DetReady(m, old(c.w)) ==> r == Some(true)
  {
    hide Cluster.Valid, Calm, Moved, MigrationDone, Detector.Serving, Detector.DetPending;
    ghost var v0 := c.Now();
    if m.det.Off? && !existing {
      Idle(v0, DetectorArea);
      return Some(true);
    }
    r := Detector.ReconcileConfig(c, m);
    if Calm(v0.script) && v0.facts.quiet && DetReady(m, v0.w) {
      SameWhenCalm(v0, c.Now(), DetectorArea);
      assert DetDone(m, v0.w);
      assert r != Some(false) && r.value;
    }
  }

  /** What the pass knows of both meta groups, having started at `from`. */
  ghost predicate RowKnown(m: Spec, from: View, v: View, written: bool, settled: bool) {
    && (written ==> ObjConfigured(m, v.w, Within(v.facts)))
    && (!written ==> ObjPending(m, v.w, Within(v.facts)) && (v.facts.quiet ==> !ObjConfigured(m, from.w, Exact)))
    && (settled ==> DetConfigured(m, v.w, Within(v.facts)))
    && (!settled ==> Detector.DetPending(m, v.w, Within(v.facts)) && (v.facts.quiet ==> !DetDone(m, from.w)))
  }

  /** Both meta groups, the one and then the other. */
  method FillRow(c: Cluster, m: Spec, existing: bool) returns (written: Option<bool>, settled: Option<bool>, ghost mid: View)
    requires c.Valid() && !m.suspend && c.facts.DbReady() && MigrationDone(c.w.mig, m.image)
    requires Prepared(m, c.w, existing)
    modifies c
    ensures c.Valid() && Extends(old(c.log), c.log, m)
    ensures Moved(old(c.Now()), mid, ObjectStorageArea) && Moved(mid, c.Now(), DetectorArea)
    ensures written.Some? && settled.Some? ==> RowKnown(m, old(c.Now()), c.Now(), written.value, settled.value)
    ensures Calm(old(c.script)) && PlanThere(m) ==> written.Some? && settled.Some?
    ensures Calm(old(c.script)) && old(c.facts.quiet) && RowOpen(m, old(c.w)) ==> written == Some(true) && settled == Some(true)
  {
    hide EventOk, Honest, Balanced, Calm, Moved, MigrationDone, Inv, ObjPending, Detector.DetPending, DetReady, DetDone,
      DetConfigured, Prepared, ObjConfigured, Rooted, FactsBacked;
    ghost var v0 := c.Now();
    settled := None;
    if RowOpen(m, v0.w) { PlanOfRow(m, v0.w); }
    written := StoreSettings(c, m);
    mid := c.Now();
    QuieterByMove(v0, mid, ObjectStorageArea);
    StaysCalm(v0, mid, ObjectStorageArea);
    Idle(mid, DetectorArea);
    if written.None? { return; }
    MigrationDoneKept(v0, mid, m.image);
    PreparedKept(m, v0, mid, existing);
    if Calm(v0.script) {
      SameWhenCalm(v0, mid, ObjectStorageArea);
      if DetReady(m, v0.w) { DetReadyKept(m, v0, mid, ObjectStorageArea); }
    }
    settled := ConfigureDetector(c, m, existing);
    QuieterByMove(mid, c.Now(), DetectorArea);
    if written.value {
      ObjStays(m, mid, c.Now());
    } else {
      ObjPendingKept(m, mid, c.Now());
    }
    DetDoneBack(m, v0, mid);
  }

  /** The gates after a finished migration. `Some(done)`: whether the detector's settings are in the row. */
  method AfterMigration(c: Cluster, m: Spec, existing: bool) returns (r: Option<bool>, ghost stop: Stop)
    requires c.Valid() && !m.suspend && c.facts.DbReady() && MigrationDone(c.w.mig, m.image)
    requires Prepared(m, c.w, existing)
    modifies c
    ensures c.Valid() && Extends(old(c.log), c.log, m)
    ensures r == Some(true) ==> DetConfigured(m, c.w, Within(c.facts))
    ensures r.Some? ==> Reached(stop, m, old(c.Now()), c.Now(), old(c.log), c.log)
    ensures Quieter(old(c.Now()), c.Now())
    ensures r.Some? ==> !stop.AwaitingBackup? && !stop.AwaitingMigration? && !stop.Paused? && !stop.DatabaseDown?
    ensures r.Some? && stop.Rolled? ==> r == Some(true) && StaticBoth(m, old(c.w.work), c.w.work)
    ensures Calm(old(c.script)) ==> Calm(c.script) && (PlanThere(m) ==> r.Some?)
    ensures Calm(old(c.script)) && old(c.facts.quiet) && RowOpen(m, old(c.w)) ==>
      r.Some? && stop.Rolled? && CalmlyRolled(m, old(c.Now()), c.Now())
  {
    hide EventOk, Honest, Balanced, Calm, Moved, MigrationDone, Inv, StaticBoth, CalmlyRolled, Reached, ObjPending,
      Detector.DetPending, DetDone, DetConfigured, Prepared, ObjConfigured, DetReady, Rooted, FactsBacked;
    ghost var v0 := c.Now();
    stop := Rolled;
    var written, settled;
    ghost var mid;
    written, settled, mid := FillRow(c, m, existing);
    ghost var v := c.Now();
    ThroughTheRow(m, v0, mid, v);
    if RowOpen(m, v0.w) { PlanOfRow(m, v0.w); }
    if written.None? || settled.None? { return None, stop; }
    var done := settled.value;
    if !written.value {
      stop := AwaitingObjectStorage;
      AwaitsObjectStorage(m, v0, v, old(c.log), c.log);
      return Some(done), stop;
    }
    if !done {
      stop := AwaitingDetector;
      AwaitsDetector(m, v0, v, old(c.log), c.log);
      return Some(done), stop;
    }
    ghost var log := c.log;
    var ok;
    ok, stop := RollBoth(c, m);
    if !ok { return None, stop; }
    ReachedTheRoll(stop, m, v0, v, c.Now(), old(c.log), log, c.log);
    StaticFrom(m, mid, v, DetectorArea, c.w.work);
    StaticFrom(m, v0, mid, ObjectStorageArea, c.w.work);
    if Calm(v0.script) {
      CalmlyFrom(m, v0, v, c.Now());
    }
    r := Some(done);
  }

  /** What writing the meta groups leaves. */
  lemma ThroughTheRow(m: Spec, a: View, b: View, c: View)
    requires Moved(a, b, ObjectStorageArea) && Moved(b, c, DetectorArea)
    ensures MigrationDone(a.w.mig, m.image) ==> MigrationDone(c.w.mig, m.image)
    ensures a.facts.db == c.facts.db && a.facts.redis == c.facts.redis && Quieter(a, c)
    ensures Calm(a.script) ==> Calm(c.script) && a.w.work.deployments == c.w.work.deployments && Unstirred(a, c)
    ensures Calm(a.script) && a.w.redisReady ==> c.w.redisReady
  {
    hide Moved, Calm, MigrationDone;
    StaysCalm(a, b, ObjectStorageArea);
    StaysCalm(b, c, DetectorArea);
    QuieterByMove(a, b, ObjectStorageArea);
    QuieterByMove(b, c, DetectorArea);
    FactsStay(a, b, ObjectStorageArea);
    FactsStay(b, c, DetectorArea);
    if MigrationDone(a.w.mig, m.image) {
      MigrationDoneKept(a, b, m.image);
      MigrationDoneKept(b, c, m.image);
    }
    if Calm(a.script) {
      SameWhenCalm(a, b, ObjectStorageArea);
      SameWhenCalm(b, c, DetectorArea);
    }
  }

  lemma AwaitsObjectStorage(m: Spec, from: View, v: View, before: seq<Event>, after: seq<Event>)
    requires ObjPending(m, v.w, Within(v.facts)) && (v.facts.quiet ==> !ObjConfigured(m, from.w, Exact))
    ensures Reached(AwaitingObjectStorage, m, from, v, before, after)
  {
  }

  lemma AwaitsDetector(m: Spec, from: View, v: View, before: seq<Event>, after: seq<Event>)
    requires Detector.DetPending(m, v.w, Within(v.facts)) && (v.facts.quiet ==> !DetDone(m, from.w))
    ensures Reached(AwaitingDetector, m, from, v, before, after)
  {
  }

  lemma ReachedTheRoll(stop: Stop, m: Spec, from: View, mid: View, v: View, a: seq<Event>, b: seq<Event>, c: seq<Event>)
    requires Reached(stop, m, mid, v, b, c) && (stop.RedisDown? || stop.Rolled?)
    ensures Reached(stop, m, from, v, a, c)
  {
    hide Deployed;
  }

  /** What the gates after the migration wait for is there. */
  ghost predicate RowOpen(m: Spec, w: World) {
    ObjConfigured(m, w, Exact) && DetReady(m, w) && w.redisReady
  }

  lemma PlanOfRow(m: Spec, w: World)
    requires RowOpen(m, w)
    ensures PlanThere(m)
  {
  }

  lemma ObjStays(m: Spec, a: View, b: View)
    requires ObjConfigured(m, a.w, Within(a.facts)) && Moved(a, b, DetectorArea) && Inv(b.w)
    ensures ObjConfigured(m, b.w, Within(b.facts))
  {
    hide Moved, ObjConfigured, Sound, ManagedInUse;
    ObjConfiguredKept(m, a, b);
  }

  /** Settings missing after object storage was reconciled were missing before. */
  lemma DetDoneBack(m: Spec, a: View, b: View)
    requires Moved(a, b, ObjectStorageArea) && Inv(b.w)
    ensures a.w.secrets == b.w.secrets && !DetDone(m, b.w) ==> !DetDone(m, a.w)
  {
    hide KeepsMigrations, KeepsMeta, KeepsWork, Calm, Steady, DetDone, ManagedInUse;
    if a.w.secrets == b.w.secrets && DetDone(m, a.w) {
      DetDoneKept(m, a.w, b.w);
    }
  }

  lemma NothingToStore(m: Spec, v: View)
    requires !ObjAuto(m)
    ensures ObjConfigured(m, v.w, Within(v.facts))
  {
  }

  lemma ObjPendingKept(m: Spec, a: View, b: View)
    requires ObjPending(m, a.w, Within(a.facts)) && Moved(a, b, DetectorArea)
    ensures ObjPending(m, b.w, Within(b.facts))
  {
    hide KeepsMigrations, KeepsWork, Steady, Calm, Eased, ObjHashFor;
    var h :| h in a.w.obj.jobs && ObjHashFor(m, h, Within(a.facts), a.w.secrets);
    ObjHashKept(a, b, m, h);
    assert h in b.w.obj.jobs;
  }

  /** The gates: backup, migration, meta row, Redis, and only then the templates. */
  method Gates(c: Cluster, m: Spec, existing: bool) returns (r: Option<bool>, ghost stop: Stop)
    requires c.Valid() && !m.suspend && c.facts.DbReady() && Prepared(m, c.w, existing)
    modifies c
    ensures c.Valid() && Extends(old(c.log), c.log, m)
    ensures r == Some(true) ==> DetConfigured(m, c.w, Within(c.facts))
    ensures r.Some? ==> Reached(stop, m, old(c.Now()), c.Now(), old(c.log), c.log)
    ensures Quieter(old(c.Now()), c.Now())
    ensures r.Some? ==> !stop.Paused? && !stop.DatabaseDown?
    ensures r.Some? && stop.Rolled? ==> r == Some(true) && StaticBoth(m, old(c.w.work), c.w.work)
    ensures Calm(old(c.script)) ==> Calm(c.script) && (PlanThere(m) ==> r.Some?)
    ensures Calm(old(c.script)) && old(c.facts.quiet) && Succeeded(old(c.w.mig.jobs), m.image) && RowOpen(m, old(c.w)) ==>
      r.Some? && stop.Rolled? && CalmlyRolled(m, old(c.Now()), c.Now())
  {
    hide EventOk, Honest, Balanced, Calm, Moved, MigrationDone, BackupGate, Retried, Succeeded, Reached, DetDone,
      Inv, Detector.Serving, Prepared, RowOpen, StaticBoth, CalmlyRolled, DetConfigured, Rooted, FactsBacked;
    ghost var v0 := c.Now();
    var done := m.det.Off? && !existing;
    stop := AwaitingBackup;
    var backedUp := ReconcilePreBackup(c, m);
    ghost var v1, log1 := c.Now(), c.log;
    PreparedKept(m, v0, v1, existing);
    QuieterByMove(v0, v1, MigrationArea);
    StaysCalm(v0, v1, MigrationArea);
    FactsStay(v0, v1, MigrationArea);
    JobOpensBackup(m, v0.w.mig);
    if backedUp.None? { return None, stop; }
    if !backedUp.value {
      DoneOff(m, v1, existing);
      AwaitsBackup(m, v0, v1, old(c.log), log1);
      return Some(done), stop;
    }
    stop := AwaitingMigration;
    var migrated := ReconcileMigration(c, m);
    ghost var v2, log2 := c.Now(), c.log;
    PreparedKept(m, v1, v2, existing);
    Compose(v0, v1, v2, MigrationArea, MigrationArea);
    QuieterByMove(v0, v2, MigrationArea);
    StaysCalm(v0, v2, MigrationArea);
    FactsStay(v0, v2, MigrationArea);
    if migrated.Err? { return None, stop; }
    if !migrated.value {
      DoneOff(m, v2, existing);
      AwaitsMigration(m, v0, v2, old(c.log), log1, log2);
      return Some(done), stop;
    }
    if Calm(v0.script) {
      SameWhenCalm(v0, v2, MigrationArea);
      RowStaysOpen(m, v0, v2, MigrationArea);
    }
    r, stop := AfterMigration(c, m, existing);
    StaticFrom(m, v0, v2, MigrationArea, c.w.work);
    if Calm(v0.script) {
      CalmlyFrom(m, v0, v2, c.Now());
    }
    if r.Some? {
      ReachedBack(stop, m, v0, v2, c.Now(), MigrationArea, old(c.log), log2, c.log);
    }
  }

  lemma FactsStay(a: View, b: View, touched: Area)
    requires Moved(a, b, touched)
    ensures a.facts.db == b.facts.db && a.facts.redis == b.facts.redis
  {
  }

  /** Where the Job is there already, no backup is waited for. */
  lemma JobOpensBackup(m: Spec, g: Migrations)
    ensures Succeeded(g.jobs, m.image) ==> BackupGate(m, g)
  {
  }

  /** With no detector wanted and no trace of one there is nothing to configure. */
  lemma DoneOff(m: Spec, v: View, existing: bool)
    requires Prepared(m, v.w, existing)
    ensures m.det.Off? && !existing ==> DetConfigured(m, v.w, Within(v.facts))
  {
  }

  lemma RowStaysOpen(m: Spec, a: View, b: View, touched: Area)
    requires Moved(a, b, touched) && Calm(a.script) && Inv(b.w) && (touched.Nothing? || touched.MigrationArea?)
    ensures RowOpen(m, a.w) ==> RowOpen(m, b.w)
  {
    hide KeepsMigrations, KeepsMeta, KeepsWork, Calm, Steady, DetReady, ObjConfigured, ManagedInUse;
    if RowOpen(m, a.w) {
      DetReadyKept(m, a, b, touched);
      ObjDoneKept(m, a.w, b.w);
    }
  }

  /** A reason after a move is a reason before it. */
  lemma BecauseBack(stop: Stop, m: Spec, a: View, b: View, v: View, touched: Area)
    requires Because(stop, m, b, v) && Inv(b.w) && Moved(a, b, touched) && Quieter(b, v)
    requires touched.Nothing? || (touched.MigrationArea? && !stop.AwaitingBackup? && !stop.AwaitingMigration?)
    ensures Because(stop, m, a, v)
  {
    hide KeepsMeta, KeepsWork, Calm, Steady, Because, Inv;
    if touched.Nothing? {
      StillOpenKept(m, a.w.mig, b.w.mig);
    }
    BecauseEarlier(stop, m, a, b, v);
  }

  lemma AwaitsBackup(m: Spec, from: View, v: View, before: seq<Event>, after: seq<Event>)
    requires m.image in v.w.mig.backups && !BackupGate(m, from.w.mig)
    ensures Reached(AwaitingBackup, m, from, v, before, after)
  {
  }

  lemma AwaitsMigration(m: Spec, from: View, v: View, a: seq<Event>, b: seq<Event>, c: seq<Event>)
    requires (m.image in v.w.mig.jobs || Retried(b, c)) && |a| <= |b| && !Succeeded(from.w.mig.jobs, m.image)
    ensures Reached(AwaitingMigration, m, from, v, a, c)
  {
  }

  /** What was reached after a move was reached from before it. */
  lemma ReachedBack(stop: Stop, m: Spec, from: View, mid: View, v: View, touched: Area, a: seq<Event>, b: seq<Event>, c: seq<Event>)
    requires Reached(stop, m, mid, v, b, c) && |a| <= |b| && Inv(mid.w) && Moved(from, mid, touched) && Quieter(mid, v)
    requires touched.Nothing? || (touched.MigrationArea? && !stop.AwaitingBackup? && !stop.AwaitingMigration?)
    ensures Reached(stop, m, from, v, a, c)
  {
    hide Asked, Because, Inv, Moved, Quieter;
    AskedBefore(stop, m, v, a, b, c);
    BecauseBack(stop, m, from, mid, v, touched);
  }

  /** It does not matter what the pass had seen of the database. */
  lemma ReachedFresh(stop: Stop, m: Spec, a: View, b: View, v: View, before: seq<Event>, after: seq<Event>)
    requires Reached(stop, m, a, v, before, after) && a.w == b.w
    ensures Reached(stop, m, b, v, before, after)
  {
    hide Asked, BackupGate, Succeeded, ObjConfigured, DetDone;
  }

  /** All gates are open. */
  ghost predicate Open(m: Spec, w: World) {
    !m.suspend && (m.dbManaged ==> w.dbReady) && Succeeded(w.mig.jobs, m.image) && RowOpen(m, w)
  }

  /**
   The middle of reconcileAll: suspend, or pass the gates if the database is ready.
   `Some(done)`: whether the detector's settings are in the row.
   */
  method SuspendOrRoll(c: Cluster, m: Spec, existing: bool) returns (r: Option<bool>, ghost stop: Stop)
    requires c.Valid() && Prepared(m, c.w, existing)
    modifies c
    ensures c.Valid() && Extends(old(c.log), c.log, m)
    ensures r == Some(true) ==> DetConfigured(m, c.w, Within(c.facts))
    ensures r.Some? ==> Reached(stop, m, old(c.Now()), c.Now(), old(c.log), c.log)
    ensures Quieter(old(c.Now()), c.Now())
    ensures r.Some? ==> (stop.Paused? <==> m.suspend)
    ensures r.Some? && stop.Rolled? ==> r == Some(true) && StaticBoth(m, old(c.w.work), c.w.work)
    ensures Calm(old(c.script)) ==> Calm(c.script) && (PlanThere(m) ==> r.Some?)
    ensures Calm(old(c.script)) && old(c.facts.quiet) && Open(m, old(c.w)) ==>
      r.Some? && stop.Rolled? && CalmlyRolled(m, old(c.Now()), c.Now())
  {
    hide EventOk, Honest, Balanced, Calm, Moved, Inv, MetaDone, DetHashFor, Succeeded, RowOpen, Prepared, DetConfigured,
      StaticBoth, CalmlyRolled, Detector.Serving, Suspended, ObjPending, Detector.DetPending, Retried, ObjConfigured,
      Deployed, BackupGate, Rooted, FactsBacked;
    var done := m.det.Off? && !existing;
    ghost var v0 := c.Now();
    if m.suspend {
      var ok := SuspendWorkloads(c, m);
      QuieterByMove(v0, c.Now(), WorkloadArea);
      StaysCalm(v0, c.Now(), WorkloadArea);
      SuspendedDone(m, v0, c.Now(), existing);
      return if ok then Some(done) else None, Paused;
    }
    var db := c.DatabaseReady(m);
    ghost var u, v1 := v0.(facts := v0.facts.(db := Some(db))), c.Now();
    PreparedKept(m, u, v1, existing);
    QuieterByMove(u, v1, Nothing);
    StaysCalm(u, v1, Nothing);
    FactsStay(u, v1, Nothing);
    if !db {
      DoneOff(m, v1, existing);
      return Some(done), DatabaseDown;
    }
    ghost var log1 := c.log;
    if Calm(v0.script) {
      SameWhenCalm(u, v1, Nothing);
      RowStaysOpen(m, u, v1, Nothing);
      JobStays(u, v1, m.image);
    }
    r, stop := Gates(c, m, existing);
    StaticFrom(m, u, v1, Nothing, c.w.work);
    if Calm(v0.script) {
      CalmlyFrom(m, v0, v1, c.Now());
    }
    if r.Some? {
      ReachedBack(stop, m, u, v1, c.Now(), Nothing, old(c.log), log1, c.log);
      ReachedFresh(stop, m, u, v0, c.Now(), old(c.log), c.log);
    }
  }

  lemma JobStays(a: View, b: View, image: Image)
    requires Moved(a, b, Nothing)
    ensures Succeeded(a.w.mig.jobs, image) ==> Succeeded(b.w.mig.jobs, image)
  {
  }

  lemma SuspendedDone(m: Spec, a: View, b: View, existing: bool)
    requires Prepared(m, a.w, existing) && Moved(a, b, WorkloadArea)
    ensures m.det.Off? && !existing ==> DetConfigured(m, b.w, Within(b.facts))
  {
  }

  lemma SuspendedKept(m: Spec, a: View, b: View, role: Role)
    requires Suspended(m, a.w.work) && Spares(a, b, role) && (role.DetectorRole? ==> !m.det.ManagedDet?)
    requires role.App? ==> Spares(a, b, Worker)
    requires !role.Worker?
    ensures Suspended(m, b.w.work)
  {
    hide Spares, Stopped;
    if role.DetectorRole? {
      StoppedStays(a, b, DetectorRole, App);
      StoppedStays(a, b, DetectorRole, Worker);
    } else {
      StoppedStays(a, b, App, Worker);
      StoppedStays(a, b, Worker, App);
      if m.det.ManagedDet? {
        StoppedStays(a, b, App, DetectorRole);
      }
    }
  }
}

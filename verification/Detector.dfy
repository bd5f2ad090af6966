/** The sensitive detector: its settings in the meta row, its objects, and their removal. */
module Detector {
  import opened Wrappers
  import opened ClusterState
  import opened History
  import opened Cluster
  import opened MetaRow

  /** sensitiveDetectorConfigHash: a Secret that cannot be read ends it. */
  method ConfigHash(c: Cluster, m: Spec) returns (r: Option<DetHash>)
    requires c.Valid()
    modifies c
    ensures c.Valid() && Moved(old(c.Now()), c.Now(), Nothing) && c.log == old(c.log)
    ensures r.Some? ==> DetHashFor(m, r.value, Within(c.facts), c.w.secrets)
    ensures Calm(old(c.script)) ==> r.Some?
  {
    hide Calm, Eased, Cluster.Valid, KeepsMigrations, KeepsMeta, KeepsWork;
    ghost var v0 := c.Now();
    var db := c.SecretVersion(m.dbSecret);
    ghost var v1 := c.Now();
    if db.None? { return None; }
    var name := KeySecretOf(m.det);
    var key: Option<Version> := None;
    if name.Some? {
      key := c.SecretVersion(name.value);
      Compose(v0, v1, c.Now(), Nothing, Nothing);
      if key.None? { return None; }
    }
    r := Some(DetHash(ModeOf(m.det), SettingsOf(m.det), db.value, key));
  }

  method DeleteOneDetJob(c: Cluster, m: Spec, h: DetHash) returns (ok: bool)
    requires c.Valid()
    modifies c
    ensures c.Valid() && Extends(old(c.log), c.log, m)
    ensures Moved(old(c.Now()), c.Now(), DetectorArea) && c.w.detService == old(c.w.detService)
    ensures c.w.det.jobs.Keys <= old(c.w.det.jobs.Keys)
    ensures RowWithin(old(c.w.det), c.w.det)
    ensures forall k | k != h && Succeeded(old(c.w.det.jobs), k) :: Succeeded(c.w.det.jobs, k)
    ensures ok ==> h !in c.w.det.jobs
    ensures Calm(old(c.script)) ==> ok
  {
    hide Calm, Eased, Moved, Inv, Balanced, Honest, Rooted, FactsBacked, RowWithin, Succeeded, Extends, DeletedDetJob,
      NextView, Stirred, NextAnswer;
    ghost var took, before;
    ok, took, before := c.Write(DeleteDetJob(h), m);
    DeleteDetJobSafe(before, h);
    DetJobDeleted(old(c.Now()), View(before, c.facts, c.script), h);
    DeletedMeans(old(c.w), c.w, h);
  }

  lemma DeleteDetJobSafe(w: World, h: DetHash)
    requires Inv(w)
    ensures Inv(Do(w, DeleteDetJob(h)))
  {
  }

  /** What deleting a Job, or moves of the environment alone, leave of the detector's Jobs. */
  ghost predicate DeletedDetJob(a: World, b: World, h: DetHash) {
    && b.detService == a.detService && b.det.jobs.Keys <= a.det.jobs.Keys && RowWithin(a.det, b.det)
    && forall k | k != h && Succeeded(a.det.jobs, k) :: Succeeded(b.det.jobs, k)
  }

  lemma DetJobDeleted(a: View, b: View, h: DetHash)
    requires Moved(a, b, Nothing)
    ensures DeletedDetJob(a.w, b.w, h) && DeletedDetJob(a.w, Do(b.w, DeleteDetJob(h)), h)
    ensures h !in Do(b.w, DeleteDetJob(h)).det.jobs
  {
    hide Calm, Eased, KeepsMigrations, KeepsWork, Steady;
  }

  lemma DeletedMeans(a: World, b: World, h: DetHash)
    requires DeletedDetJob(a, b, h)
    ensures b.detService == a.detService && b.det.jobs.Keys <= a.det.jobs.Keys && RowWithin(a.det, b.det)
    ensures forall k | k != h && Succeeded(a.det.jobs, k) :: Succeeded(b.det.jobs, k)
  {
  }

  /** cleanupSensitiveDetectorConfigJobs: deletes every Job but `keep`. */
  method CleanupDetJobs(c: Cluster, m: Spec, keep: Option<DetHash>) returns (ok: bool)
    requires c.Valid()
    modifies c
    ensures c.Valid() && Extends(old(c.log), c.log, m)
    ensures Moved(old(c.Now()), c.Now(), DetectorArea) && c.w.detService == old(c.w.detService)
    ensures RowWithin(old(c.w.det), c.w.det)
    ensures ok ==> forall h | h in c.w.det.jobs :: keep == Some(h)
    ensures keep.Some? && Succeeded(old(c.w.det.jobs), keep.value) ==> Succeeded(c.w.det.jobs, keep.value)
    ensures Calm(old(c.script)) ==> ok
  {
    hide Calm, Eased, Cluster.Valid, KeepsMigrations, KeepsMeta, KeepsWork, Steady;
    var listed := c.ListDetJobs();
    Broaden(old(c.Now()), c.Now(), DetectorArea);
    SuccessKept(old(c.w.det), c.w.det);
    RowKept(old(c.w.det), c.w.det);
    if listed.None? { return false; }
    var todo := listed.value;
    while todo != {}
      invariant c.Valid() && Extends(old(c.log), c.log, m)
      invariant Moved(old(c.Now()), c.Now(), DetectorArea) && c.w.detService == old(c.w.detService)
      invariant c.w.det.jobs.Keys <= old(c.w.det.jobs.Keys)
      invariant RowWithin(old(c.w.det), c.w.det)
      invariant forall h | h in c.w.det.jobs :: h in todo || keep == Some(h)
      invariant keep.Some? && Succeeded(old(c.w.det.jobs), keep.value) ==> Succeeded(c.w.det.jobs, keep.value)
      decreases todo
    {
      var h :| h in todo;
      todo := todo - {h};
      if keep != Some(h) {
        ghost var v := c.Now();
        ok := DeleteOneDetJob(c, m, h);
        Compose(old(c.Now()), v, c.Now(), DetectorArea, DetectorArea);
        if !ok { return; }
      }
    }
    ok := true;
  }

  /** Applies the state ConfigMap once only Jobs of the same hash are left. */
  method PutState(c: Cluster, m: Spec, h: DetHash) returns (ok: bool)
    requires c.Valid() && forall k | k in c.w.det.jobs :: k == h
    modifies c
    ensures c.Valid() && Extends(old(c.log), c.log, m)
    ensures Moved(old(c.Now()), c.Now(), DetectorArea) && c.w.detService == old(c.w.detService)
    ensures c.w.det.jobs.Keys == old(c.w.det.jobs.Keys)
    ensures forall k | Succeeded(old(c.w.det.jobs), k) :: Succeeded(c.w.det.jobs, k)
    ensures ok ==> c.w.det.sql == Some(h)
    ensures Calm(old(c.script)) ==> ok
  {
    hide Calm, Eased, KeepsMigrations, KeepsWork, Balanced, Honest, Rooted, FactsBacked,
      NextView, Stirred, NextAnswer;
    ghost var took, before;
    ok, took, before := c.Write(PutDetState(h), m);
    PutStateSafe(before, h);
  }

  lemma PutStateSafe(w: World, h: DetHash)
    requires Inv(w) && forall k | k in w.det.jobs :: k == h
    ensures Inv(Do(w, PutDetState(h)))
  {
  }

  /** The managed detector can be reached. */
  ghost predicate Serving(w: World) {
    w.detService && DetectorRole in w.work.deployments
  }

  method CreateConfigJob(c: Cluster, m: Spec, h: DetHash) returns (ok: bool)
    requires c.Valid() && !m.suspend && c.facts.DbReady() && MigrationDone(c.w.mig, m.image)
    requires c.w.det.jobs.Keys == {} && c.w.det.sql == Some(h)
    requires h.mode == Managed ==> Serving(c.w)
    modifies c
    ensures c.Valid() && Extends(old(c.log), c.log, m)
    ensures Moved(old(c.Now()), c.Now(), DetectorArea) && c.w.detService == old(c.w.detService)
    ensures ok ==> h in c.w.det.jobs
    ensures Calm(old(c.script)) ==> ok
  {
    hide Calm, Eased, Moved, Inv, EventOk, MigrationDone, Balanced, Honest, Rooted, FactsBacked, Serving, Extends, Do,
      NextView, Stirred, NextAnswer;
    ghost var took, before;
    ok, took, before := c.Write(CreateDetJob(h), m);
    StillReady(old(c.Now()), View(before, c.facts, c.script), m, h);
    CreateConfigJobSafe(before, h);
    CreateConfigJobOk(m, before, c.facts, h);
    DetJobCreated(before, h);
  }

  /** What held when the Job was asked for still holds when the request is served. */
  lemma StillReady(a: View, b: View, m: Spec, h: DetHash)
    requires Moved(a, b, Nothing) && MigrationDone(a.w.mig, m.image)
    requires a.w.det.jobs.Keys == {} && a.w.det.sql == Some(h) && (h.mode == Managed ==> Serving(a.w))
    ensures MigrationDone(b.w.mig, m.image) && b.w.det.jobs == map[] && b.w.det.sql == Some(h)
    ensures (h.mode == Managed ==> Serving(b.w)) && b.w.detService == a.w.detService && b.facts.db == a.facts.db
    ensures Accepts(b.w, CreateDetJob(h)) && a.w.det.jobs == map[] && Accepts(a.w, CreateDetJob(h))
  {
    hide Calm, Eased, Steady;
  }

  lemma CreateConfigJobOk(m: Spec, w: World, f: Facts, h: DetHash)
    requires !m.suspend && f.DbReady() && MigrationDone(w.mig, m.image) && w.det.jobs == map[] && w.det.sql == Some(h)
    ensures EventOk(Wrote(CreateDetJob(h), m, w, f))
  {
  }

  lemma DetJobCreated(w: World, h: DetHash)
    ensures h in Do(w, CreateDetJob(h)).det.jobs && Do(w, CreateDetJob(h)).detService == w.detService
  {
  }

  lemma CreateConfigJobSafe(w: World, h: DetHash)
    requires Inv(w) && w.det.jobs == map[] && w.det.sql == Some(h)
    requires h.mode == Managed ==> Serving(w)
    ensures Inv(Do(w, CreateDetJob(h)))
  {
  }

  /** The part of reconcileSensitiveDetectorConfig after the state ConfigMap is applied. */
  method AwaitConfigJob(c: Cluster, m: Spec, h: DetHash) returns (r: Option<bool>)
    requires c.Valid() && !m.suspend && c.facts.DbReady() && MigrationDone(c.w.mig, m.image)
    requires c.w.det.sql == Some(h) && forall k | k in c.w.det.jobs :: k == h
    requires h.mode == Managed ==> Serving(c.w)
    modifies c
    ensures c.Valid() && Extends(old(c.log), c.log, m)
    ensures Moved(old(c.Now()), c.Now(), DetectorArea) && c.w.detService == old(c.w.detService)
    ensures r == Some(true) ==> MetaDone(c.w.det, h)
    ensures r == Some(false) ==> h in c.w.det.jobs && !Succeeded(old(c.w.det.jobs), h)
    ensures Calm(old(c.script)) ==> r.Some?
  {
    hide Calm, Eased, KeepsMigrations, EventOk, Balanced, Rooted, FactsBacked;
    ghost var v0 := c.Now();
    var job := c.ReadDetJob(h);
    ghost var v1 := c.Now();
    Broaden(v0, v1, DetectorArea);
    MigrationDoneKept(v0, v1, m.image);
    match job {
      case Unread => return None;
      case NotFound =>
        var ok := CreateConfigJob(c, m, h);
        Compose(v0, v1, c.Now(), Nothing, DetectorArea);
        return if ok then Some(false) else None;
      case Found(j) => return Some(j.succeeded >= 1);
    }
  }

  lemma ServingKept(a: View, b: View)
    requires Serving(a.w) && Moved(a, b, DetectorArea) && a.w.detService == b.w.detService
    ensures Serving(b.w)
  {
  }

  /** The Job that will write the wanted detector settings exists. */
  ghost predicate DetPending(m: Spec, w: World, t: Trust) {
    exists h :: h in w.det.jobs && DetHashFor(m, h, t, w.secrets)
  }

  /** Other Jobs go, then the state ConfigMap is written. */
  method InstallState(c: Cluster, m: Spec, h: DetHash) returns (ok: bool)
    requires c.Valid()
    modifies c
    ensures c.Valid() && Extends(old(c.log), c.log, m)
    ensures Moved(old(c.Now()), c.Now(), DetectorArea) && c.w.detService == old(c.w.detService)
    ensures ok ==> c.w.det.sql == Some(h) && forall k | k in c.w.det.jobs :: k == h
    ensures Succeeded(old(c.w.det.jobs), h) ==> Succeeded(c.w.det.jobs, h)
    ensures Calm(old(c.script)) ==> ok
  {
    hide Calm, Eased, Cluster.Valid, Moved;
    ghost var v0 := c.Now();
    ok := CleanupDetJobs(c, m, Some(h));
    ghost var v1 := c.Now();
    StaysCalm(v0, v1, DetectorArea);
    if !ok { return; }
    ok := PutState(c, m, h);
    Compose(v0, v1, c.Now(), DetectorArea, DetectorArea);
  }

  /** reconcileSensitiveDetectorConfig. `Some(true)`: the row holds the wanted settings. */
  method ReconcileConfig(c: Cluster, m: Spec) returns (r: Option<bool>)
    requires c.Valid() && !m.suspend && c.facts.DbReady() && MigrationDone(c.w.mig, m.image)
    requires m.det.ManagedDet? ==> Serving(c.w)
    modifies c
    ensures c.Valid() && Extends(old(c.log), c.log, m)
    ensures Moved(old(c.Now()), c.Now(), DetectorArea) && c.w.detService == old(c.w.detService)
    ensures r == Some(true) ==> DetConfigured(m, c.w, Within(c.facts))
    ensures r == Some(false) ==> DetPending(m, c.w, Within(c.facts))
    ensures r == Some(false) && c.facts.quiet ==>
      forall h :: MetaDone(old(c.w.det), h) ==> !DetHashFor(m, h, Exact, old(c.w.secrets))
    ensures Calm(old(c.script)) ==> r.Some?
  {
    hide Cluster.Valid, Calm, Moved, MigrationDone, DetHashFor, Serving, MetaDone, Succeeded;
    ghost var v0 := c.Now();
    var hash := ConfigHash(c, m);
    ghost var v1 := c.Now();
    Broaden(v0, v1, DetectorArea);
    ServiceKept(v0, v1, Nothing);
    StaysCalm(v0, v1, Nothing);
    if hash.None? { return None; }
    var h := hash.value;
    QuietDetSuccess(m, v0, v1, h);
    ManagedHash(m, h, v1);
    var ok := InstallState(c, m, h);
    ghost var v3 := c.Now();
    Compose(v0, v1, v3, Nothing, DetectorArea);
    StaysCalm(v1, v3, DetectorArea);
    if !ok { return None; }
    MigrationDoneKept(v0, v3, m.image);
    if m.det.ManagedDet? { ServingKept(v0, v3); }
    r := AwaitConfigJob(c, m, h);
    ghost var v4 := c.Now();
    Compose(v0, v3, v4, DetectorArea, DetectorArea);
    HashStays(m, v1, v3, v4, h);
    QuietBefore(v1, v3, v4);
  }

  lemma ManagedHash(m: Spec, h: DetHash, v: View)
    requires DetHashFor(m, h, Within(v.facts), v.w.secrets)
    ensures h.mode == Managed <==> m.det.ManagedDet?
  {
  }

  /** The hash is still that of `m`, and what is configured by it is configured for `m`. */
  lemma HashStays(m: Spec, a: View, b: View, c: View, h: DetHash)
    requires DetHashFor(m, h, Within(a.facts), a.w.secrets) && Moved(a, b, DetectorArea) && Moved(b, c, DetectorArea)
    ensures DetHashFor(m, h, Within(c.facts), c.w.secrets)
    ensures MetaDone(c.w.det, h) ==> DetConfigured(m, c.w, Within(c.facts))
    ensures h in c.w.det.jobs ==> DetPending(m, c.w, Within(c.facts))
  {
    hide KeepsMigrations, KeepsMeta, KeepsWork, Calm, DetHashFor, MetaDone, Steady;
    DetHashKept(a, b, m, h);
    DetHashKept(b, c, m, h);
  }

  lemma QuietBefore(a: View, b: View, c: View)
    requires Moved(a, b, DetectorArea) && Moved(b, c, DetectorArea)
    ensures c.facts.quiet ==> a.facts.quiet
  {
  }

  /** If nothing stirred, settings that were in the row at the start are those the pass looks for. */
  lemma QuietDetSuccess(m: Spec, a: View, b: View, h: DetHash)
    requires Moved(a, b, Nothing) && DetHashFor(m, h, Within(b.facts), b.w.secrets)
    ensures b.facts.quiet ==>
      forall k :: MetaDone(a.w.det, k) && DetHashFor(m, k, Exact, a.w.secrets) ==> Succeeded(b.w.det.jobs, h)
  {
    hide KeepsMigrations, KeepsWork, DetHashFor, Calm, Steady;
    if b.facts.quiet {
      QuietDet(m, h, b.facts, b.w.secrets);
      forall k | MetaDone(a.w.det, k) && DetHashFor(m, k, Exact, a.w.secrets) ensures Succeeded(b.w.det.jobs, h) {
        SameDetHash(m, h, k, Exact, b.w.secrets);
      }
    }
  }

  // ----- The managed detector's own objects -----

  /** Of all but the migrations, nothing was written that is not the detector's own. */
  ghost predicate Sidestep(a: View, b: View) {
    && Moved(a, b, Wide) && Spares(a, b, DetectorRole)
    && KeepsMeta(a.w.det, b.w.det) && KeepsMeta(a.w.obj, b.w.obj)
    && (Calm(a.script) ==> Unstirred(a, b))
  }

  lemma SidestepTwice(a: View, b: View, c: View)
    requires Sidestep(a, b) && Sidestep(b, c)
    ensures Sidestep(a, c)
  {
    hide Moved, Spares, KeepsMeta, Calm;
    StaysCalm(a, b, Wide);
    Compose(a, b, c, Wide, Wide);
    SparesCompose(a, b, c, DetectorRole);
    KeepsTransitive(a.w, b.w, c.w);
  }

  lemma SidestepByMove(a: View, b: View, touched: Area)
    requires Moved(a, b, touched) && (touched.Nothing? || touched.DetectorArea? || touched.WorkloadArea?)
    requires touched.DetectorArea? ==> KeepsMeta(a.w.det, b.w.det)
    requires touched.WorkloadArea? ==> Spares(a, b, DetectorRole)
    ensures Sidestep(a, b)
  {
    hide KeepsMeta, KeepsMigrations, KeepsWork, Spares, Calm, Steady;
    Widen(a, b, touched);
    if !touched.WorkloadArea? {
      SparesByMove(a, b, touched, DetectorRole);
    }
  }

  method ApplyService(c: Cluster, m: Spec) returns (ok: bool)
    requires c.Valid()
    modifies c
    ensures c.Valid() && Extends(old(c.log), c.log, m) && Sidestep(old(c.Now()), c.Now())
    ensures Moved(old(c.Now()), c.Now(), DetectorArea)
    ensures ok ==> c.w.detService
    ensures Calm(old(c.script)) ==> ok
  {
    hide Calm, Eased, KeepsMigrations, KeepsWork, Balanced, Honest, Rooted, FactsBacked, Sidestep,
      NextView, Stirred, NextAnswer;
    ghost var took, before;
    ok, took, before := c.Write(PutDetService, m);
    SidestepByMove(old(c.Now()), c.Now(), DetectorArea);
  }

  /** The name of the Secret with the managed detector's key. */
  ghost function KeyName(m: Spec): string
    requires m.det.ManagedDet?
  {
    if m.det.apiKeySecret.Some? then m.det.apiKeySecret.value else GENERATED_DETECTOR_SECRET
  }

  /** The Deployment of the managed detector is what the spec and the key's Secret call for. */
  ghost predicate DetectorSettled(m: Spec, w: World) {
    && m.det.ManagedDet? && DetectorRole in w.work.deployments
    && var d := w.work.deployments[DetectorRole];
       && d.image == m.det.image && d.replicas == Some(if m.det.replicas.Some? then m.det.replicas.value else 1)
       && d.checksum == Some(Checksum("config.mjs", [VersionIn(w.secrets, KeyName(m))], None, None))
  }

  lemma AsWantedKept(m: Spec, next: Deployment, a: View, b: View)
    requires DetectorAsWanted(m, next, a.facts, a.w.secrets) && Moved(a, b, Nothing)
    ensures DetectorAsWanted(m, next, b.facts, b.w.secrets)
  {
    hide KeepsMigrations, KeepsMeta, KeepsWork, VersionOk, Calm, Eased;
    VersionKept(a, b, next.checksum.value.versions[0]);
  }

  lemma PutDetectorSafe(m: Spec, w: World, f: Facts, seen: Option<Deployment>, next: Deployment)
    requires Inv(w) && !m.suspend && DetectorAsWanted(m, next, f, w.secrets)
    ensures
      var op := PutDeployment(DetectorRole, seen, next);
      EventOk(Wrote(op, m, w, f)) && Inv(Do(w, op))
  {
    hide Sound, DetectorAsWanted;
  }

  lemma PutSpares(a: View, b: View, role: Role, next: Deployment)
    requires Moved(a, b, Nothing)
    ensures Spares(a, b, role)
    ensures forall seen :: Spares(a, b.(w := Do(b.w, PutDeployment(role, seen, next))), role)
  {
    hide KeepsMigrations, KeepsMeta, Steady, Calm;
  }

  method ApplyDeployment(c: Cluster, m: Spec, seen: Option<Deployment>, next: Deployment) returns (ok: bool)
    requires c.Valid() && !m.suspend && DetectorAsWanted(m, next, c.facts, c.w.secrets)
    modifies c
    ensures c.Valid() && Extends(old(c.log), c.log, m) && Sidestep(old(c.Now()), c.Now())
    ensures Moved(old(c.Now()), c.Now(), WorkloadArea)
    ensures ok ==> DetectorRole in c.w.work.deployments
    ensures Calm(old(c.script)) && Accepts(old(c.w), PutDeployment(DetectorRole, seen, next)) ==>
      ok && DetectorRole in c.w.work.deployments && c.w.work.deployments[DetectorRole] == next
  {
    hide Calm, Moved, Inv, EventOk, Balanced, Honest, Rooted, FactsBacked, Sidestep,
      NextView, Stirred, NextAnswer, Spares, DetectorAsWanted;
    ghost var took, before;
    ok, took, before := c.Write(PutDeployment(DetectorRole, seen, next), m);
    ghost var b := View(before, c.facts, c.script);
    AsWantedKept(m, next, old(c.Now()), b);
    PutDetectorSafe(m, before, c.facts, seen, next);
    PutSpares(old(c.Now()), b, DetectorRole, next);
    SidestepByMove(old(c.Now()), c.Now(), WorkloadArea);
    if Calm(old(c.script)) {
      SameWhenCalm(old(c.Now()), b, Nothing);
    }
  }

  lemma NextAsWanted(m: Spec, d: Option<Deployment>, key: Version, v: View)
    requires m.det.ManagedDet? && key.name == KeyName(m) && VersionOk(Within(v.facts), v.w.secrets, key)
    ensures DetectorAsWanted(m, NextDeployment(m, d, key), v.facts, v.w.secrets)
  {
    hide VersionOk;
  }

  /** What the managed detector's Deployment is made into. */
  function NextDeployment(m: Spec, seen: Option<Deployment>, key: Version): Deployment
    requires m.det.ManagedDet?
  {
    var cs, n := Checksum("config.mjs", [key], None, None), Some(Or(m.det.replicas, 1));
    if seen.Some? then Revise(seen.value, m.det.image, cs, n) else Deployment(m.det.image, Some(cs), n, 1, 0, 0, 0)
  }

  /** The Deployment part of reconcileSensitiveDetector. */
  method ReconcileDeployment(c: Cluster, m: Spec) returns (ok: bool)
    requires c.Valid() && !m.suspend && m.det.ManagedDet?
    modifies c
    ensures c.Valid() && Extends(old(c.log), c.log, m) && Sidestep(old(c.Now()), c.Now())
    ensures c.w.detService == old(c.w.detService)
    ensures ok ==> DetectorRole in c.w.work.deployments
    ensures Calm(old(c.script)) ==> ok && DetectorSettled(m, c.w)
    ensures Calm(old(c.script)) && DetectorSettled(m, old(c.w)) ==>
      c.w.work.deployments[DetectorRole] == old(c.w.work.deployments[DetectorRole])
  {
    hide Cluster.Valid, Calm, Moved, Sidestep, VersionOk, DetectorAsWanted;
    ghost var v0 := c.Now();
    var dep := c.ReadDeployment(DetectorRole);
    ghost var v1 := c.Now();
    SidestepByMove(v0, v1, Nothing);
    ServiceKept(v0, v1, Nothing);
    StaysCalm(v0, v1, Nothing);
    if dep.Unread? { return false; }
    var key := c.SecretVersion(KeySecretOf(m.det).value);
    ghost var v2 := c.Now();
    Compose(v0, v1, v2, Nothing, Nothing);
    SidestepByMove(v0, v2, Nothing);
    ServiceKept(v0, v2, Nothing);
    StaysCalm(v0, v2, Nothing);
    if key.None? { return false; }
    var seen := if dep.Found? then Some(dep.value) else None;
    NextAsWanted(m, seen, key.value, v2);
    ok := ApplyDeployment(c, m, seen, NextDeployment(m, seen, key.value));
    SidestepTwice(v0, v2, c.Now());
    ServiceKept(v2, c.Now(), WorkloadArea);
    if Calm(v0.script) {
      SameWhenCalm(v0, v1, Nothing);
      SameWhenCalm(v0, v2, Nothing);
      SameWhenCalm(v2, c.Now(), WorkloadArea);
    }
  }

  lemma ServiceKept(a: View, b: View, touched: Area)
    requires Moved(a, b, touched) && !touched.DetectorArea? && !touched.Wide?
    ensures a.w.detService == b.w.detService
  {
  }

  /** reconcileSensitiveDetector: ConfigMap, Service, Deployment and disruption budget, in this order. */
  method ReconcileObjects(c: Cluster, m: Spec) returns (ok: bool)
    requires c.Valid() && !m.suspend && m.det.ManagedDet?
    modifies c
    ensures c.Valid() && Extends(old(c.log), c.log, m) && Sidestep(old(c.Now()), c.Now())
    ensures ok ==> Serving(c.w)
    ensures Calm(old(c.script)) ==> ok && DetectorSettled(m, c.w)
    ensures Calm(old(c.script)) && DetectorSettled(m, old(c.w)) ==>
      c.w.work.deployments[DetectorRole] == old(c.w.work.deployments[DetectorRole])
  {
    hide Cluster.Valid, Calm, Moved, Sidestep;
    ghost var v0 := c.Now();
    ok := c.Other();
    ghost var v1 := c.Now();
    SidestepByMove(v0, v1, Nothing);
    StaysCalm(v0, v1, Nothing);
    if !ok { return; }
    ok := ApplyService(c, m);
    ghost var v2 := c.Now();
    SidestepTwice(v0, v1, v2);
    StaysCalm(v1, v2, DetectorArea);
    if !ok { return; }
    ok := ReconcileDeployment(c, m);
    ghost var v3 := c.Now();
    SidestepTwice(v0, v2, v3);
    CalmAside(v2, v3);
    if !ok { return; }
    ok := c.Other();
    SidestepByMove(v3, c.Now(), Nothing);
    SidestepTwice(v0, v3, c.Now());
    ServingKeptByEnvironment(v3, c.Now());
    if Calm(v0.script) {
      SameWhenCalm(v0, v1, Nothing);
      SameWhenCalm(v1, v2, DetectorArea);
      SameWhenCalm(v3, c.Now(), Nothing);
    }
  }

  lemma CalmAside(a: View, b: View)
    requires Sidestep(a, b)
    ensures Calm(a.script) ==> Calm(b.script) && Unstirred(a, b)
  {
    hide Calm, Spares, KeepsMeta;
    StaysCalm(a, b, Wide);
  }

  lemma ServingKeptByEnvironment(a: View, b: View)
    requires Serving(a.w)
    requires Moved(a, b, Nothing) || Moved(a, b, MigrationArea) || Moved(a, b, ObjectStorageArea)
    ensures Serving(b.w)
  {
  }

  method StoreKey(c: Cluster, m: Spec, version: nat) returns (ok: bool)
    requires c.Valid() && m.det.ManagedDet? && m.det.apiKeySecret.None?
    modifies c
    ensures c.Valid() && Extends(old(c.log), c.log, m)
    ensures Moved(old(c.Now()), c.Now(), SecretArea)
    ensures ok ==> GENERATED_DETECTOR_SECRET in c.w.secrets
    ensures Calm(old(c.script)) && GENERATED_DETECTOR_SECRET !in old(c.w.secrets) ==> ok
  {
    hide Calm, Moved, Balanced, Honest, Inv, Rooted, FactsBacked, NextView, NextAnswer;
    ghost var took, before;
    ok, took, before := c.Write(PutSecret(GENERATED_DETECTOR_SECRET, version), m);
    SecretSafe(before, PutSecret(GENERATED_DETECTOR_SECRET, version));
    if Calm(old(c.script)) {
      CalmNextView(old(c.Now()));
    }
  }

  lemma SecretSafe(w: World, op: Op)
    requires Inv(w) && (op.PutSecret? || op.DeleteSecret?)
    ensures Inv(Do(w, op))
  {
  }

  /** The key is the user's, or has been generated. */
  ghost predicate KeyThere(m: Spec, w: World) {
    m.det.ManagedDet? && m.det.apiKeySecret.None? ==> GENERATED_DETECTOR_SECRET in w.secrets
  }

  /** reconcileSensitiveDetectorSecret: generates the API key Secret once. */
  method ReconcileKey(c: Cluster, m: Spec, version: nat) returns (ok: bool)
    requires c.Valid() && m.det.ManagedDet?
    modifies c
    ensures c.Valid() && Extends(old(c.log), c.log, m)
    ensures Moved(old(c.Now()), c.Now(), SecretArea)
    ensures ok ==> KeyThere(m, c.w)
    ensures Calm(old(c.script)) ==> ok
    ensures Calm(old(c.script)) && KeyThere(m, old(c.w)) ==> Unstirred(old(c.Now()), c.Now())
  {
    hide Cluster.Valid, Moved, Calm;
    ghost var v0 := c.Now();
    Idle(v0, SecretArea);
    if m.det.apiKeySecret.Some? { return true; }
    var present := c.SecretVersion(GENERATED_DETECTOR_SECRET);
    ghost var v1 := c.Now();
    Broaden(v0, v1, SecretArea);
    StaysCalm(v0, v1, Nothing);
    if Calm(v0.script) {
      SameWhenCalm(v0, v1, Nothing);
    }
    if present.None? { return false; }
    if present.value.at.Some? { return true; }
    ok := StoreKey(c, m, version);
    Compose(v0, v1, c.Now(), Nothing, SecretArea);
  }
}

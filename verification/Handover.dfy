/** The second phase of a detector change: the old objects go once nothing uses them. */
module Handover {
  import opened Wrappers
  import opened ClusterState
  import opened History
  import opened Cluster
  import opened MetaRow
  import opened Workload
  import Detector

  /** Once the row holds the wanted settings, and they are not managed ones, the detector is unused. */
  lemma ConfiguredMeansUnused(m: Spec, w: World, t: Trust)
    requires Inv(w) && DetConfigured(m, w, t) && !m.det.ManagedDet?
    ensures !ManagedInUse(w.det)
    ensures m.det.Off? ==> RowReset(w.det)
  {
  }

  /** The row holds no settings of the operator and no Job will write any. */
  ghost predicate RowReset(det: MetaConfig<DetHash>) {
    !RowConfigured(det) && forall h | h in det.jobs :: h.mode == Reset
  }

  lemma UnusedKept(a: MetaConfig<DetHash>, b: MetaConfig<DetHash>)
    requires KeepsMeta(a, b)
    ensures !ManagedInUse(a) ==> !ManagedInUse(b)
    ensures RowReset(a) ==> RowReset(b)
  {
    if !ManagedInUse(a) && b.row != a.row {
      assert b.row.value in a.jobs;
    }
  }

  /** The current template was observed, and as many pods of it as there are to be, 1 if nothing is said, are up. */
  ghost predicate RolledOut(w: World, role: Role) {
    role in w.work.deployments &&
      var d := w.work.deployments[role];
      && d.observed >= d.generation
      && (d.replicas.Some? ==> d.updated >= d.replicas.value && d.available >= d.replicas.value)
      && (d.replicas.None? ==> d.updated >= 1 && d.available >= 1)
  }

  /** One Deployment in misskeyWorkloadsConverged. */
  method ComponentConverged(c: Cluster, role: Role, want: Checksum) returns (yes: bool)
    requires c.Valid()
    modifies c
    ensures c.Valid() && Moved(old(c.Now()), c.Now(), Nothing) && c.log == old(c.log)
    ensures yes ==> TemplateAt(c.w, role, want) && RolledOut(c.w, role)
    ensures Calm(old(c.script)) ==> (yes <==> TemplateAt(old(c.w), role, want) && RolledOut(old(c.w), role))
  {
    hide Cluster.Valid, Calm, Moved;
    var dep := c.ReadDeployment(role);
    if Calm(old(c.script)) {
      SameWhenCalm(old(c.Now()), c.Now(), Nothing);
    }
    if !dep.Found? { return false; }
    var d := dep.value;
    var desired := Or(d.replicas, 1);
    yes := d.checksum == Some(want) && d.observed >= d.generation
        && d.updated >= desired && d.available >= desired;
  }

  lemma TemplateKept(a: View, b: View, role: Role, want: Checksum)
    requires TemplateAt(a.w, role, want)
    requires Moved(a, b, Nothing) || Moved(a, b, DetectorArea)
    ensures TemplateAt(b.w, role, want)
  {
    hide KeepsMigrations, KeepsMeta, Steady, Calm;
  }

  /** App and worker carry the checksum of `m` as its Secrets are, and are rolled out. */
  ghost predicate Converged(m: Spec, w: World) {
    exists cs :: ChecksumFor(m, cs, Exact, w.secrets) && At(w, cs)
  }

  ghost predicate At(w: World, cs: Checksum) {
    TemplateAt(w, App, cs) && RolledOut(w, App) && TemplateAt(w, Worker, cs) && RolledOut(w, Worker)
  }

  /**
   misskeyWorkloadsConverged: the checksum both templates carry, when they do and are rolled out.
   The app is judged at `seen`, the worker at the end. When all is calm the answer is exact.
   */
  method WorkloadsConverged(c: Cluster, m: Spec) returns (r: Option<Checksum>, ghost seen: View)
    requires c.Valid()
    modifies c
    ensures c.Valid() && Moved(old(c.Now()), c.Now(), Nothing) && c.log == old(c.log)
    ensures r.Some? ==> ChecksumFor(m, r.value, Loose, c.w.secrets)
    ensures r.Some? ==> TemplateAt(c.w, App, r.value) && TemplateAt(c.w, Worker, r.value)
    ensures r.Some? ==> RolledOut(c.w, Worker) && RolledOut(seen.w, App) && TemplateAt(seen.w, App, r.value)
    ensures r.Some? ==> Moved(old(c.Now()), seen, Nothing) && Moved(seen, c.Now(), Nothing)
    ensures Calm(old(c.script)) && old(c.facts.quiet) ==> (r.Some? <==> Converged(m, old(c.w)))
  {
    hide Cluster.Valid, Calm, Moved, TemplateAt, RolledOut, ChecksumFor;
    ghost var v0 := c.Now();
    seen := v0;
    var want := MisskeyChecksum(c, m);
    ghost var v1 := c.Now();
    StaysCalm(v0, v1, Nothing);
    if want.None? { return None, seen; }
    var app := ComponentConverged(c, App, want.value);
    ghost var v2 := c.Now();
    Compose(v0, v1, v2, Nothing, Nothing);
    StaysCalm(v0, v2, Nothing);
    ConvergedIs(m, want.value, v0, v1, v2);
    seen := v2;
    if !app { return None, seen; }
    var worker := ComponentConverged(c, Worker, want.value);
    Compose(v0, v2, c.Now(), Nothing, Nothing);
    TemplateKept(v2, c.Now(), App, want.value);
    LooseChecksum(m, want.value, v1, c.w.secrets);
    if !worker { return None, seen; }
    r := want;
  }

  lemma LooseChecksum(m: Spec, cs: Checksum, v: View, secrets: map<string, nat>)
    requires ChecksumFor(m, cs, Within(v.facts), v.w.secrets)
    ensures ChecksumFor(m, cs, Loose, secrets)
  {
  }

  /** In a calm and quiet pass what was computed is the one checksum, and the Deployments stay as they are. */
  lemma ConvergedIs(m: Spec, cs: Checksum, a: View, b: View, c: View)
    requires ChecksumFor(m, cs, Within(b.facts), b.w.secrets) && Moved(a, b, Nothing) && Moved(a, c, Nothing)
    ensures Calm(a.script) && a.facts.quiet ==> (Converged(m, a.w) <==> At(b.w, cs))
    ensures Calm(a.script) ==> b.w.work.deployments == a.w.work.deployments == c.w.work.deployments
    ensures Calm(a.script) ==> forall r :: TemplateAt(b.w, r, cs) == TemplateAt(c.w, r, cs) && RolledOut(b.w, r) == RolledOut(c.w, r)
  {
    hide Moved, Calm, ChecksumFor;
    if Calm(a.script) {
      SameWhenCalm(a, b, Nothing);
      SameWhenCalm(a, c, Nothing);
      if a.facts.quiet {
        QuietChecksum(m, cs, b.facts, b.w.secrets);
        if Converged(m, a.w) {
          var ds :| ChecksumFor(m, ds, Exact, a.w.secrets) && At(a.w, ds);
          OneChecksum(m, cs, ds, a.w.secrets);
        }
      }
    }
  }

  lemma ReplacedKept(m: Spec, a: View, b: View, want: Checksum)
    requires DetectorReplaced(m, a.w, want) && Moved(a, b, Nothing)
    ensures DetectorReplaced(m, b.w, want)
  {
    hide Calm, Eased, KeepsMigrations, Grows, ManagedInUse, TemplateAt, KeepsWork, Rooted, FactsBacked, Steady;
    UnusedKept(a.w.det, b.w.det);
    TemplateKept(a, b, App, want);
    TemplateKept(a, b, Worker, want);
  }

  lemma DropDeploymentSafe(m: Spec, w: World, want: Checksum, f: Facts)
    requires Inv(w) && DetectorReplaced(m, w, want)
    ensures
      var op := DeleteDetDeployment(want);
      EventOk(Wrote(op, m, w, f)) && Inv(Do(w, op)) && DetectorReplaced(m, Do(w, op), want)
  {
    hide ChecksumFor;
  }

  lemma DropServiceSafe(m: Spec, w: World, want: Checksum, f: Facts)
    requires Inv(w) && DetectorReplaced(m, w, want)
    ensures
      var op := DeleteDetService(want);
      EventOk(Wrote(op, m, w, f)) && Inv(Do(w, op)) && DetectorReplaced(m, Do(w, op), want)
  {
    hide ChecksumFor;
  }

  /** The managed detector cannot be reached and nothing runs for it. */
  ghost predicate Gone(w: World) {
    !w.detService && DetectorRole !in w.work.deployments
  }

  /** The operator wrote nothing of app, worker and the migrations. */
  ghost predicate Handed(a: View, b: View) {
    Moved(a, b, Wide) && Spares(a, b, DetectorRole)
  }

  lemma HandedTwice(a: View, b: View, c: View)
    requires Handed(a, b) && Handed(b, c)
    ensures Handed(a, c)
  {
    hide Moved, Spares, Calm;
    StaysCalm(a, b, Wide);
    Compose(a, b, c, Wide, Wide);
    SparesCompose(a, b, c, DetectorRole);
  }

  lemma HandedByMove(a: View, b: View, touched: Area)
    requires Moved(a, b, touched) && !touched.MigrationArea? && !touched.Wide?
    requires touched.WorkloadArea? ==> Spares(a, b, DetectorRole)
    ensures Handed(a, b)
  {
    hide Moved, Spares, Calm;
    Widen(a, b, touched);
    if !touched.WorkloadArea? {
      SparesByMove(a, b, touched, DetectorRole);
    }
  }

  lemma CalmHanded(a: View, b: View)
    requires Handed(a, b)
    ensures Calm(a.script) ==> Calm(b.script)
  {
    hide Spares, Calm, Moved;
    StaysCalm(a, b, Wide);
  }

  lemma GoneKept(a: View, b: View, touched: Area)
    requires Moved(a, b, touched) && (touched.Nothing? || touched.SecretArea? || touched.DetectorArea?)
    requires touched.DetectorArea? ==> a.w.detService == b.w.detService
    ensures Gone(a.w) ==> Gone(b.w)
    ensures DetectorRole !in a.w.work.deployments ==> DetectorRole !in b.w.work.deployments
  {
    hide KeepsMigrations, KeepsMeta, Steady, Calm;
  }

  lemma MetaKept(a: View, b: View, touched: Area)
    requires Moved(a, b, touched) && (touched.Nothing? || touched.SecretArea? || touched.WorkloadArea?)
    ensures KeepsMeta(a.w.det, b.w.det)
  {
  }

  lemma DeleteSpares(a: View, b: View)
    requires Moved(a, b, Nothing)
    ensures forall want :: Spares(a, b.(w := Do(b.w, DeleteDetDeployment(want))), DetectorRole)
    ensures Spares(a, b, DetectorRole)
  {
    hide KeepsMigrations, KeepsMeta, Steady, Calm;
  }

  method DropDeployment(c: Cluster, m: Spec, want: Checksum) returns (ok: bool)
    requires c.Valid() && DetectorReplaced(m, c.w, want)
    modifies c
    ensures c.Valid() && Extends(old(c.log), c.log, m) && DetectorReplaced(m, c.w, want)
    ensures KeepsMeta(old(c.w.det), c.w.det) && Handed(old(c.Now()), c.Now())
    ensures ok ==> DetectorRole !in c.w.work.deployments
    ensures Calm(old(c.script)) ==> ok
  {
    hide Calm, Moved, Balanced, Honest, EventOk, Inv, KeepsMeta, DetectorReplaced, Rooted, FactsBacked, Spares, Handed,
      NextView, Stirred, NextAnswer;
    ghost var took, before;
    ok, took, before := c.Write(DeleteDetDeployment(want), m);
    ghost var a, b := old(c.Now()), View(before, c.facts, c.script);
    ReplacedKept(m, a, b, want);
    DropDeploymentSafe(m, before, want, c.facts);
    MetaKept(a, b, Nothing);
    DeleteSpares(a, b);
    HandedByMove(a, c.Now(), WorkloadArea);
  }

  method DropService(c: Cluster, m: Spec, want: Checksum) returns (ok: bool)
    requires c.Valid() && DetectorReplaced(m, c.w, want)
    modifies c
    ensures c.Valid() && Extends(old(c.log), c.log, m)
    ensures KeepsMeta(old(c.w.det), c.w.det) && Handed(old(c.Now()), c.Now())
    ensures ok && DetectorRole !in old(c.w.work.deployments) ==> Gone(c.w)
    ensures Calm(old(c.script)) ==> ok
  {
    hide Calm, Moved, Balanced, Honest, EventOk, Inv, KeepsMeta, DetectorReplaced, Rooted, FactsBacked, Handed,
      NextView, Stirred, NextAnswer;
    ghost var took, before;
    ok, took, before := c.Write(DeleteDetService(want), m);
    ghost var a, b := old(c.Now()), View(before, c.facts, c.script);
    ReplacedKept(m, a, b, want);
    DropServiceSafe(m, before, want, c.facts);
    GoneKept(a, b, Nothing);
    MetaKept(a, b, Nothing);
    HandedByMove(a, c.Now(), DetectorArea);
  }

  /** A call about objects that are not modelled. */
  method Aside(c: Cluster) returns (ok: bool)
    requires c.Valid()
    modifies c
    ensures c.Valid() && Handed(old(c.Now()), c.Now()) && KeepsMeta(old(c.w.det), c.w.det) && c.log == old(c.log)
    ensures Gone(old(c.w)) ==> Gone(c.w)
    ensures Calm(old(c.script)) ==> ok
  {
    hide Cluster.Valid, Calm, Moved, Handed, Gone, KeepsMeta;
    ok := c.Other();
    HandedByMove(old(c.Now()), c.Now(), Nothing);
    GoneKept(old(c.Now()), c.Now(), Nothing);
    MetaKept(old(c.Now()), c.Now(), Nothing);
  }

  /** cleanupSensitiveDetector: Deployment, Service, disruption budget, ConfigMap. */
  method CleanupObjects(c: Cluster, m: Spec, want: Checksum) returns (ok: bool)
    requires c.Valid() && DetectorReplaced(m, c.w, want)
    modifies c
    ensures c.Valid() && Extends(old(c.log), c.log, m) && Handed(old(c.Now()), c.Now())
    ensures RowReset(old(c.w.det)) ==> RowReset(c.w.det)
    ensures ok ==> Gone(c.w)
    ensures Calm(old(c.script)) ==> ok
  {
    hide Cluster.Valid, Calm, DetectorReplaced, KeepsMeta, RowReset, Handed;
    ghost var v0 := c.Now();
    ok := DropDeployment(c, m, want);
    ghost var v1 := c.Now();
    UnusedKept(v0.w.det, v1.w.det);
    CalmHanded(v0, v1);
    if !ok { return; }
    ok := DropService(c, m, want);
    ghost var v2 := c.Now();
    UnusedKept(v1.w.det, v2.w.det);
    HandedTwice(v0, v1, v2);
    CalmHanded(v0, v2);
    if !ok { return; }
    ok := Aside(c);
    ghost var v3 := c.Now();
    UnusedKept(v2.w.det, v3.w.det);
    HandedTwice(v0, v2, v3);
    CalmHanded(v0, v3);
    if !ok { return; }
    ok := Aside(c);
    UnusedKept(v3.w.det, c.w.det);
    HandedTwice(v0, v3, c.Now());
  }

  /** The generated key is not the one in use. */
  predicate KeySpare(m: Spec) {
    m.det.ManagedDet? ==> m.det.apiKeySecret.Some? && m.det.apiKeySecret.value != GENERATED_DETECTOR_SECRET
  }

  /** Deletes the generated key. */
  method DropSecret(c: Cluster, m: Spec) returns (ok: bool)
    requires c.Valid() && KeySpare(m)
    modifies c
    ensures c.Valid() && Extends(old(c.log), c.log, m) && Moved(old(c.Now()), c.Now(), SecretArea)
    ensures ok ==> GENERATED_DETECTOR_SECRET !in c.w.secrets
    ensures Calm(old(c.script)) ==> ok
  {
    hide Calm, Moved, Balanced, Honest, Inv, Rooted, FactsBacked, NextView, Stirred, NextAnswer;
    ghost var took, before;
    ok, took, before := c.Write(DeleteSecret(GENERATED_DETECTOR_SECRET), m);
    Detector.SecretSafe(before, DeleteSecret(GENERATED_DETECTOR_SECRET));
  }

  /** cleanupGeneratedSensitiveDetectorSecret: reads the Secret, then deletes it if it is the operator's. */
  method DropKey(c: Cluster, m: Spec, owned: bool) returns (ok: bool)
    requires c.Valid() && KeySpare(m)
    modifies c
    ensures c.Valid() && Extends(old(c.log), c.log, m) && Moved(old(c.Now()), c.Now(), SecretArea)
    ensures ok && owned ==> GENERATED_DETECTOR_SECRET !in c.w.secrets
    ensures Calm(old(c.script)) ==> ok
  {
    hide Cluster.Valid, Calm, Moved;
    ghost var v0 := c.Now();
    ok := c.Other();
    ghost var v1 := c.Now();
    Broaden(v0, v1, SecretArea);
    StaysCalm(v0, v1, Nothing);
    if !ok || !owned { return; }
    ok := DropSecret(c, m);
    Compose(v0, v1, c.Now(), Nothing, SecretArea);
  }

  lemma DropStateSafe(m: Spec, w: World, f: Facts)
    requires Inv(w) && RowReset(w.det) && w.det.jobs == map[]
    ensures EventOk(Wrote(DeleteDetState, m, w, f)) && Inv(Do(w, DeleteDetState))
  {
  }

  method DropState(c: Cluster, m: Spec) returns (ok: bool)
    requires c.Valid() && RowReset(c.w.det) && c.w.det.jobs.Keys == {}
    modifies c
    ensures c.Valid() && Extends(old(c.log), c.log, m)
    ensures Moved(old(c.Now()), c.Now(), DetectorArea) && c.w.detService == old(c.w.detService)
    ensures ok ==> c.w.det.sql.None?
    ensures Calm(old(c.script)) ==> ok
  {
    hide Calm, Moved, Balanced, Honest, EventOk, Inv, RowReset, Rooted, FactsBacked,
      NextView, Stirred, NextAnswer;
    ghost var took, before;
    ok, took, before := c.Write(DeleteDetState, m);
    ghost var a, b := old(c.Now()), View(before, c.facts, c.script);
    MetaKept(a, b, Nothing);
    Detector.ServiceKept(a, b, Nothing);
    UnusedKept(a.w.det, before.det);
    assert before.det.jobs == map[];
    DropStateSafe(m, before, c.facts);
  }

  /** cleanupSensitiveDetectorConfigState: the Jobs first, the state ConfigMap last. */
  method CleanupState(c: Cluster, m: Spec) returns (ok: bool)
    requires c.Valid() && RowReset(c.w.det)
    modifies c
    ensures c.Valid() && Extends(old(c.log), c.log, m)
    ensures Moved(old(c.Now()), c.Now(), DetectorArea) && c.w.detService == old(c.w.detService)
    ensures ok ==> c.w.det.sql.None?
    ensures Calm(old(c.script)) ==> ok
  {
    hide Cluster.Valid, Calm, Moved;
    ghost var v0 := c.Now();
    ok := Detector.CleanupDetJobs(c, m, None);
    ghost var v1 := c.Now();
    StaysCalm(v0, v1, DetectorArea);
    if !ok { return; }
    ok := DropState(c, m);
    Compose(v0, v1, c.Now(), DetectorArea, DetectorArea);
  }

  /** sensitiveDetectorConverged; `None` is a failed read. */
  method DetectorConverged(c: Cluster) returns (r: Option<bool>)
    requires c.Valid()
    modifies c
    ensures c.Valid() && Moved(old(c.Now()), c.Now(), Nothing) && c.log == old(c.log)
    ensures r.Some? ==> (r.value <==> RolledOut(c.w, DetectorRole))
    ensures Calm(old(c.script)) ==> r == Some(RolledOut(old(c.w), DetectorRole))
  {
    hide Cluster.Valid, Calm, Moved;
    var dep := c.ReadDeployment(DetectorRole);
    if Calm(old(c.script)) {
      SameWhenCalm(old(c.Now()), c.Now(), Nothing);
    }
    if dep.Unread? { return None; }
    if dep.NotFound? { return Some(false); }
    var d := dep.value;
    var desired := Or(d.replicas, 1);
    r := Some(d.observed >= d.generation && d.updated >= desired && d.available >= desired);
  }

  /** The managed branch of finalizeSensitiveDetectorCleanup. */
  method FinalizeManaged(c: Cluster, m: Spec, owned: bool) returns (ok: bool)
    requires c.Valid() && m.det.ManagedDet?
    modifies c
    ensures c.Valid() && Extends(old(c.log), c.log, m) && Moved(old(c.Now()), c.Now(), SecretArea)
    ensures Calm(old(c.script)) ==> ok
    ensures Calm(old(c.script)) && owned && KeySpare(m) && RolledOut(old(c.w), DetectorRole) ==>
      GENERATED_DETECTOR_SECRET !in c.w.secrets
  {
    hide Cluster.Valid, Calm, Moved;
    ghost var v0 := c.Now();
    Idle(v0, SecretArea);
    if m.det.apiKeySecret.None? || m.det.apiKeySecret.value == GENERATED_DETECTOR_SECRET { return true; }
    var converged := DetectorConverged(c);
    ghost var v1 := c.Now();
    Broaden(v0, v1, SecretArea);
    StaysCalm(v0, v1, Nothing);
    if converged.None? { return false; }
    if !converged.value { return true; }
    ok := DropKey(c, m, owned);
    Compose(v0, v1, c.Now(), Nothing, SecretArea);
  }

  /** Nothing is left of a detector the spec does not ask for. */
  ghost predicate Cleared(m: Spec, w: World) {
    Gone(w) && (m.det.Off? ==> w.det.sql.None?)
  }

  /** The unmanaged branch of finalizeSensitiveDetectorCleanup. */
  method FinalizeUnmanaged(c: Cluster, m: Spec, want: Checksum, owned: bool) returns (ok: bool)
    requires c.Valid() && DetectorReplaced(m, c.w, want)
    requires m.det.Off? ==> RowReset(c.w.det)
    modifies c
    ensures c.Valid() && Extends(old(c.log), c.log, m) && Handed(old(c.Now()), c.Now())
    ensures ok ==> Cleared(m, c.w)
    ensures Calm(old(c.script)) ==> ok && (owned ==> GENERATED_DETECTOR_SECRET !in c.w.secrets)
  {
    hide Cluster.Valid, Calm, Moved, DetectorReplaced, RowReset, Gone, Handed;
    ghost var v0 := c.Now();
    assert !m.det.ManagedDet? by { NotManaged(m, c.w, want); }
    ok := CleanupObjects(c, m, want);
    ghost var v1 := c.Now();
    CalmHanded(v0, v1);
    if !ok { return; }
    ok := DropKey(c, m, owned);
    ghost var v2 := c.Now();
    HandedByMove(v1, v2, SecretArea);
    HandedTwice(v0, v1, v2);
    CalmHanded(v0, v2);
    GoneKept(v1, v2, SecretArea);
    MetaKept(v1, v2, SecretArea);
    UnusedKept(v1.w.det, v2.w.det);
    if !ok || !m.det.Off? { return; }
    ok := CleanupState(c, m);
    HandedByMove(v2, c.Now(), DetectorArea);
    HandedTwice(v0, v2, c.Now());
    GoneKept(v2, c.Now(), DetectorArea);
    if Calm(v0.script) {
      SameWhenCalm(v2, c.Now(), DetectorArea);
    }
  }

  lemma NotManaged(m: Spec, w: World, want: Checksum)
    requires DetectorReplaced(m, w, want)
    ensures !m.det.ManagedDet?
  {
  }

  /** What is left of the detector's objects and key is what `m` asks for. */
  ghost predicate HandedOver(m: Spec, was: World, w: World, owned: bool) {
    && (!m.det.ManagedDet? ==> Cleared(m, w) && (owned ==> GENERATED_DETECTOR_SECRET !in w.secrets))
    && (m.det.ManagedDet? && owned && KeySpare(m) && RolledOut(was, DetectorRole) ==> GENERATED_DETECTOR_SECRET !in w.secrets)
  }

  /**
   finalizeSensitiveDetectorCleanup. `done` is the pass's claim that the row holds the
   wanted settings; `owned` whether the generated Secret carries the operator's marks.
   Before the row holds them nothing is given up; once it does and app and worker have
   converged, a calm pass leaves nothing behind.
   */
  method Finalize(c: Cluster, m: Spec, done: bool, owned: bool) returns (ok: bool)
    requires c.Valid() && (done ==> DetConfigured(m, c.w, Within(c.facts)))
    modifies c
    ensures c.Valid() && Extends(old(c.log), c.log, m) && Handed(old(c.Now()), c.Now())
    ensures m.det.ManagedDet? ==> Spares(old(c.Now()), c.Now(), App) && Spares(old(c.Now()), c.Now(), Worker)
    ensures !done ==> c.log == old(c.log)
    ensures Calm(old(c.script)) ==> ok
    ensures Calm(old(c.script)) && old(c.facts.quiet) && done && Converged(m, old(c.w)) ==>
      HandedOver(m, old(c.w), c.w, owned)
  {
    hide EventOk, Balanced, Honest, Calm, Moved, DetConfigured, RowReset, Inv, Handed, Spares, Cleared, RolledOut,
      ChecksumFor, TemplateAt, ManagedInUse, Sound, Rooted, FactsBacked, Converged;
    ghost var v0 := c.Now();
    Idle(v0, Nothing);
    HandedByMove(v0, v0, Nothing);
    Untouched(v0, v0, Nothing);
    if !done { return true; }
    ghost var seen;
    var want;
    want, seen := WorkloadsConverged(c, m);
    ghost var v1 := c.Now();
    HandedByMove(v0, v1, Nothing);
    Untouched(v0, v1, Nothing);
    StaysCalm(v0, v1, Nothing);
    ConfiguredStays(m, v0, v1);
    if Calm(v0.script) {
      SameWhenCalm(v0, v1, Nothing);
    }
    if want.None? { return true; }
    if m.det.ManagedDet? {
      ok := FinalizeManaged(c, m, owned);
      HandedByMove(v1, c.Now(), SecretArea);
      HandedTwice(v0, v1, c.Now());
      Untouched(v1, c.Now(), SecretArea);
      UntouchedTwice(v0, v1, c.Now());
      SameRolledOut(v0.w, v1.w);
      return;
    }
    ConfiguredMeansUnused(m, c.w, Within(c.facts));
    Replaced(m, c.w, want.value);
    ok := FinalizeUnmanaged(c, m, want.value, owned);
    HandedTwice(v0, v1, c.Now());
  }

  lemma SameRolledOut(a: World, b: World)
    ensures a.work.deployments == b.work.deployments ==> forall r :: RolledOut(a, r) == RolledOut(b, r)
  {
  }

  lemma Replaced(m: Spec, w: World, want: Checksum)
    requires !m.det.ManagedDet? && !ManagedInUse(w.det) && ChecksumFor(m, want, Loose, w.secrets)
    requires TemplateAt(w, App, want) && TemplateAt(w, Worker, want)
    ensures DetectorReplaced(m, w, want)
  {
  }

  lemma ConfiguredStays(m: Spec, a: View, b: View)
    requires DetConfigured(m, a.w, Within(a.facts)) && Moved(a, b, Nothing) && Inv(b.w)
    ensures DetConfigured(m, b.w, Within(b.facts))
  {
    hide Moved, DetConfigured, Sound, ManagedInUse;
    DetConfiguredKept(m, a, b);
  }

  lemma Untouched(a: View, b: View, touched: Area)
    requires Moved(a, b, touched) && (touched.Nothing? || touched.SecretArea?)
    ensures Spares(a, b, App) && Spares(a, b, Worker)
  {
    hide Moved, Spares, Calm;
    SparesByMove(a, b, touched, App);
    SparesByMove(a, b, touched, Worker);
  }

  lemma UntouchedTwice(a: View, b: View, c: View)
    requires Spares(a, b, App) && Spares(a, b, Worker) && Spares(b, c, App) && Spares(b, c, Worker)
    requires Calm(a.script) ==> Calm(b.script)
    ensures Spares(a, c, App) && Spares(a, c, Worker)
  {
    hide Spares, Calm;
    SparesCompose(a, b, c, App);
    SparesCompose(a, b, c, Worker);
  }

  // ----- The URL as it stands in the row -----

  function ManagedUrl(name: string): string {
    "http://" + name + "-sensitive-detector:3009"
  }

  function UrlOf(name: string, mode: DetMode): Option<string> {
    match mode
    case Reset => None
    case External(url) => Some(url)
    case Managed => Some(ManagedUrl(name))
  }

  /** The row names the detector's Service and its port, an external URL as it is, or nothing. */
  lemma UrlInTheRow(name: string, url: string)
    ensures UrlOf(name, Managed) == Some("http://" + name + "-sensitive-detector" + ":3009")
    ensures UrlOf(name, External(url)) == Some(url) && UrlOf(name, Reset) == None
  {
    assert "-sensitive-detector" + ":3009" == "-sensitive-detector:3009";
    assert "http://" + name + ("-sensitive-detector" + ":3009") == "http://" + name + "-sensitive-detector" + ":3009";
  }

  /** The row's URL is that of the managed detector. */
  predicate PointsAtManaged(name: string, w: World) {
    w.det.row.Some? && UrlOf(name, w.det.row.value.mode) == Some(ManagedUrl(name))
  }

  /**
   A row that points at the managed detector finds its Service and Deployment, unless the
   user has named that very URL as an external detector's.
   */
  lemma PointedAtIsServed(name: string, w: World)
    requires Inv(w) && PointsAtManaged(name, w) && w.det.row.value.mode != External(ManagedUrl(name))
    ensures w.detService && DetectorRole in w.work.deployments
  {
    hide Calm, Eased, Sound, Rooted, FactsBacked;
  }

  /** Settings of an external detector at the managed URL, once in the row, point at the managed one. */
  lemma PointsOnceDone(name: string, m: Spec, w: World, t: Trust)
    requires m.det.ExternalDet? && m.det.url == ManagedUrl(name) && DetConfigured(m, w, t)
    ensures PointsAtManaged(name, w)
  {
    hide ManagedUrl;
  }

  /** And so they do once the Job that is to write them has. */
  lemma PointsOnceWritten(name: string, m: Spec, w: World, t: Trust, h: DetHash)
    requires m.det.ExternalDet? && m.det.url == ManagedUrl(name) && Detector.DetPending(m, w, t)
    requires Sound(w.det) && h in w.det.jobs
    ensures PointsAtManaged(name, w) || PointsAtManaged(name, Env(w, OnDetJob(h, Writes)))
    ensures Env(w, OnDetJob(h, Writes)).detService == w.detService
  {
    hide ManagedUrl;
    var k :| k in w.det.jobs && DetHashFor(m, k, t, w.secrets);
    assert w.det.sql == Some(h) == Some(k);
  }

  /** A world with its migration done, an external database, and nothing configured for the detector. */
  ghost predicate Bare(w: World) {
    && MigrationDone(w.mig, w.spec.image) && !w.spec.suspend && !w.spec.dbManaged
    && w.obj == MetaConfig(None, map[], None) && w.det == MetaConfig(None, map[], None)
    && !w.detService
  }

  /**
   That exception is reached: a pass that configures an external detector at the managed URL, and the
   Job it makes, lead to a row that points at the managed detector while there is none.
   */
  method ExternalUrlMayAlias(name: string, w: World) returns (c: Cluster)
    requires Bare(w) && w.spec.det.ExternalDet? && w.spec.det.url == ManagedUrl(name)
    ensures fresh(c) && c.Valid() && c.start == w
    ensures PointsAtManaged(name, c.w) && !c.w.detService
  {
    hide Honest, Balanced, Rooted, FactsBacked, Moved, MigrationDone, ManagedUrl, DetHashFor, DetConfigured, Env, Sound,
      ManagedInUse, PointsAtManaged;
    StartsSound(w);
    c := new Cluster(w, []);
    var m := c.Begin();
    ghost var v0 := c.Now();
    var ready := c.DatabaseReady(m);
    ghost var v1 := c.Now();
    MigrationDoneKept(v0.(facts := v0.facts.(db := Some(ready))), v1, m.image);
    StaysCalm(v0.(facts := v0.facts.(db := Some(ready))), v1, Nothing);
    Detector.ServiceKept(v0.(facts := v0.facts.(db := Some(ready))), v1, Nothing);
    var r := Detector.ReconcileConfig(c, m);
    assert r == Some(r.value);
    if r.value {
      PointsOnceDone(name, m, c.w, Within(c.facts));
    } else {
      ghost var k :| k in c.w.det.jobs && DetHashFor(m, k, Within(c.facts), c.w.secrets);
      var h :| h in c.w.det.jobs;
      PointsOnceWritten(name, m, c.w, Within(c.facts), h);
      if !PointsAtManaged(name, c.w) {
        c.Step(OnDetJob(h, Writes));
      }
    }
  }

  /** A cluster in which the operator has not yet configured anything satisfies the invariant. */
  lemma StartsSound(w: World)
    requires w.obj == MetaConfig(None, map[], None) && w.det == MetaConfig(None, map[], None)
    ensures Inv(w)
  {
  }
}

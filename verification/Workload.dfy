/** The app and worker Deployments: their roll, their autoscalers, and suspension. */
module Workload {
  import opened Wrappers
  import opened ClusterState
  import opened History
  import opened Cluster
  import opened MetaRow
  import Migration
  import Detector

  /** misskeyChecksum */
  method MisskeyChecksum(c: Cluster, m: Spec) returns (r: Option<Checksum>)
    requires c.Valid()
    modifies c
    ensures c.Valid() && Moved(old(c.Now()), c.Now(), Nothing) && c.log == old(c.log)
    ensures r.Some? ==> ChecksumFor(m, r.value, Within(c.facts), c.w.secrets)
    ensures Calm(old(c.script)) ==> r.Some?
  {
    hide Cluster.Valid, Calm, Moved, VersionsOk, ObjHashFor, DetHashFor;
    ghost var v0 := c.Now();
    var versions := Migration.ReferencedVersions(c, m.secretRefs);
    ghost var v1 := c.Now();
    StaysCalm(v0, v1, Nothing);
    if versions.None? { return None; }
    var obj: Option<ObjHash> := None;
    if ObjAuto(m) && m.obj.value.plan.Some? {
      var h := ObjectStorageHash(c, m);
      obj := Some(h);
      Compose(v0, v1, c.Now(), Nothing, Nothing);
      VersionsStay(v1, c.Now(), m.secretRefs, versions.value);
    }
    ghost var v2 := c.Now();
    StaysCalm(v0, v2, Nothing);
    var det: Option<DetHash> := None;
    if !m.det.Off? {
      det := Detector.ConfigHash(c, m);
      Compose(v0, v2, c.Now(), Nothing, Nothing);
      if det.None? { return None; }
      VersionsStay(v2, c.Now(), m.secretRefs, versions.value);
      if obj.Some? {
        ObjHashStays(v2, c.Now(), m, obj.value);
      }
    }
    r := Some(Checksum(m.appConfig, versions.value, obj, det));
  }

  lemma VersionsStay(a: View, b: View, names: seq<string>, vs: seq<Version>)
    requires VersionsOk(Within(a.facts), a.w.secrets, names, vs) && Moved(a, b, Nothing)
    ensures VersionsOk(Within(b.facts), b.w.secrets, names, vs)
  {
    hide KeepsMigrations, KeepsMeta, KeepsWork, Calm, VersionsOk, Steady;
    VersionsKept(a, b, names, vs);
  }

  lemma ObjHashStays(a: View, b: View, m: Spec, h: ObjHash)
    requires ObjHashFor(m, h, Within(a.facts), a.w.secrets) && Moved(a, b, Nothing)
    ensures ObjHashFor(m, h, Within(b.facts), b.w.secrets)
  {
    hide KeepsMigrations, KeepsMeta, KeepsWork, Calm, ObjHashFor, Steady;
    ObjHashKept(a, b, m, h);
  }

  /** A checksum of `m` stays one while no Secret of it is known to have changed. */
  lemma ChecksumStays(a: View, b: View, touched: Area, m: Spec, cs: Checksum)
    requires ChecksumFor(m, cs, Within(a.facts), a.w.secrets) && Moved(a, b, touched)
    ensures ChecksumFor(m, cs, Within(b.facts), b.w.secrets)
  {
    hide KeepsMigrations, KeepsMeta, KeepsWork, Calm, VersionsOk, ObjHashFor, DetHashFor, Steady;
    VersionsKept(a, b, m.secretRefs, cs.versions);
    if cs.obj.Some? {
      ObjHashKept(a, b, m, cs.obj.value);
    }
    if cs.det.Some? {
      DetHashKept(a, b, m, cs.det.value);
    }
  }

  /** In a quiet pass there is one checksum of a spec. */
  lemma OneChecksum(m: Spec, cs: Checksum, ds: Checksum, secrets: map<string, nat>)
    requires ChecksumFor(m, cs, Exact, secrets) && ChecksumFor(m, ds, Exact, secrets)
    ensures cs == ds
  {
    hide ObjHashFor, DetHashFor;
    if cs.obj.Some? {
      SameObjHash(m, cs.obj.value, ds.obj.value, Exact, secrets);
    }
    if cs.det.Some? {
      SameDetHash(m, cs.det.value, ds.det.value, Exact, secrets);
    }
    forall i | 0 <= i < |cs.versions| ensures cs.versions[i] == ds.versions[i] {
      assert VersionOk(Exact, secrets, cs.versions[i]) && VersionOk(Exact, secrets, ds.versions[i]);
    }
    assert cs.versions == ds.versions;
  }

  lemma QuietChecksum(m: Spec, cs: Checksum, f: Facts, secrets: map<string, nat>)
    requires ChecksumFor(m, cs, Within(f), secrets) && f.quiet
    ensures ChecksumFor(m, cs, Exact, secrets)
  {
    hide ObjHashFor, DetHashFor;
    if cs.obj.Some? {
      QuietObj(m, cs.obj.value, f, secrets);
    }
    if cs.det.Some? {
      QuietDet(m, cs.det.value, f, secrets);
    }
  }

  function ComponentOf(m: Spec, role: Role): Component
    requires !role.DetectorRole?
  {
    if role.App? then m.app else m.worker
  }

  /** resumeReplicas: `None` leaves the replica count alone. */
  function ResumeReplicas(comp: Component, seen: Option<Deployment>): Option<nat> {
    if comp.scale.None? then Some(Or(comp.replicas, 1))
    else if seen.Some? && seen.value.replicas == Some(0) then Some(Or(comp.scale.value.min, 1))
    else None
  }

  /** setDeployment on a Deployment that was read, or on a new one. */
  function SetDeployment(m: Spec, seen: Option<Deployment>, replicas: Option<nat>, cs: Checksum): Deployment {
    if seen.None? then Deployment(m.image, Some(cs), replicas, 1, 0, 0, 0)
    else Revise(seen.value, m.image, cs, if replicas.Some? then replicas else seen.value.replicas)
  }

  lemma RollGateKept(m: Spec, a: View, b: View)
    requires RollGate(m, a.w, a.facts) && Inv(b.w)
    requires Moved(a, b, Nothing) || Moved(a, b, WorkloadArea)
    ensures RollGate(m, b.w, b.facts)
  {
    hide Calm, Eased, KeepsMigrations, KeepsMeta, KeepsWork, Sound, MetaDone, MigrationDone, DetHashFor, ObjHashFor, ManagedInUse, Rooted, FactsBacked;
    MigrationDoneKept(a, b, m.image);
    ObjConfiguredKept(m, a, b);
    DetConfiguredKept(m, a, b);
  }

  lemma RollGateStays(m: Spec, a: View, b: View)
    requires RollGate(m, a.w, a.facts) && Moved(a, b, Nothing) && Inv(b.w)
    ensures RollGate(m, b.w, b.facts)
  {
    hide Moved, RollGate, Inv;
    RollGateKept(m, a, b);
  }

  lemma ObjConfiguredKept(m: Spec, a: View, b: View)
    requires ObjConfigured(m, a.w, Within(a.facts)) && Sound(b.w.obj)
    requires Moved(a, b, Nothing) || Moved(a, b, WorkloadArea) || Moved(a, b, DetectorArea)
    ensures ObjConfigured(m, b.w, Within(b.facts))
  {
    hide Calm, Eased, KeepsMigrations, KeepsMeta, KeepsWork, Sound, MetaDone, Rooted, FactsBacked;
    if ObjAuto(m) {
      var h :| MetaDone(a.w.obj, h) && ObjHashFor(m, h, Within(a.facts), a.w.secrets);
      MetaDoneKept(a.w.obj, b.w.obj, h);
    }
  }

  lemma DetConfiguredKept(m: Spec, a: View, b: View)
    requires DetConfigured(m, a.w, Within(a.facts)) && Sound(b.w.det)
    requires Moved(a, b, Nothing) || Moved(a, b, WorkloadArea)
    ensures DetConfigured(m, b.w, Within(b.facts))
  {
    hide Calm, Eased, KeepsMigrations, KeepsWork, Sound, MetaDone, Grows, Rooted, FactsBacked;
    if m.det.Off? && a.w.det.sql.None? {
    } else {
      var h :| MetaDone(a.w.det, h) && DetHashFor(m, h, Within(a.facts), a.w.secrets);
      MetaDoneKept(a.w.det, b.w.det, h);
    }
  }

  /** The row holds what the checksum says, for what the pass configured is what it hashed. */
  lemma GateMatchesRow(m: Spec, cs: Checksum, w: World, f: Facts)
    requires RollGate(m, w, f) && ChecksumFor(m, cs, Within(f), w.secrets)
    ensures RowMatches(w, cs, f)
  {
    hide Calm, Eased, ObjHashFor, DetHashFor, ObjSure, DetSure, MigrationDone, VersionsOk;
    if cs.obj.Some? && ObjSure(f, cs.obj.value) {
      var h :| MetaDone(w.obj, h) && ObjHashFor(m, h, Within(f), w.secrets);
      SameObjHash(m, cs.obj.value, h, Within(f), w.secrets);
    }
    if cs.det.Some? && DetSure(f, cs.det.value) {
      var h :| MetaDone(w.det, h) && DetHashFor(m, h, Within(f), w.secrets);
      SameDetHash(m, cs.det.value, h, Within(f), w.secrets);
    }
  }

  /** Only what the facts say of Secrets bears on what is configured. */
  lemma SameTrust(m: Spec, w: World, f: Facts, g: Facts)
    requires f.quiet == g.quiet && f.seen == g.seen && f.stirred == g.stirred
    ensures ObjConfigured(m, w, Within(f)) ==> ObjConfigured(m, w, Within(g))
    ensures DetConfigured(m, w, Within(f)) ==> DetConfigured(m, w, Within(g))
  {
    hide Calm, Eased, MetaDone;
    forall h | ObjHashFor(m, h, Within(f), w.secrets) ensures ObjHashFor(m, h, Within(g), w.secrets) {}
    forall h | DetHashFor(m, h, Within(f), w.secrets) ensures DetHashFor(m, h, Within(g), w.secrets) {}
  }

  /**
   A roll has made the Deployment: image, a checksum of `m`, the replicas it is to have given those
   that were read; and nothing else is changed if nothing of this is.
   */
  ghost predicate RolledTo(m: Spec, role: Role, seen: Option<Deployment>, d: Deployment, t: Trust, secrets: map<string, nat>) {
    && d.image == m.image && d.checksum.Some? && ChecksumFor(m, d.checksum.value, t, secrets)
    && ReplicasAsWanted(if role.App? then m.app else m.worker, seen, d)
    && (seen.Some? && seen.value.image == d.image && seen.value.checksum == d.checksum && seen.value.replicas == d.replicas ==>
          d == seen.value)
  }

  /** The role's Deployment is as a roll has made it. */
  ghost predicate IsRolled(m: Spec, role: Role, seen: Option<Deployment>, v: View) {
    role in v.w.work.deployments && RolledTo(m, role, seen, v.w.work.deployments[role], Within(v.facts), v.w.secrets)
  }

  /** What reconcileApp and reconcileWorker are about to write keeps every promise. */
  lemma TemplateSafe(m: Spec, role: Role, seen: Option<Deployment>, cs: Checksum, w: World, f: Facts)
    requires Inv(w) && RollGate(m, w, f) && !role.DetectorRole? && ChecksumFor(m, cs, Within(f), w.secrets)
    ensures
      var next := SetDeployment(m, seen, ResumeReplicas(ComponentOf(m, role), seen), cs);
      var op := PutDeployment(role, seen, next);
      EventOk(Wrote(op, m, w, f)) && Inv(Do(w, op)) && RolledTo(m, role, seen, next, Within(f), w.secrets)
  {
    GateMatchesRow(m, cs, w, f);
    hide RollGate, ChecksumFor, RowMatches, Sound, ManagedInUse;
  }

  ghost function Present(work: Workloads, role: Role): Option<Deployment> {
    if role in work.deployments then Some(work.deployments[role]) else None
  }

  /** The scalers of the role are as before. */
  ghost predicate SameScalers(a: Workloads, b: Workloads) {
    a.hpas == b.hpas && a.scaledObjects == b.scaledObjects && a.triggerAuths == b.triggerAuths
  }

  lemma PutKeeps(a: View, b: View, role: Role, seen: Option<Deployment>, next: Deployment)
    requires Moved(a, b, Nothing)
    ensures
      var x := b.(w := Do(b.w, PutDeployment(role, seen, next)));
      && Spares(a, b, role) && Spares(a, x, role)
      && SameScalers(a.w.work, b.w.work) && SameScalers(a.w.work, x.w.work)
      && Present(x.w.work, role) == Some(next) && x.w.secrets == b.w.secrets
  {
    hide KeepsMigrations, KeepsMeta, Steady, Calm;
  }

  /** The write of a pod template. */
  method PutTemplate(c: Cluster, m: Spec, role: Role, seen: Option<Deployment>, cs: Checksum) returns (ok: bool)
    requires c.Valid() && !role.DetectorRole? && RollGate(m, c.w, c.facts)
    requires ChecksumFor(m, cs, Within(c.facts), c.w.secrets)
    modifies c
    ensures c.Valid() && Extends(old(c.log), c.log, m)
    ensures Moved(old(c.Now()), c.Now(), WorkloadArea) && Spares(old(c.Now()), c.Now(), role)
    ensures SameScalers(old(c.w.work), c.w.work)
    ensures ok ==> IsRolled(m, role, seen, c.Now())
    ensures Calm(old(c.script)) && seen == Present(old(c.w.work), role) ==> ok
  {
    hide Calm, Moved, Balanced, Honest, EventOk, Inv, Do, RollGate, Rooted, FactsBacked, Spares, RolledTo, ChecksumFor,
      NextView, Stirred, NextAnswer, SetDeployment, ResumeReplicas, SameScalers;
    ghost var took, before;
    var next := SetDeployment(m, seen, ResumeReplicas(ComponentOf(m, role), seen), cs);
    ok, took, before := c.Write(PutDeployment(role, seen, next), m);
    ghost var a, b := old(c.Now()), View(before, c.facts, c.script);
    RollGateKept(m, a, b);
    ChecksumStays(a, b, Nothing, m, cs);
    TemplateSafe(m, role, seen, cs, before, c.facts);
    PutKeeps(a, b, role, seen, next);
    if Calm(a.script) {
      SameWhenCalm(a, b, Nothing);
    }
  }

  lemma ScalersKept(a: View, b: View)
    requires Moved(a, b, Nothing)
    ensures SameScalers(a.w.work, b.w.work)
  {
    hide KeepsMigrations, KeepsMeta, Steady, Calm;
  }

  /** The Deployment part of reconcileApp and reconcileWorker. */
  method Roll(c: Cluster, m: Spec, role: Role) returns (ok: bool)
    requires c.Valid() && !role.DetectorRole? && RollGate(m, c.w, c.facts)
    modifies c
    ensures c.Valid() && Extends(old(c.log), c.log, m)
    ensures Moved(old(c.Now()), c.Now(), WorkloadArea) && Spares(old(c.Now()), c.Now(), role)
    ensures SameScalers(old(c.w.work), c.w.work)
    ensures ok ==> exists seen :: IsRolled(m, role, seen, c.Now())
    ensures Calm(old(c.script)) ==> ok && IsRolled(m, role, Present(old(c.w.work), role), c.Now())
  {
    hide Honest, Balanced, Rooted, FactsBacked, Inv, EventOk, Calm, Moved, RollGate, ChecksumFor, Spares, IsRolled, SameScalers;
    ghost var v0 := c.Now();
    var dep := c.ReadDeployment(role);
    ghost var v1 := c.Now();
    Broaden(v0, v1, WorkloadArea);
    SparesByMove(v0, v1, Nothing, role);
    ScalersKept(v0, v1);
    StaysCalm(v0, v1, Nothing);
    if dep.Unread? { return false; }
    var seen := if dep.Found? then Some(dep.value) else None;
    var cs := MisskeyChecksum(c, m);
    ghost var v2 := c.Now();
    Compose(v0, v1, v2, Nothing, Nothing);
    Broaden(v0, v2, WorkloadArea);
    SparesByMove(v0, v2, Nothing, role);
    ScalersKept(v0, v2);
    StaysCalm(v0, v2, Nothing);
    RollGateStays(m, v0, v2);
    if cs.None? { return false; }
    ok := PutTemplate(c, m, role, seen, cs.value);
    Compose(v0, v2, c.Now(), Nothing, WorkloadArea);
    SparesCompose(v0, v2, c.Now(), role);
    SameScalersTwice(v0.w.work, v2.w.work, c.w.work);
    if Calm(v0.script) {
      SameWhenCalm(v0, v1, Nothing);
      SameWhenCalm(v0, v2, Nothing);
    }
  }

  lemma SameScalersTwice(a: Workloads, b: Workloads, c: Workloads)
    requires SameScalers(a, b) && SameScalers(b, c)
    ensures SameScalers(a, c)
  {
  }

  // ----- Autoscalers -----

  /** Which autoscaler objects exist for a role. */
  ghost predicate ScalersAre(work: Workloads, role: Role, hpa: bool, scaledObject: bool, triggerAuth: bool) {
    && (role in work.hpas <==> hpa)
    && (role in work.scaledObjects <==> scaledObject)
    && (role in work.triggerAuths <==> triggerAuth)
  }

  /** Autoscaler objects of the role were set or deleted, and nothing else was written. */
  ghost predicate Rescaled(a: View, b: View, role: Role) {
    && Moved(a, b, WorkloadArea) && Spares(a, b, role) && KeepsTemplates(a.w.work, b.w.work)
    && (Calm(a.script) ==> a.w.work.deployments == b.w.work.deployments)
  }

  ghost predicate KeepsTemplates(a: Workloads, b: Workloads) {
    && a.deployments.Keys == b.deployments.Keys
    && forall r | r in a.deployments ::
         a.deployments[r].image == b.deployments[r].image && a.deployments[r].checksum == b.deployments[r].checksum
  }

  lemma RescaledTwice(a: View, b: View, c: View, role: Role)
    requires Rescaled(a, b, role) && Rescaled(b, c, role)
    ensures Rescaled(a, c, role)
  {
    hide Moved, Spares, Calm;
    StaysCalm(a, b, WorkloadArea);
    Compose(a, b, c, WorkloadArea, WorkloadArea);
    SparesCompose(a, b, c, role);
  }

  /** Sets or deletes one autoscaler object and no other. */
  method PutScaler(c: Cluster, m: Spec, kind: Scaler, role: Role, present: bool) returns (ok: bool)
    requires c.Valid()
    modifies c
    ensures c.Valid() && Extends(old(c.log), c.log, m) && Rescaled(old(c.Now()), c.Now(), role)
    ensures KeepsReplicas(old(c.w.work), c.w.work)
    ensures ok ==> OneScaler(old(c.w.work), c.w.work, kind, role, present)
    ensures present || SubScalers(old(c.w.work), c.w.work)
    ensures Calm(old(c.script)) ==> ok
  {
    hide Calm, Moved, Balanced, Honest, Inv, KeepsReplicas, OneScaler, SubScalers, DoScaler, Rooted, FactsBacked, Rescaled,
      NextView, Stirred, NextAnswer;
    ghost var took, before;
    ok, took, before := c.Write(SetScaler(kind, role, present), m);
    ghost var a, b := old(c.Now()), View(before, c.facts, c.script);
    WorkKept(a, b);
    ScalerEffect(a.w.work, before.work, kind, role, present);
    ScalerSafe(before, kind, role, present);
    ScalerRescales(a, b, c.Now(), kind, role, present);
  }

  lemma WorkKept(a: View, b: View)
    requires Moved(a, b, Nothing)
    ensures KeepsWork(a.w.work, b.w.work)
  {
  }

  lemma ScalerRescales(a: View, b: View, x: View, kind: Scaler, role: Role, present: bool)
    requires Moved(a, b, Nothing) && Moved(a, x, WorkloadArea)
    requires x.w.work == b.w.work || x.w.work == DoScaler(b.w.work, kind, role, present)
    ensures Rescaled(a, x, role)
  {
    hide Moved, Calm, KeepsRole, DoScaler;
    WorkKept(a, b);
    ScalerSpares(a.w.work, b.w.work, kind, role, present);
    if Calm(a.script) {
      SameWhenCalm(a, b, Nothing);
    }
  }

  lemma ScalerSpares(a: Workloads, b: Workloads, kind: Scaler, role: Role, present: bool)
    requires KeepsWork(a, b)
    ensures DoScaler(b, kind, role, present).deployments == b.deployments
    ensures forall r | r != role :: KeepsRole(a, b, r) && KeepsRole(a, DoScaler(b, kind, role, present), r)
  {
  }

  lemma ScalerSafe(w: World, kind: Scaler, role: Role, present: bool)
    requires Inv(w)
    ensures Inv(Do(w, SetScaler(kind, role, present)))
  {
  }

  lemma ScalerEffect(a: Workloads, b: Workloads, kind: Scaler, role: Role, present: bool)
    requires KeepsWork(a, b)
    ensures KeepsReplicas(a, b) && SubScalers(a, b)
    ensures KeepsReplicas(a, DoScaler(b, kind, role, present))
    ensures OneScaler(a, DoScaler(b, kind, role, present), kind, role, present)
    ensures present || SubScalers(a, DoScaler(b, kind, role, present))
  {
  }

  /** The Deployments are as before, except that one an autoscaler manages may have been scaled. */
  ghost predicate KeepsReplicas(a: Workloads, b: Workloads) {
    && a.deployments.Keys == b.deployments.Keys
    && forall r | r in a.deployments ::
         && a.deployments[r].image == b.deployments[r].image
         && a.deployments[r].checksum == b.deployments[r].checksum
         && (!Scaled(a, r) ==> a.deployments[r].replicas == b.deployments[r].replicas)
  }

  ghost predicate OneScaler(a: Workloads, b: Workloads, kind: Scaler, role: Role, present: bool) {
    forall r: Role ::
      && (r in b.hpas <==> if kind.Hpa? && r == role then present else r in a.hpas)
      && (r in b.scaledObjects <==> if kind.ScaledObject? && r == role then present else r in a.scaledObjects)
      && (r in b.triggerAuths <==> if kind.TriggerAuth? && r == role then present else r in a.triggerAuths)
  }

  ghost predicate SubScalers(a: Workloads, b: Workloads) {
    b.hpas <= a.hpas && b.scaledObjects <= a.scaledObjects && b.triggerAuths <= a.triggerAuths
  }

  /** deleteHPA and deleteScaledObject */
  method DropScalers(c: Cluster, m: Spec, role: Role) returns (ok: bool)
    requires c.Valid()
    modifies c
    ensures c.Valid() && Extends(old(c.log), c.log, m) && Rescaled(old(c.Now()), c.Now(), role)
    ensures KeepsReplicas(old(c.w.work), c.w.work) && SubScalers(old(c.w.work), c.w.work)
    ensures ok ==> ScalersAre(c.w.work, role, false, false, false)
    ensures Calm(old(c.script)) ==> ok
  {
    hide Cluster.Valid, Calm, Rescaled;
    ghost var v0 := c.Now();
    ok := PutScaler(c, m, Hpa, role, false);
    ghost var v1 := c.Now();
    CalmRescaled(v0, v1, role);
    if !ok { return; }
    ok := PutScaler(c, m, ScaledObject, role, false);
    ghost var v2 := c.Now();
    RescaledTwice(v0, v1, v2, role);
    CalmRescaled(v0, v2, role);
    if !ok { return; }
    ok := PutScaler(c, m, TriggerAuth, role, false);
    RescaledTwice(v0, v2, c.Now(), role);
  }

  lemma CalmRescaled(a: View, b: View, role: Role)
    requires Rescaled(a, b, role)
    ensures Calm(a.script) ==> Calm(b.script)
  {
    hide Calm, Spares, KeepsTemplates;
    StaysCalm(a, b, WorkloadArea);
  }

  /** reconcileScaledObject */
  method ReconcileScaledObject(c: Cluster, m: Spec, role: Role, auth: bool) returns (ok: bool)
    requires c.Valid()
    modifies c
    ensures c.Valid() && Extends(old(c.log), c.log, m) && Rescaled(old(c.Now()), c.Now(), role)
    ensures ok ==> ScalersAre(c.w.work, role, role in old(c.w.work.hpas), true, auth)
    ensures Calm(old(c.script)) ==> ok
  {
    hide Cluster.Valid, Calm, Rescaled, KeepsReplicas;
    ghost var v0 := c.Now();
    ok := PutScaler(c, m, TriggerAuth, role, auth);
    ghost var v1 := c.Now();
    CalmRescaled(v0, v1, role);
    if !ok { return; }
    ok := PutScaler(c, m, ScaledObject, role, true);
    RescaledTwice(v0, v1, c.Now(), role);
  }

  /** The autoscaler objects are those the component asks for, and never both kinds. */
  ghost predicate ScalersAs(scale: Option<Scale>, work: Workloads, role: Role) {
    ScalersAre(work, role,
      scale.Some? && !scale.value.keda, scale.Some? && scale.value.keda,
      scale.Some? && scale.value.keda && scale.value.auth)
  }

  /** reconcileAutoscaler: what is wanted exists, and nothing else does. */
  method ReconcileAutoscaler(c: Cluster, m: Spec, role: Role, scale: Option<Scale>) returns (ok: bool)
    requires c.Valid()
    modifies c
    ensures c.Valid() && Extends(old(c.log), c.log, m) && Rescaled(old(c.Now()), c.Now(), role)
    ensures ok ==> ScalersAs(scale, c.w.work, role)
    ensures scale.None? ==> KeepsReplicas(old(c.w.work), c.w.work)
    ensures Calm(old(c.script)) ==> ok
  {
    hide Cluster.Valid, Calm, Rescaled, KeepsReplicas;
    ghost var v0 := c.Now();
    if scale.None? {
      ok := DropScalers(c, m, role);
      return;
    }
    if scale.value.keda {
      ok := PutScaler(c, m, Hpa, role, false);
      ghost var v1 := c.Now();
      CalmRescaled(v0, v1, role);
      if !ok { return; }
      ok := ReconcileScaledObject(c, m, role, scale.value.auth);
      RescaledTwice(v0, v1, c.Now(), role);
      return;
    }
    ok := PutScaler(c, m, ScaledObject, role, false);
    ghost var v1 := c.Now();
    CalmRescaled(v0, v1, role);
    if !ok { return; }
    ok := PutScaler(c, m, TriggerAuth, role, false);
    ghost var v2 := c.Now();
    RescaledTwice(v0, v1, v2, role);
    CalmRescaled(v0, v2, role);
    if !ok { return; }
    ok := PutScaler(c, m, Hpa, role, true);
    RescaledTwice(v0, v2, c.Now(), role);
  }

  // ----- A component -----

  /** The role runs the image with a checksum of `m`. */
  ghost predicate TemplateFor(m: Spec, role: Role, v: View) {
    && role in v.w.work.deployments
    && var d := v.w.work.deployments[role];
       d.image == m.image && d.checksum.Some? && ChecksumFor(m, d.checksum.value, Within(v.facts), v.w.secrets)
  }

  /** It does, and has the autoscaler objects it is to have. */
  ghost predicate Deployed(m: Spec, role: Role, v: View) {
    TemplateFor(m, role, v) && ScalersAs((if role.App? then m.app else m.worker).scale, v.w.work, role)
  }

  /** Without autoscaling, now and before, the replicas are those of the spec, 1 if it names none. */
  ghost predicate StaticAt(comp: Component, was: Workloads, work: Workloads, role: Role) {
    comp.scale.None? && !Scaled(was, role) ==>
      role in work.deployments && work.deployments[role].replicas == Some(if comp.replicas.Some? then comp.replicas.value else 1)
  }

  lemma TemplateStays(m: Spec, role: Role, a: View, b: View, touched: Area)
    requires TemplateFor(m, role, a) && Moved(a, b, touched) && KeepsTemplates(a.w.work, b.w.work)
    ensures TemplateFor(m, role, b)
  {
    hide Moved, ChecksumFor;
    ChecksumStays(a, b, touched, m, a.w.work.deployments[role].checksum.value);
  }

  lemma RolledStays(m: Spec, role: Role, seen: Option<Deployment>, a: View, b: View, touched: Area)
    requires IsRolled(m, role, seen, a) && Moved(a, b, touched) && a.w.work.deployments == b.w.work.deployments
    ensures IsRolled(m, role, seen, b)
  {
    hide Moved, ChecksumFor, ReplicasAsWanted;
    ChecksumStays(a, b, touched, m, a.w.work.deployments[role].checksum.value);
  }

  lemma RolledMeans(m: Spec, role: Role, seen: Option<Deployment>, a: Workloads, v: View)
    requires IsRolled(m, role, seen, v)
    ensures TemplateFor(m, role, v) && StaticAt(if role.App? then m.app else m.worker, a, v.w.work, role)
  {
    hide ChecksumFor;
  }

  lemma StaticStays(comp: Component, a: Workloads, b: Workloads, c: Workloads, d: Workloads, role: Role)
    requires StaticAt(comp, a, b, role) && SameScalers(a, b) && KeepsWork(b, c)
    requires comp.scale.None? ==> KeepsReplicas(c, d)
    ensures StaticAt(comp, a, d, role)
  {
  }

  /** What a roll made stays until the component's autoscaler is in place. */
  lemma RolledThrough(m: Spec, role: Role, seen: Option<Deployment>, a: View, b: View, c: View, d: View)
    requires IsRolled(m, role, seen, b) && SameScalers(a.w.work, b.w.work) && Moved(b, c, Nothing) && Rescaled(c, d, role)
    requires (if role.App? then m.app else m.worker).scale.None? ==> KeepsReplicas(c.w.work, d.w.work)
    ensures TemplateFor(m, role, d)
    ensures StaticAt(if role.App? then m.app else m.worker, a.w.work, d.w.work, role)
    ensures Calm(b.script) ==> IsRolled(m, role, seen, d)
  {
    hide Moved, IsRolled, StaticAt, TemplateFor, Calm, SameScalers, KeepsReplicas, KeepsWork, Spares;
    RolledMeans(m, role, seen, a.w.work, b);
    WorkKept(b, c);
    StaysCalm(b, c, Nothing);
    TemplatesByWork(b.w.work, c.w.work);
    TemplateStays(m, role, b, c, Nothing);
    TemplateStays(m, role, c, d, WorkloadArea);
    StaticStays(if role.App? then m.app else m.worker, a.w.work, b.w.work, c.w.work, d.w.work, role);
    if Calm(b.script) {
      SameWhenCalm(b, c, Nothing);
      RolledStays(m, role, seen, b, c, Nothing);
      RolledStays(m, role, seen, c, d, WorkloadArea);
    }
  }

  lemma TemplatesByWork(a: Workloads, b: Workloads)
    requires KeepsWork(a, b)
    ensures KeepsTemplates(a, b)
  {
  }

  /** reconcileApp and reconcileWorker */
  method ReconcileComponent(c: Cluster, m: Spec, role: Role) returns (ok: bool)
    requires c.Valid() && !role.DetectorRole? && RollGate(m, c.w, c.facts)
    modifies c
    ensures c.Valid() && Extends(old(c.log), c.log, m)
    ensures Moved(old(c.Now()), c.Now(), WorkloadArea) && Spares(old(c.Now()), c.Now(), role)
    ensures RollGate(m, c.w, c.facts)
    ensures ok ==> Deployed(m, role, c.Now())
    ensures ok ==> StaticAt(if role.App? then m.app else m.worker, old(c.w.work), c.w.work, role)
    ensures Calm(old(c.script)) ==> ok && IsRolled(m, role, Present(old(c.w.work), role), c.Now())
  {
    hide Honest, Balanced, Rooted, FactsBacked, Inv, EventOk, Calm, Moved, RollGate, ScalersAs, Spares,
      IsRolled, StaticAt, Rescaled, SameScalers, TemplateFor, KeepsReplicas;
    ghost var v0 := c.Now();
    ok := Roll(c, m, role);
    ghost var v1 := c.Now();
    RollGateAfter(m, v0, v1);
    StaysCalm(v0, v1, WorkloadArea);
    if !ok { return; }
    ghost var seen :| IsRolled(m, role, seen, v1) && (Calm(v0.script) ==> seen == Present(v0.w.work, role));
    ok := c.Other();
    ghost var v2 := c.Now();
    Compose(v0, v1, v2, WorkloadArea, Nothing);
    SparesByMove(v1, v2, Nothing, role);
    SparesCompose(v0, v1, v2, role);
    RollGateAfter(m, v0, v2);
    StaysCalm(v0, v2, WorkloadArea);
    if !ok { return; }
    ok := ReconcileAutoscaler(c, m, role, ComponentOf(m, role).scale);
    ghost var v3 := c.Now();
    RescaledMeans(v2, v3, role);
    Compose(v0, v2, v3, WorkloadArea, WorkloadArea);
    SparesCompose(v0, v2, v3, role);
    RollGateAfter(m, v0, v3);
    RolledThrough(m, role, seen, v0, v1, v2, v3);
  }

  lemma RescaledMeans(a: View, b: View, role: Role)
    requires Rescaled(a, b, role)
    ensures Moved(a, b, WorkloadArea) && Spares(a, b, role)
  {
    hide Moved, Spares, Calm;
  }

  lemma RollGateAfter(m: Spec, a: View, b: View)
    requires RollGate(m, a.w, a.facts) && Moved(a, b, WorkloadArea) && Inv(b.w)
    ensures RollGate(m, b.w, b.facts)
  {
    hide Moved, RollGate, Inv;
    RollGateKept(m, a, b);
  }

  // ----- Suspension -----

  /** A role's Deployment, if any, is at 0 replicas and nothing can scale it. */
  ghost predicate Stopped(work: Workloads, role: Role) {
    && ScalersAre(work, role, false, false, false)
    && (role in work.deployments ==> work.deployments[role].replicas == Some(0))
  }

  /** A role that was stopped, and that nobody wrote, is stopped. */
  lemma StoppedStays(a: View, b: View, role: Role, r: Role)
    requires Spares(a, b, role) && r != role && Stopped(a.w.work, r)
    ensures Stopped(b.w.work, r)
  {
    assert KeepsRole(a.w.work, b.w.work, r);
  }

  method PutZero(c: Cluster, m: Spec, role: Role, seen: Deployment) returns (ok: bool)
    requires c.Valid() && m.suspend
    modifies c
    ensures c.Valid() && Extends(old(c.log), c.log, m)
    ensures Moved(old(c.Now()), c.Now(), WorkloadArea) && Spares(old(c.Now()), c.Now(), role)
    ensures ScalersAre(old(c.w.work), role, false, false, false) && ok ==> Stopped(c.w.work, role)
    ensures Calm(old(c.script)) && Present(old(c.w.work), role) == Some(seen) ==> ok
  {
    hide Calm, Moved, Balanced, Honest, Inv, Stopped, ScalersAre, Rooted, FactsBacked, Spares, SameScalers,
      NextView, Stirred, NextAnswer;
    ghost var took, before;
    var next := seen.(replicas := Some(0), generation := seen.generation + 1);
    ok, took, before := c.Write(PutDeployment(role, Some(seen), next), m);
    ghost var a, b := old(c.Now()), View(before, c.facts, c.script);
    PutKeeps(a, b, role, Some(seen), next);
    ZeroStops(a.w.work, c.w.work, role);
    DeploymentSafe(before, role, Some(seen), next);
    if Calm(a.script) {
      SameWhenCalm(a, b, Nothing);
    }
  }

  lemma ZeroStops(a: Workloads, b: Workloads, role: Role)
    requires SameScalers(a, b)
    ensures ScalersAre(a, role, false, false, false) && Present(b, role).Some? && Present(b, role).value.replicas == Some(0) ==>
      Stopped(b, role)
  {
  }

  lemma DeploymentSafe(w: World, role: Role, seen: Option<Deployment>, next: Deployment)
    requires Inv(w)
    ensures Inv(Do(w, PutDeployment(role, seen, next)))
  {
  }

  /** One round of suspendWorkloads. */
  method SuspendOne(c: Cluster, m: Spec, role: Role) returns (ok: bool)
    requires c.Valid() && m.suspend
    modifies c
    ensures c.Valid() && Extends(old(c.log), c.log, m)
    ensures Moved(old(c.Now()), c.Now(), WorkloadArea) && Spares(old(c.Now()), c.Now(), role)
    ensures ok ==> Stopped(c.w.work, role)
    ensures Calm(old(c.script)) ==> ok
  {
    hide Cluster.Valid, Calm, Moved, Spares, Rescaled, SubScalers, KeepsReplicas;
    ghost var v0 := c.Now();
    ok := DropScalers(c, m, role);
    ghost var v1 := c.Now();
    RescaledMeans(v0, v1, role);
    StaysCalm(v0, v1, WorkloadArea);
    if !ok { return; }
    var dep := c.ReadDeployment(role);
    ghost var v2 := c.Now();
    Compose(v0, v1, v2, WorkloadArea, Nothing);
    SparesByMove(v1, v2, Nothing, role);
    SparesCompose(v0, v1, v2, role);
    StaysCalm(v1, v2, Nothing);
    ScalersKept(v1, v2);
    if dep.Unread? { return false; }
    if dep.NotFound? { return true; }
    if dep.value.replicas != Some(0) {
      ok := PutZero(c, m, role, dep.value);
      Compose(v0, v2, c.Now(), WorkloadArea, WorkloadArea);
      SparesCompose(v0, v2, c.Now(), role);
    }
  }

  ghost predicate Suspended(m: Spec, work: Workloads) {
    && Stopped(work, App)
    && Stopped(work, Worker)
    && (m.det.ManagedDet? ==> Stopped(work, DetectorRole))
  }

  /** suspendWorkloads */
  method SuspendWorkloads(c: Cluster, m: Spec) returns (ok: bool)
    requires c.Valid() && m.suspend
    modifies c
    ensures c.Valid() && Extends(old(c.log), c.log, m)
    ensures Moved(old(c.Now()), c.Now(), WorkloadArea)
    ensures ok ==> Suspended(m, c.w.work)
    ensures Calm(old(c.script)) ==> ok
  {
    hide Cluster.Valid, Calm, Moved, Stopped, Spares;
    var roles := [App, Worker] + if m.det.ManagedDet? then [DetectorRole] else [];
    ghost var v0 := c.Now();
    Idle(v0, WorkloadArea);
    for i := 0 to |roles|
      invariant c.Valid() && Extends(old(c.log), c.log, m)
      invariant Moved(v0, c.Now(), WorkloadArea)
      invariant forall j | 0 <= j < i :: Stopped(c.w.work, roles[j])
    {
      ghost var v1 := c.Now();
      StaysCalm(v0, v1, WorkloadArea);
      ok := SuspendOne(c, m, roles[i]);
      Compose(v0, v1, c.Now(), WorkloadArea, WorkloadArea);
      forall j | 0 <= j < i ensures Stopped(c.w.work, roles[j]) {
        StoppedStays(v1, c.Now(), roles[i], roles[j]);
      }
      if !ok { return; }
    }
    assert Stopped(c.w.work, roles[0]) && Stopped(c.w.work, roles[1]);
    assert m.det.ManagedDet? ==> Stopped(c.w.work, roles[2]);
    ok := true;
  }
}

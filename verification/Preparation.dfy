/** What a pass does before the gates: the detector's key and objects, and what is left over of object storage. */
module Preparation {
  import opened Wrappers
  import opened ClusterState
  import opened History
  import opened Cluster
  import opened MetaRow
  import opened Workload
  import Detector
  import Handover

  /** What the steps before the gates leave for the meta Job of the detector. */
  ghost predicate Prepared(m: Spec, w: World, existing: bool) {
    && (m.det.ManagedDet? && !m.suspend ==> Detector.Serving(w))
    && (existing <==> w.det.sql.Some?)
  }

  lemma PreparedKept(m: Spec, a: View, b: View, existing: bool)
    requires Prepared(m, a.w, existing)
    requires Moved(a, b, Nothing) || Moved(a, b, MigrationArea) || Moved(a, b, ObjectStorageArea)
    ensures Prepared(m, b.w, existing)
  {
  }

  /**
   What the steps before the gates leave alone: app and worker, the migrations, the row and, where the
   spec has any, the object storage settings; in calm also the Secrets, if the key is there, and the
   detector's Deployment, if it is as it is to be.
   */
  ghost predicate Approached(m: Spec, a: View, b: View) {
    && Handover.Handed(a, b) && KeepsMeta(a.w.det, b.w.det)
    && (m.obj.Some? && m.obj.value.autoConfigure ==> KeepsMeta(a.w.obj, b.w.obj))
    && (Calm(a.script) && Detector.KeyThere(m, a.w) ==> Unstirred(a, b))
    && (Calm(a.script) && Undemanding(m, a.w) ==> a.w.work.deployments == b.w.work.deployments)
  }

  /** There is a key, and a managed detector runs as it is to run. */
  ghost predicate Undemanding(m: Spec, w: World) {
    Detector.KeyThere(m, w) && (m.det.ManagedDet? && !m.suspend ==> Detector.DetectorSettled(m, w))
  }

  lemma ApproachedTwice(m: Spec, a: View, b: View, c: View)
    requires Approached(m, a, b) && Approached(m, b, c)
    ensures Approached(m, a, c)
  {
    hide Calm, KeepsMeta, Handover.Handed;
    Handover.CalmHanded(a, b);
    Handover.HandedTwice(a, b, c);
    KeepsTransitive(a.w, b.w, c.w);
  }

  lemma ApproachedByMove(m: Spec, a: View, b: View, touched: Area)
    requires Moved(a, b, touched) && (touched.Nothing? || touched.SecretArea? || touched.ObjectStorageArea?)
    requires touched.ObjectStorageArea? ==> !ObjAuto(m)
    requires touched.SecretArea? && Calm(a.script) && Detector.KeyThere(m, a.w) ==> Unstirred(a, b)
    ensures Approached(m, a, b)
  {
    hide Calm, KeepsMeta, KeepsMigrations, KeepsWork, Steady, Handover.Handed, Detector.KeyThere, Detector.DetectorSettled;
    Handover.HandedByMove(a, b, touched);
  }

  lemma ApproachedByObjects(m: Spec, a: View, b: View)
    requires Detector.Sidestep(a, b) && !m.suspend && m.det.ManagedDet?
    requires Calm(a.script) && Detector.DetectorSettled(m, a.w) ==>
      DetectorRole in b.w.work.deployments && b.w.work.deployments[DetectorRole] == a.w.work.deployments[DetectorRole]
    ensures Approached(m, a, b)
  {
    hide Calm, KeepsMeta, Moved, KeepsRole, Detector.KeyThere;
    if Calm(a.script) && Undemanding(m, a.w) {
      AllSame(a.w.work, b.w.work);
    }
  }

  lemma AllSame(a: Workloads, b: Workloads)
    requires SameDeployment(a, b, App) && SameDeployment(a, b, Worker) && SameDeployment(a, b, DetectorRole)
    ensures a.deployments == b.deployments
  {
    forall r: Role ensures r in a.deployments <==> r in b.deployments {
      match r
      case App =>
      case Worker =>
      case DetectorRole =>
    }
    assert a.deployments.Keys == b.deployments.Keys;
    forall r | r in a.deployments ensures a.deployments[r] == b.deployments[r] {
      match r
      case App =>
      case Worker =>
      case DetectorRole =>
    }
  }

  lemma UndemandingStays(m: Spec, a: View, b: View)
    requires Approached(m, a, b) && Calm(a.script)
    ensures Detector.KeyThere(m, a.w) ==> Detector.KeyThere(m, b.w)
    ensures Undemanding(m, a.w) ==> Undemanding(m, b.w)
  {
    hide Calm, KeepsMeta, Handover.Handed;
  }

  lemma NoKeyWanted(m: Spec, w: World)
    requires !m.det.ManagedDet?
    ensures Undemanding(m, w)
  {
  }

  lemma NoObjectsWanted(m: Spec, w: World)
    requires !m.det.ManagedDet? || m.suspend
    ensures Detector.KeyThere(m, w) ==> Undemanding(m, w)
  {
  }

  /** Before the gates: the key, then the managed detector's objects. */
  method PrepareDetector(c: Cluster, m: Spec, version: nat) returns (ok: bool)
    requires c.Valid()
    modifies c
    ensures c.Valid() && Extends(old(c.log), c.log, m) && Approached(m, old(c.Now()), c.Now())
    ensures ok && m.det.ManagedDet? && !m.suspend ==> Detector.Serving(c.w)
    ensures Calm(old(c.script)) ==> ok && Calm(c.script) && Undemanding(m, c.w)
  {
    hide Cluster.Valid, Calm, Moved, Approached, Detector.Serving, Detector.KeyThere, Detector.Sidestep;
    ghost var v0 := c.Now();
    Idle(v0, Nothing);
    ApproachedByMove(m, v0, v0, Nothing);
    if m.det.ManagedDet? {
      ok := Detector.ReconcileKey(c, m, version);
      ApproachedByMove(m, v0, c.Now(), SecretArea);
      StaysCalm(v0, c.Now(), SecretArea);
      if !ok { return; }
    }
    ghost var v1 := c.Now();
    if !m.det.ManagedDet? { NoKeyWanted(m, v1.w); }
    ok := c.Other();
    ghost var v2 := c.Now();
    ApproachedByMove(m, v1, v2, Nothing);
    ApproachedTwice(m, v0, v1, v2);
    StaysCalm(v1, v2, Nothing);
    if Calm(v1.script) { UndemandingStays(m, v1, v2); }
    if !ok { return; }
    if m.det.ManagedDet? && !m.suspend {
      ok := Detector.ReconcileObjects(c, m);
      ApproachedByObjects(m, v2, c.Now());
      ApproachedTwice(m, v0, v2, c.Now());
      Detector.CalmAside(v2, c.Now());
      if Calm(v2.script) { UndemandingStays(m, v2, c.Now()); }
    } else {
      NoObjectsWanted(m, v2.w);
    }
  }

  /** reconcileAll up to the gates. `Some(x)`: whether the detector's state ConfigMap exists. */
  method Prepare(c: Cluster, m: Spec, version: nat) returns (r: Option<bool>)
    requires c.Valid()
    modifies c
    ensures c.Valid() && Extends(old(c.log), c.log, m) && Approached(m, old(c.Now()), c.Now())
    ensures r.Some? ==> Prepared(m, c.w, r.value)
    ensures r.Some? && !(m.obj.Some? && m.obj.value.autoConfigure) ==> c.w.obj.jobs.Keys == {} && c.w.obj.sql.None?
    ensures Calm(old(c.script)) ==> r.Some? && Calm(c.script) && Undemanding(m, c.w)
  {
    hide Cluster.Valid, Calm, Moved, Detector.Serving, Approached, Undemanding;
    ghost var u := c.Now();
    Idle(u, Nothing);
    var ok := c.Other();
    ghost var v := c.Now();
    ApproachedByMove(m, u, v, Nothing);
    StaysCalm(u, v, Nothing);
    if !ok { return None; }
    ok := PrepareDetector(c, m, version);
    ghost var v0 := c.Now();
    ApproachedTwice(m, u, v, v0);
    if !ok { return None; }
    ok := c.Other();
    ghost var v1 := c.Now();
    ApproachedByMove(m, v0, v1, Nothing);
    ApproachedTwice(m, u, v0, v1);
    StaysCalm(v0, v1, Nothing);
    if !ok { return None; }
    if !ObjAuto(m) {
      ok := CleanupObjectStorage(c, m);
      ApproachedByMove(m, v1, c.Now(), ObjectStorageArea);
      ApproachedTwice(m, u, v1, c.Now());
      if !ok { return None; }
    } else {
      Idle(v1, ObjectStorageArea);
      Idle(v1, Nothing);
      ApproachedByMove(m, v1, v1, Nothing);
    }
    ghost var v2 := c.Now();
    StaysCalm(v1, v2, ObjectStorageArea);
    Compose(v0, v1, v2, Nothing, ObjectStorageArea);
    r := c.ReadDetState();
    ApproachedByMove(m, v2, c.Now(), Nothing);
    ApproachedTwice(m, u, v2, c.Now());
    StaysCalm(v2, c.Now(), Nothing);
    if Calm(u.script) {
      UndemandingStays(m, v0, v1);
      UndemandingStays(m, v1, v2);
      UndemandingStays(m, v2, c.Now());
    }
    ObjectsStay(v2, c.Now());
    Compose(v0, v2, c.Now(), ObjectStorageArea, Nothing);
    if m.det.ManagedDet? && !m.suspend {
      Detector.ServingKeptByEnvironment(v0, c.Now());
    }
  }

  lemma ObjectsStay(a: View, b: View)
    requires Moved(a, b, Nothing)
    ensures a.w.obj.jobs.Keys == b.w.obj.jobs.Keys && a.w.obj.sql == b.w.obj.sql
  {
  }
}

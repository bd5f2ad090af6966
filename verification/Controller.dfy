/**
 The whole reconcile pass, and runs: any sequence of passes, each of which may stop at any
 API call, with the environment moving before every call and between passes.
 */
module Controller {
  import opened Wrappers
  import opened ClusterState
  import opened History
  import opened Cluster
  import opened MetaRow
  import opened Workload
  import Detector
  import Handover
  import opened Migration
  import opened Preparation
  import opened GateChain
  import opened Provenance

  // ----- The whole pass -----

  /** App and worker are what a roll would make them, and are rolled out; a managed detector is what it is to be. */
  ghost predicate InPlace(m: Spec, w: World) {
    && Handover.Converged(m, w) && PlacedAt(m, w, App) && PlacedAt(m, w, Worker)
    && (m.det.ManagedDet? ==> Detector.DetectorSettled(m, w))
  }

  ghost predicate PlacedAt(m: Spec, w: World, role: Role) {
    role in w.work.deployments && !role.DetectorRole?
    && var d, comp := w.work.deployments[role], if role.App? then m.app else m.worker;
       && d.image == m.image
       && (comp.scale.None? ==> d.replicas == Some(if comp.replicas.Some? then comp.replicas.value else 1))
       && (comp.scale.Some? && d.replicas == Some(0) ==> comp.scale.value.min == Some(0))
  }

  /** A roll of what is in place changes nothing. */
  lemma RollChangesNothing(m: Spec, role: Role, a: View, b: View)
    requires PlacedAt(m, a.w, role) && IsRolled(m, role, Present(a.w.work, role), b) && b.facts.quiet
    requires Handover.Converged(m, a.w) && a.w.secrets == b.w.secrets
    ensures SameDeployment(a.w.work, b.w.work, role)
  {
    hide ChecksumFor, Handover.RolledOut;
    var cs :| ChecksumFor(m, cs, Exact, a.w.secrets) && Handover.At(a.w, cs);
    var d := b.w.work.deployments[role];
    QuietChecksum(m, d.checksum.value, b.facts, b.w.secrets);
    OneChecksum(m, cs, d.checksum.value, a.w.secrets);
  }

  lemma StillConverged(m: Spec, a: View, b: View)
    requires InPlace(m, a.w) && CalmlyRolled(m, a, b) && b.facts.quiet
    ensures a.w.work.deployments == b.w.work.deployments && Handover.Converged(m, b.w)
  {
    hide IsRolled, PlacedAt, ChecksumFor, Handover.RolledOut;
    RollChangesNothing(m, App, a, b);
    RollChangesNothing(m, Worker, a, b);
    AllSame(a.w.work, b.w.work);
    SameConverged(m, a.w, b.w);
  }

  lemma SameConverged(m: Spec, a: World, b: World)
    requires Handover.Converged(m, a) && a.work.deployments == b.work.deployments && a.secrets == b.secrets
    ensures Handover.Converged(m, b)
  {
    hide ChecksumFor;
    var cs :| ChecksumFor(m, cs, Exact, a.secrets) && Handover.At(a, cs);
    assert Handover.At(b, cs);
  }

  /** What a pass that got to the end of the gates leaves of app and worker. */
  ghost predicate Running(m: Spec, was: Workloads, v: View) {
    Deployed(m, App, v) && Deployed(m, Worker, v) && StaticBoth(m, was, v.w.work)
  }

  lemma RunningStays(m: Spec, was: Workloads, a: View, b: View)
    requires Running(m, was, a) && Handover.Handed(a, b)
    ensures Running(m, was, b)
  {
    hide Moved, Spares, Deployed, StaticAt;
    SparedStays(m, App, DetectorRole, was, None, a, b, Wide);
    SparedStays(m, Worker, DetectorRole, was, None, a, b, Wide);
  }

  /** What a calm pass through open gates makes of app and worker, given what they were. */
  ghost predicate Renewed(m: Spec, was: Workloads, v: View) {
    IsRolled(m, App, Present(was, App), v) && IsRolled(m, Worker, Present(was, Worker), v)
  }

  lemma RenewedStays(m: Spec, was: Workloads, a: View, b: View)
    requires Renewed(m, was, a) && Handover.Handed(a, b) && Calm(a.script)
    ensures Renewed(m, was, b)
  {
    hide Moved, IsRolled, Calm;
    SparedSame(a, b, DetectorRole, App);
    SparedSame(a, b, DetectorRole, Worker);
    OneRolledStays(m, App, Present(was, App), a, b, Wide);
    OneRolledStays(m, Worker, Present(was, Worker), a, b, Wide);
  }

  /** The gates open at the start of a pass are open when it comes to them. */
  lemma OpenStays(m: Spec, a: View, b: View)
    requires Approached(m, a, b) && Calm(a.script) && Detector.KeyThere(m, a.w) && Inv(b.w) && Open(m, a.w)
    ensures Open(m, b.w)
  {
    hide KeepsMeta, Calm, Spares, Detector.KeyThere, Undemanding, DetDone, ManagedInUse, MetaDone, ObjHashFor;
    ApproachKeeps(m, a, b);
    if DetDone(m, a.w) {
      DetDoneKept(m, a.w, b.w);
    } else {
      SqlKept(a.w.det, b.w.det);
    }
    if m.obj.Some? && m.obj.value.autoConfigure {
      ObjDoneKept(m, a.w, b.w);
    }
  }

  lemma ApproachKeeps(m: Spec, a: View, b: View)
    requires Approached(m, a, b) && Calm(a.script)
    ensures Succeeded(a.w.mig.jobs, m.image) ==> Succeeded(b.w.mig.jobs, m.image)
    ensures (a.w.dbReady ==> b.w.dbReady) && (a.w.redisReady ==> b.w.redisReady)
    ensures Handover.Handed(a, b) && KeepsMeta(a.w.det, b.w.det)
  {
    hide KeepsMeta, Calm, Spares, Detector.KeyThere, Undemanding, Steady;
  }

  /** App and worker come to the gates as they were. */
  lemma ApproachSpares(m: Spec, a: View, b: View)
    requires Approached(m, a, b)
    ensures Handover.Handed(a, b) && Quieter(a, b)
    ensures Scaled(a.w.work, App) == Scaled(b.w.work, App) && Scaled(a.w.work, Worker) == Scaled(b.w.work, Worker)
    ensures Calm(a.script) ==> Calm(b.script)
    ensures Calm(a.script) ==> Present(a.w.work, App) == Present(b.w.work, App)
    ensures Calm(a.script) ==> Present(a.w.work, Worker) == Present(b.w.work, Worker)
    ensures Calm(a.script) && Detector.KeyThere(m, a.w) ==> Unstirred(a, b)
    ensures Calm(a.script) && Undemanding(m, a.w) ==> a.w.work.deployments == b.w.work.deployments
  {
    hide Moved, KeepsMeta, Calm, Spares, Detector.KeyThere, Undemanding;
    Handover.CalmHanded(a, b);
    QuieterByMove(a, b, Wide);
    SparedScalers(a, b, DetectorRole);
    if Calm(a.script) {
      SparedSame(a, b, DetectorRole, App);
      SparedSame(a, b, DetectorRole, Worker);
    }
  }

  lemma BecauseAtStart(stop: Stop, m: Spec, a: View, b: View, v: View, w: View, before: seq<Event>, after: seq<Event>)
    requires Approached(m, a, b) && Inv(b.w) && Reached(stop, m, b, v, before, after) && Quieter(b, v) && Quieter(v, w)
    ensures Because(stop, m, a, w)
  {
    hide Calm, Spares, KeepsMeta, KeepsMigrations, KeepsWork, Because, Inv, Steady, ObjHashFor, Deployed, Suspended, Retried,
      Detector.DetPending;
    assert KeepsMigrations(a.w.mig, b.w.mig);
    StillOpenKept(m, a.w.mig, b.w.mig);
    if stop.AwaitingObjectStorage? {
      PendingIsAuto(m, v);
    }
    BecauseEarlier(stop, m, a, b, v);
    BecauseLater(stop, m, a, v, w);
  }

  lemma PendingIsAuto(m: Spec, v: View)
    requires ObjPending(m, v.w, Within(v.facts))
    ensures m.obj.Some? && m.obj.value.autoConfigure
  {
  }

  lemma BecauseLater(stop: Stop, m: Spec, a: View, v: View, w: View)
    requires Because(stop, m, a, v) && Quieter(v, w)
    ensures Because(stop, m, a, w)
  {
    hide BackupGate, Succeeded, ObjConfigured, DetDone;
  }

  lemma RunningFrom(m: Spec, a: View, b: View, v: View)
    requires Scaled(a.w.work, App) == Scaled(b.w.work, App) && Scaled(a.w.work, Worker) == Scaled(b.w.work, Worker)
    requires Running(m, b.w.work, v)
    ensures Running(m, a.w.work, v)
  {
    hide Deployed;
    StaticBack(m.app, a.w.work, b.w.work, v.w.work, App);
    StaticBack(m.worker, a.w.work, b.w.work, v.w.work, Worker);
  }

  lemma SuspendedToTheEnd(m: Spec, a: View, b: View)
    requires Suspended(m, a.w.work) && Handover.Handed(a, b)
    requires m.det.ManagedDet? ==> Spares(a, b, App) && Spares(a, b, Worker)
    ensures Suspended(m, b.w.work)
  {
    hide Spares, Suspended, Moved;
    SuspendedKept(m, a, b, if m.det.ManagedDet? then App else DetectorRole);
  }

  /** The steps after the gates: what is not modelled, then the handover. */
  method Conclude(c: Cluster, m: Spec, done: bool, owned: bool) returns (ok: bool)
    requires c.Valid() && (done ==> DetConfigured(m, c.w, Within(c.facts)))
    modifies c
    ensures c.Valid() && Extends(old(c.log), c.log, m) && Handover.Handed(old(c.Now()), c.Now())
    ensures Suspended(m, old(c.w.work)) ==> Suspended(m, c.w.work)
    ensures Calm(old(c.script)) ==> ok
    ensures Calm(old(c.script)) && old(c.facts.quiet) && done && Handover.Converged(m, old(c.w)) ==>
      Handover.HandedOver(m, old(c.w), c.w, owned)
  {
    hide EventOk, Honest, Balanced, Calm, Moved, DetConfigured, Suspended, Inv, Spares, Rooted, FactsBacked,
      Handover.Handed, Handover.Converged, Handover.HandedOver;
    ghost var v0 := c.Now();
    ok := c.Other();
    ghost var v1 := c.Now();
    Handover.HandedByMove(v0, v1, Nothing);
    Handover.Untouched(v0, v1, Nothing);
    StaysCalm(v0, v1, Nothing);
    if done { Handover.ConfiguredStays(m, v0, v1); }
    if Suspended(m, v0.w.work) { SuspendedToTheEnd(m, v0, v1); }
    if !ok { return; }
    if Calm(v0.script) {
      SameWhenCalm(v0, v1, Nothing);
      if Handover.Converged(m, v0.w) { SameConverged(m, v0.w, v1.w); }
    }
    ok := Handover.Finalize(c, m, done, owned);
    Handover.HandedTwice(v0, v1, c.Now());
    if Suspended(m, v1.w.work) { SuspendedToTheEnd(m, v1, c.Now()); }
    HandedOverFrom(m, v0.w, v1.w, c.w, owned);
  }

  lemma HandedOverFrom(m: Spec, a: World, b: World, w: World, owned: bool)
    ensures a.work.deployments == b.work.deployments && Handover.HandedOver(m, b, w, owned) ==>
      Handover.HandedOver(m, a, w, owned)
  {
    hide Handover.Cleared;
  }

  /**
   reconcileAll. It stops where `stop` says, for a reason there was at its start. In calm it has no
   error; through gates that are open it renews app and worker from what they were; and if they were
   in place already it leaves nothing of a detector that is given up.
   */
  method ReconcileAll(c: Cluster, m: Spec, version: nat, owned: bool) returns (ok: bool, ghost stop: Stop)
    requires c.Valid()
    modifies c
    ensures c.Valid() && Extends(old(c.log), c.log, m)
    ensures ok && m.suspend ==> Suspended(m, c.w.work)
    ensures ok ==> (stop.Paused? <==> m.suspend) && Because(stop, m, old(c.Now()), c.Now())
    ensures ok && stop.Rolled? ==> Running(m, old(c.w.work), c.Now())
    ensures Calm(old(c.script)) && PlanThere(m) ==> ok
    ensures Calm(old(c.script)) && old(c.facts.quiet) && Detector.KeyThere(m, old(c.w)) && Open(m, old(c.w)) ==>
      ok && stop.Rolled? && Renewed(m, old(c.w.work), c.Now())
    ensures Calm(old(c.script)) && old(c.facts.quiet) && Detector.KeyThere(m, old(c.w)) && Open(m, old(c.w)) && InPlace(m, old(c.w)) ==>
      Handover.HandedOver(m, old(c.w), c.w, owned)
  {
    hide EventOk, Honest, Balanced, Calm, Moved, DetConfigured, Suspended, Prepared, Inv, Approached, Renewed, Running, CalmlyRolled,
      Deployed, StaticBoth, Retried, ObjPending, Detector.DetPending, Detector.KeyThere, Because, Rooted, FactsBacked, Open,
      Undemanding, PlanThere, Handover.Handed, Handover.Converged, Handover.HandedOver, Handover.Cleared, InPlace, IsRolled;
    ghost var v0 := c.Now();
    stop := Rolled;
    var existing := Prepare(c, m, version);
    ghost var v1, log1 := c.Now(), c.log;
    ApproachSpares(m, v0, v1);
    if Open(m, v0.w) { PlanOfOpen(m, v0.w); }
    if existing.None? { return false, stop; }
    if Calm(v0.script) && Detector.KeyThere(m, v0.w) && Open(m, v0.w) { OpenStays(m, v0, v1); }
    var done;
    done, stop := SuspendOrRoll(c, m, existing.value);
    ghost var v2, log2 := c.Now(), c.log;
    if done.None? { return false, stop; }
    ok := Conclude(c, m, done.value, owned);
    QuieterToTheEnd(v2, c.Now());
    BecauseAtStart(stop, m, v0, v1, v2, c.Now(), log1, log2);
    if stop.Rolled? {
      GotRunning(stop, m, v1, v2, log1, log2);
      RunningFrom(m, v0, v1, v2);
      RunningStays(m, v0.w.work, v2, c.Now());
    }
    if m.suspend { GotSuspended(stop, m, v1, v2, log1, log2); }
    if Calm(v0.script) && v0.facts.quiet && Detector.KeyThere(m, v0.w) && Open(m, v0.w) {
      RenewedFrom(m, v0, v1, v2);
      RenewedStays(m, v0.w.work, v2, c.Now());
      if InPlace(m, v0.w) {
        InPlaceIsUndemanding(m, v0.w);
        InPlaceStays(m, v0.w, v1.w);
        CalmlyQuiet(m, v1, v2);
        StillConverged(m, v1, v2);
        HandedOverFrom(m, v0.w, v2.w, c.w, owned);
      }
    }
  }

  lemma PlanOfOpen(m: Spec, w: World)
    requires Open(m, w)
    ensures PlanThere(m)
  {
    PlanOfRow(m, w);
  }

  lemma QuieterToTheEnd(a: View, b: View)
    requires Handover.Handed(a, b)
    ensures Quieter(a, b)
  {
    hide Moved, Spares;
    QuieterByMove(a, b, Wide);
  }

  lemma GotRunning(stop: Stop, m: Spec, a: View, v: View, before: seq<Event>, after: seq<Event>)
    requires stop.Rolled? && Reached(stop, m, a, v, before, after) && StaticBoth(m, a.w.work, v.w.work)
    ensures Running(m, a.w.work, v)
  {
    hide Deployed, StaticBoth;
  }

  lemma GotSuspended(stop: Stop, m: Spec, a: View, v: View, before: seq<Event>, after: seq<Event>)
    requires stop.Paused? && Reached(stop, m, a, v, before, after)
    ensures Suspended(m, v.w.work)
  {
    hide Suspended;
  }

  lemma RenewedFrom(m: Spec, a: View, b: View, v: View)
    requires CalmlyRolled(m, b, v)
    requires Present(a.w.work, App) == Present(b.w.work, App) && Present(a.w.work, Worker) == Present(b.w.work, Worker)
    ensures Renewed(m, a.w.work, v)
  {
    hide IsRolled;
  }

  lemma InPlaceIsUndemanding(m: Spec, w: World)
    requires InPlace(m, w) && Detector.KeyThere(m, w)
    ensures Undemanding(m, w)
  {
    hide Detector.KeyThere, Detector.DetectorSettled, Handover.Converged;
  }

  lemma InPlaceStays(m: Spec, a: World, b: World)
    requires InPlace(m, a) && a.work.deployments == b.work.deployments && a.secrets == b.secrets
    ensures InPlace(m, b)
  {
    hide Handover.Converged;
    SameConverged(m, a, b);
  }

  lemma CalmlyQuiet(m: Spec, a: View, b: View)
    requires CalmlyRolled(m, a, b)
    ensures a.facts.quiet == b.facts.quiet && a.w.secrets == b.w.secrets
  {
    hide IsRolled;
  }

  // ----- Runs -----

  /** The operator runs one pass, or the environment moves while the operator is idle. */
  datatype Act = Pass(version: nat, owned: bool) | Outside(step: EnvStep)

  /** A pass for `m` took the history from `a` to `b`. */
  ghost predicate PassOf(a: seq<Event>, b: seq<Event>, m: Spec) {
    && a < b && b[|a|].Began? && b[|a|].m == m
    && Extends(b[..|a| + 1], b, m)
  }

  lemma PassHasOneSpec(a: seq<Event>, b: seq<Event>, m: Spec)
    requires OneSpecAPass(a) && PassOf(a, b, m)
    ensures OneSpecAPass(b)
  {
    var start := |a|;
    forall i | 0 <= i < |b| && !b[i].Began? ensures SpecAt(b[..i]) == Some(b[i].m) {
      if i < start {
        assert b[i] == a[i] && b[..i] == a[..i];
      } else {
        SpecStays(b, start + 1, i);
        assert b[..start + 1][start] == b[start];
      }
    }
  }

  /**
   One pass, for the spec as it is when it begins. A successful suspended pass leaves nothing running,
   and no suspended pass creates anything; for the rest it is as `ReconcileAll` says.
   */
  method RunPass(c: Cluster, version: nat, owned: bool) returns (ok: bool, ghost stop: Stop)
    requires c.Valid()
    modifies c
    ensures c.Valid() && PassOf(old(c.log), c.log, old(c.w.spec))
    ensures ok && old(c.w.spec.suspend) ==> Suspended(old(c.w.spec), c.w.work)
    ensures old(c.w.spec.suspend) ==>
      forall i | |old(c.log)| <= i < |c.log| && c.log[i].Wrote? :: !Creates(c.log[i].op)
    ensures ok ==> (stop.Paused? <==> old(c.w.spec.suspend)) && Because(stop, old(c.w.spec), Fresh(old(c.Now())), c.Now())
    ensures ok && stop.Rolled? ==> Running(old(c.w.spec), old(c.w.work), c.Now())
    ensures Calm(old(c.script)) && PlanThere(old(c.w.spec)) ==> ok
    ensures Calm(old(c.script)) && AllOpen(old(c.w)) ==> ok && stop.Rolled? && Renewed(old(c.w.spec), old(c.w.work), c.Now())
    ensures Calm(old(c.script)) && AllOpen(old(c.w)) && InPlace(old(c.w.spec), old(c.w)) ==>
      Handover.HandedOver(old(c.w.spec), old(c.w), c.w, owned)
  {
    hide Suspended, Balanced, Inv, Backed, FactsBacked, Rooted, Because, Running, PlanThere, Detector.KeyThere, Open, Renewed,
      InPlace, Handover.HandedOver, Calm;
    var m := c.Begin();
    ghost var begun := c.log;
    ok, stop := ReconcileAll(c, m, version, owned);
    assert c.log[|old(c.log)|] == begun[|old(c.log)|] && c.log[..|old(c.log)| + 1] == begun;
    forall i | m.suspend && |old(c.log)| <= i < |c.log| && c.log[i].Wrote?
      ensures !Creates(c.log[i].op)
    {
      assert EventOk(c.log[i]);
    }
  }

  /** All that the spec waits for is there. */
  ghost predicate AllOpen(w: World) {
    Detector.KeyThere(w.spec, w) && Open(w.spec, w)
  }

  /** A view in which a pass has just begun. */
  ghost function Fresh(v: View): View {
    v.(facts := Facts(None, None, true, {}, {}))
  }

  /** After a suspension, a component that was rolled is not left at 0 unless the spec asks for that. */
  lemma ResumedFromZero(m: Spec, was: Workloads, v: View, role: Role)
    requires !role.DetectorRole? && Stopped(was, role)
    ensures
      var comp := if role.App? then m.app else m.worker;
      && (Running(m, was, v) && comp.scale.None? && v.w.work.deployments[role].replicas == Some(0) ==> comp.replicas == Some(0))
      && (Renewed(m, was, v) && v.w.work.deployments[role].replicas == Some(0) ==>
            (comp.scale.None? && comp.replicas == Some(0)) || (comp.scale.Some? && comp.scale.value.min == Some(0)))
  {
    hide ChecksumFor;
  }

  /**
   Every run, of any length and from any state the invariant allows, keeps every promise, each
   write in a state of the invariant and resting on what the same pass has seen. The world is what
   the history has led to, and the templates and migration Jobs in it came through their gates.
   */
  method Run(c: Cluster, acts: seq<Act>)
    requires c.Valid() && OneSpecAPass(c.log)
    modifies c
    ensures Inv(c.w) && old(c.log) <= c.log
    ensures Honest(c.log) && OneSpecAPass(c.log) && Rooted(c.start, c.log, c.w)
    ensures forall role | role == App || role == Worker :: TemplateGated(c.start, c.log, c.w, role)
    ensures forall image :: MigrationGated(c.start, c.log, c.w, image)
    ensures forall i :: LedgerOf(c.log, i).created <= 1 + LedgerOf(c.log, i).changes + LedgerOf(c.log, i).superseded
  {
    hide Calm, Eased, TemplateGated, MigrationGated, EventOk, Honest, LedgerOf, Moved, Inv, FactsBacked, OneSpecAPass, Rooted;
    for i := 0 to |acts|
      invariant c.Valid() && OneSpecAPass(c.log) && old(c.log) <= c.log
    {
      match acts[i] {
        case Pass(version, owned) =>
          ghost var before, m := c.log, c.w.spec;
          var _, _ := RunPass(c, version, owned);
          PassHasOneSpec(before, c.log, m);
        case Outside(step) => c.Step(step);
      }
    }
    forall role | role == App || role == Worker ensures TemplateGated(c.start, c.log, c.w, role) {
      TemplatesWereGated(c.start, c.log, c.w, role);
    }
    forall image ensures MigrationGated(c.start, c.log, c.w, image) {
      MigrationsWereGated(c.start, c.log, c.w, image);
    }
    forall i ensures LedgerOf(c.log, i).created <= 1 + LedgerOf(c.log, i).changes + LedgerOf(c.log, i).superseded {
      assert Fits(LedgerOf(c.log, i), c.w.mig.jobs, i);
    }
  }

  /** The runs can start: nothing has happened yet. */
  lemma NothingYet()
    ensures Honest([]) && OneSpecAPass([])
  {
  }
}

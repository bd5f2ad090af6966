/**
 Deleting an instance whose policy is Retain: the references that make its data resources its
 own are taken off before the finalizer is, while garbage collection runs in the background and
 any API call can fail.
 */
module Deletion {
  import opened Wrappers
  import opened Config
  import Redis

  datatype Kind = DatabaseCluster | StatefulSet | Secret | Replication | Sentinel | Unretained

  datatype Id = Id(kind: Kind, name: string)

  type Uid = string

  // ----- What is retained -----

  function FixedTargets(name: string): seq<Id> {
    [Id(DatabaseCluster, name + "-db"), Id(StatefulSet, name + "-meilisearch"), Id(Secret, name + "-meilisearch"),
     Id(Secret, name + "-setup"), Id(Secret, name + "-redis-auth"), Id(Secret, name + "-sensitive-detector")]
  }

  function SlotTargets(name: string, s: Redis.Slot): seq<Id> {
    [Id(StatefulSet, Redis.InstanceName(name, s)), Id(Replication, Redis.HaName(name, s)), Id(Sentinel, Redis.HaName(name, s))]
  }

  function SlotsUpTo(name: string, n: nat): seq<Id>
    requires n <= |Redis.SLOTS|
  {
    if n == 0 then [] else SlotsUpTo(name, n - 1) + SlotTargets(name, Redis.SLOTS[n - 1])
  }

  function Targets(name: string): seq<Id> {
    FixedTargets(name) + SlotsUpTo(name, |Redis.SLOTS|)
  }

  lemma {:induction false} SlotsInclude(name: string, n: nat, k: nat, t: Id)
    requires k < n <= |Redis.SLOTS| && t in SlotTargets(name, Redis.SLOTS[k])
    ensures t in SlotsUpTo(name, n)
  {
    hide SlotTargets;
    if k < n - 1 {
      SlotsInclude(name, n - 1, k, t);
    }
  }

  /** Whatever Redis instances a spec asks for, their data is among the targets. */
  lemma TargetsCoverRedis(name: string, spec: Redis.Spec, x: Redis.Instance)
    requires x in Redis.Instances(spec)
    ensures x.ha ==> Id(Replication, Redis.HaName(name, x.slot)) in Targets(name)
    ensures x.ha ==> Id(Sentinel, Redis.HaName(name, x.slot)) in Targets(name)
    ensures !x.ha ==> Id(StatefulSet, Redis.InstanceName(name, x.slot)) in Targets(name)
  {
    Redis.SlotListed(x.slot);
    var k :| 0 <= k < |Redis.SLOTS| && Redis.SLOTS[k] == x.slot;
    var s := SlotTargets(name, x.slot);
    assert s[0] in s && s[1] in s && s[2] in s;
    SlotsInclude(name, |Redis.SLOTS|, k, s[0]);
    SlotsInclude(name, |Redis.SLOTS|, k, s[1]);
    SlotsInclude(name, |Redis.SLOTS|, k, s[2]);
  }

  // ----- What holds data -----

  /** What of a spec decides which data there is. */
  datatype Needs = Needs(database: bool, search: bool, setup: bool, detectorKey: bool, redis: Redis.Spec)

  /** A managed Redis whose name ends so is asked for, replicated or not. */
  ghost predicate RedisAt(r: Redis.Spec, end: string, ha: bool) {
    || (end == "" && r.external.None? && r.ha == ha)
    || (end == "-" + "jobqueue" && RoleAt(r, JobQueue, ha))
    || (end == "-" + "pubsub" && RoleAt(r, Pubsub, ha))
    || (end == "-" + "timelines" && RoleAt(r, Timelines, ha))
    || (end == "-" + "reactions" && RoleAt(r, Reactions, ha))
  }

  ghost predicate RoleAt(r: Redis.Spec, role: Role, ha: bool) {
    role in r.roles && r.roles[role].external.None? && r.roles[role].ha == ha
  }

  /** The objects with data, or with the key to data, that the operator makes for a spec. */
  ghost predicate HoldsData(name: string, n: Needs, id: Id) {
    match id.kind
    case DatabaseCluster => n.database && id.name == name + "-db"
    case StatefulSet =>
      || (n.search && id.name == name + "-meilisearch")
      || exists end :: RedisAt(n.redis, end, false) && id.name == name + "-redis" + end
    case Secret =>
      || (n.search && id.name == name + "-meilisearch")
      || (n.setup && id.name == name + "-setup")
      || (n.detectorKey && id.name == name + "-sensitive-detector")
      || (id.name == name + "-redis-auth" && exists end, ha :: RedisAt(n.redis, end, ha))
    case Replication => exists end :: RedisAt(n.redis, end, true) && id.name == name + "-redis" + end + "-ha"
    case Sentinel => exists end :: RedisAt(n.redis, end, true) && id.name == name + "-redis" + end + "-ha"
    case Unretained => false
  }

  /** The object holds data under some spec; and data may be left of any spec there has been. */
  ghost predicate IsData(name: string, id: Id) {
    exists n :: HoldsData(name, n, id)
  }

  ghost function EndOf(s: Redis.Slot): string {
    match s
    case Shared => ""
    case ForRole(JobQueue) => "-" + "jobqueue"
    case ForRole(Pubsub) => "-" + "pubsub"
    case ForRole(Timelines) => "-" + "timelines"
    case ForRole(Reactions) => "-" + "reactions"
  }

  lemma RedisNames(name: string, s: Redis.Slot)
    ensures Redis.InstanceName(name, s) == name + "-redis" + EndOf(s)
    ensures Redis.HaName(name, s) == name + "-redis" + EndOf(s) + "-ha"
  {
  }

  lemma SlotAt(r: Redis.Spec, end: string, ha: bool)
    requires RedisAt(r, end, ha)
    ensures exists s: Redis.Slot :: end == EndOf(s)
  {
    if end == "" {
      assert end == EndOf(Redis.Shared);
    } else if end == "-" + "jobqueue" {
      assert end == EndOf(Redis.ForRole(JobQueue));
    } else if end == "-" + "pubsub" {
      assert end == EndOf(Redis.ForRole(Pubsub));
    } else if end == "-" + "timelines" {
      assert end == EndOf(Redis.ForRole(Timelines));
    } else {
      assert end == EndOf(Redis.ForRole(Reactions));
    }
  }

  lemma SlotTargetsIn(name: string, s: Redis.Slot)
    ensures Id(StatefulSet, name + "-redis" + EndOf(s)) in Targets(name)
    ensures Id(Replication, name + "-redis" + EndOf(s) + "-ha") in Targets(name)
    ensures Id(Sentinel, name + "-redis" + EndOf(s) + "-ha") in Targets(name)
  {
    RedisNames(name, s);
    Redis.SlotListed(s);
    var k :| 0 <= k < |Redis.SLOTS| && Redis.SLOTS[k] == s;
    var t := SlotTargets(name, s);
    assert t[0] in t && t[1] in t && t[2] in t;
    SlotsInclude(name, |Redis.SLOTS|, k, t[0]);
    SlotsInclude(name, |Redis.SLOTS|, k, t[1]);
    SlotsInclude(name, |Redis.SLOTS|, k, t[2]);
  }

  lemma FixedTargetsIn(name: string)
    ensures Id(DatabaseCluster, name + "-db") in Targets(name) && Id(StatefulSet, name + "-meilisearch") in Targets(name)
    ensures Id(Secret, name + "-meilisearch") in Targets(name) && Id(Secret, name + "-setup") in Targets(name)
    ensures Id(Secret, name + "-redis-auth") in Targets(name) && Id(Secret, name + "-sensitive-detector") in Targets(name)
  {
    hide SlotsUpTo;
    var f := FixedTargets(name);
    assert f[0] in f && f[1] in f && f[2] in f && f[3] in f && f[4] in f && f[5] in f;
  }

  /** Whatever holds data under any spec is a target. */
  lemma DataIsTargeted(name: string, n: Needs, id: Id)
    requires HoldsData(name, n, id)
    ensures id in Targets(name)
  {
    hide Targets, RedisAt, EndOf;
    FixedTargetsIn(name);
    forall end, ha | RedisAt(n.redis, end, ha)
      ensures Id(StatefulSet, name + "-redis" + end) in Targets(name)
      ensures Id(Replication, name + "-redis" + end + "-ha") in Targets(name) && Id(Sentinel, name + "-redis" + end + "-ha") in Targets(name)
    {
      SlotAt(n.redis, end, ha);
      var s: Redis.Slot :| end == EndOf(s);
      SlotTargetsIn(name, s);
    }
  }

  ghost function Everything(ha: bool): Needs {
    var r := Redis.RoleSpec(None, ha);
    Needs(true, true, true, true,
      Redis.Spec(None, ha, map[JobQueue := r, Pubsub := r, Timelines := r, Reactions := r], true))
  }

  lemma SlotHoldsData(name: string, s: Redis.Slot, t: Id)
    requires t in SlotTargets(name, s)
    ensures IsData(name, t)
  {
    RedisNames(name, s);
    hide Redis.InstanceName, Redis.HaName;
    var n := Everything(t.kind != StatefulSet);
    assert RedisAt(n.redis, EndOf(s), t.kind != StatefulSet);
    assert HoldsData(name, n, t);
  }

  lemma {:induction false} SlotsHoldData(name: string, n: nat, t: Id)
    requires n <= |Redis.SLOTS| && t in SlotsUpTo(name, n)
    ensures IsData(name, t)
  {
    hide SlotTargets, IsData;
    if t in SlotTargets(name, Redis.SLOTS[n - 1]) {
      SlotHoldsData(name, Redis.SLOTS[n - 1], t);
    } else {
      SlotsHoldData(name, n - 1, t);
    }
  }

  /** The targets are exactly the objects that can hold data. */
  lemma TargetsAreTheData(name: string, id: Id)
    ensures id in Targets(name) <==> IsData(name, id)
  {
    hide SlotsUpTo, RedisAt;
    if id in Targets(name) {
      if id in FixedTargets(name) {
        var n := Everything(false);
        assert RedisAt(n.redis, "", false) by { RedisShared(); }
        assert HoldsData(name, n, id);
      } else {
        SlotsHoldData(name, |Redis.SLOTS|, id);
      }
    }
    if IsData(name, id) {
      var n :| HoldsData(name, n, id);
      DataIsTargeted(name, n, id);
    }
  }

  lemma RedisShared()
    ensures RedisAt(Everything(false).redis, "", false)
  {
  }

  // ----- Owner references -----

  /** The references without those to one owner, in their order. */
  function Without(refs: seq<Uid>, uid: Uid): seq<Uid> {
    if refs == [] then []
    else
      var n := |refs| - 1;
      Without(refs[..n], uid) + if refs[n] == uid then [] else [refs[n]]
  }

  lemma {:induction false} WithoutCounts(refs: seq<Uid>, uid: Uid)
    ensures multiset(Without(refs, uid)) == multiset(refs)[uid := 0]
  {
    if refs != [] {
      var n := |refs| - 1;
      WithoutCounts(refs[..n], uid);
      assert refs == refs[..n] + [refs[n]];
    }
  }

  lemma {:induction false} WithoutIsOurs(refs: seq<Uid>, uid: Uid)
    ensures uid !in Without(refs, uid)
    ensures |Without(refs, uid)| <= |refs|
    ensures Without(refs, uid) == refs <==> uid !in refs
  {
    if refs != [] {
      var n := |refs| - 1;
      WithoutIsOurs(refs[..n], uid);
      assert refs == refs[..n] + [refs[n]];
    }
  }

  /** Every other owner stays as often as it was there; ours is gone, and nothing changes without it. */
  lemma WithoutKeeps(refs: seq<Uid>, uid: Uid)
    ensures multiset(Without(refs, uid)) == multiset(refs)[uid := 0]
    ensures Without(refs, uid) == refs <==> uid !in refs
    ensures uid !in Without(refs, uid)
    ensures |Without(refs, uid)| <= |refs|
  {
    WithoutCounts(refs, uid);
    WithoutIsOurs(refs, uid);
  }

  /** `a` can be had from `b` by leaving elements out. */
  ghost predicate Subsequence(a: seq<Uid>, b: seq<Uid>) {
    if a == [] then true
    else if b == [] then false
    else if a[|a| - 1] == b[|b| - 1] then Subsequence(a[..|a| - 1], b[..|b| - 1])
    else Subsequence(a, b[..|b| - 1])
  }

  lemma {:induction false} WithoutInOrder(refs: seq<Uid>, uid: Uid)
    ensures Subsequence(Without(refs, uid), refs)
  {
    if refs != [] {
      var n := |refs| - 1;
      var a := Without(refs[..n], uid);
      WithoutInOrder(refs[..n], uid);
      if refs[n] != uid {
        assert (a + [refs[n]])[..|a|] == a;
      } else {
        WithoutKeeps(refs[..n], uid);
        assert Without(refs, uid) == a;
        if a != [] {
          assert a[|a| - 1] in a;
        }
      }
    }
  }

  /** The loop of orphan. */
  method Detach(refs: seq<Uid>, uid: Uid) returns (kept: seq<Uid>, changed: bool)
    ensures kept == Without(refs, uid) && changed == (uid in refs)
  {
    kept, changed := [], false;
    for i := 0 to |refs|
      invariant kept == Without(refs[..i], uid) && changed == (uid in refs[..i])
    {
      assert refs[..i + 1][..i] == refs[..i];
      if refs[i] == uid {
        changed := true;
      } else {
        kept := kept + [refs[i]];
      }
    }
    assert refs[..|refs|] == refs;
  }

  // ----- The cluster around it -----

  datatype EnvStep =
    | Collect(id: Id)
    | StripDead(id: Id)
    | OwnerDies(uid: Uid)
    | OwnerBorn(uid: Uid)
    | Own(id: Id, uid: Uid)
    | Create(id: Id)
    | Remove(id: Id)
    | RequestDelete
    | Vanish

  datatype Outcome = Done | Refused | Lost

  /** What happens before one API call, and how the call ends. */
  datatype Moment = Moment(steps: seq<EnvStep>, outcome: Outcome)

  datatype Owner = Owner(uid: Uid, finalizer: bool, deleting: bool, gone: bool)

  datatype World = World(objects: map<Id, seq<Uid>>, live: set<Uid>, owner: Owner)

  predicate Alive(w: World, uid: Uid) {
    if uid == w.owner.uid then !w.owner.gone else uid in w.live
  }

  predicate Dead(w: World, refs: seq<Uid>) {
    refs != [] && forall i | 0 <= i < |refs| :: !Alive(w, refs[i])
  }

  /** Only the dead owners are gone from the list. */
  function LiveRefs(w: World, refs: seq<Uid>): seq<Uid> {
    if refs == [] then []
    else (if Alive(w, refs[0]) then [refs[0]] else []) + LiveRefs(w, refs[1..])
  }

  /** Garbage collection, other controllers and the user. Nobody but the operator refers to the instance. */
  function EnvNext(w: World, e: EnvStep): World {
    match e
    case Collect(id) => if id in w.objects && Dead(w, w.objects[id]) then w.(objects := w.objects - {id}) else w
    case StripDead(id) =>
      if id in w.objects && !Dead(w, w.objects[id]) then w.(objects := w.objects[id := LiveRefs(w, w.objects[id])]) else w
    case OwnerDies(uid) => w.(live := w.live - {uid})
    case OwnerBorn(uid) => w.(live := w.live + {uid})
    case Own(id, uid) =>
      if id in w.objects && uid != w.owner.uid then w.(objects := w.objects[id := w.objects[id] + [uid]]) else w
    case Create(id) => if id in w.objects then w else w.(objects := w.objects[id := []])
    case Remove(id) => w.(objects := w.objects - {id})
    case RequestDelete => w.(owner := w.owner.(deleting := true))
    case Vanish => if w.owner.deleting && !w.owner.finalizer then w.(owner := w.owner.(gone := true)) else w
  }

  /** Garbage collection takes exactly the objects that have owners of which none is left. */
  lemma CollectedIff(w: World, id: Id)
    requires id in w.objects
    ensures id !in EnvNext(w, Collect(id)).objects <==>
      && w.objects[id] != []
      && forall r | r in w.objects[id] :: if r == w.owner.uid then w.owner.gone else r !in w.live
  {
    var refs := w.objects[id];
    if forall r | r in refs :: !Alive(w, r) {
      assert forall i | 0 <= i < |refs| :: !Alive(w, refs[i]);
    }
    if Dead(w, refs) {
      forall r | r in refs ensures !Alive(w, r) {
        var i :| 0 <= i < |refs| && refs[i] == r;
      }
    }
  }

  /** An object went to the garbage collector, with these owners. */
  datatype Loss = Loss(id: Id, refs: seq<Uid>)

  ghost function LossOf(w: World, e: EnvStep): seq<Loss> {
    if e.Collect? && e.id in w.objects && Dead(w, w.objects[e.id]) then [Loss(e.id, w.objects[e.id])] else []
  }

  function After(w: World, steps: seq<EnvStep>): World {
    if steps == [] then w else EnvNext(After(w, steps[..|steps| - 1]), steps[|steps| - 1])
  }

  /** All that is collected in the course of some steps. */
  ghost function LossesOf(w: World, steps: seq<EnvStep>): seq<Loss> {
    if steps == [] then []
    else
      var n := |steps| - 1;
      LossesOf(w, steps[..n]) + LossOf(After(w, steps[..n]), steps[n])
  }

  lemma NothingYet(w: World)
    ensures After(w, []) == w && LossesOf(w, []) == []
  {
  }

  lemma NextStep(w: World, steps: seq<EnvStep>, i: nat)
    requires i < |steps|
    ensures After(w, steps[..i + 1]) == EnvNext(After(w, steps[..i]), steps[i])
    ensures LossesOf(w, steps[..i + 1]) == LossesOf(w, steps[..i]) + LossOf(After(w, steps[..i]), steps[i])
  {
    assert steps[..i + 1][..i] == steps[..i];
  }

  function StepsNow(moments: seq<Moment>): seq<EnvStep> {
    if moments == [] then [] else moments[0].steps
  }

  ghost predicate Owned(w: World, id: Id) {
    id in w.objects && w.owner.uid in w.objects[id]
  }

  /** No data resource refers to the instance once the finalizer is off. */
  ghost predicate Inv(w: World, targets: seq<Id>) {
    && (w.owner.finalizer ==> !w.owner.gone)
    && (!w.owner.finalizer ==> forall t | t in targets :: !Owned(w, t))
  }

  /** No data resource was collected while it referred to the instance. */
  ghost predicate Kept(losses: seq<Loss>, targets: seq<Id>, uid: Uid) {
    forall i | 0 <= i < |losses| && losses[i].id in targets :: uid !in losses[i].refs
  }

  /** Nobody else is an owner of the targets. */
  ghost predicate Alone(w: World, targets: seq<Id>) {
    forall t | t in targets && t in w.objects :: forall r | r in w.objects[t] :: r == w.owner.uid
  }

  ghost predicate NoneLost(losses: seq<Loss>, targets: seq<Id>) {
    forall i | 0 <= i < |losses| :: losses[i].id !in targets
  }

  /** No other controller is going to own anything. */
  predicate NoOwn(moments: seq<Moment>) {
    forall i, j | 0 <= i < |moments| && 0 <= j < |moments[i].steps| :: !moments[i].steps[j].Own?
  }

  /** Where nobody else owns them, no step of the environment loses a target. */
  lemma AloneSafe(w: World, e: EnvStep, targets: seq<Id>, losses: seq<Loss>)
    requires Inv(w, targets) && Alone(w, targets) && NoneLost(losses, targets) && !e.Own?
    ensures Alone(EnvNext(w, e), targets) && NoneLost(losses + LossOf(w, e), targets)
  {
    if e.StripDead? && e.id in w.objects {
      forall r | r in LiveRefs(w, w.objects[e.id]) ensures r in w.objects[e.id] {
        LiveRefsKeep(w, w.objects[e.id], r);
      }
    }
    if e.Collect? && e.id in targets && e.id in w.objects && w.objects[e.id] != [] {
      var r := w.objects[e.id][0];
      assert r in w.objects[e.id] && r == w.owner.uid;
      assert Owned(w, e.id) && Alive(w, r);
    }
  }

  /** The environment takes nothing of ours and gives nothing to us. */
  ghost predicate Around(a: World, b: World) {
    && b.owner.uid == a.owner.uid && b.owner.finalizer == a.owner.finalizer && (a.owner.deleting ==> b.owner.deleting)
    && (forall id | Owned(b, id) :: Owned(a, id))
  }

  lemma {:induction false} LiveRefsKeep(w: World, refs: seq<Uid>, uid: Uid)
    ensures uid in LiveRefs(w, refs) <==> uid in refs && Alive(w, uid)
  {
    if refs != [] {
      LiveRefsKeep(w, refs[1..], uid);
      assert refs == [refs[0]] + refs[1..];
    }
  }

  lemma EnvAround(w: World, e: EnvStep)
    ensures Around(w, EnvNext(w, e))
  {
    if e.StripDead? && e.id in w.objects {
      LiveRefsKeep(w, w.objects[e.id], w.owner.uid);
    }
  }

  lemma EnvSafe(w: World, e: EnvStep, targets: seq<Id>, losses: seq<Loss>)
    requires Inv(w, targets) && Kept(losses, targets, w.owner.uid)
    ensures Inv(EnvNext(w, e), targets) && Kept(losses + LossOf(w, e), targets, w.owner.uid)
  {
    EnvAround(w, e);
    if e.Collect? && Owned(w, e.id) && e.id in targets {
      assert Alive(w, w.owner.uid);
      var i :| 0 <= i < |w.objects[e.id]| && w.objects[e.id][i] == w.owner.uid;
      assert !Dead(w, w.objects[e.id]);
    }
  }

  lemma AroundTrans(a: World, b: World, c: World)
    requires Around(a, b) && Around(b, c)
    ensures Around(a, c)
  {
  }

  // ----- All that happens -----

  /** A step of the environment, or a write of the operator that took effect. No write removes an object. */
  datatype Deed = Outside(e: EnvStep) | Detached(id: Id) | Given(id: Id) | Finalizer(on: bool)

  function RefsOf(w: World, id: Id): seq<Uid> {
    if id in w.objects then w.objects[id] else []
  }

  function Act(w: World, d: Deed): World {
    match d
    case Outside(e) => EnvNext(w, e)
    case Detached(id) =>
      if id in w.objects then w.(objects := w.objects[id := Without(w.objects[id], w.owner.uid)]) else w
    case Given(id) =>
      if id !in w.objects then w.(objects := w.objects[id := [w.owner.uid]])
      else if w.owner.uid in w.objects[id] then w
      else w.(objects := w.objects[id := w.objects[id] + [w.owner.uid]])
    case Finalizer(on) => w.(owner := w.owner.(finalizer := on))
  }

  /** The objects applied one after the other. */
  function Applied(w: World, ids: seq<Id>): World {
    if ids == [] then w else Act(Applied(w, ids[..|ids| - 1]), Given(ids[|ids| - 1]))
  }

  function Replay(start: World, trace: seq<Deed>): World {
    if trace == [] then start else Act(Replay(start, trace[..|trace| - 1]), trace[|trace| - 1])
  }

  /**
   Nothing refers to the instance before its finalizer is on, and no target after it is off. Only
   targets are detached, and only while the instance is being deleted.
   */
  ghost predicate DeedOk(w: World, d: Deed, targets: seq<Id>) {
    && (d.Detached? ==> w.owner.deleting && d.id in targets)
    && (d.Given? ==> w.owner.finalizer)
    && (d == Finalizer(true) ==> !w.owner.deleting && !w.owner.gone)
    && (d == Finalizer(false) ==> forall t | t in targets :: !Owned(w, t))
  }

  ghost predicate TraceOk(start: World, trace: seq<Deed>, targets: seq<Id>) {
    forall k | 0 <= k < |trace| :: DeedOk(Replay(start, trace[..k]), trace[k], targets)
  }

  /** All that was collected. */
  ghost function Collected(start: World, trace: seq<Deed>): seq<Loss> {
    if trace == [] then []
    else
      var n := |trace| - 1;
      Collected(start, trace[..n]) + if trace[n].Outside? then LossOf(Replay(start, trace[..n]), trace[n].e) else []
  }

  /** The world and the losses are what the trace leads to. */
  ghost predicate Traced(start: World, trace: seq<Deed>, w: World, losses: seq<Loss>, targets: seq<Id>) {
    w == Replay(start, trace) && losses == Collected(start, trace) && TraceOk(start, trace, targets)
  }

  lemma NextDeed(start: World, trace: seq<Deed>, w: World, losses: seq<Loss>, targets: seq<Id>, d: Deed)
    requires Traced(start, trace, w, losses, targets) && DeedOk(w, d, targets)
    ensures d.Outside? ==> Traced(start, trace + [d], Act(w, d), losses + LossOf(w, d.e), targets)
    ensures !d.Outside? ==> Traced(start, trace + [d], Act(w, d), losses, targets)
  {
    hide DeedOk, Act, LossOf;
    var t := trace + [d];
    assert t[..|trace|] == trace && losses + [] == losses;
    forall k | 0 <= k < |t| ensures DeedOk(Replay(start, t[..k]), t[k], targets) {
      assert t[..k] == if k < |trace| then trace[..k] else trace;
    }
  }

  class Operator {
    const name: string
    const retain: bool
    var w: World
    var moments: seq<Moment>
    ghost var losses: seq<Loss>
    /** Nobody else owns the targets or is going to. */
    ghost const alone: bool
    ghost const start: World
    ghost var trace: seq<Deed>

    /** The resources that must not be lost: with another policy than Retain, none. */
    ghost function Guarded(): seq<Id> {
      if retain then Targets(name) else []
    }

    ghost predicate Valid()
      reads this
    {
      && Inv(w, Guarded()) && Kept(losses, Guarded(), w.owner.uid)
      && (alone ==> Alone(w, Guarded()) && NoneLost(losses, Guarded()) && NoOwn(moments))
      && Traced(start, trace, w, losses, Guarded())
    }

    /** An instance just created: no finalizer yet, and nothing refers to it. */
    constructor (
      name: string, retain: bool, uid: Uid, objects: map<Id, seq<Uid>>, live: set<Uid>, moments: seq<Moment>, ghost alone: bool)
      requires forall id | id in objects :: uid !in objects[id]
      requires alone ==> NoOwn(moments) && forall t | t in Targets(name) && t in objects :: objects[t] == []
      ensures Valid() && this.name == name && this.retain == retain && this.alone == alone
      ensures w == World(objects, live, Owner(uid, false, false, false)) && losses == [] && this.moments == moments
    {
      this.name, this.retain, this.moments, this.alone := name, retain, moments, alone;
      w, losses, trace := World(objects, live, Owner(uid, false, false, false)), [], [];
      start := World(objects, live, Owner(uid, false, false, false));
    }

    method Step(e: EnvStep)
      requires Valid() && (alone ==> !e.Own?)
      modifies this`w, this`losses, this`trace
      ensures Valid() && Around(old(w), w)
      ensures w == EnvNext(old(w), e) && losses == old(losses) + LossOf(old(w), e)
    {
      hide Inv, Kept, Alone, NoneLost, Targets, Traced;
      NextDeed(start, trace, w, losses, Guarded(), Outside(e));
      EnvSafe(w, e, Guarded(), losses);
      EnvAround(w, e);
      if alone {
        AloneSafe(w, e, Guarded(), losses);
      }
      losses, trace := losses + LossOf(w, e), trace + [Outside(e)];
      w := EnvNext(w, e);
    }

    /** Before every call the world moves on, and what is collected is entered among the losses. */
    method Call() returns (outcome: Outcome)
      requires Valid()
      modifies this`w, this`losses, this`moments, this`trace
      ensures Valid() && Around(old(w), w) && old(losses) <= losses
      ensures w == After(old(w), StepsNow(old(moments)))
      ensures losses == old(losses) + LossesOf(old(w), StepsNow(old(moments)))
      ensures moments == (if old(moments) == [] then [] else old(moments)[1..])
      ensures outcome == if old(moments) == [] then Done else old(moments)[0].outcome
      ensures old(moments) == [] ==> outcome == Done && w == old(w)
    {
      hide Inv, Kept, Around, After, LossesOf, EnvNext, LossOf, Alone, NoneLost, Traced;
      SelfAround(w);
      NothingYet(w);
      if moments == [] {
        return Done;
      }
      var m := moments[0];
      moments := moments[1..];
      for i := 0 to |m.steps|
        invariant Valid() && Around(old(w), w) && old(losses) <= losses && moments == old(moments)[1..]
        invariant w == After(old(w), m.steps[..i])
        invariant losses == old(losses) + LossesOf(old(w), m.steps[..i])
      {
        ghost var before := w;
        Step(m.steps[i]);
        AroundTrans(old(w), before, w);
        NextStep(old(w), m.steps, i);
      }
      assert m.steps[..|m.steps|] == m.steps;
      outcome := m.outcome;
    }

    method Get(id: Id) returns (r: Result<Option<seq<Uid>>, ()>)
      requires Valid()
      modifies this`w, this`losses, this`moments, this`trace
      ensures Valid() && Around(old(w), w) && old(losses) <= losses
      ensures r.Ok? ==> r.value == if id in w.objects then Some(w.objects[id]) else None
      ensures old(moments) == [] ==> r.Ok? && w == old(w) && moments == []
    {
      hide Inv, Kept, Around, Traced, Alone, NoneLost;
      var outcome := Call();
      if outcome != Done {
        return Err(());
      }
      return Ok(if id in w.objects then Some(w.objects[id]) else None);
    }

    /** A write of an object is refused when it is no longer what was read. */
    method PutRefs(id: Id, read: seq<Uid>, refs: seq<Uid>) returns (ok: bool)
      requires Valid() && refs == Without(read, w.owner.uid) && w.owner.deleting && id in Guarded()
      modifies this`w, this`losses, this`moments, this`trace
      ensures Valid() && Around(old(w), w) && old(losses) <= losses
      ensures ok ==> id in w.objects && w.objects[id] == Without(read, w.owner.uid)
      ensures old(moments) == [] ==> moments == [] && (old(id in w.objects && w.objects[id] == read) ==> ok)
    {
      hide Kept, Without, NoneLost, Targets, Traced;
      var outcome := Call();
      if outcome == Refused || id !in w.objects || w.objects[id] != read {
        return false;
      }
      WithoutKeeps(read, w.owner.uid);
      hide Around;
      ghost var before := w;
      NextDeed(start, trace, w, losses, Guarded(), Detached(id));
      w := w.(objects := w.objects[id := refs]);
      trace := trace + [Detached(id)];
      PutAround(before, id, refs);
      if alone {
        AloneWithout(before, Guarded(), id, read);
      }
      AroundTrans(old(w), before, w);
      ok := outcome == Done;
    }

    /** After success the instance is no owner of the object, whatever else happened meanwhile. */
    method Orphan(id: Id) returns (ok: bool)
      requires Valid() && w.owner.deleting && id in Guarded()
      modifies this`w, this`losses, this`moments, this`trace
      ensures Valid() && Around(old(w), w) && old(losses) <= losses
      ensures ok ==> !Owned(w, id)
      ensures old(moments) == [] ==> ok && moments == []
    {
      hide Inv, Kept, Without, Around, Traced, Alone, NoneLost;
      var r := Get(id);
      if r.Err? {
        return false;
      }
      if r.value.None? {
        return true;
      }
      ghost var read := w;
      StillDeleting(old(w), w);
      var kept, changed := Detach(r.value.value, w.owner.uid);
      if !changed {
        return true;
      }
      ok := PutRefs(id, r.value.value, kept);
      AroundTrans(old(w), read, w);
      SameOwner(read, w);
      WithoutKeeps(r.value.value, w.owner.uid);
    }

    method RetainData() returns (ok: bool)
      requires Valid() && retain && w.owner.deleting
      modifies this`w, this`losses, this`moments, this`trace
      ensures Valid() && Around(old(w), w) && old(losses) <= losses
      ensures ok ==> forall id | IsData(name, id) :: !Owned(w, id)
      ensures old(moments) == [] ==> ok && moments == []
    {
      hide Inv, Kept, Around, Owned, FixedTargets, SlotTargets, Traced, Alone, NoneLost, IsData;
      var targets := FixedTargets(name);
      for i := 0 to |Redis.SLOTS|
        invariant targets == FixedTargets(name) + SlotsUpTo(name, i)
      {
        targets := targets + SlotTargets(name, Redis.SLOTS[i]);
      }
      assert Around(w, w) by { SelfAround(w); }
      for i := 0 to |targets|
        invariant Valid() && Around(old(w), w) && old(losses) <= losses && w.owner.deleting
        invariant forall j | 0 <= j < i :: !Owned(w, targets[j])
        invariant old(moments) == [] ==> moments == []
      {
        ghost var before := w;
        ok := Orphan(targets[i]);
        AroundTrans(old(w), before, w);
        StillDeleting(before, w);
        forall j | 0 <= j < i ensures !Owned(w, targets[j]) {
          StaysDetached(before, w, targets[j]);
        }
        if !ok {
          return;
        }
      }
      ok := true;
      forall id | IsData(name, id) ensures !Owned(w, id) {
        TargetsAreTheData(name, id);
        assert id in targets;
      }
    }

    /** Deletion: the finalizer goes only after every target has lost its reference. */
    method ReconcileDelete() returns (ok: bool)
      requires Valid() && w.owner.deleting
      modifies this`w, this`losses, this`moments, this`trace
      ensures Valid() && old(losses) <= losses
      ensures ok ==> !w.owner.finalizer
      ensures old(moments) == [] ==> ok && moments == []
      ensures old(moments) == [] && !retain ==>
        w == old(w).(owner := old(w).owner.(finalizer := false)) && losses == old(losses)
      ensures ok && retain && old(w.owner.finalizer) ==> forall id | IsData(name, id) :: !Owned(w, id)
    {
      hide Kept, Targets, Traced, NoneLost, IsData;
      if !w.owner.finalizer {
        return true;
      }
      if retain {
        ok := RetainData();
        if !ok {
          return;
        }
      }
      var outcome := Call();
      if outcome == Refused {
        return false;
      }
      forall t | t in Guarded() ensures !Owned(w, t) {
        TargetsAreTheData(name, t);
      }
      NextDeed(start, trace, w, losses, Guarded(), Finalizer(false));
      w := w.(owner := w.owner.(finalizer := false));
      trace := trace + [Finalizer(false)];
      ok := outcome == Done;
    }

    /** A pass while the instance is not being deleted: the finalizer first, then its objects. */
    method ReconcileRegular(ids: seq<Id>) returns (ok: bool)
      requires Valid()
      modifies this`w, this`losses, this`moments, this`trace
      ensures Valid() && old(losses) <= losses
      ensures ok && !old(w.owner.deleting || w.owner.gone) ==> w.owner.finalizer
      ensures old(moments) == [] ==> ok && moments == []
      ensures old(moments) == [] && !old(w.owner.deleting || w.owner.gone) ==>
        w == Applied(old(w).(owner := old(w).owner.(finalizer := true)), ids) && losses == old(losses)
      ensures old(moments) == [] && !old(w.owner.deleting || w.owner.gone) ==> forall id | id in ids :: Owned(w, id)
    {
      hide Kept, Targets, Traced, NoneLost;
      if w.owner.deleting || w.owner.gone {
        return true;
      }
      if !w.owner.finalizer {
        var outcome := Call();
        if outcome == Refused || w.owner.deleting || w.owner.gone {
          return false;
        }
        NextDeed(start, trace, w, losses, Guarded(), Finalizer(true));
        w := w.(owner := w.owner.(finalizer := true));
        trace := trace + [Finalizer(true)];
        if outcome == Lost {
          return false;
        }
      }
      for i := 0 to |ids|
        invariant Valid() && old(losses) <= losses && w.owner.finalizer
        invariant old(moments) == [] ==> moments == [] && losses == old(losses) && forall j | 0 <= j < i :: Owned(w, ids[j])
        invariant old(moments) == [] ==> w == Applied(old(w).(owner := old(w).owner.(finalizer := true)), ids[..i])
      {
        assert ids[..i + 1][..i] == ids[..i];
        ok := Apply(ids[i]);
        if !ok {
          return;
        }
      }
      assert ids[..|ids|] == ids;
      ok := true;
    }

    /** Create or update, with a reference to the instance. */
    method Apply(id: Id) returns (ok: bool)
      requires Valid() && w.owner.finalizer
      modifies this`w, this`losses, this`moments, this`trace
      ensures Valid() && old(losses) <= losses && w.owner.finalizer
      ensures ok ==> Owned(w, id)
      ensures old(moments) == [] ==> ok && moments == [] && forall x | old(Owned(w, x)) :: Owned(w, x)
      ensures old(moments) == [] ==> w == Act(old(w), Given(id)) && losses == old(losses)
    {
      hide Kept, Targets, Traced, NoneLost;
      var outcome := Call();
      if outcome == Refused {
        return false;
      }
      var refs := RefsOf(w, id);
      assert [] + [w.owner.uid] == [w.owner.uid];
      if w.owner.uid !in refs {
        NextDeed(start, trace, w, losses, Guarded(), Given(id));
        w := w.(objects := w.objects[id := refs + [w.owner.uid]]);
        trace := trace + [Given(id)];
      }
      ok := outcome == Done;
    }

    /**
     Every run: no data resource is ever collected because its instance went away, and where nobody
     else owns them none is collected at all. Each pass is given the objects it would apply if the
     instance is not being deleted.
     */
    method Run(passes: seq<seq<Id>>)
      requires Valid()
      modifies this`w, this`losses, this`moments, this`trace
      ensures Valid() && old(losses) <= losses
      ensures retain ==> forall i | 0 <= i < |losses| && IsData(name, losses[i].id) :: w.owner.uid !in losses[i].refs
      ensures retain && alone ==> forall i | 0 <= i < |losses| :: !IsData(name, losses[i].id)
      ensures w == Replay(start, trace) && losses == Collected(start, trace) && TraceOk(start, trace, Guarded())
    {
      for i := 0 to |passes|
        invariant Valid() && old(losses) <= losses
      {
        hide Inv, Kept, Targets, Alone, NoneLost, Traced;
        if w.owner.deleting {
          var _ := ReconcileDelete();
        } else {
          var _ := ReconcileRegular(passes[i]);
        }
      }
      hide Inv, Targets, Alone, Traced, IsData;
      forall i | 0 <= i < |losses| ensures losses[i].id in Targets(name) <==> IsData(name, losses[i].id) {
        TargetsAreTheData(name, losses[i].id);
      }
    }
  }

  /** Without the policy the data does go: a run in which the database is collected while it refers to the instance. */
  method LostWithoutRetain(name: string, uid: Uid) returns (o: Operator)
    ensures fresh(o) && o.Valid() && !o.retain && o.name == name && o.w.owner.uid == uid
    ensures o.losses == [Loss(Id(DatabaseCluster, name + "-db"), [uid])] && IsData(name, o.losses[0].id)
  {
    hide Targets, Inv, Kept, Traced;
    var db := Id(DatabaseCluster, name + "-db");
    o := new Operator(name, false, uid, map[], {}, [], false);
    var _ := o.ReconcileRegular([db]);
    o.Step(RequestDelete);
    var _ := o.ReconcileDelete();
    o.Step(Vanish);
    o.Step(Collect(db));
    FixedTargetsIn(name);
    TargetsAreTheData(name, db);
  }

  lemma SelfAround(w: World)
    ensures Around(w, w)
  {
  }

  lemma StillDeleting(a: World, b: World)
    requires Around(a, b) && a.owner.deleting
    ensures b.owner.deleting
  {
  }

  lemma SameOwner(a: World, b: World)
    requires Around(a, b)
    ensures a.owner.uid == b.owner.uid
  {
  }

  lemma StaysDetached(a: World, b: World, id: Id)
    requires Around(a, b) && !Owned(a, id)
    ensures !Owned(b, id)
  {
  }

  lemma AloneWithout(w: World, targets: seq<Id>, id: Id, read: seq<Uid>)
    requires Alone(w, targets) && id in w.objects && w.objects[id] == read
    ensures Alone(w.(objects := w.objects[id := Without(read, w.owner.uid)]), targets)
  {
    forall r | r in Without(read, w.owner.uid) ensures r in read {
      WithoutWithin(read, w.owner.uid, r);
    }
  }

  lemma {:induction false} WithoutWithin(refs: seq<Uid>, uid: Uid, r: Uid)
    requires r in Without(refs, uid)
    ensures r in refs
  {
    var n := |refs| - 1;
    if r in Without(refs[..n], uid) {
      WithoutWithin(refs[..n], uid, r);
    }
  }

  lemma PutAround(w: World, id: Id, refs: seq<Uid>)
    requires w.owner.uid !in refs
    ensures Around(w, w.(objects := w.objects[id := refs]))
  {
  }
}

/**
 Managed Redis: which instances a spec asks for, the endpoints Misskey is given for them, and the
 pass that provides them, each either as a single pod or as a replicated set watched by sentinels.
 */
module Redis {
  import opened Wrappers
  import opened Text
  import opened Config

  /** The shared Redis or the one of a role. */
  datatype Slot = Shared | ForRole(role: Role)

  const SLOTS: seq<Slot> := [Shared, ForRole(JobQueue), ForRole(Pubsub), ForRole(Timelines), ForRole(Reactions)]

  function Suffix(r: Role): string {
    match r
    case JobQueue => "jobqueue"
    case Pubsub => "pubsub"
    case Timelines => "timelines"
    case Reactions => "reactions"
  }

  const REDIS := "-redis"
  const HA := "-ha"

  function Tail(s: Slot): string {
    if s.Shared? then "" else "-" + Suffix(s.role)
  }

  function InstanceName(name: string, s: Slot): string {
    name + REDIS + Tail(s)
  }

  function HaName(name: string, s: Slot): string {
    InstanceName(name, s) + HA
  }

  function SentinelService(name: string, s: Slot): string {
    HaName(name, s) + "-sentinel"
  }

  // ----- What a spec asks for -----

  datatype RoleSpec = RoleSpec(external: Option<string>, ha: bool)

  datatype Spec = Spec(external: Option<string>, ha: bool, roles: map<Role, RoleSpec>, isolation: bool)

  datatype Instance = Instance(slot: Slot, ha: bool)

  /** Roles are provided whether or not the shared Redis is external, and inherit nothing from it. */
  function Wanted(spec: Spec, s: Slot): Option<bool> {
    match s
    case Shared => if spec.external.None? then Some(spec.ha) else None
    case ForRole(r) => if r in spec.roles && spec.roles[r].external.None? then Some(spec.roles[r].ha) else None
  }

  lemma SlotListed(s: Slot)
    ensures s in SLOTS
  {
    match s
    case Shared => assert SLOTS[0] == s;
    case ForRole(JobQueue) => assert SLOTS[1] == s;
    case ForRole(Pubsub) => assert SLOTS[2] == s;
    case ForRole(Timelines) => assert SLOTS[3] == s;
    case ForRole(Reactions) => assert SLOTS[4] == s;
  }

  function RoleInstances(spec: Spec, n: nat): seq<Instance>
    requires n <= |ROLES|
  {
    if n == 0 then []
    else
      var w := Wanted(spec, ForRole(ROLES[n - 1]));
      RoleInstances(spec, n - 1) + if w.Some? then [Instance(ForRole(ROLES[n - 1]), w.value)] else []
  }

  function Instances(spec: Spec): seq<Instance> {
    (if spec.external.None? then [Instance(Shared, spec.ha)] else []) + RoleInstances(spec, |ROLES|)
  }

  method ManagedInstances(spec: Spec) returns (out: seq<Instance>)
    ensures out == Instances(spec)
  {
    out := [];
    if spec.external.None? {
      out := out + [Instance(Shared, spec.ha)];
    }
    ghost var start := out;
    for i := 0 to |ROLES|
      invariant out == start + RoleInstances(spec, i)
    {
      var r := ROLES[i];
      if r in spec.roles && spec.roles[r].external.None? {
        out := out + [Instance(ForRole(r), spec.roles[r].ha)];
      }
    }
  }

  lemma {:induction false} RoleInstancesAre(spec: Spec, n: nat)
    requires n <= |ROLES|
    ensures forall x: Instance :: x in RoleInstances(spec, n) <==>
      x.slot.ForRole? && x.slot.role in ROLES[..n] && Wanted(spec, x.slot) == Some(x.ha)
    ensures forall i, j | 0 <= i < j < |RoleInstances(spec, n)| :: RoleInstances(spec, n)[i].slot != RoleInstances(spec, n)[j].slot
  {
    if n > 0 {
      RoleInstancesAre(spec, n - 1);
      assert ROLES[..n] == ROLES[..n - 1] + [ROLES[n - 1]];
      assert ROLES[n - 1] !in ROLES[..n - 1] by {
        RolesDistinct(n - 1);
      }
      hide Wanted;
      var a, r := RoleInstances(spec, n - 1), ForRole(ROLES[n - 1]);
      forall i | 0 <= i < |a| ensures a[i].slot != r {
        assert a[i] in a;
      }
    }
  }

  lemma RolesDistinct(n: nat)
    requires n < |ROLES|
    ensures ROLES[n] !in ROLES[..n]
  {
  }

  /** Exactly one instance for every slot that is wanted, in the wanted mode. */
  lemma InstancesAre(spec: Spec, x: Instance)
    ensures x in Instances(spec) <==> Wanted(spec, x.slot) == Some(x.ha)
    ensures forall i, j | 0 <= i < j < |Instances(spec)| :: Instances(spec)[i].slot != Instances(spec)[j].slot
  {
    RoleInstancesAre(spec, |ROLES|);
    assert ROLES[..|ROLES|] == ROLES;
    if x.slot.ForRole? {
      RoleListed(x.slot.role);
    }
    var a := RoleInstances(spec, |ROLES|);
    forall i | 0 <= i < |a| ensures a[i].slot.ForRole? {
      assert a[i] in a;
    }
  }

  lemma RoleListed(r: Role)
    ensures r in ROLES
  {
    assert ROLES[0] == JobQueue && ROLES[1] == Pubsub && ROLES[2] == Timelines && ROLES[3] == Reactions;
  }

  // ----- Endpoints -----

  datatype Access = Access(host: string, sentinel: Option<string>, managed: bool, ha: bool)

  function ManagedAccess(name: string, s: Slot, ha: bool): Access {
    if ha then Access(HaName(name, s), Some(SentinelService(name, s)), true, true)
    else Access(InstanceName(name, s), None, true, false)
  }

  function ExternalAccess(host: string): Access {
    Access(host, None, false, false)
  }

  /** The endpoint Misskey is given, if the slot has one of its own. */
  function AccessOf(name: string, spec: Spec, s: Slot): Option<Access> {
    match s
    case Shared => Some(if spec.external.Some? then ExternalAccess(spec.external.value) else ManagedAccess(name, s, spec.ha))
    case ForRole(r) =>
      if r !in spec.roles then None
      else Some(if spec.roles[r].external.Some? then ExternalAccess(spec.roles[r].external.value)
                else ManagedAccess(name, s, spec.roles[r].ha))
  }

  method Resolve(name: string, spec: Spec) returns (shared: Access, roles: map<Role, Access>)
    ensures Some(shared) == AccessOf(name, spec, Shared)
    ensures forall r: Role :: AccessOf(name, spec, ForRole(r)) == if r in roles then Some(roles[r]) else None
  {
    hide ManagedAccess;
    if spec.external.Some? {
      shared := ExternalAccess(spec.external.value);
    } else {
      shared := ManagedAccess(name, Shared, spec.ha);
    }
    roles := map[];
    for i := 0 to |ROLES|
      invariant forall r: Role | r in ROLES[..i] :: AccessOf(name, spec, ForRole(r)) == if r in roles then Some(roles[r]) else None
      invariant forall r: Role | r !in ROLES[..i] :: r !in roles
    {
      var r := ROLES[i];
      assert ROLES[..i + 1] == ROLES[..i] + [r];
      RolesDistinct(i);
      if r in spec.roles {
        if spec.roles[r].external.Some? {
          roles := roles[r := ExternalAccess(spec.roles[r].external.value)];
        } else {
          roles := roles[r := ManagedAccess(name, ForRole(r), spec.roles[r].ha)];
        }
      }
    }
    forall r: Role ensures r in ROLES[..|ROLES|] {
      RoleListed(r);
    }
  }

  // ----- Objects -----

  datatype Part = StatefulSet | Service | OldPolicy | Replication | Sentinel | HaPolicy

  type Object = (Part, Slot)

  predicate Single(p: Part) {
    p == StatefulSet || p == Service || p == OldPolicy
  }

  datatype Kind = KStatefulSet | KService | KPolicy | KReplication | KSentinel

  function KindOf(p: Part): Kind {
    match p
    case StatefulSet => KStatefulSet
    case Service => KService
    case OldPolicy => KPolicy
    case Replication => KReplication
    case Sentinel => KSentinel
    case HaPolicy => KPolicy
  }

  function ObjectName(name: string, o: Object): string {
    if Single(o.0) then InstanceName(name, o.1) else HaName(name, o.1)
  }

  /** No two objects have the same kind and name. */
  lemma NamesDistinct(name: string, a: Object, b: Object)
    requires KindOf(a.0) == KindOf(b.0) && ObjectName(name, a) == ObjectName(name, b)
    ensures a == b
  {
    var n := name + REDIS;
    var x := Tail(a.1) + if Single(a.0) then "" else HA;
    var y := Tail(b.1) + if Single(b.0) then "" else HA;
    assert ObjectName(name, a) == n + x && ObjectName(name, b) == n + y;
    assert x == (n + x)[|n|..] && y == (n + y)[|n|..];
    TailsDistinct(a.1, Single(a.0), b.1, Single(b.0));
  }

  lemma TailsDistinct(a: Slot, p: bool, b: Slot, q: bool)
    requires (Tail(a) + if p then "" else HA) == (Tail(b) + if q then "" else HA)
    ensures a == b && p == q
  {
    var x := Tail(a) + if p then "" else HA;
    var y := Tail(b) + if q then "" else HA;
    if a.ForRole? {
      assert x[1] == Suffix(a.role)[0] && x[3] == Suffix(a.role)[2];
    }
    if b.ForRole? {
      assert y[1] == Suffix(b.role)[0] && y[3] == Suffix(b.role)[2];
    }
  }

  /** A managed endpoint leads to the instance that is provided, in the same mode; and there is one for each. */
  lemma EndpointsLeadToInstances(name: string, spec: Spec, s: Slot)
    ensures
      var a := AccessOf(name, spec, s);
      (a.Some? && a.value.managed) <==> Wanted(spec, s).Some?
    ensures
      Wanted(spec, s).Some? ==>
      var a := AccessOf(name, spec, s).value;
      && Instance(s, a.ha) in Instances(spec)
      && a.host == ObjectName(name, (if a.ha then Replication else Service, s))
      && a.sentinel == if a.ha then Some(ObjectName(name, (Sentinel, s)) + "-sentinel") else None
  {
    if Wanted(spec, s).Some? {
      InstancesAre(spec, Instance(s, Wanted(spec, s).value));
    }
  }

  // ----- What is there -----

  /** The objects there are, and those of them that were asked to go and have not gone yet. */
  datatype Stock = Stock(present: set<Object>, leaving: set<Object>)

  predicate Stands(st: Stock, o: Object) {
    o in st.present && o !in st.leaving
  }

  /** Absent, or asked to go. */
  predicate Gone(st: Stock, o: Object) {
    o !in st.present || o in st.leaving
  }

  predicate Going(st: Stock, o: Object) {
    o in st.present && o in st.leaving
  }

  /** Nothing is done to the object; if it was going it may have gone. */
  ghost predicate Idle(a: Stock, b: Stock, o: Object) {
    (Stands(a, o) <==> Stands(b, o)) && (o in b.present ==> o in a.present) && (Going(b, o) ==> Going(a, o))
  }

  ghost predicate AllIdle(a: Stock, b: Stock) {
    forall o: Object :: Idle(a, b, o)
  }

  /** Nothing is done to other slots. */
  ghost predicate OnlySlot(a: Stock, b: Stock, s: Slot) {
    forall o: Object | o.1 != s :: Idle(a, b, o)
  }

  datatype Outcome = Done | Refused | Lost

  /** What has gone before a call, whether a deletion takes its time, and how the call ends. */
  datatype Turn = Turn(vanished: set<Object>, lingers: bool, outcome: Outcome)

  function Vanish(st: Stock, objects: set<Object>): Stock {
    Stock(st.present - (objects * st.leaving), st.leaving - objects)
  }

  function Remove(st: Stock, o: Object, lingers: bool): Stock {
    if o !in st.present then st
    else if lingers then st.(leaving := st.leaving + {o})
    else Stock(st.present - {o}, st.leaving - {o})
  }

  // ----- The history -----

  /** What there is, and whether the Secret with the password exists. */
  datatype State = State(stock: Stock, auth: bool)

  /** Something has gone, or a request of the operator has taken effect. */
  datatype Event =
    | Vanished(objects: set<Object>)
    | Asked(gone: Object, lingers: bool)
    | Made(made: Object)
    | Authorized

  function Next(w: State, e: Event): State {
    match e
    case Vanished(objects) => w.(stock := Vanish(w.stock, objects))
    case Asked(o, lingers) => w.(stock := Remove(w.stock, o, lingers))
    case Made(o) => w.(stock := Stock(w.stock.present + {o}, w.stock.leaving - {o}))
    case Authorized => w.(auth := true)
  }

  function Replay(start: State, log: seq<Event>): State {
    if log == [] then start else Next(Replay(start, log[..|log| - 1]), log[|log| - 1])
  }

  /** No mode is created while a part of the other one stands, nor before the password. */
  ghost predicate EventOk(w: State, e: Event) {
    e.Made? ==>
      && w.auth && e.made !in w.stock.present
      && (forall p: Part | Single(p) != Single(e.made.0) :: Gone(w.stock, (p, e.made.1)))
  }

  ghost predicate LogOk(start: State, log: seq<Event>) {
    forall k | 0 <= k < |log| :: EventOk(Replay(start, log[..k]), log[k])
  }

  lemma NextEvent(start: State, log: seq<Event>, e: Event)
    requires LogOk(start, log) && EventOk(Replay(start, log), e)
    ensures LogOk(start, log + [e]) && Replay(start, log + [e]) == Next(Replay(start, log), e)
  {
    hide EventOk, Next;
    var l := log + [e];
    assert l[..|log|] == log;
    forall k | 0 <= k < |l| ensures EventOk(Replay(start, l[..k]), l[k]) {
      assert l[..k] == if k < |log| then log[..k] else log;
    }
  }

  /** Of no slot do parts of both modes stand. */
  ghost predicate Exclusive(st: Stock) {
    forall s: Slot, p: Part, q: Part | Single(p) != Single(q) :: !(Stands(st, (p, s)) && Stands(st, (q, s)))
  }

  lemma EventExcludes(w: State, e: Event)
    requires Exclusive(w.stock) && EventOk(w, e)
    ensures Exclusive(Next(w, e).stock)
  {
  }

  /** A history of such events never leads from one mode a slot to both. */
  lemma {:induction false} ModesExclude(start: State, log: seq<Event>)
    requires LogOk(start, log) && Exclusive(start.stock)
    ensures Exclusive(Replay(start, log).stock)
  {
    hide EventOk, Next, Exclusive;
    if log != [] {
      var n := |log| - 1;
      assert forall k | 0 <= k < n :: log[..n][..k] == log[..k];
      ModesExclude(start, log[..n]);
      EventExcludes(Replay(start, log[..n]), log[n]);
    }
  }

  // ----- What a pass is to leave -----

  /** Whether a part is to exist for an instance in this mode. */
  predicate Belongs(p: Part, ha: bool, isolation: bool) {
    match p
    case StatefulSet => !ha
    case Service => !ha
    case OldPolicy => false
    case Replication => ha
    case Sentinel => ha
    case HaPolicy => ha && isolation
  }

  /**
   The slot has exactly the parts its mode needs. A needed part that was going before the pass
   began, as `was` tells, can only be made anew once it has gone.
   */
  ghost predicate Provided(st: Stock, was: Stock, s: Slot, ha: bool, isolation: bool) {
    forall p: Part ::
      if Belongs(p, ha, isolation) then Stands(st, (p, s)) || Going(was, (p, s)) else Gone(st, (p, s))
  }

  ghost predicate Absent(st: Stock, s: Slot, single: bool) {
    forall p: Part | Single(p) == single :: Gone(st, (p, s))
  }

  /** Nothing of the slot was asked to go since `was`. */
  ghost predicate Unasked(st: Stock, was: Stock, s: Slot, single: bool) {
    forall p: Part | Single(p) == single && Going(st, (p, s)) :: Going(was, (p, s))
  }

  /** The slot holds what the spec wants for it. */
  ghost predicate Settled(st: Stock, was: Stock, spec: Spec, s: Slot) {
    match Wanted(spec, s)
    case Some(ha) => Provided(st, was, s, ha, spec.isolation)
    case None => Absent(st, s, true) && Absent(st, s, false)
  }

  lemma IdleTrans(a: Stock, b: Stock, c: Stock)
    requires AllIdle(a, b) && AllIdle(b, c)
    ensures AllIdle(a, c)
  {
    forall o: Object ensures Idle(a, c, o) {
      assert Idle(a, b, o) && Idle(b, c, o);
    }
  }

  lemma AbsentStays(a: Stock, b: Stock, s: Slot, single: bool)
    requires AllIdle(a, b) && Absent(a, s, single)
    ensures Absent(b, s, single)
  {
    forall p: Part | Single(p) == single ensures Gone(b, (p, s)) {
      assert Idle(a, b, (p, s));
    }
  }

  lemma SettledStays(a: Stock, b: Stock, was: Stock, spec: Spec, s: Slot)
    requires Settled(a, was, spec, s) && forall p: Part :: Idle(a, b, (p, s))
    ensures Settled(b, was, spec, s)
  {
    forall p: Part ensures Gone(a, (p, s)) ==> Gone(b, (p, s)) {
      assert Idle(a, b, (p, s));
    }
  }

  lemma ProvidedStays(a: Stock, b: Stock, was: Stock, changed: Slot, x: Instance, isolation: bool)
    requires Provided(a, was, x.slot, x.ha, isolation) && OnlySlot(a, b, changed) && x.slot != changed
    ensures Provided(b, was, x.slot, x.ha, isolation)
  {
    forall p: Part ensures Idle(a, b, (p, x.slot)) {
      var o: Object := (p, x.slot);
      assert o.1 != changed;
    }
  }

  // ----- What a pass asks to go -----

  /** Since `a` only these objects were asked to go. */
  ghost predicate Asks(a: seq<Event>, b: seq<Event>, objects: set<Object>) {
    a <= b && forall k | |a| <= k < |b| && b[k].Asked? :: b[k].gone in objects
  }

  lemma AsksTwice(a: seq<Event>, b: seq<Event>, c: seq<Event>, x: set<Object>, y: set<Object>, z: set<Object>)
    requires Asks(a, b, x) && Asks(b, c, y) && x <= z && y <= z
    ensures Asks(a, c, z)
  {
  }

  ghost function PartsOf(s: Slot, single: bool): set<Object> {
    set p: Part | Single(p) == single :: (p, s)
  }

  /** The part is one that the spec wants. */
  ghost predicate PartWanted(spec: Spec, o: Object) {
    match Wanted(spec, o.1)
    case Some(ha) => Belongs(o.0, ha, spec.isolation)
    case None => false
  }

  /** Since `a` nothing was asked to go that the spec wants. */
  ghost predicate AsksUnwanted(a: seq<Event>, b: seq<Event>, spec: Spec) {
    a <= b && forall k | |a| <= k < |b| && b[k].Asked? :: !PartWanted(spec, b[k].gone)
  }

  lemma UnwantedTwice(a: seq<Event>, b: seq<Event>, c: seq<Event>, spec: Spec)
    requires AsksUnwanted(a, b, spec) && AsksUnwanted(b, c, spec)
    ensures AsksUnwanted(a, c, spec)
  {
  }

  lemma AsksMeansUnwanted(a: seq<Event>, b: seq<Event>, objects: set<Object>, spec: Spec)
    requires Asks(a, b, objects) && forall o | o in objects :: !PartWanted(spec, o)
    ensures AsksUnwanted(a, b, spec)
  {
  }

  /** What an instance in this mode has no use for. */
  ghost function Useless(s: Slot, ha: bool, isolation: bool): set<Object> {
    set p: Part | !Belongs(p, ha, isolation) :: (p, s)
  }

  /** No more calls are scripted and nothing is on its way out: whatever is asked for is done at once. */
  ghost predicate Undisturbed(script: seq<Turn>, st: Stock) {
    script == [] && st.leaving == {}
  }

  class RedisCluster {
    var stock: Stock
    /** The Secret with the password exists. */
    var auth: bool
    var script: seq<Turn>
    ghost const start: State
    /** All that has happened since. */
    ghost var log: seq<Event>

    ghost predicate Valid()
      reads this
    {
      State(stock, auth) == Replay(start, log) && LogOk(start, log)
    }

    constructor (stock: Stock, auth: bool, script: seq<Turn>)
      ensures Valid() && this.stock == stock && this.auth == auth && start == State(stock, auth) && log == []
    {
      this.stock, this.auth, this.script, log, start := stock, auth, script, [], State(stock, auth);
    }

    /** One thing happens, and is remembered. */
    method Happen(e: Event)
      requires Valid() && EventOk(State(stock, auth), e)
      modifies this`stock, this`auth, this`log
      ensures Valid() && State(stock, auth) == Next(State(old(stock), old(auth)), e) && log == old(log) + [e]
    {
      NextEvent(start, log, e);
      var next := Next(State(stock, auth), e);
      stock, auth, log := next.stock, next.auth, log + [e];
    }

    /** Before a call, things that were going may have gone. */
    method Call() returns (outcome: Outcome, lingers: bool)
      requires Valid()
      modifies this`script, this`stock, this`auth, this`log
      ensures Valid() && AllIdle(old(stock), stock) && auth == old(auth) && Asks(old(log), log, {})
      ensures script == (if old(script) == [] then [] else old(script)[1..])
      ensures outcome == if old(script) == [] then Done else old(script)[0].outcome
      ensures lingers == (old(script) != [] && old(script)[0].lingers)
      ensures stock == if old(script) == [] then old(stock) else Vanish(old(stock), old(script)[0].vanished)
    {
      hide LogOk, Replay;
      if script == [] {
        return Done, false;
      }
      var turn := script[0];
      script := script[1..];
      Happen(Vanished(turn.vanished));
      return turn.outcome, turn.lingers;
    }

    /**
     Create or update. A lost answer leaves the object made and the pass in error. A StatefulSet that
     is going is an error; any other object that is going is updated in vain.
     */
    method Apply(o: Object) returns (ok: bool)
      requires Valid() && auth && Absent(stock, o.1, !Single(o.0))
      modifies this`stock, this`script, this`auth, this`log
      ensures Valid() && auth && Asks(old(log), log, {}) && forall x: Object | x != o :: Idle(old(stock), stock, x)
      ensures Undisturbed(old(script), old(stock)) ==> ok && Undisturbed(script, stock)
      ensures ok ==> Stands(stock, o) || Going(stock, o)
      ensures Going(stock, o) ==> Going(old(stock), o)
    {
      hide LogOk, Replay;
      var outcome, _ := Call();
      assert Idle(old(stock), stock, o);
      AbsentStays(old(stock), stock, o.1, !Single(o.0));
      if outcome == Refused || (o.0 == StatefulSet && Going(stock, o)) {
        return false;
      }
      if o !in stock.present {
        ghost var before := stock;
        Happen(Made(o));
        forall x: Object | x != o ensures Idle(old(stock), stock, x) {
          assert Idle(old(stock), before, x);
        }
      }
      ok := outcome == Done;
    }

    method Delete(o: Object) returns (ok: bool)
      requires Valid()
      modifies this`stock, this`script, this`auth, this`log
      ensures Valid() && auth == old(auth) && Asks(old(log), log, {o}) && forall x: Object | x != o :: Idle(old(stock), stock, x)
      ensures Undisturbed(old(script), old(stock)) ==> ok && Undisturbed(script, stock)
      ensures o in stock.present ==> o in old(stock).present
      ensures Stands(stock, o) ==> Stands(old(stock), o)
      ensures ok ==> Gone(stock, o)
    {
      hide LogOk, Replay;
      var outcome, lingers := Call();
      assert Idle(old(stock), stock, o);
      if outcome != Refused {
        ghost var before := stock;
        Happen(Asked(o, lingers));
        forall x: Object | x != o ensures Idle(old(stock), stock, x) {
          assert Idle(old(stock), before, x);
        }
      }
      ok := outcome == Done;
    }

    method DeleteStandalone(s: Slot) returns (ok: bool)
      requires Valid()
      modifies this`stock, this`script, this`auth, this`log
      ensures Valid() && auth == old(auth) && Asks(old(log), log, PartsOf(s, true))
      ensures Undisturbed(old(script), old(stock)) ==> ok && Undisturbed(script, stock)
      ensures forall o: Object | o.1 != s || !Single(o.0) :: Idle(old(stock), stock, o)
      ensures forall p: Part | Gone(old(stock), (p, s)) :: Gone(stock, (p, s))
      ensures ok ==> Absent(stock, s, true)
    {
      hide Valid, Idle, Asks;
      ghost var a, l := stock, log;
      ok := Delete((StatefulSet, s));
      ghost var b, l1 := stock, log;
      AsksTwice(l, l, l1, {}, {(StatefulSet, s)}, PartsOf(s, true)) by { NothingAsked(l); }
      GoneStays(a, b, s, StatefulSet);
      if !ok { return; }
      ok := Delete((Service, s));
      ghost var c, l2 := stock, log;
      AsksTwice(l, l1, l2, PartsOf(s, true), {(Service, s)}, PartsOf(s, true));
      GoneStays(b, c, s, Service);
      ThreeIdle(a, b, c, (StatefulSet, s), (Service, s), (Service, s));
      if !ok { return; }
      ok := Delete((OldPolicy, s));
      GoneStays(c, stock, s, OldPolicy);
      FourIdle(a, b, c, stock, (StatefulSet, s), (Service, s), (OldPolicy, s));
      AsksTwice(l, l2, log, PartsOf(s, true), {(OldPolicy, s)}, PartsOf(s, true));
    }

    method DeleteHa(s: Slot) returns (ok: bool)
      requires Valid()
      modifies this`stock, this`script, this`auth, this`log
      ensures Valid() && auth == old(auth) && Asks(old(log), log, PartsOf(s, false))
      ensures Undisturbed(old(script), old(stock)) ==> ok && Undisturbed(script, stock)
      ensures forall o: Object | o.1 != s || Single(o.0) :: Idle(old(stock), stock, o)
      ensures forall p: Part | Gone(old(stock), (p, s)) :: Gone(stock, (p, s))
      ensures ok ==> Absent(stock, s, false)
    {
      hide Valid, Idle, Asks;
      ghost var a, l := stock, log;
      ok := Delete((Replication, s));
      ghost var b, l1 := stock, log;
      AsksTwice(l, l, l1, {}, {(Replication, s)}, PartsOf(s, false)) by { NothingAsked(l); }
      GoneStays(a, b, s, Replication);
      if !ok { return; }
      ok := Delete((Sentinel, s));
      ghost var c, l2 := stock, log;
      AsksTwice(l, l1, l2, PartsOf(s, false), {(Sentinel, s)}, PartsOf(s, false));
      GoneStays(b, c, s, Sentinel);
      ThreeIdle(a, b, c, (Replication, s), (Sentinel, s), (Sentinel, s));
      if !ok { return; }
      ok := Delete((HaPolicy, s));
      GoneStays(c, stock, s, HaPolicy);
      FourIdle(a, b, c, stock, (Replication, s), (Sentinel, s), (HaPolicy, s));
      AsksTwice(l, l2, log, PartsOf(s, false), {(HaPolicy, s)}, PartsOf(s, false));
    }

    method ProvideHa(s: Slot, isolation: bool, ghost was: Stock) returns (ok: bool)
      requires Valid() && auth && Absent(stock, s, true) && Unasked(stock, was, s, false)
      modifies this`stock, this`script, this`auth, this`log
      ensures Valid() && auth && Asks(old(log), log, Useless(s, true, isolation)) && OnlySlot(old(stock), stock, s)
      ensures Undisturbed(old(script), old(stock)) ==> ok && Undisturbed(script, stock)
      ensures ok ==> Provided(stock, was, s, true, isolation)
    {
      hide Valid, Idle, Asks;
      ghost var a, l := stock, log;
      ok := Apply((Replication, s));
      ghost var b, l1 := stock, log;
      AsksTwice(l, l, l1, {}, {}, Useless(s, true, isolation)) by { NothingAsked(l); }
      StillAbsent(a, b, (Replication, s), true);
      if !ok { return; }
      ok := Apply((Sentinel, s));
      ghost var c, l2 := stock, log;
      AsksTwice(l, l1, l2, Useless(s, true, isolation), {}, Useless(s, true, isolation));
      StillAbsent(b, c, (Sentinel, s), true);
      ThreeIdle(a, b, c, (Replication, s), (Sentinel, s), (Sentinel, s));
      if !ok { return; }
      if isolation {
        ok := Apply((HaPolicy, s));
        AsksTwice(l, l2, log, Useless(s, true, isolation), {}, Useless(s, true, isolation));
      } else {
        ok := Delete((HaPolicy, s));
        AsksTwice(l, l2, log, Useless(s, true, isolation), {(HaPolicy, s)}, Useless(s, true, isolation));
      }
      FourIdle(a, b, c, stock, (Replication, s), (Sentinel, s), (HaPolicy, s));
      if ok {
        HaProvided(a, b, c, stock, was, s, isolation);
      }
    }

    method ProvideStandalone(s: Slot, isolation: bool, ghost was: Stock) returns (ok: bool)
      requires Valid() && auth && Absent(stock, s, false) && Unasked(stock, was, s, true)
      modifies this`stock, this`script, this`auth, this`log
      ensures Valid() && auth && Asks(old(log), log, Useless(s, false, isolation)) && OnlySlot(old(stock), stock, s)
      ensures Undisturbed(old(script), old(stock)) ==> ok && Undisturbed(script, stock)
      ensures ok ==> Provided(stock, was, s, false, isolation)
    {
      hide Valid, Idle, Asks;
      ghost var a, l := stock, log;
      ok := Apply((Service, s));
      ghost var b, l1 := stock, log;
      AsksTwice(l, l, l1, {}, {}, Useless(s, false, isolation)) by { NothingAsked(l); }
      StillAbsent(a, b, (Service, s), false);
      if !ok { return; }
      ok := Apply((StatefulSet, s));
      ghost var c, l2 := stock, log;
      AsksTwice(l, l1, l2, Useless(s, false, isolation), {}, Useless(s, false, isolation));
      ThreeIdle(a, b, c, (Service, s), (StatefulSet, s), (StatefulSet, s));
      if !ok { return; }
      ok := Delete((OldPolicy, s));
      AsksTwice(l, l2, log, Useless(s, false, isolation), {(OldPolicy, s)}, Useless(s, false, isolation));
      FourIdle(a, b, c, stock, (Service, s), (StatefulSet, s), (OldPolicy, s));
      if ok {
        StandaloneProvided(a, b, c, stock, was, s, isolation);
      }
    }

    /** One instance: the other mode is asked to go first. */
    method Provide(x: Instance, isolation: bool, ghost was: Stock) returns (ok: bool)
      requires Valid() && auth && Unasked(stock, was, x.slot, true) && Unasked(stock, was, x.slot, false)
      modifies this`stock, this`script, this`auth, this`log
      ensures Valid() && auth && Asks(old(log), log, Useless(x.slot, x.ha, isolation)) && OnlySlot(old(stock), stock, x.slot)
      ensures Undisturbed(old(script), old(stock)) ==> ok && Undisturbed(script, stock)
      ensures ok ==> Provided(stock, was, x.slot, x.ha, isolation)
    {
      hide Valid, Idle, Asks;
      ghost var a, l := stock, log;
      assert PartsOf(x.slot, x.ha) <= Useless(x.slot, x.ha, isolation);
      if x.ha {
        ok := DeleteStandalone(x.slot);
      } else {
        ok := DeleteHa(x.slot);
      }
      ghost var b, l1 := stock, log;
      AsksTwice(l, l, l1, {}, PartsOf(x.slot, x.ha), Useless(x.slot, x.ha, isolation)) by { NothingAsked(l); }
      UnaskedStays(a, b, was, x.slot, !x.ha);
      if !ok { return; }
      if x.ha {
        ok := ProvideHa(x.slot, isolation, was);
      } else {
        ok := ProvideStandalone(x.slot, isolation, was);
      }
      SlotTrans(a, b, stock, x.slot);
      AsksTwice(l, l1, log, Useless(x.slot, x.ha, isolation), Useless(x.slot, x.ha, isolation), Useless(x.slot, x.ha, isolation));
    }

    method EnsureAuth() returns (ok: bool)
      requires Valid()
      modifies this`auth, this`script, this`stock, this`log
      ensures Valid() && AllIdle(old(stock), stock) && (old(auth) ==> auth) && Asks(old(log), log, {})
      ensures Undisturbed(old(script), old(stock)) ==> ok && Undisturbed(script, stock)
      ensures ok ==> auth
    {
      hide LogOk, Replay;
      var outcome, _ := Call();
      if outcome != Refused {
        Happen(Authorized);
      }
      ok := outcome == Done;
    }

    /**
     Whatever was there, a pass that succeeds leaves for every slot the parts of the wanted mode
     standing and asks all others to go.
     */
    method Reconcile(spec: Spec) returns (ok: bool)
      requires Valid()
      modifies this`stock, this`script, this`auth, this`log
      ensures Valid() && AsksUnwanted(old(log), log, spec)
      ensures Undisturbed(old(script), old(stock)) ==> ok && Undisturbed(script, stock)
      ensures ok ==> forall s: Slot :: Settled(stock, old(stock), spec, s)
    {
      hide Valid, Settled, Idle, Asks, AsksUnwanted, PartWanted;
      ghost var l := log;
      NothingAsked(l);
      AsksMeansUnwanted(l, l, {}, spec);
      var desired := ManagedInstances(spec);
      SelfIdle(stock);
      if |desired| > 0 {
        ok := EnsureAuth();
        AsksMeansUnwanted(l, log, {}, spec);
        if !ok { return; }
      }
      IdleUnasked(old(stock), stock);
      ghost var l1 := log;
      var seenStandalone: set<Slot>, seenHa: set<Slot>;
      ok, seenStandalone, seenHa := ProvideAll(spec, desired, old(stock));
      ghost var l2 := log;
      UnwantedTwice(l, l1, l2, spec);
      if !ok { return; }
      ok := Sweep(spec, seenStandalone, seenHa, old(stock));
      UnwantedTwice(l, l2, log, spec);
    }

    /** Every run of passes, each under its own spec and failing at any call. */
    method Run(specs: seq<Spec>)
      requires Valid()
      modifies this`stock, this`script, this`auth, this`log
      ensures old(log) <= log && LogOk(start, log) && State(stock, auth) == Replay(start, log)
      ensures Exclusive(start.stock) ==> Exclusive(stock)
    {
      hide LogOk, Replay, Exclusive;
      for i := 0 to |specs|
        invariant Valid() && old(log) <= log
      {
        ghost var before := log;
        var _ := Reconcile(specs[i]);
        assert AsksUnwanted(before, log, specs[i]);
      }
      if Exclusive(start.stock) {
        ModesExclude(start, log);
      }
    }

    method ProvideAll(spec: Spec, desired: seq<Instance>, ghost was: Stock)
      returns (ok: bool, seenStandalone: set<Slot>, seenHa: set<Slot>)
      requires Valid() && desired == Instances(spec) && (desired != [] ==> auth)
      requires forall s: Slot, single: bool :: Unasked(stock, was, s, single)
      modifies this`stock, this`script, this`auth, this`log
      ensures Valid() && AsksUnwanted(old(log), log, spec)
      ensures Undisturbed(old(script), old(stock)) ==> ok && Undisturbed(script, stock)
      ensures ok ==> forall s: Slot | Wanted(spec, s).Some? :: Settled(stock, was, spec, s)
      ensures ok ==> forall s: Slot :: s in seenHa <==> Wanted(spec, s) == Some(true)
      ensures ok ==> forall s: Slot :: s in seenStandalone <==> Wanted(spec, s) == Some(false)
    {
      hide Valid, Provided, Instances, Wanted, Unasked, OnlySlot, Asks, AsksUnwanted, Useless, PartWanted;
      NothingAsked(log);
      AsksMeansUnwanted(log, log, {}, spec);
      seenStandalone, seenHa := {}, {};
      ok := true;
      InstancesAre(spec, Instance(Shared, true));
      for i := 0 to |desired|
        invariant Valid() && AsksUnwanted(old(log), log, spec) && ok && auth == old(auth)
        invariant Undisturbed(old(script), old(stock)) ==> Undisturbed(script, stock)
        invariant forall j | 0 <= j < i :: Provided(stock, was, desired[j].slot, desired[j].ha, spec.isolation)
        invariant forall j, single: bool | i <= j < |desired| :: Unasked(stock, was, desired[j].slot, single)
        invariant forall s: Slot :: s in seenHa <==> Instance(s, true) in desired[..i]
        invariant forall s: Slot :: s in seenStandalone <==> Instance(s, false) in desired[..i]
      {
        ghost var before, l := stock, log;
        InstancesAre(spec, desired[i]);
        ok := Provide(desired[i], spec.isolation, was);
        UselessIsUnwanted(l, log, spec, desired[i]);
        UnwantedTwice(old(log), l, log, spec);
        if !ok { return; }
        forall j | 0 <= j < i ensures Provided(stock, was, desired[j].slot, desired[j].ha, spec.isolation) {
          ProvidedStays(before, stock, was, desired[i].slot, desired[j], spec.isolation);
        }
        forall j, single: bool | i < j < |desired| ensures Unasked(stock, was, desired[j].slot, single) {
          UnaskedElsewhere(before, stock, was, desired[i].slot, desired[j].slot, single);
        }
        assert desired[..i + 1] == desired[..i] + [desired[i]];
        if desired[i].ha {
          seenHa := seenHa + {desired[i].slot};
        } else {
          seenStandalone := seenStandalone + {desired[i].slot};
        }
      }
      assert desired[..|desired|] == desired;
      forall s: Slot, ha: bool ensures Instance(s, ha) in desired <==> Wanted(spec, s) == Some(ha) {
        InstancesAre(spec, Instance(s, ha));
      }
      forall s: Slot | Wanted(spec, s).Some? ensures Settled(stock, was, spec, s) {
        assert Instance(s, Wanted(spec, s).value) in desired;
      }
    }

    /** Asks to go what is not wanted, for every slot there can be. */
    method Sweep(spec: Spec, seenStandalone: set<Slot>, seenHa: set<Slot>, ghost was: Stock) returns (ok: bool)
      requires Valid()
      requires forall s: Slot | Wanted(spec, s).Some? :: Settled(stock, was, spec, s)
      requires forall s: Slot :: s in seenHa <==> Wanted(spec, s) == Some(true)
      requires forall s: Slot :: s in seenStandalone <==> Wanted(spec, s) == Some(false)
      modifies this`stock, this`script, this`auth, this`log
      ensures Valid() && AsksUnwanted(old(log), log, spec)
      ensures Undisturbed(old(script), old(stock)) ==> ok && Undisturbed(script, stock)
      ensures ok ==> forall s: Slot :: Settled(stock, was, spec, s)
    {
      hide Valid, Wanted, Settled, OnlySlot, AsksUnwanted, PartWanted;
      NothingAsked(log);
      AsksMeansUnwanted(log, log, {}, spec);
      ok := true;
      for i := 0 to |SLOTS|
        invariant Valid() && ok && AsksUnwanted(old(log), log, spec)
        invariant Undisturbed(old(script), old(stock)) ==> Undisturbed(script, stock)
        invariant forall s: Slot | Wanted(spec, s).Some? || s in SLOTS[..i] :: Settled(stock, was, spec, s)
      {
        ghost var before, l := stock, log;
        ok := SweepSlot(spec, SLOTS[i], SLOTS[i] !in seenStandalone, SLOTS[i] !in seenHa, was);
        UnwantedTwice(old(log), l, log, spec);
        if !ok { return; }
        assert SLOTS[..i + 1] == SLOTS[..i] + [SLOTS[i]];
        forall s: Slot | s != SLOTS[i] && Settled(before, was, spec, s) ensures Settled(stock, was, spec, s) {
          SettledElsewhere(before, stock, was, spec, SLOTS[i], s);
        }
      }
      forall s: Slot ensures s in SLOTS[..|SLOTS|] {
        SlotListed(s);
      }
    }

    method SweepSlot(spec: Spec, s: Slot, standalone: bool, ha: bool, ghost was: Stock) returns (ok: bool)
      requires Valid() && (Wanted(spec, s).Some? ==> Settled(stock, was, spec, s))
      requires standalone == (Wanted(spec, s) != Some(false)) && ha == (Wanted(spec, s) != Some(true))
      modifies this`stock, this`script, this`auth, this`log
      ensures Valid() && AsksUnwanted(old(log), log, spec) && OnlySlot(old(stock), stock, s)
      ensures Undisturbed(old(script), old(stock)) ==> ok && Undisturbed(script, stock)
      ensures ok ==> Settled(stock, was, spec, s)
    {
      hide Valid, Wanted, Idle, OnlySlot, Asks, AsksUnwanted, PartWanted;
      ghost var a, l := stock, log;
      NothingAsked(l);
      AsksMeansUnwanted(l, l, {}, spec);
      SelfIdle(a);
      ok := true;
      if standalone {
        ok := DeleteStandalone(s);
        OtherModeUnwanted(l, log, spec, s, true);
      }
      ghost var b, l1 := stock, log;
      ElsewhereIdle(a, b, s, standalone);
      if !ok { return; }
      if ha {
        ok := DeleteHa(s);
        OtherModeUnwanted(l1, log, spec, s, false);
        UnwantedTwice(l, l1, log, spec);
      } else {
        SelfIdle(b);
      }
      ElsewhereIdle(b, stock, s, !ha);
      SlotTrans(a, b, stock, s);
      if ok {
        SweptIsSettled(a, b, stock, was, spec, s, standalone, ha);
      }
    }
  }

  lemma NothingAsked(l: seq<Event>)
    ensures Asks(l, l, {})
  {
  }

  lemma UselessIsUnwanted(a: seq<Event>, b: seq<Event>, spec: Spec, x: Instance)
    requires Asks(a, b, Useless(x.slot, x.ha, spec.isolation)) && Wanted(spec, x.slot) == Some(x.ha)
    ensures AsksUnwanted(a, b, spec)
  {
    hide Wanted;
    AsksMeansUnwanted(a, b, Useless(x.slot, x.ha, spec.isolation), spec);
  }

  lemma OtherModeUnwanted(a: seq<Event>, b: seq<Event>, spec: Spec, s: Slot, single: bool)
    requires Asks(a, b, PartsOf(s, single)) && Wanted(spec, s) != Some(!single)
    ensures AsksUnwanted(a, b, spec)
  {
    hide Wanted;
    AsksMeansUnwanted(a, b, PartsOf(s, single), spec);
  }

  lemma GoneStays(a: Stock, b: Stock, s: Slot, part: Part)
    requires forall x: Object | x != (part, s) :: Idle(a, b, x)
    requires Stands(b, (part, s)) ==> Stands(a, (part, s))
    ensures forall p: Part | Gone(a, (p, s)) :: Gone(b, (p, s))
  {
    forall p: Part | Gone(a, (p, s)) ensures Gone(b, (p, s)) {
      var o: Object := (p, s);
      if p != part {
        assert Idle(a, b, o);
      }
    }
  }

  lemma ThreeIdle(a: Stock, b: Stock, c: Stock, x: Object, y: Object, z: Object)
    requires forall o: Object | o != x :: Idle(a, b, o)
    requires forall o: Object | o != y :: Idle(b, c, o)
    ensures forall o: Object | o != x && o != y && o != z :: Idle(a, c, o)
  {
    forall o: Object | o != x && o != y && o != z ensures Idle(a, c, o) {
      assert Idle(a, b, o) && Idle(b, c, o);
    }
  }

  lemma FourIdle(a: Stock, b: Stock, c: Stock, d: Stock, x: Object, y: Object, z: Object)
    requires forall o: Object | o != x :: Idle(a, b, o)
    requires forall o: Object | o != y :: Idle(b, c, o)
    requires forall o: Object | o != z :: Idle(c, d, o)
    ensures forall o: Object | o != x && o != y && o != z :: Idle(a, d, o)
  {
    forall o: Object | o != x && o != y && o != z ensures Idle(a, d, o) {
      assert Idle(a, b, o) && Idle(b, c, o) && Idle(c, d, o);
    }
  }

  lemma SelfIdle(a: Stock)
    ensures AllIdle(a, a)
  {
  }

  lemma IdleUnasked(was: Stock, st: Stock)
    requires AllIdle(was, st)
    ensures forall s: Slot, single: bool :: Unasked(st, was, s, single)
  {
    forall s: Slot, single: bool ensures Unasked(st, was, s, single) {
      forall p: Part | Single(p) == single && Going(st, (p, s)) ensures Going(was, (p, s)) {
        assert Idle(was, st, (p, s));
      }
    }
  }

  lemma StillAbsent(a: Stock, b: Stock, o: Object, single: bool)
    requires Absent(a, o.1, single) && Single(o.0) != single && forall x: Object | x != o :: Idle(a, b, x)
    ensures Absent(b, o.1, single)
  {
    forall p: Part | Single(p) == single ensures Gone(b, (p, o.1)) {
      var x: Object := (p, o.1);
      assert Idle(a, b, x);
    }
  }

  lemma UnaskedStays(a: Stock, b: Stock, was: Stock, s: Slot, single: bool)
    requires Unasked(a, was, s, single) && forall o: Object | o.1 != s || Single(o.0) == single :: Idle(a, b, o)
    ensures Unasked(b, was, s, single) && OnlySlot(a, b, s)
  {
    forall p: Part | Single(p) == single && Going(b, (p, s)) ensures Going(was, (p, s)) {
      var o: Object := (p, s);
      assert Idle(a, b, o);
    }
  }

  lemma UnaskedElsewhere(a: Stock, b: Stock, was: Stock, changed: Slot, s: Slot, single: bool)
    requires Unasked(a, was, s, single) && OnlySlot(a, b, changed) && s != changed
    ensures Unasked(b, was, s, single)
  {
    forall p: Part | Single(p) == single && Going(b, (p, s)) ensures Going(was, (p, s)) {
      var o: Object := (p, s);
      assert Idle(a, b, o);
    }
  }

  lemma SlotTrans(a: Stock, b: Stock, c: Stock, s: Slot)
    requires OnlySlot(a, b, s) && OnlySlot(b, c, s)
    ensures OnlySlot(a, c, s)
  {
    forall o: Object | o.1 != s ensures Idle(a, c, o) {
      assert Idle(a, b, o) && Idle(b, c, o);
    }
  }

  lemma SettledElsewhere(a: Stock, b: Stock, was: Stock, spec: Spec, changed: Slot, s: Slot)
    requires OnlySlot(a, b, changed) && Settled(a, was, spec, s) && changed != s
    ensures Settled(b, was, spec, s)
  {
    forall p: Part ensures Idle(a, b, (p, s)) {
      var o: Object := (p, s);
      assert o.1 != changed;
    }
    SettledStays(a, b, was, spec, s);
  }

  /** After deleting one mode's parts, or nothing, other slots were left alone. */
  lemma ElsewhereIdle(a: Stock, b: Stock, s: Slot, single: bool)
    requires AllIdle(a, b) || forall o: Object | o.1 != s || Single(o.0) != single :: Idle(a, b, o)
    ensures OnlySlot(a, b, s)
  {
  }

  lemma HaProvided(a: Stock, b: Stock, c: Stock, d: Stock, was: Stock, s: Slot, isolation: bool)
    requires Absent(c, s, true) && Unasked(a, was, s, false)
    requires forall o: Object | o != (Replication, s) :: Idle(a, b, o)
    requires forall o: Object | o != (Sentinel, s) :: Idle(b, c, o)
    requires forall o: Object | o != (HaPolicy, s) :: Idle(c, d, o)
    requires Stands(b, (Replication, s)) || Going(a, (Replication, s))
    requires Stands(c, (Sentinel, s)) || Going(b, (Sentinel, s))
    requires if isolation then Stands(d, (HaPolicy, s)) || Going(c, (HaPolicy, s)) else Gone(d, (HaPolicy, s))
    ensures Provided(d, was, s, true, isolation)
  {
    var x: Object, y: Object, z: Object := (Replication, s), (Sentinel, s), (HaPolicy, s);
    assert Idle(a, b, y) && Idle(a, b, z) && Idle(b, c, x) && Idle(b, c, z) && Idle(c, d, x) && Idle(c, d, y);
    forall p: Part ensures if Belongs(p, true, isolation) then Stands(d, (p, s)) || Going(was, (p, s)) else Gone(d, (p, s)) {
      var o: Object := (p, s);
      assert Single(p) ==> Idle(c, d, o);
    }
  }

  lemma StandaloneProvided(a: Stock, b: Stock, c: Stock, d: Stock, was: Stock, s: Slot, isolation: bool)
    requires Absent(a, s, false) && Unasked(a, was, s, true)
    requires forall o: Object | o != (Service, s) :: Idle(a, b, o)
    requires forall o: Object | o != (StatefulSet, s) :: Idle(b, c, o)
    requires forall o: Object | o != (OldPolicy, s) :: Idle(c, d, o)
    requires Stands(b, (Service, s)) || Going(a, (Service, s))
    requires Stands(c, (StatefulSet, s)) || Going(b, (StatefulSet, s))
    requires Gone(d, (OldPolicy, s))
    ensures Provided(d, was, s, false, isolation)
  {
    var x: Object, y: Object := (Service, s), (StatefulSet, s);
    assert Idle(a, b, y) && Idle(b, c, x) && Idle(c, d, x) && Idle(c, d, y);
    forall p: Part ensures if Belongs(p, false, isolation) then Stands(d, (p, s)) || Going(was, (p, s)) else Gone(d, (p, s)) {
      var o: Object := (p, s);
      assert !Single(p) ==> Idle(a, b, o) && Idle(b, c, o) && Idle(c, d, o);
    }
  }

  /** The sweep keeps what is wanted and asks the rest to go. */
  lemma SweptIsSettled(a: Stock, b: Stock, c: Stock, was: Stock, spec: Spec, s: Slot, standalone: bool, ha: bool)
    requires Wanted(spec, s).Some? ==> Settled(a, was, spec, s)
    requires standalone == (Wanted(spec, s) != Some(false)) && ha == (Wanted(spec, s) != Some(true))
    requires if standalone then Absent(b, s, true) && forall o: Object | o.1 != s || !Single(o.0) :: Idle(a, b, o) else AllIdle(a, b)
    requires if ha then Absent(c, s, false) && forall o: Object | o.1 != s || Single(o.0) :: Idle(b, c, o) else AllIdle(b, c)
    ensures Settled(c, was, spec, s)
  {
    forall p: Part ensures !(Single(p) && standalone) ==> Idle(a, b, (p, s)) {
      var o: Object := (p, s);
    }
    forall p: Part ensures !(!Single(p) && ha) ==> Idle(b, c, (p, s)) {
      var o: Object := (p, s);
    }
  }
}

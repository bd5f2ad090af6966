/**
 The API server as the operator uses it. Before every call the environment may take any
 number of steps, and every call may be refused or may take effect with its answer lost.
 */
module Cluster {
  import opened Wrappers
  import opened ClusterState
  import opened History

  datatype Outcome = Done | Refused | Lost

  /** What happens before one API call, and how the call ends. */
  datatype Interlude = Interlude(steps: seq<EnvStep>, outcome: Outcome)

  datatype Read<+T> = Found(value: T) | NotFound | Unread

  /** The part of the cluster that one group of reconcile functions writes; `Wide` is all but the migrations. */
  datatype Area = Nothing | MigrationArea | ObjectStorageArea | DetectorArea | WorkloadArea | SecretArea | Wide

  /** The cluster, what the running pass knows of it, and what is still to come. */
  datatype View = View(w: World, facts: Facts, script: seq<Interlude>)

  /** The step leaves alone what a pass goes by: Secrets, Deployments, and what is ready. */
  predicate Gentle(e: EnvStep) {
    match e
    case Rotate(_, _) => false
    case RemoveSecret(_) => false
    case DatabaseReadiness(ready) => ready
    case RedisReadiness(ready) => ready
    case OnDeployment(_, _) => false
    case _ => true
  }

  /** Every call will be done, and nothing will happen meanwhile but gentle steps. */
  ghost predicate Calm(script: seq<Interlude>) {
    forall i | 0 <= i < |script| :: script[i].outcome.Done? && AllGentle(script[i].steps)
  }

  ghost predicate AllGentle(steps: seq<EnvStep>) {
    forall j | 0 <= j < |steps| :: Gentle(steps[j])
  }

  /** From `a` to `b` the environment moved, and the operator wrote in area `touched` only. */
  ghost predicate Moved(a: View, b: View, touched: Area) {
    Shifted(a, b, touched) && (Calm(a.script) ==> Calm(b.script) && Eased(a, b, touched))
  }

  /** What stays when all is calm. */
  ghost predicate Eased(a: View, b: View, touched: Area) {
    && (a.w.dbReady ==> b.w.dbReady) && (a.w.redisReady ==> b.w.redisReady)
    && (touched.WorkloadArea? || touched.Wide? || a.w.work.deployments == b.w.work.deployments)
    && (touched.SecretArea? || touched.Wide? || Unstirred(a, b))
  }

  /** What stays whatever happens. */
  ghost predicate Shifted(a: View, b: View, touched: Area) {
    && (touched.MigrationArea? || KeepsMigrations(a.w.mig, b.w.mig))
    && (touched.ObjectStorageArea? || touched.Wide? || KeepsMeta(a.w.obj, b.w.obj))
    && (touched.DetectorArea? || touched.Wide? ||
         (KeepsMeta(a.w.det, b.w.det) && a.w.detService == b.w.detService))
    && (touched.WorkloadArea? || touched.Wide? || KeepsWork(a.w.work, b.w.work))
    && b.facts.db == a.facts.db && b.facts.redis == a.facts.redis
    && (b.facts.quiet ==> a.facts.quiet && a.w.secrets == b.w.secrets)
    && Steady(a, b)
  }

  /** A Secret that was read and is not known to have changed has not changed. */
  ghost predicate Steady(a: View, b: View) {
    && a.facts.seen <= b.facts.seen && a.facts.stirred <= b.facts.stirred
    && forall n | n in a.facts.seen && n !in b.facts.stirred :: VersionIn(a.w.secrets, n) == VersionIn(b.w.secrets, n)
  }

  /** What the facts warrant of a version they go on to warrant. */
  lemma VersionKept(a: View, b: View, v: Version)
    requires VersionOk(Within(a.facts), a.w.secrets, v) && Steady(a, b)
    requires b.facts.quiet ==> a.facts.quiet && a.w.secrets == b.w.secrets
    ensures VersionOk(Within(b.facts), b.w.secrets, v)
  {
  }

  lemma VersionsKept(a: View, b: View, names: seq<string>, vs: seq<Version>)
    requires VersionsOk(Within(a.facts), a.w.secrets, names, vs) && Steady(a, b)
    requires b.facts.quiet ==> a.facts.quiet && a.w.secrets == b.w.secrets
    ensures VersionsOk(Within(b.facts), b.w.secrets, names, vs)
  {
    hide VersionOk, Steady;
    forall i | 0 <= i < |vs| ensures VersionOk(Within(b.facts), b.w.secrets, vs[i]) {
      VersionKept(a, b, vs[i]);
    }
  }

  lemma ObjHashKept(a: View, b: View, m: Spec, h: ObjHash)
    requires ObjHashFor(m, h, Within(a.facts), a.w.secrets) && Steady(a, b)
    requires b.facts.quiet ==> a.facts.quiet && a.w.secrets == b.w.secrets
    ensures ObjHashFor(m, h, Within(b.facts), b.w.secrets)
  {
    hide VersionsOk, Steady;
    VersionsKept(a, b, m.obj.value.creds, h.creds);
  }

  lemma DetHashKept(a: View, b: View, m: Spec, h: DetHash)
    requires DetHashFor(m, h, Within(a.facts), a.w.secrets) && Steady(a, b)
    requires b.facts.quiet ==> a.facts.quiet && a.w.secrets == b.w.secrets
    ensures DetHashFor(m, h, Within(b.facts), b.w.secrets)
  {
    hide VersionOk, Steady;
    VersionKept(a, b, h.db);
    if h.key.Some? {
      VersionKept(a, b, h.key.value);
    }
  }

  function Join(s: Area, t: Area): Area {
    if s.Nothing? then t else s
  }

  lemma Compose(a: View, b: View, c: View, s: Area, t: Area)
    requires Moved(a, b, s) && Moved(b, c, t)
    requires s == t || s.Nothing? || t.Nothing?
    ensures Moved(a, c, Join(s, t))
  {
    hide Shifted, Calm;
    ComposeShifts(a, b, c, s, t);
  }

  lemma StaysCalm(a: View, b: View, touched: Area)
    requires Moved(a, b, touched)
    ensures Calm(a.script) ==> Calm(b.script)
  {
    hide Calm, Shifted, Eased;
  }

  /** What moved nowhere moved nowhere else. */
  lemma Broaden(a: View, b: View, touched: Area)
    requires Moved(a, b, Nothing)
    ensures Moved(a, b, touched)
  {
    hide KeepsMigrations, KeepsMeta, KeepsWork, Steady, Calm;
  }

  lemma Widen(a: View, b: View, s: Area)
    requires Moved(a, b, s) && !s.MigrationArea?
    ensures Moved(a, b, Wide)
  {
    hide KeepsMigrations, KeepsMeta, KeepsWork, Steady, Calm;
  }

  lemma SameWhenCalm(a: View, b: View, touched: Area)
    requires Moved(a, b, touched) && Calm(a.script)
    ensures !touched.WorkloadArea? && !touched.Wide? ==> a.w.work.deployments == b.w.work.deployments
    ensures !touched.SecretArea? && !touched.Wide? ==> Unstirred(a, b)
    ensures (a.w.dbReady ==> b.w.dbReady) && (a.w.redisReady ==> b.w.redisReady)
  {
    hide Calm, Shifted;
  }

  /** The Secrets, and what the pass knows of them, are as they were. */
  ghost predicate Unstirred(a: View, b: View) {
    a.w.secrets == b.w.secrets && a.facts.quiet == b.facts.quiet && a.facts.stirred == b.facts.stirred
  }

  ghost predicate SameDeployment(a: Workloads, b: Workloads, r: Role) {
    (r in a.deployments <==> r in b.deployments) && (r in a.deployments ==> a.deployments[r] == b.deployments[r])
  }

  /** The operator wrote nothing of the other roles. */
  ghost predicate Spares(a: View, b: View, role: Role) {
    forall r | r != role ::
      KeepsRole(a.w.work, b.w.work, r) && (Calm(a.script) ==> SameDeployment(a.w.work, b.w.work, r))
  }

  lemma SparesByMove(a: View, b: View, touched: Area, role: Role)
    requires Moved(a, b, touched) && !touched.WorkloadArea? && !touched.Wide?
    ensures Spares(a, b, role)
  {
    hide KeepsMigrations, KeepsMeta, Steady, Calm;
  }

  lemma SparesCompose(a: View, b: View, c: View, role: Role)
    requires Spares(a, b, role) && Spares(b, c, role) && (Calm(a.script) ==> Calm(b.script))
    ensures Spares(a, c, role)
  {
    hide KeepsRole, SameDeployment, Calm;
    forall r | r != role
      ensures KeepsRole(a.w.work, c.w.work, r) && (Calm(a.script) ==> SameDeployment(a.w.work, c.w.work, r))
    {
      RoleKeptTwice(a.w.work, b.w.work, c.w.work, r);
    }
  }

  lemma RoleKeptTwice(a: Workloads, b: Workloads, c: Workloads, r: Role)
    ensures KeepsRole(a, b, r) && KeepsRole(b, c, r) ==> KeepsRole(a, c, r)
    ensures SameDeployment(a, b, r) && SameDeployment(b, c, r) ==> SameDeployment(a, c, r)
  {
  }

  lemma ComposeShifts(a: View, b: View, c: View, s: Area, t: Area)
    requires Shifted(a, b, s) && Shifted(b, c, t)
    requires s == t || s.Nothing? || t.Nothing?
    ensures Shifted(a, c, Join(s, t))
  {
    KeepsTransitive(a.w, b.w, c.w);
    SteadyTransitive(a, b, c);
  }

  lemma SteadyTransitive(a: View, b: View, c: View)
    requires Steady(a, b) && Steady(b, c)
    ensures Steady(a, c)
  {
  }

  function AreaOf(op: Op): Area {
    match op
    case CreateMigration(_, _) => MigrationArea
    case DeleteMigration(_, _) => MigrationArea
    case CreateBackup(_) => MigrationArea
    case DeleteBackup(_) => MigrationArea
    case PutObjSql(_) => ObjectStorageArea
    case DeleteObjSql => ObjectStorageArea
    case CreateObjJob(_) => ObjectStorageArea
    case DeleteObjJob(_) => ObjectStorageArea
    case PutSecret(_, _) => SecretArea
    case DeleteSecret(_) => SecretArea
    case PutDeployment(_, _, _) => WorkloadArea
    case DeleteDetDeployment(_) => WorkloadArea
    case SetScaler(_, _, _) => WorkloadArea
    case _ => DetectorArea
  }

  /** A write moves its own area only; one that changes a Secret is known to. */
  lemma DoMoves(v: View, op: Op)
    requires SecretsOf(op) != {} ==> !v.facts.quiet && SecretsOf(op) * v.facts.seen <= v.facts.stirred
    ensures Moved(v, v.(w := Do(v.w, op)), AreaOf(op)) && Moved(v, v, AreaOf(op))
    ensures !TouchesMigrations(op) ==> Do(v.w, op).mig.jobs == v.w.mig.jobs
  {
    hide KeepsMigrations, KeepsMeta, KeepsWork, DoScaler, Fresh, Steady, Calm;
    KeepsReflexive(v.w);
    DoSteady(v, op);
  }

  lemma DoSteady(v: View, op: Op)
    requires SecretsOf(op) != {} ==> !v.facts.quiet && SecretsOf(op) * v.facts.seen <= v.facts.stirred
    ensures Steady(v, v.(w := Do(v.w, op))) && Steady(v, v)
  {
    forall n | n !in SecretsOf(op) ensures VersionIn(v.w.secrets, n) == VersionIn(Do(v.w, op).secrets, n) {
    }
  }

  /** Where the world is when a write reaches the server, as seen from the start of the call. */
  function Approach(op: Op): Area {
    if op.PutSecret? || op.DeleteSecret? then SecretArea else Nothing
  }

  /** All that a write changes: the pass started at `a` and the request reaches the server at `b`. */
  lemma Settle(a: View, b: View, op: Op, m: Spec, log: seq<Event>)
    requires Moved(a, b, Nothing)
    requires Honest(log) && Balanced(log, b.w.mig.jobs) && FactsBacked(log, b.facts)
    ensures
      var v := Stirred(b, SecretsOf(op));
      var e := Wrote(op, m, b.w, v.facts);
      && Moved(a, v, Approach(op))
      && Moved(a, v, AreaOf(op))
      && Moved(a, v.(w := Do(b.w, op)), AreaOf(op))
      && Extends(log, log, m) && Extends(log, log + [e], m)
      && FactsBacked(log, v.facts) && FactsBacked(log + [e], v.facts)
      && (EventOk(e) && Backed(log, e) ==> Honest(log + [e]))
      && (!TouchesMigrations(op) ==> ChecksumBacked(log, op) && Balanced(log + [e], Do(b.w, op).mig.jobs))
  {
    hide EventOk, Honest, Balanced, Do, AreaOf, KeepsMigrations, KeepsMeta, KeepsWork, Backed, SeenReady, Moved;
    var v := Stirred(b, SecretsOf(op));
    var e := Wrote(op, m, b.w, v.facts);
    DoMoves(v, op);
    Approaches(b, op);
    Compose(a, b, v, Nothing, Approach(op));
    AreaWithin(op);
    Compose(a, v, v, Approach(op), AreaOf(op));
    Compose(a, v, v.(w := Do(b.w, op)), Approach(op), AreaOf(op));
    HistoryAppend(log, e);
    FactsStayBacked(log, e, v.facts);
    if !TouchesMigrations(op) {
      BalancedByOther(log, e, b.w.mig.jobs);
    }
  }

  lemma AreaWithin(op: Op)
    ensures Approach(op).Nothing? || Approach(op) == AreaOf(op)
  {
  }

  lemma Approaches(v: View, op: Op)
    ensures Moved(v, Stirred(v, SecretsOf(op)), Approach(op))
  {
    hide KeepsMigrations, KeepsMeta, KeepsWork, Calm;
    KeepsReflexive(v.w);
  }

  lemma SeeMoves(v: View, name: string)
    ensures Moved(v, v.(facts := v.facts.(seen := v.facts.seen + {name})), Nothing)
  {
    hide KeepsMigrations, KeepsMeta, KeepsWork;
    KeepsReflexive(v.w);
  }

  /** Doubting more is no harm. */
  lemma StirShifts(v: View, names: set<string>)
    ensures Shifted(v, Stirred(v, names), Nothing)
  {
    hide KeepsMigrations, KeepsMeta, KeepsWork;
    KeepsReflexive(v.w);
  }

  /** A step of the environment, with the doubt it casts. */
  lemma EnvShifts(v: View, e: EnvStep)
    requires Inv(v.w)
    ensures Shifted(v, EnvView(v, e), Nothing)
    ensures Gentle(e) ==> Eased(v, EnvView(v, e), Nothing)
  {
    hide KeepsMigrations, KeepsMeta, KeepsWork, Inv, Env;
    EnvKeeps(v.w, e);
    if Gentle(e) {
      GentleEases(v, e);
    }
  }

  lemma GentleEases(v: View, e: EnvStep)
    requires Gentle(e)
    ensures Eased(v, EnvView(v, e), Nothing)
  {
  }

  lemma GrowthOf(a: Migrations, b: Migrations)
    requires KeepsMigrations(a, b)
    ensures Grows(a.jobs, b.jobs)
  {
  }

  lemma Idle(v: View, touched: Area)
    ensures Moved(v, v, touched)
  {
  }

  ghost function EnvView(v: View, e: EnvStep): View {
    v.(w := Env(v.w, e), facts := Stir(v.facts, SecretsIn(e)))
  }

  /** The world and the facts after some steps of the environment. */
  ghost function Elapse(v: View, steps: seq<EnvStep>): View {
    if steps == [] then v else EnvView(Elapse(v, steps[..|steps| - 1]), steps[|steps| - 1])
  }

  /** What happens before the next call, and how that call is answered. */
  ghost function NextView(v: View): View {
    if v.script == [] then v else Elapse(v.(script := v.script[1..]), v.script[0].steps)
  }

  function NextAnswer(script: seq<Interlude>): Outcome {
    if script == [] then Done else script[0].outcome
  }

  ghost function Remember(v: View, name: string): View {
    v.(facts := v.facts.(seen := v.facts.seen + {name}))
  }

  /** A failed read leaves the version of the Secret unknown. */
  ghost function Answered(v: View, name: string, outcome: Outcome): View {
    if outcome.Done? then v else Stirred(v, {name})
  }

  ghost function Stirred(v: View, names: set<string>): View {
    v.(facts := Stir(v.facts, names))
  }

  lemma PopShifts(v: View)
    requires v.script != []
    ensures Shifted(v, v.(script := v.script[1..]), Nothing) && Eased(v, v.(script := v.script[1..]), Nothing)
  {
  }

  lemma ComposeEases(a: View, b: View, c: View)
    requires Eased(a, b, Nothing) && Eased(b, c, Nothing)
    ensures Eased(a, c, Nothing)
  {
  }

  /** In a calm script no Secret changes before the next call. */
  lemma CalmNextView(v: View)
    requires Calm(v.script)
    ensures NextView(v).w.secrets == v.w.secrets
  {
    hide Calm;
    CalmNext(v.script);
    if v.script != [] {
      GentleSecrets(v.(script := v.script[1..]), v.script[0].steps);
    }
  }

  lemma {:induction false} GentleSecrets(v: View, steps: seq<EnvStep>)
    requires AllGentle(steps)
    ensures Elapse(v, steps).w.secrets == v.w.secrets
  {
    if steps != [] {
      GentleSecrets(v, steps[..|steps| - 1]);
    }
  }

  lemma CalmNext(script: seq<Interlude>)
    requires Calm(script)
    ensures NextAnswer(script).Done? && (script != [] ==> Calm(script[1..]) && AllGentle(script[0].steps))
  {
  }

  class Cluster {
    var w: World
    var script: seq<Interlude>
    ghost var facts: Facts
    ghost var log: seq<Event>
    /** The world in which the history began. */
    ghost const start: World

    ghost predicate Valid()
      reads this
    {
      Inv(w) && Honest(log) && Balanced(log, w.mig.jobs) && FactsBacked(log, facts)
      && Rooted(start, log, w)
    }

    ghost function Now(): View
      reads this
    {
      View(w, facts, script)
    }

    /** A cluster in any state the invariant allows, before the operator has done anything. */
    constructor (initial: World, script: seq<Interlude>)
      requires Inv(initial)
      ensures Valid() && w == initial && start == initial && this.script == script && log == []
    {
      KeepsSelf(initial);
      w, this.script, log, start := initial, script, [], initial;
      facts := Facts(None, None, false, {}, {});
    }

    /** One step of the environment. */
    method Step(e: EnvStep)
      requires Valid()
      modifies this`w, this`facts
      ensures Valid() && w == Env(old(w), e)
      ensures Now() == EnvView(old(Now()), e) && Shifted(old(Now()), Now(), Nothing)
      ensures Gentle(e) ==> Eased(old(Now()), Now(), Nothing)
    {
      hide KeepsMigrations, KeepsMeta, KeepsWork, Inv, Env, Honest, Balanced, SeenReady, Rooted;
      EnvKeeps(w, e);
      RootedByEnv(start, log, w, Env(w, e));
      GrowthOf(w.mig, Env(w, e).mig);
      w := Env(w, e);
      EnvShifts(old(Now()), e);
      facts := Stir(facts, SecretsIn(e));
      BalancedByGrowth(log, old(w).mig.jobs, w.mig.jobs);
    }

    /** The environment runs, then the call is answered as the script says. */
    method Call() returns (outcome: Outcome)
      requires Valid()
      modifies this`w, this`script, this`facts
      ensures Valid() && Moved(old(Now()), Now(), Nothing)
      ensures Now() == NextView(old(Now())) && outcome == NextAnswer(old(script))
      ensures Calm(old(script)) ==> outcome.Done?
    {
      hide Rooted, Honest, Balanced, FactsBacked, Inv, Shifted, Eased, Calm, Env, Stir, Gentle;
      Idle(Now(), Nothing);
      if script == [] {
        return Done;
      }
      var next := script[0];
      if Calm(script) {
        CalmNext(script);
      }
      script := script[1..];
      outcome := next.outcome;
      ghost var popped := Now();
      PopShifts(old(Now()));
      for i := 0 to |next.steps|
        invariant Valid() && Shifted(old(Now()), Now(), Nothing) && script == old(script)[1..]
        invariant Calm(old(script)) ==> Eased(old(Now()), Now(), Nothing)
        invariant Now() == Elapse(popped, next.steps[..i])
      {
        ghost var before := Now();
        Step(next.steps[i]);
        ComposeShifts(old(Now()), before, Now(), Nothing, Nothing);
        if Calm(old(script)) {
          ComposeEases(old(Now()), before, Now());
        }
        assert next.steps[..i + 1][..i] == next.steps[..i];
      }
      assert next.steps[..|next.steps|] == next.steps;
    }

    /**
     A write request of a pass for `m`. If it takes effect it does so in world `before`, and
     enters the history; `ok` is what the operator is told.
     */
    method Write(op: Op, ghost m: Spec) returns (ok: bool, ghost took: bool, ghost before: World)
      requires Valid()
      modifies this`w, this`script, this`facts, this`log
      ensures View(before, facts, script) == Stirred(NextView(old(Now())), SecretsOf(op))
      ensures took == (!NextAnswer(old(script)).Refused? && Accepts(before, op)) && ok == (took && NextAnswer(old(script)).Done?)
      ensures Calm(old(script)) && Accepts(before, op) ==> ok
      ensures Inv(before) && Moved(old(Now()), View(before, facts, script), Approach(op))
      ensures took ==> Accepts(before, op) && w == Do(before, op)
      ensures took ==> log == old(log) + [Wrote(op, m, before, facts)]
      ensures !took ==> w == before && log == old(log) && Valid()
      ensures Moved(old(Now()), Now(), AreaOf(op)) && Extends(old(log), log, m)
      ensures Balanced(old(log), before.mig.jobs)
      ensures FactsBacked(old(log), facts)
      ensures took && ChecksumBacked(old(log), op) && EventOk(Wrote(op, m, before, facts)) ==>
        Inv(w) && Balanced(log, w.mig.jobs) ==> Valid()
      ensures !TouchesMigrations(op) && Inv(Do(before, op)) && EventOk(Wrote(op, m, before, facts)) ==> Valid()
    {
      hide Moved, Calm, AreaOf, Approach, Inv, Do, Accepts, EventOk, Honest, Balanced, Extends, TouchesMigrations, FactsBacked, ChecksumBacked, Rooted;
      var outcome := Call();
      Settle(old(Now()), Now(), op, m, log);
      facts := Stir(facts, SecretsOf(op));
      RootedByEvent(start, log, Wrote(op, m, w, facts));
      before := w;
      ok := false;
      took := false;
      if !outcome.Refused? && Accepts(w, op) {
        took := true;
        ok := outcome.Done?;
        w := Do(w, op);
        log := log + [Wrote(op, m, before, facts)];
      }
    }

    /** A call about objects outside this model: it changes none of the modelled ones. */
    method Other() returns (ok: bool)
      requires Valid()
      modifies this`w, this`script, this`facts
      ensures Valid() && Moved(old(Now()), Now(), Nothing)
      ensures Calm(old(script)) ==> ok
    {
      hide Moved, Calm;
      var outcome := Call();
      ok := outcome.Done?;
    }

    /** A pass reads its own snapshot of the resource and forgets what earlier passes saw. */
    method Begin() returns (m: Spec)
      requires Valid()
      modifies this`facts, this`log
      ensures Valid() && m == w.spec && facts == Facts(None, None, true, {}, {})
      ensures log == old(log) + [Began(m, w)]
    {
      hide Honest, Balanced, Inv, SeenReady, Rooted;
      m := w.spec;
      HistoryAppend(log, Began(m, w));
      BalancedByOther(log, Began(m, w), w.mig.jobs);
      RootedByEvent(start, log, Began(m, w));
      facts := Facts(None, None, true, {}, {});
      log := log + [Began(m, w)];
    }

    /** Enters a computed migration checksum into the history. */
    ghost method Note(m: Spec, cs: Checksum)
      requires Valid() && MigrationChecksumFor(m, cs, Within(facts), w.secrets)
      modifies this`log
      ensures Valid() && log == old(log) + [Noted(m, cs, w, facts)]
      ensures LedgerOf(log, m.image).last == Some(cs)
    {
      hide Honest, Balanced, Inv, FactsBacked, Rooted;
      var e := Noted(m, cs, w, facts);
      BalancedByNote(log, e, w.mig.jobs);
      LedgerAppend(log, e, m.image);
      HistoryAppend(log, e);
      FactsStayBacked(log, e, facts);
      RootedByEvent(start, log, e);
      log := log + [e];
    }

    method ReadMigration(image: Image) returns (r: Read<Job<Checksum>>)
      requires Valid()
      modifies this`w, this`script, this`facts
      ensures Valid() && Moved(old(Now()), Now(), Nothing)
      ensures r.Found? ==> image in w.mig.jobs && w.mig.jobs[image] == r.value
      ensures r.NotFound? ==> image !in w.mig.jobs
      ensures Calm(old(script)) ==> !r.Unread?
    {
      hide Moved, Calm;
      var outcome := Call();
      if !outcome.Done? { return Unread; }
      r := if image in w.mig.jobs then Found(w.mig.jobs[image]) else NotFound;
    }

    method ListMigrations() returns (r: Option<set<Image>>)
      requires Valid()
      modifies this`w, this`script, this`facts
      ensures Valid() && Moved(old(Now()), Now(), Nothing)
      ensures r.Some? ==> r.value == w.mig.jobs.Keys
      ensures Calm(old(script)) ==> r.Some?
    {
      hide Moved, Calm;
      var outcome := Call();
      r := if outcome.Done? then Some(w.mig.jobs.Keys) else None;
    }

    method ReadBackup(image: Image) returns (r: Read<Phase>)
      requires Valid()
      modifies this`w, this`script, this`facts
      ensures Valid() && Moved(old(Now()), Now(), Nothing)
      ensures r.Found? ==> image in w.mig.backups && w.mig.backups[image] == r.value
      ensures r.NotFound? ==> image !in w.mig.backups
      ensures Calm(old(script)) ==> !r.Unread?
    {
      hide Moved, Calm;
      var outcome := Call();
      if !outcome.Done? { return Unread; }
      r := if image in w.mig.backups then Found(w.mig.backups[image]) else NotFound;
    }

    method ListBackups() returns (r: Option<set<Image>>)
      requires Valid()
      modifies this`w, this`script, this`facts
      ensures Valid() && Moved(old(Now()), Now(), Nothing)
      ensures r.Some? ==> r.value == w.mig.backups.Keys
      ensures Calm(old(script)) ==> r.Some?
    {
      hide Moved, Calm;
      var outcome := Call();
      r := if outcome.Done? then Some(w.mig.backups.Keys) else None;
    }

    method ListObjJobs() returns (r: Option<set<ObjHash>>)
      requires Valid()
      modifies this`w, this`script, this`facts
      ensures Valid() && Moved(old(Now()), Now(), Nothing)
      ensures r.Some? ==> r.value == w.obj.jobs.Keys
      ensures Calm(old(script)) ==> r.Some?
    {
      hide Moved, Calm;
      var outcome := Call();
      r := if outcome.Done? then Some(w.obj.jobs.Keys) else None;
    }

    method ReadObjJob(h: ObjHash) returns (r: Read<Job<()>>)
      requires Valid()
      modifies this`w, this`script, this`facts
      ensures Valid() && Moved(old(Now()), Now(), Nothing)
      ensures r.Found? ==> h in w.obj.jobs && w.obj.jobs[h] == r.value
      ensures r.NotFound? ==> h !in w.obj.jobs
      ensures Calm(old(script)) ==> !r.Unread?
    {
      hide Moved, Calm;
      var outcome := Call();
      if !outcome.Done? { return Unread; }
      r := if h in w.obj.jobs then Found(w.obj.jobs[h]) else NotFound;
    }

    method ListDetJobs() returns (r: Option<set<DetHash>>)
      requires Valid()
      modifies this`w, this`script, this`facts
      ensures Valid() && Moved(old(Now()), Now(), Nothing)
      ensures r.Some? ==> r.value == w.det.jobs.Keys
      ensures Calm(old(script)) ==> r.Some?
    {
      hide Moved, Calm;
      var outcome := Call();
      r := if outcome.Done? then Some(w.det.jobs.Keys) else None;
    }

    method ReadDetJob(h: DetHash) returns (r: Read<Job<()>>)
      requires Valid()
      modifies this`w, this`script, this`facts
      ensures Valid() && Moved(old(Now()), Now(), Nothing)
      ensures r.Found? ==> h in w.det.jobs && w.det.jobs[h] == r.value
      ensures r.NotFound? ==> h !in w.det.jobs
      ensures Calm(old(script)) ==> !r.Unread?
    {
      hide Moved, Calm;
      var outcome := Call();
      if !outcome.Done? { return Unread; }
      r := if h in w.det.jobs then Found(w.det.jobs[h]) else NotFound;
    }

    /** Whether the detector's state ConfigMap exists. */
    method ReadDetState() returns (r: Option<bool>)
      requires Valid()
      modifies this`w, this`script, this`facts
      ensures Valid() && Moved(old(Now()), Now(), Nothing)
      ensures r.Some? ==> r.value == w.det.sql.Some?
      ensures Calm(old(script)) ==> r.Some?
    {
      hide Moved, Calm;
      var outcome := Call();
      r := if outcome.Done? then Some(w.det.sql.Some?) else None;
    }

    method ReadDeployment(role: Role) returns (r: Read<Deployment>)
      requires Valid()
      modifies this`w, this`script, this`facts
      ensures Valid() && Moved(old(Now()), Now(), Nothing)
      ensures r.Found? ==> role in w.work.deployments && w.work.deployments[role] == r.value
      ensures r.NotFound? ==> role !in w.work.deployments
      ensures Calm(old(script)) ==> !r.Unread?
    {
      hide Moved, Calm;
      var outcome := Call();
      if !outcome.Done? { return Unread; }
      r := if role in w.work.deployments then Found(w.work.deployments[role]) else NotFound;
    }

    /** A Secret's version: `missing` only when the API server says there is no such Secret. */
    method SecretVersion(name: string) returns (r: Option<Version>)
      requires Valid()
      modifies this`w, this`script, this`facts
      ensures Valid() && Moved(old(Now()), Now(), Nothing)
      ensures r == if NextAnswer(old(script)).Done? then Some(VersionIn(w.secrets, name)) else None
      ensures r.Some? ==> VersionOk(Within(facts), w.secrets, r.value)
      ensures Now() == Remember(NextView(old(Now())), name)
      ensures Calm(old(script)) ==> r.Some?
    {
      hide Honest, Balanced, Inv, Rooted, KeepsMigrations, KeepsMeta, KeepsWork;
      var outcome := Call();
      r := if outcome.Done? then Some(VersionIn(w.secrets, name)) else None;
      ghost var before := Now();
      facts := facts.(seen := facts.seen + {name});
      SeeMoves(before, name);
      Compose(old(Now()), before, Now(), Nothing, Nothing);
    }

    /** A credential's version, where a failed read also counts as `missing`. */
    method CredentialVersion(name: string) returns (v: Version)
      requires Valid()
      modifies this`w, this`script, this`facts
      ensures Valid() && Moved(old(Now()), Now(), Nothing)
      ensures v == if NextAnswer(old(script)).Done? then VersionIn(w.secrets, name) else Version(name, None)
      ensures VersionOk(Within(facts), w.secrets, v)
      ensures Now() == Answered(Remember(NextView(old(Now())), name), name, NextAnswer(old(script)))
    {
      hide Honest, Balanced, Inv, Rooted, KeepsMigrations, KeepsMeta, KeepsWork;
      var outcome := Call();
      v := if outcome.Done? then VersionIn(w.secrets, name) else Version(name, None);
      ghost var before := Now();
      facts := facts.(seen := facts.seen + {name});
      SeeMoves(before, name);
      Compose(old(Now()), before, Now(), Nothing, Nothing);
      if !outcome.Done? {
        ghost var seen := Now();
        facts := Stir(facts, {name});
        StirShifts(seen, {name});
        ComposeShifts(old(Now()), seen, Now(), Nothing, Nothing);
      }
    }

    /** Enters a look at a dependency into the history. */
    ghost method See(what: Dependency, m: Spec, ready: bool)
      requires Valid() && (ready ==> IsReady(what, m, w))
      modifies this`log, this`facts
      ensures Valid() && log == old(log) + [Saw(what, m, w, ready)]
      ensures facts == if what.Database? then old(facts).(db := Some(ready)) else old(facts).(redis := Some(ready))
    {
      hide Honest, Balanced, Inv, FactsBacked, Rooted;
      var e := Saw(what, m, w, ready);
      BalancedByOther(log, e, w.mig.jobs);
      HistoryAppend(log, e);
      SawBacks(log, e, facts);
      RootedByEvent(start, log, e);
      facts := if what.Database? then facts.(db := Some(ready)) else facts.(redis := Some(ready));
      log := log + [e];
    }

    /** A failed read of the Postgres cluster counts as not ready; an external database is ready. */
    method DatabaseReady(m: Spec) returns (ready: bool)
      requires Valid()
      modifies this`w, this`script, this`facts, this`log
      ensures Valid() && Moved(old(Now()).(facts := old(facts).(db := Some(ready))), Now(), Nothing)
      ensures ready ==> IsReady(Database, m, w)
      ensures log == old(log) + [Saw(Database, m, w, ready)]
      ensures Calm(old(script)) && IsReady(Database, m, old(w)) ==> ready
    {
      hide Honest, Balanced, Inv, FactsBacked, Rooted, KeepsMigrations, KeepsMeta, KeepsWork;
      if m.dbManaged {
        var outcome := Call();
        ready := outcome.Done? && w.dbReady;
      } else {
        Idle(Now(), Nothing);
        ready := true;
      }
      See(Database, m, ready);
    }

    /** A failed read counts as not ready. */
    method RedisReady(m: Spec) returns (ready: bool)
      requires Valid()
      modifies this`w, this`script, this`facts, this`log
      ensures Valid() && Moved(old(Now()).(facts := old(facts).(redis := Some(ready))), Now(), Nothing)
      ensures ready ==> IsReady(RedisStore, m, w)
      ensures log == old(log) + [Saw(RedisStore, m, w, ready)]
      ensures Calm(old(script)) && IsReady(RedisStore, m, old(w)) ==> ready
    {
      hide Honest, Balanced, Inv, FactsBacked, Rooted, KeepsMigrations, KeepsMeta, KeepsWork;
      var outcome := Call();
      ready := outcome.Done? && w.redisReady;
      See(RedisStore, m, ready);
    }
  }
}

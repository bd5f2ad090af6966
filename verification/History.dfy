/**
 The writes the operator makes, the history of a run, and what the design
 promises of every entry in that history.
 */
module History {
  import opened Wrappers
  import opened ClusterState

  datatype Scaler = Hpa | ScaledObject | TriggerAuth

  /** Why a migration Job is deleted: its image is not the current one, or it failed on other inputs. */
  datatype Why = Superseded | Retry(seen: Job<Checksum>, latest: Checksum)

  /** One write request to the API server. */
  datatype Op =
    | CreateMigration(image: Image, checksum: Checksum)
    | DeleteMigration(image: Image, why: Why)
    | CreateBackup(image: Image)
    | DeleteBackup(image: Image)
    | PutObjSql(obj: ObjHash)
    | DeleteObjSql
    | CreateObjJob(obj: ObjHash)
    | DeleteObjJob(obj: ObjHash)
    | PutDetState(det: DetHash)
    | DeleteDetState
    | CreateDetJob(det: DetHash)
    | DeleteDetJob(det: DetHash)
    | PutDetService
    | DeleteDetService(want: Checksum)
    | PutSecret(name: string, version: nat)
    | DeleteSecret(name: string)
    | PutDeployment(role: Role, seen: Option<Deployment>, next: Deployment)
    | DeleteDetDeployment(want: Checksum)
    | SetScaler(kind: Scaler, role: Role, present: bool)

  /** Creating refuses an existing name; an update refuses an object that changed since it was read. */
  predicate Accepts(w: World, op: Op) {
    match op
    case CreateMigration(i, _) => i !in w.mig.jobs
    case CreateBackup(i) => i !in w.mig.backups
    case CreateObjJob(h) => h !in w.obj.jobs
    case CreateDetJob(h) => h !in w.det.jobs
    case PutSecret(name, _) => name !in w.secrets
    case PutDeployment(role, seen, _) =>
      seen == if role in w.work.deployments then Some(w.work.deployments[role]) else None
    case _ => true
  }

  function Fresh<A>(annotation: A): Job<A> {
    Job(annotation, false, 0, 0)
  }

  function DoScaler(work: Workloads, kind: Scaler, role: Role, present: bool): Workloads {
    var add, del := if present then {role} else {}, if present then {} else {role};
    match kind
    case Hpa => work.(hpas := work.hpas + add - del)
    case ScaledObject => work.(scaledObjects := work.scaledObjects + add - del)
    case TriggerAuth => work.(triggerAuths := work.triggerAuths + add - del)
  }

  function Do(w: World, op: Op): World {
    match op
    case CreateMigration(i, cs) => w.(mig := w.mig.(jobs := w.mig.jobs[i := Fresh(cs)]))
    case DeleteMigration(i, _) => w.(mig := w.mig.(jobs := w.mig.jobs - {i}))
    case CreateBackup(i) => w.(mig := w.mig.(backups := w.mig.backups[i := Pending]))
    case DeleteBackup(i) => w.(mig := w.mig.(backups := w.mig.backups - {i}))
    case PutObjSql(h) => w.(obj := w.obj.(sql := Some(h)))
    case DeleteObjSql => w.(obj := w.obj.(sql := None))
    case CreateObjJob(h) => w.(obj := w.obj.(jobs := w.obj.jobs[h := Fresh(())]))
    case DeleteObjJob(h) => w.(obj := w.obj.(jobs := w.obj.jobs - {h}))
    case PutDetState(h) => w.(det := w.det.(sql := Some(h)))
    case DeleteDetState => w.(det := w.det.(sql := None))
    case CreateDetJob(h) => w.(det := w.det.(jobs := w.det.jobs[h := Fresh(())]))
    case DeleteDetJob(h) => w.(det := w.det.(jobs := w.det.jobs - {h}))
    case PutDetService => w.(detService := true)
    case DeleteDetService(_) => w.(detService := false)
    case PutSecret(name, version) => w.(secrets := w.secrets[name := version])
    case DeleteSecret(name) => w.(secrets := w.secrets - {name})
    case PutDeployment(role, _, next) =>
      w.(work := w.work.(deployments := w.work.deployments[role := next]))
    case DeleteDetDeployment(_) =>
      w.(work := w.work.(deployments := w.work.deployments - {DetectorRole}))
    case SetScaler(kind, role, present) => w.(work := DoScaler(w.work, kind, role, present))
  }

  /**
   What a reconcile pass has observed so far. `quiet` says that since the pass began no Secret
   changed and no read of an object storage credential failed. `seen` are the Secrets it has read,
   `stirred` those of them that changed after they were first read or of which a read failed.
   */
  datatype Facts = Facts(db: Option<bool>, redis: Option<bool>, quiet: bool, seen: set<string>, stirred: set<string>) {
    predicate DbReady() {
      db == Some(true)
    }

    predicate RedisReady() {
      redis == Some(true)
    }

    /** Nothing happened to the Secret since it was first read. */
    predicate Sure(name: string) {
      quiet || name !in stirred
    }
  }

  /** The facts after a change of some Secrets. */
  function Stir(f: Facts, names: set<string>): Facts {
    f.(quiet := f.quiet && names == {}, stirred := f.stirred + (names * f.seen))
  }

  /** How far a version is to be trusted: it is the current one, any, or as the pass's facts warrant. */
  datatype Trust = Exact | Loose | Within(f: Facts)

  /** The version of the Secret as it is, or that there is none. */
  predicate Current(secrets: map<string, nat>, v: Version) {
    if v.name in secrets then v.at == Some(secrets[v.name]) else v.at == None
  }

  predicate VersionOk(t: Trust, secrets: map<string, nat>, v: Version) {
    match t
    case Exact => Current(secrets, v)
    case Loose => true
    case Within(f) => v.name in f.seen && (f.Sure(v.name) ==> Current(secrets, v))
  }

  predicate VersionsOk(t: Trust, secrets: map<string, nat>, names: seq<string>, vs: seq<Version>) {
    |vs| == |names| && forall i | 0 <= i < |vs| :: vs[i].name == names[i] && VersionOk(t, secrets, vs[i])
  }

  /** What a pass waits for outside the cluster's own objects. */
  datatype Dependency = Database | RedisStore

  /**
   `Began`: a pass started, with this spec. `Saw`: it looked whether a dependency is ready, in
   world `w`. `Noted`: it computed the input checksum of its image's migration Job. `Wrote`: a
   write took effect in world `w`, and the pass had seen `facts`.
   */
  datatype Event =
    | Began(m: Spec, w: World)
    | Saw(what: Dependency, m: Spec, w: World, ready: bool)
    | Noted(m: Spec, checksum: Checksum, w: World, facts: Facts)
    | Wrote(op: Op, m: Spec, w: World, facts: Facts)

  // ----- What the history promises -----

  /** The Job exists and has succeeded. */
  ghost predicate Succeeded<K, A>(jobs: map<K, Job<A>>, k: K) {
    k in jobs && jobs[k].succeeded >= 1
  }

  /** The only migration Job left is the one for the image, and it has succeeded. */
  ghost predicate MigrationDone(g: Migrations, image: Image) {
    g.jobs.Keys == {image} && g.jobs[image].succeeded >= 1
  }

  /** The only Job left is the one for the hash; it has succeeded and the row holds its values. */
  ghost predicate MetaDone<H>(c: MetaConfig<H>, h: H) {
    c.jobs.Keys == {h} && c.jobs[h].succeeded >= 1 && c.row == Some(h)
  }

  /** A new row was written by a Job that existed before. */
  ghost predicate RowWithin<H>(a: MetaConfig<H>, b: MetaConfig<H>) {
    b.row != a.row ==> b.row.Some? && b.row.value in a.jobs
  }

  /** `h` is the object storage hash of `m`, with Secret versions as far as they are to be trusted. */
  predicate ObjHashFor(m: Spec, h: ObjHash, t: Trust, secrets: map<string, nat>) {
    && m.obj.Some? && m.obj.value.autoConfigure && m.obj.value.plan == Some(h.plan)
    && VersionsOk(t, secrets, m.obj.value.creds, h.creds)
  }

  /** The key's version stands in the hash if there is a key. */
  predicate KeyFor(key: Option<Version>, name: string, t: Trust, secrets: map<string, nat>) {
    key.Some? && key.value.name == name && VersionOk(t, secrets, key.value)
  }

  /** `h` is the detector hash of `m`, with Secret versions as far as they are to be trusted. */
  predicate DetHashFor(m: Spec, h: DetHash, t: Trust, secrets: map<string, nat>) {
    && h.db.name == m.dbSecret && VersionOk(t, secrets, h.db)
    && match m.det
       case Off => h.mode == Reset && h.settings == "" && h.key.None?
       case ManagedDet(settings, _, own, _) =>
         h.mode == Managed && h.settings == settings
         && KeyFor(h.key, if own.Some? then own.value else GENERATED_DETECTOR_SECRET, t, secrets)
       case ExternalDet(url, settings, name) =>
         h.mode == External(url) && h.settings == settings && KeyFor(h.key, name, t, secrets)
  }

  /** `cs` is a config checksum of `m`, with Secret versions as far as they are to be trusted. */
  predicate ChecksumFor(m: Spec, cs: Checksum, t: Trust, secrets: map<string, nat>) {
    && cs.config == m.appConfig
    && VersionsOk(t, secrets, m.secretRefs, cs.versions)
    && (if m.obj.Some? && m.obj.value.autoConfigure && m.obj.value.plan.Some?
        then cs.obj.Some? && ObjHashFor(m, cs.obj.value, t, secrets)
        else cs.obj.None?)
    && (if m.det.Off?
        then cs.det.None?
        else cs.det.Some? && DetHashFor(m, cs.det.value, t, secrets))
  }

  predicate ObjSure(f: Facts, h: ObjHash) {
    forall i | 0 <= i < |h.creds| :: f.Sure(h.creds[i].name)
  }

  predicate DetSure(f: Facts, h: DetHash) {
    f.Sure(h.db.name) && (h.key.Some? ==> f.Sure(h.key.value.name))
  }

  /** The hashes in the checksum are those whose values are in the row, unless a Secret of theirs changed. */
  predicate RowMatches(w: World, cs: Checksum, f: Facts) {
    && (cs.obj.Some? && ObjSure(f, cs.obj.value) ==> w.obj.row == cs.obj)
    && (cs.det.Some? && DetSure(f, cs.det.value) ==> w.det.row == cs.det)
  }

  lemma SameObjHash(m: Spec, h: ObjHash, k: ObjHash, t: Trust, secrets: map<string, nat>)
    requires ObjHashFor(m, h, t, secrets) && ObjHashFor(m, k, t, secrets)
    requires t.Exact? || (t.Within? && ObjSure(t.f, h))
    ensures h == k
  {
    forall i | 0 <= i < |h.creds| ensures h.creds[i] == k.creds[i] {
      assert VersionOk(t, secrets, h.creds[i]) && VersionOk(t, secrets, k.creds[i]);
    }
    assert h.creds == k.creds;
  }

  lemma SameDetHash(m: Spec, h: DetHash, k: DetHash, t: Trust, secrets: map<string, nat>)
    requires DetHashFor(m, h, t, secrets) && DetHashFor(m, k, t, secrets)
    requires t.Exact? || (t.Within? && DetSure(t.f, h))
    ensures h == k
  {
  }

  /** In a quiet pass the versions it has read are the current ones. */
  lemma QuietObj(m: Spec, h: ObjHash, f: Facts, secrets: map<string, nat>)
    requires ObjHashFor(m, h, Within(f), secrets) && f.quiet
    ensures ObjHashFor(m, h, Exact, secrets)
  {
  }

  lemma QuietDet(m: Spec, h: DetHash, f: Facts, secrets: map<string, nat>)
    requires DetHashFor(m, h, Within(f), secrets) && f.quiet
    ensures DetHashFor(m, h, Exact, secrets)
  {
  }

  ghost predicate ObjConfigured(m: Spec, w: World, t: Trust) {
    m.obj.Some? && m.obj.value.autoConfigure ==> exists h :: MetaDone(w.obj, h) && ObjHashFor(m, h, t, w.secrets)
  }

  /** The detector settings of `m` are in the row, or there never were any and none are wanted. */
  ghost predicate DetConfigured(m: Spec, w: World, t: Trust) {
    || (m.det.Off? && w.det.sql.None?)
    || exists h :: MetaDone(w.det, h) && DetHashFor(m, h, t, w.secrets)
  }

  /** Everything that must be true before a pod template of app or worker is set. */
  ghost predicate RollGate(m: Spec, w: World, f: Facts) {
    && !m.suspend
    && f.DbReady() && f.RedisReady()
    && MigrationDone(w.mig, m.image)
    && ObjConfigured(m, w, Within(f))
    && DetConfigured(m, w, Within(f))
  }

  function Or(o: Option<nat>, default: nat): nat {
    if o.Some? then o.value else default
  }

  /** A Deployment with these settings: the server counts a generation only for a change. */
  function Revise(d: Deployment, image: Image, checksum: Checksum, replicas: Option<nat>): Deployment {
    var x := d.(image := image, checksum := Some(checksum), replicas := replicas);
    if x == d then d else x.(generation := d.generation + 1)
  }

  /**
   The replicas a roll leaves: without autoscaling those of the spec, 1 if it names none; with it
   minReplicas, 1 if there are none, on the way out of 0, and otherwise those that were read.
   */
  predicate ReplicasAsWanted(comp: Component, seen: Option<Deployment>, next: Deployment) {
    match comp
    case Component(Some(n), None) => next.replicas == Some(n)
    case Component(None, None) => next.replicas == Some(1)
    case Component(_, Some(Scale(min, _, _))) =>
      if seen.Some? && seen.value.replicas == Some(0) then next.replicas == Some(if min.Some? then min.value else 1)
      else next.replicas == if seen.Some? then seen.value.replicas else None
  }

  /** What the managed detector's Deployment is to be: image, replicas, 1 if none are named, and the version of its key. */
  predicate DetectorAsWanted(m: Spec, next: Deployment, f: Facts, secrets: map<string, nat>) {
    && m.det.ManagedDet? && next.image == m.det.image
    && next.replicas == Some(if m.det.replicas.Some? then m.det.replicas.value else 1)
    && next.checksum.Some? && |next.checksum.value.versions| == 1
    && KeyFor(Some(next.checksum.value.versions[0]),
         if m.det.apiKeySecret.Some? then m.det.apiKeySecret.value else GENERATED_DETECTOR_SECRET, Within(f), secrets)
  }

  ghost predicate TemplateAt(w: World, role: Role, cs: Checksum) {
    role in w.work.deployments && w.work.deployments[role].checksum == Some(cs)
  }

  /**
   Nothing points at the managed detector any more, and the templates of app and worker
   carry the checksum the pass computed for the configuration that replaces it.
   */
  ghost predicate DetectorReplaced(m: Spec, w: World, want: Checksum) {
    && !m.det.ManagedDet? && !ManagedInUse(w.det)
    && ChecksumFor(m, want, Loose, w.secrets)
    && TemplateAt(w, App, want) && TemplateAt(w, Worker, want)
  }

  /** The write is one of those that a suspended pass must not make. */
  predicate Creates(op: Op) {
    op.CreateMigration? || op.CreateBackup? || op.CreateObjJob? || op.CreateDetJob?
  }

  /** `cs` is a migration checksum of `m`, with Secret versions as far as they are to be trusted. */
  predicate MigrationChecksumFor(m: Spec, cs: Checksum, t: Trust, secrets: map<string, nat>) {
    && cs.config == m.migrateConfig && cs.obj.None? && cs.det.None?
    && VersionsOk(t, secrets, m.secretRefs, cs.versions)
  }

  /** The dependency is ready in the world; an external database always is. */
  predicate IsReady(what: Dependency, m: Spec, w: World) {
    match what
    case Database => m.dbManaged ==> w.dbReady
    case RedisStore => w.redisReady
  }

  ghost predicate EventOk(e: Event) {
    match e
    case Began(_, _) => true
    case Saw(what, m, w, ready) => ready ==> IsReady(what, m, w)
    case Noted(m, cs, w, f) => MigrationChecksumFor(m, cs, Within(f), w.secrets)
    case Wrote(op, m, w, f) =>
      && (Creates(op) ==> !m.suspend && f.DbReady())
      && match op
         case CreateMigration(i, cs) =>
           && i == m.image && MigrationChecksumFor(m, cs, Within(f), w.secrets)
           && (m.preBackup && m.dbManaged && m.backup ==> i in w.mig.backups && w.mig.backups[i] == Completed)
         case DeleteMigration(i, Superseded) => i != m.image
         case DeleteMigration(i, Retry(seen, latest)) =>
           && i == m.image && i in w.mig.jobs && w.mig.jobs[i].annotation == seen.annotation
           && seen.succeeded == 0 && seen.failed >= 1 && seen.annotation != latest
           && MigrationChecksumFor(m, latest, Within(f), w.secrets)
         case CreateObjJob(h) => MigrationDone(w.mig, m.image) && w.obj.jobs == map[]
         case CreateDetJob(h) =>
           MigrationDone(w.mig, m.image) && w.det.jobs == map[] && w.det.sql == Some(h)
         case PutSecret(name, _) =>
           name == GENERATED_DETECTOR_SECRET && m.det.ManagedDet? && m.det.apiKeySecret.None?
         case DeleteSecret(name) =>
           && name == GENERATED_DETECTOR_SECRET
           && (m.det.ManagedDet? ==> m.det.apiKeySecret.Some? && m.det.apiKeySecret.value != GENERATED_DETECTOR_SECRET)
         case DeleteDetState => !RowConfigured(w.det) && w.det.jobs == map[]
         case DeleteDetService(want) => DetectorReplaced(m, w, want)
         case DeleteDetDeployment(want) => DetectorReplaced(m, w, want)
         case PutDeployment(role, seen, next) =>
           if m.suspend then
             seen.Some? && next == seen.value.(replicas := Some(0), generation := seen.value.generation + 1)
           else if role.DetectorRole? then
             DetectorAsWanted(m, next, f, w.secrets)
           else
             && next.image == m.image && next.checksum.Some?
             && ChecksumFor(m, next.checksum.value, Within(f), w.secrets)
             && RollGate(m, w, f)
             && RowMatches(w, next.checksum.value, f)
             && ReplicasAsWanted(if role.App? then m.app else m.worker, seen, next)
         case _ => true
  }

  /** In the pass that is going on, the last look at the dependency found it ready. */
  ghost predicate SeenReady(log: seq<Event>, what: Dependency) {
    log != [] &&
      var e := log[|log| - 1];
      match e
      case Began(_, _) => false
      case Saw(x, _, _, ready) => if x == what then ready else SeenReady(log[..|log| - 1], what)
      case _ => SeenReady(log[..|log| - 1], what)
  }

  /** What a pass claims to have seen ready it has seen ready. */
  ghost predicate FactsBacked(log: seq<Event>, f: Facts) {
    && (f.DbReady() ==> SeenReady(log, Database))
    && (f.RedisReady() ==> SeenReady(log, RedisStore))
  }

  /** A checksum that a write relies on is the last one computed for the image. */
  ghost predicate ChecksumBacked(log: seq<Event>, op: Op) {
    match op
    case CreateMigration(i, cs) => LedgerOf(log, i).last == Some(cs)
    case DeleteMigration(i, Retry(_, latest)) => LedgerOf(log, i).last == Some(latest)
    case _ => true
  }

  /** An event rests on what happened before it, and a write on a state of the invariant that it keeps. */
  ghost predicate Backed(before: seq<Event>, e: Event) {
    e.Wrote? ==>
      && FactsBacked(before, e.facts) && ChecksumBacked(before, e.op)
      && Inv(e.w) && Accepts(e.w, e.op) && Inv(Do(e.w, e.op))
  }

  ghost predicate Honest(log: seq<Event>) {
    forall i | 0 <= i < |log| :: EventOk(log[i]) && Backed(log[..i], log[i])
  }

  /** The history grew from `a` to `b` by what a pass for `m` did. */
  ghost predicate Extends(a: seq<Event>, b: seq<Event>, m: Spec) {
    && a <= b
    && forall i | |a| <= i < |b| :: !b[i].Began? && b[i].m == m
  }

  lemma HistoryAppend(log: seq<Event>, e: Event)
    requires Honest(log)
    ensures EventOk(e) && Backed(log, e) ==> Honest(log + [e])
    ensures !e.Began? ==> Extends(log, log, e.m) && Extends(log, log + [e], e.m)
  {
    hide EventOk, Backed;
    var l := log + [e];
    if EventOk(e) && Backed(log, e) {
      forall i | 0 <= i < |l| ensures EventOk(l[i]) && Backed(l[..i], l[i]) {
        assert l[..i] == if i < |log| then log[..i] else log;
      }
    }
  }

  lemma FactsStayBacked(log: seq<Event>, e: Event, f: Facts)
    requires FactsBacked(log, f) && (e.Wrote? || e.Noted?)
    ensures FactsBacked(log + [e], f)
  {
    assert (log + [e])[..|log|] == log;
  }

  lemma SawBacks(log: seq<Event>, e: Event, f: Facts)
    requires FactsBacked(log, f) && e.Saw?
    ensures e.what.Database? ==> FactsBacked(log + [e], f.(db := Some(e.ready)))
    ensures e.what.RedisStore? ==> FactsBacked(log + [e], f.(redis := Some(e.ready)))
  {
    assert (log + [e])[..|log|] == log;
  }

  // ----- The history and the world -----

  /** The world right after an event. */
  ghost function After(e: Event): World {
    if e.Wrote? then Do(e.w, e.op) else e.w
  }

  ghost function Latest(start: World, log: seq<Event>): World {
    if log == [] then start else After(log[|log| - 1])
  }

  /** Between two events nothing but the environment has moved. */
  ghost predicate Linked(start: World, log: seq<Event>) {
    forall i | 0 <= i < |log| :: Keeps(Latest(start, log[..i]), log[i].w)
  }

  /** The world is what the history has led to, but for moves of the environment. */
  ghost predicate Rooted(start: World, log: seq<Event>, w: World) {
    Linked(start, log) && Keeps(Latest(start, log), w)
  }

  lemma RootedByEnv(start: World, log: seq<Event>, w: World, x: World)
    requires Rooted(start, log, w) && Keeps(w, x)
    ensures Rooted(start, log, x)
  {
    hide Linked, KeepsMigrations, KeepsMeta, KeepsWork;
    KeepsTransitive(Latest(start, log), w, x);
  }

  lemma RootedByEvent(start: World, log: seq<Event>, e: Event)
    requires Rooted(start, log, e.w)
    ensures Rooted(start, log + [e], After(e))
  {
    hide Keeps, Do;
    var l := log + [e];
    forall i | 0 <= i < |l| ensures Keeps(Latest(start, l[..i]), l[i].w) {
      assert l[..i] == if i < |log| then log[..i] else log;
    }
    assert Keeps(After(e), After(e)) by { KeepsSelf(After(e)); }
  }

  lemma KeepsSelf(w: World)
    ensures Keeps(w, w)
  {
  }

  /** Every world on record is one that the history before it has led to. */
  lemma RecordsAreRooted(start: World, log: seq<Event>, i: nat)
    requires Linked(start, log) && i < |log|
    ensures Rooted(start, log[..i], log[i].w)
  {
    hide Keeps, Latest;
    var l := log[..i];
    forall j | 0 <= j < |l| ensures Keeps(Latest(start, l[..j]), l[j].w) {
      assert l[..j] == log[..j];
    }
  }

  // ----- What the history says of readiness -----

  /** The spec of the pass that is going on. */
  ghost function SpecAt(log: seq<Event>): Option<Spec> {
    if log == [] then None
    else if log[|log| - 1].Began? then Some(log[|log| - 1].m)
    else SpecAt(log[..|log| - 1])
  }

  /** Every event carries the spec of the pass it belongs to. */
  ghost predicate OneSpecAPass(log: seq<Event>) {
    forall i | 0 <= i < |log| && !log[i].Began? :: SpecAt(log[..i]) == Some(log[i].m)
  }

  lemma {:induction false} SpecStays(log: seq<Event>, j: nat, i: nat)
    requires j <= i <= |log| && forall x | j <= x < i :: !log[x].Began?
    ensures SpecAt(log[..i]) == SpecAt(log[..j])
  {
    if j < i {
      assert log[..i][..i - 1] == log[..i - 1];
      SpecStays(log, j, i - 1);
    }
  }

  lemma {:induction false} FindSight(log: seq<Event>, what: Dependency, n: nat) returns (j: nat)
    requires n <= |log| && SeenReady(log[..n], what)
    ensures j < n && log[j].Saw? && log[j].what == what && log[j].ready
    ensures forall x | j <= x < n :: !log[x].Began?
  {
    assert log[..n][..n - 1] == log[..n - 1];
    j := n - 1;
    if !(log[n - 1].Saw? && log[n - 1].what == what) {
      j := FindSight(log, what, n - 1);
    }
  }

  /** A look at a dependency earlier in the same pass found it ready, in a world where it was. */
  ghost predicate LookedReady(log: seq<Event>, i: nat, what: Dependency)
    requires i < |log|
  {
    exists j :: 0 <= j < i && log[j].Saw? && log[j].what == what && log[j].m == log[i].m
      && IsReady(what, log[i].m, log[j].w) && forall x | j < x <= i :: !log[x].Began?
  }

  lemma SawMeans(e: Event)
    requires EventOk(e) && e.Saw? && e.ready
    ensures IsReady(e.what, e.m, e.w)
  {
  }

  lemma SightOf(log: seq<Event>, i: nat, what: Dependency)
    requires Honest(log) && OneSpecAPass(log) && i < |log| && !log[i].Began? && SeenReady(log[..i], what)
    ensures LookedReady(log, i, what)
  {
    hide EventOk, Backed, IsReady;
    var j := FindSight(log, what, i);
    SawMeans(log[j]);
    SpecStays(log, j, i);
  }

  /**
   Whenever the template of app or worker is set, the same pass has seen the database and Redis
   ready, in worlds where they were.
   */
  lemma RollFollowsReadiness(log: seq<Event>, i: nat)
    requires Honest(log) && OneSpecAPass(log) && i < |log|
    requires log[i].Wrote? && log[i].op.PutDeployment? && !log[i].op.role.DetectorRole? && !log[i].m.suspend
    ensures LookedReady(log, i, Database) && LookedReady(log, i, RedisStore)
  {
    hide LookedReady, Inv, Accepts, Do, OneSpecAPass, SeenReady;
    assert EventOk(log[i]) && Backed(log[..i], log[i]);
    SightOf(log, i, Database);
    SightOf(log, i, RedisStore);
  }

  /** Whenever a Job or Backup is created, the same pass has seen the database ready. */
  lemma CreationFollowsReadiness(log: seq<Event>, i: nat)
    requires Honest(log) && OneSpecAPass(log) && i < |log| && log[i].Wrote? && Creates(log[i].op)
    ensures LookedReady(log, i, Database)
  {
    hide LookedReady, Inv, Accepts, Do, OneSpecAPass, SeenReady;
    assert EventOk(log[i]) && Backed(log[..i], log[i]);
    SightOf(log, i, Database);
  }

  // ----- How often a migration runs -----

  /**
   What the history says of one image: migration Jobs created, changes of the input
   checksum between computations, Jobs deleted in favour of another image, last checksum.
   */
  datatype Ledger = Ledger(created: nat, changes: nat, superseded: nat, last: Option<Checksum>)

  function Enter(l: Ledger, e: Event, i: Image): Ledger {
    match e
    case Began(_, _) => l
    case Saw(_, _, _, _) => l
    case Noted(m, cs, _, _) =>
      if m.image != i then l
      else if l.last.Some? && l.last.value != cs then l.(changes := l.changes + 1, last := Some(cs))
      else l.(last := Some(cs))
    case Wrote(op, _, _, _) =>
      match op
      case CreateMigration(j, _) => if j == i then l.(created := l.created + 1) else l
      case DeleteMigration(j, Superseded) => if j == i then l.(superseded := l.superseded + 1) else l
      case _ => l
  }

  function LedgerOf(log: seq<Event>, i: Image): Ledger {
    if log == [] then Ledger(0, 0, 0, None)
    else Enter(LedgerOf(log[..|log| - 1], i), log[|log| - 1], i)
  }

  /** The account that bounds the Jobs ever created, given which Jobs exist now. */
  ghost predicate Fits(l: Ledger, jobs: map<Image, Job<Checksum>>, i: Image) {
    && (l.last.None? ==> l.created == 0)
    && l.created <= l.changes + l.superseded + 1
    && (i !in jobs || Some(jobs[i].annotation) != l.last ==> l.created <= l.changes + l.superseded)
  }

  ghost predicate Balanced(log: seq<Event>, jobs: map<Image, Job<Checksum>>) {
    forall i :: Fits(LedgerOf(log, i), jobs, i)
  }

  lemma LedgerAppend(log: seq<Event>, e: Event, i: Image)
    ensures LedgerOf(log + [e], i) == Enter(LedgerOf(log, i), e, i)
  {
    assert (log + [e])[..|log|] == log;
  }

  /** The Secrets that a write changes. */
  function SecretsOf(op: Op): set<string> {
    if op.PutSecret? || op.DeleteSecret? then {op.name} else {}
  }

  predicate TouchesMigrations(op: Op) {
    op.CreateMigration? || op.DeleteMigration?
  }

  lemma BalancedByGrowth(log: seq<Event>, a: map<Image, Job<Checksum>>, b: map<Image, Job<Checksum>>)
    requires Balanced(log, a) && Grows(a, b)
    ensures Balanced(log, b)
  {
    forall i ensures Fits(LedgerOf(log, i), b, i) {
      assert Fits(LedgerOf(log, i), a, i);
    }
  }

  lemma BalancedByOther(log: seq<Event>, e: Event, jobs: map<Image, Job<Checksum>>)
    requires Balanced(log, jobs)
    requires e.Began? || e.Saw? || (e.Wrote? && !TouchesMigrations(e.op))
    ensures Balanced(log + [e], jobs)
  {
    forall i ensures Fits(LedgerOf(log + [e], i), jobs, i) {
      LedgerAppend(log, e, i);
      assert Fits(LedgerOf(log, i), jobs, i);
    }
  }

  lemma BalancedByNote(log: seq<Event>, e: Event, jobs: map<Image, Job<Checksum>>)
    requires Balanced(log, jobs) && e.Noted?
    ensures Balanced(log + [e], jobs)
  {
    forall i ensures Fits(LedgerOf(log + [e], i), jobs, i) {
      LedgerAppend(log, e, i);
      assert Fits(LedgerOf(log, i), jobs, i);
    }
  }

  /** Creating is paid for by the absence of the Job; the checksum must be the last one computed. */
  lemma BalancedByCreate(log: seq<Event>, e: Event, jobs: map<Image, Job<Checksum>>)
    requires Balanced(log, jobs)
    requires e.Wrote? && e.op.CreateMigration? && e.op.image !in jobs
    requires LedgerOf(log, e.op.image).last == Some(e.op.checksum)
    ensures Balanced(log + [e], jobs[e.op.image := Fresh(e.op.checksum)])
  {
    var after := jobs[e.op.image := Fresh(e.op.checksum)];
    forall i ensures Fits(LedgerOf(log + [e], i), after, i) {
      LedgerAppend(log, e, i);
      assert Fits(LedgerOf(log, i), jobs, i);
    }
  }

  /** Deleting for a retry needs a checksum that differs from the Job's. */
  lemma BalancedByDelete(log: seq<Event>, e: Event, jobs: map<Image, Job<Checksum>>)
    requires Balanced(log, jobs)
    requires e.Wrote? && e.op.DeleteMigration?
    requires e.op.why.Retry? && e.op.image in jobs ==>
               Some(jobs[e.op.image].annotation) != LedgerOf(log, e.op.image).last
    ensures Balanced(log + [e], jobs - {e.op.image})
  {
    var after := jobs - {e.op.image};
    forall i ensures Fits(LedgerOf(log + [e], i), after, i) {
      LedgerAppend(log, e, i);
      assert Fits(LedgerOf(log, i), jobs, i);
    }
  }
}

/**
 The objects of one Misskey instance as the operator sees them in the cluster,
 and everything that may change them without the operator doing it.

 sha256 is modelled as a free constructor: a hash value is the record of what was
 hashed, so two hashes are equal exactly when their inputs are.
 */
module ClusterState {
  import opened Wrappers

  type Image = string

  /** `name:resourceVersion`, or `name:missing` when there is no such Secret. */
  datatype Version = Version(name: string, at: Option<nat>)

  /** What the object storage meta Job is named after. */
  datatype ObjHash = ObjHash(plan: string, creds: seq<Version>)

  /** What the detector settings in the meta row say. */
  datatype DetMode = Reset | External(url: string) | Managed

  /** What the detector meta Job is named after. */
  datatype DetHash = DetHash(mode: DetMode, settings: string, db: Version, key: Option<Version>)

  /** The config-checksum annotation of a pod template or a migration Job. */
  datatype Checksum =
    Checksum(config: string, versions: seq<Version>, obj: Option<ObjHash>, det: Option<DetHash>)

  /** `written` records that the Job's pod has committed its work at least once. */
  datatype Job<+A> = Job(annotation: A, written: bool, succeeded: nat, failed: nat)

  datatype Phase = Pending | Running | Completed | Failed

  datatype Migrations = Migrations(jobs: map<Image, Job<Checksum>>, backups: map<Image, Phase>)

  /**
   A group of columns of the meta row written by Jobs: the ConfigMap with the SQL
   (by the hash it was rendered for), the Jobs by hash, and whose values are in the row.
   */
  datatype MetaConfig<!H> = MetaConfig(sql: Option<H>, jobs: map<H, Job<()>>, row: Option<H>)

  datatype Role = App | Worker | DetectorRole

  datatype Deployment = Deployment(
    image: Image, checksum: Option<Checksum>, replicas: Option<nat>,
    generation: nat, observed: nat, updated: nat, available: nat)

  datatype Workloads = Workloads(
    deployments: map<Role, Deployment>,
    hpas: set<Role>, scaledObjects: set<Role>, triggerAuths: set<Role>)

  datatype Scale = Scale(min: Option<nat>, keda: bool, auth: bool)

  datatype Component = Component(replicas: Option<nat>, scale: Option<Scale>)

  datatype ObjSpec = ObjSpec(autoConfigure: bool, plan: Option<string>, creds: seq<string>)

  datatype DetSpec =
    | Off
    | ManagedDet(settings: string, image: Image, apiKeySecret: Option<string>, replicas: Option<nat>)
    | ExternalDet(url: string, settings: string, externalKeySecret: string)

  /** The fields of a Misskey resource that the gates read, after the image is resolved. */
  datatype Spec = Spec(
    image: Image, suspend: bool,
    dbManaged: bool, backup: bool, preBackup: bool,
    migrateConfig: string, appConfig: string, secretRefs: seq<string>, dbSecret: string,
    obj: Option<ObjSpec>, det: DetSpec, app: Component, worker: Component)

  datatype World = World(
    spec: Spec, secrets: map<string, nat>, dbReady: bool, redisReady: bool,
    mig: Migrations, obj: MetaConfig<ObjHash>, det: MetaConfig<DetHash>,
    detService: bool, work: Workloads)

  const GENERATED_DETECTOR_SECRET := "sensitive-detector"

  predicate ObjAuto(m: Spec) {
    m.obj.Some? && m.obj.value.autoConfigure
  }

  predicate PreBackupGated(m: Spec) {
    m.preBackup && m.dbManaged && m.backup
  }

  function ModeOf(d: DetSpec): DetMode {
    match d
    case Off => Reset
    case ManagedDet(_, _, _, _) => Managed
    case ExternalDet(url, _, _) => External(url)
  }

  function SettingsOf(d: DetSpec): string {
    match d
    case Off => ""
    case ManagedDet(s, _, _, _) => s
    case ExternalDet(_, s, _) => s
  }

  function KeySecretOf(d: DetSpec): Option<string> {
    match d
    case Off => None
    case ManagedDet(_, _, None, _) => Some(GENERATED_DETECTOR_SECRET)
    case ManagedDet(_, _, Some(name), _) => Some(name)
    case ExternalDet(_, _, name) => Some(name)
  }

  function VersionIn(secrets: map<string, nat>, name: string): Version {
    Version(name, if name in secrets then Some(secrets[name]) else None)
  }

  // ----- What every reachable cluster satisfies -----

  /**
   A Job runs the SQL that is in the ConfigMap, so a Job may only exist beside the
   script it was created for; and what a Job wrote is what the row still says.
   */
  ghost predicate Sound<H>(c: MetaConfig<H>) {
    && (forall h | h in c.jobs :: c.sql == Some(h))
    && (forall h | h in c.jobs && c.jobs[h].written :: c.row == Some(h))
    && (forall h | h in c.jobs && c.jobs[h].succeeded >= 1 :: c.jobs[h].written)
  }

  /** The row holds detector settings of the operator, and they are not the reset ones. */
  predicate RowConfigured(det: MetaConfig<DetHash>) {
    det.row.Some? && det.row.value.mode != Reset
  }

  /** The row points at the managed detector, or a Job that will write that exists. */
  ghost predicate ManagedInUse(det: MetaConfig<DetHash>) {
    || (det.row.Some? && det.row.value.mode == Managed)
    || exists h :: h in det.jobs && h.mode == Managed
  }

  ghost predicate Inv(w: World) {
    && Sound(w.obj)
    && Sound(w.det)
    && (RowConfigured(w.det) ==> w.det.sql.Some?)
    && (ManagedInUse(w.det) ==> w.detService && DetectorRole in w.work.deployments)
  }

  // ----- Steps of the environment -----

  /** A pod of the Job commits its work; the Job is counted succeeded; a pod is counted failed. */
  datatype JobEvent = Writes | Succeeds | Fails

  datatype MigrationEvent =
    | MigrationSucceeds
    | MigrationFails
    | BackupMoves(phase: Phase)

  datatype DeploymentEvent =
    | Autoscale(replicas: nat)
    | Progress(observed: nat, updated: nat, available: nat)

  datatype EnvStep =
    | EditSpec(spec: Spec)
    | Rotate(name: string, version: nat)
    | RemoveSecret(name: string)
    | DatabaseReadiness(ready: bool)
    | RedisReadiness(ready: bool)
    | OnMigration(image: Image, mig: MigrationEvent)
    | OnObjJob(obj: ObjHash, event: JobEvent)
    | OnDetJob(det: DetHash, event: JobEvent)
    | OnDeployment(role: Role, dep: DeploymentEvent)

  function JobStep<H(==)>(c: MetaConfig<H>, h: H, e: JobEvent): MetaConfig<H> {
    if h !in c.jobs then c else
    var j := c.jobs[h];
    match e
    case Writes =>
      if j.succeeded == 0 && c.sql.Some? then
        c.(jobs := c.jobs[h := j.(written := true)], row := c.sql)
      else c
    case Succeeds =>
      if j.written then c.(jobs := c.jobs[h := j.(succeeded := j.succeeded + 1)]) else c
    case Fails => c.(jobs := c.jobs[h := j.(failed := j.failed + 1)])
  }

  function MigrationStep(g: Migrations, i: Image, e: MigrationEvent): Migrations {
    match e
    case MigrationSucceeds =>
      if i !in g.jobs then g else
      var j := g.jobs[i];
      g.(jobs := g.jobs[i := j.(written := true, succeeded := j.succeeded + 1)])
    case MigrationFails =>
      if i !in g.jobs then g else
      var j := g.jobs[i];
      g.(jobs := g.jobs[i := j.(failed := j.failed + 1)])
    case BackupMoves(phase) =>
      if i in g.backups && g.backups[i] != Completed then g.(backups := g.backups[i := phase]) else g
  }

  /** Some autoscaler is in charge of the Deployment. */
  predicate Scaled(work: Workloads, role: Role) {
    role in work.hpas || role in work.scaledObjects
  }

  function DeploymentStep(work: Workloads, role: Role, e: DeploymentEvent): Workloads {
    if role !in work.deployments then work else
    var d := work.deployments[role];
    match e
    case Autoscale(n) =>
      if Scaled(work, role) then
        work.(deployments := work.deployments[role := d.(replicas := Some(n), generation := d.generation + 1)])
      else work
    case Progress(o, u, a) =>
      work.(deployments := work.deployments[role := d.(observed := o, updated := u, available := a)])
  }

  function Env(w: World, e: EnvStep): World {
    match e
    case EditSpec(spec) => w.(spec := spec)
    case Rotate(name, version) => w.(secrets := w.secrets[name := version])
    case RemoveSecret(name) => w.(secrets := w.secrets - {name})
    case DatabaseReadiness(ready) => w.(dbReady := ready)
    case RedisReadiness(ready) => w.(redisReady := ready)
    case OnMigration(i, ev) => w.(mig := MigrationStep(w.mig, i, ev))
    case OnObjJob(h, ev) => w.(obj := JobStep(w.obj, h, ev))
    case OnDetJob(h, ev) => w.(det := JobStep(w.det, h, ev))
    case OnDeployment(role, ev) => w.(work := DeploymentStep(w.work, role, ev))
  }

  /** The Secrets that a step changes. */
  function SecretsIn(e: EnvStep): set<string> {
    if e.Rotate? || e.RemoveSecret? then {e.name} else {}
  }

  // ----- What the environment cannot do -----

  ghost predicate Grows<K, A>(a: map<K, Job<A>>, b: map<K, Job<A>>) {
    && a.Keys == b.Keys
    && forall k | k in a ::
         && a[k].annotation == b[k].annotation
         && (a[k].written ==> b[k].written)
         && a[k].succeeded <= b[k].succeeded
         && a[k].failed <= b[k].failed
  }

  ghost predicate KeepsMigrations(a: Migrations, b: Migrations) {
    && Grows(a.jobs, b.jobs)
    && a.backups.Keys == b.backups.Keys
    && forall i | i in a.backups && a.backups[i] == Completed :: b.backups[i] == Completed
  }

  ghost predicate KeepsMeta<H>(a: MetaConfig<H>, b: MetaConfig<H>) {
    && a.sql == b.sql
    && Grows(a.jobs, b.jobs)
    && (b.row != a.row ==> b.row.Some? && b.row.value in a.jobs)
  }

  ghost predicate KeepsWork(a: Workloads, b: Workloads) {
    && a.deployments.Keys == b.deployments.Keys
    && a.hpas == b.hpas && a.scaledObjects == b.scaledObjects && a.triggerAuths == b.triggerAuths
    && forall r | r in a.deployments ::
         && a.deployments[r].image == b.deployments[r].image
         && a.deployments[r].checksum == b.deployments[r].checksum
         && (!Scaled(a, r) ==> a.deployments[r].replicas == b.deployments[r].replicas)
  }

  /** The same of one role. */
  ghost predicate KeepsRole(a: Workloads, b: Workloads, r: Role) {
    && (r in a.hpas <==> r in b.hpas) && (r in a.scaledObjects <==> r in b.scaledObjects)
    && (r in a.triggerAuths <==> r in b.triggerAuths)
    && (r in a.deployments <==> r in b.deployments)
    && (r in a.deployments ==>
         && a.deployments[r].image == b.deployments[r].image
         && a.deployments[r].checksum == b.deployments[r].checksum
         && (!Scaled(a, r) ==> a.deployments[r].replicas == b.deployments[r].replicas))
  }

  ghost predicate Keeps(a: World, b: World) {
    && KeepsMigrations(a.mig, b.mig)
    && KeepsMeta(a.obj, b.obj)
    && KeepsMeta(a.det, b.det)
    && a.detService == b.detService
    && KeepsWork(a.work, b.work)
  }

  lemma KeepsTransitive(a: World, b: World, c: World)
    ensures KeepsMigrations(a.mig, b.mig) && KeepsMigrations(b.mig, c.mig) ==> KeepsMigrations(a.mig, c.mig)
    ensures KeepsMeta(a.obj, b.obj) && KeepsMeta(b.obj, c.obj) ==> KeepsMeta(a.obj, c.obj)
    ensures KeepsMeta(a.det, b.det) && KeepsMeta(b.det, c.det) ==> KeepsMeta(a.det, c.det)
    ensures KeepsWork(a.work, b.work) && KeepsWork(b.work, c.work) ==> KeepsWork(a.work, c.work)
    ensures Keeps(a, b) && Keeps(b, c) ==> Keeps(a, c)
  {
  }

  lemma KeepsReflexive(w: World)
    ensures KeepsMigrations(w.mig, w.mig) && KeepsMeta(w.obj, w.obj) && KeepsMeta(w.det, w.det)
    ensures KeepsWork(w.work, w.work)
  {
  }

  lemma JobStepKeeps<H>(c: MetaConfig<H>, h: H, e: JobEvent)
    requires Sound(c)
    ensures Sound(JobStep(c, h, e)) && KeepsMeta(c, JobStep(c, h, e))
  {
  }

  lemma MigrationStepKeeps(g: Migrations, i: Image, e: MigrationEvent)
    ensures KeepsMigrations(g, MigrationStep(g, i, e))
  {
  }

  lemma DeploymentStepKeeps(work: Workloads, role: Role, e: DeploymentEvent)
    ensures KeepsWork(work, DeploymentStep(work, role, e))
  {
  }

  /** The invariant only looks at the meta configs and at which detector objects exist. */
  lemma InvKept(w: World, x: World)
    requires Inv(w) && Keeps(w, x) && Sound(x.obj) && Sound(x.det)
    ensures Inv(x)
  {
    if x.det.row != w.det.row {
      assert x.det.row.value in w.det.jobs;
    }
  }

  /** One step of the environment keeps the invariant and everything the operator relies on. */
  lemma EnvKeeps(w: World, e: EnvStep)
    requires Inv(w)
    ensures Inv(Env(w, e)) && Keeps(w, Env(w, e))
    ensures SecretsIn(e) == {} ==> Env(w, e).secrets == w.secrets
    ensures forall n | n !in SecretsIn(e) :: VersionIn(w.secrets, n) == VersionIn(Env(w, e).secrets, n)
  {
    hide KeepsMigrations, KeepsMeta, KeepsWork, Sound, MigrationStep, JobStep, DeploymentStep;
    var x := Env(w, e);
    KeepsReflexive(w);
    match e {
      case OnMigration(i, ev) => MigrationStepKeeps(w.mig, i, ev);
      case OnObjJob(h, ev) => JobStepKeeps(w.obj, h, ev);
      case OnDetJob(h, ev) => JobStepKeeps(w.det, h, ev);
      case OnDeployment(role, ev) => DeploymentStepKeeps(w.work, role, ev);
      case _ =>
    }
    InvKept(w, x);
  }
}

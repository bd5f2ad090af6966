/** The Jobs that write object storage and detector settings into the meta row. */
module MetaRow {
  import opened Wrappers
  import opened ClusterState
  import opened History
  import opened Cluster

  lemma MigrationDoneKept(a: View, b: View, image: Image)
    requires Moved(a, b, Nothing) || Moved(a, b, ObjectStorageArea) || Moved(a, b, DetectorArea)
          || Moved(a, b, WorkloadArea)
    requires MigrationDone(a.w.mig, image)
    ensures MigrationDone(b.w.mig, image)
    ensures a.facts.db == b.facts.db && a.facts.redis == b.facts.redis
  {
  }

  /** A finished Job stays finished, and keeps the row, while the operator does not touch it. */
  lemma MetaDoneKept<H>(a: MetaConfig<H>, b: MetaConfig<H>, h: H)
    requires MetaDone(a, h) && KeepsMeta(a, b) && Sound(b)
    ensures MetaDone(b, h)
  {
  }

  lemma SuccessKept<H>(a: MetaConfig<H>, b: MetaConfig<H>)
    requires KeepsMeta(a, b)
    ensures forall h | Succeeded(a.jobs, h) :: Succeeded(b.jobs, h)
  {
  }

  // ----- Object storage -----

  /** objectStorageHash, with credentialSecretVersions inlined. */
  method ObjectStorageHash(c: Cluster, m: Spec) returns (h: ObjHash)
    requires c.Valid() && ObjAuto(m) && m.obj.value.plan.Some?
    modifies c
    ensures c.Valid() && Moved(old(c.Now()), c.Now(), Nothing) && c.log == old(c.log)
    ensures ObjHashFor(m, h, Within(c.facts), c.w.secrets)
  {
    hide Calm, Eased, Cluster.Valid, KeepsMigrations, KeepsMeta, KeepsWork;
    var names := m.obj.value.creds;
    var versions: seq<Version> := [];
    Idle(c.Now(), Nothing);
    for i := 0 to |names|
      invariant c.Valid() && Moved(old(c.Now()), c.Now(), Nothing) && c.log == old(c.log)
      invariant VersionsOk(Within(c.facts), c.w.secrets, names[..i], versions)
    {
      ghost var v := c.Now();
      var version := c.CredentialVersion(names[i]);
      Compose(old(c.Now()), v, c.Now(), Nothing, Nothing);
      VersionsKept(v, c.Now(), names[..i], versions);
      versions := versions + [version];
      assert names[..i + 1] == names[..i] + [names[i]];
    }
    assert names[..|names|] == names;
    h := ObjHash(m.obj.value.plan.value, versions);
  }

  method DeleteOneObjJob(c: Cluster, m: Spec, h: ObjHash) returns (ok: bool)
    requires c.Valid()
    modifies c
    ensures c.Valid() && Extends(old(c.log), c.log, m)
    ensures Moved(old(c.Now()), c.Now(), ObjectStorageArea)
    ensures c.w.obj.jobs.Keys <= old(c.w.obj.jobs.Keys)
    ensures RowWithin(old(c.w.obj), c.w.obj)
    ensures forall k | k != h && Succeeded(old(c.w.obj.jobs), k) :: Succeeded(c.w.obj.jobs, k)
    ensures ok ==> h !in c.w.obj.jobs
    ensures Calm(old(c.script)) ==> ok
  {
    hide Calm, Eased, Balanced, Honest, Inv, KeepsMigrations, KeepsWork, Rooted, FactsBacked,
      NextView, Stirred, NextAnswer;
    ghost var took, before;
    ok, took, before := c.Write(DeleteObjJob(h), m);
    DeleteObjJobSafe(before, h);
  }

  lemma DeleteObjJobSafe(w: World, h: ObjHash)
    requires Inv(w)
    ensures Inv(Do(w, DeleteObjJob(h)))
  {
  }

  /** A change of the object storage Jobs or their SQL is safe when it leaves them consistent. */
  lemma ObjStorageSafe(w: World, op: Op)
    requires Inv(w) && AreaOf(op).ObjectStorageArea? && Sound(Do(w, op).obj)
    ensures Inv(Do(w, op))
  {
  }

  lemma RowKept<H>(a: MetaConfig<H>, b: MetaConfig<H>)
    requires KeepsMeta(a, b)
    ensures RowWithin(a, b) && a.jobs.Keys == b.jobs.Keys
  {
  }

  /** cleanupObjectStorageJobs: deletes every Job but `keep`. */
  method CleanupObjJobs(c: Cluster, m: Spec, keep: Option<ObjHash>) returns (ok: bool)
    requires c.Valid()
    modifies c
    ensures c.Valid() && Extends(old(c.log), c.log, m)
    ensures Moved(old(c.Now()), c.Now(), ObjectStorageArea)
    ensures c.w.obj.jobs.Keys <= old(c.w.obj.jobs.Keys) && RowWithin(old(c.w.obj), c.w.obj)
    ensures ok ==> forall h | h in c.w.obj.jobs :: keep == Some(h)
    ensures keep.Some? && Succeeded(old(c.w.obj.jobs), keep.value) ==> Succeeded(c.w.obj.jobs, keep.value)
    ensures Calm(old(c.script)) ==> ok
  {
    hide Calm, Eased, Cluster.Valid, KeepsMigrations, KeepsMeta, KeepsWork;
    var listed := c.ListObjJobs();
    Broaden(old(c.Now()), c.Now(), ObjectStorageArea);
    SuccessKept(old(c.w.obj), c.w.obj);
    RowKept(old(c.w.obj), c.w.obj);
    if listed.None? { return false; }
    var todo := listed.value;
    while todo != {}
      invariant c.Valid() && Extends(old(c.log), c.log, m)
      invariant Moved(old(c.Now()), c.Now(), ObjectStorageArea)
      invariant c.w.obj.jobs.Keys <= old(c.w.obj.jobs.Keys) && RowWithin(old(c.w.obj), c.w.obj)
      invariant forall h | h in c.w.obj.jobs :: h in todo || keep == Some(h)
      invariant keep.Some? && Succeeded(old(c.w.obj.jobs), keep.value) ==> Succeeded(c.w.obj.jobs, keep.value)
      decreases todo
    {
      var h :| h in todo;
      todo := todo - {h};
      if keep != Some(h) {
        ghost var v := c.Now();
        ok := DeleteOneObjJob(c, m, h);
        Compose(old(c.Now()), v, c.Now(), ObjectStorageArea, ObjectStorageArea);
        if !ok { return; }
      }
    }
    ok := true;
  }

  /** Applies the SQL ConfigMap once only Jobs of the same hash are left. */
  method PutObjScript(c: Cluster, m: Spec, h: ObjHash) returns (ok: bool)
    requires c.Valid() && forall k | k in c.w.obj.jobs :: k == h
    modifies c
    ensures c.Valid() && Extends(old(c.log), c.log, m)
    ensures Moved(old(c.Now()), c.Now(), ObjectStorageArea)
    ensures c.w.obj.jobs.Keys == old(c.w.obj.jobs.Keys)
    ensures forall k | Succeeded(old(c.w.obj.jobs), k) :: Succeeded(c.w.obj.jobs, k)
    ensures ok ==> c.w.obj.sql == Some(h)
    ensures Calm(old(c.script)) ==> ok
  {
    hide Calm, Eased, Balanced, Honest, KeepsMigrations, KeepsWork, Rooted, FactsBacked,
      NextView, Stirred, NextAnswer;
    ghost var took, before;
    ok, took, before := c.Write(PutObjSql(h), m);
  }

  method CreateObjectStorageJob(c: Cluster, m: Spec, h: ObjHash) returns (ok: bool)
    requires c.Valid() && !m.suspend && c.facts.DbReady() && MigrationDone(c.w.mig, m.image)
    requires c.w.obj.jobs.Keys == {} && c.w.obj.sql == Some(h)
    modifies c
    ensures c.Valid() && Extends(old(c.log), c.log, m)
    ensures Moved(old(c.Now()), c.Now(), ObjectStorageArea)
    ensures ok ==> h in c.w.obj.jobs
    ensures Calm(old(c.script)) ==> ok
  {
    hide Calm, Eased, Balanced, Honest, Inv, KeepsMigrations, KeepsWork, MigrationDone, Rooted, FactsBacked,
      NextView, Stirred, NextAnswer;
    ghost var took, before;
    ok, took, before := c.Write(CreateObjJob(h), m);
    assert before.obj.jobs == map[];
    MigrationDoneKept(old(c.Now()), View(before, c.facts, c.script), m.image);
    ObjStorageSafe(before, CreateObjJob(h));
  }

  /** The part of reconcileObjectStorage after the old Jobs are gone and the SQL is in place. */
  method AwaitObjJob(c: Cluster, m: Spec, h: ObjHash) returns (r: Option<bool>)
    requires c.Valid() && !m.suspend && c.facts.DbReady() && MigrationDone(c.w.mig, m.image)
    requires c.w.obj.sql == Some(h) && forall k | k in c.w.obj.jobs :: k == h
    modifies c
    ensures c.Valid() && Extends(old(c.log), c.log, m)
    ensures Moved(old(c.Now()), c.Now(), ObjectStorageArea)
    ensures r == Some(true) ==> MetaDone(c.w.obj, h)
    ensures r == Some(false) ==> h in c.w.obj.jobs && !Succeeded(old(c.w.obj.jobs), h)
    ensures Calm(old(c.script)) ==> r.Some?
  {
    hide Calm, Eased, KeepsMigrations, KeepsWork, EventOk, Balanced, Rooted, FactsBacked;
    ghost var v0 := c.Now();
    var job := c.ReadObjJob(h);
    ghost var v1 := c.Now();
    Broaden(v0, v1, ObjectStorageArea);
    MigrationDoneKept(v0, v1, m.image);
    match job {
      case Unread => return None;
      case NotFound =>
        var ok := CreateObjectStorageJob(c, m, h);
        Compose(v0, v1, c.Now(), Nothing, ObjectStorageArea);
        return if ok then Some(false) else None;
      case Found(j) => return Some(j.succeeded >= 1);
    }
  }

  /** The Job that will write the wanted object storage settings exists. */
  ghost predicate ObjPending(m: Spec, w: World, t: Trust) {
    exists h :: h in w.obj.jobs && ObjHashFor(m, h, t, w.secrets)
  }

  /** If nothing stirred, the Job that was done at the start is the one the pass looks for. */
  lemma QuietSuccess(m: Spec, a: View, b: View, h: ObjHash)
    requires Moved(a, b, Nothing) && ObjHashFor(m, h, Within(b.facts), b.w.secrets)
    ensures b.facts.quiet && ObjConfigured(m, a.w, Exact) ==> Succeeded(b.w.obj.jobs, h)
  {
    hide Calm, Eased, KeepsMigrations, KeepsWork, ObjHashFor, VersionsOk;
    if b.facts.quiet && ObjConfigured(m, a.w, Exact) {
      assert ObjAuto(m) by { ObjIsAuto(m, h, b); }
      var k :| MetaDone(a.w.obj, k) && ObjHashFor(m, k, Exact, a.w.secrets);
      QuietObj(m, h, b.facts, b.w.secrets);
      SameObjHash(m, h, k, Exact, b.w.secrets);
    }
  }

  lemma ObjIsAuto(m: Spec, h: ObjHash, b: View)
    requires ObjHashFor(m, h, Within(b.facts), b.w.secrets)
    ensures ObjAuto(m)
  {
  }

  /** reconcileObjectStorage. `Some(true)`: the row holds the planned values. */
  method ReconcileObjectStorage(c: Cluster, m: Spec) returns (r: Option<bool>)
    requires c.Valid() && !m.suspend && c.facts.DbReady() && MigrationDone(c.w.mig, m.image) && ObjAuto(m)
    modifies c
    ensures c.Valid() && Extends(old(c.log), c.log, m)
    ensures Moved(old(c.Now()), c.Now(), ObjectStorageArea)
    ensures r == Some(true) ==> ObjConfigured(m, c.w, Within(c.facts))
    ensures r == Some(false) ==> ObjPending(m, c.w, Within(c.facts))
    ensures r == Some(false) && c.facts.quiet ==> !ObjConfigured(m, old(c.w), Exact)
    ensures Calm(old(c.script)) ==> (m.obj.value.plan.Some? ==> r.Some?)
  {
    hide Calm, Moved, Cluster.Valid, MigrationDone, ObjHashFor, ObjConfigured, MetaDone, Succeeded;
    ghost var v0 := c.Now();
    Idle(v0, ObjectStorageArea);
    if m.obj.value.plan.None? { return None; }
    var h := ObjectStorageHash(c, m);
    ghost var v1 := c.Now();
    QuietSuccess(m, v0, v1, h);
    StaysCalm(v0, v1, Nothing);
    var ok := CleanupObjJobs(c, m, Some(h));
    ghost var v2 := c.Now();
    Compose(v0, v1, v2, Nothing, ObjectStorageArea);
    StaysCalm(v0, v2, ObjectStorageArea);
    if !ok { return None; }
    ok := PutObjScript(c, m, h);
    ghost var v3 := c.Now();
    Compose(v1, v2, v3, ObjectStorageArea, ObjectStorageArea);
    Compose(v0, v1, v3, Nothing, ObjectStorageArea);
    StaysCalm(v0, v3, ObjectStorageArea);
    if !ok { return None; }
    MigrationDoneKept(v0, v3, m.image);
    r := AwaitObjJob(c, m, h);
    Compose(v0, v3, c.Now(), ObjectStorageArea, ObjectStorageArea);
    ObjHashThrough(m, v1, v3, c.Now(), h);
  }

  /** The hash is still that of `m`, and what is written by it is written for `m`. */
  lemma ObjHashThrough(m: Spec, a: View, b: View, c: View, h: ObjHash)
    requires ObjHashFor(m, h, Within(a.facts), a.w.secrets) && Moved(a, b, ObjectStorageArea) && Moved(b, c, ObjectStorageArea)
    ensures MetaDone(c.w.obj, h) ==> ObjConfigured(m, c.w, Within(c.facts))
    ensures h in c.w.obj.jobs ==> ObjPending(m, c.w, Within(c.facts))
    ensures c.facts.quiet ==> a.facts.quiet
  {
    hide KeepsMigrations, KeepsMeta, KeepsWork, Calm, ObjHashFor, MetaDone, Steady;
    ObjHashKept(a, b, m, h);
    ObjHashKept(b, c, m, h);
  }

  method DropObjScript(c: Cluster, m: Spec) returns (ok: bool)
    requires c.Valid() && c.w.obj.jobs.Keys == {}
    modifies c
    ensures c.Valid() && Extends(old(c.log), c.log, m)
    ensures Moved(old(c.Now()), c.Now(), ObjectStorageArea)
    ensures c.w.obj.row == old(c.w.obj.row) && c.w.obj.jobs.Keys == {}
    ensures ok ==> c.w.obj.sql.None?
    ensures Calm(old(c.script)) ==> ok
  {
    hide Calm, Eased, Balanced, Honest, KeepsMigrations, KeepsWork, Rooted, FactsBacked,
      NextView, Stirred, NextAnswer;
    ghost var took, before;
    ok, took, before := c.Write(DeleteObjSql, m);
  }

  /** cleanupObjectStorage: Jobs first, then their SQL; the row only says what one of those Jobs wrote. */
  method CleanupObjectStorage(c: Cluster, m: Spec) returns (ok: bool)
    requires c.Valid()
    modifies c
    ensures c.Valid() && Extends(old(c.log), c.log, m)
    ensures Moved(old(c.Now()), c.Now(), ObjectStorageArea)
    ensures RowWithin(old(c.w.obj), c.w.obj)
    ensures ok ==> c.w.obj.jobs.Keys == {} && c.w.obj.sql.None?
    ensures Calm(old(c.script)) ==> ok
  {
    hide Calm, Eased, Cluster.Valid, KeepsMigrations, KeepsMeta, KeepsWork;
    ghost var v0 := c.Now();
    ok := CleanupObjJobs(c, m, None);
    ghost var v1 := c.Now();
    if !ok { return; }
    assert c.w.obj.jobs.Keys == {};
    ok := DropObjScript(c, m);
    Compose(v0, v1, c.Now(), ObjectStorageArea, ObjectStorageArea);
  }
}

/** The migration Job and the backup that may have to precede it. */
module Migration {
  import opened Wrappers
  import opened ClusterState
  import opened History
  import opened Cluster

  /** Where a pass gives up: `SecretRead` is a failure to read a referenced Secret. */
  datatype Error = ListFailed | SecretRead | ReadFailed | WriteFailed

  /** The history only grew by deletions of Jobs that other images left behind. */
  ghost predicate OnlySuperseded(a: seq<Event>, b: seq<Event>, m: Spec) {
    && a <= b
    && forall i | |a| <= i < |b| ::
         b[i].Wrote? && b[i].op.DeleteMigration? && b[i].op.why.Superseded? && b[i].m == m
  }

  /** The current image's Job and every Backup are left to the environment. */
  ghost predicate KeepsCurrent(a: Migrations, b: Migrations, image: Image) {
    && (image in a.jobs <==> image in b.jobs)
    && (image in a.jobs ==>
         && a.jobs[image].annotation == b.jobs[image].annotation
         && a.jobs[image].succeeded <= b.jobs[image].succeeded)
    && b.jobs.Keys <= a.jobs.Keys
    && a.backups.Keys == b.backups.Keys
    && (image in a.backups && a.backups[image] == Completed ==> b.backups[image] == Completed)
  }

  /** Deletes one Job of another image. */
  method DeleteSuperseded(c: Cluster, m: Spec, image: Image) returns (ok: bool)
    requires c.Valid() && image != m.image
    modifies c
    ensures c.Valid()
    ensures Moved(old(c.Now()), c.Now(), MigrationArea)
    ensures KeepsCurrent(old(c.w.mig), c.w.mig, m.image)
    ensures OnlySuperseded(old(c.log), c.log, m)
    ensures ok ==> image !in c.w.mig.jobs
    ensures Calm(old(c.script)) ==> ok
  {
    hide Calm, Eased, Balanced, KeepsMeta, KeepsWork, Rooted, FactsBacked,
      NextView, Stirred, NextAnswer;
    ghost var took, before;
    ok, took, before := c.Write(DeleteMigration(image, Superseded), m);
    if took {
      BalancedByDelete(old(c.log), Wrote(DeleteMigration(image, Superseded), m, before, c.facts), before.mig.jobs);
    }
  }

  /** The deletions of cleanupOldMigrationJobs, over the names it listed. */
  method DeleteAllSuperseded(c: Cluster, m: Spec, images: set<Image>) returns (ok: bool)
    requires c.Valid() && c.w.mig.jobs.Keys <= images
    modifies c
    ensures c.Valid()
    ensures Moved(old(c.Now()), c.Now(), MigrationArea)
    ensures KeepsCurrent(old(c.w.mig), c.w.mig, m.image)
    ensures OnlySuperseded(old(c.log), c.log, m)
    ensures ok ==> c.w.mig.jobs.Keys <= {m.image}
    ensures Calm(old(c.script)) ==> ok
  {
    hide Calm, Eased, Moved, Cluster.Valid;
    var todo := images;
    Idle(c.Now(), MigrationArea);
    while todo != {}
      invariant c.Valid()
      invariant Moved(old(c.Now()), c.Now(), MigrationArea)
      invariant KeepsCurrent(old(c.w.mig), c.w.mig, m.image)
      invariant OnlySuperseded(old(c.log), c.log, m)
      invariant c.w.mig.jobs.Keys <= todo + {m.image}
      invariant Calm(old(c.script)) ==> Calm(c.script)
      decreases todo
    {
      var image :| image in todo;
      todo := todo - {image};
      if image != m.image {
        ghost var v := c.Now();
        ok := DeleteSuperseded(c, m, image);
        Compose(old(c.Now()), v, c.Now(), MigrationArea, MigrationArea);
        StaysCalm(v, c.Now(), MigrationArea);
        if !ok { return; }
      }
    }
    ok := true;
  }

  lemma CurrentKept(a: Migrations, b: Migrations, image: Image)
    requires KeepsMigrations(a, b)
    ensures KeepsCurrent(a, b, image)
  {
  }

  /** cleanupOldMigrationJobs: keeps only the Job of the current image. */
  method CleanupOldMigrations(c: Cluster, m: Spec) returns (ok: bool)
    requires c.Valid()
    modifies c
    ensures c.Valid()
    ensures Moved(old(c.Now()), c.Now(), MigrationArea)
    ensures KeepsCurrent(old(c.w.mig), c.w.mig, m.image)
    ensures OnlySuperseded(old(c.log), c.log, m)
    ensures ok ==> c.w.mig.jobs.Keys <= {m.image}
    ensures Calm(old(c.script)) ==> ok
  {
    hide Calm, Eased, Cluster.Valid, KeepsMeta, KeepsWork, Grows;
    Idle(c.Now(), MigrationArea);
    var listed := c.ListMigrations();
    ghost var v := c.Now();
    CurrentKept(old(c.w.mig), c.w.mig, m.image);
    if listed.None? { return false; }
    ok := DeleteAllSuperseded(c, m, listed.value);
    Compose(old(c.Now()), v, c.Now(), Nothing, MigrationArea);
  }

  /** referencedSecretVersions: any read that fails for another reason than absence ends it. */
  method ReferencedVersions(c: Cluster, names: seq<string>) returns (r: Option<seq<Version>>)
    requires c.Valid()
    modifies c
    ensures c.Valid() && Moved(old(c.Now()), c.Now(), Nothing) && c.log == old(c.log)
    ensures r.Some? ==> VersionsOk(Within(c.facts), c.w.secrets, names, r.value)
    ensures Calm(old(c.script)) ==> r.Some?
  {
    hide Calm, Eased, Cluster.Valid, KeepsMigrations, KeepsMeta, KeepsWork;
    var versions: seq<Version> := [];
    Idle(c.Now(), Nothing);
    for i := 0 to |names|
      invariant c.Valid() && Moved(old(c.Now()), c.Now(), Nothing) && c.log == old(c.log)
      invariant VersionsOk(Within(c.facts), c.w.secrets, names[..i], versions)
    {
      ghost var v := c.Now();
      var version := c.SecretVersion(names[i]);
      Compose(old(c.Now()), v, c.Now(), Nothing, Nothing);
      VersionsKept(v, c.Now(), names[..i], versions);
      if version.None? { return None; }
      versions := versions + [version.value];
      assert names[..i + 1] == names[..i] + [names[i]];
    }
    assert names[..|names|] == names;
    r := Some(versions);
  }

  /** migrationChecksum, entered into the history when it could be computed. */
  method MigrationChecksum(c: Cluster, m: Spec) returns (r: Option<Checksum>)
    requires c.Valid()
    modifies c
    ensures c.Valid() && Moved(old(c.Now()), c.Now(), Nothing)
    ensures r.None? ==> c.log == old(c.log)
    ensures r.Some? ==> MigrationChecksumFor(m, r.value, Within(c.facts), c.w.secrets)
    ensures r.Some? ==> c.log == old(c.log) + [Noted(m, r.value, c.w, c.facts)]
    ensures r.Some? ==> LedgerOf(c.log, m.image).last == r
    ensures Calm(old(c.script)) ==> r.Some?
  {
    hide Calm, Eased, Moved, Cluster.Valid;
    var versions := ReferencedVersions(c, m.secretRefs);
    if versions.None? { return None; }
    var cs := Checksum(m.migrateConfig, versions.value, None, None);
    c.Note(m, cs);
    r := Some(cs);
  }

  /** The gate before a migration Job may be created. */
  ghost predicate BackupGate(m: Spec, g: Migrations) {
    m.preBackup && m.dbManaged && m.backup && m.image !in g.jobs ==> m.image in g.backups && g.backups[m.image] == Completed
  }

  lemma BackupGateKept(m: Spec, a: Migrations, b: Migrations)
    requires BackupGate(m, a) && KeepsCurrent(a, b, m.image)
    ensures BackupGate(m, b)
  {
  }

  lemma CreateSafe(m: Spec, cs: Checksum, a: View, b: View)
    requires Moved(a, b, Nothing) && Inv(b.w) && !m.suspend && a.facts.DbReady()
    requires BackupGate(m, a.w.mig) && m.image !in a.w.mig.jobs
    requires MigrationChecksumFor(m, cs, Within(a.facts), a.w.secrets)
    ensures EventOk(Wrote(CreateMigration(m.image, cs), m, b.w, b.facts))
    ensures Inv(Do(b.w, CreateMigration(m.image, cs))) && m.image !in b.w.mig.jobs
  {
    hide Calm, Eased, KeepsMeta, KeepsWork;
  }

  /** Creates the Job of the current image after a read that did not find it. */
  method CreateCurrent(c: Cluster, m: Spec, cs: Checksum) returns (ok: bool)
    requires c.Valid() && !m.suspend && c.facts.DbReady()
    requires BackupGate(m, c.w.mig) && m.image !in c.w.mig.jobs
    requires LedgerOf(c.log, m.image).last == Some(cs) && MigrationChecksumFor(m, cs, Within(c.facts), c.w.secrets)
    modifies c
    ensures c.Valid() && Extends(old(c.log), c.log, m)
    ensures Moved(old(c.Now()), c.Now(), MigrationArea)
    ensures ok ==> m.image in c.w.mig.jobs
    ensures Calm(old(c.script)) ==> ok
  {
    hide Calm, Eased, Balanced, KeepsMeta, KeepsWork, Rooted, FactsBacked, Honest, EventOk, Inv, MigrationChecksumFor, Moved,
      NextView, Stirred, NextAnswer;
    ghost var took, before;
    ok, took, before := c.Write(CreateMigration(m.image, cs), m);
    CreateSafe(m, cs, old(c.Now()), View(before, c.facts, c.script));
    if took {
      BalancedByCreate(old(c.log), Wrote(CreateMigration(m.image, cs), m, before, c.facts), before.mig.jobs);
    }
  }

  /** The history grew, and among what was added is the deletion of a failed Job. */
  ghost predicate Retried(a: seq<Event>, b: seq<Event>) {
    exists i :: |a| <= i < |b| && b[i].Wrote? && b[i].op.DeleteMigration? && b[i].op.why.Retry?
  }

  lemma DiscardSafe(m: Spec, seen: Job<Checksum>, cs: Checksum, a: View, b: View)
    requires Moved(a, b, Nothing) && Inv(b.w)
    requires m.image in a.w.mig.jobs && a.w.mig.jobs[m.image] == seen
    requires seen.succeeded == 0 && seen.failed >= 1 && seen.annotation != cs
    requires MigrationChecksumFor(m, cs, Within(a.facts), a.w.secrets)
    ensures EventOk(Wrote(DeleteMigration(m.image, Retry(seen, cs)), m, b.w, b.facts))
    ensures Inv(Do(b.w, DeleteMigration(m.image, Retry(seen, cs))))
    ensures m.image in b.w.mig.jobs && b.w.mig.jobs[m.image].annotation == seen.annotation
  {
    hide Calm, Eased, KeepsMeta, KeepsWork;
  }

  /** Deletes the current image's Job, read as failed on inputs other than `cs`. */
  method DiscardCurrent(c: Cluster, m: Spec, seen: Job<Checksum>, cs: Checksum) returns (ok: bool)
    requires c.Valid()
    requires m.image in c.w.mig.jobs && c.w.mig.jobs[m.image] == seen
    requires seen.succeeded == 0 && seen.failed >= 1 && seen.annotation != cs
    requires LedgerOf(c.log, m.image).last == Some(cs) && MigrationChecksumFor(m, cs, Within(c.facts), c.w.secrets)
    modifies c
    ensures c.Valid() && Extends(old(c.log), c.log, m)
    ensures Moved(old(c.Now()), c.Now(), MigrationArea)
    ensures ok ==> Retried(old(c.log), c.log)
    ensures Calm(old(c.script)) ==> ok
  {
    hide Calm, Eased, Balanced, KeepsMeta, KeepsWork, Rooted, FactsBacked, Honest, EventOk, Inv, MigrationChecksumFor, Moved,
      NextView, Stirred, NextAnswer;
    ghost var took, before;
    var op := DeleteMigration(m.image, Retry(seen, cs));
    ok, took, before := c.Write(op, m);
    DiscardSafe(m, seen, cs, old(c.Now()), View(before, c.facts, c.script));
    if took {
      BalancedByDelete(old(c.log), Wrote(op, m, before, c.facts), before.mig.jobs);
      assert c.log[|old(c.log)|] == Wrote(op, m, before, c.facts);
    }
  }

  /**
   reconcileMigration. `Ok(true)`: the current image's Job is the only one left and has succeeded.
   A Secret that cannot be read ends it before the current image's Job is created or deleted.
   */
  method ReconcileMigration(c: Cluster, m: Spec) returns (r: Result<bool, Error>)
    requires c.Valid() && !m.suspend && c.facts.DbReady() && BackupGate(m, c.w.mig)
    modifies c
    ensures c.Valid() && Extends(old(c.log), c.log, m)
    ensures Moved(old(c.Now()), c.Now(), MigrationArea)
    ensures r == Ok(true) ==> MigrationDone(c.w.mig, m.image)
    ensures r == Ok(false) ==> !Succeeded(old(c.w.mig.jobs), m.image)
    ensures r == Ok(false) ==> m.image in c.w.mig.jobs || Retried(old(c.log), c.log)
    ensures r == Err(SecretRead) ==>
      OnlySuperseded(old(c.log), c.log, m) && KeepsCurrent(old(c.w.mig), c.w.mig, m.image)
    ensures Calm(old(c.script)) ==> r.Ok?
  {
    ghost var v0 := c.Now();
    var cleaned := CleanupOldMigrations(c, m);
    ghost var v1 := c.Now();
    if !cleaned { return Err(ListFailed); }
    BackupGateKept(m, v0.w.mig, v1.w.mig);
    r := ReconcileCurrent(c, m);
    Compose(v0, v1, c.Now(), MigrationArea, MigrationArea);
  }

  /** The part of reconcileMigration after the cleanup. */
  method ReconcileCurrent(c: Cluster, m: Spec) returns (r: Result<bool, Error>)
    requires c.Valid() && !m.suspend && c.facts.DbReady() && BackupGate(m, c.w.mig)
    requires c.w.mig.jobs.Keys <= {m.image}
    modifies c
    ensures c.Valid() && Extends(old(c.log), c.log, m)
    ensures Moved(old(c.Now()), c.Now(), MigrationArea)
    ensures r == Ok(true) ==> MigrationDone(c.w.mig, m.image)
    ensures r == Ok(false) ==> !Succeeded(old(c.w.mig.jobs), m.image)
    ensures r == Ok(false) ==> m.image in c.w.mig.jobs || Retried(old(c.log), c.log)
    ensures r == Err(SecretRead) ==> c.log == old(c.log) && KeepsCurrent(old(c.w.mig), c.w.mig, m.image)
    ensures Calm(old(c.script)) ==> r.Ok?
  {
    hide Calm, Eased, Cluster.Valid, KeepsMeta, KeepsWork, LedgerOf;
    ghost var v0 := c.Now();
    var cs := MigrationChecksum(c, m);
    ghost var v1 := c.Now();
    CurrentKept(v0.w.mig, v1.w.mig, m.image);
    if cs.None? { return Err(SecretRead); }
    ghost var log1 := c.log;
    var job := c.ReadMigration(m.image);
    ghost var v2 := c.Now();
    Compose(v0, v1, v2, Nothing, Nothing);
    CurrentKept(v1.w.mig, v2.w.mig, m.image);
    ChecksumKept(v1, v2, m, cs.value);
    r := ActOn(c, m, cs.value, job);
    Compose(v0, v2, c.Now(), Nothing, MigrationArea);
  }

  lemma ChecksumKept(a: View, b: View, m: Spec, cs: Checksum)
    requires MigrationChecksumFor(m, cs, Within(a.facts), a.w.secrets) && Moved(a, b, Nothing)
    ensures MigrationChecksumFor(m, cs, Within(b.facts), b.w.secrets)
  {
    hide Calm, Eased, KeepsMigrations, KeepsMeta, KeepsWork, VersionsOk;
    VersionsKept(a, b, m.secretRefs, cs.versions);
  }

  /** What the read of the current image's Job calls for. */
  method ActOn(c: Cluster, m: Spec, cs: Checksum, job: Read<Job<Checksum>>) returns (r: Result<bool, Error>)
    requires c.Valid() && !m.suspend && c.facts.DbReady() && BackupGate(m, c.w.mig)
    requires c.w.mig.jobs.Keys <= {m.image}
    requires job.Found? ==> m.image in c.w.mig.jobs && c.w.mig.jobs[m.image] == job.value
    requires job.NotFound? ==> m.image !in c.w.mig.jobs
    requires LedgerOf(c.log, m.image).last == Some(cs) && MigrationChecksumFor(m, cs, Within(c.facts), c.w.secrets)
    modifies c
    ensures c.Valid() && Extends(old(c.log), c.log, m)
    ensures Moved(old(c.Now()), c.Now(), MigrationArea)
    ensures r == Ok(true) ==> MigrationDone(c.w.mig, m.image)
    ensures r == Ok(false) ==> !Succeeded(old(c.w.mig.jobs), m.image)
    ensures r == Ok(false) ==> m.image in c.w.mig.jobs || Retried(old(c.log), c.log)
    ensures r != Err(SecretRead)
    ensures Calm(old(c.script)) ==> (!job.Unread? ==> r.Ok?)
  {
    hide Calm, Eased, Cluster.Valid, Moved, LedgerOf, MigrationChecksumFor;
    Idle(c.Now(), MigrationArea);
    match job {
      case Unread => return Err(ReadFailed);
      case NotFound =>
        var ok := CreateCurrent(c, m, cs);
        return if ok then Ok(false) else Err(WriteFailed);
      case Found(j) =>
        if j.succeeded == 0 && j.failed >= 1 && j.annotation != cs {
          var ok := DiscardCurrent(c, m, j, cs);
          return if ok then Ok(false) else Err(WriteFailed);
        }
        return Ok(j.succeeded >= 1);
    }
  }

  // ----- The backup before a migration -----

  /** Neither the gate nor a success of the current image's Job is lost. */
  ghost predicate StillOpen(m: Spec, a: Migrations, b: Migrations) {
    && (BackupGate(m, a) ==> BackupGate(m, b))
    && (Succeeded(a.jobs, m.image) ==> Succeeded(b.jobs, m.image))
  }

  lemma StillOpenKept(m: Spec, a: Migrations, b: Migrations)
    requires KeepsMigrations(a, b)
    ensures StillOpen(m, a, b)
  {
  }

  /** Deletes one pre-migration Backup. */
  method DeleteOldBackup(c: Cluster, m: Spec, image: Image) returns (ok: bool)
    requires c.Valid() && image != m.image
    modifies c
    ensures c.Valid() && Extends(old(c.log), c.log, m)
    ensures Moved(old(c.Now()), c.Now(), MigrationArea)
    ensures StillOpen(m, old(c.w.mig), c.w.mig)
    ensures c.w.mig.backups.Keys <= old(c.w.mig.backups.Keys) && (ok ==> image !in c.w.mig.backups)
    ensures Calm(old(c.script)) ==> ok
  {
    hide Calm, Eased, Balanced, Honest, KeepsMeta, KeepsWork, Rooted, FactsBacked,
      NextView, Stirred, NextAnswer;
    ghost var took, before;
    ok, took, before := c.Write(DeleteBackup(image), m);
  }

  /** cleanupOldPreMigrationBackups: keeps only the Backup of the current image. */
  method CleanupOldBackups(c: Cluster, m: Spec) returns (ok: bool)
    requires c.Valid()
    modifies c
    ensures c.Valid() && Extends(old(c.log), c.log, m)
    ensures Moved(old(c.Now()), c.Now(), MigrationArea)
    ensures StillOpen(m, old(c.w.mig), c.w.mig)
    ensures ok ==> c.w.mig.backups.Keys <= {m.image}
    ensures Calm(old(c.script)) ==> ok
  {
    hide Calm, Eased, Cluster.Valid, KeepsMigrations, KeepsMeta, KeepsWork, BackupGate;
    var listed := c.ListBackups();
    Broaden(old(c.Now()), c.Now(), MigrationArea);
    StillOpenKept(m, old(c.w.mig), c.w.mig);
    if listed.None? { return false; }
    var todo := listed.value;
    while todo != {}
      invariant c.Valid() && Extends(old(c.log), c.log, m)
      invariant Moved(old(c.Now()), c.Now(), MigrationArea)
      invariant StillOpen(m, old(c.w.mig), c.w.mig)
      invariant c.w.mig.backups.Keys <= todo + {m.image}
      decreases todo
    {
      var image :| image in todo;
      todo := todo - {image};
      if image != m.image {
        ghost var v := c.Now();
        ok := DeleteOldBackup(c, m, image);
        Compose(old(c.Now()), v, c.Now(), MigrationArea, MigrationArea);
        if !ok { return; }
      }
    }
    ok := true;
  }

  method CreateCurrentBackup(c: Cluster, m: Spec) returns (ok: bool)
    requires c.Valid() && !m.suspend && c.facts.DbReady()
    modifies c
    ensures c.Valid() && Extends(old(c.log), c.log, m)
    ensures Moved(old(c.Now()), c.Now(), MigrationArea)
    ensures ok ==> m.image in c.w.mig.backups
    ensures c.w.mig.backups.Keys <= old(c.w.mig.backups.Keys) + {m.image}
    ensures Succeeded(old(c.w.mig.jobs), m.image) ==> Succeeded(c.w.mig.jobs, m.image)
    ensures Calm(old(c.script)) ==> (m.image !in old(c.w.mig.backups) ==> ok)
  {
    hide Calm, Eased, Balanced, Honest, KeepsMeta, KeepsWork, Rooted, FactsBacked,
      NextView, Stirred, NextAnswer;
    ghost var took, before;
    ok, took, before := c.Write(CreateBackup(m.image), m);
  }

  /** The part of reconcilePreMigrationBackup after the cleanup. */
  method AwaitBackup(c: Cluster, m: Spec) returns (r: Option<bool>)
    requires c.Valid() && !m.suspend && c.facts.DbReady() && PreBackupGated(m)
    modifies c
    ensures c.Valid() && Extends(old(c.log), c.log, m)
    ensures Moved(old(c.Now()), c.Now(), MigrationArea)
    ensures r == Some(true) ==> BackupGate(m, c.w.mig)
    ensures c.w.mig.backups.Keys <= old(c.w.mig.backups.Keys) + {m.image}
    ensures r == Some(false) ==> m.image in c.w.mig.backups && !BackupGate(m, old(c.w.mig))
    ensures Succeeded(old(c.w.mig.jobs), m.image) ==> Succeeded(c.w.mig.jobs, m.image)
    ensures Calm(old(c.script)) ==> r.Some?
  {
    hide Calm, Eased, Cluster.Valid, KeepsMeta, KeepsWork;
    ghost var v0 := c.Now();
    var job := c.ReadMigration(m.image);
    Broaden(v0, c.Now(), MigrationArea);
    if job.Found? { return Some(true); }
    if job.Unread? { return None; }
    ghost var v1 := c.Now();
    var backup := c.ReadBackup(m.image);
    ghost var v2 := c.Now();
    Compose(v0, v1, v2, Nothing, Nothing);
    Broaden(v0, v2, MigrationArea);
    match backup {
      case Unread => return None;
      case NotFound =>
        var ok := CreateCurrentBackup(c, m);
        Compose(v0, v2, c.Now(), Nothing, MigrationArea);
        return if ok then Some(false) else None;
      case Found(phase) => return Some(phase == Completed);
    }
  }

  /** reconcilePreMigrationBackup. `Some(true)` opens the gate, `None` ends the pass. */
  method ReconcilePreBackup(c: Cluster, m: Spec) returns (r: Option<bool>)
    requires c.Valid() && !m.suspend && c.facts.DbReady()
    modifies c
    ensures c.Valid() && Extends(old(c.log), c.log, m)
    ensures Moved(old(c.Now()), c.Now(), MigrationArea)
    ensures r == Some(true) ==> BackupGate(m, c.w.mig)
    ensures r.Some? && m.preBackup && m.dbManaged && m.backup ==> c.w.mig.backups.Keys <= {m.image}
    ensures r == Some(false) ==> m.image in c.w.mig.backups && !BackupGate(m, old(c.w.mig))
    ensures Succeeded(old(c.w.mig.jobs), m.image) ==> Succeeded(c.w.mig.jobs, m.image)
    ensures Calm(old(c.script)) ==> r.Some?
  {
    hide Calm, Eased, Cluster.Valid, KeepsMigrations, KeepsMeta, KeepsWork;
    Idle(c.Now(), MigrationArea);
    if !PreBackupGated(m) { return Some(true); }
    ghost var v0 := c.Now();
    var cleaned := CleanupOldBackups(c, m);
    if !cleaned { return None; }
    ghost var v1 := c.Now();
    r := AwaitBackup(c, m);
    Compose(v0, v1, c.Now(), MigrationArea, MigrationArea);
  }
}

/**
 Where the pod templates and migration Jobs of any reachable world come from: from the world in
 which the history began, or from a write in the history that met its gate.
 */
module Provenance {
  import opened Wrappers
  import opened ClusterState
  import opened History

  // ----- Pod templates -----

  datatype Template = Template(image: Image, checksum: Option<Checksum>)

  function TemplateIn(w: World, role: Role): Option<Template> {
    if role in w.work.deployments
    then Some(Template(w.work.deployments[role].image, w.work.deployments[role].checksum)) else None
  }

  /** A write of the role's Deployment by a pass that is not suspended. */
  predicate Rolls(e: Event, role: Role) {
    e.Wrote? && e.op.PutDeployment? && e.op.role == role && !e.m.suspend
  }

  function TemplateOf(e: Event): Template
    requires e.Wrote? && e.op.PutDeployment?
  {
    Template(e.op.next.image, e.op.next.checksum)
  }

  /** The template the history tells of: that of the last roll, or the one at the start. */
  ghost function TemplateBy(start: World, log: seq<Event>, role: Role): Option<Template> {
    if log == [] then TemplateIn(start, role)
    else
      var e := log[|log| - 1];
      if Rolls(e, role) then Some(TemplateOf(e))
      else TemplateBy(start, log[..|log| - 1], role)
  }

  /** A suspended pass sets nothing but the replicas of what it has read. */
  lemma SuspendedPut(e: Event)
    requires e.Wrote? && EventOk(e) && Accepts(e.w, e.op) && e.op.PutDeployment? && e.m.suspend
    ensures e.op.role in e.w.work.deployments
    ensures e.op.next.image == e.w.work.deployments[e.op.role].image
    ensures e.op.next.checksum == e.w.work.deployments[e.op.role].checksum
  {
  }

  lemma OtherWrites(w: World, op: Op, role: Role)
    requires !(op.PutDeployment? && op.role == role) && !role.DetectorRole?
    ensures TemplateIn(Do(w, op), role) == TemplateIn(w, role)
  {
  }

  /** Of all writes only a roll changes a template. */
  lemma OnlyRollsChange(e: Event, role: Role)
    requires e.Wrote? && EventOk(e) && Accepts(e.w, e.op) && !role.DetectorRole?
    ensures TemplateIn(Do(e.w, e.op), role) == if Rolls(e, role) then Some(TemplateOf(e)) else TemplateIn(e.w, role)
  {
    hide EventOk, Accepts;
    if e.op.PutDeployment? && e.op.role == role {
      if e.m.suspend {
        SuspendedPut(e);
      }
    } else {
      hide Do;
      OtherWrites(e.w, e.op, role);
    }
  }

  lemma TemplateKept(a: World, b: World, role: Role)
    requires Keeps(a, b)
    ensures TemplateIn(a, role) == TemplateIn(b, role)
  {
    hide KeepsMigrations, KeepsMeta;
  }

  lemma EventOf(log: seq<Event>, i: nat)
    requires Honest(log) && i < |log|
    ensures EventOk(log[i]) && Backed(log[..i], log[i])
  {
  }

  lemma HonestPrefix(log: seq<Event>, n: nat)
    requires Honest(log) && n <= |log|
    ensures Honest(log[..n])
  {
    hide EventOk, Backed;
    forall i | 0 <= i < n ensures EventOk(log[..n][i]) && Backed(log[..n][..i], log[..n][i]) {
      assert log[..n][..i] == log[..i];
    }
  }

  /** The template of app or worker is always the one the history tells of. */
  lemma {:induction false} TemplatesByHistory(start: World, log: seq<Event>, w: World, role: Role)
    requires Honest(log) && Rooted(start, log, w) && !role.DetectorRole?
    ensures TemplateIn(w, role) == TemplateBy(start, log, role)
  {
    hide EventOk, Honest, Keeps, Do, TemplateIn, Accepts, FactsBacked, ChecksumBacked, Inv;
    TemplateKept(Latest(start, log), w, role);
    if log != [] {
      var n := |log| - 1;
      var e := log[n];
      RecordsAreRooted(start, log, n);
      HonestPrefix(log, n);
      EventOf(log, n);
      TemplatesByHistory(start, log[..n], e.w, role);
      if e.Wrote? {
        OnlyRollsChange(e, role);
      }
    }
  }

  ghost predicate LastRoll(log: seq<Event>, role: Role, i: int) {
    0 <= i < |log| && Rolls(log[i], role) && forall j | i < j < |log| :: !Rolls(log[j], role)
  }

  ghost predicate SetBy(log: seq<Event>, role: Role, i: int, t: Option<Template>) {
    LastRoll(log, role, i) && t == Some(TemplateOf(log[i]))
  }

  ghost predicate NeverRolled(log: seq<Event>, role: Role) {
    forall j | 0 <= j < |log| :: !Rolls(log[j], role)
  }

  lemma RollStays(log: seq<Event>, role: Role)
    requires log != [] && !Rolls(log[|log| - 1], role)
    ensures NeverRolled(log[..|log| - 1], role) ==> NeverRolled(log, role)
    ensures forall i, t :: SetBy(log[..|log| - 1], role, i, t) ==> SetBy(log, role, i, t)
  {
    hide Rolls, TemplateOf;
    assert forall j | 0 <= j < |log| - 1 :: log[..|log| - 1][j] == log[j];
  }

  lemma {:induction false} FindRoll(start: World, log: seq<Event>, role: Role)
    ensures (NeverRolled(log, role) && TemplateBy(start, log, role) == TemplateIn(start, role))
      || exists i :: SetBy(log, role, i, TemplateBy(start, log, role))
  {
    hide Rolls, TemplateIn;
    if log != [] {
      var n := |log| - 1;
      if Rolls(log[n], role) {
        assert SetBy(log, role, n, TemplateBy(start, log, role));
      } else {
        FindRoll(start, log[..n], role);
        RollStays(log, role);
        if i :| SetBy(log[..n], role, i, TemplateBy(start, log[..n], role)) {
          assert SetBy(log, role, i, TemplateBy(start, log, role));
        }
      }
    }
  }

  /** The i-th event set this template, through an open gate, in a pass that had seen all ready. */
  ghost predicate GatedRoll(log: seq<Event>, role: Role, i: int, t: Template) {
    && LastRoll(log, role, i)
    && t == Template(log[i].m.image, log[i].op.next.checksum)
    && RollGate(log[i].m, log[i].w, log[i].facts)
    && LookedReady(log, i, Database) && LookedReady(log, i, RedisStore)
  }

  /** The template is from before the history, or was set through an open gate. */
  ghost predicate TemplateGated(start: World, log: seq<Event>, w: World, role: Role) {
    role in w.work.deployments ==>
      || (NeverRolled(log, role) && TemplateIn(w, role) == TemplateIn(start, role))
      || exists i :: GatedRoll(log, role, i, TemplateIn(w, role).value)
  }

  /**
   In every reachable world the template of app or worker is from before the history began, or was
   set, as the last of its kind, while its image's migration was done, both meta groups were written
   and database and Redis had been seen ready.
   */
  lemma TemplatesWereGated(start: World, log: seq<Event>, w: World, role: Role)
    requires Honest(log) && OneSpecAPass(log) && Rooted(start, log, w) && !role.DetectorRole?
    ensures TemplateGated(start, log, w, role)
  {
    hide RollGate, LookedReady, Honest, Rooted, OneSpecAPass, ChecksumFor, RowMatches, Inv, Accepts, Do, FactsBacked;
    TemplatesByHistory(start, log, w, role);
    FindRoll(start, log, role);
    if role in w.work.deployments {
      if i :| SetBy(log, role, i, TemplateBy(start, log, role)) {
        EventOf(log, i);
        RollFollowsReadiness(log, i);
        assert GatedRoll(log, role, i, TemplateIn(w, role).value);
      }
    }
  }

  // ----- Migration Jobs -----

  /** The input checksum of the image's migration Job, if there is one. */
  function MigrationIn(w: World, image: Image): Option<Checksum> {
    if image in w.mig.jobs then Some(w.mig.jobs[image].annotation) else None
  }

  predicate Touches(e: Event, image: Image) {
    e.Wrote? && (e.op.CreateMigration? || e.op.DeleteMigration?) && e.op.image == image
  }

  ghost function MigrationBy(start: World, log: seq<Event>, image: Image): Option<Checksum> {
    if log == [] then MigrationIn(start, image)
    else
      var e := log[|log| - 1];
      if !Touches(e, image) then MigrationBy(start, log[..|log| - 1], image)
      else if e.op.CreateMigration? then Some(e.op.checksum)
      else None
  }

  lemma OnlyTouchesChange(e: Event, image: Image)
    requires e.Wrote?
    ensures MigrationIn(Do(e.w, e.op), image) ==
      if !Touches(e, image) then MigrationIn(e.w, image)
      else if e.op.CreateMigration? then Some(e.op.checksum) else None
  {
  }

  lemma MigrationKept(a: World, b: World, image: Image)
    requires Keeps(a, b)
    ensures MigrationIn(a, image) == MigrationIn(b, image)
  {
    hide KeepsWork, KeepsMeta;
  }

  /** The migration Jobs there are, are always those the history tells of. */
  lemma {:induction false} MigrationsByHistory(start: World, log: seq<Event>, w: World, image: Image)
    requires Rooted(start, log, w)
    ensures MigrationIn(w, image) == MigrationBy(start, log, image)
  {
    hide Keeps, Do, MigrationIn;
    MigrationKept(Latest(start, log), w, image);
    if log != [] {
      var n := |log| - 1;
      RecordsAreRooted(start, log, n);
      MigrationsByHistory(start, log[..n], log[n].w, image);
      if log[n].Wrote? {
        OnlyTouchesChange(log[n], image);
      }
    }
  }

  ghost predicate LastTouch(log: seq<Event>, image: Image, i: int) {
    0 <= i < |log| && Touches(log[i], image) && forall j | i < j < |log| :: !Touches(log[j], image)
  }

  ghost predicate LeftBy(log: seq<Event>, image: Image, i: int, cs: Option<Checksum>) {
    LastTouch(log, image, i) && cs == if log[i].op.CreateMigration? then Some(log[i].op.checksum) else None
  }

  ghost predicate NeverTouched(log: seq<Event>, image: Image) {
    forall j | 0 <= j < |log| :: !Touches(log[j], image)
  }

  lemma TouchStays(log: seq<Event>, image: Image)
    requires log != [] && !Touches(log[|log| - 1], image)
    ensures NeverTouched(log[..|log| - 1], image) ==> NeverTouched(log, image)
    ensures forall i, cs :: LeftBy(log[..|log| - 1], image, i, cs) ==> LeftBy(log, image, i, cs)
  {
    assert forall j | 0 <= j < |log| - 1 :: log[..|log| - 1][j] == log[j];
  }

  lemma {:induction false} FindTouch(start: World, log: seq<Event>, image: Image)
    ensures (NeverTouched(log, image) && MigrationBy(start, log, image) == MigrationIn(start, image))
      || exists i :: LeftBy(log, image, i, MigrationBy(start, log, image))
  {
    hide MigrationIn;
    if log != [] {
      var n := |log| - 1;
      if Touches(log[n], image) {
        assert LeftBy(log, image, n, MigrationBy(start, log, image));
      } else {
        FindTouch(start, log[..n], image);
        TouchStays(log, image);
        if i :| LeftBy(log[..n], image, i, MigrationBy(start, log[..n], image)) {
          assert LeftBy(log, image, i, MigrationBy(start, log, image));
        }
      }
    }
  }

  /** The i-th event created the Job, for its pass's image and inputs, after the backup if one is required. */
  ghost predicate GatedCreation(log: seq<Event>, image: Image, i: int, cs: Checksum) {
    && LastTouch(log, image, i) && log[i].op == CreateMigration(image, cs)
    && log[i].m.image == image && !log[i].m.suspend
    && MigrationChecksumFor(log[i].m, cs, Within(log[i].facts), log[i].w.secrets)
    && (log[i].m.preBackup && log[i].m.dbManaged && log[i].m.backup ==> image in log[i].w.mig.backups && log[i].w.mig.backups[image] == Completed)
    && LookedReady(log, i, Database)
  }

  ghost predicate MigrationGated(start: World, log: seq<Event>, w: World, image: Image) {
    image in w.mig.jobs ==>
      || (NeverTouched(log, image) && MigrationIn(w, image) == MigrationIn(start, image))
      || exists i :: GatedCreation(log, image, i, w.mig.jobs[image].annotation)
  }

  /**
   In every reachable world a migration Job is from before the history began, or was created for its
   pass's image and inputs with the database seen ready and, where one is required, its backup completed.
   */
  lemma MigrationsWereGated(start: World, log: seq<Event>, w: World, image: Image)
    requires Honest(log) && OneSpecAPass(log) && Rooted(start, log, w)
    ensures MigrationGated(start, log, w, image)
  {
    hide LookedReady, Honest, Rooted, OneSpecAPass, MigrationChecksumFor, Inv, Accepts, Do, FactsBacked;
    MigrationsByHistory(start, log, w, image);
    FindTouch(start, log, image);
    if image in w.mig.jobs {
      if i :| LeftBy(log, image, i, MigrationBy(start, log, image)) {
        EventOf(log, i);
        CreationFollowsReadiness(log, i);
        assert GatedCreation(log, image, i, w.mig.jobs[image].annotation);
      }
    }
  }
}

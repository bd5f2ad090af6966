/** What the detector's configuration Job leaves in the meta row, under the names of upstream's columns. */
module DetectorRow {
  import opened Wrappers
  import opened Text
  import opened Psql
  import opened ObjectStorage
  import opened ObjectStorageScript
  import opened ObjectStorageJob
  import opened DetectorJob
  import opened ObjectStorageRow

  /** The text stands there, if it reaches the container unchanged. */
  ghost predicate WordAt(row: Row, column: string, text: string) {
    column in row && (Intact(text) ==> row[column] == Str(text))
  }

  /** The settings of a detector, with 60 seconds, 4 images and medium sensitivity where nothing else is said. */
  ghost predicate RowEnables(d: Detector, secrets: map<Selector, string>, row: Row) {
    && WordAt(row, "sensitiveMediaDetection", d.mode)
    && WordAt(row, "sensitiveMediaDetection" + "Sensitivity", if d.sensitivity == "" then "medium" else d.sensitivity)
    && ValueAt(row, "setSensitive" + "FlagAutomatically", Bool(d.setFlag))
    && ValueAt(row, "enableSensitiveMediaDetection" + "ForVideos", Bool(d.videos))
    && WordAt(row, "sensitiveMediaDetection" + "ApiUrl", d.url)
    && SecretAt(row, "sensitiveMediaDetection" + "ApiKey", d.apiKey, secrets)
    && ValueAt(row, "sensitiveMediaDetection" + "Timeout", Int(if d.timeout == 0 then 60000 else d.timeout))
    && ValueAt(row, "sensitiveMediaDetection" + "MaxImagesPerRequest", Int(if d.maxImages == 0 then 4 else d.maxImages))
  }

  /** No detector: upstream's own values, and neither URL nor key. */
  ghost predicate RowResets(row: Row) {
    && ValueAt(row, "sensitiveMediaDetection", Str("none"))
    && ValueAt(row, "sensitiveMediaDetection" + "Sensitivity", Str("medium"))
    && ValueAt(row, "setSensitive" + "FlagAutomatically", Bool(false))
    && ValueAt(row, "enableSensitiveMediaDetection" + "ForVideos", Bool(false))
    && ValueAt(row, "sensitiveMediaDetection" + "ApiUrl", Null)
    && ValueAt(row, "sensitiveMediaDetection" + "ApiKey", Null)
    && ValueAt(row, "sensitiveMediaDetection" + "Timeout", Int(60000))
    && ValueAt(row, "sensitiveMediaDetection" + "MaxImagesPerRequest", Int(4))
  }

  ghost predicate RowHolds(d: Option<Detector>, secrets: map<Selector, string>, row: Row) {
    if d.Some? then RowEnables(d.value, secrets, row) else RowResets(row)
  }

  lemma ColumnsAre()
    ensures ColumnOf(Mode) == "sensitiveMediaDetection"
    ensures ColumnOf(Sensitivity) == "sensitiveMediaDetection" + "Sensitivity"
    ensures ColumnOf(SetFlag) == "setSensitive" + "FlagAutomatically"
    ensures ColumnOf(Videos) == "enableSensitiveMediaDetection" + "ForVideos"
    ensures ColumnOf(Url) == "sensitiveMediaDetection" + "ApiUrl"
    ensures ColumnOf(Key) == "sensitiveMediaDetection" + "ApiKey"
    ensures ColumnOf(Timeout) == "sensitiveMediaDetection" + "Timeout"
    ensures ColumnOf(MaxImages) == "sensitiveMediaDetection" + "MaxImagesPerRequest"
  {
    assert ColumnOf(Mode) == ColumnStart(Mode);
  }

  lemma WordStays(d: Option<Detector>, x: Launch, f: Field, text: string, before: Row, after: Row)
    requires DetectorJob.RowConfigured(d, x, before, after)
    requires forall v, env :: Wants(d, x, env, f, v) ==> v == Str(Expand(text, env, x.service))
    ensures WordAt(after, ColumnOf(f), text)
  {
    hide DetectorJob.RowConfigured, ColumnOf, Intact, Expand, FieldEnv, Wants;
    WantsAt(d, x, f, before, after);
    if Intact(text) {
      IntactStays(text, FieldEnv(d, x, f), x.service);
    }
  }

  lemma ConfiguredMeansHolds(d: Option<Detector>, x: Launch, before: Row, after: Row)
    requires DetectorJob.RowConfigured(d, x, before, after)
    ensures RowHolds(d, x.secrets, after)
  {
    hide DetectorJob.RowConfigured, ColumnOf, FieldEnv, WordAt, Expand;
    ColumnsAre();
    forall f ensures ColumnOf(f) in after && Wants(d, x, FieldEnv(d, x, f), f, after[ColumnOf(f)]) {
      WantsAt(d, x, f, before, after);
    }
    if d.Some? {
      WordStays(d, x, Mode, d.value.mode, before, after);
      WordStays(d, x, Sensitivity, if d.value.sensitivity == "" then "medium" else d.value.sensitivity, before, after);
      WordStays(d, x, Url, d.value.url, before, after);
    }
  }

  /**
   Whenever the Job's container starts and its script succeeds, every row whose id is x holds each
   setting under upstream's name, or upstream's own values if there is no detector; and there is such a row.
   */
  lemma JobFillsRow(s: State, service: Env, secrets: map<Selector, string>, t: Table)
    requires Started(DetectorJob.JobOf(s).env, service, secrets).Some?
    ensures
      var env := service + Started(DetectorJob.JobOf(s).env, service, secrets).value;
      var (ok, after) := Execute(DetectorJob.JobOf(s).sql, env, t);
      ok ==>
        && |after.rows| == |InsertRow(t, "x").rows|
        && (exists i :: 0 <= i < |after.rows| && HasId(InsertRow(t, "x").rows[i], "x"))
        && forall i | 0 <= i < |after.rows| && HasId(InsertRow(t, "x").rows[i], "x") ::
             RowHolds(s.detector, secrets, after.rows[i])
  {
    hide Started, EnvVars, DatabaseEnv, Execute, DetectorJob.RowConfigured, InsertRow, RowHolds, ColumnOf, Sql;
    JobConfigures(s, service, secrets, t);
    RowExists(t);
    var env := service + Started(DetectorJob.JobOf(s).env, service, secrets).value;
    var (ok, after) := Execute(Sql(s.detector), env, t);
    var first := InsertRow(t, "x");
    if ok {
      forall i | 0 <= i < |after.rows| && HasId(first.rows[i], "x") ensures RowHolds(s.detector, secrets, after.rows[i]) {
        ConfiguredMeansHolds(s.detector, LaunchOf(s.db, service, secrets), first.rows[i], after.rows[i]);
      }
    }
  }

  lemma AssignedElsewhere(d: Option<Detector>, f: Field)
    requires !Assigned(d, f).Literal?
    ensures Assigned(d, f).env != "" && Assigned(d, f).env[0] == 'S'
  {
    hide ColumnOf, VarName, EnvEnd;
  }

  /** Whenever the Job's container starts, its psql is given the host, port, name, user and password of the database. */
  lemma JobReachesDatabase(s: State, service: Env, secrets: map<Selector, string>)
    requires Started(DetectorJob.JobOf(s).env, service, secrets).Some?
    ensures Reaches(s.db, secrets, service + Started(DetectorJob.JobOf(s).env, service, secrets).value)
  {
    hide EnvVars, Started, DatabaseEnv, Sql, Elsewhere, Intact, Assigned;
    var a := AllAssigned(s.detector);
    forall i | 0 <= i < |a| && !a[i].Literal? ensures a[i].env != "" && a[i].env[0] != 'P' {
      AssignedElsewhere(s.detector, FIELDS[i]);
    }
    VariablesElsewhere(a);
    StartedReaches(s.db, EnvVars(a), service, secrets);
  }

  /** The Job runs the user's image if one is named, with the pull secrets of the instance. */
  lemma JobImage(s: State)
    ensures DetectorJob.JobOf(s).pullSecrets == s.pullSecrets
    ensures DetectorJob.JobOf(s).image ==
      if s.detector.Some? && s.detector.value.configJobImage != "" then s.detector.value.configJobImage
      else "ghcr.io/cloudnative-pg/postgresql:17"
  {
    hide Sql;
  }
}

/**
 Restore tests of the backups: now and then a throwaway database is made from the backup, watched
 until it is ready or late, its outcome recorded, and only then removed. Times are nanoseconds.
 */
module BackupVerify {
  import opened Wrappers

  const SECOND := 1_000_000_000
  const HOUR := 3600 * SECOND

  /** Timestamps are stored with a resolution of one second. */
  function Stored(t: int): int {
    t - t % SECOND
  }

  datatype Verdict = Succeeded | Failed

  /** The test database: when it was made, and how many instances are ready. */
  datatype Restore = Restore(created: int, ready: int)

  datatype Record = Record(at: int, verdict: Verdict)

  function Interval(configured: int): int {
    if configured <= 0 then 168 * HOUR else configured
  }

  function Timeout(configured: int): int {
    if configured <= 0 then HOUR / 2 else configured
  }

  /** Unset, tests are a week apart and have half an hour; what is set counts as it is. */
  lemma Defaults(configured: int)
    ensures Interval(configured) == if configured <= 0 then 604_800_000_000_000 else configured
    ensures Timeout(configured) == if configured <= 0 then 1_800_000_000_000 else configured
  {
  }

  /** Times are stored with the second they are in. */
  lemma StoredSecond(t: int)
    ensures Stored(t) <= t < Stored(t) + 1_000_000_000 && Stored(t) % 1_000_000_000 == 0
  {
  }

  /** backupVerifyDue */
  predicate Due(status: Option<Record>, interval: int, now: int) {
    status.None? || now - status.value.at >= interval
  }

  // ----- The world and what happens in it -----

  datatype World = World(clock: int, restore: Option<Restore>, status: Option<Record>)

  datatype Outcome = Done | Conflict | Refused | Lost

  /** Time that passes before a call, what the database then is, and how the call ends. */
  datatype Moment = Moment(wait: nat, ready: int, outcome: Outcome)

  /** The world when the next call is answered. */
  function Advance(w: World, ms: seq<Moment>): World {
    if ms == [] then w
    else
      World(w.clock + ms[0].wait, if w.restore.Some? then Some(w.restore.value.(ready := ms[0].ready)) else None, w.status)
  }

  function Rest(ms: seq<Moment>): seq<Moment> {
    if ms == [] then [] else ms[1..]
  }

  function Answer(ms: seq<Moment>): Outcome {
    if ms == [] then Done else ms[0].outcome
  }

  /** The next `n` calls are all done. */
  predicate Smooth(ms: seq<Moment>, n: nat) {
    forall i | 0 <= i < n && i < |ms| :: ms[i].outcome == Done
  }

  lemma SmoothNext(ms: seq<Moment>, n: nat)
    requires Smooth(ms, n) && n > 0
    ensures Answer(ms) == Done && Smooth(Rest(ms), n - 1)
  {
    if ms != [] {
      assert ms[0].outcome == Done;
      assert forall i | 0 <= i < |Rest(ms)| :: Rest(ms)[i] == ms[i + 1];
    }
  }

  lemma SmoothLess(ms: seq<Moment>, n: nat, k: nat)
    requires Smooth(ms, n) && k <= n
    ensures Smooth(ms, k)
  {
  }

  // ----- The history -----

  /** `Recorded` holds the world the pass judged by. */
  datatype Event =
    | Made(at: int)
    | Recorded(verdict: Verdict, seen: World)
    | Removed

  /** When the test that is there was made, as the history before tells. */
  ghost function Open(first: Option<int>, log: seq<Event>): Option<int> {
    if log == [] then first
    else
      match log[|log| - 1]
      case Made(at) => Some(at)
      case Removed => None
      case Recorded(_, _) => Open(first, log[..|log| - 1])
  }

  /** The outcome of the test that is there, if the last thing that happened is that it was recorded. */
  ghost function Last(log: seq<Event>): Option<Event> {
    if log != [] then Some(log[|log| - 1]) else None
  }

  ghost predicate JustRecorded(log: seq<Event>) {
    Last(log).Some? && Last(log).value.Recorded?
  }

  /** What the design promises of an event, given all that happened before it. */
  ghost predicate EventOk(first: Option<int>, before: seq<Event>, e: Event, interval: int, timeout: int) {
    var n := |before|;
    match e
    case Made(at) =>
      && Open(first, before).None?
      && (n >= 2 && before[n - 1].Removed? && before[n - 2].Recorded? ==> at - Stored(before[n - 2].seen.clock) >= interval)
    case Recorded(verdict, seen) =>
      && seen.restore.Some? && Open(first, before) == Some(seen.restore.value.created)
      && seen.restore.value.created <= seen.clock
      && (verdict == Succeeded ==> seen.restore.value.ready >= 1)
      && (verdict == Failed ==> seen.restore.value.ready < 1 && seen.clock - Stored(seen.restore.value.created) > timeout)
    case Removed => Open(first, before).Some? && JustRecorded(before)
  }

  ghost predicate LogOk(first: Option<int>, log: seq<Event>, interval: int, timeout: int) {
    forall i | 0 <= i < |log| :: EventOk(first, log[..i], log[i], interval, timeout)
  }

  lemma Next(first: Option<int>, log: seq<Event>, e: Event, interval: int, timeout: int)
    requires LogOk(first, log, interval, timeout) && EventOk(first, log, e, interval, timeout)
    ensures LogOk(first, log + [e], interval, timeout)
    ensures Open(first, log + [e]) == match e case Made(at) => Some(at) case Removed => None case _ => Open(first, log)
  {
    var l := log + [e];
    assert l[..|log|] == log;
    forall i | 0 <= i < |l| ensures EventOk(first, l[..i], l[i], interval, timeout) {
      assert l[..i] == if i < |log| then log[..i] else log;
    }
  }

  // ----- What a history says -----

  lemma EventAt(first: Option<int>, log: seq<Event>, interval: int, timeout: int, i: nat)
    requires LogOk(first, log, interval, timeout) && i < |log|
    ensures EventOk(first, log[..i], log[i], interval, timeout)
  {
  }

  /** With a test open since event `i`, only its outcome can have been recorded since. */
  lemma {:induction false} OpenSince(first: Option<int>, log: seq<Event>, i: nat, k: nat)
    requires i < k <= |log| && log[i].Made?
    requires forall x | i < x < k :: log[x].Recorded?
    ensures Open(first, log[..k]) == Some(log[i].at)
  {
    assert log[..k][..k - 1] == log[..k - 1];
    if i < k - 1 {
      OpenSince(first, log, i, k - 1);
    }
  }

  /** After a test is removed nothing happens until the next is made. */
  lemma AfterRemoval(first: Option<int>, log: seq<Event>, interval: int, timeout: int, x: nat)
    requires LogOk(first, log, interval, timeout) && x + 1 < |log| && log[x].Removed?
    ensures log[x + 1].Made?
  {
    assert EventOk(first, log[..x + 1], log[x + 1], interval, timeout);
    assert log[..x + 1][x] == log[x];
  }

  /** Before a removal the outcome was recorded; before a later test the former one was removed. */
  lemma {:induction false} RecordedThenRemoved(first: Option<int>, log: seq<Event>, interval: int, timeout: int, i: nat, j: nat)
    requires LogOk(first, log, interval, timeout) && i < j < |log| && log[i].Made? && log[j].Made?
    requires forall x | i < x < j :: !log[x].Made?
    ensures i < j - 2 && log[j - 1].Removed? && log[j - 2].Recorded?
    ensures forall x | i < x < j - 1 :: log[x].Recorded?
  {
    assert EventOk(first, log[..j], log[j], interval, timeout);
    assert Open(first, log[..j]).None?;
    forall x | i < x < j - 1 ensures log[x].Recorded? {
      if log[x].Removed? {
        AfterRemoval(first, log, interval, timeout, x);
      }
    }
    if j - 1 == i || !log[j - 1].Removed? {
      OpenSince(first, log, i, j);
    }
    assert EventOk(first, log[..j - 1], log[j - 1], interval, timeout);
    assert log[..j - 1][j - 2] == log[j - 2];
  }

  /**
   Two successive tests of any history: the former's outcome was recorded and it was removed before
   the latter was made, an interval after the second its outcome was recorded in.
   */
  lemma SuccessiveTests(first: Option<int>, log: seq<Event>, interval: int, timeout: int, i: nat, j: nat)
    requires LogOk(first, log, interval, timeout) && i < j < |log| && log[i].Made? && log[j].Made?
    requires forall x | i < x < j :: !log[x].Made?
    ensures i < j - 2 && log[j - 1].Removed? && log[j - 2].Recorded?
    ensures log[j - 2].seen.restore.Some? && log[j - 2].seen.restore.value.created == log[i].at <= log[j - 2].seen.clock
    ensures log[j].at - Stored(log[j - 2].seen.clock) >= interval
    ensures log[j].at - log[i].at > interval - SECOND
    ensures Stored(log[j - 2].seen.clock) >= log[i].at ==> log[j].at - log[i].at >= interval
  {
    hide LogOk, Open;
    RecordedThenRemoved(first, log, interval, timeout, i, j);
    OpenSince(first, log, i, j - 2);
    EventAt(first, log, interval, timeout, j - 2);
    EventAt(first, log, interval, timeout, j);
    assert log[..j][j - 1] == log[j - 1] && log[..j][j - 2] == log[j - 2];
  }

  /** A test that failed was there for longer than the time allowed, but for less than a second. */
  lemma FailedWasLate(first: Option<int>, log: seq<Event>, interval: int, timeout: int, i: nat)
    requires LogOk(first, log, interval, timeout) && i < |log| && log[i].Recorded? && log[i].verdict == Failed
    ensures Open(first, log[..i]).Some? && log[i].seen.clock - Open(first, log[..i]).value > timeout - SECOND
  {
    assert EventOk(first, log[..i], log[i], interval, timeout);
  }

  /** A test that succeeded had a ready instance when it was judged. */
  lemma SucceededWasReady(first: Option<int>, log: seq<Event>, interval: int, timeout: int, i: nat)
    requires LogOk(first, log, interval, timeout) && i < |log| && log[i].Recorded? && log[i].verdict == Succeeded
    ensures log[i].seen.restore.Some? && log[i].seen.restore.value.ready >= 1
    ensures Open(first, log[..i]) == Some(log[i].seen.restore.value.created)
  {
    assert EventOk(first, log[..i], log[i], interval, timeout);
  }

  /**
   A test made at `created` and recorded at `recorded` keeps the next one a whole interval away,
   whenever that is tried, exactly when the second of the record began after it was made.
   */
  lemma AnIntervalApartIff(created: int, recorded: int, verdict: Verdict, interval: int)
    ensures (forall now | Due(Some(Record(Stored(recorded), verdict)), interval, now) :: now - created >= interval)
      <==> Stored(recorded) >= created
  {
    assert Due(Some(Record(Stored(recorded), verdict)), interval, Stored(recorded) + interval);
  }

  // ----- The controller -----

  /** The history tells what is there and what the status says. */
  ghost predicate Inv(w: World, first: Option<int>, log: seq<Event>) {
    && Open(first, log) == (if w.restore.Some? then Some(w.restore.value.created) else None)
    && (w.restore.Some? ==> w.restore.value.created <= w.clock)
    && (JustRecorded(log) ==> Says(w, Last(log).value))
    && (|log| >= 2 && log[|log| - 1].Removed? && log[|log| - 2].Recorded? ==> Says(w, log[|log| - 2]))
  }

  /** The status holds this outcome. */
  ghost predicate Says(w: World, e: Event)
    requires e.Recorded?
  {
    w.status == Some(Record(Stored(e.seen.clock), e.verdict)) && e.seen.clock <= w.clock
  }

  lemma AdvanceSafe(w: World, ms: seq<Moment>, first: Option<int>, log: seq<Event>)
    requires Inv(w, first, log)
    ensures Inv(Advance(w, ms), first, log) && Advance(w, ms).clock >= w.clock && Advance(w, ms).status == w.status
    ensures Advance(w, ms).restore.Some? <==> w.restore.Some?
  {
  }

  lemma RecordSafe(w: World, first: Option<int>, log: seq<Event>, verdict: Verdict, seen: World, interval: int, timeout: int)
    requires Inv(w, first, log) && LogOk(first, log, interval, timeout)
    requires EventOk(first, log, Recorded(verdict, seen), interval, timeout) && seen.clock <= w.clock
    ensures Inv(w.(status := Some(Record(Stored(seen.clock), verdict))), first, log + [Recorded(verdict, seen)])
    ensures LogOk(first, log + [Recorded(verdict, seen)], interval, timeout)
  {
    hide LogOk, EventOk, Stored;
    Next(first, log, Recorded(verdict, seen), interval, timeout);
    hide Open;
  }

  lemma RemoveSafe(w: World, first: Option<int>, log: seq<Event>, interval: int, timeout: int)
    requires Inv(w, first, log) && LogOk(first, log, interval, timeout) && w.restore.Some? && JustRecorded(log)
    ensures Inv(w.(restore := None), first, log + [Removed]) && LogOk(first, log + [Removed], interval, timeout)
  {
    hide LogOk, Stored;
    Next(first, log, Removed, interval, timeout);
    hide Open;
  }

  lemma MakeSafe(w: World, first: Option<int>, log: seq<Event>, now: int, interval: int, timeout: int)
    requires Inv(w, first, log) && LogOk(first, log, interval, timeout) && w.restore.None?
    requires now <= w.clock && Due(w.status, interval, now)
    ensures Inv(w.(restore := Some(Restore(w.clock, 0))), first, log + [Made(w.clock)])
    ensures LogOk(first, log + [Made(w.clock)], interval, timeout)
  {
    hide LogOk, Open, Stored;
    assert EventOk(first, log, Made(w.clock), interval, timeout);
    hide EventOk;
    Next(first, log, Made(w.clock), interval, timeout);
  }

  class Verifier {
    const interval: int
    const timeout: int
    var w: World
    var moments: seq<Moment>
    ghost const first: Option<int>
    ghost var log: seq<Event>

    ghost predicate Valid()
      reads this
    {
      && Inv(w, first, log)
      && LogOk(first, log, Interval(interval), Timeout(timeout))
    }

    constructor (interval: int, timeout: int, w: World, moments: seq<Moment>)
      requires w.restore.Some? ==> w.restore.value.created <= w.clock
      ensures Valid() && log == [] && this.interval == interval && this.timeout == timeout
      ensures this.w == w && this.moments == moments
    {
      this.interval, this.timeout, this.w, this.moments, log := interval, timeout, w, moments, [];
      first := if w.restore.Some? then Some(w.restore.value.created) else None;
    }

    method Call() returns (outcome: Outcome)
      requires Valid()
      modifies this`w, this`moments
      ensures Valid() && outcome == Answer(old(moments))
      ensures w == Advance(old(w), old(moments)) && moments == Rest(old(moments))
    {
      hide Inv, LogOk, Advance;
      AdvanceSafe(w, moments, first, log);
      outcome := Answer(moments);
      w, moments := Advance(w, moments), Rest(moments);
    }

    /**
     Writes the outcome into the status, again after a conflict; a lost answer is an error. `seen`
     is the world the pass judged by.
     */
    method WriteRecord(verdict: Verdict, ghost seen: World, now: int) returns (ok: bool)
      requires Valid() && EventOk(first, log, Recorded(verdict, seen), Interval(interval), Timeout(timeout))
      requires now == seen.clock <= w.clock
      modifies this`w, this`moments, this`log
      ensures Valid() && w.clock >= old(w.clock)
      ensures log == old(log) || log == old(log) + [Recorded(verdict, seen)]
      ensures ok ==> log == old(log) + [Recorded(verdict, seen)] && w.status == Some(Record(Stored(now), verdict))
      ensures w.restore.Some? <==> old(w.restore).Some?
      ensures Smooth(old(moments), 2) ==> ok && moments == Rest(Rest(old(moments)))
      ensures Smooth(old(moments), 2) ==>
        w == Advance(Advance(old(w), old(moments)), Rest(old(moments))).(status := Some(Record(Stored(now), verdict)))
    {
      hide Inv, LogOk, EventOk, Advance, Rest, Smooth, Stored;
      if Smooth(moments, 2) {
        SmoothNext(moments, 2);
        SmoothNext(Rest(moments), 1);
      }
      for attempt := 0 to 5
        invariant Valid() && log == old(log) && w.clock >= old(w.clock)
        invariant w.restore.Some? <==> old(w.restore).Some?
        invariant attempt > 0 ==> !Smooth(old(moments), 2)
        invariant attempt == 0 ==> w == old(w) && moments == old(moments)
      {
        AdvanceSafe(w, moments, first, log);
        var outcome := Call();
        if outcome != Done {
          return false;
        }
        AdvanceSafe(w, moments, first, log);
        outcome := Call();
        if outcome == Refused {
          return false;
        }
        if outcome != Conflict {
          RecordSafe(w, first, log, verdict, seen, Interval(interval), Timeout(timeout));
          w := w.(status := Some(Record(Stored(now), verdict)));
          log := log + [Recorded(verdict, seen)];
          return outcome == Done;
        }
      }
      return false;
    }

    /** The test database goes only when its outcome is the last thing that was recorded. */
    method RemoveRestore() returns (ok: bool)
      requires Valid() && w.restore.Some? && JustRecorded(log)
      modifies this`w, this`moments, this`log
      ensures Valid() && w.clock >= old(w.clock)
      ensures if w.restore.None? then log == old(log) + [Removed] else log == old(log)
      ensures ok ==> w.restore.None?
      ensures Smooth(old(moments), 1) ==> ok && moments == Rest(old(moments))
      ensures Smooth(old(moments), 1) ==> w == Advance(old(w), old(moments)).(restore := None)
    {
      hide Inv, LogOk, Advance, Rest, Smooth;
      AdvanceSafe(w, moments, first, log);
      if Smooth(moments, 1) {
        SmoothNext(moments, 1);
      }
      var outcome := Call();
      if outcome == Refused || outcome == Conflict {
        return false;
      }
      RemoveSafe(w, first, log, Interval(interval), Timeout(timeout));
      w := w.(restore := None);
      log := log + [Removed];
      ok := outcome == Done;
    }

    method MakeRestore(now: int) returns (ok: bool)
      requires Valid() && w.restore.None? && now <= w.clock && Due(w.status, Interval(interval), now)
      modifies this`w, this`moments, this`log
      ensures Valid() && w.clock >= old(w.clock)
      ensures if w.restore.Some? then log == old(log) + [Made(w.restore.value.created)] else log == old(log)
      ensures ok ==> w.restore.Some?
      ensures Smooth(old(moments), 1) ==> ok && moments == Rest(old(moments))
      ensures Smooth(old(moments), 1) ==> w == Advance(old(w), old(moments)).(restore := Some(Restore(w.clock, 0)))
    {
      hide Inv, LogOk, Advance, Rest, Smooth;
      AdvanceSafe(w, moments, first, log);
      if Smooth(moments, 1) {
        SmoothNext(moments, 1);
      }
      var outcome := Call();
      if outcome == Refused || outcome == Conflict {
        return false;
      }
      MakeSafe(w, first, log, now, Interval(interval), Timeout(timeout));
      log := log + [Made(w.clock)];
      w := w.(restore := Some(Restore(w.clock, 0)));
      ok := outcome == Done;
    }

    /**
     reconcileBackupVerify, while a schedule of tests is configured. What is new in the history is
     what was done, judged by the world as the pass read it.
     */
    method Reconcile() returns (ok: bool)
      requires Valid()
      modifies this`w, this`moments, this`log
      ensures Valid() && old(log) <= log && w.clock >= old(w.clock)
      ensures ok ==> Finished(Advance(old(w), old(moments)), old(log), log, w, Interval(interval), Timeout(timeout))
      ensures Smooth(old(moments), 4) ==>
        ok && (w, moments) == SmoothPass(old(w), old(moments), Interval(interval), Timeout(timeout))
    {
      hide Inv, LogOk, Smooth, Open, Stored, Advance, Rest;
      AdvanceSafe(w, moments, first, log);
      if Smooth(moments, 4) {
        SmoothNext(moments, 4);
        SmoothLess(Rest(moments), 3, 1);
        SmoothLess(Rest(moments), 3, 2);
        SmoothNext(Rest(moments), 3);
        SmoothNext(Rest(Rest(moments)), 2);
      }
      var outcome := Call();
      if outcome != Done {
        return false;
      }
      ghost var read := w;
      var now := w.clock;
      if w.restore.None? {
        if !Due(w.status, Interval(interval), now) {
          return true;
        }
        ok := MakeRestore(now);
        return;
      }
      var seen := w.restore.value;
      RestoreAge(w, first, log);
      if seen.ready >= 1 {
        ok := WriteRecord(Succeeded, read, now);
      } else if now - Stored(seen.created) > Timeout(timeout) {
        ok := WriteRecord(Failed, read, now);
      } else {
        return true;
      }
      if ok {
        ok := RemoveRestore();
      }
    }

    /** Every run keeps what the history promises; see SuccessiveTests for what follows. */
    method Run(passes: nat)
      requires Valid()
      modifies this`w, this`moments, this`log
      ensures Valid() && old(log) <= log
      ensures LogOk(first, log, Interval(interval), Timeout(timeout)) && Inv(w, first, log)
    {
      for i := 0 to passes
        invariant Valid() && old(log) <= log
      {
        var _ := Reconcile();
      }
    }
  }

  /** What a pass that met no error has done, given the world `read` it judged by. */
  ghost predicate Finished(read: World, before: seq<Event>, after: seq<Event>, w: World, interval: int, timeout: int) {
    if read.restore.None? then
      if read.status.None? || read.clock - read.status.value.at >= interval
      then w.restore.Some? && after == before + [Made(w.restore.value.created)]
      else w == read && after == before
    else if read.restore.value.ready >= 1 then
      w.restore.None? && after == before + [Recorded(Succeeded, read)] + [Removed]
    else if read.clock - Stored(read.restore.value.created) > timeout then
      w.restore.None? && after == before + [Recorded(Failed, read)] + [Removed]
    else w == read && after == before
  }

  /** A pass all of whose calls are done, as a function: the world and the moments left. */
  function SmoothPass(w: World, ms: seq<Moment>, interval: int, timeout: int): (World, seq<Moment>) {
    var read := Advance(w, ms);
    var ms1 := Rest(ms);
    if read.restore.None? then
      if !Due(read.status, interval, read.clock) then (read, ms1)
      else var then' := Advance(read, ms1); (then'.(restore := Some(Restore(then'.clock, 0))), Rest(ms1))
    else
      var late := read.clock - Stored(read.restore.value.created) > timeout;
      if read.restore.value.ready < 1 && !late then (read, ms1)
      else
        var verdict := if read.restore.value.ready >= 1 then Succeeded else Failed;
        var noted := Advance(Advance(read, ms1), Rest(ms1)).(status := Some(Record(Stored(read.clock), verdict)));
        (Advance(noted, Rest(Rest(ms1))).(restore := None), Rest(Rest(Rest(ms1))))
  }

  lemma RestoreAge(w: World, first: Option<int>, log: seq<Event>)
    requires Inv(w, first, log) && w.restore.Some?
    ensures w.restore.value.created <= w.clock && Open(first, log) == Some(w.restore.value.created)
  {
  }

  const TENTH := SECOND / 10

  lemma SmoothMake(w: World, ms: seq<Moment>, interval: int, timeout: int)
    requires |ms| >= 2 && ms[0].outcome == ms[1].outcome == Done && w.restore.None?
    requires Due(w.status, interval, w.clock + ms[0].wait) && ms[1].wait == 0
    ensures var at := w.clock + ms[0].wait;
      SmoothPass(w, ms, interval, timeout) == (World(at, Some(Restore(at, 0)), w.status), ms[2..])
  {
    assert ms[1..][1..] == ms[2..];
  }

  lemma SmoothSuccess(w: World, ms: seq<Moment>, interval: int, timeout: int)
    requires |ms| >= 4 && w.restore.Some? && ms[0].ready >= 1
    requires ms[1].wait == ms[2].wait == ms[3].wait == 0
    ensures var at := w.clock + ms[0].wait;
      SmoothPass(w, ms, interval, timeout) == (World(at, None, Some(Record(Stored(at), Succeeded))), ms[4..])
  {
    hide Stored;
    assert ms[1..][1..] == ms[2..] && ms[2..][1..] == ms[3..] && ms[3..][1..] == ms[4..];
  }

  /**
   A run in which a whole interval does not pass: made at 0.2 s, ready and recorded at 0.9 s, which
   is stored as 0 s, and followed by the next test at one interval.
   */
  method TooSoon(interval: int, timeout: int) returns (v: Verifier)
    requires interval >= SECOND
    ensures fresh(v) && v.Valid() && v.interval == interval
    ensures |v.log| == 4 && v.log[0] == Made(2 * TENTH) && v.log[3] == Made(interval)
    ensures v.log[3].at - v.log[0].at < interval
  {
    hide Inv, LogOk, Open, SmoothPass;
    var wait: nat := interval - 9 * TENTH;
    var now := Moment(0, 1, Done);
    var script := [Moment(2 * TENTH, 0, Done), now, Moment(7 * TENTH, 1, Done), now, now, now, Moment(wait, 0, Done), now];
    v := new Verifier(interval, timeout, World(0, None, None), script);
    SmoothMake(v.w, script, interval, Timeout(timeout));
    var _ := v.Reconcile();
    assert v.log == [Made(2 * TENTH)];
    SmoothSuccess(v.w, script[2..], interval, Timeout(timeout));
    var _ := v.Reconcile();
    assert script[2..][4..] == script[6..];
    assert v.w == World(9 * TENTH, None, Some(Record(0, Succeeded)));
    SmoothMake(v.w, script[6..], interval, Timeout(timeout));
    var _ := v.Reconcile();
  }
}

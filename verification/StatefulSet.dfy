/**
 Applying a StatefulSet whose volume claim templates cannot be changed in place: it is deleted
 without its pods and claims and made anew, and existing claims are grown.
 */
module StatefulSet {
  import opened Wrappers

  datatype Claim = Claim(name: string, size: Option<nat>, storageClass: Option<string>)

  datatype Sts = Sts(claims: seq<Claim>, replicas: Option<nat>, terminating: bool)

  /** The claim a pod of the set uses: its template and the pod's number. */
  datatype Volume = Volume(claim: string, ordinal: nat)

  datatype World = World(sts: Option<Sts>, volumes: map<Volume, nat>)

  function Deref(s: Option<string>): string {
    if s.Some? then s.value else ""
  }

  function Requested(c: Claim): nat {
    if c.size.Some? then c.size.value else 0
  }

  /** Alike in what the operator manages: name, size and class. */
  predicate Alike(c: Claim, d: Claim) {
    && c.name == d.name
    && (match (c.storageClass, d.storageClass)
        case (Some(x), Some(y)) => x == y
        case (Some(x), None) => x == ""
        case (None, Some(y)) => y == ""
        case (None, None) => true)
    && (match (c.size, d.size)
        case (Some(x), Some(y)) => x == y
        case (Some(x), None) => x == 0
        case (None, Some(y)) => y == 0
        case (None, None) => true)
  }

  predicate Same(current: seq<Claim>, desired: seq<Claim>) {
    |current| == |desired| && forall i | 0 <= i < |desired| :: Alike(current[i], desired[i])
  }

  method TemplatesChanged(current: seq<Claim>, desired: seq<Claim>) returns (changed: bool)
    ensures changed == !Same(current, desired)
  {
    if |current| != |desired| {
      return true;
    }
    for i := 0 to |desired|
      invariant forall j | 0 <= j < i :: Alike(current[j], desired[j])
    {
      var c, d := current[i], desired[i];
      if c.name != d.name || Deref(c.storageClass) != Deref(d.storageClass) || Requested(c) != Requested(d) {
        assert !Alike(current[i], desired[i]);
        return true;
      }
    }
    return false;
  }

  // ----- Around the operator -----

  /** The collector finishes a deletion; claims are made for pods, and others may grow them. */
  datatype EnvStep = Vanish | NewVolume(volume: Volume, size: nat) | Grow(volume: Volume, more: nat)

  function EnvNext(w: World, e: EnvStep): World {
    match e
    case Vanish => if w.sts.Some? && w.sts.value.terminating then w.(sts := None) else w
    case NewVolume(v, n) => if v in w.volumes then w else w.(volumes := w.volumes[v := n])
    case Grow(v, n) => if v in w.volumes then w.(volumes := w.volumes[v := w.volumes[v] + n]) else w
  }

  datatype Outcome = Done | Refused | Lost

  datatype Moment = Moment(steps: seq<EnvStep>, outcome: Outcome)

  /** Claims stay and never shrink. */
  ghost predicate Grown(a: map<Volume, nat>, b: map<Volume, nat>) {
    forall v | v in a :: v in b && a[v] <= b[v]
  }

  lemma GrownTrans(a: map<Volume, nat>, b: map<Volume, nat>, c: map<Volume, nat>)
    requires Grown(a, b) && Grown(b, c)
    ensures Grown(a, c)
  {
  }

  /** A set that stands, not on its way out, with other templates than wanted. */
  ghost predicate Mismatch(s: Option<Sts>, desired: seq<Claim>) {
    s.Some? && !s.value.terminating && !Same(s.value.claims, desired)
  }

  ghost function Debt(s: Option<Sts>, desired: seq<Claim>): nat {
    if Mismatch(s, desired) then 1 else 0
  }

  /** Only the collector's doing: the set is the same, or was terminating and is gone. */
  ghost predicate Around(a: World, b: World) {
    Grown(a.volumes, b.volumes) && (b.sts == a.sts || (a.sts.Some? && a.sts.value.terminating && b.sts.None?))
  }

  lemma AroundTrans(a: World, b: World, c: World)
    requires Around(a, b) && Around(b, c)
    ensures Around(a, c)
  {
    GrownTrans(a.volumes, b.volumes, c.volumes);
  }

  // ----- What happens to the set -----

  /** A step of the environment, or a request of the operator that reached the server. */
  datatype Step =
    | Outside(e: EnvStep)
    | Deleted(desired: seq<Claim>)
    | Created(claims: seq<Claim>, replicas: nat)
    | Updated(claims: seq<Claim>, replicas: nat)
    | Resized(volume: Volume, size: nat)

  /** The server creates only what is not there, and refuses an update that changes the templates. */
  function StepNext(w: World, s: Step): World {
    match s
    case Outside(e) => EnvNext(w, e)
    case Deleted(_) => if w.sts.Some? then w.(sts := Some(w.sts.value.(terminating := true))) else w
    case Created(claims, n) => if w.sts.None? then w.(sts := Some(Sts(claims, Some(n), false))) else w
    case Updated(claims, n) =>
      if w.sts.Some? && w.sts.value.claims == claims then w.(sts := Some(w.sts.value.(replicas := Some(n)))) else w
    case Resized(v, n) => if v in w.volumes then w.(volumes := w.volumes[v := n]) else w
  }

  function Replay(start: World, trace: seq<Step>): World {
    if trace == [] then start else StepNext(Replay(start, trace[..|trace| - 1]), trace[|trace| - 1])
  }

  /** The set is deleted only when it stands and differs from what is wanted; a claim only grows. */
  ghost predicate StepOk(w: World, s: Step) {
    && (s.Deleted? ==> Mismatch(w.sts, s.desired))
    && (s.Resized? && s.volume in w.volumes ==> w.volumes[s.volume] <= s.size)
  }

  ghost predicate TraceOk(start: World, trace: seq<Step>) {
    forall k | 0 <= k < |trace| :: StepOk(Replay(start, trace[..k]), trace[k])
  }

  ghost function Deletions(trace: seq<Step>): nat {
    if trace == [] then 0
    else Deletions(trace[..|trace| - 1]) + if trace[|trace| - 1].Deleted? then 1 else 0
  }

  lemma NextStep(start: World, trace: seq<Step>, s: Step)
    requires TraceOk(start, trace) && StepOk(Replay(start, trace), s)
    ensures TraceOk(start, trace + [s]) && Replay(start, trace + [s]) == StepNext(Replay(start, trace), s)
    ensures Deletions(trace + [s]) == Deletions(trace) + if s.Deleted? then 1 else 0
  {
    hide StepOk, StepNext;
    var t := trace + [s];
    assert t[..|trace|] == trace;
    forall k | 0 <= k < |t| ensures StepOk(Replay(start, t[..k]), t[k]) {
      assert t[..k] == if k < |trace| then trace[..k] else trace;
    }
  }

  /** No deletion has been added. */
  ghost predicate NoDeletion(a: seq<Step>, b: seq<Step>) {
    a <= b && Deletions(a) == Deletions(b)
  }

  /** Every deletion that was added is for these templates. */
  ghost predicate DeletesFor(a: seq<Step>, b: seq<Step>, desired: seq<Claim>) {
    a <= b && forall k | |a| <= k < |b| && b[k].Deleted? :: b[k].desired == desired
  }

  lemma {:induction false} QuietAdds(a: seq<Step>, b: seq<Step>)
    requires a <= b
    ensures Deletions(a) <= Deletions(b)
    ensures Deletions(a) == Deletions(b) ==> forall k | |a| <= k < |b| :: !b[k].Deleted?
  {
    if a == b {
    } else {
      var n := |b| - 1;
      assert a <= b[..n];
      QuietAdds(a, b[..n]);
    }
  }

  class Applier {
    var w: World
    var moments: seq<Moment>
    ghost const start: World
    /** All that has happened since. */
    ghost var trace: seq<Step>

    ghost predicate Valid()
      reads this
    {
      w == Replay(start, trace) && TraceOk(start, trace)
    }

    constructor (w: World, moments: seq<Moment>)
      ensures Valid() && this.w == w && start == w && this.moments == moments && trace == []
    {
      this.w, this.moments, start, trace := w, moments, w, [];
    }

    /** One thing happens, and is remembered. */
    method Happen(s: Step)
      requires Valid() && StepOk(w, s)
      modifies this`w, this`trace
      ensures Valid() && w == StepNext(old(w), s) && trace == old(trace) + [s]
      ensures Deletions(trace) == Deletions(old(trace)) + if s.Deleted? then 1 else 0
    {
      NextStep(start, trace, s);
      w, trace := StepNext(w, s), trace + [s];
    }

    /** When nothing more is to happen, calls are done and the collector has done its work. */
    method Call() returns (outcome: Outcome)
      requires Valid()
      modifies this`w, this`moments, this`trace
      ensures Valid() && Around(old(w), w) && NoDeletion(old(trace), trace)
      ensures moments == (if old(moments) == [] then [] else old(moments)[1..])
      ensures outcome == if old(moments) == [] then Done else old(moments)[0].outcome
      ensures old(moments) == [] ==> w == EnvNext(old(w), Vanish)
    {
      hide Replay, TraceOk, Deletions;
      if moments == [] {
        Happen(Outside(Vanish));
        return Done;
      }
      var m := moments[0];
      moments := moments[1..];
      for i := 0 to |m.steps|
        invariant Valid() && Around(old(w), w) && NoDeletion(old(trace), trace) && moments == old(moments)[1..]
      {
        ghost var before := w;
        Happen(Outside(m.steps[i]));
        EnvAround(before, m.steps[i]);
        AroundTrans(old(w), before, w);
      }
      outcome := m.outcome;
    }

    method Get() returns (r: Result<Option<Sts>, ()>)
      requires Valid()
      modifies this`w, this`moments, this`trace
      ensures Valid() && Around(old(w), w) && NoDeletion(old(trace), trace)
      ensures r.Ok? ==> r.value == w.sts
      ensures old(moments) == [] ==> moments == [] && r.Ok? && w == EnvNext(old(w), Vanish)
    {
      hide Valid, Deletions;
      var outcome := Call();
      r := if outcome == Done then Ok(w.sts) else Err(());
    }

    /** One claim is grown to the wanted size, unless it is that big, or missing, or a call fails. */
    method Expand(v: Volume, want: nat) returns (failed: bool)
      requires Valid()
      modifies this`w, this`moments, this`trace
      ensures Valid() && Around(old(w), w) && NoDeletion(old(trace), trace)
      ensures !failed && v in old(w.volumes) ==> w.volumes[v] >= want
      ensures old(moments) == [] ==> moments == [] && !failed
    {
      hide Valid, Deletions;
      var outcome := Call();
      if outcome != Done {
        return true;
      }
      if v !in w.volumes {
        return false;
      }
      var got := w.volumes[v];
      if want <= got {
        return false;
      }
      outcome := Call();
      if outcome == Refused || v !in w.volumes || w.volumes[v] != got {
        return true;
      }
      Happen(Resized(v, want));
      failed := outcome == Lost;
    }

    /** The nested loops over templates and pods. Failures do not stop them. */
    method ExpandAll(replicas: Option<nat>, desired: seq<Claim>) returns (failed: bool)
      requires Valid()
      modifies this`w, this`moments, this`trace
      ensures Valid() && Around(old(w), w) && NoDeletion(old(trace), trace)
      ensures !failed ==> Expanded(old(w.volumes), w.volumes, desired, if replicas.Some? then replicas.value else 1)
      ensures old(moments) == [] ==> moments == [] && !failed
    {
      hide Valid, Deletions;
      var n := PodCount(replicas);
      failed := false;
      for t := 0 to |desired|
        invariant Valid() && NoDeletion(old(trace), trace)
        invariant Around(old(w), w) && (old(moments) == [] ==> moments == [] && !failed)
        invariant !failed ==> Expanded(old(w.volumes), w.volumes, desired[..t], n)
      {
        if desired[t].size.Some? {
          ghost var before := w;
          var f := ExpandClaim(desired[t].name, desired[t].size.value, n);
          failed := failed || f;
          AroundTrans(old(w), before, w);
          if !failed {
            ExpandedNext(old(w.volumes), before.volumes, w.volumes, desired, t, n);
          }
        } else {
          assert desired[..t + 1] == desired[..t] + [desired[t]];
        }
      }
      assert desired[..|desired|] == desired;
    }

    method ExpandClaim(claim: string, want: nat, n: nat) returns (failed: bool)
      requires Valid()
      modifies this`w, this`moments, this`trace
      ensures Valid() && Around(old(w), w) && NoDeletion(old(trace), trace)
      ensures !failed ==> forall i: nat | i < n && Volume(claim, i) in old(w.volumes) :: AtLeast(w.volumes, Volume(claim, i), want)
      ensures old(moments) == [] ==> moments == [] && !failed
    {
      hide Valid, Deletions;
      failed := false;
      for i := 0 to n
        invariant Valid() && NoDeletion(old(trace), trace)
        invariant Around(old(w), w) && (old(moments) == [] ==> moments == [] && !failed)
        invariant !failed ==> forall j: nat | j < i && Volume(claim, j) in old(w.volumes) :: AtLeast(w.volumes, Volume(claim, j), want)
      {
        ghost var before := w;
        var f := Expand(Volume(claim, i), want);
        failed := failed || f;
        AroundTrans(old(w), before, w);
      }
    }

    /** Deletes the set and leaves its pods and claims. */
    method OrphanDelete(desired: seq<Claim>) returns (ok: bool)
      requires Valid() && Mismatch(w.sts, desired)
      modifies this`w, this`moments, this`trace
      ensures Valid() && Grown(old(w.volumes), w.volumes) && DeletesFor(old(trace), trace, desired)
      ensures Deletions(trace) + Debt(w.sts, desired) == Deletions(old(trace)) + 1
      ensures ok ==> w.sts.Some? && w.sts.value.terminating
      ensures old(moments) == [] ==> moments == [] && ok
    {
      hide Valid, Deletions, Same;
      var outcome := Call();
      QuietAdds(old(trace), trace);
      if outcome == Refused {
        return false;
      }
      Happen(Deleted(desired));
      ok := outcome == Done;
    }

    /** Looks for the end of the deletion a number of times. */
    method AwaitGone(polls: nat) returns (ok: bool)
      requires Valid()
      modifies this`w, this`moments, this`trace
      ensures Valid() && Around(old(w), w) && NoDeletion(old(trace), trace)
      ensures ok ==> w.sts.None?
      ensures old(moments) == [] ==> moments == []
      ensures old(moments) == [] && polls >= 1 && old(w.sts).Some? && old(w.sts).value.terminating ==> ok
    {
      hide Valid, Deletions;
      for i := 0 to polls
        invariant Valid() && NoDeletion(old(trace), trace)
        invariant Around(old(w), w) && (old(moments) == [] ==> moments == [])
        invariant i > 0 && old(moments) == [] ==> !(old(w.sts).Some? && old(w.sts).value.terminating)
      {
        ghost var before := w;
        var r := Get();
        AroundTrans(old(w), before, w);
        if r == Ok(None) {
          return true;
        }
      }
      return false;
    }

    /** Creates the set, or updates it in place; the server refuses an update that changes the templates. */
    method CreateOrUpdate(desired: seq<Claim>, replicas: nat) returns (ok: bool)
      requires Valid() && (w.sts.Some? ==> !w.sts.value.terminating && Same(w.sts.value.claims, desired))
      modifies this`w, this`moments, this`trace
      ensures Valid() && Grown(old(w.volumes), w.volumes) && NoDeletion(old(trace), trace)
      ensures w.sts.Some? ==> !w.sts.value.terminating && Same(w.sts.value.claims, desired)
      ensures ok ==> w.sts.Some?
      ensures old(w.sts).Some? && old(w.sts).value.claims != desired ==> !ok
      ensures old(moments) == [] && (old(w.sts).Some? ==> old(w.sts).value.claims == desired) ==> ok
    {
      hide Valid, Deletions, Alike;
      var r := Get();
      if r.Err? {
        return false;
      }
      ghost var read := w;
      var outcome := Call();
      GrownTrans(old(w.volumes), read.volumes, w.volumes);
      if outcome == Refused {
        return false;
      }
      if r.value.None? {
        SameSelf(desired);
        Happen(Created(desired, replicas));
        return outcome == Done;
      }
      Happen(Updated(desired, replicas));
      ok := outcome == Done && r.value.value.claims == desired;
    }

    /**
     One apply. The set is deleted only when it stands and differs, and at most once; success leaves
     it standing with the wanted name, size and class of every claim. When nothing gets in its way it
     succeeds exactly if what stands is not unchangeable.
     */
    method Apply(desired: seq<Claim>, replicas: nat, built: bool, polls: nat) returns (ok: bool)
      requires Valid()
      modifies this`w, this`moments, this`trace
      ensures Valid() && Grown(old(w.volumes), w.volumes) && DeletesFor(old(trace), trace, desired)
      ensures Deletions(trace) + Debt(w.sts, desired) <= Deletions(old(trace)) + old(Debt(w.sts, desired))
      ensures ok ==> w.sts.Some? && !w.sts.value.terminating && Same(w.sts.value.claims, desired)
      ensures old(Unchangeable(w.sts, desired)) ==> !ok
      ensures old(moments) == [] && built && polls >= 1 ==> (ok <==> !old(Unchangeable(w.sts, desired)))
    {
      hide Same, Grown, Valid, Deletions;
      GrownSelf(w.volumes);
      if !built {
        return false;
      }
      var r := Get();
      QuietAdds(old(trace), trace);
      if r.Err? || (r.value.Some? && r.value.value.terminating) {
        return false;
      }
      ghost var read := w;
      if r.value.Some? {
        var changed := TemplatesChanged(r.value.value.claims, desired);
        if changed {
          ok := Replace(r.value.value.replicas, desired, polls);
          GrownTrans(old(w.volumes), read.volumes, w.volumes);
          if !ok {
            return;
          }
        }
      }
      ghost var before, t := w, trace;
      ok := CreateOrUpdate(desired, replicas);
      QuietAdds(t, trace);
      GrownTrans(old(w.volumes), before.volumes, w.volumes);
    }

    /** Grows the claims, deletes the set and waits until it is gone. */
    method Replace(replicas: Option<nat>, desired: seq<Claim>, polls: nat) returns (ok: bool)
      requires Valid() && Mismatch(w.sts, desired)
      modifies this`w, this`moments, this`trace
      ensures Valid() && Grown(old(w.volumes), w.volumes) && DeletesFor(old(trace), trace, desired)
      ensures Deletions(trace) + Debt(w.sts, desired) == Deletions(old(trace)) + 1
      ensures ok ==> w.sts.None?
      ensures old(moments) == [] ==> moments == [] && (polls >= 1 ==> ok)
    {
      hide Same, Grown, Valid, Deletions;
      var _ := ExpandAll(replicas, desired);
      QuietAdds(old(trace), trace);
      ghost var a := w;
      ok := OrphanDelete(desired);
      ghost var b, t := w, trace;
      GrownTrans(old(w.volumes), a.volumes, b.volumes);
      if !ok {
        return;
      }
      ok := AwaitGone(polls);
      QuietAdds(t, trace);
      GrownTrans(old(w.volumes), b.volumes, w.volumes);
    }

    /**
     Every run of applies: what stands is what the trace leads to, in which the set is deleted only
     when it stands and differs from what one of the passes wants; claims are never deleted and never
     shrink; and the set is deleted at most once for every change of the wanted templates, and once
     for a difference there was at first.
     */
    method Run(passes: seq<Pass>)
      requires Valid() && passes != []
      modifies this`w, this`moments, this`trace
      ensures w == Replay(start, trace) && TraceOk(start, trace) && old(trace) <= trace
      ensures forall k | |old(trace)| <= k < |trace| && trace[k].Deleted? :: AskedFor(passes, trace[k].desired)
      ensures Grown(old(w.volumes), w.volumes)
      ensures Deletions(trace) <= Deletions(old(trace)) + old(Debt(w.sts, passes[0].desired)) + Changes(passes, |passes|)
    {
      hide Same, Grown, Mismatch, Replay, TraceOk, Deletions, AskedFor;
      AskedByPass(passes);
      GrownSelf(w.volumes);
      for i := 0 to |passes|
        invariant Valid() && Grown(old(w.volumes), w.volumes) && old(trace) <= trace
        invariant forall k | |old(trace)| <= k < |trace| && trace[k].Deleted? :: AskedFor(passes, trace[k].desired)
        invariant Deletions(trace) + Debt(w.sts, passes[if i == 0 then 0 else i - 1].desired)
          <= Deletions(old(trace)) + old(Debt(w.sts, passes[0].desired)) + Changes(passes, i)
      {
        ghost var before := w;
        if i > 0 {
          DebtOnChange(w.sts, passes[i - 1].desired, passes[i].desired);
        }
        var p := passes[i];
        var _ := Apply(p.desired, p.replicas, p.built, p.polls);
        GrownTrans(old(w.volumes), before.volumes, w.volumes);
      }
    }
  }

  lemma EnvAround(w: World, e: EnvStep)
    ensures Around(w, EnvNext(w, e))
  {
  }

  lemma SameSelf(desired: seq<Claim>)
    ensures Same(desired, desired)
  {
  }

  /** One pass: what is wanted, whether it could be worked out, and how often to look for the end of a deletion. */
  datatype Pass = Pass(desired: seq<Claim>, replicas: nat, built: bool, polls: nat)

  /** One of the passes wants these templates. */
  ghost predicate AskedFor(passes: seq<Pass>, desired: seq<Claim>) {
    exists i :: 0 <= i < |passes| && passes[i].desired == desired
  }

  lemma AskedByPass(passes: seq<Pass>)
    ensures forall i | 0 <= i < |passes| :: AskedFor(passes, passes[i].desired)
  {
  }

  /** How often the wanted templates changed within the first `n` passes. */
  ghost function Changes(passes: seq<Pass>, n: nat): nat
    requires n <= |passes|
  {
    if n <= 1 then 0
    else Changes(passes, n - 1) + if Same(passes[n - 2].desired, passes[n - 1].desired) then 0 else 1
  }

  /** Templates that count as the same but differ, as no class and an empty class do: no apply succeeds. */
  ghost predicate Unchangeable(s: Option<Sts>, desired: seq<Claim>) {
    s.Some? && !s.value.terminating && Same(s.value.claims, desired) && s.value.claims != desired
  }

  lemma UnchangeableExample()
    ensures Unchangeable(Some(Sts([Claim("data", Some(2), None)], Some(1), false)), [Claim("data", Some(2), Some(""))])
  {
    assert [Claim("data", Some(2), None)][0] != [Claim("data", Some(2), Some(""))][0];
  }

  lemma GrownSelf(a: map<Volume, nat>)
    ensures Grown(a, a)
  {
  }

  lemma DebtOnChange(s: Option<Sts>, a: seq<Claim>, b: seq<Claim>)
    ensures Debt(s, b) <= Debt(s, a) + if Same(a, b) then 0 else 1
  {
    if s.Some? && Same(s.value.claims, a) && Same(a, b) {
      var c := s.value.claims;
      forall i | 0 <= i < |b| ensures Alike(c[i], b[i]) {
        assert Alike(c[i], a[i]) && Alike(a[i], b[i]);
      }
    }
  }

  function PodCount(replicas: Option<nat>): nat {
    if replicas.Some? then replicas.value else 1
  }

  ghost predicate AtLeast(volumes: map<Volume, nat>, v: Volume, want: nat) {
    v in volumes && volumes[v] >= want
  }

  /** Every claim that was there has at least its template's size. */
  ghost predicate Expanded(before: map<Volume, nat>, after: map<Volume, nat>, desired: seq<Claim>, n: nat) {
    forall t, i: nat | 0 <= t < |desired| && desired[t].size.Some? && i < n && Volume(desired[t].name, i) in before ::
      AtLeast(after, Volume(desired[t].name, i), desired[t].size.value)
  }

  lemma ExpandedNext(
    first: map<Volume, nat>, before: map<Volume, nat>, after: map<Volume, nat>, desired: seq<Claim>, t: nat, n: nat)
    requires t < |desired| && Grown(first, before) && Grown(before, after) && Expanded(first, before, desired[..t], n)
    requires desired[t].size.Some?
    requires forall i: nat | i < n && Volume(desired[t].name, i) in before ::
      AtLeast(after, Volume(desired[t].name, i), desired[t].size.value)
    ensures Expanded(first, after, desired[..t + 1], n)
  {
    var ds := desired[..t + 1];
    forall k, i: nat | 0 <= k < |ds| && ds[k].size.Some? && i < n && Volume(ds[k].name, i) in first
      ensures AtLeast(after, Volume(ds[k].name, i), ds[k].size.value)
    {
      if k < t {
        assert desired[..t][k] == ds[k];
        assert AtLeast(before, Volume(ds[k].name, i), ds[k].size.value);
      }
    }
  }
}

/**
 Staged rollout of an image over a fleet: which image a bucket follows at a given time,
 and how the channel controller moves the rollout on. Times and durations are nanoseconds.
 */
module Channel {
  import opened Wrappers

  const MAX_INT64 := 0x7FFF_FFFF_FFFF_FFFF
  const MIN_INT64 := -0x8000_0000_0000_0000
  const SECOND := 1_000_000_000
  const HOUR := 3600 * SECOND
  const BUCKETS := 100

  /** The value an int64 expression takes when its exact value is `x`. */
  function Wrap64(x: int): int {
    (x - MIN_INT64) % 0x1_0000_0000_0000_0000 + MIN_INT64
  }

  /** time.Time.Sub saturates. */
  function Since(start: int, now: int): int {
    var d := now - start;
    if d > MAX_INT64 then MAX_INT64 else if d < MIN_INT64 then MIN_INT64 else d
  }

  datatype Rollout = Rollout(batchPercent: int, interval: int)

  datatype Spec = Spec(image: string, rollout: Option<Rollout>, trackDigest: bool)

  datatype Status = Status(image: string, previous: string, changedAt: Option<int>)

  /** What the resource definition admits: an int64 interval and a percentage, 0 meaning unset. */
  predicate Admitted(r: Rollout) {
    0 <= r.batchPercent <= 100 && MIN_INT64 <= r.interval <= MAX_INT64
  }

  function Percent(r: Rollout): int {
    if r.batchPercent == 0 then 20 else r.batchPercent
  }

  function Interval(r: Rollout): int {
    if r.interval <= 0 then HOUR else r.interval
  }

  /** The buckets below this number have switched, computed in int64 arithmetic. */
  function Threshold(r: Rollout, elapsed: int): int
    requires 0 <= elapsed
  {
    Wrap64(Percent(r) * Wrap64(elapsed / Interval(r) + 1))
  }

  function Elapsed(changedAt: int, now: int): (e: int)
    ensures 0 <= e <= MAX_INT64
  {
    var d := Since(changedAt, now);
    if d < 0 then 0 else d
  }

  /** channelImageFor */
  function ImageFor(spec: Spec, st: Status, bucket: int, now: int): string {
    if st.image == "" then spec.image
    else if st.previous == "" || st.previous == st.image || spec.rollout.None? || st.changedAt.None? then st.image
    else if bucket < Threshold(spec.rollout.value, Elapsed(st.changedAt.value, now)) then st.image
    else st.previous
  }

  // ----- Arithmetic -----

  /** No threshold leaves the int64 range, whatever time has passed. */
  ghost predicate NoOverflow(r: Rollout) {
    Percent(r) * (MAX_INT64 / Interval(r) + 1) <= MAX_INT64
  }

  lemma DivIff(q: int, n: int, d: int)
    requires 0 < d
    ensures q <= n / d <==> q * d <= n
  {
    if q <= n / d {
      assert q * d <= (n / d) * d;
    } else {
      assert q * d >= (n / d + 1) * d;
    }
  }

  lemma DivMonotone(a: int, b: int, d: int)
    requires 0 <= a <= b && 0 < d
    ensures 0 <= a / d <= b / d
  {
    DivIff(a / d, a, d);
    DivIff(a / d, b, d);
  }

  lemma MulMonotone(p: int, a: int, b: int)
    requires 0 <= p && a <= b
    ensures p * a <= p * b
  {
  }

  /** The exact condition for the threshold to fit: it does for every elapsed time iff NoOverflow. */
  lemma OverflowIff(r: Rollout)
    requires Admitted(r)
    ensures NoOverflow(r) <==>
      forall e | 0 <= e <= MAX_INT64 :: Percent(r) * (e / Interval(r) + 1) <= MAX_INT64
  {
    if NoOverflow(r) {
      forall e | 0 <= e <= MAX_INT64 ensures Percent(r) * (e / Interval(r) + 1) <= MAX_INT64 {
        DivMonotone(e, MAX_INT64, Interval(r));
        MulMonotone(Percent(r), e / Interval(r) + 1, MAX_INT64 / Interval(r) + 1);
      }
    }
  }

  /** Every interval of at least 101 ns is safe. */
  lemma LongIntervalFits(r: Rollout)
    requires Admitted(r) && Interval(r) >= 101
    ensures NoOverflow(r)
  {
    var q := MAX_INT64 / Interval(r);
    DivIff(q, MAX_INT64, Interval(r));
    if q > MAX_INT64 / 101 {
      DivIff(q, MAX_INT64, 101);
      MulMonotone(q, 101, Interval(r));
    }
    MulMonotone(q + 1, Percent(r), 100);
  }

  lemma WrapFits(x: int)
    requires MIN_INT64 <= x <= MAX_INT64
    ensures Wrap64(x) == x
  {
  }

  lemma ThresholdExact(r: Rollout, elapsed: int)
    requires Admitted(r) && NoOverflow(r) && 0 <= elapsed <= MAX_INT64
    ensures Threshold(r, elapsed) == Percent(r) * (elapsed / Interval(r) + 1)
  {
    var batches := elapsed / Interval(r) + 1;
    OverflowIff(r);
    DivMonotone(0, elapsed, Interval(r));
    MulMonotone(batches, 1, Percent(r));
    WrapFits(batches);
    WrapFits(Percent(r) * batches);
  }

  predicate Switched(r: Rollout, bucket: int, elapsed: int)
    requires 0 <= elapsed
  {
    bucket < Threshold(r, elapsed)
  }

  /** Bucket b switches exactly when floor(b / percent) intervals have passed. */
  lemma SwitchesExactlyWhen(r: Rollout, bucket: int, elapsed: int)
    requires Admitted(r) && NoOverflow(r) && 0 <= bucket && 0 <= elapsed <= MAX_INT64
    ensures Switched(r, bucket, elapsed) <==> elapsed >= (bucket / Percent(r)) * Interval(r)
  {
    hide Threshold, NoOverflow, Wrap64;
    var batches := elapsed / Interval(r) + 1;
    ThresholdExact(r, elapsed);
    DivIff(batches, bucket, Percent(r));
    DivIff(bucket / Percent(r), elapsed, Interval(r));
  }

  /** If bucket 99 has switched, so have all. */
  lemma EarlierBuckets(r: Rollout, bucket: int, elapsed: int)
    requires 0 <= bucket < BUCKETS && 0 <= elapsed && Switched(r, BUCKETS - 1, elapsed)
    ensures Switched(r, bucket, elapsed)
  {
    hide Threshold;
  }

  /** The whole fleet has switched exactly when the last bucket has. */
  lemma FleetSwitchedExactlyWhen(r: Rollout, elapsed: int)
    requires Admitted(r) && NoOverflow(r) && 0 <= elapsed <= MAX_INT64
    ensures (forall b | 0 <= b < BUCKETS :: Switched(r, b, elapsed))
        <==> elapsed >= ((BUCKETS - 1) / Percent(r)) * Interval(r)
  {
    SwitchesExactlyWhen(r, BUCKETS - 1, elapsed);
    assert Switched(r, BUCKETS - 1, elapsed) ==> forall b | 0 <= b < BUCKETS :: Switched(r, b, elapsed) by {
      hide Threshold, NoOverflow;
    }
  }

  /** Unset, the batch is 20 percent and the interval an hour; what is set counts as it is. */
  lemma Defaults(r: Rollout)
    ensures Percent(r) == if r.batchPercent == 0 then 20 else r.batchPercent
    ensures Interval(r) == if r.interval <= 0 then 3_600_000_000_000 else r.interval
  {
  }

  /** A rollout is under way: there is a previous image to come from and a time since which. */
  predicate UnderWay(spec: Spec, st: Status) {
    && st.image != "" && st.previous != "" && st.previous != st.image
    && spec.rollout.Some? && st.changedAt.Some?
  }

  /**
   By the clock: a bucket has the new image exactly when floor(bucket / percent) intervals have
   passed since the change, if so long a time can be measured at all, and the previous one before.
   Ahead of the change, as a clock may be, the first batch has it.
   */
  lemma SwitchesByTheClock(spec: Spec, st: Status, bucket: int, now: int)
    requires UnderWay(spec, st) && Admitted(spec.rollout.value) && NoOverflow(spec.rollout.value) && 0 <= bucket
    ensures
      var r, since := spec.rollout.value, st.changedAt.value;
      var percent := if r.batchPercent == 0 then 20 else r.batchPercent;
      var wait := bucket / percent * if r.interval <= 0 then 3_600_000_000_000 else r.interval;
      && (since <= now ==> (ImageFor(spec, st, bucket, now) == st.image <==> wait <= now - since && wait <= MAX_INT64))
      && (now < since ==> (ImageFor(spec, st, bucket, now) == st.image <==> bucket < percent))
      && (ImageFor(spec, st, bucket, now) != st.image ==> ImageFor(spec, st, bucket, now) == st.previous)
  {
    hide Threshold, NoOverflow;
    var r := spec.rollout.value;
    var elapsed := Elapsed(st.changedAt.value, now);
    SwitchesExactlyWhen(r, bucket, elapsed);
    DivMonotone(0, bucket, Percent(r));
    MulMonotone(Interval(r), 0, bucket / Percent(r));
    DivIff(1, bucket, Percent(r));
    if 0 < bucket / Percent(r) {
      MulMonotone(Interval(r), 1, bucket / Percent(r));
    }
  }

  /** Where no rollout is under way every bucket has the channel's image; at first that of the spec. */
  lemma NoRolloutNoWait(spec: Spec, st: Status, bucket: int, now: int)
    requires !UnderWay(spec, st)
    ensures ImageFor(spec, st, bucket, now) == if st.image == "" then spec.image else st.image
  {
  }

  /** A bucket that has switched stays switched. */
  ghost predicate Steady(r: Rollout) {
    forall b, e1, e2 | 0 <= b < BUCKETS && 0 <= e1 <= e2 <= MAX_INT64 && Switched(r, b, e1) :: Switched(r, b, e2)
  }

  /** The first elapsed time at which the threshold leaves the int64 range. */
  function Overflows(r: Rollout): int {
    MAX_INT64 / Percent(r) * Interval(r)
  }

  lemma MulDiv(q: int, d: int)
    requires 0 < d
    ensures q * d / d == q
  {
    DivIff(q, q * d, d);
    DivIff(q + 1, q * d, d);
  }

  /** Without room, bucket 0 has switched at once and goes back when the threshold turns negative. */
  lemma OverflowGoesBack(r: Rollout)
    requires Admitted(r) && !NoOverflow(r)
    ensures 0 <= Overflows(r) <= MAX_INT64 && Switched(r, 0, 0) && !Switched(r, 0, Overflows(r))
  {
    var p, i := Percent(r), Interval(r);
    var q := MAX_INT64 / p;
    DivIff(q, MAX_INT64, p);
    DivIff(q + 1, MAX_INT64, p);
    DivIff(MAX_INT64 / i + 1, MAX_INT64, p);
    DivIff(q, MAX_INT64, i);
    MulMonotone(i, 0, q);
    MulDiv(q, i);
    ThresholdAt(r, q);
  }

  /** Just above the range a number wraps to a negative one. */
  lemma WrapNegative(x: int)
    requires MAX_INT64 < x <= MAX_INT64 + 100
    ensures Wrap64(x) < 0 && (x == MAX_INT64 + 1 ==> Wrap64(x) == MIN_INT64)
  {
    assert (x - MIN_INT64) % 0x1_0000_0000_0000_0000 == x - MIN_INT64 - 0x1_0000_0000_0000_0000;
  }

  lemma ThresholdAt(r: Rollout, q: int)
    requires Admitted(r) && 0 <= q && q * Percent(r) <= MAX_INT64 < (q + 1) * Percent(r) && 0 <= q * Interval(r)
    requires q * Interval(r) / Interval(r) == q
    ensures Threshold(r, q * Interval(r)) < 0 && Threshold(r, 0) == Percent(r)
  {
    hide Wrap64;
    var p := Percent(r);
    if p == 1 {
      WrapNegative(q + 1);
      WrapFits(MIN_INT64);
    } else {
      MulMonotone(q, 2, p);
      WrapFits(q + 1);
      WrapNegative(p * (q + 1));
    }
    DivMonotone(0, 0, Interval(r));
    WrapFits(1);
    WrapFits(p);
  }

  /** Buckets never go back exactly when the threshold fits for every elapsed time. */
  lemma SteadyIff(r: Rollout)
    requires Admitted(r)
    ensures NoOverflow(r) <==> Steady(r)
  {
    if NoOverflow(r) {
      forall b, e1, e2 | 0 <= b < BUCKETS && 0 <= e1 <= e2 <= MAX_INT64 && Switched(r, b, e1) ensures Switched(r, b, e2) {
        hide Switched, NoOverflow;
        SwitchesExactlyWhen(r, b, e1);
        SwitchesExactlyWhen(r, b, e2);
      }
    } else {
      OverflowGoesBack(r);
    }
  }

  /** An input: with 100 percent every nanosecond a switched bucket goes back after three years. */
  lemma ShortIntervalGoesBack()
    ensures
      var r := Rollout(100, 1);
      && Admitted(r) && !NoOverflow(r)
      && Switched(r, 0, 0)
      && !Switched(r, 0, 92233720368547758)
  {
  }

  // ----- The controller -----

  /** The distributed image: the tag, the pinned digest, or on a failed lookup what is out already. */
  function Target(spec: Spec, seen: Status, pinned: Option<string>): string {
    if !spec.trackDigest then spec.image
    else if pinned.Some? then pinned.value
    else seen.image
  }

  /** Timestamps are stored with a resolution of one second. */
  function Stored(t: int): int {
    t - t % SECOND
  }

  lemma StoredWithinASecond(t: int)
    ensures t - 1_000_000_000 < Stored(t) <= t && Stored(t) % 1_000_000_000 == 0
  {
  }

  /** How a status changes when a target is to be distributed. */
  function Adopt(cur: Status, target: string, now: int): Status {
    if target == "" || target == cur.image then cur
    else if cur.image == "" then cur.(image := target)
    else Status(target, cur.image, Some(Stored(now)))
  }

  /**
   A failed digest lookup leaves the rollout alone exactly when the status it fell back on,
   from the first read, is the one found by the second read, or was still empty.
   */
  lemma FailureLeavesRolloutIff(spec: Spec, first: Status, cur: Status, now: int)
    requires spec.trackDigest
    ensures Adopt(cur, Target(spec, first, None), now) == cur <==> first.image == "" || first.image == cur.image
  {
  }

  datatype Member = Member(channel: Option<string>, image: string)

  ghost function Following(fleet: seq<Member>, channel: string, n: nat): set<nat>
    requires n <= |fleet|
  {
    set i: nat | i < n && fleet[i].channel == Some(channel)
  }

  ghost function OnTarget(fleet: seq<Member>, channel: string, target: string, n: nat): set<nat>
    requires n <= |fleet|
  {
    set i: nat | i < n && fleet[i].channel == Some(channel) && fleet[i].image == target != ""
  }

  lemma FollowingNext(fleet: seq<Member>, channel: string, n: nat)
    requires n < |fleet|
    ensures |Following(fleet, channel, n + 1)| ==
      |Following(fleet, channel, n)| + if fleet[n].channel == Some(channel) then 1 else 0
  {
    var s := Following(fleet, channel, n);
    assert Following(fleet, channel, n + 1) == if fleet[n].channel == Some(channel) then s + {n} else s;
  }

  lemma OnTargetNext(fleet: seq<Member>, channel: string, target: string, n: nat)
    requires n < |fleet|
    ensures |OnTarget(fleet, channel, target, n + 1)| ==
      |OnTarget(fleet, channel, target, n)| + if fleet[n].channel == Some(channel) && fleet[n].image == target != "" then 1 else 0
  {
    var s := OnTarget(fleet, channel, target, n);
    assert OnTarget(fleet, channel, target, n + 1) == if fleet[n].channel == Some(channel) && fleet[n].image == target != "" then s + {n} else s;
  }

  /** The counting loop: how many instances follow the channel, and how many run the target. */
  method Count(fleet: seq<Member>, channel: string, target: string) returns (instances: nat, updated: nat)
    ensures instances == |Following(fleet, channel, |fleet|)|
    ensures updated == |OnTarget(fleet, channel, target, |fleet|)|
    ensures updated <= instances
  {
    instances, updated := 0, 0;
    for n := 0 to |fleet|
      invariant instances == |Following(fleet, channel, n)|
      invariant updated == |OnTarget(fleet, channel, target, n)|
      invariant updated <= instances
    {
      hide Following, OnTarget;
      FollowingNext(fleet, channel, n);
      OnTargetNext(fleet, channel, target, n);
      if fleet[n].channel == Some(channel) {
        instances := instances + 1;
        if target != "" && fleet[n].image == target {
          updated := updated + 1;
        }
      }
    }
  }

  /** One thing that can happen to a channel. */
  datatype Act =
    | EditImage(image: string, trackDigest: bool)
    | Reconcile(pinned: Option<string>, fleet: seq<Member>)
    | Wait(duration: nat)

  class ChannelController {
    const name: string
    const rollout: Option<Rollout>
    var image: string
    var trackDigest: bool
    var status: Status
    var instances: nat
    var updated: nat
    var clock: int
    /** Every target the channel has adopted, oldest first, and when it adopted the last. */
    ghost var adopted: seq<string>
    ghost var since: int

    ghost predicate Valid()
      reads this
    {
      && image != ""
      && (rollout.Some? ==> Admitted(rollout.value) && NoOverflow(rollout.value))
      && Records(status, adopted)
      && (status.changedAt.Some? ==> since - 1_000_000_000 < status.changedAt.value <= since)
      && since <= clock
    }

    /** A channel nothing has been distributed on. */
    constructor (name: string, rollout: Option<Rollout>, image: string, trackDigest: bool, clock: int)
      requires image != "" && (rollout.Some? ==> Admitted(rollout.value) && NoOverflow(rollout.value))
      ensures Valid() && adopted == []
    {
      this.name, this.rollout, this.image, this.trackDigest, this.clock := name, rollout, image, trackDigest, clock;
      status, instances, updated, adopted, since := Status("", "", None), 0, 0, [], clock;
    }

    function SpecNow(): Spec
      reads this
    {
      Spec(image, rollout, trackDigest)
    }

    /** The number of the target a bucket follows now; 0 before any was adopted. */
    ghost function Number(bucket: int): nat
      reads this
      requires Valid()
    {
      NumberAt(rollout, status, adopted, bucket, clock)
    }

    /** Reconcile with fresh reads: adopts the target and counts the followers. */
    method DoReconcile(pinned: Option<string>, fleet: seq<Member>) returns (target: string)
      requires Valid()
      modifies this`status, this`instances, this`updated, this`adopted, this`since
      ensures Valid()
      ensures !trackDigest ==> target == image
      ensures trackDigest && pinned.Some? ==> target == pinned.value
      ensures trackDigest && pinned.None? ==> target == old(status.image)
      ensures target == "" || target == old(status.image) ==> status == old(status) && since == old(since)
      ensures target != "" && target != old(status.image) ==>
        && status.image == target && since == clock
        && (old(status.image) != "" ==> status.previous == old(status.image) && status.changedAt == Some(Stored(clock)))
        && (old(status.image) == "" ==> status.previous == old(status.previous) && status.changedAt == old(status.changedAt))
      ensures adopted == if target == "" || target == old(status.image) then old(adopted) else old(adopted) + [target]
      ensures instances == |Following(fleet, name, |fleet|)|
      ensures updated == |OnTarget(fleet, name, target, |fleet|)|
      ensures forall b | 0 <= b < BUCKETS :: Number(b) >= old(Number(b))
    {
      hide Following, OnTarget, NoOverflow, NumberAt, Records, Stored;
      target := Target(SpecNow(), status, pinned);
      instances, updated := Count(fleet, name, target);
      if target != "" && target != status.image {
        AdoptRecords(status, adopted, target, clock);
        forall b | 0 <= b < BUCKETS {
          AdoptMovesOn(rollout, status, adopted, target, b, clock);
        }
        adopted, since := adopted + [target], clock;
        StoredWithinASecond(clock);
        if status.image != "" {
          status := Status(target, status.image, Some(Stored(clock)));
        } else {
          status := status.(image := target);
        }
      }
    }

    method Advance(duration: nat)
      requires Valid()
      modifies this`clock
      ensures Valid() && clock == old(clock) + duration
      ensures forall b | 0 <= b < BUCKETS :: Number(b) >= old(Number(b))
    {
      forall b | 0 <= b < BUCKETS {
        NumberGrowsWithTime(rollout, status, adopted, b, clock, clock + duration);
      }
      clock := clock + duration;
    }

    method Edit(image: string, trackDigest: bool)
      requires Valid()
      modifies this`image, this`trackDigest
      ensures Valid() && forall b | 0 <= b < BUCKETS :: Number(b) == old(Number(b))
      ensures image != "" ==> this.image == image && this.trackDigest == trackDigest
      ensures image == "" ==> this.image == old(this.image) && this.trackDigest == old(this.trackDigest)
    {
      if image != "" {
        this.image, this.trackDigest := image, trackDigest;
      }
    }

    /** A bucket follows the newest target exactly when its share of the time has passed since the stored change. */
    lemma FollowsNewestIff(bucket: int)
      requires Valid() && |adopted| >= 2 && rollout.Some? && 0 <= bucket
      ensures
        var r := rollout.value;
        var wait := bucket / (if r.batchPercent == 0 then 20 else r.batchPercent)
          * if r.interval <= 0 then 3_600_000_000_000 else r.interval;
        Number(bucket) == |adopted| <==> wait <= clock - status.changedAt.value && wait <= MAX_INT64
    {
      SwitchesByTheClock(SpecNow(), status, bucket, clock);
      ImageIsNumbered(SpecNow(), status, adopted, bucket, clock);
    }

    /** The time of the last batch, that of bucket 99, has passed since the newest target. */
    ghost predicate LastBatchDue()
      reads this
      requires rollout.Some?
    {
      var r := rollout.value;
      var wait := 99 / (if r.batchPercent == 0 then 20 else r.batchPercent)
        * if r.interval <= 0 then 3_600_000_000_000 else r.interval;
      wait <= clock - since && wait <= MAX_INT64
    }

    /** Once the last batch's time has passed without a new target, the whole fleet follows the newest. */
    lemma FleetFollowsNewest()
      requires Valid() && rollout.Some? && LastBatchDue()
      ensures forall b | 0 <= b < BUCKETS :: Number(b) == |adopted|
    {
      if |adopted| >= 2 {
        FollowsNewestIff(99);
        forall b | 0 <= b < BUCKETS ensures Number(b) == |adopted| {
          EarlierBuckets(rollout.value, b, Elapsed(status.changedAt.value, clock));
        }
      }
    }

    /**
     Over every run no bucket ever goes back to an earlier target, and once the last batch's time
     has passed since the newest target every bucket follows it.
     */
    method Run(acts: seq<Act>)
      requires Valid()
      modifies this`image, this`trackDigest, this`status, this`instances, this`updated, this`clock, this`adopted, this`since
      ensures Valid() && old(adopted) <= adopted
      ensures old(clock) <= clock && (adopted == old(adopted) ==> since == old(since)) && (adopted != old(adopted) ==> since >= old(clock))
      ensures forall b | 0 <= b < BUCKETS :: Number(b) >= old(Number(b))
      ensures rollout.Some? && LastBatchDue() ==> forall b | 0 <= b < BUCKETS :: Number(b) == |adopted|
    {
      for i := 0 to |acts|
        invariant Valid() && old(adopted) <= adopted
        invariant old(clock) <= clock && (adopted == old(adopted) ==> since == old(since)) && (adopted != old(adopted) ==> since >= old(clock))
        invariant forall b | 0 <= b < BUCKETS :: Number(b) >= old(Number(b))
      {
        match acts[i] {
          case EditImage(x, t) => Edit(x, t);
          case Reconcile(pinned, fleet) => var _ := DoReconcile(pinned, fleet);
          case Wait(d) => Advance(d);
        }
      }
      if rollout.Some? && LastBatchDue() {
        FleetFollowsNewest();
      }
    }
  }

  /** The status is what remains of the adopted targets: the last, the one before, and since when. */
  ghost predicate Records(st: Status, adopted: seq<string>) {
    var n := |adopted|;
    && (forall i | 0 <= i < n :: adopted[i] != "")
    && (forall i | 0 < i < n :: adopted[i - 1] != adopted[i])
    && st.image == (if n == 0 then "" else adopted[n - 1])
    && st.previous == (if n < 2 then "" else adopted[n - 2])
    && (st.changedAt.Some? <==> n >= 2)
  }

  ghost function NumberAt(rollout: Option<Rollout>, st: Status, adopted: seq<string>, bucket: int, now: int): nat
    requires Records(st, adopted)
  {
    if |adopted| < 2 || rollout.None? then |adopted|
    else if bucket < Threshold(rollout.value, Elapsed(st.changedAt.value, now)) then |adopted|
    else |adopted| - 1
  }

  /** The image a bucket follows is the target with that number, one of the last two. */
  lemma ImageIsNumbered(spec: Spec, st: Status, adopted: seq<string>, bucket: int, now: int)
    requires Records(st, adopted)
    ensures
      var k := NumberAt(spec.rollout, st, adopted, bucket, now);
      && |adopted| - 1 <= k <= |adopted|
      && ImageFor(spec, st, bucket, now) == if k == 0 then spec.image else adopted[k - 1]
  {
  }

  /** A previous image, when there is one, differs from the current one. */
  lemma PreviousDiffers(st: Status, adopted: seq<string>)
    requires Records(st, adopted)
    ensures st.previous != "" ==> st.previous != st.image && st.changedAt.Some?
  {
  }

  lemma AdoptRecords(st: Status, adopted: seq<string>, target: string, now: int)
    requires Records(st, adopted) && target != "" && target != st.image
    ensures Records(Adopt(st, target, now), adopted + [target])
    ensures st.image == "" ==> st.changedAt.None?
  {
  }

  lemma AdoptMovesOn(rollout: Option<Rollout>, st: Status, adopted: seq<string>, target: string, bucket: int, now: int)
    requires Records(st, adopted) && target != "" && target != st.image && Records(Adopt(st, target, now), adopted + [target])
    ensures NumberAt(rollout, Adopt(st, target, now), adopted + [target], bucket, now)
      >= NumberAt(rollout, st, adopted, bucket, now)
  {
  }

  lemma NumberGrowsWithTime(rollout: Option<Rollout>, st: Status, adopted: seq<string>, bucket: int, t: int, u: int)
    requires Records(st, adopted) && t <= u && 0 <= bucket
    requires rollout.Some? ==> Admitted(rollout.value) && NoOverflow(rollout.value)
    ensures NumberAt(rollout, st, adopted, bucket, t) <= NumberAt(rollout, st, adopted, bucket, u)
  {
    if |adopted| >= 2 && rollout.Some? {
      SwitchesExactlyWhen(rollout.value, bucket, Elapsed(st.changedAt.value, t));
      SwitchesExactlyWhen(rollout.value, bucket, Elapsed(st.changedAt.value, u));
    }
  }
}

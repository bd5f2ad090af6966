/**
 The digest cache that concurrent reconciles share. The lock is held for the lookup and for
 the store and released around the registry call, so a call is four steps, and a run is any
 interleaving of the steps of any number of calls with the passing of time.
 */
module DigestCache {
  import opened Wrappers
  import opened Text

  const AT := '@'
  const COMMA := ','
  /** 5 minutes, in nanoseconds. */
  const TTL := 300_000_000_000
  const MAX_ENTRIES := 1024

  // ----- Keys -----

  function CacheKey(image: string, keyID: string): string {
    image + [NUL] + keyID
  }

  /** Image references hold no NUL, and then calls share an entry only for one image and one key. */
  lemma CacheKeyInjective(image: string, keyID: string, image': string, keyID': string)
    requires Free(image, NUL) && Free(image', NUL)
    ensures CacheKey(image, keyID) == CacheKey(image', keyID') <==> image == image' && keyID == keyID'
  {
    if CacheKey(image, keyID) == CacheKey(image', keyID') {
      FirstSeparator(image, image', keyID, keyID', NUL);
    }
  }

  /** With a NUL in an image two different calls can share an entry. */
  lemma CacheKeyAmbiguous()
    ensures CacheKey("a\0b", "c") == CacheKey("a", "b\0c")
  {
    assert CacheKey("a\0b", "c") == "a\0b\0c" == CacheKey("a", "b\0c");
  }

  // ----- The authentication context -----

  function Join(names: seq<string>): string {
    if names == [] then "" else if |names| == 1 then names[0] else names[0] + [COMMA] + Join(names[1..])
  }

  predicate CommaFree(names: seq<string>) {
    forall i | 0 <= i < |names| :: Free(names[i], COMMA)
  }

  lemma JoinHasComma(names: seq<string>)
    requires |names| > 1
    ensures !Free(Join(names), COMMA)
  {
    assert Join(names)[|names[0]|] == COMMA;
  }

  lemma {:induction false} JoinInjective(a: seq<string>, b: seq<string>)
    requires a != [] && b != [] && CommaFree(a) && CommaFree(b) && Join(a) == Join(b)
    ensures a == b
  {
    if |a| == 1 {
      if |b| > 1 { JoinHasComma(b); }
    } else if |b| == 1 {
      JoinHasComma(a);
    } else {
      FirstSeparator(a[0], b[0], Join(a[1..]), Join(b[1..]), COMMA);
      JoinInjective(a[1..], b[1..]);
      assert a == [a[0]] + a[1..] && b == [b[0]] + b[1..];
    }
  }

  function PullSecretKeyID(namespace: string, names: seq<string>): string {
    if names == [] then "" else namespace + [NUL] + Join(Sort(names))
  }

  predicate SameCredentials(namespace: string, names: seq<string>, namespace': string, names': seq<string>) {
    (names == [] && names' == []) || (namespace == namespace' && multiset(names) == multiset(names'))
  }

  lemma SortCommaFree(names: seq<string>)
    requires CommaFree(names)
    ensures CommaFree(Sort(names))
  {
    SortSorts(names);
    forall i | 0 <= i < |Sort(names)| ensures Free(Sort(names)[i], COMMA) {
      assert Sort(names)[i] in multiset(names);
    }
  }

  /** Instances share registry answers exactly when they use the same pull secrets, in any order. */
  lemma KeyIDIdentifiesCredentials(namespace: string, names: seq<string>, namespace': string, names': seq<string>)
    requires Free(namespace, NUL) && Free(namespace', NUL) && CommaFree(names) && CommaFree(names')
    ensures PullSecretKeyID(namespace, names) == PullSecretKeyID(namespace', names')
        <==> SameCredentials(namespace, names, namespace', names')
  {
    SortSorts(names);
    SortSorts(names');
    assert names == [] <==> |multiset(names)| == 0;
    assert names' == [] <==> |multiset(names')| == 0;
    if names != [] && names' != [] {
      if multiset(names) == multiset(names') {
        SortedUnique(Sort(names), Sort(names'));
      }
      if PullSecretKeyID(namespace, names) == PullSecretKeyID(namespace', names') {
        FirstSeparator(namespace, namespace', Join(Sort(names)), Join(Sort(names')), NUL);
        SortCommaFree(names);
        SortCommaFree(names');
        assert |Sort(names)| == |multiset(names)| && |Sort(names')| == |multiset(names')|;
        JoinInjective(Sort(names), Sort(names'));
      }
    }
  }

  // ----- The cache -----

  datatype Entry = Entry(digest: string, resolvedAt: int)

  /** A call of Pinned between two of its steps. */
  datatype Call =
    | Looked(image: string, keyID: string, seen: Option<Entry>)
    | Asking(image: string, keyID: string, seen: Option<Entry>)
    | Resolved(image: string, keyID: string, seen: Option<Entry>, digest: string)

  /** What a call handed back, and which way it took. */
  datatype Outcome = Already | Hit(text: string) | Stale(text: string) | Renewed(text: string) | Failed

  datatype Event =
    | Answered(image: string, keyID: string, digest: string, at: int)
    | Unreachable(image: string, keyID: string, at: int)
    | Returned(image: string, keyID: string, seen: Option<Entry>, outcome: Outcome, at: int)

  predicate HasDigest(image: string) {
    !Free(image, AT)
  }

  function Pin(image: string, digest: string): string {
    image + [AT] + digest
  }

  /** A reference that is pinned has an @, and what is handed back is the image, an @ and the digest. */
  lemma Pinned(image: string, digest: string)
    ensures HasDigest(image) <==> '@' in image
    ensures Pin(image, digest) == image + "@" + digest && HasDigest(Pin(image, digest))
  {
    assert Pin(image, digest)[|image|] == '@';
  }

  /** An entry serves for five minutes and is expired from then on; the cache has room for 1024. */
  lemma Limits(e: Entry, now: int)
    ensures Young(Some(e), now) <==> now < e.resolvedAt + 300_000_000_000
    ensures Expired(e, now) <==> now >= e.resolvedAt + 300_000_000_000
    ensures MAX_ENTRIES == 1024
  {
  }

  /** The registry gave this digest for this very image and key, no later than `at`. */
  ghost predicate Given(log: seq<Event>, i: int, image: string, keyID: string, digest: string, at: int) {
    0 <= i < |log| && log[i].Answered? && log[i].image == image && log[i].keyID == keyID && log[i].digest == digest
    && log[i].at <= at
  }

  ghost predicate Known(log: seq<Event>, image: string, keyID: string, digest: string, at: int) {
    exists i :: Given(log, i, image, keyID, digest, at)
  }

  /** The j-th event is the return of a call that stored this entry under this key. */
  ghost predicate Stores(log: seq<Event>, j: int, key: string, e: Entry) {
    0 <= j < |log| && log[j].Returned? && log[j].outcome == Renewed(Pin(log[j].image, e.digest))
    && CacheKey(log[j].image, log[j].keyID) == key && log[j].at == e.resolvedAt
  }

  /** Some call stored this entry. */
  ghost predicate Vouched(log: seq<Event>, key: string, e: Entry) {
    exists j :: Stores(log, j, key, e)
  }

  /** Some call for this very image and key was answered with an error. */
  ghost predicate Broken(log: seq<Event>, image: string, keyID: string) {
    exists i :: 0 <= i < |log| && log[i].Unreachable? && log[i].image == image && log[i].keyID == keyID
  }

  /** What a call may hand back, given what happened before. */
  ghost predicate ReturnOk(before: seq<Event>, e: Event) {
    e.Returned? ==>
      match e.outcome
      case Already => HasDigest(e.image)
      case Hit(text) => Young(e.seen, e.at)
        && text == Pin(e.image, e.seen.value.digest) && Vouched(before, CacheKey(e.image, e.keyID), e.seen.value)
      case Stale(text) => e.seen.Some? && Broken(before, e.image, e.keyID)
        && text == Pin(e.image, e.seen.value.digest) && Vouched(before, CacheKey(e.image, e.keyID), e.seen.value)
      case Renewed(text) => exists d :: Known(before, e.image, e.keyID, d, e.at) && text == Pin(e.image, d)
      case Failed => e.seen.None? && Broken(before, e.image, e.keyID)
  }

  ghost predicate LogOk(log: seq<Event>) {
    forall i | 0 <= i < |log| :: ReturnOk(log[..i], log[i])
  }

  /** Nothing has happened later than now. */
  ghost predicate Timely(log: seq<Event>, clock: int) {
    forall i | 0 <= i < |log| :: log[i].at <= clock
  }

  ghost predicate CacheOk(cache: map<string, Entry>, log: seq<Event>) {
    && |cache| <= MAX_ENTRIES
    && (forall k | k in cache :: Vouched(log, k, cache[k]))
  }

  ghost predicate CallOk(c: Call, log: seq<Event>) {
    && (c.seen.Some? ==> Vouched(log, CacheKey(c.image, c.keyID), c.seen.value))
    && (c.Resolved? ==> exists at :: Known(log, c.image, c.keyID, c.digest, at))
  }

  ghost predicate CallsOk(calls: map<nat, Call>, log: seq<Event>) {
    forall id | id in calls :: CallOk(calls[id], log)
  }

  lemma VouchedLater(log: seq<Event>, e: Event, key: string, entry: Entry)
    requires Vouched(log, key, entry)
    ensures Vouched(log + [e], key, entry)
  {
    var j :| Stores(log, j, key, entry);
    assert Stores(log + [e], j, key, entry);
  }

  lemma KnownLater(log: seq<Event>, e: Event, image: string, keyID: string, digest: string, at: int)
    requires Known(log, image, keyID, digest, at)
    ensures Known(log + [e], image, keyID, digest, at)
  {
    var i :| Given(log, i, image, keyID, digest, at);
    assert Given(log + [e], i, image, keyID, digest, at);
  }

  lemma CallLater(c: Call, log: seq<Event>, e: Event)
    requires CallOk(c, log)
    ensures CallOk(c, log + [e])
  {
    if c.seen.Some? {
      VouchedLater(log, e, CacheKey(c.image, c.keyID), c.seen.value);
    }
    if c.Resolved? {
      var at :| Known(log, c.image, c.keyID, c.digest, at);
      KnownLater(log, e, c.image, c.keyID, c.digest, at);
    }
  }

  lemma OkLater(cache: map<string, Entry>, calls: map<nat, Call>, log: seq<Event>, e: Event)
    requires CacheOk(cache, log) && CallsOk(calls, log)
    ensures CacheOk(cache, log + [e]) && CallsOk(calls, log + [e])
  {
    forall k | k in cache ensures Vouched(log + [e], k, cache[k]) {
      VouchedLater(log, e, k, cache[k]);
    }
    forall id | id in calls ensures CallOk(calls[id], log + [e]) {
      CallLater(calls[id], log, e);
    }
  }

  lemma LogOkNext(log: seq<Event>, e: Event)
    requires LogOk(log) && ReturnOk(log, e)
    ensures LogOk(log + [e])
  {
    var l := log + [e];
    forall i | 0 <= i < |l| ensures ReturnOk(l[..i], l[i]) {
      assert l[..i] == if i < |log| then log[..i] else log;
    }
  }

  lemma PinInjective(image: string, a: string, b: string)
    requires Pin(image, a) == Pin(image, b)
    ensures a == b
  {
    assert a == Pin(image, a)[|image| + 1..] && b == Pin(image, b)[|image| + 1..];
  }

  /** An entry comes from an answer to the call that stored it, given before it was stored. */
  lemma StoredFromAnswer(log: seq<Event>, j: int, key: string, e: Entry)
    requires LogOk(log) && Stores(log, j, key, e)
    ensures exists k | 0 <= k < j :: Given(log, k, log[j].image, log[j].keyID, e.digest, e.resolvedAt)
  {
    assert ReturnOk(log[..j], log[j]);
    var d :| Known(log[..j], log[j].image, log[j].keyID, d, log[j].at) && log[j].outcome.text == Pin(log[j].image, d);
    PinInjective(log[j].image, d, e.digest);
    var k :| Given(log[..j], k, log[j].image, log[j].keyID, d, log[j].at);
    assert Given(log, k, log[j].image, log[j].keyID, e.digest, e.resolvedAt);
  }

  /** Every digest handed back was given by the registry before, for the same image and the same key. */
  lemma AnswersStayWithTheirKey(log: seq<Event>, i: nat)
    requires LogOk(log) && i < |log| && log[i].Returned? && (log[i].outcome.Hit? || log[i].outcome.Stale? || log[i].outcome.Renewed?)
    requires forall j | 0 <= j < |log| :: Free(log[j].image, NUL)
    ensures exists k, d | 0 <= k < i ::
      log[k].Answered? && log[k].image == log[i].image && log[k].keyID == log[i].keyID && log[k].digest == d
      && log[i].outcome.text == Pin(log[i].image, d)
  {
    var e, before := log[i], log[..i];
    assert ReturnOk(before, e);
    if e.outcome.Renewed? {
      var d :| Known(before, e.image, e.keyID, d, e.at) && e.outcome.text == Pin(e.image, d);
      var k :| Given(before, k, e.image, e.keyID, d, e.at);
      assert log[k] == before[k];
    } else {
      var key, entry := CacheKey(e.image, e.keyID), e.seen.value;
      var j :| Stores(before, j, key, entry);
      assert log[j] == before[j] && Stores(log, j, key, entry);
      StoredFromAnswer(log, j, key, entry);
      CacheKeyInjective(log[j].image, log[j].keyID, e.image, e.keyID);
      var k :| 0 <= k < j && Given(log, k, log[j].image, log[j].keyID, entry.digest, entry.resolvedAt);
    }
  }

  /**
   A hit's digest was stored less than five minutes ago, by a call the registry had given it to; so
   the answer is older by no more than the time from that answer to that store.
   */
  lemma HitIsFresh(log: seq<Event>, i: nat)
    requires LogOk(log) && i < |log| && log[i].Returned? && log[i].outcome.Hit?
    ensures exists j, k | 0 <= k < j < i ::
      && Stores(log, j, CacheKey(log[i].image, log[i].keyID), log[i].seen.value) && log[i].at - log[j].at < 300_000_000_000
      && Given(log, k, log[j].image, log[j].keyID, log[i].seen.value.digest, log[j].at)
      && log[i].at - log[k].at < 300_000_000_000 + (log[j].at - log[k].at)
  {
    var e, before := log[i], log[..i];
    assert ReturnOk(before, e);
    var key, entry := CacheKey(e.image, e.keyID), e.seen.value;
    var j :| Stores(before, j, key, entry);
    assert Stores(log, j, key, entry);
    StoredFromAnswer(log, j, key, entry);
  }

  /**
   An entry answered at one time and stored at another serves, whenever it serves, within five
   minutes of the answer exactly when it was stored as soon as it was answered.
   */
  lemma FreshFromAnswerIff(digest: string, answered: int, stored: int)
    requires answered <= stored
    ensures (forall t | stored <= t && Young(Some(Entry(digest, stored)), t) :: t - answered < TTL) <==> answered == stored
  {
    var t := stored + TTL - 1;
    assert Young(Some(Entry(digest, stored)), t);
  }

  /** A call whose lookup saw an entry never fails. */
  lemma SeenNeverFails(log: seq<Event>, i: nat)
    requires LogOk(log) && i < |log| && log[i].Returned? && log[i].seen.Some?
    ensures !log[i].outcome.Failed?
  {
    assert ReturnOk(log[..i], log[i]);
  }

  function Find(cache: map<string, Entry>, key: string): Option<Entry> {
    if key in cache then Some(cache[key]) else None
  }

  predicate Young(seen: Option<Entry>, now: int) {
    seen.Some? && now - seen.value.resolvedAt < TTL
  }

  /** What a call that saw an entry hands back when the registry does not answer. */
  function Fallback(c: Call): Outcome {
    if c.seen.Some? then Stale(Pin(c.image, c.seen.value.digest)) else Failed
  }

  // ----- Eviction -----

  ghost predicate Expired(e: Entry, now: int) {
    now - e.resolvedAt >= TTL
  }

  ghost predicate Within(a: map<string, Entry>, b: map<string, Entry>) {
    forall k | k in a :: k in b && a[k] == b[k]
  }

  /** `k` is an entry than which none is older. */
  ghost predicate Oldest(m: map<string, Entry>, k: string) {
    k in m && forall j | j in m :: m[k].resolvedAt <= m[j].resolvedAt
  }

  /** What is left after the sweep that began at `start` and ended at `end`. */
  ghost predicate Swept(before: map<string, Entry>, after: map<string, Entry>, start: int, end: int) {
    && Within(after, before)
    && (forall k | k in before && k !in after :: Expired(before[k], end))
    && (forall k | k in after :: !Expired(before[k], start))
  }

  /** The sweep left the cache full, so one oldest entry went too. */
  ghost predicate DroppedOldest(before: map<string, Entry>, after: map<string, Entry>, start: int, end: int) {
    exists swept, k ::
      Swept(before, swept, start, end) && |swept| >= MAX_ENTRIES && Oldest(swept, k) && after == swept - {k}
  }

  /** Eviction: nothing below the limit; else a sweep, and one oldest entry if that made no room. */
  ghost predicate Evicted(before: map<string, Entry>, after: map<string, Entry>, start: int, end: int) {
    if |before| < MAX_ENTRIES then after == before
    else (Swept(before, after, start, end) && |after| < MAX_ENTRIES) || DroppedOldest(before, after, start, end)
  }

  /** Room was made and the new entry is in. */
  ghost predicate Replaced(before: map<string, Entry>, after: map<string, Entry>, key: string, e: Entry, start: int, end: int) {
    exists evicted :: Evicted(before, evicted, start, end) && after == evicted[key := e]
  }

  lemma RemovedOne(m: map<string, Entry>, k: string)
    requires k in m
    ensures |m - {k}| == |m| - 1
  {
    assert (m - {k}).Keys == m.Keys - {k};
  }

  lemma WithinSmaller(a: map<string, Entry>, b: map<string, Entry>)
    requires Within(a, b)
    ensures |a| <= |b|
  {
    assert a.Keys <= b.Keys;
    SubsetSize(a.Keys, b.Keys);
  }

  lemma SubsetSize(a: set<string>, b: set<string>)
    requires a <= b
    ensures |a| <= |b|
  {
    assert b == a + (b - a);
  }

  /** Whatever is gone had expired or is in `lost`, whose members are no younger than what stays. */
  ghost predicate LosesOnly(before: map<string, Entry>, after: map<string, Entry>, lost: set<string>, end: int) {
    && (forall k | k in before && k !in after && k !in lost :: Expired(before[k], end))
    && (forall k, j | k in lost && j in after :: k in before && j in before && before[k].resolvedAt <= before[j].resolvedAt)
  }

  lemma SweptLosesNone(before: map<string, Entry>, after: map<string, Entry>, start: int, end: int)
    requires after == before || Swept(before, after, start, end)
    ensures Within(after, before) && LosesOnly(before, after, {}, end)
  {
  }

  lemma DroppedLosesOne(before: map<string, Entry>, swept: map<string, Entry>, k: string, start: int, end: int)
    requires Swept(before, swept, start, end) && Oldest(swept, k)
    ensures Within(swept - {k}, before) && LosesOnly(before, swept - {k}, {k}, end)
  {
    hide Expired;
  }

  /** Eviction loses only expired entries and at most one oldest of the live ones. */
  lemma EvictionLosesLittle(before: map<string, Entry>, after: map<string, Entry>, start: int, end: int)
    requires Evicted(before, after, start, end)
    ensures Within(after, before)
    ensures exists lost :: |lost| <= 1 && LosesOnly(before, after, lost, end)
  {
    hide LosesOnly, Within, Swept, Oldest;
    if |before| >= MAX_ENTRIES && DroppedOldest(before, after, start, end) {
      var swept, k :| Swept(before, swept, start, end) && |swept| >= MAX_ENTRIES && Oldest(swept, k) && after == swept - {k};
      DroppedLosesOne(before, swept, k, start, end);
    } else {
      SweptLosesNone(before, after, start, end);
    }
  }

  lemma SweptKeeps(before: map<string, Entry>, after: map<string, Entry>, log: seq<Event>)
    requires CacheOk(before, log) && Within(after, before)
    ensures CacheOk(after, log)
  {
    WithinSmaller(after, before);
  }

  lemma OneMoreGone(before: map<string, Entry>, swept: map<string, Entry>, k: string, log: seq<Event>, start: int, end: int)
    requires Swept(before, swept, start, end) && MAX_ENTRIES <= |swept| && Oldest(swept, k) && CacheOk(swept, log)
    ensures DroppedOldest(before, swept - {k}, start, end) && CacheOk(swept - {k}, log) && |swept - {k}| < MAX_ENTRIES
  {
    hide Swept;
    RemovedOne(swept, k);
    SweptKeeps(swept, swept - {k}, log);
  }

  class DigestResolver {
    var cache: map<string, Entry>
    var calls: map<nat, Call>
    var clock: int
    ghost var log: seq<Event>

    ghost predicate Valid()
      reads this
    {
      CacheOk(cache, log) && CallsOk(calls, log) && LogOk(log) && Timely(log, clock)
    }

    constructor (clock: int)
      ensures Valid() && cache == map[] && calls == map[] && log == [] && this.clock == clock
    {
      this.clock, cache, calls, log := clock, map[], map[], [];
    }

    method Tick(d: nat)
      modifies this`clock
      ensures clock == old(clock) + d
      ensures old(Valid()) ==> Valid()
    {
      clock := clock + d;
    }

    /** The sweep reads the clock again for every entry; `delay` says how long each reading took. */
    method Sweep(delay: nat)
      requires Valid()
      modifies this`cache, this`clock
      ensures Valid() && clock >= old(clock) && Swept(old(cache), cache, old(clock), clock)
    {
      var todo := cache.Keys;
      hide CacheOk, CallsOk, LogOk, Timely;
      while todo != {}
        invariant todo <= cache.Keys && clock >= old(clock)
        invariant Within(cache, old(cache))
        invariant forall k | k in old(cache) && k !in cache :: Expired(old(cache)[k], clock)
        invariant forall k | k in cache && k !in todo :: !Expired(cache[k], old(clock))
        decreases |todo|
      {
        var k :| k in todo;
        todo := todo - {k};
        clock := clock + delay;
        if clock - cache[k].resolvedAt >= TTL {
          cache := cache - {k};
        }
      }
      SweptKeeps(old(cache), cache, log);
      TimelyLater(log, old(clock), clock);
    }

    method FindOldest() returns (oldestKey: string)
      requires cache != map[]
      ensures Oldest(cache, oldestKey)
    {
      var todo, oldest, first := cache.Keys, 0, true;
      oldestKey := "";
      while todo != {}
        invariant todo <= cache.Keys && (first ==> todo == cache.Keys)
        invariant !first ==> oldestKey in cache && oldest == cache[oldestKey].resolvedAt
        invariant !first ==> forall k | k in cache && k !in todo :: oldest <= cache[k].resolvedAt
        decreases |todo|
      {
        var k :| k in todo;
        todo := todo - {k};
        if first || cache[k].resolvedAt < oldest {
          oldest, oldestKey, first := cache[k].resolvedAt, k, false;
        }
      }
    }

    method EvictLocked(delay: nat)
      requires Valid()
      modifies this`cache, this`clock
      ensures Valid() && clock >= old(clock) && |cache| < MAX_ENTRIES
      ensures Evicted(old(cache), cache, old(clock), clock)
    {
      hide CacheOk, CallsOk, LogOk, Timely, Swept, Oldest, DroppedOldest;
      if |cache| < MAX_ENTRIES {
        return;
      }
      Sweep(delay);
      if |cache| < MAX_ENTRIES {
        return;
      }
      var k := FindOldest();
      OneMoreGone(old(cache), cache, k, log, old(clock), clock);
      cache := cache - {k};
    }

    ghost method Record(e: Event)
      requires Valid() && ReturnOk(log, e) && e.at == clock
      modifies this`log
      ensures Valid() && log == old(log) + [e]
    {
      hide CacheOk, CallsOk, LogOk, ReturnOk;
      assert Timely(log + [e], clock);
      hide Timely;
      OkLater(cache, calls, log, e);
      LogOkNext(log, e);
      log := log + [e];
    }

    /** First step: an image that has a digest is returned as it is, else the entry is looked up. */
    method Look(id: nat, image: string, keyID: string)
      requires Valid()
      modifies this`calls, this`log
      ensures Valid() && old(log) <= log
      ensures id !in old(calls) && !HasDigest(image) ==>
        calls == old(calls)[id := Looked(image, keyID, Find(cache, CacheKey(image, keyID)))] && log == old(log)
      ensures id !in old(calls) && HasDigest(image) ==> log == old(log) + [Returned(image, keyID, None, Already, clock)]
    {
      if id in calls {
        return;
      }
      if HasDigest(image) {
        Record(Returned(image, keyID, None, Already, clock));
      } else {
        calls := calls[id := Looked(image, keyID, Find(cache, CacheKey(image, keyID)))];
      }
    }

    /** Second step: a young entry is the answer; else the registry is asked. */
    method Check(id: nat)
      requires Valid()
      modifies this`calls, this`log
      ensures Valid() && old(log) <= log
      ensures id in old(calls) && old(calls)[id].Looked? ==>
        var c := old(calls)[id];
        if c.seen.Some? && clock - c.seen.value.resolvedAt < 300_000_000_000
        then calls == old(calls) - {id}
          && log == old(log) + [Returned(c.image, c.keyID, c.seen, Hit(Pin(c.image, c.seen.value.digest)), clock)]
        else calls == old(calls)[id := Asking(c.image, c.keyID, c.seen)] && log == old(log)
    {
      if id in calls && calls[id].Looked? {
        var c := calls[id];
        assert CallOk(c, log);
        if Young(c.seen, clock) {
          calls := calls - {id};
          Record(Returned(c.image, c.keyID, c.seen, Hit(Pin(c.image, c.seen.value.digest)), clock));
        } else {
          calls := calls[id := Asking(c.image, c.keyID, c.seen)];
        }
      }
    }

    /** Third step: the registry's answer. On an error the entry seen at first serves. */
    method Answer(id: nat, answer: Option<string>)
      requires Valid()
      modifies this`calls, this`log
      ensures Valid() && old(log) <= log
      ensures id in old(calls) && old(calls)[id].Asking? && answer.None? ==>
        var c := old(calls)[id];
        && calls == old(calls) - {id}
        && log == old(log) + [Unreachable(c.image, c.keyID, clock)] + [Returned(c.image, c.keyID, c.seen, Fallback(c), clock)]
      ensures id in old(calls) && old(calls)[id].Asking? && answer.Some? ==>
        var c := old(calls)[id];
        && calls == old(calls)[id := Resolved(c.image, c.keyID, c.seen, answer.value)]
        && log == old(log) + [Answered(c.image, c.keyID, answer.value, clock)]
    {
      hide CacheOk, CallsOk, LogOk, ReturnOk, CallOk, Timely, Broken, Pin, Fallback;
      if id in calls && calls[id].Asking? {
        var c := calls[id];
        CallIs(calls, id, log);
        var e := if answer.None? then Unreachable(c.image, c.keyID, clock) else Answered(c.image, c.keyID, answer.value, clock);
        AlwaysRecordable(log, e);
        CallLater(c, log, e);
        Record(e);
        assert log[|log| - 1] == e;
        if answer.None? {
          CallsWithout(calls, id, log);
          calls := calls - {id};
          BrokenNow(log);
          var r := Returned(c.image, c.keyID, c.seen, Fallback(c), clock);
          FallbackOk(log, c, r);
          Record(r);
        } else {
          var d := Resolved(c.image, c.keyID, c.seen, answer.value);
          ResolvedOk(log, c, d, clock);
          CallsWith(calls, id, d, log);
          calls := calls[id := d];
        }
      }
    }

    /** Last step: make room, store the digest, return it. */
    method Store(id: nat, delay: nat)
      requires Valid()
      modifies this`cache, this`calls, this`clock, this`log
      ensures Valid() && old(log) <= log && clock >= old(clock)
      ensures id in old(calls) && old(calls)[id].Resolved? ==>
        var c := old(calls)[id];
        && calls == old(calls) - {id}
        && Replaced(old(cache), cache, CacheKey(c.image, c.keyID), Entry(c.digest, clock), old(clock), clock)
        && log == old(log) + [Returned(c.image, c.keyID, c.seen, Renewed(Pin(c.image, c.digest)), clock)]
    {
      hide CacheOk, CallsOk, LogOk, Evicted, Timely, ReturnOk, CallOk, Pin, CacheKey;
      if id in calls && calls[id].Resolved? {
        var c := calls[id];
        CallIs(calls, id, log);
        CallsWithout(calls, id, log);
        calls := calls - {id};
        EvictLocked(delay);
        var key := CacheKey(c.image, c.keyID);
        var r := Returned(c.image, c.keyID, c.seen, Renewed(Pin(c.image, c.digest)), clock);
        RenewedOk(log, c, r, clock);
        Record(r);
        StoreKeeps(cache, log, c, clock);
        cache := cache[key := Entry(c.digest, clock)];
      }
    }

    /** Every interleaving keeps the bound on the cache and the promise of every returned digest. */
    method Run(acts: seq<Act>)
      requires Valid()
      modifies this
      ensures Valid() && old(log) <= log
    {
      for i := 0 to |acts|
        invariant Valid() && old(log) <= log
      {
        hide CacheOk, CallsOk, LogOk;
        match acts[i] {
          case Start(id, image, keyID) => Look(id, image, keyID);
          case Decide(id) => Check(id);
          case Hear(id, answer) => Answer(id, answer);
          case Finish(id, delay) => Store(id, delay);
          case Wait(d) => Tick(d);
        }
      }
    }
  }

  lemma StoreKeeps(cache: map<string, Entry>, log: seq<Event>, c: Call, clock: int)
    requires CacheOk(cache, log) && |cache| < MAX_ENTRIES && c.Resolved? && log != []
    requires log[|log| - 1] == Returned(c.image, c.keyID, c.seen, Renewed(Pin(c.image, c.digest)), clock)
    ensures CacheOk(cache[CacheKey(c.image, c.keyID) := Entry(c.digest, clock)], log)
  {
    var key, e := CacheKey(c.image, c.keyID), Entry(c.digest, clock);
    assert Stores(log, |log| - 1, key, e);
    assert cache[key := e].Keys == cache.Keys + {key};
  }

  lemma RenewedOk(log: seq<Event>, c: Call, r: Event, clock: int)
    requires c.Resolved? && CallOk(c, log) && Timely(log, clock)
    requires r == Returned(c.image, c.keyID, c.seen, Renewed(Pin(c.image, c.digest)), clock)
    ensures ReturnOk(log, r)
  {
    var at :| Known(log, c.image, c.keyID, c.digest, at);
    var i :| Given(log, i, c.image, c.keyID, c.digest, at);
    assert Given(log, i, c.image, c.keyID, c.digest, clock);
    assert Known(log, c.image, c.keyID, c.digest, clock);
  }

  lemma TimelyLater(log: seq<Event>, a: int, b: int)
    requires Timely(log, a) && a <= b
    ensures Timely(log, b)
  {
  }

  lemma CallIs(calls: map<nat, Call>, id: nat, log: seq<Event>)
    requires CallsOk(calls, log) && id in calls
    ensures CallOk(calls[id], log)
  {
  }

  lemma CallsWith(calls: map<nat, Call>, id: nat, c: Call, log: seq<Event>)
    requires CallsOk(calls, log) && CallOk(c, log)
    ensures CallsOk(calls[id := c], log)
  {
  }

  lemma CallsWithout(calls: map<nat, Call>, id: nat, log: seq<Event>)
    requires CallsOk(calls, log)
    ensures CallsOk(calls - {id}, log)
  {
  }

  lemma AlwaysRecordable(log: seq<Event>, e: Event)
    requires !e.Returned?
    ensures ReturnOk(log, e)
  {
  }

  lemma ResolvedOk(log: seq<Event>, c: Call, d: Call, clock: int)
    requires CallOk(c, log) && d.Resolved? && d.image == c.image && d.keyID == c.keyID && d.seen == c.seen
    requires log != [] && log[|log| - 1] == Answered(d.image, d.keyID, d.digest, clock)
    ensures CallOk(d, log)
  {
    assert Given(log, |log| - 1, d.image, d.keyID, d.digest, clock);
    assert Known(log, d.image, d.keyID, d.digest, clock);
  }

  lemma BrokenNow(log: seq<Event>)
    requires log != [] && log[|log| - 1].Unreachable?
    ensures Broken(log, log[|log| - 1].image, log[|log| - 1].keyID)
  {
  }

  lemma FallbackOk(log: seq<Event>, c: Call, r: Event)
    requires CallOk(c, log) && Broken(log, c.image, c.keyID)
    requires r.Returned? && r.image == c.image && r.keyID == c.keyID && r.seen == c.seen && r.outcome == Fallback(c)
    ensures ReturnOk(log, r)
  {
    hide Vouched, Broken, Pin;
  }

  /** One step of one call, or time passing. */
  datatype Act =
    | Start(id: nat, image: string, keyID: string)
    | Decide(id: nat)
    | Hear(id: nat, answer: Option<string>)
    | Finish(id: nat, delay: nat)
    | Wait(d: nat)

  /** A resolver whose first call, for `image`, was answered at time 0 and stored five minutes later. */
  method HeldUpStore(image: string) returns (r: DigestResolver)
    requires !HasDigest(image)
    ensures fresh(r) && r.Valid() && |r.log| == 2 && r.log[0] == Answered(image, "", "d", 0)
    ensures r.calls == map[] && r.clock >= TTL && r.cache == map[CacheKey(image, "") := Entry("d", r.clock)]
  {
    hide CacheOk, CallsOk, LogOk, Timely, HasDigest, Pin, CacheKey;
    r := new DigestResolver(0);
    r.Look(0, image, "");
    r.Check(0);
    r.Answer(0, Some("d"));
    r.Tick(TTL);
    r.Store(0, 0);
  }

  /**
   A hit can be on a digest the registry gave longer ago than five minutes: a call may be held up
   between its answer and its store, and an entry's age is counted from the store.
   */
  method OldAnswerHit(image: string) returns (r: DigestResolver)
    requires !HasDigest(image)
    ensures fresh(r) && r.Valid() && |r.log| == 3
    ensures r.log[0] == Answered(image, "", "d", 0)
    ensures r.log[2].Returned? && r.log[2].outcome == Hit(Pin(image, "d")) && r.log[2].at - r.log[0].at >= TTL
  {
    hide CacheOk, CallsOk, LogOk, Timely, HasDigest, Pin, CacheKey;
    r := HeldUpStore(image);
    r.Look(1, image, "");
    r.Check(1);
  }
}

/** The token-bucket rate limiter (src/rpc.rs, `RateLimiter`) over real time in seconds. */
module Limiter {
  import opened Common

  const MAX_BUCKETS: nat := 10_000
  const BUCKET_TTL: real := 600.0
  const PRUNE_INTERVAL: real := 60.0

  /** A client address; absent for the shared bucket. */
  type Key = Option<string>

  datatype Bucket = Bucket(tokens: real, lastRefill: real, lastSeen: real)

  /** `perSecond` is both the refill rate and the capacity of every bucket. */
  datatype Table = Table(perSecond: nat, buckets: map<Key, Bucket>, lastPruned: real) {
    function Capacity(): real {
      perSecond as real
    }
  }

  /** `duration_since`, which never goes below zero. */
  function Since(now: real, earlier: real): real {
    if now > earlier then now - earlier else 0.0
  }

  function Min(a: real, b: real): real {
    if a < b then a else b
  }

  function Ceiling(x: real): int {
    if x.Floor as real == x then x.Floor else x.Floor + 1
  }

  // ---------- one check ----------

  function Prune(t: Table, now: real): Table {
    if Since(now, t.lastPruned) >= PRUNE_INTERVAL then
      var kept := map k |
        k in t.buckets && (k == None || Since(now, t.buckets[k].lastSeen) < BUCKET_TTL) :: t.buckets[k];
      t.(buckets := kept, lastPruned := now)
    else t
  }

  /** The bucket a client is charged to: its own, or the shared one when the table is full. */
  function ChargedTo(t: Table, client: Key): Key {
    if client in t.buckets || |t.buckets| < MAX_BUCKETS then client else None
  }

  /** A bucket's tokens after refilling, never above the capacity. */
  function Refilled(b: Bucket, capacity: real, now: real): real {
    Min(b.tokens + Since(now, b.lastRefill) * capacity, capacity)
  }

  /** The tokens of a bucket at a time; a client without a bucket would get a full one. */
  function Level(t: Table, key: Key, now: real): real {
    if key in t.buckets then Refilled(t.buckets[key], t.Capacity(), now) else t.Capacity()
  }

  datatype Verdict = Admitted | RetryAfter(millis: nat)

  function RetryMillis(tokens: real, capacity: real): nat
    requires capacity > 0.0
  {
    var wait := Ceiling((1.0 - tokens) / capacity * 1000.0);
    if wait > 1 then wait else 1
  }

  /** `check`, in terms of the level of the charged bucket. */
  function Check(t: Table, client: Key, now: real): (r: (Table, Verdict))
    requires t.perSecond > 0
    ensures r.0.perSecond == t.perSecond
  {
    var pruned := Prune(t, now);
    var key := ChargedTo(pruned, client);
    var level := Level(pruned, key, now);
    var left := if level < 1.0 then level else level - 1.0;
    (pruned.(buckets := pruned.buckets[key := Bucket(left, now, now)]),
     if level < 1.0 then RetryAfter(RetryMillis(level, t.Capacity())) else Admitted)
  }

  // ---------- the limiter object ----------

  /** The table is bounded and always has the shared bucket; buckets hold between nothing and a full load. */
  ghost predicate Sound(t: Table, now: real) {
    && t.perSecond > 0
    && None in t.buckets && |t.buckets| <= MAX_BUCKETS
    && t.lastPruned <= now
    && forall k :: k in t.buckets ==>
      && 0.0 <= t.buckets[k].tokens <= t.Capacity()
      && t.buckets[k].lastRefill == t.buckets[k].lastSeen <= now
  }

  lemma SubmapSize<K, V>(a: map<K, V>, b: map<K, V>)
    requires a.Keys <= b.Keys
    ensures |a| <= |b|
  {
    SubsetCount(a.Keys, b.Keys);
  }

  lemma PruneIsSound(t: Table, before: real, now: real)
    requires Sound(t, before) && before <= now
    ensures Sound(Prune(t, now), now)
  {
    SubmapSize(Prune(t, now).buckets, t.buckets);
  }

  lemma CheckIsSound(t: Table, client: Key, before: real, now: real)
    requires Sound(t, before) && before <= now
    ensures Sound(Check(t, client, now).0, now)
  {
    PruneIsSound(t, before, now);
    var pruned := Prune(t, now);
    var key := ChargedTo(pruned, client);
    LevelBounds(pruned, key, now);
    if key !in pruned.buckets {
      assert pruned.buckets[key := Bucket(0.0, now, now)].Keys == pruned.buckets.Keys + {key};
    }
  }

  lemma LevelBounds(t: Table, key: Key, now: real)
    requires Sound(t, now)
    ensures 0.0 <= Level(t, key, now) <= t.Capacity()
  {
    if key in t.buckets {
      Product(Since(now, t.buckets[key].lastRefill), t.Capacity());
    }
  }

  lemma Product(a: real, b: real)
    requires a >= 0.0 && b >= 0.0
    ensures a * b >= 0.0
  {
  }

  lemma JustRefilled(tokens: real, capacity: real, now: real)
    requires tokens <= capacity
    ensures Refilled(Bucket(tokens, now, now), capacity, now) == tokens
  {
    assert Since(now, now) * capacity == 0.0;
  }

  class RateLimiter {
    const perSecond: nat
    var buckets: map<Key, Bucket>
    var lastPruned: real
    /** The time of the last call; the clock does not run backwards. */
    ghost var clock: real

    function View(): Table
      reads this
    {
      Table(perSecond, buckets, lastPruned)
    }

    ghost predicate Valid()
      reads this
    {
      Sound(View(), clock)
    }

    constructor (perSecond: nat, now: real)
      requires perSecond > 0
      ensures Valid() && clock == now && this.perSecond == perSecond
      ensures forall k :: Level(View(), k, now) == perSecond as real
    {
      this.perSecond, lastPruned, clock := perSecond, now, now;
      buckets := map[None := Bucket(perSecond as real, now, now)];
    }

    /** Prune at most once a minute, refill the charged bucket, and take a token if there is one. */
    method Admit(client: Key, now: real) returns (verdict: Verdict)
      requires Valid() && clock <= now
      modifies this
      ensures Valid() && clock == now
      ensures (View(), verdict) == Check(old(View()), client, now)
    {
      CheckIsSound(View(), client, clock, now);
      JustRefilled(perSecond as real, perSecond as real, now);
      hide Refilled, Sound, RetryMillis, Ceiling;
      if Since(now, lastPruned) >= PRUNE_INTERVAL {
        buckets := map k | k in buckets && (k == None || Since(now, buckets[k].lastSeen) < BUCKET_TTL) :: buckets[k];
        lastPruned := now;
      }
      assert View() == Prune(old(View()), now);
      hide Prune;
      var key := if client in buckets || |buckets| < MAX_BUCKETS then client else None;
      var capacity := perSecond as real;
      var bucket := if key in buckets then buckets[key] else Bucket(capacity, now, now);
      bucket := Bucket(Refilled(bucket, capacity, now), now, now);
      clock := now;
      if bucket.tokens < 1.0 {
        buckets := buckets[key := bucket];
        return RetryAfter(RetryMillis(bucket.tokens, capacity));
      }
      buckets := buckets[key := bucket.(tokens := bucket.tokens - 1.0)];
      return Admitted;
    }
  }

  // ---------- laws ----------

  lemma Idle(capacity: real, elapsed: real)
    requires capacity >= 1.0 && elapsed >= BUCKET_TTL
    ensures elapsed * capacity >= capacity
  {
    Product(elapsed - 1.0, capacity);
    assert elapsed * capacity == (elapsed - 1.0) * capacity + capacity;
  }

  lemma FullAgain(b: Bucket, capacity: real, later: real)
    requires b.tokens >= 0.0 && later - b.lastRefill >= BUCKET_TTL && capacity >= 1.0
    ensures Refilled(b, capacity, later) == capacity
  {
    Idle(capacity, later - b.lastRefill);
    assert Since(later, b.lastRefill) == later - b.lastRefill;
  }

  /** Pruning is invisible: a bucket idle for the time to live would be full anyway. */
  lemma PruningIsInvisible(t: Table, key: Key, before: real, now: real, later: real)
    requires Sound(t, before) && before <= now <= later
    ensures Level(Prune(t, now), key, later) == Level(t, key, later)
  {
    hide Refilled;
    if key in t.buckets && key !in Prune(t, now).buckets {
      FullAgain(t.buckets[key], t.Capacity(), later);
    }
  }

  /** A request is admitted exactly when the bucket it is charged to holds a token, and costs it one. */
  lemma CheckCharges(t: Table, client: Key, key: Key, before: real, now: real, later: real)
    requires Sound(t, before) && before <= now <= later
    ensures var charged := ChargedTo(Prune(t, now), client);
      && (Check(t, client, now).1.Admitted? <==> Level(t, charged, now) >= 1.0)
      && Level(Check(t, client, now).0, key, now) ==
         Level(t, key, now) - (if key == charged && Check(t, client, now).1.Admitted? then 1.0 else 0.0)
      && (key != charged ==> Level(Check(t, client, now).0, key, later) == Level(t, key, later))
  {
    hide Prune, Refilled, Sound;
    PruneIsSound(t, before, now);
    var pruned := Prune(t, now);
    var charged := ChargedTo(pruned, client);
    PruningIsInvisible(t, charged, before, now, now);
    PruningIsInvisible(t, key, before, now, now);
    PruningIsInvisible(t, key, before, now, later);
    LevelBounds(pruned, charged, now);
    assert pruned.perSecond == t.perSecond by {
      PruneKeepsRate(t, now);
    }
    var level := Level(pruned, charged, now);
    JustRefilled(if level < 1.0 then level else level - 1.0, t.Capacity(), now);
  }

  lemma PruneKeepsRate(t: Table, now: real)
    ensures Prune(t, now).perSecond == t.perSecond
  {
  }

  lemma RefilledRate(b: Bucket, capacity: real, from: real, to: real)
    requires b.lastRefill <= from <= to && capacity >= 0.0
    ensures Refilled(b, capacity, from) <= Refilled(b, capacity, to)
    ensures Refilled(b, capacity, to) <= Refilled(b, capacity, from) + (to - from) * capacity
  {
    var a, c := from - b.lastRefill, to - from;
    Product(c, capacity);
    assert (to - b.lastRefill) * capacity == a * capacity + c * capacity;
    assert Since(from, b.lastRefill) == a && Since(to, b.lastRefill) == to - b.lastRefill;
  }

  /** What the refill rate brings in over a stretch of time. */
  function Refill(perSecond: nat, from: real, to: real): real {
    (to - from) * perSecond as real
  }

  /** A bucket refills at the configured rate at most. */
  lemma RefillRate(t: Table, key: Key, a: real, b: real)
    requires Sound(t, a) && a <= b
    ensures Level(t, key, a) <= Level(t, key, b) <= Level(t, key, a) + Refill(t.perSecond, a, b)
  {
    hide Refilled;
    Product(b - a, t.Capacity());
    if key in t.buckets {
      RefilledRate(t.buckets[key], t.Capacity(), a, b);
    }
  }

  /** Requests in time order: who asks, and when. */
  type Requests = seq<(Key, real)>

  predicate InOrder(requests: Requests, start: real) {
    requests == [] || (start <= requests[0].1 && InOrder(requests[1..], requests[0].1))
  }

  function RunAll(t: Table, requests: Requests): (r: Table)
    requires t.perSecond > 0
    ensures r.perSecond == t.perSecond
    decreases |requests|
  {
    if requests == [] then t else RunAll(Check(t, requests[0].0, requests[0].1).0, requests[1..])
  }

  function EndTime(requests: Requests, start: real): real {
    if requests == [] then start else requests[|requests| - 1].1
  }

  lemma {:induction false} EveryRunIsSound(t: Table, requests: Requests, start: real)
    requires Sound(t, start) && InOrder(requests, start)
    ensures Sound(RunAll(t, requests), EndTime(requests, start)) && start <= EndTime(requests, start)
    decreases |requests|
  {
    if requests == [] {
    } else {
      CheckIsSound(t, requests[0].0, start, requests[0].1);
      EveryRunIsSound(Check(t, requests[0].0, requests[0].1).0, requests[1..], requests[0].1);
    }
  }

  lemma RefillAdds(perSecond: nat, start: real, now: real, finish: real)
    ensures Refill(perSecond, start, now) + Refill(perSecond, now, finish) == Refill(perSecond, start, finish)
    ensures Refill(perSecond, start, start) == 0.0
  {
  }

  /** Whether a request takes a token from a bucket. */
  predicate Took(t: Table, client: Key, now: real, key: Key)
    requires t.perSecond > 0
  {
    Check(t, client, now).1.Admitted? && ChargedTo(Prune(t, now), client) == key
  }

  /** One request in the balance of a bucket. */
  lemma OneRequest(t: Table, client: Key, key: Key, start: real, now: real)
    requires Sound(t, start) && start <= now
    ensures Level(Check(t, client, now).0, key, now) + (if Took(t, client, now, key) then 1.0 else 0.0)
      <= Level(t, key, start) + Refill(t.perSecond, start, now)
  {
    hide Level, Check, Prune, ChargedTo, Refill;
    CheckCharges(t, client, key, start, now, now);
    RefillRate(t, key, start, now);
  }

  /** How many of the requests were charged to a bucket and admitted. */
  function AdmittedBy(t: Table, requests: Requests, key: Key): nat
    requires t.perSecond > 0
    decreases |requests|
  {
    if requests == [] then 0
    else
      AdmittedBy(Check(t, requests[0].0, requests[0].1).0, requests[1..], key)
      + if Took(t, requests[0].0, requests[0].1, key) then 1 else 0
  }

  /** Tokens are conserved: what was admitted, plus what is left, came from the start level and the refill. */
  lemma {:induction false} TokensConserved(t: Table, requests: Requests, key: Key, start: real)
    requires Sound(t, start) && InOrder(requests, start)
    ensures var finish := EndTime(requests, start);
      AdmittedBy(t, requests, key) as real + Level(RunAll(t, requests), key, finish)
      <= Level(t, key, start) + Refill(t.perSecond, start, finish)
    decreases |requests|
  {
    hide Level, Check, Prune, ChargedTo, Took, Refill;
    if requests == [] {
      RefillAdds(t.perSecond, start, start, start);
    } else {
      var client, now := requests[0].0, requests[0].1;
      var next := Check(t, client, now).0;
      CheckIsSound(t, client, start, now);
      OneRequest(t, client, key, start, now);
      TokensConserved(next, requests[1..], key, now);
      assert EndTime(requests[1..], now) == EndTime(requests, start);
      RefillAdds(t.perSecond, start, now, EndTime(requests, start));
    }
  }

  /** In any window of `finish - start` seconds a bucket admits at most its capacity plus the refill. */
  lemma WindowBound(t: Table, requests: Requests, key: Key, start: real)
    requires Sound(t, start) && InOrder(requests, start)
    ensures AdmittedBy(t, requests, key) as real <=
      t.Capacity() + Refill(t.perSecond, start, EndTime(requests, start))
  {
    hide Refill, AdmittedBy, Level;
    TokensConserved(t, requests, key, start);
    EveryRunIsSound(t, requests, start);
    LevelBounds(t, key, start);
    LevelBounds(RunAll(t, requests), key, EndTime(requests, start));
  }

  lemma CeilingIsEnough(x: real)
    ensures x <= Ceiling(x) as real
  {
  }

  /** No request of the run is charged to the bucket. */
  ghost predicate Untouched(t: Table, requests: Requests, key: Key)
    requires t.perSecond > 0
    decreases |requests|
  {
    requests == [] ||
    (ChargedTo(Prune(t, requests[0].1), requests[0].0) != key
     && Untouched(Check(t, requests[0].0, requests[0].1).0, requests[1..], key))
  }

  lemma {:induction false} UntouchedLevel(t: Table, requests: Requests, key: Key, start: real, later: real)
    requires Sound(t, start) && InOrder(requests, start) && EndTime(requests, start) <= later
    requires Untouched(t, requests, key)
    ensures Level(RunAll(t, requests), key, later) == Level(t, key, later)
    decreases |requests|
  {
    hide Level, Check, Prune, ChargedTo;
    if requests == [] {
    } else {
      var client, now := requests[0].0, requests[0].1;
      var next := Check(t, client, now).0;
      EveryRunIsSound(t, requests, start);
      CheckIsSound(t, client, start, now);
      EveryRunIsSound(next, requests[1..], now);
      assert EndTime(requests[1..], now) == EndTime(requests, start);
      CheckCharges(t, client, key, start, now, later);
      UntouchedLevel(next, requests[1..], key, now, later);
    }
  }

  lemma WaitRefills(tokens: real, capacity: real, millis: nat)
    requires capacity > 0.0 && millis == RetryMillis(tokens, capacity)
    ensures tokens + (millis as real / 1000.0) * capacity >= 1.0
  {
    var exact := (1.0 - tokens) / capacity * 1000.0;
    CeilingIsEnough(exact);
    assert millis as real >= exact;
    assert exact / 1000.0 * capacity == 1.0 - tokens;
    SlowerOrNegative(capacity, exact / 1000.0, millis as real / 1000.0);
  }

  lemma SlowerOrNegative(capacity: real, a: real, b: real)
    requires a <= b && capacity >= 0.0
    ensures a * capacity <= b * capacity
  {
    Product(b - a, capacity);
    assert b * capacity == a * capacity + (b - a) * capacity;
  }

  /** The announced wait is at most a second, so the charged bucket is not pruned meanwhile. */
  lemma WaitIsShort(tokens: real, capacity: real)
    requires 0.0 <= tokens && capacity >= 1.0
    ensures RetryMillis(tokens, capacity) <= 1000
  {
    var gap := 1.0 - tokens;
    if gap > 0.0 {
      SlowerOrNegative(gap / capacity, 1.0, capacity);
      assert gap / capacity * capacity == gap;
      assert gap / capacity <= 1.0;
    } else {
      Quotient(-gap, capacity);
    }
  }

  lemma Quotient(a: real, b: real)
    requires a >= 0.0 && b >= 1.0
    ensures (-a) / b <= 0.0
  {
    var q := (-a) / b;
    assert q * b == -a;
    if q > 0.0 {
      Product(q, b);
    }
  }

  ghost predicate NoRequestBy(requests: Requests, client: Key) {
    forall i :: 0 <= i < |requests| ==> requests[i].0 != client
  }

  /** Only its own requests give a client a bucket. */
  lemma {:induction false} StaysOut(t: Table, requests: Requests, client: Key)
    requires t.perSecond > 0 && client != None && client !in t.buckets && NoRequestBy(requests, client)
    ensures client !in RunAll(t, requests).buckets
    decreases |requests|
  {
    if requests == [] {
    } else {
      StaysOut(Check(t, requests[0].0, requests[0].1).0, requests[1..], client);
    }
  }

  /** A bucket nobody uses stays as it is for at least its time to live. */
  lemma {:induction false} StaysIn(t: Table, requests: Requests, key: Key, start: real)
    requires Sound(t, start) && InOrder(requests, start) && key in t.buckets && Untouched(t, requests, key)
    requires EndTime(requests, start) < t.buckets[key].lastSeen + BUCKET_TTL
    ensures key in RunAll(t, requests).buckets && RunAll(t, requests).buckets[key] == t.buckets[key]
    decreases |requests|
  {
    if requests == [] {
    } else {
      var client, now := requests[0].0, requests[0].1;
      var next := Check(t, client, now).0;
      EveryRunIsSound(t, requests, start);
      CheckIsSound(t, client, start, now);
      EveryRunIsSound(next, requests[1..], now);
      assert EndTime(requests[1..], now) == EndTime(requests, start);
      assert key in next.buckets && next.buckets[key] == t.buckets[key];
      StaysIn(next, requests[1..], key, now);
    }
  }

  /** After a refusal the charged bucket holds what it held, as of now; its token is there after the wait. */
  lemma RefusedBucket(t: Table, client: Key, before: real, now: real)
    requires Sound(t, before) && before <= now
    requires Check(t, client, now).1.RetryAfter?
    ensures var (next, verdict) := Check(t, client, now);
      var charged := ChargedTo(Prune(t, now), client);
      && verdict.millis <= 1000
      && charged in next.buckets && next.buckets[charged].lastSeen == now
      && Level(next, charged, now + verdict.millis as real / 1000.0) >= 1.0
      && (charged != client ==> client != None && client !in next.buckets)
  {
    hide Refilled, Prune, RetryMillis, Ceiling;
    var pruned := Prune(t, now);
    PruneIsSound(t, before, now);
    PruneKeepsRate(t, now);
    var charged := ChargedTo(pruned, client);
    LevelBounds(pruned, charged, now);
    var level := Level(pruned, charged, now);
    hide Sound, Level;
    var millis := RetryMillis(level, t.Capacity());
    WaitIsShort(level, t.Capacity());
    WaitRefills(level, t.Capacity(), millis);
    RefilledLater(level, t.Capacity(), now, now + millis as real / 1000.0);
    LevelAt(Check(t, client, now).0, charged, now + millis as real / 1000.0);
  }

  lemma LevelAt(t: Table, key: Key, now: real)
    ensures key in t.buckets ==> Level(t, key, now) == Refilled(t.buckets[key], t.Capacity(), now)
  {
  }

  lemma RefilledLater(tokens: real, capacity: real, now: real, later: real)
    requires now <= later && tokens + (later - now) * capacity >= 1.0 && capacity >= 1.0
    ensures Refilled(Bucket(tokens, now, now), capacity, later) >= 1.0
  {
    assert Since(later, now) == later - now;
  }

  /**
   A refused client that waits the announced time is admitted, if meanwhile it did not ask
   again and nobody used the bucket it was charged to.
   */
  lemma WaitingIsEnough(t: Table, client: Key, before: real, now: real, others: Requests)
    requires Sound(t, before) && before <= now
    requires Check(t, client, now).1.RetryAfter?
    requires InOrder(others, now) && NoRequestBy(others, client)
    requires EndTime(others, now) <= now + Check(t, client, now).1.millis as real / 1000.0
    requires Untouched(Check(t, client, now).0, others, ChargedTo(Prune(t, now), client))
    ensures var later := now + Check(t, client, now).1.millis as real / 1000.0;
      Check(RunAll(Check(t, client, now).0, others), client, later).1.Admitted?
  {
    hide Check, Refilled;
    var (next, verdict) := Check(t, client, now);
    var charged := ChargedTo(Prune(t, now), client);
    var later := now + verdict.millis as real / 1000.0;
    var last := RunAll(next, others);
    CheckIsSound(t, client, before, now);
    EveryRunIsSound(next, others, now);
    RefusedBucket(t, client, before, now);
    UntouchedLevel(next, others, charged, now, later);
    CheckCharges(last, client, charged, EndTime(others, now), later, later);
    StaysIn(next, others, charged, now);
    if charged != client {
      StaysOut(next, others, client);
    }
  }

  // ---------- what the other laws leave open ----------

  /** The announced delay is the shortest in whole milliseconds: with one less the bucket is short of a token. */
  lemma WaitIsShortest(tokens: real, perSecond: nat, now: real)
    requires perSecond > 0 && 0.0 <= tokens < 1.0
    ensures var millis := RetryMillis(tokens, perSecond as real);
      && millis >= 1
      && (millis >= 2 ==>
          Refilled(Bucket(tokens, now, now), perSecond as real, now + (millis - 1) as real / 1000.0) < 1.0)
  {
    var capacity := perSecond as real;
    var wait := (1.0 - tokens) / capacity * 1000.0;
    var millis := RetryMillis(tokens, capacity);
    if millis >= 2 {
      CeilingShort(wait);
      var part := (millis - 1) as real / 1000.0;
      assert part < (1.0 - tokens) / capacity;
      LessThanMissing(part, 1.0 - tokens, capacity);
      assert Since(now + part, now) == part;
    }
  }

  lemma CeilingShort(x: real)
    ensures (Ceiling(x) - 1) as real < x <= Ceiling(x) as real
  {
  }

  lemma LessThanMissing(part: real, missing: real, capacity: real)
    requires capacity > 0.0 && part < missing / capacity
    ensures part * capacity < missing
  {
    var q := missing / capacity;
    assert q * capacity == missing;
    assert (q - part) * capacity == q * capacity - part * capacity;
    Positive(q - part, capacity);
  }

  lemma Positive(a: real, b: real)
    requires a > 0.0 && b > 0.0
    ensures a * b > 0.0
  {
  }

  /** A client with a bucket, or while there is room for one, pays from its own. */
  lemma OwnBucket(t: Table, client: Key)
    ensures client in t.buckets || |t.buckets| < 10_000 ==> ChargedTo(t, client) == client
    ensures client !in t.buckets && |t.buckets| >= 10_000 ==> ChargedTo(t, client).None?
  {
  }

  /** Once a minute exactly the buckets not seen for ten minutes go, but never the shared one. */
  lemma PrunedExactly(t: Table, now: real, key: Key)
    requires t.lastPruned <= now
    ensures key in Prune(t, now).buckets <==>
      key in t.buckets && (now < t.lastPruned + 60.0 || key.None? || now < t.buckets[key].lastSeen + 600.0)
    ensures key in Prune(t, now).buckets ==> Prune(t, now).buckets[key] == t.buckets[key]
  {
  }

  /** A request at least a token's time after one that was admitted or found a bucket refilled is admitted. */
  lemma SteadyRequestAdmitted(b: Bucket, perSecond: nat, now: real)
    requires perSecond > 0 && b.tokens >= 0.0 && now >= b.lastRefill + 1.0 / perSecond as real
    ensures Refilled(b, perSecond as real, now) >= 1.0
  {
    var capacity, elapsed := perSecond as real, now - b.lastRefill;
    assert Since(now, b.lastRefill) == elapsed;
    Product(elapsed - 1.0 / capacity, capacity);
    assert 1.0 / capacity * capacity == 1.0;
    assert (elapsed - 1.0 / capacity) * capacity == elapsed * capacity - 1.0 / capacity * capacity;
  }
}

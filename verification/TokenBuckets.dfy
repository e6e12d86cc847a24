/** Request limits: one token bucket per address or account. When there are very many, those that have
    filled up again are forgotten. Times are seconds. */
module TokenBuckets {
  import opened Numeric

  const MANY := 50000

  datatype Bucket = Bucket(tokens: real, at: real)

  /** Tokens a second, and how many a bucket holds. */
  datatype Rate = Rate(rate: real, burst: real)

  type Buckets = map<string, Bucket>

  predicate Positive(r: Rate) { r.rate > 0.0 && r.burst >= 1.0 }

  /** What the bucket would hold at this time. */
  function Filled(b: Bucket, r: Rate, now: real): real {
    if now > b.at then RMin(r.burst, b.tokens + (now - b.at) * r.rate) else b.tokens
  }

  /** A key without a bucket has a full one. */
  function Level(m: Buckets, key: string, r: Rate, now: real): real {
    if key in m then Filled(m[key], r, now) else r.burst
  }

  predicate Full(b: Bucket, r: Rate, now: real) { b.tokens + (now - b.at) * r.rate >= r.burst }

  function Swept(m: Buckets, r: Rate, now: real): Buckets { map k | k in m && !Full(m[k], r, now) :: m[k] }

  /** The key's bucket, brought up to date; a new key may first make room. */
  function Got(m: Buckets, key: string, r: Rate, now: real): Buckets {
    var kept := if key !in m && |m| > MANY then Swept(m, r, now) else m;
    kept[key := Bucket(Level(m, key, r, now), if key in m && now <= m[key].at then m[key].at else now)]
  }

  /** Room is made only for a new key when there are very many, and then exactly by the buckets that are full again. */
  lemma MakesRoom(m: Buckets, key: string, r: Rate, now: real, other: string)
    requires other != key && (other in m ==> m[other].at <= now)
    ensures other in Got(m, key, r, now) <==> other in m && (key in m || |m| <= MANY || Level(m, other, r, now) < r.burst)
    ensures other in Got(m, key, r, now) ==> Got(m, key, r, now)[other] == m[other]
  {
    if other in m && now == m[other].at { assert (now - m[other].at) * r.rate == 0.0 * r.rate == 0.0; }
  }

  function Allowed(m: Buckets, key: string, r: Rate, now: real): (Buckets, bool) {
    var got := Got(m, key, r, now);
    if got[key].tokens >= 1.0 then (got[key := got[key].(tokens := got[key].tokens - 1.0)], true) else (got, false)
  }

  /** The same without ever forgetting anybody. */
  function Kept(m: Buckets, key: string, r: Rate, now: real): (Buckets, bool) {
    var level := Level(m, key, r, now);
    var at := if key in m && now <= m[key].at then m[key].at else now;
    if level >= 1.0 then (m[key := Bucket(level - 1.0, at)], true) else (m[key := Bucket(level, at)], false)
  }

  // ---- time only fills ----

  /** No bucket is ahead of the time or holds more than fits. */
  predicate Sane(m: Buckets, r: Rate, now: real) {
    forall k :: k in m ==> m[k].at <= now && 0.0 <= m[k].tokens <= r.burst
  }

  lemma FilledRange(b: Bucket, r: Rate, now: real)
    requires Positive(r) && b.at <= now && 0.0 <= b.tokens <= r.burst
    ensures b.tokens <= Filled(b, r, now) <= r.burst
    ensures Filled(b, r, now) <= b.tokens + (now - b.at) * r.rate
  {
    RMulMono(0.0, now - b.at, r.rate);
  }

  lemma FullStaysFull(b: Bucket, r: Rate, now: real, later: real)
    requires Positive(r) && b.at <= now <= later && b.tokens <= r.burst && Full(b, r, now)
    ensures Filled(b, r, later) == r.burst
  {
    var x, y := now - b.at, later - b.at;
    RMulMono(x, y, r.rate);
    assert b.tokens + y * r.rate >= b.tokens + x * r.rate >= r.burst;
  }

  // ---- forgetting is invisible ----

  /** Nobody could tell the two apart from now on. */
  ghost predicate Alike(m: Buckets, n: Buckets, r: Rate, now: real) {
    && Sane(m, r, now) && Sane(n, r, now)
    && forall k, t :: t >= now ==> Level(m, k, r, t) == Level(n, k, r, t)
  }

  lemma SweptLevel(m: Buckets, r: Rate, now: real, k: string, later: real)
    requires Positive(r) && Sane(m, r, now) && now <= later
    ensures Level(Swept(m, r, now), k, r, later) == Level(m, k, r, later)
  {
    if k in m && Full(m[k], r, now) { FullStaysFull(m[k], r, now, later); }
  }

  lemma LevelRange(m: Buckets, key: string, r: Rate, now: real)
    requires Positive(r) && Sane(m, r, now)
    ensures 0.0 <= Level(m, key, r, now) <= r.burst
  {
    if key in m { FilledRange(m[key], r, now); }
  }

  /** What a request leaves behind, with or without forgetting. */
  lemma AfterOne(m: Buckets, key: string, r: Rate, now: real)
    requires Positive(r) && Sane(m, r, now)
    ensures var level := Level(m, key, r, now);
            var left := Bucket(level - if level >= 1.0 then 1.0 else 0.0, now);
            && 0.0 <= level <= r.burst
            && Allowed(m, key, r, now) == ((if key !in m && |m| > MANY then Swept(m, r, now) else m)[key := left], level >= 1.0)
            && Kept(m, key, r, now) == (m[key := left], level >= 1.0)
  {
    LevelRange(m, key, r, now);
    var level := Level(m, key, r, now);
    var left := Bucket(level - if level >= 1.0 then 1.0 else 0.0, now);
    var kept := if key !in m && |m| > MANY then Swept(m, r, now) else m;
    var got := Got(m, key, r, now);
    assert got == kept[key := Bucket(level, now)];
    assert got[key := left] == kept[key := left];
  }

  lemma SameLevel(m: Buckets, n: Buckets, key: string, r: Rate, now: real, k: string, later: real)
    requires Positive(r) && Alike(m, n, r, now) && now <= later
    ensures Level(Allowed(m, key, r, now).0, k, r, later) == Level(Kept(n, key, r, now).0, k, r, later)
  {
    AfterOne(m, key, r, now);
    AfterOne(n, key, r, now);
    assert Level(m, key, r, now) == Level(n, key, r, now) && Level(m, k, r, later) == Level(n, k, r, later);
    SweptLevel(m, r, now, k, later);
  }

  /** One request: the same answer, and still nobody could tell the two apart. */
  lemma OneAlike(m: Buckets, n: Buckets, key: string, r: Rate, now: real)
    requires Positive(r) && Alike(m, n, r, now)
    ensures Allowed(m, key, r, now).1 == Kept(n, key, r, now).1
    ensures Alike(Allowed(m, key, r, now).0, Kept(n, key, r, now).0, r, now)
  {
    AfterOne(m, key, r, now);
    AfterOne(n, key, r, now);
    assert Level(m, key, r, now) == Level(n, key, r, now);
    forall k, t | t >= now
      ensures Level(Allowed(m, key, r, now).0, k, r, t) == Level(Kept(n, key, r, now).0, k, r, t)
    {
      SameLevel(m, n, key, r, now, k, t);
    }
  }

  lemma AlikeLater(m: Buckets, n: Buckets, r: Rate, now: real, later: real)
    requires Alike(m, n, r, now) && now <= later
    ensures Alike(m, n, r, later)
  {
  }

  datatype Request = Request(key: string, at: real)

  predicate InTime(qs: seq<Request>) { forall i, j :: 0 <= i < j < |qs| ==> qs[i].at <= qs[j].at }

  function RunAllowed(qs: seq<Request>, r: Rate): (Buckets, seq<bool>) {
    if qs == [] then (map[], [])
    else
      var past := RunAllowed(qs[..|qs| - 1], r);
      var last := Allowed(past.0, qs[|qs| - 1].key, r, qs[|qs| - 1].at);
      (last.0, past.1 + [last.1])
  }

  function RunKept(qs: seq<Request>, r: Rate): (Buckets, seq<bool>) {
    if qs == [] then (map[], [])
    else
      var past := RunKept(qs[..|qs| - 1], r);
      var last := Kept(past.0, qs[|qs| - 1].key, r, qs[|qs| - 1].at);
      (last.0, past.1 + [last.1])
  }

  lemma PastInTime(qs: seq<Request>)
    requires InTime(qs) && qs != []
    ensures InTime(qs[..|qs| - 1])
  {
    var past := qs[..|qs| - 1];
    assert forall i :: 0 <= i < |past| ==> past[i] == qs[i];
  }

  lemma {:induction false} AlwaysAlike(qs: seq<Request>, r: Rate, now: real)
    requires Positive(r) && InTime(qs) && (qs != [] ==> qs[|qs| - 1].at <= now)
    ensures RunAllowed(qs, r).1 == RunKept(qs, r).1 && |RunAllowed(qs, r).1| == |qs|
    ensures Alike(RunAllowed(qs, r).0, RunKept(qs, r).0, r, now)
    decreases |qs|
  {
    if qs != [] {
      var past, last := qs[..|qs| - 1], qs[|qs| - 1];
      PastInTime(qs);
      assert past != [] ==> past[|past| - 1].at <= last.at;
      AlwaysAlike(past, r, last.at);
      OneAlike(RunAllowed(past, r).0, RunKept(past, r).0, last.key, r, last.at);
      AlikeLater(RunAllowed(qs, r).0, RunKept(qs, r).0, r, last.at, now);
    }
  }

  /** Dropping refilled buckets never changes an answer. */
  lemma ForgettingIsInvisible(qs: seq<Request>, r: Rate)
    requires Positive(r) && InTime(qs)
    ensures RunAllowed(qs, r).1 == RunKept(qs, r).1
  {
    AlwaysAlike(qs, r, if qs == [] then 0.0 else qs[|qs| - 1].at);
  }

  // ---- how much gets through ----

  /** How many of a key's requests from number i on were let through. */
  function Passed(qs: seq<Request>, answers: seq<bool>, key: string, i: nat): nat
    requires |answers| == |qs|
  {
    if |qs| <= i then 0
    else Passed(qs[..|qs| - 1], answers[..|qs| - 1], key, i)
         + if qs[|qs| - 1].key == key && answers[|qs| - 1] then 1 else 0
  }

  lemma {:induction false} RunLength(qs: seq<Request>, r: Rate)
    ensures |RunAllowed(qs, r).1| == |qs|
  {
    if qs != [] { RunLength(qs[..|qs| - 1], r); }
  }

  /** What a request does to the level of any key. */
  lemma LevelStep(m: Buckets, q: Request, key: string, r: Rate)
    requires Positive(r) && Sane(m, r, q.at)
    ensures var (n, ok) := Allowed(m, q.key, r, q.at);
            && Sane(n, r, q.at)
            && Level(n, key, r, q.at) == Level(m, key, r, q.at) - (if q.key == key && ok then 1.0 else 0.0)
            && Level(n, key, r, q.at) >= 0.0
  {
    LevelRange(m, q.key, r, q.at);
    LevelRange(m, key, r, q.at);
    SweptLevel(m, r, q.at, key, q.at);
  }

  /** An amount is at most what was there plus what flows in over the time. */
  ghost predicate Within(amount: real, start: real, time: real, rate: real) { amount <= start + time * rate }

  lemma LevelGrows(m: Buckets, key: string, r: Rate, now: real, later: real)
    requires Positive(r) && Sane(m, r, now) && now <= later
    ensures Within(Level(m, key, r, later), Level(m, key, r, now), later - now, r.rate)
    ensures Sane(m, r, later)
  {
    if key in m {
      FillGrows(m[key], r, now, later);
    } else {
      RMulMono(0.0, later - now, r.rate);
    }
  }

  lemma FillGrows(b: Bucket, r: Rate, now: real, later: real)
    requires Positive(r) && b.at <= now <= later && b.tokens <= r.burst
    ensures Within(Filled(b, r, later), Filled(b, r, now), later - now, r.rate)
  {
    var x, y := now - b.at, later - now;
    assert (later - b.at) * r.rate == x * r.rate + y * r.rate by { RDistribute(x, y, r.rate); }
    RMulMono(0.0, y, r.rate);
    RMulMono(0.0, x, r.rate);
  }

  lemma MoreTime(level: real, level': real, passed: real, start: real, dt: real, more: real, rate: real)
    requires Within(level + passed, start, dt, rate) && Within(level', level, more, rate)
    ensures Within(level' + passed, start, dt + more, rate)
  {
    RDistribute(dt, more, rate);
  }

  /** The level from request i on: it starts at no more than a full bucket, refills at the rate, and pays
      for everything that passes. */
  lemma {:induction false} Budget(qs: seq<Request>, r: Rate, key: string, i: nat)
    requires Positive(r) && InTime(qs) && i < |qs|
    ensures |RunAllowed(qs, r).1| == |qs|
    ensures var now := qs[|qs| - 1].at;
            var left := Level(RunAllowed(qs, r).0, key, r, now);
            0.0 <= left && Within(left + Passed(qs, RunAllowed(qs, r).1, key, i) as real, r.burst, now - qs[i].at, r.rate)
    decreases |qs|
  {
    var past, q := qs[..|qs| - 1], qs[|qs| - 1];
    PastInTime(qs);
    RunLength(past, r);
    var m := RunAllowed(past, r).0;
    SaneRun(past, r, q.at);
    PassedStep(qs, RunAllowed(past, r).1, Allowed(m, q.key, r, q.at).1, key, i);
    if i < |past| {
      Budget(past, r, key, i);
      BudgetUntil(past, r, key, i, q.at);
    } else {
      LevelRange(m, key, r, q.at);
    }
    Pay(m, q, key, r, Passed(past, RunAllowed(past, r).1, key, i), r.burst, q.at - qs[i].at);
  }

  /** What passes is paid for. */
  lemma Pay(m: Buckets, q: Request, key: string, r: Rate, passed: nat, start: real, time: real)
    requires Positive(r) && Sane(m, r, q.at) && Within(Level(m, key, r, q.at) + passed as real, start, time, r.rate)
    ensures var (n, ok) := Allowed(m, q.key, r, q.at);
            var more := if q.key == key && ok then 1 else 0;
            0.0 <= Level(n, key, r, q.at) && Within(Level(n, key, r, q.at) + (passed + more) as real, start, time, r.rate)
  {
    LevelStep(m, q, key, r);
  }

  /** Until the next request the level only grows, by no more than the rate. */
  lemma {:induction false} BudgetUntil(past: seq<Request>, r: Rate, key: string, i: nat, now: real)
    requires Positive(r) && InTime(past) && i < |past| && past[|past| - 1].at <= now && |RunAllowed(past, r).1| == |past|
    requires var p := past[|past| - 1].at;
             Within(Level(RunAllowed(past, r).0, key, r, p) + Passed(past, RunAllowed(past, r).1, key, i) as real, r.burst, p - past[i].at, r.rate)
    ensures Within(Level(RunAllowed(past, r).0, key, r, now) + Passed(past, RunAllowed(past, r).1, key, i) as real, r.burst, now - past[i].at, r.rate)
  {
    var m, p := RunAllowed(past, r).0, past[|past| - 1].at;
    SaneRun(past, r, p);
    LevelGrows(m, key, r, p, now);
    MoreTime(Level(m, key, r, p), Level(m, key, r, now), Passed(past, RunAllowed(past, r).1, key, i) as real,
             r.burst, p - past[i].at, now - p, r.rate);
    assert p - past[i].at + (now - p) == now - past[i].at;
  }

  lemma PassedStep(qs: seq<Request>, answers: seq<bool>, ok: bool, key: string, i: nat)
    requires qs != [] && |answers| == |qs| - 1 && i < |qs|
    ensures Passed(qs, answers + [ok], key, i) == Passed(qs[..|qs| - 1], answers, key, i) + if qs[|qs| - 1].key == key && ok then 1 else 0
  {
    assert (answers + [ok])[..|qs| - 1] == answers;
  }

  lemma {:induction false} SaneRun(qs: seq<Request>, r: Rate, now: real)
    requires Positive(r) && InTime(qs) && (qs != [] ==> qs[|qs| - 1].at <= now)
    ensures Sane(RunAllowed(qs, r).0, r, now)
    decreases |qs|
  {
    AlwaysAlike(qs, r, now);
  }

  /** From any request to any later one at most burst plus rate times the time between them pass. */
  lemma AtMostBurstPlusRate(qs: seq<Request>, r: Rate, key: string, i: nat)
    requires Positive(r) && InTime(qs) && i < |qs|
    ensures |RunAllowed(qs, r).1| == |qs|
    ensures Within(Passed(qs, RunAllowed(qs, r).1, key, i) as real, r.burst, qs[|qs| - 1].at - qs[i].at, r.rate)
  {
    Budget(qs, r, key, i);
  }

  // ---- the set as an object ----

  class BucketSet {
    const limit: Rate
    var m: Buckets

    constructor (limit: Rate)
      ensures this.limit == limit && m == map[]
    {
      this.limit, m := limit, map[];
    }

    /** Drops the buckets that have filled up. */
    method Sweep(now: real)
      modifies this
      ensures m == Swept(old(m), limit, now)
    {
      var left := m.Keys;
      ghost var was := m;
      while left != {}
        invariant left <= was.Keys
        invariant m == map k | k in was && (k in left || !Full(was[k], limit, now)) :: was[k]
        decreases |left|
      {
        var k :| k in left;
        if Full(m[k], limit, now) { m := m - {k}; }
        left := left - {k};
      }
    }

    method Get(key: string, now: real)
      modifies this
      ensures m == Got(old(m), key, limit, now) && key in m
    {
      if key !in m {
        if |m| > MANY { Sweep(now); }
        m := m[key := Bucket(limit.burst, now)];
      }
      var el := now - m[key].at;
      if el > 0.0 {
        m := m[key := Bucket(RMin(limit.burst, m[key].tokens + el * limit.rate), now)];
      }
    }

    /** Takes one token, or says how long until there is one. */
    method Allow(key: string, now: real) returns (ok: bool, wait: real)
      requires limit.rate > 0.0
      modifies this
      ensures (m, ok) == Allowed(old(m), key, limit, now)
      ensures ok ==> wait == 0.0
      ensures !ok ==> wait > 0.0 && Level(m, key, limit, now) + wait * limit.rate == 1.0
    {
      Get(key, now);
      if m[key].tokens >= 1.0 {
        m := m[key := m[key].(tokens := m[key].tokens - 1.0)];
        return true, 0.0;
      }
      ok := false;
      wait := (1.0 - m[key].tokens) / limit.rate;
      assert wait * limit.rate == 1.0 - m[key].tokens;
    }
  }
}

/** Slowing down password guessing: failed sign-ins are counted per key, and too many lock it for a while.
    When there are very many keys, those that no longer matter are forgotten. Times are nanoseconds. */
module LoginGuard {
  import opened Options

  const MANY := 20000
  const FAIL_WINDOW := 300_000_000_000
  const LOCK_FOR := 120_000_000_000

  /** `until` is the end of the lock, if there has been one. */
  datatype Attempts = Attempts(count: int, first: int, until: Option<int>)

  type Guard = map<string, Attempts>

  /** Neither locked nor within the time that counts. */
  predicate Spent(a: Attempts, now: int) { (a.until.None? || now > a.until.value) && now - a.first > FAIL_WINDOW }

  function LockedFor(g: Guard, k: string, now: int): int {
    if k in g && g[k].until.Some? && g[k].until.value > now then g[k].until.value - now else 0
  }

  function Swept(g: Guard, now: int): Guard { map k | k in g && !Spent(g[k], now) :: g[k] }

  function Counted(a: Attempts, limit: int, now: int): Attempts {
    Attempts(a.count + 1, a.first, if a.count + 1 >= limit then Some(now + LOCK_FOR) else a.until)
  }

  function Current(g: Guard, k: string, now: int): Attempts {
    if k !in g || now - g[k].first > FAIL_WINDOW then Attempts(0, now, None) else g[k]
  }

  function Kept(g: Guard, k: string, limit: int, now: int): Guard { g[k := Counted(Current(g, k, now), limit, now)] }

  function Bumped(g: Guard, k: string, limit: int, now: int): Guard {
    Kept(if |g| > MANY then Swept(g, now) else g, k, limit, now)
  }

  predicate Counts(a: Attempts, now: int) { (a.until.Some? && a.until.value >= now) || now <= a.first + FAIL_WINDOW }

  /** Room is made only when there are very many keys, and then only by those that are neither locked nor have failed
      within the window. */
  lemma MakesRoom(g: Guard, k: string, limit: int, now: int, other: string)
    ensures k in Bumped(g, k, limit, now)
    ensures other != k ==> (other in Bumped(g, k, limit, now) <==> other in g && (|g| <= MANY || Counts(g[other], now)))
    ensures other != k && other in Bumped(g, k, limit, now) ==> Bumped(g, k, limit, now)[other] == g[other]
  {
  }

  // ---- forgetting is invisible ----

  /** The two agree on every key, but for spent ones that only one still has. */
  ghost predicate Alike(g: Guard, h: Guard, now: int) {
    && g.Keys <= h.Keys
    && forall k :: k in h ==> if k in g then g[k] == h[k] else Spent(h[k], now)
  }

  lemma AlikeLater(g: Guard, h: Guard, now: int, later: int)
    requires Alike(g, h, now) && now <= later
    ensures Alike(g, h, later)
  {
  }

  datatype Call = Blocked(k: string, at: int) | Failed(k: string, limit: int, at: int) | Ok(k: string, at: int)

  function Step(g: Guard, c: Call): (Guard, int) {
    match c
    case Blocked(k, at) => (g, LockedFor(g, k, at))
    case Failed(k, limit, at) => (Bumped(g, k, limit, at), 0)
    case Ok(k, _) => (g - {k}, 0)
  }

  function StepKept(g: Guard, c: Call): (Guard, int) {
    match c
    case Blocked(k, at) => (g, LockedFor(g, k, at))
    case Failed(k, limit, at) => (Kept(g, k, limit, at), 0)
    case Ok(k, _) => (g - {k}, 0)
  }

  lemma OneAlike(g: Guard, h: Guard, c: Call)
    requires Alike(g, h, c.at)
    ensures Step(g, c).1 == StepKept(h, c).1 && Alike(Step(g, c).0, StepKept(h, c).0, c.at)
  {
    if c.Failed? {
      var s := if |g| > MANY then Swept(g, c.at) else g;
      assert Alike(s, h, c.at);
      assert Current(s, c.k, c.at) == Current(h, c.k, c.at);
    }
  }

  predicate InTime(cs: seq<Call>) { forall i, j :: 0 <= i < j < |cs| ==> cs[i].at <= cs[j].at }

  function Run(cs: seq<Call>): (Guard, seq<int>) {
    if cs == [] then (map[], [])
    else
      var past := Run(cs[..|cs| - 1]);
      (Step(past.0, cs[|cs| - 1]).0, past.1 + [Step(past.0, cs[|cs| - 1]).1])
  }

  function RunKept(cs: seq<Call>): (Guard, seq<int>) {
    if cs == [] then (map[], [])
    else
      var past := RunKept(cs[..|cs| - 1]);
      (StepKept(past.0, cs[|cs| - 1]).0, past.1 + [StepKept(past.0, cs[|cs| - 1]).1])
  }

  /** Forgetting spent keys never changes how long anybody is locked out. */
  lemma {:induction false} ForgettingIsInvisible(cs: seq<Call>, now: int)
    requires InTime(cs) && (cs != [] ==> cs[|cs| - 1].at <= now)
    ensures Run(cs).1 == RunKept(cs).1 && Alike(Run(cs).0, RunKept(cs).0, now)
    decreases |cs|
  {
    if cs != [] {
      var past, last := cs[..|cs| - 1], cs[|cs| - 1];
      assert forall i :: 0 <= i < |past| ==> past[i] == cs[i];
      ForgettingIsInvisible(past, last.at);
      OneAlike(Run(past).0, RunKept(past).0, last);
      AlikeLater(Run(cs).0, RunKept(cs).0, last.at, now);
    }
  }

  // ---- when a key is locked ----

  /** A failure locks a key that was open exactly when it is the last one allowed within the window. */
  lemma LocksIff(g: Guard, k: string, limit: int, now: int)
    requires limit >= 1 && LockedFor(g, k, now) == 0
    ensures var a := Current(g, k, now);
            LockedFor(Kept(g, k, limit, now), k, now) == (if a.count + 1 >= limit then LOCK_FOR else 0)
    ensures forall x :: x != k ==> LockedFor(Kept(g, k, limit, now), x, now) == LockedFor(g, x, now)
  {
  }

  /** A failure counted while the key is locked (by a request that was let in before) leaves the lock in
      place exactly if the first failure is still within the window, or one failure is enough to lock. */
  lemma LockSurvivesIff(g: Guard, k: string, limit: int, now: int)
    requires limit >= 1 && LockedFor(g, k, now) > 0
    requires g[k].count >= limit
    ensures LockedFor(Kept(g, k, limit, now), k, now) > 0 <==> now - g[k].first <= FAIL_WINDOW || limit == 1
  {
  }

  /** The times of the failures that count against a key: since its last success, and starting anew when the first
      of them is out of the window. */
  function Tries(cs: seq<Call>, k: string): seq<int> {
    if cs == [] then []
    else
      var past, c := Tries(cs[..|cs| - 1], k), cs[|cs| - 1];
      if c.k != k || c.Blocked? then past
      else if c.Ok? then []
      else if past == [] || c.at - past[0] > FAIL_WINDOW then [c.at]
      else past + [c.at]
  }

  /** Every failure of this key is counted against the same limit. */
  predicate Limited(cs: seq<Call>, k: string, limit: int) {
    forall i :: 0 <= i < |cs| && cs[i].Failed? && cs[i].k == k ==> cs[i].limit == limit
  }

  /** What the guard keeps for a key says how many failures count, when the first was, and if they are too many, when
      the last one's lock ends. */
  ghost predicate Says(g: Guard, k: string, tries: seq<int>, limit: int) {
    && (k in g <==> tries != [])
    && (tries != [] ==> g[k] == Attempts(|tries|, tries[0], if |tries| >= limit then Some(tries[|tries| - 1] + LOCK_FOR) else None))
  }

  lemma SaysNext(g: Guard, k: string, tries: seq<int>, limit: int, now: int)
    requires limit >= 1 && Says(g, k, tries, limit)
    ensures Says(Kept(g, k, limit, now), k, if tries == [] || now - tries[0] > FAIL_WINDOW then [now] else tries + [now], limit)
  {
  }

  lemma {:induction false} KeptSays(cs: seq<Call>, k: string, limit: int)
    requires limit >= 1 && Limited(cs, k, limit)
    ensures Says(RunKept(cs).0, k, Tries(cs, k), limit)
  {
    if cs != [] {
      var past, c := cs[..|cs| - 1], cs[|cs| - 1];
      assert Limited(past, k, limit) by { assert forall i :: 0 <= i < |past| ==> past[i] == cs[i]; }
      KeptSays(past, k, limit);
      if c.Failed? && c.k == k { SaysNext(RunKept(past).0, k, Tries(past, k), limit, c.at); }
    }
  }

  /** How long the lock still lasts that these failures bring. */
  function LockLeft(tries: seq<int>, limit: int, now: int): int
    requires limit >= 1
  {
    if |tries| >= limit && now < tries[|tries| - 1] + LOCK_FOR then tries[|tries| - 1] + LOCK_FOR - now else 0
  }

  /** Over every run of sign-ins: a key is locked exactly while at least the limit of its failures count and the last
      of them is less than the lock's length ago. */
  lemma LockedExactly(cs: seq<Call>, k: string, limit: int, now: int)
    requires InTime(cs) && (cs != [] ==> cs[|cs| - 1].at <= now) && limit >= 1 && Limited(cs, k, limit)
    ensures LockedFor(Run(cs).0, k, now) == LockLeft(Tries(cs, k), limit, now)
  {
    ForgettingIsInvisible(cs, now);
    KeptSays(cs, k, limit);
  }

  // ---- the guard as an object ----

  class Guarded {
    var g: Guard

    constructor ()
      ensures g == map[]
    {
      g := map[];
    }

    method BlockedIn(k: string, now: int) returns (wait: int)
      ensures wait == LockedFor(g, k, now) && wait >= 0
    {
      if k in g && g[k].until.Some? {
        var d := g[k].until.value - now;
        if d > 0 { return d; }
      }
      wait := 0;
    }

    method Sweep(now: int)
      modifies this
      ensures g == Swept(old(g), now)
    {
      var left := g.Keys;
      ghost var was := g;
      while left != {}
        invariant left <= was.Keys
        invariant g == map k | k in was && (k in left || !Spent(was[k], now)) :: was[k]
        decreases |left|
      {
        var k :| k in left;
        if Spent(g[k], now) { g := g - {k}; }
        left := left - {k};
      }
    }

    method Bump(k: string, limit: int, now: int)
      modifies this
      ensures g == Bumped(old(g), k, limit, now)
    {
      if |g| > MANY { Sweep(now); }
      if k !in g || now - g[k].first > FAIL_WINDOW {
        g := g[k := Attempts(0, now, None)];
      }
      g := g[k := g[k].(count := g[k].count + 1)];
      if g[k].count >= limit {
        g := g[k := g[k].(until := Some(now + LOCK_FOR))];
      }
    }

    method Forget(k: string)
      modifies this
      ensures g == old(g) - {k}
    {
      g := g - {k};
    }

    /** Lifts every lock and says how many were in force. */
    method Clear(now: int) returns (n: nat)
      modifies this
      ensures g == map[] && n == |set k | k in old(g) && LockedFor(old(g), k, now) > 0|
    {
      n := 0;
      ghost var was := g;
      ghost var lifted: set<string> := {};
      while g != map[]
        invariant g.Keys <= was.Keys && (forall k :: k in g ==> g[k] == was[k])
        invariant lifted == (set k | k in was && k !in g && LockedFor(was, k, now) > 0) && n == |lifted|
        decreases |g|
      {
        var k :| k in g;
        if g[k].until.Some? && g[k].until.value > now {
          n := n + 1;
          lifted := lifted + {k};
        }
        g := g - {k};
      }
      assert lifted == set k | k in was && LockedFor(was, k, now) > 0;
    }
  }
}

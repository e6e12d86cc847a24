/** The trade limit: at most so many trades of an account in any rolling window. Times are nanoseconds. */
module TradeLimiter {
  import opened Numeric

  type Hits = map<string, seq<int>>

  datatype Limit = Limit(n: int, window: int)

  predicate Sensible(l: Limit) { l.n >= 1 && l.window > 0 }

  function HitsOf(m: Hits, account: string): seq<int> { if account in m then m[account] else [] }

  /** A hit stops counting exactly one window later. */
  function Recent(h: seq<int>, cutoff: int): seq<int> { if h != [] && h[0] <= cutoff then Recent(h[1..], cutoff) else h }

  function Put(m: Hits, account: string, h: seq<int>): Hits { if h == [] then m - {account} else m[account := h] }

  function Pruned(m: Hits, account: string, l: Limit, now: int): Hits { Put(m, account, Recent(HitsOf(m, account), now - l.window)) }

  datatype Call = Allow(account: string, at: int) | Refund(account: string) | Sweep(at: int)

  datatype Answer = Allowed | Denied(retryAfter: int) | Nothing

  function Last(h: seq<int>): seq<int> { if h == [] then [] else h[..|h| - 1] }

  function Sweeping(m: Hits, l: Limit, now: int): Hits {
    map a | a in m && Recent(m[a], now - l.window) != [] :: Recent(m[a], now - l.window)
  }

  function Step(m: Hits, c: Call, l: Limit): (Hits, Answer)
    requires Sensible(l)
  {
    match c
    case Allow(account, at) =>
      var pruned := Pruned(m, account, l, at);
      var h := HitsOf(pruned, account);
      if |h| >= l.n then (pruned, Denied(h[0] + l.window - at)) else (pruned[account := h + [at]], Allowed)
    case Refund(account) => (Put(m, account, Last(HitsOf(m, account))), Nothing)
    case Sweep(at) => (Sweeping(m, l, at), Nothing)
  }

  /** The same without ever forgetting a hit that was not refunded. */
  function Kept(m: Hits, c: Call, l: Limit): (Hits, Answer)
    requires Sensible(l)
  {
    match c
    case Allow(account, at) =>
      var h := Recent(HitsOf(m, account), at - l.window);
      if |h| >= l.n then (m, Denied(h[0] + l.window - at)) else (m[account := HitsOf(m, account) + [at]], Allowed)
    case Refund(account) => (Put(m, account, Last(HitsOf(m, account))), Nothing)
    case Sweep(at) => (m, Nothing)
  }

  // ---- forgetting is invisible ----

  predicate Sorted(h: seq<int>) { forall i, j :: 0 <= i < j < |h| ==> h[i] <= h[j] }

  lemma {:induction false} RecentIs(h: seq<int>, cutoff: int)
    ensures var r := Recent(h, cutoff);
            |r| <= |h| && r == h[|h| - |r|..] && (forall i :: 0 <= i < |h| - |r| ==> h[i] <= cutoff) && (r != [] ==> r[0] > cutoff)
  {
    if h != [] && h[0] <= cutoff {
      RecentIs(h[1..], cutoff);
      var r := Recent(h[1..], cutoff);
      assert h[1..][|h| - 1 - |r|..] == h[|h| - |r|..];
      forall i | 0 <= i < |h| - |r|
        ensures h[i] <= cutoff
      {
        if i > 0 { assert h[i] == h[1..][i - 1]; }
      }
    }
  }

  lemma RecentUnique(h: seq<int>, cutoff: int, k: nat)
    requires k <= |h| && (forall i :: 0 <= i < k ==> h[i] <= cutoff) && (k < |h| ==> h[k] > cutoff)
    ensures Recent(h, cutoff) == h[k..]
  {
    RecentIs(h, cutoff);
    var j := |h| - |Recent(h, cutoff)|;
    assert j < |h| ==> h[j] == Recent(h, cutoff)[0];
  }

  /** What the forgetful limiter has is the end of what the other has; the rest has aged out. */
  predicate Tail(h: seq<int>, all: seq<int>, cutoff: int) {
    && |h| <= |all| && h == all[|all| - |h|..] && forall i :: 0 <= i < |all| - |h| ==> all[i] <= cutoff
  }

  lemma TailRecent(h: seq<int>, all: seq<int>, cutoff: int)
    requires Tail(h, all, cutoff)
    ensures Recent(h, cutoff) == Recent(all, cutoff)
    ensures Tail(Recent(h, cutoff), all, cutoff)
  {
    var gone := |all| - |h|;
    RecentIs(h, cutoff);
    var r := Recent(h, cutoff);
    var k := |all| - |r|;
    forall i | 0 <= i < k
      ensures all[i] <= cutoff
    {
      if i >= gone { assert all[i] == h[i - gone]; }
    }
    assert r == all[k..];
    RecentUnique(all, cutoff, k);
  }

  ghost predicate Alike(m: Hits, n: Hits, l: Limit, now: int) {
    forall a :: Tail(HitsOf(m, a), HitsOf(n, a), now - l.window)
  }

  /** The forgetful hits after a call, and the others'. */
  function After(h: seq<int>, c: Call, a: string, l: Limit): seq<int> {
    match c
    case Allow(account, at) =>
      var r := Recent(h, at - l.window);
      if a != account then h else if |r| < l.n then r + [at] else r
    case Refund(account) => if a == account then Last(h) else h
    case Sweep(at) => Recent(h, at - l.window)
  }

  function AfterKept(h: seq<int>, c: Call, a: string, l: Limit): seq<int> {
    match c
    case Allow(account, at) => if a == account && |Recent(h, at - l.window)| < l.n then h + [at] else h
    case Refund(account) => if a == account then Last(h) else h
    case Sweep(at) => h
  }

  /** What a call does to one account's hits. */
  lemma StepHits(m: Hits, c: Call, l: Limit, a: string)
    requires Sensible(l)
    ensures HitsOf(Step(m, c, l).0, a) == After(HitsOf(m, a), c, a, l)
    ensures HitsOf(Kept(m, c, l).0, a) == AfterKept(HitsOf(m, a), c, a, l)
  {
  }

  lemma TailAfter(h: seq<int>, all: seq<int>, c: Call, a: string, l: Limit, now: int)
    requires Tail(h, all, now - l.window) && (c.Allow? || c.Sweep? ==> c.at == now)
    ensures Tail(After(h, c, a, l), AfterKept(all, c, a, l), now - l.window)
  {
    var cutoff := now - l.window;
    TailRecent(h, all, cutoff);
    if c.Refund? {
      TailLess(h, all, cutoff);
    } else if c.Allow? {
      TailMore(Recent(h, cutoff), all, cutoff, now);
    }
  }

  lemma OneAlike(m: Hits, n: Hits, c: Call, l: Limit, now: int)
    requires Sensible(l) && Alike(m, n, l, now) && (c.Allow? || c.Sweep? ==> c.at == now)
    ensures Step(m, c, l).1 == Kept(n, c, l).1
    ensures Alike(Step(m, c, l).0, Kept(n, c, l).0, l, now)
  {
    if c.Allow? {
      assert Tail(HitsOf(m, c.account), HitsOf(n, c.account), now - l.window);
      TailRecent(HitsOf(m, c.account), HitsOf(n, c.account), now - l.window);
      SameAnswer(m, n, c.account, l, now);
    }
    forall a
      ensures Tail(HitsOf(Step(m, c, l).0, a), HitsOf(Kept(n, c, l).0, a), now - l.window)
    {
      assert Tail(HitsOf(m, a), HitsOf(n, a), now - l.window);
      StepHits(m, c, l, a);
      StepHits(n, c, l, a);
      TailAfter(HitsOf(m, a), HitsOf(n, a), c, a, l, now);
    }
  }

  lemma SameAnswer(m: Hits, n: Hits, account: string, l: Limit, now: int)
    requires Sensible(l) && Recent(HitsOf(m, account), now - l.window) == Recent(HitsOf(n, account), now - l.window)
    ensures Step(m, Allow(account, now), l).1 == Kept(n, Allow(account, now), l).1
  {
    assert HitsOf(Pruned(m, account, l, now), account) == Recent(HitsOf(m, account), now - l.window);
  }

  lemma TailMore(h: seq<int>, all: seq<int>, cutoff: int, x: int)
    requires Tail(h, all, cutoff)
    ensures Tail(h + [x], all + [x], cutoff)
  {
  }

  lemma TailLess(h: seq<int>, all: seq<int>, cutoff: int)
    requires Tail(h, all, cutoff)
    ensures Tail(Last(h), Last(all), cutoff)
  {
  }

  function Time(c: Call, before: int): int { if c.Refund? then before else c.at }

  function RunStep(cs: seq<Call>, l: Limit): (Hits, seq<Answer>)
    requires Sensible(l)
  {
    if cs == [] then (map[], [])
    else
      var past := RunStep(cs[..|cs| - 1], l);
      var last := Step(past.0, cs[|cs| - 1], l);
      (last.0, past.1 + [last.1])
  }

  function RunKept(cs: seq<Call>, l: Limit): (Hits, seq<Answer>)
    requires Sensible(l)
  {
    if cs == [] then (map[], [])
    else
      var past := RunKept(cs[..|cs| - 1], l);
      var last := Kept(past.0, cs[|cs| - 1], l);
      (last.0, past.1 + [last.1])
  }

  /** The time of the last call that has one. */
  function Clock(cs: seq<Call>, start: int): int {
    if cs == [] then start else Time(cs[|cs| - 1], Clock(cs[..|cs| - 1], start))
  }

  /** Time does not go back. */
  predicate InTime(cs: seq<Call>, start: int) {
    cs != [] ==> InTime(cs[..|cs| - 1], start) && Clock(cs[..|cs| - 1], start) <= Clock(cs, start)
  }

  lemma AlikeLater(m: Hits, n: Hits, l: Limit, now: int, later: int)
    requires Alike(m, n, l, now) && now <= later
    ensures Alike(m, n, l, later)
  {
    forall a
      ensures Tail(HitsOf(m, a), HitsOf(n, a), later - l.window)
    {
      assert Tail(HitsOf(m, a), HitsOf(n, a), now - l.window);
    }
  }

  lemma {:induction false} AlwaysAlike(cs: seq<Call>, l: Limit, start: int)
    requires Sensible(l) && InTime(cs, start)
    ensures RunStep(cs, l).1 == RunKept(cs, l).1 && Alike(RunStep(cs, l).0, RunKept(cs, l).0, l, Clock(cs, start))
  {
    if cs != [] {
      var past, last := cs[..|cs| - 1], cs[|cs| - 1];
      AlwaysAlike(past, l, start);
      AlikeLater(RunStep(past, l).0, RunKept(past, l).0, l, Clock(past, start), Clock(cs, start));
      OneAlike(RunStep(past, l).0, RunKept(past, l).0, last, l, Clock(cs, start));
    }
  }

  // ---- how many get through ----

  predicate SpacedAt(h: seq<int>, i: nat, l: Limit)
    requires l.n >= 1
  {
    i + l.n < |h| ==> h[i] + l.window <= h[i + l.n]
  }

  /** Any n + 1 hits in a row span at least a whole window. */
  ghost predicate Spaced(h: seq<int>, l: Limit)
    requires l.n >= 1
  {
    forall i: nat :: SpacedAt(h, i, l)
  }

  ghost predicate AllSpaced(m: Hits, l: Limit, now: int)
    requires l.n >= 1
  {
    forall a :: Fine(HitsOf(m, a), l, now)
  }

  ghost predicate Fine(h: seq<int>, l: Limit, now: int)
    requires l.n >= 1
  {
    Sorted(h) && Spaced(h, l) && forall i :: 0 <= i < |h| ==> h[i] <= now
  }

  /** One more hit is only let in a window after the n-th last one. */
  lemma HitFine(h: seq<int>, l: Limit, now: int, at: int)
    requires Sensible(l) && Fine(h, l, now) && now <= at && |Recent(h, at - l.window)| < l.n
    ensures Fine(h + [at], l, at)
  {
    RecentIs(h, at - l.window);
    forall i: nat
      ensures SpacedAt(h + [at], i, l)
    {
      assert SpacedAt(h, i, l);
    }
  }

  lemma LessFine(h: seq<int>, l: Limit, now: int, at: int)
    requires Sensible(l) && Fine(h, l, now) && now <= at
    ensures Fine(h, l, at) && Fine(Last(h), l, at)
  {
    forall i: nat
      ensures SpacedAt(Last(h), i, l)
    {
      assert SpacedAt(h, i, l);
    }
  }

  lemma OneSpaced(m: Hits, c: Call, l: Limit, now: int)
    requires Sensible(l) && AllSpaced(m, l, now) && now <= Time(c, now)
    ensures AllSpaced(Kept(m, c, l).0, l, Time(c, now))
  {
    forall a
      ensures Fine(HitsOf(Kept(m, c, l).0, a), l, Time(c, now))
    {
      assert Fine(HitsOf(m, a), l, now);
      StepHits(m, c, l, a);
      AfterFine(HitsOf(m, a), c, a, l, now);
    }
  }

  lemma AfterFine(h: seq<int>, c: Call, a: string, l: Limit, now: int)
    requires Sensible(l) && Fine(h, l, now) && now <= Time(c, now)
    ensures Fine(AfterKept(h, c, a, l), l, Time(c, now))
  {
    LessFine(h, l, now, Time(c, now));
    if c.Allow? && |Recent(h, c.at - l.window)| < l.n { HitFine(h, l, now, c.at); }
  }

  lemma {:induction false} AlwaysSpaced(cs: seq<Call>, l: Limit, start: int)
    requires Sensible(l) && InTime(cs, start)
    ensures AllSpaced(RunKept(cs, l).0, l, Clock(cs, start))
  {
    if cs != [] {
      AlwaysSpaced(cs[..|cs| - 1], l, start);
      OneSpaced(RunKept(cs[..|cs| - 1], l).0, cs[|cs| - 1], l, Clock(cs[..|cs| - 1], start));
    } else {
      assert forall a :: HitsOf(map[], a) == [];
    }
  }

  function CountIn(h: seq<int>, from: int, to: int): nat {
    if h == [] then 0 else CountIn(h[..|h| - 1], from, to) + if from < h[|h| - 1] <= to then 1 else 0
  }

  /** The hits inside an interval sit next to each other. */
  lemma {:induction false} CountSpan(h: seq<int>, from: int, to: int) returns (i: nat)
    requires Sorted(h)
    ensures i + CountIn(h, from, to) <= |h|
    ensures forall k :: i <= k < i + CountIn(h, from, to) ==> from < h[k] <= to
    ensures CountIn(h, from, to) > 0 ==> forall k :: i + CountIn(h, from, to) <= k < |h| ==> h[k] > to
    ensures CountIn(h, from, to) == 0 ==> forall k :: 0 <= k < |h| ==> h[k] <= from || h[k] > to
  {
    i := 0;
    if h != [] {
      var past, last := h[..|h| - 1], h[|h| - 1];
      var p := CountSpan(past, from, to);
      assert forall k :: 0 <= k < |past| ==> past[k] == h[k];
      if from < last <= to {
        i := if CountIn(past, from, to) > 0 then p else |past|;
      } else {
        i := p;
      }
    }
  }

  lemma SpacedCount(h: seq<int>, l: Limit, now: int, from: int)
    requires Sensible(l) && Fine(h, l, now)
    ensures CountIn(h, from, from + l.window) <= l.n
  {
    var i := CountSpan(h, from, from + l.window);
    assert SpacedAt(h, i, l);
  }

  /** Whatever is refunded, in any window at most n of an account's hits are left. */
  lemma AtMostN(cs: seq<Call>, l: Limit, start: int, account: string, from: int)
    requires Sensible(l) && InTime(cs, start)
    ensures CountIn(HitsOf(RunKept(cs, l).0, account), from, from + l.window) <= l.n
  {
    AlwaysSpaced(cs, l, start);
    assert Fine(HitsOf(RunKept(cs, l).0, account), l, Clock(cs, start));
    SpacedCount(HitsOf(RunKept(cs, l).0, account), l, Clock(cs, start), from);
  }

  /** The answer to a denied call is exact: until then the account stays denied, and then it is allowed. */
  lemma RetryIsExact(m: Hits, account: string, l: Limit, now: int, later: int)
    requires Sensible(l) && AllSpaced(m, l, now) && now <= later && Kept(m, Allow(account, now), l).1.Denied?
    ensures var wait := Kept(m, Allow(account, now), l).1.retryAfter;
            wait > 0 && (Kept(m, Allow(account, later), l).1.Allowed? <==> later >= now + wait)
  {
    var h := HitsOf(m, account);
    assert Fine(h, l, now);
    RecentIs(h, now - l.window);
    RecentIs(h, later - l.window);
    var r, s := Recent(h, now - l.window), Recent(h, later - l.window);
    var k, j := |h| - |r|, |h| - |s|;
    ExactlyN(h, l, now);
    assert h[k] == r[0] && (j < |h| ==> h[j] == s[0]);
    if later < r[0] + l.window { RecentUnique(h, later - l.window, k); }
  }

  /** A refund straight after an accepted call of the same account takes back exactly that call: nothing
      remains of it but the forgetting. */
  lemma RefundUndoes(m: Hits, account: string, l: Limit, now: int, a: string)
    requires Sensible(l) && Step(m, Allow(account, now), l).1.Allowed?
    ensures HitsOf(Step(Step(m, Allow(account, now), l).0, Refund(account), l).0, a)
         == if a == account then Recent(HitsOf(m, a), now - l.window) else HitsOf(m, a)
    ensures Kept(m, Allow(account, now), l).1.Allowed? ==>
              HitsOf(Kept(Kept(m, Allow(account, now), l).0, Refund(account), l).0, a) == HitsOf(m, a)
  {
    StepHits(m, Allow(account, now), l, a);
    StepHits(Step(m, Allow(account, now), l).0, Refund(account), l, a);
    StepHits(Kept(m, Allow(account, now), l).0, Refund(account), l, a);
    assert HitsOf(Pruned(m, account, l, now), account) == Recent(HitsOf(m, account), now - l.window);
  }

  lemma ExactlyN(h: seq<int>, l: Limit, now: int)
    requires Sensible(l) && Fine(h, l, now) && |Recent(h, now - l.window)| >= l.n
    ensures |Recent(h, now - l.window)| == l.n
  {
    RecentIs(h, now - l.window);
    var r := Recent(h, now - l.window);
    var k := |h| - |r|;
    assert h[k] == r[0] && SpacedAt(h, k, l);
  }

  // ---- which calls are refunded ----

  function AnswerTo(cs: seq<Call>, l: Limit): Answer
    requires Sensible(l) && cs != []
  {
    Step(RunStep(cs[..|cs| - 1], l).0, cs[|cs| - 1], l).1
  }

  predicate Accepts(cs: seq<Call>, l: Limit, account: string)
    requires Sensible(l) && cs != []
  {
    cs[|cs| - 1].Allow? && cs[|cs| - 1].account == account && AnswerTo(cs, l) == Allowed
  }

  predicate Refunds(cs: seq<Call>, account: string)
    requires cs != []
  {
    cs[|cs| - 1].Refund? && cs[|cs| - 1].account == account
  }

  function Remove(ks: seq<nat>, k: nat): seq<nat> {
    if ks == [] then [] else if ks[|ks| - 1] == k then ks[..|ks| - 1] else Remove(ks[..|ks| - 1], k) + [ks[|ks| - 1]]
  }

  /** The account's accepted calls that have not been refunded, oldest first, by their place in the run. The
      refund at place i is meant for the call at place own(i). */
  function Standing(cs: seq<Call>, own: nat -> nat, l: Limit, account: string): seq<nat>
    requires Sensible(l)
  {
    if cs == [] then []
    else
      var past := Standing(cs[..|cs| - 1], own, l, account);
      if Accepts(cs, l, account) then past + [|cs| - 1]
      else if Refunds(cs, account) then Remove(past, own(|cs| - 1))
      else past
  }

  /** The calls whose hits the limiter still has: a refund takes the newest one. */
  function Counted(cs: seq<Call>, l: Limit, account: string): seq<nat>
    requires Sensible(l)
  {
    if cs == [] then []
    else
      var past := Counted(cs[..|cs| - 1], l, account);
      if Accepts(cs, l, account) then past + [|cs| - 1]
      else if Refunds(cs, account) && past != [] then past[..|past| - 1]
      else past
  }

  /** Every refund is for a call that was accepted and has not been refunded. */
  ghost predicate Owned(cs: seq<Call>, own: nat -> nat, l: Limit, account: string)
    requires Sensible(l)
  {
    forall i :: 0 <= i < |cs| && cs[i].Refund? && cs[i].account == account ==> own(i) in Standing(cs[..i], own, l, account)
  }

  /** Every refund comes before the account's next call is accepted. */
  ghost predicate Prompt(cs: seq<Call>, own: nat -> nat, l: Limit, account: string)
    requires Sensible(l)
  {
    forall i :: 0 <= i < |cs| && cs[i].Refund? && cs[i].account == account ==> IsNewest(own(i), Standing(cs[..i], own, l, account))
  }

  predicate IsNewest(k: nat, ks: seq<nat>) { ks != [] && ks[|ks| - 1] == k }

  lemma {:induction false} RemoveLess(ks: seq<nat>, k: nat)
    requires k in ks
    ensures |Remove(ks, k)| == |ks| - 1
    ensures (forall i, j :: 0 <= i < j < |ks| ==> ks[i] < ks[j]) && !IsNewest(k, ks) ==> IsNewest(ks[|ks| - 1], Remove(ks, k))
  {
    if ks[|ks| - 1] != k { RemoveLess(ks[..|ks| - 1], k); }
  }

  predicate Rising(ks: seq<nat>, n: nat) {
    (forall i :: 0 <= i < |ks| ==> ks[i] < n) && forall i, j :: 0 <= i < j < |ks| ==> ks[i] < ks[j]
  }

  lemma {:induction false} CountedRises(cs: seq<Call>, l: Limit, account: string)
    requires Sensible(l)
    ensures Rising(Counted(cs, l, account), |cs|)
  {
    if cs != [] { CountedRises(cs[..|cs| - 1], l, account); }
  }

  lemma PromptPast(cs: seq<Call>, own: nat -> nat, l: Limit, account: string, n: nat)
    requires Sensible(l) && n <= |cs|
    ensures Prompt(cs, own, l, account) ==> Prompt(cs[..n], own, l, account)
    ensures Owned(cs, own, l, account) ==> Owned(cs[..n], own, l, account)
  {
    forall i | 0 <= i < n
      ensures cs[..n][..i] == cs[..i] && cs[..n][i] == cs[i]
    {
    }
  }

  lemma {:induction false} PromptIsCounted(cs: seq<Call>, own: nat -> nat, l: Limit, account: string)
    requires Sensible(l) && Prompt(cs, own, l, account)
    ensures Counted(cs, l, account) == Standing(cs, own, l, account)
  {
    if cs != [] {
      var n := |cs| - 1;
      PromptPast(cs, own, l, account, n);
      PromptIsCounted(cs[..n], own, l, account);
      if Refunds(cs, account) { assert IsNewest(own(n), Standing(cs[..n], own, l, account)); }
    }
  }

  ghost predicate CountsStanding(cs: seq<Call>, own: nat -> nat, l: Limit, account: string, i: nat)
    requires Sensible(l) && i <= |cs|
  {
    Counted(cs[..i], l, account) == Standing(cs[..i], own, l, account)
  }

  /** The limiter counts exactly the calls that stand, at every moment, if and only if every refund comes
      before the account's next call is accepted. */
  lemma CountsStandingIff(cs: seq<Call>, own: nat -> nat, l: Limit, account: string)
    requires Sensible(l) && Owned(cs, own, l, account)
    ensures (forall i :: 0 <= i <= |cs| ==> CountsStanding(cs, own, l, account, i)) <==> Prompt(cs, own, l, account)
  {
    if Prompt(cs, own, l, account) {
      forall i | 0 <= i <= |cs|
        ensures CountsStanding(cs, own, l, account, i)
      {
        PromptPast(cs, own, l, account, i);
        PromptIsCounted(cs[..i], own, l, account);
      }
    } else {
      var i :| 0 <= i < |cs| && cs[i].Refund? && cs[i].account == account && !IsNewest(own(i), Standing(cs[..i], own, l, account));
      LateMiscounts(cs, own, l, account, i, i + 1);
    }
  }

  lemma LateMiscounts(cs: seq<Call>, own: nat -> nat, l: Limit, account: string, i: nat, m: nat)
    requires Sensible(l) && Owned(cs, own, l, account) && i < |cs| && m == i + 1
    requires cs[i].Refund? && cs[i].account == account && !IsNewest(own(i), Standing(cs[..i], own, l, account))
    ensures !CountsStanding(cs, own, l, account, i) || !CountsStanding(cs, own, l, account, m)
  {
    var now, was := cs[..m], cs[..i];
    assert now[..|now| - 1] == was && now[|now| - 1] == cs[i];
    var ks := Standing(was, own, l, account);
    assert own(i) in ks;
    if Counted(was, l, account) == ks {
      CountedRises(was, l, account);
      RemoveLess(ks, own(i));
      assert Counted(now, l, account) == ks[..|ks| - 1] && Standing(now, own, l, account) == Remove(ks, own(i));
      assert |ks| > 1 ==> ks[|ks| - 2] < ks[|ks| - 1];
    }
  }

  /** When these calls were made. */
  function Times(cs: seq<Call>, ks: seq<nat>): (r: seq<int>)
    requires forall i :: 0 <= i < |ks| ==> ks[i] < |cs| && cs[ks[i]].Allow?
    ensures |r| == |ks| && forall i :: 0 <= i < |r| ==> r[i] == cs[ks[i]].at
  {
    seq(|ks|, i requires 0 <= i < |ks| => cs[ks[i]].at)
  }

  ghost predicate Calls(cs: seq<Call>, ks: seq<nat>) { forall i :: 0 <= i < |ks| ==> ks[i] < |cs| && cs[ks[i]].Allow? }

  lemma AllowedIff(m: Hits, account: string, at: int, l: Limit)
    requires Sensible(l)
    ensures Step(m, Allow(account, at), l).1 == Allowed <==> |Recent(HitsOf(m, account), at - l.window)| < l.n
  {
    assert HitsOf(Pruned(m, account, l, at), account) == Recent(HitsOf(m, account), at - l.window);
  }

  lemma SameRecent(cs: seq<Call>, l: Limit, start: int, account: string, at: int)
    requires Sensible(l) && InTime(cs, start) && Clock(cs, start) <= at
    ensures Recent(HitsOf(RunStep(cs, l).0, account), at - l.window) == Recent(HitsOf(RunKept(cs, l).0, account), at - l.window)
  {
    AlwaysAlike(cs, l, start);
    AlikeLater(RunStep(cs, l).0, RunKept(cs, l).0, l, Clock(cs, start), at);
    assert Tail(HitsOf(RunStep(cs, l).0, account), HitsOf(RunKept(cs, l).0, account), at - l.window);
    TailRecent(HitsOf(RunStep(cs, l).0, account), HitsOf(RunKept(cs, l).0, account), at - l.window);
  }

  lemma AcceptsIff(cs: seq<Call>, l: Limit, start: int, account: string)
    requires Sensible(l) && InTime(cs, start) && cs != [] && cs[|cs| - 1].Allow? && cs[|cs| - 1].account == account
    ensures Accepts(cs, l, account) <==> |Recent(HitsOf(RunKept(cs[..|cs| - 1], l).0, account), cs[|cs| - 1].at - l.window)| < l.n
  {
    AllowedIff(RunStep(cs[..|cs| - 1], l).0, account, cs[|cs| - 1].at, l);
    SameRecent(cs[..|cs| - 1], l, start, account, cs[|cs| - 1].at);
  }

  lemma TimesPast(cs: seq<Call>, n: nat, ks: seq<nat>)
    requires n <= |cs| && Calls(cs[..n], ks)
    ensures Calls(cs, ks) && Times(cs, ks) == Times(cs[..n], ks)
  {
    forall i | 0 <= i < |ks|
      ensures ks[i] < |cs| && cs[ks[i]].Allow? && cs[ks[i]] == cs[..n][ks[i]]
    {
    }
  }

  lemma KeptHits(cs: seq<Call>, l: Limit, account: string)
    requires Sensible(l) && cs != []
    ensures HitsOf(RunKept(cs, l).0, account) == AfterKept(HitsOf(RunKept(cs[..|cs| - 1], l).0, account), cs[|cs| - 1], account, l)
  {
    StepHits(RunKept(cs[..|cs| - 1], l).0, cs[|cs| - 1], l, account);
  }

  lemma TimesPlus(cs: seq<Call>, ks: seq<nat>, n: nat)
    requires Calls(cs, ks) && n < |cs| && cs[n].Allow?
    ensures Calls(cs, ks + [n]) && Times(cs, ks + [n]) == Times(cs, ks) + [cs[n].at]
  {
  }

  lemma TimesLess(cs: seq<Call>, ks: seq<nat>)
    requires Calls(cs, ks) && ks != []
    ensures Calls(cs, ks[..|ks| - 1]) && Times(cs, ks[..|ks| - 1]) == Last(Times(cs, ks))
  {
  }

  lemma {:induction false} CountedTimes(cs: seq<Call>, l: Limit, start: int, account: string)
    requires Sensible(l) && InTime(cs, start)
    ensures Calls(cs, Counted(cs, l, account))
    ensures HitsOf(RunKept(cs, l).0, account) == Times(cs, Counted(cs, l, account))
  {
    if cs != [] {
      CountedTimes(cs[..|cs| - 1], l, start, account);
      CountedMore(cs, l, start, account);
    }
  }

  /** The counted calls after one more that is accepted, a refund, or neither. */
  function NextCounted(ks: seq<nat>, n: nat, accepted: bool, refund: bool): seq<nat> {
    if accepted then ks + [n] else if refund && ks != [] then ks[..|ks| - 1] else ks
  }

  function NextHits(h: seq<int>, at: int, accepted: bool, refund: bool): seq<int> {
    if accepted then h + [at] else if refund then Last(h) else h
  }

  lemma NextTimes(cs: seq<Call>, ks: seq<nat>, n: nat, at: int, accepted: bool, refund: bool)
    requires Calls(cs, ks) && n < |cs| && (accepted ==> cs[n].Allow? && cs[n].at == at)
    ensures Calls(cs, NextCounted(ks, n, accepted, refund))
    ensures NextHits(Times(cs, ks), at, accepted, refund) == Times(cs, NextCounted(ks, n, accepted, refund))
  {
    if accepted { TimesPlus(cs, ks, n); } else if refund && ks != [] { TimesLess(cs, ks); }
  }

  lemma AfterIs(h: seq<int>, c: Call, account: string, l: Limit, accepted: bool)
    requires accepted <==> c.Allow? && c.account == account && |Recent(h, c.at - l.window)| < l.n
    ensures AfterKept(h, c, account, l)
         == NextHits(h, if c.Allow? then c.at else 0, accepted, c.Refund? && c.account == account)
  {
  }

  lemma CountedIs(cs: seq<Call>, l: Limit, account: string)
    requires Sensible(l) && cs != []
    ensures Counted(cs, l, account)
         == NextCounted(Counted(cs[..|cs| - 1], l, account), |cs| - 1, Accepts(cs, l, account), Refunds(cs, account))
  {
  }

  lemma CountedMore(cs: seq<Call>, l: Limit, start: int, account: string)
    requires Sensible(l) && InTime(cs, start) && cs != [] && Calls(cs[..|cs| - 1], Counted(cs[..|cs| - 1], l, account))
    requires HitsOf(RunKept(cs[..|cs| - 1], l).0, account) == Times(cs[..|cs| - 1], Counted(cs[..|cs| - 1], l, account))
    ensures Calls(cs, Counted(cs, l, account))
    ensures HitsOf(RunKept(cs, l).0, account) == Times(cs, Counted(cs, l, account))
  {
    var n := |cs| - 1;
    var ks := Counted(cs[..n], l, account);
    TimesPast(cs, n, ks);
    HitsMore(cs, l, start, account);
    NextTimes(cs, ks, n, LastTime(cs), Accepts(cs, l, account), Refunds(cs, account));
    CountedIs(cs, l, account);
  }

  function LastTime(cs: seq<Call>): int
    requires cs != []
  {
    if cs[|cs| - 1].Allow? then cs[|cs| - 1].at else 0
  }

  lemma HitsMore(cs: seq<Call>, l: Limit, start: int, account: string)
    requires Sensible(l) && InTime(cs, start) && cs != []
    ensures HitsOf(RunKept(cs, l).0, account)
         == NextHits(HitsOf(RunKept(cs[..|cs| - 1], l).0, account), LastTime(cs), Accepts(cs, l, account), Refunds(cs, account))
  {
    var c := cs[|cs| - 1];
    KeptHits(cs, l, account);
    if c.Allow? && c.account == account { AcceptsIff(cs, l, start, account); }
    AfterIs(HitsOf(RunKept(cs[..|cs| - 1], l).0, account), c, account, l, Accepts(cs, l, account));
  }

  /** In any window at most n of an account's accepted calls stand, as long as every refund comes before the
      account's next call is accepted. */
  lemma AcceptedAtMostN(cs: seq<Call>, own: nat -> nat, l: Limit, start: int, account: string, from: int)
    requires Sensible(l) && InTime(cs, start) && Prompt(cs, own, l, account)
    ensures Calls(cs, Standing(cs, own, l, account))
    ensures CountIn(Times(cs, Standing(cs, own, l, account)), from, from + l.window) <= l.n
  {
    PromptIsCounted(cs, own, l, account);
    CountedTimes(cs, l, start, account);
    AtMostN(cs, l, start, account, from);
  }

  // two trades allowed in sixty; the refund is for the first call

  const TWO := Limit(2, 60)

  /** After these calls the account has these hits, and these calls stand. */
  ghost predicate Stands(cs: seq<Call>, own: nat -> nat, h: seq<int>, ks: seq<nat>) {
    HitsOf(RunStep(cs, TWO).0, "a") == h && Standing(cs, own, TWO, "a") == ks
  }

  lemma Accepted(cs: seq<Call>, own: nat -> nat, h: seq<int>, ks: seq<nat>, at: int)
    requires Stands(cs, own, h, ks) && |Recent(h, at - 60)| < 2
    ensures Stands(cs + [Allow("a", at)], own, Recent(h, at - 60) + [at], ks + [|cs|])
  {
    assert (cs + [Allow("a", at)])[..|cs|] == cs;
    StepHits(RunStep(cs, TWO).0, Allow("a", at), TWO, "a");
    AllowedIff(RunStep(cs, TWO).0, "a", at, TWO);
  }

  lemma Refunded(cs: seq<Call>, own: nat -> nat, h: seq<int>, ks: seq<nat>)
    requires Stands(cs, own, h, ks)
    ensures Stands(cs + [Refund("a")], own, Last(h), Remove(ks, own(|cs|)))
  {
    assert (cs + [Refund("a")])[..|cs|] == cs;
    StepHits(RunStep(cs, TWO).0, Refund("a"), TWO, "a");
  }

  lemma RecentOne(x: int, cutoff: int)
    ensures Recent([x], cutoff) == if x <= cutoff then [] else [x]
  {
    assert [x][1..] == [];
  }

  lemma FirstTwo(own: nat -> nat)
    ensures Stands([Allow("a", 0), Allow("a", 50)], own, [0, 50], [0, 1])
  {
    assert Stands([], own, [], []);
    Accepted([], own, [], [], 0);
    assert [] + [Allow("a", 0)] == [Allow("a", 0)];
    RecentOne(0, -10);
    Accepted([Allow("a", 0)], own, [0], [0], 50);
    assert [Allow("a", 0)] + [Allow("a", 50)] == [Allow("a", 0), Allow("a", 50)];
  }

  lemma RemoveFirst()
    ensures Remove([0, 1], 0) == [1] && Last([0, 50]) == [0]
  {
    assert [0, 1][..1] == [0] && [0][..0] == [] && Remove([0], 0) == [];
  }

  lemma LastTwo(cs: seq<Call>, own: nat -> nat)
    requires Stands(cs, own, [0], [1]) && |cs| == 3
    ensures Stands(cs + [Allow("a", 61)] + [Allow("a", 62)], own, [61, 62], [1, 3, 4])
  {
    RecentOne(0, 1);
    Accepted(cs, own, [0], [1], 61);
    RecentOne(61, 2);
    assert Recent([0], 1) + [61] == [61] && [1] + [3] == [1, 3];
    Accepted(cs + [Allow("a", 61)], own, [61], [1, 3], 62);
    assert [61] + [62] == [61, 62] && [1, 3] + [4] == [1, 3, 4];
  }

  lemma ThreeWithin()
    ensures CountIn([50, 61, 62], 40, 100) == 3
  {
    assert [50, 61, 62][..2] == [50, 61] && [50, 61][..1] == [50] && [50][..0] == [];
  }

  /** A trade is accepted at 0 and one at 50; the first fails and its refund takes the second one's hit. Two more
      are accepted at 61 and 62: three stand within sixty, of which two are allowed. */
  lemma LateRefund(own: nat -> nat)
    requires own(2) == 0
    ensures var cs := [Allow("a", 0), Allow("a", 50)] + [Refund("a")] + [Allow("a", 61)] + [Allow("a", 62)];
            Owned(cs, own, TWO, "a") && Standing(cs, own, TWO, "a") == [1, 3, 4] && CountIn([50, 61, 62], 40, 100) == 3
  {
    var two := [Allow("a", 0), Allow("a", 50)];
    var cs := two + [Refund("a")] + [Allow("a", 61)] + [Allow("a", 62)];
    FirstTwo(own);
    Refunded(two, own, [0, 50], [0, 1]);
    RemoveFirst();
    LastTwo(two + [Refund("a")], own);
    ThreeWithin();
    assert cs[..2] == two && 0 in Standing(two, own, TWO, "a");
  }

  // ---- the limiter as an object ----

  class Limiter {
    const limit: Limit
    var hits: Hits

    constructor (limit: Limit)
      ensures this.limit == limit && hits == map[]
    {
      this.limit, hits := limit, map[];
    }

    method Prune(account: string, now: int) returns (h: seq<int>)
      modifies this
      ensures hits == Pruned(old(hits), account, limit, now) && h == HitsOf(hits, account)
    {
      var cutoff := now - limit.window;
      h := if account in hits then hits[account] else [];
      var i := 0;
      assert h[0..] == h;
      while i < |h| && h[i] <= cutoff
        invariant i <= |h| && Recent(h, cutoff) == Recent(h[i..], cutoff)
      {
        assert h[i..][1..] == h[i + 1..];
        i := i + 1;
      }
      h := h[i..];
      if |h| == 0 {
        hits := hits - {account};
      } else {
        hits := hits[account := h];
      }
    }

    method AllowTrade(account: string, now: int) returns (r: Answer)
      requires Sensible(limit)
      modifies this
      ensures (hits, r) == Step(old(hits), Allow(account, now), limit)
    {
      var h := Prune(account, now);
      if |h| >= limit.n { return Denied(h[0] + limit.window - now); }
      hits := hits[account := h + [now]];
      r := Allowed;
    }

    method RefundTrade(account: string)
      requires Sensible(limit)
      modifies this
      ensures hits == Step(old(hits), Refund(account), limit).0
    {
      var h := if account in hits then hits[account] else [];
      if |h| > 0 {
        h := h[..|h| - 1];
        if |h| == 0 { hits := hits - {account}; } else { hits := hits[account := h]; }
      } else {
        hits := hits - {account};
      }
    }

    /** Prunes every account. */
    method SweepAll(now: int)
      requires Sensible(limit)
      modifies this
      ensures hits == Step(old(hits), Sweep(now), limit).0
    {
      var left := hits.Keys;
      ghost var was := hits;
      while left != {}
        invariant left <= was.Keys
        invariant hits == map a | a in was && (a in left || Recent(was[a], now - limit.window) != []) ::
                            if a in left then was[a] else Recent(was[a], now - limit.window)
        decreases |left|
      {
        var a :| a in left;
        var h := Prune(a, now);
        left := left - {a};
      }
    }
  }
}

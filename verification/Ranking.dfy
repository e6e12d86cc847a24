/** The Phase 1 ranking with its tie-breaks, and the pairing of the qualifiers into funds. */
module Ranking {

  datatype Standing = Standing(id: string, value: int, peak: int, transactions: int)

  datatype TieBreak = PeakValue | FewerTransactions | CoinToss | OtherStep

  datatype DecidedBy = ByValue | ByPeak | ByFewer | ByCoin | Unresolved

  datatype Ranked = Ranked(standing: Standing, rank: int, why: DecidedBy)

  /** The tie-break steps in order, and the coin's key for every account. */
  datatype Rule = Rule(steps: seq<TieBreak>, coin: string -> int)

  // ---- account ids are ordered letter by letter ----

  predicate Less(a: string, b: string) {
    if b == "" then false
    else if a == "" then true
    else a[0] < b[0] || (a[0] == b[0] && Less(a[1..], b[1..]))
  }

  lemma {:induction false} LessTotal(a: string, b: string)
    ensures !(Less(a, b) && Less(b, a))
    ensures a != b <==> Less(a, b) || Less(b, a)
  {
    if a != "" && b != "" {
      LessTotal(a[1..], b[1..]);
      assert a == [a[0]] + a[1..] && b == [b[0]] + b[1..];
    }
  }

  lemma {:induction false} LessTransitive(a: string, b: string, c: string)
    requires Less(a, b) && Less(b, c)
    ensures Less(a, c)
  {
    if a != "" && a[0] == b[0] == c[0] { LessTransitive(a[1..], b[1..], c[1..]); }
  }

  /** One id comes first exactly when it is the beginning of the other, or has the smaller letter where they
      first differ. */
  lemma {:induction false} LessMeans(a: string, b: string)
    ensures Less(a, b) <==> a < b || exists i :: DiffersAt(a, b, i)
  {
    if a == "" || b == "" {
    } else if a[0] != b[0] {
      assert a[0] < b[0] ==> DiffersAt(a, b, 0);
      if i :| DiffersAt(a, b, i) { if i > 0 { assert a[..i][0] == b[..i][0]; } }
    } else {
      LessMeans(a[1..], b[1..]);
      assert a == [a[0]] + a[1..] && b == [b[0]] + b[1..];
      if i :| DiffersAt(a[1..], b[1..], i) {
        assert a[..i + 1] == [a[0]] + a[1..][..i] && b[..i + 1] == [b[0]] + b[1..][..i];
        assert DiffersAt(a, b, i + 1);
      }
      if i :| DiffersAt(a, b, i) {
        assert i > 0;
        assert a[..i][1..] == a[1..][..i - 1] && b[..i][1..] == b[1..][..i - 1];
        assert DiffersAt(a[1..], b[1..], i - 1);
      }
    }
  }

  /** They agree up to here, where a has the smaller letter. */
  predicate DiffersAt(a: string, b: string, i: int) { 0 <= i < |a| && i < |b| && a[..i] == b[..i] && a[i] < b[i] }

  // ---- who is ahead, and why ----

  /** A step prefers the smaller key. */
  function Key(step: TieBreak, s: Standing, coin: string -> int): int {
    match step
    case PeakValue => -s.peak
    case FewerTransactions => s.transactions
    case CoinToss => coin(s.id)
    case OtherStep => 0
  }

  function Name(step: TieBreak): DecidedBy {
    match step
    case PeakValue => ByPeak
    case FewerTransactions => ByFewer
    case CoinToss => ByCoin
    case OtherStep => Unresolved
  }

  function DecideSteps(a: Standing, b: Standing, steps: seq<TieBreak>, coin: string -> int): (int, DecidedBy) {
    if steps == [] then (if Less(a.id, b.id) then -1 else 1, Unresolved)
    else if Key(steps[0], a, coin) != Key(steps[0], b, coin)
    then (if Key(steps[0], a, coin) < Key(steps[0], b, coin) then -1 else 1, Name(steps[0]))
    else DecideSteps(a, b, steps[1..], coin)
  }

  function Decide(a: Standing, b: Standing, rule: Rule): (int, DecidedBy) {
    if a.value != b.value then (if a.value > b.value then -1 else 1, ByValue)
    else DecideSteps(a, b, rule.steps, rule.coin)
  }

  predicate Before(a: Standing, b: Standing, rule: Rule) { Decide(a, b, rule).0 < 0 }

  // ---- the order is strict and total ----

  lemma {:induction false} StepsTotal(a: Standing, b: Standing, steps: seq<TieBreak>, coin: string -> int)
    requires a.id != b.id
    ensures DecideSteps(a, b, steps, coin).0 < 0 <==> !(DecideSteps(b, a, steps, coin).0 < 0)
  {
    if steps == [] {
      LessTotal(a.id, b.id);
    } else {
      StepsTotal(a, b, steps[1..], coin);
    }
  }

  lemma {:induction false} StepsTransitive(a: Standing, b: Standing, c: Standing, steps: seq<TieBreak>, coin: string -> int)
    requires DecideSteps(a, b, steps, coin).0 < 0 && DecideSteps(b, c, steps, coin).0 < 0
    ensures DecideSteps(a, c, steps, coin).0 < 0
  {
    if steps == [] {
      LessTransitive(a.id, b.id, c.id);
    } else if Key(steps[0], a, coin) == Key(steps[0], b, coin) == Key(steps[0], c, coin) {
      StepsTransitive(a, b, c, steps[1..], coin);
    }
  }

  /** For any tie-break list and any coin, of two different accounts exactly one is ahead, and being ahead
      is transitive. */
  lemma StrictTotal(a: Standing, b: Standing, c: Standing, rule: Rule)
    ensures a.id != b.id ==> (Before(a, b, rule) <==> !Before(b, a, rule))
    ensures Before(a, b, rule) && Before(b, c, rule) ==> Before(a, c, rule)
  {
    if a.id != b.id { StepsTotal(a, b, rule.steps, rule.coin); }
    if Before(a, b, rule) && Before(b, c, rule) && a.value == c.value {
      StepsTransitive(a, b, c, rule.steps, rule.coin);
    }
  }

  /** What a tie-break step prefers. */
  predicate Better(step: TieBreak, a: Standing, b: Standing, coin: string -> int) {
    match step
    case PeakValue => a.peak > b.peak
    case FewerTransactions => a.transactions < b.transactions
    case CoinToss => coin(a.id) < coin(b.id)
    case OtherStep => false
  }

  predicate Even(step: TieBreak, a: Standing, b: Standing, coin: string -> int) { !Better(step, a, b, coin) && !Better(step, b, a, coin) }

  /** The first step that tells them apart prefers a; or none does, and a has the smaller id. */
  ghost predicate AheadOnTies(a: Standing, b: Standing, steps: seq<TieBreak>, coin: string -> int) {
    || (exists k :: WinsAt(k, a, b, steps, coin))
    || ((forall k :: 0 <= k < |steps| ==> Even(steps[k], a, b, coin)) && Less(a.id, b.id))
  }

  predicate WinsAt(k: int, a: Standing, b: Standing, steps: seq<TieBreak>, coin: string -> int) {
    0 <= k < |steps| && Better(steps[k], a, b, coin) && forall j :: 0 <= j < k ==> Even(steps[j], a, b, coin)
  }

  /** A team is ahead exactly when it is worth more; or as much, and on the tie-breaks. */
  lemma BeforeMeans(a: Standing, b: Standing, rule: Rule)
    ensures Before(a, b, rule) <==> a.value > b.value || (a.value == b.value && AheadOnTies(a, b, rule.steps, rule.coin))
  {
    StepsMean(a, b, rule.steps, rule.coin);
  }

  lemma {:induction false} StepsMean(a: Standing, b: Standing, steps: seq<TieBreak>, coin: string -> int)
    ensures DecideSteps(a, b, steps, coin).0 < 0 <==> AheadOnTies(a, b, steps, coin)
  {
    if steps != [] {
      var rest := steps[1..];
      StepsMean(a, b, rest, coin);
      if Even(steps[0], a, b, coin) {
        if k :| WinsAt(k, a, b, rest, coin) { EvenFirst(a, b, steps, coin, k); }
        if k :| WinsAt(k, a, b, steps, coin) { EvenFirst(a, b, steps, coin, k - 1); }
        assert forall k :: 0 <= k < |rest| ==> rest[k] == steps[k + 1];
        assert forall k :: 0 < k < |steps| ==> steps[k] == rest[k - 1];
      } else if Better(steps[0], a, b, coin) {
        assert WinsAt(0, a, b, steps, coin);
      } else {
        assert !Even(steps[0], a, b, coin);
        assert forall k :: !WinsAt(k, a, b, steps, coin);
      }
    }
  }

  lemma EvenFirst(a: Standing, b: Standing, steps: seq<TieBreak>, coin: string -> int, k: int)
    requires steps != [] && Even(steps[0], a, b, coin) && 0 <= k < |steps| - 1
    ensures WinsAt(k, a, b, steps[1..], coin) <==> WinsAt(k + 1, a, b, steps, coin)
  {
    var rest := steps[1..];
    assert rest[k] == steps[k + 1];
    assert forall j :: 0 <= j < k ==> rest[j] == steps[j + 1];
    assert forall j :: 0 < j < k + 1 ==> steps[j] == rest[j - 1];
  }

  /** What each reason says of the two teams. */
  lemma ReasonMeans(a: Standing, b: Standing, rule: Rule)
    ensures var why := Decide(a, b, rule).1;
            && (why.ByValue? <==> a.value != b.value)
            && (why.ByPeak? ==> PeakValue in rule.steps && a.peak != b.peak)
            && (why.ByFewer? ==> FewerTransactions in rule.steps && a.transactions != b.transactions)
            && (why.ByCoin? ==> CoinToss in rule.steps && rule.coin(a.id) != rule.coin(b.id))
            && (why.Unresolved? <==> a.value == b.value && forall k :: 0 <= k < |rule.steps| ==> Even(rule.steps[k], a, b, rule.coin))
  {
    DecideReason(a, b, rule);
    if exists k :: IsFirst(k, a, b, rule) {
      var k :| IsFirst(k, a, b, rule);
      assert !Even(rule.steps[k], a, b, rule.coin);
    } else {
      NoneFirst(a, b, rule, |rule.steps|);
    }
  }

  lemma {:induction false} NoneFirst(a: Standing, b: Standing, rule: Rule, n: nat)
    requires n <= |rule.steps| && !exists k :: IsFirst(k, a, b, rule)
    ensures forall k :: 0 <= k < n ==> Key(rule.steps[k], a, rule.coin) == Key(rule.steps[k], b, rule.coin)
  {
    if n > 0 {
      NoneFirst(a, b, rule, n - 1);
      assert !IsFirst(n - 1, a, b, rule);
    }
  }

  /** What decided between two teams: the value if it differs; else the first step that separates them;
      else nothing did. */
  ghost predicate FirstReason(why: DecidedBy, a: Standing, b: Standing, rule: Rule) {
    if a.value != b.value then why == ByValue
    else if exists k :: IsFirst(k, a, b, rule) then exists k :: IsFirst(k, a, b, rule) && why == Name(rule.steps[k])
    else why == Unresolved
  }

  ghost predicate IsFirst(k: int, a: Standing, b: Standing, rule: Rule) {
    && 0 <= k < |rule.steps| && Key(rule.steps[k], a, rule.coin) != Key(rule.steps[k], b, rule.coin)
    && forall j :: 0 <= j < k ==> Key(rule.steps[j], a, rule.coin) == Key(rule.steps[j], b, rule.coin)
  }

  lemma {:induction false} StepsReason(a: Standing, b: Standing, rule: Rule, i: nat)
    requires i <= |rule.steps| && forall j :: 0 <= j < i ==> Key(rule.steps[j], a, rule.coin) == Key(rule.steps[j], b, rule.coin)
    ensures var why := DecideSteps(a, b, rule.steps[i..], rule.coin).1;
            if exists k :: IsFirst(k, a, b, rule) then exists k :: IsFirst(k, a, b, rule) && why == Name(rule.steps[k])
            else why == Unresolved
    decreases |rule.steps| - i
  {
    if i < |rule.steps| {
      assert rule.steps[i..][0] == rule.steps[i] && rule.steps[i..][1..] == rule.steps[i + 1..];
      if Key(rule.steps[i], a, rule.coin) != Key(rule.steps[i], b, rule.coin) {
        assert IsFirst(i, a, b, rule);
      } else {
        StepsReason(a, b, rule, i + 1);
      }
    }
  }

  lemma DecideReason(a: Standing, b: Standing, rule: Rule)
    ensures FirstReason(Decide(a, b, rule).1, a, b, rule)
  {
    assert rule.steps[0..] == rule.steps;
    StepsReason(a, b, rule, 0);
  }

  // ---- there is only one way to rank ----

  ghost predicate InOrder(s: seq<Standing>, rule: Rule) { forall i, j :: 0 <= i < j < |s| ==> Before(s[i], s[j], rule) }

  predicate Distinct(s: seq<Standing>) { forall i, j :: 0 <= i < j < |s| ==> s[i].id != s[j].id }

  lemma FirstIsFirst(s: seq<Standing>, t: seq<Standing>, rule: Rule)
    requires InOrder(s, rule) && InOrder(t, rule) && Distinct(s) && Distinct(t) && multiset(s) == multiset(t) && s != []
    ensures t != [] && s[0] == t[0]
  {
    assert s[0] in multiset(t) && |multiset(s)| == |multiset(t)|;
    assert t[0] in multiset(s);
    var i :| 0 <= i < |s| && s[i] == t[0];
    var j :| 0 <= j < |t| && t[j] == s[0];
    if i > 0 && j > 0 { StrictTotal(s[0], t[0], s[0], rule); }
  }

  lemma Tails(s: seq<Standing>, t: seq<Standing>, rule: Rule)
    requires InOrder(s, rule) && Distinct(s) && s != [] && t != [] && s[0] == t[0] && multiset(s) == multiset(t)
    ensures InOrder(s[1..], rule) && Distinct(s[1..]) && multiset(s[1..]) == multiset(t[1..])
  {
    assert s == [s[0]] + s[1..] && t == [t[0]] + t[1..];
    assert multiset(s[1..]) == multiset(s) - multiset{s[0]};
    assert multiset(t[1..]) == multiset(t) - multiset{t[0]};
  }

  lemma {:induction false} OneRanking(s: seq<Standing>, t: seq<Standing>, rule: Rule)
    requires InOrder(s, rule) && InOrder(t, rule) && Distinct(s) && Distinct(t) && multiset(s) == multiset(t)
    ensures s == t
  {
    if s != [] {
      FirstIsFirst(s, t, rule);
      Tails(s, t, rule);
      Tails(t, s, rule);
      OneRanking(s[1..], t[1..], rule);
      assert s == [s[0]] + s[1..] && t == [t[0]] + t[1..];
    } else {
      assert |multiset(t)| == 0;
    }
  }

  // ---- ranking ----

  /** Where the standing belongs among those already in order. */
  method Place(s: seq<Standing>, x: Standing, rule: Rule) returns (k: nat)
    requires InOrder(s, rule)
    ensures k <= |s| && (forall i :: 0 <= i < k ==> !Before(x, s[i], rule)) && (k < |s| ==> Before(x, s[k], rule))
  {
    k := 0;
    while k < |s| && !Before(x, s[k], rule)
      invariant k <= |s| && forall i :: 0 <= i < k ==> !Before(x, s[i], rule)
    {
      k := k + 1;
    }
  }

  lemma Placed(s: seq<Standing>, x: Standing, k: nat, rule: Rule)
    requires InOrder(s, rule) && k <= |s| && forall i :: 0 <= i < |s| ==> s[i].id != x.id
    requires (forall i :: 0 <= i < k ==> !Before(x, s[i], rule)) && (k < |s| ==> Before(x, s[k], rule))
    ensures InOrder(s[..k] + [x] + s[k..], rule)
  {
    forall i | 0 <= i < |s|
      ensures if i < k then Before(s[i], x, rule) else Before(x, s[i], rule)
    {
      StrictTotal(s[i], x, x, rule);
      if i > k { StrictTotal(x, s[k], s[i], rule); }
    }
  }

  method Sorted(standings: seq<Standing>, rule: Rule) returns (s: seq<Standing>)
    requires Distinct(standings)
    ensures InOrder(s, rule) && multiset(s) == multiset(standings) && |s| == |standings|
  {
    s := [];
    for n := 0 to |standings|
      invariant InOrder(s, rule) && multiset(s) == multiset(standings[..n]) && |s| == n
    {
      var x := standings[n];
      Members(s, standings, n);
      var k := Place(s, x, rule);
      Placed(s, x, k, rule);
      OneMore(s, k, standings, n);
      s := s[..k] + [x] + s[k..];
    }
    assert standings[..|standings|] == standings;
  }

  lemma OneMore<T>(s: seq<T>, k: nat, all: seq<T>, n: nat)
    requires k <= |s| && n < |all| && multiset(s) == multiset(all[..n])
    ensures multiset(s[..k] + [all[n]] + s[k..]) == multiset(all[..n + 1])
  {
    assert s == s[..k] + s[k..] && all[..n + 1] == all[..n] + [all[n]];
  }

  lemma Members(s: seq<Standing>, standings: seq<Standing>, n: nat)
    requires n < |standings| && Distinct(standings) && multiset(s) == multiset(standings[..n])
    ensures forall i :: 0 <= i < |s| ==> s[i].id != standings[n].id
  {
    forall i | 0 <= i < |s|
      ensures s[i].id != standings[n].id
    {
      assert s[i] in multiset(standings[..n]);
      var j :| 0 <= j < n && standings[..n][j] == s[i];
      assert standings[j] == s[i];
    }
  }

  function Standings(out: seq<Ranked>): seq<Standing> { seq(|out|, i requires 0 <= i < |out| => out[i].standing) }

  ghost predicate RankedAt(r: Ranked, s: seq<Standing>, i: nat, rule: Rule)
    requires i < |s|
  {
    && r.standing == s[i] && r.rank == i + 1
    && if i == 0 then r.why == ByValue else FirstReason(r.why, s[i - 1], s[i], rule)
  }

  /** The teams in order, numbered from 1, each with what separated it from the one above. */
  ghost predicate IsRanking(out: seq<Ranked>, standings: seq<Standing>, rule: Rule) {
    var s := Standings(out);
    InOrder(s, rule) && multiset(s) == multiset(standings) && forall i :: 0 <= i < |out| ==> RankedAt(out[i], s, i, rule)
  }

  method RankPhase1(standings: seq<Standing>, rule: Rule) returns (out: seq<Ranked>)
    requires Distinct(standings)
    ensures IsRanking(out, standings, rule)
  {
    var sorted := Sorted(standings, rule);
    out := [];
    for i := 0 to |sorted|
      invariant |out| == i && forall k :: 0 <= k < i ==> RankedAt(out[k], sorted, k, rule)
    {
      var why := ByValue;
      if i > 0 {
        why := Decide(sorted[i - 1], sorted[i], rule).1;
        DecideReason(sorted[i - 1], sorted[i], rule);
      }
      out := out + [Ranked(sorted[i], i + 1, why)];
    }
    assert Standings(out) == sorted;
  }

  lemma SameMembersDistinct(s: seq<Standing>, t: seq<Standing>)
    requires Distinct(s) && multiset(s) == multiset(t)
    ensures Distinct(t)
  {
    forall i, j | 0 <= i < j < |t|
      ensures t[i].id != t[j].id
    {
      if t[i].id == t[j].id {
        assert t[i] in multiset(s) && t[j] in multiset(s);
        var k :| 0 <= k < |s| && s[k] == t[i];
        var l :| 0 <= l < |s| && s[l] == t[j];
        assert k == l;
        TwiceIn(t, i, j);
        OnceIn(s, k);
      }
    }
  }

  lemma TwiceIn(t: seq<Standing>, i: nat, j: nat)
    requires i < j < |t| && t[i] == t[j]
    ensures multiset(t)[t[i]] >= 2
  {
    assert t == t[..i] + [t[i]] + t[i + 1..j] + [t[j]] + t[j + 1..];
  }

  lemma OnceIn(s: seq<Standing>, k: nat)
    requires Distinct(s) && k < |s|
    ensures multiset(s)[s[k]] == 1
  {
    assert s == s[..k] + [s[k]] + s[k + 1..];
    assert s[k] !in s[..k] && s[k] !in s[k + 1..];
  }

  /** Whatever order the standings come in, the ranking is the same, down to what decided it. */
  lemma OrderDoesNotMatter(a: seq<Ranked>, s: seq<Standing>, b: seq<Ranked>, t: seq<Standing>, rule: Rule)
    requires Distinct(s) && multiset(s) == multiset(t) && IsRanking(a, s, rule) && IsRanking(b, t, rule)
    ensures a == b
  {
    SameMembersDistinct(s, Standings(a));
    SameMembersDistinct(s, Standings(b));
    OneRanking(Standings(a), Standings(b), rule);
    forall i | 0 <= i < |a|
      ensures a[i] == b[i]
    {
      var all := Standings(a);
      assert RankedAt(a[i], all, i, rule) && RankedAt(b[i], all, i, rule);
      if i > 0 { OneReason(a[i].why, b[i].why, all[i - 1], all[i], rule); }
    }
  }

  lemma OneReason(x: DecidedBy, y: DecidedBy, a: Standing, b: Standing, rule: Rule)
    requires FirstReason(x, a, b, rule) && FirstReason(y, a, b, rule)
    ensures x == y
  {
    if a.value == b.value && exists k :: IsFirst(k, a, b, rule) {
      var k :| IsFirst(k, a, b, rule) && x == Name(rule.steps[k]);
      var l :| IsFirst(l, a, b, rule) && y == Name(rule.steps[l]);
      assert k == l;
    }
  }

  // ---- pairing ----

  datatype Pair<T> = Pair(number: nat, stronger: T, weaker: T)

  datatype Pairing<T> = Paired(pairs: seq<Pair<T>>) | OddOrNone(n: nat)

  method MirrorPairing<T>(bestFirst: seq<T>) returns (r: Pairing<T>)
    ensures r.OddOrNone? <==> bestFirst == [] || |bestFirst| % 2 != 0
    ensures r.Paired? ==> IsMirror(r.pairs, bestFirst)
  {
    var n := |bestFirst|;
    if n == 0 || n % 2 != 0 { return OddOrNone(n); }
    var pairs: seq<Pair<T>> := [];
    for k := 0 to n / 2
      invariant |pairs| == k
      invariant forall i :: 0 <= i < k ==> pairs[i] == Pair(i + 1, bestFirst[i], bestFirst[n - 1 - i])
    {
      pairs := pairs + [Pair(k + 1, bestFirst[k], bestFirst[n - 1 - k])];
    }
    r := Paired(pairs);
  }

  predicate IsMirror<T(==)>(pairs: seq<Pair<T>>, bestFirst: seq<T>) {
    && |bestFirst| == 2 * |pairs|
    && forall i :: 0 <= i < |pairs| ==> pairs[i] == Pair(i + 1, bestFirst[i], bestFirst[|bestFirst| - 1 - i])
  }

  /** The rank, from 1, of the team on one side of pair k. */
  function RankIn(n: nat, k: nat, strong: bool): int { if strong then k + 1 else n - k }

  ghost predicate Holds<T>(pairs: seq<Pair<T>>, bestFirst: seq<T>, rank: int, k: int, strong: bool) {
    && 0 <= k && 1 <= rank <= |bestFirst| && k < |pairs| && RankIn(|bestFirst|, k, strong) == rank
    && (if strong then pairs[k].stronger else pairs[k].weaker) == bestFirst[rank - 1]
  }

  /** Every rank from 1 to N is on exactly one side of exactly one pair. */
  lemma EveryRankOnce<T>(pairs: seq<Pair<T>>, bestFirst: seq<T>, rank: nat)
    requires IsMirror(pairs, bestFirst) && 1 <= rank <= |bestFirst|
    ensures exists k, strong :: Holds(pairs, bestFirst, rank, k, strong)
    ensures forall k, strong, l, side :: Holds(pairs, bestFirst, rank, k, strong) && Holds(pairs, bestFirst, rank, l, side)
                                         ==> k == l && strong == side
  {
    var n := |bestFirst|;
    if rank <= n / 2 {
      assert pairs[rank - 1] == Pair(rank, bestFirst[rank - 1], bestFirst[n - rank]);
      assert Holds(pairs, bestFirst, rank, rank - 1, true);
    } else {
      assert pairs[n - rank] == Pair(n - rank + 1, bestFirst[n - rank], bestFirst[rank - 1]);
      assert Holds(pairs, bestFirst, rank, n - rank, false);
    }
  }

  /** The two ranks of a pair add up to N + 1, and the first is the better one. */
  lemma PairsAreMirrored<T>(pairs: seq<Pair<T>>, bestFirst: seq<T>, k: nat)
    requires IsMirror(pairs, bestFirst) && k < |pairs|
    ensures exists r, q :: Holds(pairs, bestFirst, r, k, true) && Holds(pairs, bestFirst, q, k, false)
                           && r + q == |bestFirst| + 1 && r < q
  {
    var n := |bestFirst|;
    assert pairs[k] == Pair(k + 1, bestFirst[k], bestFirst[n - 1 - k]);
    assert Holds(pairs, bestFirst, k + 1, k, true) && Holds(pairs, bestFirst, n - k, k, false);
  }
}

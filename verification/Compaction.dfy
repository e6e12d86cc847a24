/** Dropping records that newer ones replace: what is kept, why replaying the rest means the same, and the
    two programs that do it, one on the log file and one on the database table. */
module Compaction {
  import opened Numeric
  import W = WriteAheadLog

  /** How many of the newest records with one key are worth keeping. */
  datatype Rule<!R> = Rule(latest: int, key: R -> string)

  datatype Policy<!R> = Policy(kind: R -> string, rules: map<string, Rule<R>>)

  /** A kind and a key within it: the records that supersede each other. */
  type Group = (string, string)

  predicate Ruled<R>(r: R, p: Policy<R>) { p.kind(r) in p.rules && p.rules[p.kind(r)].latest > 0 }

  function GroupOf<R>(r: R, p: Policy<R>): Group
    requires Ruled(r, p)
  {
    (p.kind(r), p.rules[p.kind(r)].key(r))
  }

  predicate Member<R>(r: R, g: Group, p: Policy<R>) { Ruled(r, p) && GroupOf(r, p) == g }

  predicate IsGroup<R>(g: Group, p: Policy<R>) { g.0 in p.rules && p.rules[g.0].latest > 0 }

  // ---- what is kept ----

  /** A group's records among the first n, oldest first. */
  ghost function OfFirst<R>(log: seq<R>, n: nat, g: Group, p: Policy<R>): seq<R>
    requires n <= |log|
  {
    if n == 0 then []
    else if Member(log[n - 1], g, p) then OfFirst(log, n - 1, g, p) + [log[n - 1]]
    else OfFirst(log, n - 1, g, p)
  }

  ghost function Of<R>(log: seq<R>, g: Group, p: Policy<R>): seq<R> { OfFirst(log, |log|, g, p) }

  /** The records of kinds without a rule. */
  ghost function UnruledFirst<R>(log: seq<R>, n: nat, p: Policy<R>): seq<R>
    requires n <= |log|
  {
    if n == 0 then []
    else if Ruled(log[n - 1], p) then UnruledFirst(log, n - 1, p)
    else UnruledFirst(log, n - 1, p) + [log[n - 1]]
  }

  ghost function Unruled<R>(log: seq<R>, p: Policy<R>): seq<R> { UnruledFirst(log, |log|, p) }

  ghost function Last<T>(s: seq<T>, n: int): seq<T> { if n >= |s| then s else if n <= 0 then [] else s[|s| - n..] }

  /** A record stays if no rule names it; if it is the first of a key of which one is kept; or if fewer
      than the kept number follow it. */
  ghost predicate Keeps<R>(log: seq<R>, i: nat, p: Policy<R>)
    requires i < |log|
  {
    Ruled(log[i], p) ==>
      var g := GroupOf(log[i], p);
      var older := |OfFirst(log, i, g, p)|;
      if p.rules[g.0].latest == 1 then older == 0
      else |Of(log, g, p)| - older <= p.rules[g.0].latest
  }

  /** What is written where a record stays: the newest of its key, if only one is kept. */
  ghost function Content<R>(log: seq<R>, i: nat, p: Policy<R>): R
    requires i < |log|
  {
    if Ruled(log[i], p) && p.rules[p.kind(log[i])].latest == 1 && Of(log, GroupOf(log[i], p), p) != []
    then var all := Of(log, GroupOf(log[i], p), p); all[|all| - 1]
    else log[i]
  }

  ghost function KeptUpTo<R>(log: seq<R>, n: nat, p: Policy<R>): seq<R>
    requires n <= |log|
  {
    if n == 0 then []
    else if Keeps(log, n - 1, p) then KeptUpTo(log, n - 1, p) + [Content(log, n - 1, p)]
    else KeptUpTo(log, n - 1, p)
  }

  ghost function Compacted<R>(log: seq<R>, p: Policy<R>): seq<R> { KeptUpTo(log, |log|, p) }

  // ---- groups, record by record ----

  lemma {:induction false} OfLonger<R>(log: seq<R>, r: R, n: nat, g: Group, p: Policy<R>)
    requires n <= |log|
    ensures OfFirst(log + [r], n, g, p) == OfFirst(log, n, g, p)
  {
    if n > 0 { OfLonger(log, r, n - 1, g, p); }
  }

  lemma OfStep<R>(log: seq<R>, r: R, g: Group, p: Policy<R>)
    ensures Of(log + [r], g, p) == if Member(r, g, p) then Of(log, g, p) + [r] else Of(log, g, p)
  {
    OfLonger(log, r, |log|, g, p);
  }

  lemma {:induction false} UnruledLonger<R>(log: seq<R>, r: R, n: nat, p: Policy<R>)
    requires n <= |log|
    ensures UnruledFirst(log + [r], n, p) == UnruledFirst(log, n, p)
  {
    if n > 0 { UnruledLonger(log, r, n - 1, p); }
  }

  lemma UnruledStep<R>(log: seq<R>, r: R, p: Policy<R>)
    ensures Unruled(log + [r], p) == if Ruled(r, p) then Unruled(log, p) else Unruled(log, p) + [r]
  {
    UnruledLonger(log, r, |log|, p);
  }

  lemma {:induction false} OfPrefix<R>(log: seq<R>, m: nat, n: nat, g: Group, p: Policy<R>)
    requires m <= n <= |log|
    ensures OfFirst(log, m, g, p) <= OfFirst(log, n, g, p)
    decreases n - m
  {
    if m < n { OfPrefix(log, m, n - 1, g, p); }
  }

  lemma {:induction false} OfMembers<R>(log: seq<R>, n: nat, g: Group, p: Policy<R>)
    requires n <= |log|
    ensures forall r :: r in OfFirst(log, n, g, p) ==> Member(r, g, p)
  {
    if n > 0 { OfMembers(log, n - 1, g, p); }
  }

  /** The members in the front part of a log, after compaction. */
  ghost function KeptOf<R>(all: seq<R>, front: seq<R>, latest: int): seq<R> {
    if latest == 1 then (if front == [] || all == [] then [] else [all[|all| - 1]])
    else if |all| <= latest then front
    else if 0 <= |all| - latest <= |front| then front[|all| - latest..]
    else []
  }

  lemma ContentMember<R>(log: seq<R>, i: nat, g: Group, p: Policy<R>)
    requires i < |log|
    ensures Member(Content(log, i, p), g, p) <==> Member(log[i], g, p)
    ensures Ruled(Content(log, i, p), p) <==> Ruled(log[i], p)
    ensures !Ruled(log[i], p) ==> Content(log, i, p) == log[i]
  {
    if Ruled(log[i], p) {
      var all := Of(log, GroupOf(log[i], p), p);
      OfMembers(log, |log|, GroupOf(log[i], p), p);
      if all != [] { assert all[|all| - 1] in all; }
    }
  }

  lemma KeptStep<R>(log: seq<R>, i: nat, g: Group, p: Policy<R>)
    requires i < |log| && IsGroup(g, p)
    ensures Of(KeptUpTo(log, i + 1, p), g, p)
              == if Member(log[i], g, p) && Keeps(log, i, p) then Of(KeptUpTo(log, i, p), g, p) + [Content(log, i, p)]
                 else Of(KeptUpTo(log, i, p), g, p)
  {
    ContentMember(log, i, g, p);
    OfStep(KeptUpTo(log, i, p), Content(log, i, p), g, p);
  }

  lemma KeptJoin<R>(all: seq<R>, front: seq<R>, r: R, latest: int, kept: seq<R>, more: seq<R>)
    requires latest > 0 && front + [r] <= all && kept == KeptOf(all, front, latest)
    requires more == if latest == 1 then (if front == [] then [all[|all| - 1]] else [])
                     else if |front| >= |all| - latest then [r] else []
    ensures kept + more == KeptOf(all, front + [r], latest)
  {
  }

  lemma KeptMembersStep<R>(log: seq<R>, i: nat, g: Group, p: Policy<R>)
    requires i < |log| && IsGroup(g, p)
    requires Of(KeptUpTo(log, i, p), g, p) == KeptOf(Of(log, g, p), OfFirst(log, i, g, p), p.rules[g.0].latest)
    ensures Of(KeptUpTo(log, i + 1, p), g, p) == KeptOf(Of(log, g, p), OfFirst(log, i + 1, g, p), p.rules[g.0].latest)
  {
    KeptStep(log, i, g, p);
    if Member(log[i], g, p) {
      OfPrefix(log, i + 1, |log|, g, p);
      RuleApplied(log, i, g, p);
      KeptJoin(Of(log, g, p), OfFirst(log, i, g, p), log[i], p.rules[g.0].latest, Of(KeptUpTo(log, i, p), g, p),
               if Keeps(log, i, p) then [Content(log, i, p)] else []);
    }
  }

  lemma {:induction false} KeptMembers<R>(log: seq<R>, n: nat, g: Group, p: Policy<R>)
    requires n <= |log| && IsGroup(g, p)
    ensures Of(KeptUpTo(log, n, p), g, p) == KeptOf(Of(log, g, p), OfFirst(log, n, g, p), p.rules[g.0].latest)
  {
    if n > 0 {
      KeptMembers(log, n - 1, g, p);
      KeptMembersStep(log, n - 1, g, p);
    }
  }

  /** Of every group exactly the newest survive, as many as the rule says, in their order. */
  lemma NewestSurvive<R>(log: seq<R>, g: Group, p: Policy<R>)
    requires IsGroup(g, p)
    ensures Of(Compacted(log, p), g, p) == Last(Of(log, g, p), p.rules[g.0].latest)
  {
    KeptMembers(log, |log|, g, p);
  }

  lemma {:induction false} KeptUnruled<R>(log: seq<R>, n: nat, p: Policy<R>)
    requires n <= |log|
    ensures Unruled(KeptUpTo(log, n, p), p) == UnruledFirst(log, n, p)
  {
    if n > 0 {
      var i := n - 1;
      KeptUnruled(log, i, p);
      ContentMember(log, i, ("", ""), p);
      UnruledStep(KeptUpTo(log, i, p), Content(log, i, p), p);
    }
  }

  /** Every record of a kind without a rule survives, in order. */
  lemma UnruledSurvive<R>(log: seq<R>, p: Policy<R>)
    ensures Unruled(Compacted(log, p), p) == Unruled(log, p)
  {
    KeptUnruled(log, |log|, p);
  }

  // ---- positions, for the programs that compute this ----

  /** The positions of a group's records among the first n, oldest first. */
  ghost function Indices<R>(log: seq<R>, n: nat, g: Group, p: Policy<R>): seq<nat>
    requires n <= |log|
  {
    if n == 0 then []
    else if Member(log[n - 1], g, p) then Indices(log, n - 1, g, p) + [n - 1]
    else Indices(log, n - 1, g, p)
  }

  /** The k-th position holds the group's k-th record. */
  lemma {:induction false} IndexFacts<R>(log: seq<R>, n: nat, g: Group, p: Policy<R>)
    requires n <= |log|
    ensures |Indices(log, n, g, p)| == |OfFirst(log, n, g, p)|
    ensures forall k :: 0 <= k < |Indices(log, n, g, p)| ==> AtIndex(log, n, g, p, k)
    ensures forall i :: 0 <= i < n && Member(log[i], g, p) ==>
              |OfFirst(log, i, g, p)| < |Indices(log, n, g, p)| && Indices(log, n, g, p)[|OfFirst(log, i, g, p)|] == i
  {
    if n > 0 {
      IndexFacts(log, n - 1, g, p);
      forall k | 0 <= k < |Indices(log, n, g, p)|
        ensures AtIndex(log, n, g, p, k)
      {
        assert k < |Indices(log, n - 1, g, p)| ==> AtIndex(log, n - 1, g, p, k);
      }
    }
  }

  ghost predicate AtIndex<R>(log: seq<R>, n: nat, g: Group, p: Policy<R>, k: nat)
    requires n <= |log|
  {
    && k < |Indices(log, n, g, p)| && k < |OfFirst(log, n, g, p)|
    && (var i := Indices(log, n, g, p)[k];
        i < n && Member(log[i], g, p) && |OfFirst(log, i, g, p)| == k && log[i] == OfFirst(log, n, g, p)[k])
  }

  /** What the rule does to the k-th of a group's records. */
  lemma RuleApplied<R>(log: seq<R>, i: nat, g: Group, p: Policy<R>)
    requires i < |log| && Member(log[i], g, p)
    ensures var all, latest, k := Of(log, g, p), p.rules[g.0].latest, |OfFirst(log, i, g, p)|;
            && k < |all|
            && (Keeps(log, i, p) <==> if latest == 1 then k == 0 else k >= |all| - latest)
            && Content(log, i, p) == (if latest == 1 then all[|all| - 1] else log[i])
            && all[k] == log[i]
  {
    OfPrefix(log, i + 1, |log|, g, p);
  }

  // ---- compacting again changes nothing ----

  ghost predicate Tidy<R>(log: seq<R>, p: Policy<R>) {
    forall g :: IsGroup(g, p) ==> |Of(log, g, p)| <= p.rules[g.0].latest
  }

  lemma {:induction false} TidyKept<R>(log: seq<R>, n: nat, p: Policy<R>)
    requires n <= |log| && Tidy(log, p)
    ensures KeptUpTo(log, n, p) == log[..n]
  {
    if n > 0 {
      var i := n - 1;
      TidyKept(log, i, p);
      if Ruled(log[i], p) {
        var g := GroupOf(log[i], p);
        assert IsGroup(g, p);
        OfPrefix(log, n, |log|, g, p);
      }
      assert log[..n] == log[..i] + [log[i]];
    }
  }

  lemma CompactingTwice<R>(log: seq<R>, p: Policy<R>)
    ensures Compacted(Compacted(log, p), p) == Compacted(log, p)
  {
    var once := Compacted(log, p);
    forall g | IsGroup(g, p)
      ensures |Of(once, g, p)| <= p.rules[g.0].latest
    {
      NewestSurvive(log, g, p);
    }
    TidyKept(once, |once|, p);
    assert once[..|once|] == once;
  }

  /** If nothing goes, every group is within its bound already. */
  lemma AllKept<R>(log: seq<R>, p: Policy<R>)
    requires forall k :: 0 <= k < |log| ==> Keeps(log, k, p)
    ensures Compacted(log, p) == log
    ensures forall k :: 0 <= k < |log| ==> Content(log, k, p) == log[k]
  {
    forall g | IsGroup(g, p)
      ensures |Of(log, g, p)| <= p.rules[g.0].latest
    {
      IndexFacts(log, |log|, g, p);
      var latest, all := p.rules[g.0].latest, Of(log, g, p);
      if |all| > latest {
        var k := if latest == 1 then 1 else 0;
        assert AtIndex(log, |log|, g, p, k);
        RuleApplied(log, Indices(log, |log|, g, p)[k], g, p);
      }
    }
    TidyKept(log, |log|, p);
    forall k | 0 <= k < |log|
      ensures Content(log, k, p) == log[k]
    {
      if Ruled(log[k], p) {
        assert IsGroup(GroupOf(log[k], p), p);
        RuleApplied(log, k, GroupOf(log[k], p), p);
      }
    }
  }

  // ---- what must exist before other records still does ----

  /** How many records of unruled kinds come before the group's first record. */
  ghost function WaitingFirst<R>(log: seq<R>, n: nat, g: Group, p: Policy<R>): nat
    requires n <= |log|
  {
    if n == 0 then 0
    else if OfFirst(log, n, g, p) == [] then |UnruledFirst(log, n, p)|
    else WaitingFirst(log, n - 1, g, p)
  }

  ghost function Waiting<R>(log: seq<R>, g: Group, p: Policy<R>): nat { WaitingFirst(log, |log|, g, p) }

  lemma {:induction false} WaitingLonger<R>(log: seq<R>, r: R, n: nat, g: Group, p: Policy<R>)
    requires n <= |log|
    ensures WaitingFirst(log + [r], n, g, p) == WaitingFirst(log, n, g, p)
  {
    if n > 0 {
      WaitingLonger(log, r, n - 1, g, p);
      OfLonger(log, r, n, g, p);
      UnruledLonger(log, r, n, p);
    }
  }

  lemma {:induction false} WaitingKept<R>(log: seq<R>, n: nat, g: Group, p: Policy<R>)
    requires n <= |log| && IsGroup(g, p) && p.rules[g.0].latest == 1
    ensures Waiting(KeptUpTo(log, n, p), g, p) == WaitingFirst(log, n, g, p)
  {
    if n > 0 {
      var i := n - 1;
      WaitingKept(log, i, g, p);
      KeptMembers(log, n, g, p);
      KeptUnruled(log, n, p);
      OfPrefix(log, n, |log|, g, p);
      if Keeps(log, i, p) {
        WaitingLonger(KeptUpTo(log, i, p), Content(log, i, p), |KeptUpTo(log, i, p)|, g, p);
      } else {
        RuleApplied(log, i, GroupOf(log[i], p), p);
        KeptMembers(log, i, g, p);
      }
    }
  }

  /** A key of which one record is kept is defined before exactly the same records of the unruled kinds
      as before: an account still exists before its first trade. */
  lemma DefinedBefore<R>(log: seq<R>, g: Group, p: Policy<R>)
    requires IsGroup(g, p) && p.rules[g.0].latest == 1
    ensures Waiting(Compacted(log, p), g, p) == Waiting(log, g, p)
  {
    WaitingKept(log, |log|, g, p);
  }

  // ---- what a restore makes of the log ----

  /** Records that void what came before (a reset of the event) are of kinds without a rule. */
  ghost predicate WipesFit<R(!new)>(wipes: (R, Group) -> bool, p: Policy<R>) {
    forall r, g :: wipes(r, g) ==> !Ruled(r, p)
  }

  /** The restore's last-writer-wins fold over the first n records. */
  ghost function ReplayedFirst<R>(log: seq<R>, n: nat, p: Policy<R>, wipes: (R, Group) -> bool): map<Group, R>
    requires n <= |log|
  {
    if n == 0 then map[]
    else
      var r := log[n - 1];
      var past := ReplayedFirst(log, n - 1, p, wipes);
      var left := map g | g in past && !wipes(r, g) :: past[g];
      if Ruled(r, p) then left[GroupOf(r, p) := r] else left
  }

  ghost function Replayed<R>(log: seq<R>, p: Policy<R>, wipes: (R, Group) -> bool): map<Group, R> {
    ReplayedFirst(log, |log|, p, wipes)
  }

  /** The group's records among the first n that no later one of them voids. */
  ghost function ValidFirst<R>(log: seq<R>, n: nat, g: Group, p: Policy<R>, wipes: (R, Group) -> bool): seq<R>
    requires n <= |log|
  {
    if n == 0 then []
    else
      var r := log[n - 1];
      var past := ValidFirst(log, n - 1, g, p, wipes);
      if Member(r, g, p) then past + [r] else if wipes(r, g) then [] else past
  }

  ghost function Valid<R>(log: seq<R>, g: Group, p: Policy<R>, wipes: (R, Group) -> bool): seq<R> {
    ValidFirst(log, |log|, g, p, wipes)
  }

  ghost function Lookup<R>(m: map<Group, R>, g: Group): seq<R> { if g in m then [m[g]] else [] }

  lemma {:induction false} ReplayedIsNewest<R(!new)>(log: seq<R>, n: nat, g: Group, p: Policy<R>, wipes: (R, Group) -> bool)
    requires n <= |log| && WipesFit(wipes, p)
    ensures Lookup(ReplayedFirst(log, n, p, wipes), g) == Last(ValidFirst(log, n, g, p, wipes), 1)
  {
    if n > 0 { ReplayedIsNewest(log, n - 1, g, p, wipes); }
  }

  lemma {:induction false} ValidLonger<R>(log: seq<R>, r: R, n: nat, g: Group, p: Policy<R>, wipes: (R, Group) -> bool)
    requires n <= |log|
    ensures ValidFirst(log + [r], n, g, p, wipes) == ValidFirst(log, n, g, p, wipes)
  {
    if n > 0 { ValidLonger(log, r, n - 1, g, p, wipes); }
  }

  lemma ValidStep<R>(log: seq<R>, r: R, g: Group, p: Policy<R>, wipes: (R, Group) -> bool)
    ensures Valid(log + [r], g, p, wipes)
              == if Member(r, g, p) then Valid(log, g, p, wipes) + [r]
                 else if wipes(r, g) then [] else Valid(log, g, p, wipes)
  {
    ValidLonger(log, r, |log|, g, p, wipes);
  }

  lemma {:induction false} ValidFewer<R>(log: seq<R>, n: nat, g: Group, p: Policy<R>, wipes: (R, Group) -> bool)
    requires n <= |log|
    ensures |ValidFirst(log, n, g, p, wipes)| <= |OfFirst(log, n, g, p)|
  {
    if n > 0 { ValidFewer(log, n - 1, g, p, wipes); }
  }

  /** One compaction step, as the restore sees it. */
  lemma ValidKeptStep<R(!new)>(log: seq<R>, i: nat, g: Group, p: Policy<R>, wipes: (R, Group) -> bool)
    requires i < |log| && WipesFit(wipes, p)
    ensures var before := Valid(KeptUpTo(log, i, p), g, p, wipes);
            Valid(KeptUpTo(log, i + 1, p), g, p, wipes)
              == if Member(log[i], g, p) then (if Keeps(log, i, p) then before + [Content(log, i, p)] else before)
                 else if wipes(log[i], g) then [] else before
  {
    ContentMember(log, i, g, p);
    assert Ruled(log[i], p) ==> !wipes(log[i], g) && !wipes(Content(log, i, p), g);
    ValidStep(KeptUpTo(log, i, p), Content(log, i, p), g, p, wipes);
  }

  // -- kinds of which several are kept

  lemma KeepsIff<R>(log: seq<R>, i: nat, g: Group, p: Policy<R>)
    requires i < |log| && Member(log[i], g, p) && p.rules[g.0].latest != 1
    ensures Keeps(log, i, p) <==> |OfFirst(log, i, g, p)| - Max(0, |Of(log, g, p)| - p.rules[g.0].latest) >= 0
    ensures Content(log, i, p) == log[i]
  {
  }

  lemma HistoryMember<R(!new)>(log: seq<R>, i: nat, g: Group, p: Policy<R>, wipes: (R, Group) -> bool)
    requires i < |log| && IsGroup(g, p) && p.rules[g.0].latest != 1 && WipesFit(wipes, p) && Member(log[i], g, p)
    requires HistoryAt(log, i, g, p, wipes)
    ensures HistoryAt(log, i + 1, g, p, wipes)
  {
    var more := |OfFirst(log, i, g, p)| - Max(0, |Of(log, g, p)| - p.rules[g.0].latest);
    KeepsIff(log, i, g, p);
    ValidKeptStep(log, i, g, p, wipes);
    HistoryJoin(Valid(KeptUpTo(log, i, p), g, p, wipes), Valid(KeptUpTo(log, i + 1, p), g, p, wipes),
                ValidFirst(log, i, g, p, wipes), ValidFirst(log, i + 1, g, p, wipes), log[i], more);
  }

  lemma HistoryJoin<R>(kept: seq<R>, kept': seq<R>, valid: seq<R>, valid': seq<R>, r: R, more: int)
    requires kept == Last(valid, more) && valid' == valid + [r] && kept' == if more >= 0 then kept + [r] else kept
    ensures kept' == Last(valid', more + 1)
  {
  }

  lemma HistoryOther<R(!new)>(log: seq<R>, i: nat, g: Group, p: Policy<R>, wipes: (R, Group) -> bool)
    requires i < |log| && IsGroup(g, p) && p.rules[g.0].latest != 1 && WipesFit(wipes, p) && !Member(log[i], g, p)
    requires HistoryAt(log, i, g, p, wipes)
    ensures HistoryAt(log, i + 1, g, p, wipes)
  {
    ValidKeptStep(log, i, g, p, wipes);
  }

  ghost predicate HistoryAt<R>(log: seq<R>, n: nat, g: Group, p: Policy<R>, wipes: (R, Group) -> bool)
    requires n <= |log| && IsGroup(g, p)
  {
    var skipped := Max(0, |Of(log, g, p)| - p.rules[g.0].latest);
    Valid(KeptUpTo(log, n, p), g, p, wipes) == Last(ValidFirst(log, n, g, p, wipes), |OfFirst(log, n, g, p)| - skipped)
  }

  lemma HistoryNone<R>(log: seq<R>, g: Group, p: Policy<R>, wipes: (R, Group) -> bool)
    requires IsGroup(g, p)
    ensures HistoryAt(log, 0, g, p, wipes)
  {
    assert KeptUpTo(log, 0, p) == [] && ValidFirst(log, 0, g, p, wipes) == [];
  }

  lemma {:induction false} HistoryUpTo<R(!new)>(log: seq<R>, n: nat, g: Group, p: Policy<R>, wipes: (R, Group) -> bool)
    requires n <= |log| && IsGroup(g, p) && p.rules[g.0].latest != 1 && WipesFit(wipes, p)
    ensures HistoryAt(log, n, g, p, wipes)
  {
    if n == 0 {
      HistoryNone(log, g, p, wipes);
    } else {
      HistoryUpTo(log, n - 1, g, p, wipes);
      if Member(log[n - 1], g, p) {
        HistoryMember(log, n - 1, g, p, wipes);
      } else {
        HistoryOther(log, n - 1, g, p, wipes);
      }
    }
  }

  /** For a kind of which several records are kept, compaction never changes what a restore has of it:
      the newest still-valid records, resets or not. */
  lemma HistoryKept<R(!new)>(log: seq<R>, g: Group, p: Policy<R>, wipes: (R, Group) -> bool)
    requires IsGroup(g, p) && p.rules[g.0].latest != 1 && WipesFit(wipes, p)
    ensures Valid(Compacted(log, p), g, p, wipes) == Last(Valid(log, g, p, wipes), p.rules[g.0].latest)
  {
    HistoryUpTo(log, |log|, g, p, wipes);
    ValidFewer(log, |log|, g, p, wipes);
  }

  // -- kinds of which one is kept

  /** Among the first n records one voids an earlier one of the group. */
  ghost predicate VoidedFirst<R>(log: seq<R>, n: nat, g: Group, p: Policy<R>, wipes: (R, Group) -> bool)
    requires n <= |log|
  {
    n > 0 && (VoidedFirst(log, n - 1, g, p, wipes) || (wipes(log[n - 1], g) && OfFirst(log, n - 1, g, p) != []))
  }

  lemma FirstStays<R>(log: seq<R>, i: nat, g: Group, p: Policy<R>)
    requires i < |log| && Member(log[i], g, p) && p.rules[g.0].latest == 1
    ensures Keeps(log, i, p) <==> OfFirst(log, i, g, p) == []
    ensures [Content(log, i, p)] == Last(Of(log, g, p), 1)
  {
    OfPrefix(log, i + 1, |log|, g, p);
  }

  lemma {:induction false} NewestUpTo<R(!new)>(log: seq<R>, n: nat, g: Group, p: Policy<R>, wipes: (R, Group) -> bool)
    requires n <= |log| && IsGroup(g, p) && p.rules[g.0].latest == 1 && WipesFit(wipes, p)
    ensures Valid(KeptUpTo(log, n, p), g, p, wipes)
              == if OfFirst(log, n, g, p) == [] || VoidedFirst(log, n, g, p, wipes) then []
                 else Last(Of(log, g, p), 1)
  {
    if n > 0 {
      var i := n - 1;
      NewestUpTo(log, i, g, p, wipes);
      ValidKeptStep(log, i, g, p, wipes);
      if Member(log[i], g, p) {
        FirstStays(log, i, g, p);
        VoidedHas(log, i, g, p, wipes);
        assert !wipes(log[i], g);
      }
    }
  }

  /** The last reset that voids the group lies between two of its records. */
  ghost predicate Split<R>(log: seq<R>, g: Group, p: Policy<R>, wipes: (R, Group) -> bool) {
    exists w :: LastWipe(log, w, g, wipes) && HasMember(log, 0, w, g, p) && HasMember(log, w, |log|, g, p)
  }

  ghost predicate LastWipe<R>(log: seq<R>, w: int, g: Group, wipes: (R, Group) -> bool) {
    0 <= w < |log| && wipes(log[w], g) && forall k :: w < k < |log| ==> !wipes(log[k], g)
  }

  ghost predicate HasMember<R>(log: seq<R>, from: int, to: int, g: Group, p: Policy<R>) {
    0 <= from <= to <= |log| && exists i :: from <= i < to && Member(log[i], g, p)
  }

  lemma {:induction false} OfSome<R>(log: seq<R>, n: nat, g: Group, p: Policy<R>)
    requires n <= |log|
    ensures OfFirst(log, n, g, p) != [] <==> HasMember(log, 0, n, g, p)
  {
    if n > 0 { OfSome(log, n - 1, g, p); }
  }

  /** With w the last wipe, the valid records are the members after it. */
  lemma {:induction false} AfterWipe<R(!new)>(log: seq<R>, n: nat, w: nat, g: Group, p: Policy<R>, wipes: (R, Group) -> bool)
    requires WipesFit(wipes, p) && w < n <= |log| && LastWipe(log, w, g, wipes)
    ensures ValidFirst(log, n, g, p, wipes) != [] <==> HasMember(log, w, n, g, p)
    ensures VoidedFirst(log, n, g, p, wipes) <==> HasMember(log, 0, w, g, p)
  {
    if w == n - 1 {
      OfSome(log, w, g, p);
      VoidedHas(log, w, g, p, wipes);
      assert !Member(log[w], g, p);
    } else {
      AfterWipe(log, n - 1, w, g, p, wipes);
    }
  }

  lemma {:induction false} VoidedHas<R>(log: seq<R>, n: nat, g: Group, p: Policy<R>, wipes: (R, Group) -> bool)
    requires n <= |log|
    ensures VoidedFirst(log, n, g, p, wipes) ==> OfFirst(log, n, g, p) != []
  {
    if n > 0 { VoidedHas(log, n - 1, g, p, wipes); }
  }

  lemma {:induction false} NoWipe<R>(log: seq<R>, n: nat, g: Group, p: Policy<R>, wipes: (R, Group) -> bool)
    requires n <= |log| && forall k :: 0 <= k < |log| ==> !wipes(log[k], g)
    ensures !VoidedFirst(log, n, g, p, wipes)
  {
    if n > 0 { NoWipe(log, n - 1, g, p, wipes); }
  }

  lemma {:induction false} FindLastWipe<R>(log: seq<R>, n: nat, g: Group, wipes: (R, Group) -> bool) returns (w: nat)
    requires n <= |log| && (exists k :: 0 <= k < n && wipes(log[k], g))
    requires forall k :: n <= k < |log| ==> !wipes(log[k], g)
    ensures LastWipe(log, w, g, wipes)
  {
    w := n - 1;
    if !wipes(log[w], g) { w := FindLastWipe(log, n - 1, g, wipes); }
  }

  lemma SplitIff<R(!new)>(log: seq<R>, g: Group, p: Policy<R>, wipes: (R, Group) -> bool)
    requires WipesFit(wipes, p)
    ensures Split(log, g, p, wipes) <==> VoidedFirst(log, |log|, g, p, wipes) && Valid(log, g, p, wipes) != []
  {
    if exists k :: 0 <= k < |log| && wipes(log[k], g) {
      var w := FindLastWipe(log, |log|, g, wipes);
      AfterWipe(log, |log|, w, g, p, wipes);
      assert forall v :: LastWipe(log, v, g, wipes) ==> v == w;
    } else {
      NoWipe(log, |log|, g, p, wipes);
    }
  }

  lemma {:induction false} NewestIsLast<R>(log: seq<R>, n: nat, g: Group, p: Policy<R>, wipes: (R, Group) -> bool)
    requires n <= |log|
    ensures var valid, all := ValidFirst(log, n, g, p, wipes), OfFirst(log, n, g, p);
            if valid != [] then all != [] && Last(valid, 1) == Last(all, 1)
            else all == [] || VoidedFirst(log, n, g, p, wipes)
  {
    if n > 0 { NewestIsLast(log, n - 1, g, p, wipes); }
  }

  /** The compacted log restores a last-writer-wins key to what the whole log restores it to, exactly
      when the last reset of the key does not lie between two of its records. */
  lemma MeaningKept<R(!new)>(log: seq<R>, g: Group, p: Policy<R>, wipes: (R, Group) -> bool)
    requires IsGroup(g, p) && p.rules[g.0].latest == 1 && WipesFit(wipes, p)
    ensures (Lookup(Replayed(Compacted(log, p), p, wipes), g) == Lookup(Replayed(log, p, wipes), g))
              <==> !Split(log, g, p, wipes)
  {
    ReplayedIsNewest(log, |log|, g, p, wipes);
    ReplayedIsNewest(Compacted(log, p), |Compacted(log, p)|, g, p, wipes);
    NewestUpTo(log, |log|, g, p, wipes);
    SplitIff(log, g, p, wipes);
    NewestIsLast(log, |log|, g, p, wipes);
  }

  /** Without such resets the whole restored map is the same, histories and all kept kinds included. */
  lemma EverythingKept<R(!new)>(log: seq<R>, p: Policy<R>, wipes: (R, Group) -> bool)
    requires WipesFit(wipes, p)
    requires forall g :: IsGroup(g, p) && p.rules[g.0].latest == 1 ==> !Split(log, g, p, wipes)
    ensures Replayed(Compacted(log, p), p, wipes) == Replayed(log, p, wipes)
  {
    var a, b := Replayed(Compacted(log, p), p, wipes), Replayed(log, p, wipes);
    forall g: Group
      ensures Lookup(a, g) == Lookup(b, g)
    {
      ReplayedIsNewest(log, |log|, g, p, wipes);
      ReplayedIsNewest(Compacted(log, p), |Compacted(log, p)|, g, p, wipes);
      if !IsGroup(g, p) {
        NoGroup(log, |log|, g, p, wipes);
        NoGroup(Compacted(log, p), |Compacted(log, p)|, g, p, wipes);
      } else if p.rules[g.0].latest == 1 {
        MeaningKept(log, g, p, wipes);
      } else {
        HistoryKept(log, g, p, wipes);
      }
    }
    assert forall g :: (g in a <==> g in b) && (g in a ==> a[g] == b[g]) by {
      forall g: Group
        ensures (g in a <==> g in b) && (g in a ==> a[g] == b[g])
      {
        assert Lookup(a, g) == Lookup(b, g);
      }
    }
  }

  lemma {:induction false} NoGroup<R>(log: seq<R>, n: nat, g: Group, p: Policy<R>, wipes: (R, Group) -> bool)
    requires n <= |log| && !IsGroup(g, p)
    ensures ValidFirst(log, n, g, p, wipes) == []
  {
    if n > 0 { NoGroup(log, n - 1, g, p, wipes); }
  }

  // -- only the front of a log compacted, the rest as it was

  lemma {:induction false} ReplayedLonger<R>(log: seq<R>, r: R, n: nat, p: Policy<R>, wipes: (R, Group) -> bool)
    requires n <= |log|
    ensures ReplayedFirst(log + [r], n, p, wipes) == ReplayedFirst(log, n, p, wipes)
  {
    if n > 0 { ReplayedLonger(log, r, n - 1, p, wipes); }
  }

  lemma LookupStep<R>(log: seq<R>, r: R, g: Group, p: Policy<R>, wipes: (R, Group) -> bool)
    ensures Lookup(Replayed(log + [r], p, wipes), g)
              == if Member(r, g, p) then [r] else if wipes(r, g) then [] else Lookup(Replayed(log, p, wipes), g)
  {
    ReplayedLonger(log, r, |log|, p, wipes);
  }

  /** Some record of this part is of the group or voids it. */
  ghost predicate Settles<R>(rest: seq<R>, g: Group, p: Policy<R>, wipes: (R, Group) -> bool) {
    exists i :: 0 <= i < |rest| && (Member(rest[i], g, p) || wipes(rest[i], g))
  }

  lemma SettlesStep<R>(rest: seq<R>, g: Group, p: Policy<R>, wipes: (R, Group) -> bool)
    requires rest != []
    ensures var n := |rest| - 1;
            Settles(rest, g, p, wipes) <==> Settles(rest[..n], g, p, wipes) || Member(rest[n], g, p) || wipes(rest[n], g)
  {
    var past := rest[..|rest| - 1];
    assert forall i :: 0 <= i < |past| ==> past[i] == rest[i];
  }

  /** What two logs restore a key to after the same further records is the same exactly when it was before them or
      they say anew what it is. */
  lemma {:induction false} SameRest<R>(a: seq<R>, b: seq<R>, rest: seq<R>, g: Group, p: Policy<R>, wipes: (R, Group) -> bool)
    ensures (Lookup(Replayed(a + rest, p, wipes), g) == Lookup(Replayed(b + rest, p, wipes), g))
              <==> Lookup(Replayed(a, p, wipes), g) == Lookup(Replayed(b, p, wipes), g) || Settles(rest, g, p, wipes)
  {
    if rest == [] {
      assert a + rest == a && b + rest == b;
    } else {
      var past, r := rest[..|rest| - 1], rest[|rest| - 1];
      SameRest(a, b, past, g, p, wipes);
      SettlesStep(rest, g, p, wipes);
      LookupStep(a + past, r, g, p, wipes);
      LookupStep(b + past, r, g, p, wipes);
      assert a + past + [r] == a + rest && b + past + [r] == b + rest;
    }
  }

  /** A log whose front alone is compacted restores a key to what the whole log does if and only if: more than one
      record of its kind is kept, or the last reset of the key in the front does not lie between two of its records
      there, or the rest resets or records the key again. */
  lemma FrontMeaningKept<R(!new)>(front: seq<R>, rest: seq<R>, g: Group, p: Policy<R>, wipes: (R, Group) -> bool)
    requires IsGroup(g, p) && WipesFit(wipes, p)
    ensures (Lookup(Replayed(Compacted(front, p) + rest, p, wipes), g) == Lookup(Replayed(front + rest, p, wipes), g))
              <==> p.rules[g.0].latest != 1 || !Split(front, g, p, wipes) || Settles(rest, g, p, wipes)
  {
    SameRest(Compacted(front, p), front, rest, g, p, wipes);
    if p.rules[g.0].latest == 1 {
      MeaningKept(front, g, p, wipes);
    } else {
      ReplayedIsNewest(front, |front|, g, p, wipes);
      ReplayedIsNewest(Compacted(front, p), |Compacted(front, p)|, g, p, wipes);
      HistoryKept(front, g, p, wipes);
    }
  }

  lemma {:induction false} SameHistory<R>(a: seq<R>, b: seq<R>, rest: seq<R>, g: Group, p: Policy<R>, wipes: (R, Group) -> bool, n: nat)
    requires Last(Valid(a, g, p, wipes), n) == Last(Valid(b, g, p, wipes), n)
    ensures Last(Valid(a + rest, g, p, wipes), n) == Last(Valid(b + rest, g, p, wipes), n)
  {
    if rest == [] {
      assert a + rest == a && b + rest == b;
    } else {
      var past, r := rest[..|rest| - 1], rest[|rest| - 1];
      SameHistory(a, b, past, g, p, wipes, n);
      ValidStep(a + past, r, g, p, wipes);
      ValidStep(b + past, r, g, p, wipes);
      assert a + past + [r] == a + rest && b + past + [r] == b + rest;
      LastMore(Valid(a + past, g, p, wipes), Valid(b + past, g, p, wipes), r, n);
    }
  }

  lemma LastMore<R>(a: seq<R>, b: seq<R>, r: R, n: nat)
    requires Last(a, n) == Last(b, n)
    ensures Last(a + [r], n) == Last(b + [r], n)
  {
    if n > 0 {
      assert Last(a + [r], n) == Last(Last(a, n) + [r], n);
      assert Last(b + [r], n) == Last(Last(b, n) + [r], n);
    }
  }

  /** The newest still-valid records of a kind of which several are kept are those of the whole log. */
  lemma FrontHistoryKept<R(!new)>(front: seq<R>, rest: seq<R>, g: Group, p: Policy<R>, wipes: (R, Group) -> bool)
    requires IsGroup(g, p) && p.rules[g.0].latest != 1 && WipesFit(wipes, p)
    ensures var n := p.rules[g.0].latest;
            Last(Valid(Compacted(front, p) + rest, g, p, wipes), n) == Last(Valid(front + rest, g, p, wipes), n)
  {
    HistoryKept(front, g, p, wipes);
    SameHistory(Compacted(front, p), front, rest, g, p, wipes, p.rules[g.0].latest);
  }

  // -- the log the platform can really write: the clock, a reset, the clock again

  datatype Sample = Sample(kind: string, body: int)

  function SamplePolicy(): Policy<Sample> {
    Policy((r: Sample) => r.kind, map["clock" := Rule(1, (r: Sample) => "")])
  }

  function SampleWipes(): (Sample, Group) -> bool { (r: Sample, g: Group) => r.kind == "reset" }

  function SampleLog(a: int, b: int): seq<Sample> { [Sample("clock", a), Sample("reset", 0), Sample("clock", b)] }

  lemma SampleCompacted(a: int, b: int)
    ensures Compacted(SampleLog(a, b), SamplePolicy()) == [Sample("clock", b), Sample("reset", 0)]
  {
    var p, log, g := SamplePolicy(), SampleLog(a, b), ("clock", "");
    var x, r, y := log[0], log[1], log[2];
    assert OfFirst(log, 0, g, p) == [] && OfFirst(log, 1, g, p) == [x];
    assert OfFirst(log, 2, g, p) == [x] && OfFirst(log, 3, g, p) == [x, y];
    assert KeptUpTo(log, 1, p) == [y];
    assert KeptUpTo(log, 2, p) == [y, r];
    assert KeptUpTo(log, 3, p) == [y, r];
  }

  /** Compaction moves the clock record in front of the reset, which then voids it. */
  lemma ClockLostAfterReset(a: int, b: int)
    ensures Lookup(Replayed(SampleLog(a, b), SamplePolicy(), SampleWipes()), ("clock", "")) == [Sample("clock", b)]
    ensures Lookup(Replayed(Compacted(SampleLog(a, b), SamplePolicy()), SamplePolicy(), SampleWipes()), ("clock", "")) == []
  {
    var p, wipes, g := SamplePolicy(), SampleWipes(), ("clock", "");
    var log, r, y := SampleLog(a, b), Sample("reset", 0), Sample("clock", b);
    SampleCompacted(a, b);
    ReplayedIsNewest(log, |log|, g, p, wipes);
    ReplayedIsNewest([y, r], 2, g, p, wipes);
    assert Member(log[2], g, p) && Last(Valid(log, g, p, wipes), 1) == [y];
    ValidStep([y], r, g, p, wipes);
    assert [y, r] == [y] + [r];
  }
}

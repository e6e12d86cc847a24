/** Compacting the database's event table, up to the last event the lookup tables have taken in. */
module CompactTable {
  import opened Numeric
  import opened Compaction

  datatype Row<R> = Row(seqNo: int, rec: R)

  /** Primary keys grow: rows are listed in the order of their numbers, which start at 1. */
  ghost predicate Table<R>(rows: seq<Row<R>>) {
    && (forall i :: 0 <= i < |rows| ==> rows[i].seqNo > 0)
    && (forall i, j :: 0 <= i < j < |rows| ==> rows[i].seqNo < rows[j].seqNo)
  }

  function Recs<R>(rows: seq<Row<R>>): seq<R> { seq(|rows|, i requires 0 <= i < |rows| => rows[i].rec) }

  /** Every named kind keeps at least one record, whatever its rule says. */
  function Raised<R>(p: Policy<R>): Policy<R> {
    Policy(p.kind, map k | k in p.rules :: Rule(Max(1, p.rules[k].latest), p.rules[k].key))
  }

  /** The file's compaction and the table's agree on every policy that keeps at least one of each kind. */
  lemma RaisedSame<R>(p: Policy<R>)
    requires forall k :: k in p.rules ==> p.rules[k].latest >= 1
    ensures Raised(p) == p
  {
    assert Raised(p).rules == p.rules;
  }

  /** What stays of the first n rows: each where it was, under its own number. */
  ghost function KeptRows<R>(rows: seq<Row<R>>, n: nat, p: Policy<R>): seq<Row<R>>
    requires n <= |rows|
  {
    if n == 0 then []
    else if Keeps(Recs(rows), n - 1, p)
    then KeptRows(rows, n - 1, p) + [Row(rows[n - 1].seqNo, Content(Recs(rows), n - 1, p))]
    else KeptRows(rows, n - 1, p)
  }

  /** The records that stay are those the log file would keep, and the numbers still grow. */
  lemma {:induction false} KeptRowsAreCompacted<R>(rows: seq<Row<R>>, n: nat, p: Policy<R>)
    requires n <= |rows| && Table(rows)
    ensures Recs(KeptRows(rows, n, p)) == KeptUpTo(Recs(rows), n, p)
    ensures Table(KeptRows(rows, n, p))
    ensures forall r :: r in KeptRows(rows, n, p) ==> n > 0 && r.seqNo <= rows[n - 1].seqNo
  {
    if n > 0 {
      KeptRowsAreCompacted(rows, n - 1, p);
      var kept := KeptRows(rows, n - 1, p);
      if Keeps(Recs(rows), n - 1, p) {
        var row := Row(rows[n - 1].seqNo, Content(Recs(rows), n - 1, p));
        assert Recs(kept + [row]) == Recs(kept) + [row.rec];
        assert forall i :: 0 <= i < |kept| ==> kept[i] in kept;
      }
    }
  }

  // ---- the groups ----

  ghost predicate GroupListed<R>(groups: map<Group, seq<Row<R>>>, rows: seq<Row<R>>, n: nat, g: Group, p: Policy<R>)
    requires n <= |rows|
  {
    var at := Indices(Recs(rows), n, g, p);
    && (g in groups <==> at != [])
    && (g in groups ==> |groups[g]| == |at| && forall k :: 0 <= k < |at| ==> at[k] < |rows| && groups[g][k] == rows[at[k]])
  }

  ghost predicate Listed<R>(groups: map<Group, seq<Row<R>>>, rows: seq<Row<R>>, n: nat, p: Policy<R>)
    requires n <= |rows|
  {
    forall g :: GroupListed(groups, rows, n, g, p)
  }

  function Noted<R>(groups: map<Group, seq<Row<R>>>, row: Row<R>, p: Policy<R>): map<Group, seq<Row<R>>> {
    if Ruled(row.rec, p)
    then var g := GroupOf(row.rec, p); groups[g := (if g in groups then groups[g] else []) + [row]]
    else groups
  }

  lemma ListStep<R>(groups: map<Group, seq<Row<R>>>, rows: seq<Row<R>>, n: nat, m: nat, p: Policy<R>)
    requires n < |rows| && m == n + 1 && Listed(groups, rows, n, p)
    ensures Listed(Noted(groups, rows[n], p), rows, m, p)
  {
    var next := Noted(groups, rows[n], p);
    forall g: Group {:trigger GroupListed(next, rows, m, g, p)}
      ensures GroupListed(next, rows, m, g, p)
    {
      assert GroupListed(groups, rows, n, g, p);
    }
  }

  method ListGroups<R>(rows: seq<Row<R>>, p: Policy<R>) returns (groups: map<Group, seq<Row<R>>>)
    ensures Listed(groups, rows, |rows|, p)
  {
    groups := map[];
    for n := 0 to |rows|
      invariant Listed(groups, rows, n, p)
    {
      ListStep(groups, rows, n, n + 1, p);
      groups := Noted(groups, rows[n], p);
    }
  }

  // ---- which rows go, and which get a newer record ----

  ghost predicate Decided<R>(rows: seq<Row<R>>, i: nat, dropped: bool, updates: map<int, R>, p: Policy<R>)
    requires i < |rows|
  {
    var log := Recs(rows);
    && (dropped <==> !Keeps(log, i, p))
    && (!dropped ==> Content(log, i, p) == if rows[i].seqNo in updates then updates[rows[i].seqNo] else log[i])
  }

  function Gone<R>(recs: seq<Row<R>>, keep: int): seq<Row<R>>
    requires keep > 0
  {
    if |recs| <= keep then [] else if keep == 1 then recs[1..] else recs[..|recs| - keep]
  }

  function Renewed<R>(recs: seq<Row<R>>, keep: int, updates: map<int, R>): map<int, R>
    requires keep > 0
  {
    if |recs| <= keep || keep != 1 then updates else updates[recs[0].seqNo := recs[|recs| - 1].rec]
  }

  predicate Numbered<R>(recs: seq<Row<R>>, no: int) { exists k :: 0 <= k < |recs| && recs[k].seqNo == no }

  lemma GroupWhole<R>(groups: map<Group, seq<Row<R>>>, rows: seq<Row<R>>, g: Group, p: Policy<R>)
    requires Listed(groups, rows, |rows|, p) && (g in groups || exists i :: 0 <= i < |rows| && Member(Recs(rows)[i], g, p))
    ensures g in groups && |groups[g]| == |Of(Recs(rows), g, p)| > 0
    ensures groups[g][|groups[g]| - 1].rec == Of(Recs(rows), g, p)[|groups[g]| - 1]
  {
    var at := Indices(Recs(rows), |rows|, g, p);
    assert GroupListed(groups, rows, |rows|, g, p);
    IndexFacts(Recs(rows), |rows|, g, p);
    assert AtIndex(Recs(rows), |rows|, g, p, |at| - 1);
  }

  lemma PlaceInGroup<R>(groups: map<Group, seq<Row<R>>>, rows: seq<Row<R>>, g: Group, i: nat, p: Policy<R>)
    requires Table(rows) && Listed(groups, rows, |rows|, p) && i < |rows| && Member(Recs(rows)[i], g, p) && g in groups
    ensures var k := |OfFirst(Recs(rows), i, g, p)|;
            k < |groups[g]| && forall m :: 0 <= m < |groups[g]| ==> (groups[g][m].seqNo == rows[i].seqNo <==> m == k)
  {
    assert GroupListed(groups, rows, |rows|, g, p);
    IndexFacts(Recs(rows), |rows|, g, p);
    forall m | 0 <= m < |groups[g]|
      ensures groups[g][m].seqNo == rows[i].seqNo <==> m == |OfFirst(Recs(rows), i, g, p)|
    {
      assert AtIndex(Recs(rows), |rows|, g, p, m);
    }
  }

  lemma NumberedIff<R>(recs: seq<Row<R>>, no: int, k: nat, keep: int)
    requires keep > 0 && k < |recs| && forall m :: 0 <= m < |recs| ==> (recs[m].seqNo == no <==> m == k)
    ensures Numbered(Gone(recs, keep), no) <==> |recs| > keep && if keep == 1 then k > 0 else k < |recs| - keep
  {
    var gone := Gone(recs, keep);
    if |recs| > keep {
      if keep == 1 {
        if k > 0 { assert gone[k - 1] == recs[k]; }
      } else if k < |recs| - keep {
        assert gone[k] == recs[k];
      }
    }
  }

  lemma GroupDecided<R>(groups: map<Group, seq<Row<R>>>, rows: seq<Row<R>>, g: Group, i: nat, was: map<int, R>, p: Policy<R>)
    requires Table(rows) && Listed(groups, rows, |rows|, p) && i < |rows| && Member(rows[i].rec, g, p) && rows[i].seqNo !in was
    ensures g in groups && p.rules[g.0].latest > 0
    ensures var keep := p.rules[g.0].latest;
            Decided(rows, i, Numbered(Gone(groups[g], keep), rows[i].seqNo), Renewed(groups[g], keep, was), p)
  {
    assert Member(Recs(rows)[i], g, p);
    GroupWhole(groups, rows, g, p);
    PlaceInGroup(groups, rows, g, i, p);
    RuleApplied(Recs(rows), i, g, p);
    NumberedIff(groups[g], rows[i].seqNo, |OfFirst(Recs(rows), i, g, p)|, p.rules[g.0].latest);
  }

  ghost predicate MarkedAt<R>(rows: seq<Row<R>>, i: nat, drop: set<int>, updates: map<int, R>, todo: set<Group>, p: Policy<R>)
    requires i < |rows|
  {
    if Ruled(rows[i].rec, p) && GroupOf(rows[i].rec, p) in todo
    then rows[i].seqNo !in drop && rows[i].seqNo !in updates
    else Decided(rows, i, rows[i].seqNo in drop, updates, p)
  }

  ghost predicate Marked<R>(rows: seq<Row<R>>, drop: set<int>, updates: map<int, R>, todo: set<Group>, p: Policy<R>) {
    forall i :: 0 <= i < |rows| ==> MarkedAt(rows, i, drop, updates, todo, p)
  }

  lemma StartMarked<R>(groups: map<Group, seq<Row<R>>>, rows: seq<Row<R>>, p: Policy<R>)
    requires Listed(groups, rows, |rows|, p)
    ensures Marked(rows, {}, map[], groups.Keys, p)
  {
    forall i | 0 <= i < |rows|
      ensures MarkedAt(rows, i, {}, map[], groups.Keys, p)
    {
      if Ruled(rows[i].rec, p) {
        var g := GroupOf(rows[i].rec, p);
        assert GroupListed(groups, rows, |rows|, g, p);
        IndexFacts(Recs(rows), |rows|, g, p);
        assert Member(Recs(rows)[i], g, p);
      }
    }
  }

  lemma AllMembers<R>(groups: map<Group, seq<Row<R>>>, rows: seq<Row<R>>, g: Group, p: Policy<R>)
    requires Listed(groups, rows, |rows|, p) && g in groups
    ensures groups[g] != [] && IsGroup(g, p)
    ensures forall k :: 0 <= k < |groups[g]| ==> groups[g][k] in rows && Member(groups[g][k].rec, g, p)
  {
    assert GroupListed(groups, rows, |rows|, g, p);
    IndexFacts(Recs(rows), |rows|, g, p);
    forall k | 0 <= k < |groups[g]|
      ensures groups[g][k] in rows && Member(groups[g][k].rec, g, p)
    {
      assert AtIndex(Recs(rows), |rows|, g, p, k);
    }
    assert Member(groups[g][0].rec, g, p);
  }

  lemma OtherGroup<R>(groups: map<Group, seq<Row<R>>>, rows: seq<Row<R>>, g: Group, i: nat, p: Policy<R>)
    requires Table(rows) && Listed(groups, rows, |rows|, p) && g in groups && IsGroup(g, p)
    requires i < |rows| && !Member(rows[i].rec, g, p)
    ensures !Numbered(Gone(groups[g], p.rules[g.0].latest), rows[i].seqNo)
    ensures groups[g] != [] && groups[g][0].seqNo != rows[i].seqNo
  {
    AllMembers(groups, rows, g, p);
    forall k | 0 <= k < |groups[g]|
      ensures groups[g][k].seqNo != rows[i].seqNo
    {
      assert groups[g][k] in rows;
    }
  }

  lemma MarkGroup<R>(groups: map<Group, seq<Row<R>>>, rows: seq<Row<R>>, g: Group, drop: set<int>, updates: map<int, R>,
                     todo: set<Group>, p: Policy<R>)
    requires Table(rows) && Listed(groups, rows, |rows|, p) && g in groups && g in todo && IsGroup(g, p)
    requires Marked(rows, drop, updates, todo, p)
    ensures var recs, keep := groups[g], p.rules[g.0].latest;
            Marked(rows, drop + Numbers(Gone(recs, keep)), Renewed(recs, keep, updates), todo - {g}, p)
  {
    var recs, keep := groups[g], p.rules[g.0].latest;
    forall i | 0 <= i < |rows|
      ensures MarkedAt(rows, i, drop + Numbers(Gone(recs, keep)), Renewed(recs, keep, updates), todo - {g}, p)
    {
      assert MarkedAt(rows, i, drop, updates, todo, p);
      InNumbers(Gone(recs, keep), rows[i].seqNo);
      if Member(rows[i].rec, g, p) {
        GroupDecided(groups, rows, g, i, updates, p);
      } else {
        OtherGroup(groups, rows, g, i, p);
      }
    }
  }

  function Numbers<R>(recs: seq<Row<R>>): set<int> { set k | 0 <= k < |recs| :: recs[k].seqNo }

  lemma InNumbers<R>(recs: seq<Row<R>>, no: int)
    ensures no in Numbers(recs) <==> Numbered(recs, no)
  {
  }

  method Decide<R>(rows: seq<Row<R>>, p: Policy<R>) returns (drop: set<int>, updates: map<int, R>)
    requires Table(rows)
    ensures Marked(rows, drop, updates, {}, p)
  {
    var groups := ListGroups(rows, p);
    drop, updates := {}, map[];
    StartMarked(groups, rows, p);
    var todo := groups.Keys;
    while todo != {}
      invariant todo <= groups.Keys && Marked(rows, drop, updates, todo, p)
      decreases |todo|
    {
      var g :| g in todo;
      AllMembers(groups, rows, g, p);
      MarkGroup(groups, rows, g, drop, updates, todo, p);
      var recs, keep := groups[g], p.rules[g.0].latest;
      drop := drop + Numbers(Gone(recs, keep));
      updates := Renewed(recs, keep, updates);
      todo := todo - {g};
    }
  }

  /** The transaction: every update, then the deletion. */
  method Apply<R>(rows: seq<Row<R>>, drop: set<int>, updates: map<int, R>, p: Policy<R>) returns (out: seq<Row<R>>)
    requires Marked(rows, drop, updates, {}, p)
    ensures out == KeptRows(rows, |rows|, p)
  {
    out := [];
    for i := 0 to |rows|
      invariant out == KeptRows(rows, i, p)
    {
      assert MarkedAt(rows, i, drop, updates, {}, p);
      var row := rows[i];
      if row.seqNo in updates { row := Row(row.seqNo, updates[row.seqNo]); }
      if row.seqNo !in drop { out := out + [row]; }
    }
  }

  /** How many rows the lookup tables have taken in. */
  function Projected<R>(rows: seq<Row<R>>, upTo: int): (n: nat)
    ensures n <= |rows|
    ensures forall i :: 0 <= i < n ==> rows[i].seqNo <= upTo
    ensures n < |rows| ==> rows[n].seqNo > upTo
  {
    if rows == [] || rows[0].seqNo > upTo then 0 else 1 + Projected(rows[1..], upTo)
  }

  /** Compacts the part of the table that has been taken in and leaves the rest alone. */
  method Compact<R>(rows: seq<Row<R>>, upTo: int, p: Policy<R>) returns (out: seq<Row<R>>, dropped: nat)
    requires Table(rows) && upTo >= 0
    ensures var n := Projected(rows, upTo);
            && out == KeptRows(rows[..n], n, Raised(p)) + rows[n..]
            && dropped + |out| == |rows|
  {
    var n := Projected(rows, upTo);
    if upTo == 0 { return rows, 0; }
    out := CompactTaken(rows[..n], Raised(p));
    FewerRows(rows[..n], n, Raised(p));
    dropped := n - |out|;
    out := out + rows[n..];
  }

  /** The rows the lookup tables have taken in. */
  method CompactTaken<R>(taken: seq<Row<R>>, q: Policy<R>) returns (kept: seq<Row<R>>)
    requires Table(taken)
    ensures kept == KeptRows(taken, |taken|, q)
  {
    var drop, updates := Decide(taken, q);
    if drop == {} {
      NothingGone(taken, updates, q);
      return taken;
    }
    kept := Apply(taken, drop, updates, q);
  }

  lemma {:induction false} FewerRows<R>(rows: seq<Row<R>>, n: nat, p: Policy<R>)
    requires n <= |rows|
    ensures |KeptRows(rows, n, p)| <= n
  {
    if n > 0 { FewerRows(rows, n - 1, p); }
  }

  lemma NothingGone<R>(rows: seq<Row<R>>, updates: map<int, R>, p: Policy<R>)
    requires Marked(rows, {}, updates, {}, p)
    ensures KeptRows(rows, |rows|, p) == rows
  {
    var log := Recs(rows);
    forall i | 0 <= i < |log|
      ensures Keeps(log, i, p)
    {
      assert MarkedAt(rows, i, {}, updates, {}, p);
    }
    AllKept(log, p);
    SameRows(rows, |rows|, p);
  }

  lemma {:induction false} SameRows<R>(rows: seq<Row<R>>, n: nat, p: Policy<R>)
    requires n <= |rows| && forall k :: 0 <= k < |rows| ==> Keeps(Recs(rows), k, p) && Content(Recs(rows), k, p) == rows[k].rec
    ensures KeptRows(rows, n, p) == rows[..n]
  {
    if n > 0 { SameRows(rows, n - 1, p); }
  }

  lemma RecsOfParts<R>(a: seq<Row<R>>, b: seq<Row<R>>)
    ensures Recs(a + b) == Recs(a) + Recs(b)
  {
  }

  lemma RecsSplit<R>(rows: seq<Row<R>>, n: nat)
    requires n <= |rows|
    ensures Recs(rows[..n]) == Recs(rows)[..n] && Recs(rows[n..]) == Recs(rows)[n..]
  {
    var tail := Recs(rows[n..]);
    assert forall i :: 0 <= i < |tail| ==> tail[i] == rows[n..][i].rec == rows[n + i].rec == Recs(rows)[n..][i];
  }

  lemma StillGrowing<R>(rows: seq<Row<R>>, n: nat, kept: seq<Row<R>>)
    requires Table(rows) && n <= |rows| && Table(kept)
    requires forall r :: r in kept ==> n > 0 && r.seqNo <= rows[n - 1].seqNo
    ensures Table(kept + rows[n..])
  {
    var out := kept + rows[n..];
    forall i, j | 0 <= i < j < |out|
      ensures out[i].seqNo < out[j].seqNo
    {
      if i < |kept| { assert kept[i] in kept; }
    }
    assert forall i :: 0 <= i < |out| ==> out[i].seqNo > 0;
  }

  /** The table after compaction: the taken-in records are compacted as the log file's would be, the
      others untouched, and the row numbers still grow. */
  lemma TableMeansTheSame<R>(rows: seq<Row<R>>, upTo: int, p: Policy<R>)
    requires Table(rows)
    ensures var n := Projected(rows, upTo);
            var out := KeptRows(rows[..n], n, Raised(p)) + rows[n..];
            && Recs(out) == Compacted(Recs(rows)[..n], Raised(p)) + Recs(rows)[n..]
            && Table(out)
  {
    var n := Projected(rows, upTo);
    var taken, q := rows[..n], Raised(p);
    KeptRowsAreCompacted(taken, n, q);
    RecsSplit(rows, n);
    RecsOfParts(KeptRows(taken, n, q), rows[n..]);
    StillGrowing(rows, n, KeptRows(taken, n, q));
  }

  /** What the compacted table restores a key to, the rows not taken in included: the same as before if and only
      if several records of its kind are kept, or the last reset of the key among the taken-in rows does not lie
      between two of its records there, or a later row resets or records the key again. */
  lemma TableRestoresIff<R(!new)>(rows: seq<Row<R>>, upTo: int, g: Group, p: Policy<R>, wipes: (R, Group) -> bool)
    requires Table(rows) && IsGroup(g, Raised(p)) && WipesFit(wipes, Raised(p))
    ensures var n, q, log := Projected(rows, upTo), Raised(p), Recs(rows);
            (Lookup(Replayed(Recs(KeptRows(rows[..n], n, q) + rows[n..]), q, wipes), g) == Lookup(Replayed(log, q, wipes), g))
              <==> q.rules[g.0].latest != 1 || !Split(log[..n], g, q, wipes) || Settles(log[n..], g, q, wipes)
  {
    var n, log := Projected(rows, upTo), Recs(rows);
    TableMeansTheSame(rows, upTo, p);
    PartsRestore(Recs(KeptRows(rows[..n], n, Raised(p)) + rows[n..]), log, n, g, Raised(p), wipes);
  }

  lemma PartsRestore<R(!new)>(out: seq<R>, log: seq<R>, n: nat, g: Group, q: Policy<R>, wipes: (R, Group) -> bool)
    requires n <= |log| && out == Compacted(log[..n], q) + log[n..] && IsGroup(g, q) && WipesFit(wipes, q)
    ensures (Lookup(Replayed(out, q, wipes), g) == Lookup(Replayed(log, q, wipes), g))
              <==> q.rules[g.0].latest != 1 || !Split(log[..n], g, q, wipes) || Settles(log[n..], g, q, wipes)
  {
    assert log[..n] + log[n..] == log;
    FrontMeaningKept(log[..n], log[n..], g, q, wipes);
  }

  // ---- when the file's compaction and the table's agree ----

  /** The record's kind has a rule that keeps none. */
  predicate Low<R>(r: R, p: Policy<R>) { p.kind(r) in p.rules && p.rules[p.kind(r)].latest < 1 }

  ghost predicate Pair<R>(log: seq<R>, i: nat, j: nat, p: Policy<R>)
    requires i < |log| && j < |log|
  {
    Low(log[i], p) && Low(log[j], p) && p.kind(log[i]) == p.kind(log[j])
    && p.rules[p.kind(log[i])].key(log[i]) == p.rules[p.kind(log[i])].key(log[j])
  }

  /** Two records of the log supersede each other under a rule that keeps none. */
  ghost predicate Paired<R>(log: seq<R>, p: Policy<R>) { exists i, j :: 0 <= i < j < |log| && Pair(log, i, j, p) }

  lemma {:induction false} SameOf<R>(log: seq<R>, n: nat, g: Group, p: Policy<R>)
    requires n <= |log| && g.0 in p.rules && p.rules[g.0].latest >= 1
    ensures OfFirst(log, n, g, Raised(p)) == OfFirst(log, n, g, p)
  {
    if n > 0 {
      SameOf(log, n - 1, g, p);
      assert p.kind(log[n - 1]) == g.0 ==> (Member(log[n - 1], g, Raised(p)) <==> Member(log[n - 1], g, p));
    }
  }

  lemma {:induction false} OlderIn<R>(log: seq<R>, i: nat, n: nat, g: Group, q: Policy<R>)
    requires i < n <= |log| && Member(log[i], g, q)
    ensures OfFirst(log, n, g, q) != []
    decreases n
  {
    if i < n - 1 { OlderIn(log, i, n - 1, g, q); }
  }

  lemma {:induction false} OnlyThis<R>(log: seq<R>, j: nat, n: nat, g: Group, q: Policy<R>)
    requires j < |log| && n <= |log| && Member(log[j], g, q)
    requires forall i :: 0 <= i < n && i != j ==> !Member(log[i], g, q)
    ensures OfFirst(log, n, g, q) == if n > j then [log[j]] else []
    decreases n
  {
    if n > 0 { OnlyThis(log, j, n - 1, g, q); }
  }

  /** A record under a rule that keeps none stays in the file; in the table it stays if it is the first of
      its group. */
  lemma LowKept<R>(log: seq<R>, j: nat, p: Policy<R>)
    requires j < |log| && Low(log[j], p)
    ensures Keeps(log, j, p) && Content(log, j, p) == log[j]
    ensures !Paired(log, p) ==> Keeps(log, j, Raised(p)) && Content(log, j, Raised(p)) == log[j]
    ensures (exists i :: 0 <= i < j && Pair(log, i, j, p)) ==> !Keeps(log, j, Raised(p))
  {
    var q := Raised(p);
    assert q.rules[p.kind(log[j])].latest == 1;
    var g := GroupOf(log[j], q);
    if !Paired(log, p) {
      forall i | 0 <= i < |log| && i != j
        ensures !Member(log[i], g, q)
      {
        if Member(log[i], g, q) { assert Pair(log, if i < j then i else j, if i < j then j else i, p); }
      }
      OnlyThis(log, j, j, g, q);
      OnlyThis(log, j, |log|, g, q);
    }
    if i :| 0 <= i < j && Pair(log, i, j, p) {
      assert Member(log[i], g, q);
      OlderIn(log, i, j, g, q);
    }
  }

  /** Under any other rule, or none, both do the same. */
  lemma OtherKept<R>(log: seq<R>, j: nat, p: Policy<R>)
    requires j < |log| && !Low(log[j], p)
    ensures Keeps(log, j, Raised(p)) <==> Keeps(log, j, p)
    ensures Content(log, j, Raised(p)) == Content(log, j, p)
  {
    if Ruled(log[j], p) {
      var g := GroupOf(log[j], p);
      SameOf(log, j, g, p);
      SameOf(log, |log|, g, p);
      assert Raised(p).rules[g.0].latest == p.rules[g.0].latest && GroupOf(log[j], Raised(p)) == g;
    }
  }

  lemma {:induction false} UnpairedAgree<R>(log: seq<R>, n: nat, p: Policy<R>)
    requires n <= |log| && !Paired(log, p)
    ensures KeptUpTo(log, n, Raised(p)) == KeptUpTo(log, n, p)
  {
    if n > 0 {
      UnpairedAgree(log, n - 1, p);
      if Low(log[n - 1], p) { LowKept(log, n - 1, p); } else { OtherKept(log, n - 1, p); }
    }
  }

  lemma {:induction false} PairedShorter<R>(log: seq<R>, i: nat, j: nat, n: nat, p: Policy<R>)
    requires i < j < |log| && Pair(log, i, j, p) && n <= |log|
    ensures |KeptUpTo(log, n, Raised(p))| <= |KeptUpTo(log, n, p)|
    ensures n > j ==> |KeptUpTo(log, n, Raised(p))| < |KeptUpTo(log, n, p)|
    decreases n
  {
    if n > 0 {
      PairedShorter(log, i, j, n - 1, p);
      if Low(log[n - 1], p) { LowKept(log, n - 1, p); } else { OtherKept(log, n - 1, p); }
    }
  }

  /** The two compactions keep the same of a log if and only if no two of its records supersede each other
      under a rule that keeps none: the file's ignores such a rule, the table's keeps the newest. */
  lemma AgreeIff<R>(log: seq<R>, p: Policy<R>)
    ensures Compacted(log, Raised(p)) == Compacted(log, p) <==> !Paired(log, p)
  {
    if !Paired(log, p) {
      UnpairedAgree(log, |log|, p);
    } else {
      var i, j :| 0 <= i < j < |log| && Pair(log, i, j, p);
      PairedShorter(log, i, j, |log|, p);
    }
  }

  function Careless(): Policy<Sample> {
    Policy((r: Sample) => r.kind, map["clock" := Rule(0, (r: Sample) => "")])
  }

  lemma FileKeepsAll(x: Sample, y: Sample)
    ensures Compacted([x, y], Careless()) == [x, y]
  {
    var log, p := [x, y], Careless();
    assert !Ruled(x, p) && !Ruled(y, p);
    assert KeptUpTo(log, 1, p) == [x];
  }

  /** Two clock records and a rule for clock records that keeps none: the file's compaction keeps both, the
      table's the newer one. */
  lemma RulesBelowOneDiffer(a: int, b: int)
    ensures Compacted([Sample("clock", a), Sample("clock", b)], Careless()) == [Sample("clock", a), Sample("clock", b)]
    ensures Compacted([Sample("clock", a), Sample("clock", b)], Raised(Careless())) == [Sample("clock", b)]
  {
    var x, y, q, g := Sample("clock", a), Sample("clock", b), Raised(Careless()), ("clock", "");
    var log := [x, y];
    FileKeepsAll(x, y);
    assert Member(x, g, q) && Member(y, g, q) && q.rules["clock"].latest == 1;
    RuleApplied(log, 0, g, q);
    RuleApplied(log, 1, g, q);
    assert OfFirst(log, 1, g, q) == [x] && OfFirst(log, 2, g, q) == [x, y];
    assert KeptUpTo(log, 1, q) == [y];
  }
}

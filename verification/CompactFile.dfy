/** Compacting the log file: one pass to find the records that rules cover, one to write the survivors. */
module CompactFile {
  import opened Numeric
  import opened W = WriteAheadLog
  import opened Compaction

  datatype RecPos = RecPos(idx: nat, off: nat, length: nat)

  datatype Report = Report(beforeBytes: nat, afterBytes: nat, kept: nat, dropped: nat)

  ghost function PosOf(ls: seq<Line>, i: nat): RecPos
    requires i < |ls|
  {
    RecPos(i, Front(ls, i), |ls[i]| + 1)
  }

  /** The groups found among the first n records. */
  ghost predicate Surveyed(groups: map<Group, seq<RecPos>>, ls: seq<Line>, n: nat, p: Policy<Line>)
    requires n <= |ls|
  {
    forall g :: GroupSurveyed(groups, ls, n, g, p)
  }

  ghost predicate GroupSurveyed(groups: map<Group, seq<RecPos>>, ls: seq<Line>, n: nat, g: Group, p: Policy<Line>)
    requires n <= |ls|
  {
    var at := Indices(ls, n, g, p);
    && (g in groups <==> at != [])
    && (g in groups ==> |groups[g]| == |at|
                        && forall k :: 0 <= k < |at| ==> at[k] < |ls| && groups[g][k] == PosOf(ls, at[k]))
  }

  // ---- reading records at their place ----

  /** Record i sits where the records before it end. */
  ghost predicate Sits(file: seq<byte>, off: nat, length: nat, line: Line) {
    off + length <= |file| && file[off..off + length] == line + [NEWLINE]
  }

  lemma LineAt(ls: seq<Line>, i: nat)
    requires i < |ls|
    ensures Bytes(ls[..i + 1]) == Bytes(ls[..i]) + (ls[i] + [NEWLINE])
    ensures Front(ls, i) + |ls[i]| + 1 == Front(ls, i + 1)
  {
    assert ls[..i + 1] == ls[..i] + [ls[i]];
    BytesPlus(ls[..i], [ls[i]]);
    assert Bytes([ls[i]]) == ls[i] + [NEWLINE];
  }

  lemma LineSits(file: seq<byte>, ls: seq<Line>, i: nat)
    requires i < |ls| && Bytes(ls) <= file
    ensures Sits(file, Front(ls, i), |ls[i]| + 1, ls[i])
  {
    LineAt(ls, i);
    FrontOfFile(file, ls, i + 1);
    Middle(file, Bytes(ls[..i]), ls[i] + [NEWLINE]);
  }

  lemma FrontOfFile(file: seq<byte>, ls: seq<Line>, n: nat)
    requires n <= |ls| && Bytes(ls) <= file
    ensures Bytes(ls[..n]) <= file
  {
    assert ls == ls[..n] + ls[n..];
    BytesPlus(ls[..n], ls[n..]);
  }

  lemma Middle(file: seq<byte>, before: seq<byte>, part: seq<byte>)
    requires before + part <= file
    ensures file[|before|..|before| + |part|] == part
  {
    assert file[..|before| + |part|] == before + part;
  }

  lemma ReadIsLine(file: seq<byte>, ls: seq<Line>, i: nat, line: seq<byte>, parses: Line -> bool)
    requires i < |ls| && Encoded(ls, parses) && Bytes(ls) <= file
    requires Front(ls, i) <= |file| && IsRead(file, Front(ls, i), line)
    ensures line == ls[i] + [NEWLINE]
  {
    LineSits(file, ls, i);
    assert IsLine(ls[i], parses);
    SittingIsRead(file, Front(ls, i), ls[i], line);
  }

  lemma SittingIsRead(file: seq<byte>, off: nat, body: Line, line: seq<byte>)
    requires Sits(file, off, |body| + 1, body) && NEWLINE !in body && IsRead(file, off, line)
    ensures line == body + [NEWLINE]
  {
    var rest, n := file[off..], |body|;
    assert rest[..n + 1] == file[off..off + n + 1] == body + [NEWLINE];
    assert rest[..n] == rest[..n + 1][..n] == body;
    assert rest[n] == rest[..n + 1][n] == NEWLINE;
    EndsAt(rest, n);
  }

  // ---- pass 1 ----

  function Grouped(groups: map<Group, seq<RecPos>>, g: Group, pos: RecPos): map<Group, seq<RecPos>> {
    groups[g := (if g in groups then groups[g] else []) + [pos]]
  }

  lemma SurveyStep(groups: map<Group, seq<RecPos>>, ls: seq<Line>, n: nat, p: Policy<Line>)
    requires n < |ls| && Surveyed(groups, ls, n, p)
    ensures Surveyed(Noted(groups, ls[n], PosOf(ls, n), p), ls, n + 1, p)
  {
    var next, m := Noted(groups, ls[n], PosOf(ls, n), p), n + 1;
    forall g: Group {:trigger GroupSurveyed(next, ls, m, g, p)}
      ensures GroupSurveyed(next, ls, m, g, p)
    {
      assert GroupSurveyed(groups, ls, n, g, p);
    }
  }

  function Noted(groups: map<Group, seq<RecPos>>, line: Line, pos: RecPos, p: Policy<Line>): map<Group, seq<RecPos>> {
    if Ruled(line, p) then Grouped(groups, GroupOf(line, p), pos) else groups
  }

  /** The scan has read n records; what is left of the file holds the others. */
  ghost predicate Scanning(file: seq<byte>, parses: Line -> bool, groups: map<Group, seq<RecPos>>, n: nat, off: nat, p: Policy<Line>) {
    var ls := Lines(file, parses);
    && n <= |ls| && off <= |file| && LinesFrom(file, off, parses) == ls[n..]
    && off == Front(ls, n) && Surveyed(groups, ls, n, p)
  }

  ghost predicate ScannedMore(file: seq<byte>, parses: Line -> bool, groups: map<Group, seq<RecPos>>, n: nat, off: nat,
                              p: Policy<Line>, body: Line)
  {
    Scanning(file, parses, Noted(groups, body, RecPos(n, off, |body| + 1), p), n + 1, off + |body| + 1, p)
  }

  lemma ScanOne(file: seq<byte>, parses: Line -> bool, groups: map<Group, seq<RecPos>>, n: nat, off: nat, p: Policy<Line>,
                line: seq<byte>)
    requires off <= |file| && Scanning(file, parses, groups, n, off, p) && IsRead(file, off, line)
    ensures if Complete(line) && parses(Body(line))
            then off + |Body(line)| + 1 <= |file| && ScannedMore(file, parses, groups, n, off, p, Body(line))
            else n == |Lines(file, parses)|
  {
    NextLine(file, off, line, parses);
    if Complete(line) && parses(Body(line)) {
      ScanMore(file, parses, groups, n, off, p, Body(line));
    } else {
      ScanStop(file, parses, groups, n, off, p);
    }
  }

  lemma ScanStop(file: seq<byte>, parses: Line -> bool, groups: map<Group, seq<RecPos>>, n: nat, off: nat, p: Policy<Line>)
    requires Scanning(file, parses, groups, n, off, p) && LinesFrom(file, off, parses) == []
    ensures n == |Lines(file, parses)|
  {
  }

  lemma ScanMore(file: seq<byte>, parses: Line -> bool, groups: map<Group, seq<RecPos>>, n: nat, off: nat, p: Policy<Line>, body: Line)
    requires Scanning(file, parses, groups, n, off, p) && off + |body| + 1 <= |file|
    requires LinesFrom(file, off, parses) == [body] + LinesFrom(file, off + |body| + 1, parses)
    ensures ScannedMore(file, parses, groups, n, off, p, body)
  {
    var ls := Lines(file, parses);
    HeadAndRest(ls, n, body, LinesFrom(file, off + |body| + 1, parses));
    LineAt(ls, n);
    SurveyStep(groups, ls, n, p);
  }

  lemma HeadAndRest<T>(s: seq<T>, n: nat, x: T, rest: seq<T>)
    requires n <= |s| && s[n..] == [x] + rest
    ensures n < |s| && s[n] == x && s[n + 1..] == rest
  {
    assert s[n..][0] == x && s[n..][1..] == s[n + 1..];
  }

  lemma ScanEnd(file: seq<byte>, parses: Line -> bool, groups: map<Group, seq<RecPos>>, n: nat, off: nat, p: Policy<Line>)
    requires Scanning(file, parses, groups, n, off, p) && n == |Lines(file, parses)|
    ensures off == |Bytes(Lines(file, parses))| && Surveyed(groups, Lines(file, parses), n, p)
  {
    assert Lines(file, parses)[..n] == Lines(file, parses);
  }

  lemma ScanNone(file: seq<byte>, parses: Line -> bool, p: Policy<Line>)
    ensures Scanning(file, parses, map[], 0, 0, p)
  {
    assert file[0..] == file;
  }

  /** The scan has looked ahead: at a record, or at the end of the records. */
  ghost predicate Looked(file: seq<byte>, parses: Line -> bool, groups: map<Group, seq<RecPos>>, n: nat, off: nat,
                         p: Policy<Line>, more: bool, body: Line)
  {
    if more then ScannedMore(file, parses, groups, n, off, p, body)
    else off <= |file| && Scanning(file, parses, groups, n, off, p) && n == |Lines(file, parses)|
  }

  /** The next record, if there is one. */
  method NextRecord(file: seq<byte>, parses: Line -> bool, off: nat, ghost groups: map<Group, seq<RecPos>>, ghost n: nat, ghost p: Policy<Line>)
    returns (more: bool, body: Line)
    requires off <= |file| && Scanning(file, parses, groups, n, off, p)
    ensures more ==> off + |body| + 1 <= |file|
    ensures Looked(file, parses, groups, n, off, p, more, body)
  {
    var line := ReadBytes(file, off);
    ScanOne(file, parses, groups, n, off, p, line);
    more := Complete(line) && parses(Body(line));
    body := if more then Body(line) else [];
  }

  method Survey(file: seq<byte>, parses: Line -> bool, p: Policy<Line>)
    returns (groups: map<Group, seq<RecPos>>, n: nat, off: nat)
    ensures n == |Lines(file, parses)| && off == |Bytes(Lines(file, parses))|
    ensures Surveyed(groups, Lines(file, parses), n, p)
  {
    groups, n, off := map[], 0, 0;
    ScanNone(file, parses, p);
    var more, body := NextRecord(file, parses, off, groups, n, p);
    while more
      invariant more ==> off + |body| + 1 <= |file|
      invariant Looked(file, parses, groups, n, off, p, more, body) == true
      decreases |file| - off
    {
      groups := Noted(groups, body, RecPos(n, off, |body| + 1), p);
      off, n := off + |body| + 1, n + 1;
      more, body := NextRecord(file, parses, off, groups, n, p);
    }
    ScanEnd(file, parses, groups, n, off, p);
  }

  // ---- what to drop and what to write where ----

  ghost predicate Decided(ls: seq<Line>, i: nat, dropped: bool, replaceWith: map<nat, RecPos>, p: Policy<Line>)
    requires i < |ls|
  {
    && (dropped <==> !Keeps(ls, i, p))
    && (!dropped ==>
          if i in replaceWith
          then (var j := replaceWith[i].idx; j < |ls| && replaceWith[i] == PosOf(ls, j) && ls[j] == Content(ls, i, p))
          else Content(ls, i, p) == ls[i])
  }

  predicate Names(recs: seq<RecPos>, i: nat) { exists k :: 0 <= k < |recs| && recs[k].idx == i }

  method DropAll(drop: array<bool>, recs: seq<RecPos>)
    requires forall k :: 0 <= k < |recs| ==> recs[k].idx < drop.Length
    modifies drop
    ensures forall i :: 0 <= i < drop.Length ==> (drop[i] <==> old(drop[i]) || Names(recs, i))
  {
    for j := 0 to |recs|
      invariant forall i :: 0 <= i < drop.Length ==> (drop[i] <==> old(drop[i]) || exists k :: 0 <= k < j && recs[k].idx == i)
    {
      drop[recs[j].idx] := true;
    }
  }

  /** Which of a group's records go, and what replaces the first. */
  function Dropped(recs: seq<RecPos>, keep: int): seq<RecPos>
    requires keep > 0
  {
    if |recs| <= keep then [] else if keep == 1 then recs[1..] else recs[..|recs| - keep]
  }

  function Replaced(recs: seq<RecPos>, keep: int, old': map<nat, RecPos>): map<nat, RecPos>
    requires keep > 0
  {
    if |recs| <= keep || keep != 1 then old' else old'[recs[0].idx := recs[|recs| - 1]]
  }

  lemma GroupWhole(groups: map<Group, seq<RecPos>>, ls: seq<Line>, g: Group, p: Policy<Line>)
    requires Surveyed(groups, ls, |ls|, p) && (g in groups || exists i :: 0 <= i < |ls| && Member(ls[i], g, p))
    ensures g in groups && |groups[g]| == |Of(ls, g, p)| > 0
    ensures var last := groups[g][|groups[g]| - 1];
            last.idx < |ls| && last == PosOf(ls, last.idx) && ls[last.idx] == Of(ls, g, p)[|Of(ls, g, p)| - 1]
  {
    var at := Indices(ls, |ls|, g, p);
    assert GroupSurveyed(groups, ls, |ls|, g, p);
    IndexFacts(ls, |ls|, g, p);
    assert AtIndex(ls, |ls|, g, p, |at| - 1);
  }

  /** A member's place in its group. */
  lemma PlaceInGroup(groups: map<Group, seq<RecPos>>, ls: seq<Line>, g: Group, i: nat, p: Policy<Line>)
    requires Surveyed(groups, ls, |ls|, p) && i < |ls| && Member(ls[i], g, p) && g in groups
    ensures var k := |OfFirst(ls, i, g, p)|;
            k < |groups[g]| && forall m :: 0 <= m < |groups[g]| ==> (groups[g][m].idx == i <==> m == k)
  {
    assert GroupSurveyed(groups, ls, |ls|, g, p);
    IndexFacts(ls, |ls|, g, p);
    forall m | 0 <= m < |groups[g]|
      ensures groups[g][m].idx == i <==> m == |OfFirst(ls, i, g, p)|
    {
      assert AtIndex(ls, |ls|, g, p, m);
    }
  }

  lemma NamedIff(recs: seq<RecPos>, i: nat, k: nat, keep: int)
    requires keep > 0 && k < |recs| && forall m :: 0 <= m < |recs| ==> (recs[m].idx == i <==> m == k)
    ensures Names(Dropped(recs, keep), i) <==> |recs| > keep && if keep == 1 then k > 0 else k < |recs| - keep
  {
    var gone := Dropped(recs, keep);
    if |recs| > keep {
      if keep == 1 {
        if k > 0 { assert gone[k - 1] == recs[k]; }
      } else if k < |recs| - keep {
        assert gone[k] == recs[k];
      }
    }
  }

  lemma GroupDecided(groups: map<Group, seq<RecPos>>, ls: seq<Line>, g: Group, i: nat, was: map<nat, RecPos>, p: Policy<Line>)
    requires Surveyed(groups, ls, |ls|, p) && i < |ls| && Member(ls[i], g, p) && i !in was
    ensures g in groups && p.rules[g.0].latest > 0
    ensures var keep := p.rules[g.0].latest;
            Decided(ls, i, Names(Dropped(groups[g], keep), i), Replaced(groups[g], keep, was), p)
  {
    GroupWhole(groups, ls, g, p);
    PlaceInGroup(groups, ls, g, i, p);
    RuleApplied(ls, i, g, p);
    NamedIff(groups[g], i, |OfFirst(ls, i, g, p)|, p.rules[g.0].latest);
  }

  /** The groups decided so far have their marks, the others none. */
  ghost predicate Marked(ls: seq<Line>, drop: seq<bool>, replaceWith: map<nat, RecPos>, todo: set<Group>, p: Policy<Line>) {
    |drop| == |ls| && forall i :: 0 <= i < |ls| ==> MarkedAt(ls, i, drop[i], replaceWith, todo, p)
  }

  ghost predicate MarkedAt(ls: seq<Line>, i: nat, dropped: bool, replaceWith: map<nat, RecPos>, todo: set<Group>, p: Policy<Line>)
    requires i < |ls|
  {
    if Ruled(ls[i], p) && GroupOf(ls[i], p) in todo then !dropped && i !in replaceWith
    else Decided(ls, i, dropped, replaceWith, p)
  }

  lemma StartMarked(groups: map<Group, seq<RecPos>>, ls: seq<Line>, drop: seq<bool>, p: Policy<Line>)
    requires Surveyed(groups, ls, |ls|, p) && |drop| == |ls| && forall i :: 0 <= i < |ls| ==> !drop[i]
    ensures Marked(ls, drop, map[], groups.Keys, p)
  {
    forall i | 0 <= i < |ls|
      ensures MarkedAt(ls, i, drop[i], map[], groups.Keys, p)
    {
      if Ruled(ls[i], p) {
        var g := GroupOf(ls[i], p);
        assert GroupSurveyed(groups, ls, |ls|, g, p);
        IndexFacts(ls, |ls|, g, p);
      }
    }
  }

  lemma MarkGroup(groups: map<Group, seq<RecPos>>, ls: seq<Line>, g: Group, drop: seq<bool>, after: seq<bool>,
                  replaceWith: map<nat, RecPos>, todo: set<Group>, p: Policy<Line>)
    requires Surveyed(groups, ls, |ls|, p) && g in groups && g in todo && IsGroup(g, p)
    requires Marked(ls, drop, replaceWith, todo, p) && |after| == |drop|
    requires forall i :: 0 <= i < |drop| ==> (after[i] <==> drop[i] || Names(Dropped(groups[g], p.rules[g.0].latest), i))
    ensures Marked(ls, after, Replaced(groups[g], p.rules[g.0].latest, replaceWith), todo - {g}, p)
  {
    forall i | 0 <= i < |ls|
      ensures MarkedAt(ls, i, after[i], Replaced(groups[g], p.rules[g.0].latest, replaceWith), todo - {g}, p)
    {
      assert MarkedAt(ls, i, drop[i], replaceWith, todo, p);
      if Member(ls[i], g, p) {
        GroupDecided(groups, ls, g, i, replaceWith, p);
      } else {
        NotNamed(groups, ls, g, i, p);
      }
    }
  }

  lemma NotNamed(groups: map<Group, seq<RecPos>>, ls: seq<Line>, g: Group, i: nat, p: Policy<Line>)
    requires Surveyed(groups, ls, |ls|, p) && g in groups && IsGroup(g, p) && i < |ls| && !Member(ls[i], g, p)
    ensures !Names(Dropped(groups[g], p.rules[g.0].latest), i)
    ensures groups[g] != [] && groups[g][0].idx != i
  {
    AllMembers(groups, ls, g, p);
  }

  lemma AllMembers(groups: map<Group, seq<RecPos>>, ls: seq<Line>, g: Group, p: Policy<Line>)
    requires Surveyed(groups, ls, |ls|, p) && g in groups
    ensures groups[g] != [] && IsGroup(g, p)
    ensures forall k :: 0 <= k < |groups[g]| ==> groups[g][k].idx < |ls| && Member(ls[groups[g][k].idx], g, p)
  {
    assert GroupSurveyed(groups, ls, |ls|, g, p);
    IndexFacts(ls, |ls|, g, p);
    forall k | 0 <= k < |groups[g]|
      ensures groups[g][k].idx < |ls| && Member(ls[groups[g][k].idx], g, p)
    {
      assert AtIndex(ls, |ls|, g, p, k);
    }
    assert Member(ls[groups[g][0].idx], g, p);
  }

  /** Goes through the groups in any order and marks what goes and what is written over what stays. */
  method Decide(groups: map<Group, seq<RecPos>>, n: nat, p: Policy<Line>, ghost ls: seq<Line>)
    returns (drop: array<bool>, replaceWith: map<nat, RecPos>)
    requires n == |ls| && Surveyed(groups, ls, n, p)
    ensures fresh(drop) && Marked(ls, drop[..], replaceWith, {}, p)
  {
    drop := new bool[n](_ => false);
    replaceWith := map[];
    StartMarked(groups, ls, drop[..], p);
    var todo := groups.Keys;
    while todo != {}
      invariant drop.Length == n && fresh(drop) && todo <= groups.Keys
      invariant Marked(ls, drop[..], replaceWith, todo, p)
      decreases |todo|
    {
      var g :| g in todo;
      AllMembers(groups, ls, g, p);
      var recs, keep := groups[g], p.rules[g.0].latest;
      ghost var before := drop[..];
      DropAll(drop, Dropped(recs, keep));
      MarkGroup(groups, ls, g, before, drop[..], replaceWith, todo, p);
      replaceWith := Replaced(recs, keep, replaceWith);
      todo := todo - {g};
    }
  }

  // ---- pass 2 ----

  lemma WriteStep(ls: seq<Line>, i: nat, out: seq<byte>, line: seq<byte>, p: Policy<Line>)
    requires i < |ls| && out == Bytes(KeptUpTo(ls, i, p))
    requires Keeps(ls, i, p) ==> line == Content(ls, i, p) + [NEWLINE]
    ensures (if Keeps(ls, i, p) then out + line else out) == Bytes(KeptUpTo(ls, i + 1, p))
  {
    if Keeps(ls, i, p) {
      var c := Content(ls, i, p);
      BytesPlus(KeptUpTo(ls, i, p), [c]);
      assert Bytes([c]) == c + [NEWLINE] + Bytes([]);
    }
  }

  /** Reads record i at its place and gives what is written for it. */
  method Survivor(file: seq<byte>, i: nat, at: nat, replaceWith: map<nat, RecPos>, ghost p: Policy<Line>,
                  ghost parses: Line -> bool, ghost ls: seq<Line>)
    returns (line: seq<byte>, next: nat)
    requires i < |ls| && Encoded(ls, parses) && Bytes(ls) <= file && at == Front(ls, i) <= |file|
    ensures next == Front(ls, i + 1) <= |file|
    ensures Decided(ls, i, false, replaceWith, p) ==> line == Content(ls, i, p) + [NEWLINE]
  {
    line := ReadBytes(file, at);
    ReadIsLine(file, ls, i, line, parses);
    LineAt(ls, i);
    LineSits(file, ls, i);
    next := at + |line|;
    if i in replaceWith {
      var pos := replaceWith[i];
      if pos.off + pos.length <= |file| {
        line := file[pos.off..pos.off + pos.length];
      }
      if Decided(ls, i, false, replaceWith, p) { LineSits(file, ls, pos.idx); }
    }
  }

  method Rewrite(file: seq<byte>, n: nat, drop: array<bool>, replaceWith: map<nat, RecPos>, p: Policy<Line>,
                 parses: Line -> bool, ghost ls: seq<Line>)
    returns (out: seq<byte>)
    requires n == |ls| && Encoded(ls, parses) && Bytes(ls) <= file && Marked(ls, drop[..], replaceWith, {}, p)
    ensures out == Bytes(Compacted(ls, p))
  {
    out := [];
    var at := 0;
    for i := 0 to n
      invariant at == Front(ls, i) <= |file|
      invariant out == Bytes(KeptUpTo(ls, i, p))
    {
      var line, next := Survivor(file, i, at, replaceWith, p, parses, ls);
      at := next;
      assert MarkedAt(ls, i, drop[..][i], replaceWith, {}, p);
      WriteStep(ls, i, out, line, p);
      if !drop[i] { out := out + line; }
    }
  }

  /** How many records are dropped. */
  method CountDropped(drop: array<bool>, ghost replaceWith: map<nat, RecPos>, ghost p: Policy<Line>, ghost ls: seq<Line>)
    returns (dropped: nat)
    requires Marked(ls, drop[..], replaceWith, {}, p)
    ensures |Compacted(ls, p)| + dropped == |ls|
    ensures dropped == 0 ==> Compacted(ls, p) == ls
  {
    dropped := 0;
    for i := 0 to drop.Length
      invariant |KeptUpTo(ls, i, p)| + dropped == i
      invariant dropped == 0 ==> forall k :: 0 <= k < i ==> Keeps(ls, k, p)
    {
      assert MarkedAt(ls, i, drop[..][i], replaceWith, {}, p);
      if drop[i] { dropped := dropped + 1; }
    }
    if dropped == 0 { AllKept(ls, p); }
  }

  /** Rewrites the log: it ends up as exactly the surviving records, a torn tail gone; a log with
      nothing to drop is left alone. */
  method Compact(file: seq<byte>, parses: Line -> bool, p: Policy<Line>) returns (out: seq<byte>, res: Report)
    ensures out == Bytes(Compacted(Lines(file, parses), p))
    ensures res.beforeBytes == |file| && res.afterBytes == |out|
    ensures res.kept == |Compacted(Lines(file, parses), p)| && res.kept + res.dropped == |Lines(file, parses)|
  {
    ghost var ls := Lines(file, parses);
    LinesSpell(file, parses);
    var groups, n, validBytes := Survey(file, parses, p);
    var drop, replaceWith := Decide(groups, n, p, ls);
    var dropped := CountDropped(drop, replaceWith, p, ls);
    if dropped == 0 && validBytes == |file| {
      out := file;
      return out, Report(|file|, |file|, n, 0);
    }
    out := Rewrite(file, n, drop, replaceWith, p, parses, ls);
    res := Report(|file|, |out|, n - dropped, dropped);
  }
}

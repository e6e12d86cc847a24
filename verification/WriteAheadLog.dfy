/** The file log: many appenders share one disk sync, and a torn tail is cut off when the file is opened. */
module WriteAheadLog {
  import opened Numeric

  newtype byte = x: int | 0 <= x < 256

  const NEWLINE: byte := 10

  /** A record's line without its newline. */
  type Line = seq<byte>

  // ---- the file's bytes ----

  /** The file that holds these records and nothing else. */
  function Bytes(ls: seq<Line>): seq<byte> {
    if ls == [] then [] else ls[0] + [NEWLINE] + Bytes(ls[1..])
  }

  function EndOfLine(file: seq<byte>): (n: nat)
    ensures n <= |file| && (n < |file| ==> file[n] == NEWLINE)
    ensures forall i :: 0 <= i < n ==> file[i] != NEWLINE
  {
    if file == [] || file[0] == NEWLINE then 0 else 1 + EndOfLine(file[1..])
  }

  /** The records a reader finds: complete lines, up to the first that does not parse. */
  function Lines(file: seq<byte>, parses: Line -> bool): seq<Line>
    decreases |file|
  {
    var n := EndOfLine(file);
    if n < |file| && parses(file[..n]) then [file[..n]] + Lines(file[n + 1..], parses) else []
  }

  predicate Encoded(ls: seq<Line>, parses: Line -> bool) {
    forall i :: 0 <= i < |ls| ==> IsLine(ls[i], parses)
  }

  predicate IsLine(line: Line, parses: Line -> bool) { parses(line) && NEWLINE !in line }

  lemma {:induction false} BytesPlus(a: seq<Line>, b: seq<Line>)
    ensures Bytes(a + b) == Bytes(a) + Bytes(b)
  {
    if a == [] {
      assert a + b == b;
    } else {
      assert (a + b)[0] == a[0] && (a + b)[1..] == a[1..] + b;
      BytesPlus(a[1..], b);
    }
  }

  /** What a reader finds is what the front of the file spells out, and each of its lines is well formed. */
  lemma LinesSpell(file: seq<byte>, parses: Line -> bool)
    ensures Bytes(Lines(file, parses)) <= file
    ensures Encoded(Lines(file, parses), parses)
  {
    LinesFront(file, parses);
    LinesWhole(file, parses);
  }

  ghost predicate Spells(found: seq<Line>, file: seq<byte>) { Bytes(found) <= file }

  lemma {:induction false} LinesFront(file: seq<byte>, parses: Line -> bool)
    ensures Spells(Lines(file, parses), file)
    decreases |file|
  {
    var found := Lines(file, parses);
    var n := EndOfLine(file);
    if n < |file| && parses(file[..n]) {
      LinesFront(file[n + 1..], parses);
      SpellFirst(file, n, Lines(file[n + 1..], parses));
    } else {
      assert found == [];
    }
  }

  lemma {:induction false} LinesWhole(file: seq<byte>, parses: Line -> bool)
    ensures Encoded(Lines(file, parses), parses)
    decreases |file|
  {
    var n := EndOfLine(file);
    if n < |file| && parses(file[..n]) {
      LinesWhole(file[n + 1..], parses);
      assert IsLine(file[..n], parses);
    }
  }

  lemma SpellFirst(file: seq<byte>, n: nat, rest: seq<Line>)
    requires n < |file| && file[n] == NEWLINE && Spells(rest, file[n + 1..])
    ensures Spells([file[..n]] + rest, file)
  {
    assert ([file[..n]] + rest)[1..] == rest;
    assert file == file[..n] + [NEWLINE] + file[n + 1..];
  }

  lemma FirstLine(line: Line, rest: seq<byte>, parses: Line -> bool)
    requires IsLine(line, parses)
    ensures Lines(line + [NEWLINE] + rest, parses) == [line] + Lines(rest, parses)
  {
    var file := line + [NEWLINE] + rest;
    EndsAt(file, |line|);
    assert file[..|line|] == line && file[|line| + 1..] == rest;
  }

  lemma {:induction false} EndsAt(file: seq<byte>, n: nat)
    requires n <= |file| && (n < |file| ==> file[n] == NEWLINE) && NEWLINE !in file[..n]
    ensures EndOfLine(file) == n
  {
    var m := EndOfLine(file);
    assert forall i :: 0 <= i < n ==> file[i] == file[..n][i];
    if m < n {
      assert false;
    } else if n < m {
      assert false;
    }
  }

  /** How many bytes the first n records take. */
  function Front(ls: seq<Line>, n: nat): nat { |Bytes(ls[..Min(n, |ls|)])| }

  lemma FrontStep(ls: seq<Line>, n: nat)
    requires ls != [] && n > 0
    ensures Front(ls, n) == |ls[0]| + 1 + Front(ls[1..], n - 1)
  {
    assert ls[..Min(n, |ls|)][1..] == ls[1..][..Min(n - 1, |ls[1..]|)];
  }

  lemma FrontMono(ls: seq<Line>, m: nat, n: nat)
    requires m <= n
    ensures Front(ls, m) <= Front(ls, n) <= |Bytes(ls)|
  {
    var i, j := Min(m, |ls|), Min(n, |ls|);
    assert ls[..j] == ls[..i] + ls[i..j] && ls == ls[..j] + ls[j..];
    BytesPlus(ls[..i], ls[i..j]);
    BytesPlus(ls[..j], ls[j..]);
  }

  lemma FrontSame(ls: seq<Line>, longer: seq<Line>, n: nat)
    requires ls <= longer && n <= |ls|
    ensures Front(ls, n) == Front(longer, n)
  {
    assert ls[..n] == longer[..n];
  }

  /** A file cut at any byte still yields the records in order, and every record that ended before the
      cut; nothing else is made up. */
  lemma {:induction false} CutFile(ls: seq<Line>, cut: nat, parses: Line -> bool)
    requires Encoded(ls, parses) && cut <= |Bytes(ls)|
    ensures var found := Lines(Bytes(ls)[..cut], parses);
            && found <= ls
            && forall n :: 0 <= n <= |ls| && Front(ls, n) <= cut ==> n <= |found|
    decreases |ls|
  {
    var file := Bytes(ls)[..cut];
    if ls == [] {
    } else if |ls[0]| < cut {
      var left := cut - |ls[0]| - 1;
      assert file == ls[0] + [NEWLINE] + Bytes(ls[1..])[..left];
      FirstLine(ls[0], Bytes(ls[1..])[..left], parses);
      CutFile(ls[1..], left, parses);
      assert ls == [ls[0]] + ls[1..];
      forall n | 0 <= n <= |ls| && Front(ls, n) <= cut
        ensures n <= |Lines(file, parses)|
      {
        if n > 0 { FrontStep(ls, n); }
      }
    } else {
      CutInFirst(ls, cut, parses);
    }
  }

  lemma CutInFirst(ls: seq<Line>, cut: nat, parses: Line -> bool)
    requires Encoded(ls, parses) && ls != [] && cut <= |ls[0]|
    ensures cut <= |Bytes(ls)| && Lines(Bytes(ls)[..cut], parses) == []
    ensures forall n :: 0 < n ==> cut < Front(ls, n)
  {
    var file := Bytes(ls)[..cut];
    assert file == ls[0][..cut];
    EndsAt(file, cut);
    forall n | 0 < n
      ensures cut < Front(ls, n)
    {
      FrontStep(ls, n);
    }
  }

  // ---- opening and replaying the file ----

  /** What bufio's ReadBytes gives: up to and including the next newline, or what is left. */
  ghost predicate IsRead(file: seq<byte>, at: nat, line: seq<byte>)
    requires at <= |file|
  {
    var rest := file[at..];
    var n := EndOfLine(rest);
    line == if n < |rest| then rest[..n + 1] else rest
  }

  method ReadBytes(file: seq<byte>, at: nat) returns (line: seq<byte>)
    requires at <= |file|
    ensures IsRead(file, at, line)
  {
    var i := at;
    while i < |file| && file[i] != NEWLINE
      invariant at <= i <= |file|
      invariant forall k :: at <= k < i ==> file[k] != NEWLINE
    {
      i := i + 1;
    }
    EndsAt(file[at..], i - at);
    line := if i < |file| then file[at..i + 1] else file[at..];
  }

  ghost function LinesFrom(file: seq<byte>, at: nat, parses: Line -> bool): seq<Line>
    requires at <= |file|
  {
    Lines(file[at..], parses)
  }

  predicate Complete(line: seq<byte>) { line != [] && line[|line| - 1] == NEWLINE }

  function Body(line: seq<byte>): Line
    requires Complete(line)
  {
    line[..|line| - 1]
  }

  lemma NextLine(file: seq<byte>, at: nat, line: seq<byte>, parses: Line -> bool)
    requires at <= |file| && IsRead(file, at, line)
    ensures at + |line| <= |file|
    ensures if Complete(line) && parses(Body(line))
            then LinesFrom(file, at, parses) == [Body(line)] + LinesFrom(file, at + |line|, parses)
                 && Bytes([Body(line)]) == file[at..at + |line|]
            else LinesFrom(file, at, parses) == []
  {
    var rest := file[at..];
    var n := EndOfLine(rest);
    if n < |rest| {
      assert line[..n] == rest[..n];
      assert rest[n + 1..] == file[at + n + 1..];
      assert Bytes([rest[..n]]) == rest[..n] + [NEWLINE] + Bytes([]);
      assert rest[..n] + [NEWLINE] == file[at..at + n + 1];
    }
  }

  /** The reader stands at `at` and has found `seen` before it. */
  ghost predicate Found(file: seq<byte>, at: nat, seen: seq<Line>, parses: Line -> bool) {
    at <= |file| && Lines(file, parses) == seen + LinesFrom(file, at, parses)
  }

  ghost predicate Spelt(file: seq<byte>, at: nat, seen: seq<Line>) {
    at <= |file| && file[..at] == Bytes(seen)
  }

  lemma FoundNone(file: seq<byte>, parses: Line -> bool)
    ensures Found(file, 0, [], parses)
  {
    assert file[0..] == file;
  }

  lemma FoundStep(file: seq<byte>, at: nat, line: seq<byte>, seen: seq<Line>, parses: Line -> bool)
    requires Found(file, at, seen, parses) && IsRead(file, at, line)
    ensures if Complete(line) && parses(Body(line))
            then Found(file, at + |line|, seen + [Body(line)], parses)
            else Lines(file, parses) == seen
  {
    NextLine(file, at, line, parses);
    if Complete(line) && parses(Body(line)) {
      JoinLine(seen, Body(line), LinesFrom(file, at + |line|, parses));
    }
  }

  lemma JoinLine(seen: seq<Line>, line: Line, rest: seq<Line>)
    ensures seen + ([line] + rest) == (seen + [line]) + rest
  {
  }

  lemma SpeltStep(file: seq<byte>, at: nat, line: seq<byte>, seen: seq<Line>)
    requires Spelt(file, at, seen) && IsRead(file, at, line) && Complete(line)
    ensures Spelt(file, at + |line|, seen + [Body(line)])
  {
    NextLine(file, at, line, _ => true);
    BytesPlus(seen, [Body(line)]);
    var next := at + |line|;
    assert file[..next] == file[..at] + file[at..next];
  }

  /** The length of the whole records at the front of the file; the rest is cut off. */
  method ValidLength(file: seq<byte>, parses: Line -> bool) returns (good: nat)
    ensures good <= |file| && file[..good] == Bytes(Lines(file, parses))
  {
    good := 0;
    ghost var seen: seq<Line> := [];
    FoundNone(file, parses);
    while true
      invariant Found(file, good, seen, parses) && Spelt(file, good, seen)
      decreases |file| - good
    {
      var line := ReadBytes(file, good);
      FoundStep(file, good, line, seen, parses);
      if !Complete(line) || !parses(Body(line)) { return; }
      SpeltStep(file, good, line, seen);
      seen := seen + [Body(line)];
      good := good + |line|;
    }
  }

  /** Hands every record to the restore, oldest first. */
  method Replay(file: seq<byte>, parses: Line -> bool) returns (out: seq<Line>)
    ensures out == Lines(file, parses)
  {
    out := [];
    var at := 0;
    FoundNone(file, parses);
    while true
      invariant Found(file, at, out, parses)
      decreases |file| - at
    {
      var line := ReadBytes(file, at);
      FoundStep(file, at, line, out, parses);
      if !Complete(line) { return; }
      if !parses(Body(line)) { return; }
      out := out + [Body(line)];
      at := at + |line|;
    }
  }

  /** Opening asks for a kind as well, replay does not: after opening has cut the file, both see the
      same records, and opening it again cuts nothing. */
  lemma ReplaySeesWhatOpenKept(file: seq<byte>, parses: Line -> bool, hasKind: Line -> bool)
    ensures var both := (l: Line) => parses(l) && hasKind(l);
            var kept := Bytes(Lines(file, both));
            Lines(kept, parses) == Lines(kept, both) == Lines(file, both)
  {
    var both := (l: Line) => parses(l) && hasKind(l);
    var ls := Lines(file, both);
    LinesSpell(file, both);
    assert Bytes(ls)[..|Bytes(ls)|] == Bytes(ls) && Front(ls, |ls|) == |Bytes(ls)| by { assert ls[..|ls|] == ls; }
    CutFile(ls, |Bytes(ls)|, parses);
    CutFile(ls, |Bytes(ls)|, both);
  }

  // ---- concurrent appends ----

  /** Where a call of Append stands. Its record is number `mine` since the file was opened. */
  datatype Thread =
    | Awake(line: Line, mine: nat)                            // has, or is about to get, the mutex
    | Waiting(line: Line, mine: nat)                          // asleep on the condition variable
    | Syncing(line: Line, mine: nat, upTo: nat, flushed: bool) // runs the disk sync, without the mutex
    | Acked(line: Line, mine: nat)                            // returned nil
    | Failed                                                  // returned an error

  datatype Log = Log(
    stream: seq<Line>,  // every line given to the writer, after those found when the file was opened
    base: nat,          // how many were found
    pending: nat,
    synced: nat,
    syncing: bool,
    broken: bool,
    open: bool,
    threads: map<nat, Thread>,
    onFile: nat,        // bytes the operating system has
    onDisk: nat,        // bytes that survive a crash
    acked: nat)         // length of the shortest front of `stream` with every acknowledged record

  datatype Event =
    | Write(who: nat, line: Line, spilled: nat)  // the buffer passes on what it must
    | Refuse(who: nat)
    | WriteError(who: nat, line: Line, spilled: nat)
    | Check(who: nat, flushed: bool, spilled: nat)
    | Synced(who: nat, ok: bool)
    | Close(spilled: nat)
    | Crash(cut: nat, onDisk: nat)

  /** cond.Broadcast. */
  function Wake(ts: map<nat, Thread>): map<nat, Thread> {
    map t | t in ts :: if ts[t].Waiting? then Awake(ts[t].line, ts[t].mine) else ts[t]
  }

  /** The loop's head: return, fail, sleep or start a sync. */
  function AtCheck(l: Log, t: Thread, flushed: bool): Thread
    requires t.Awake?
  {
    if l.synced >= t.mine then Acked(t.line, t.mine)
    else if l.broken then Failed
    else if l.syncing then Waiting(t.line, t.mine)
    else Syncing(t.line, t.mine, l.pending, flushed)
  }

  ghost predicate Next(l: Log, e: Event, n: Log, parses: Line -> bool) {
    match e
    case Write(who, line, spilled) =>
      && who !in l.threads && l.open && !l.broken && IsLine(line, parses)
      && l.onFile <= spilled <= |Bytes(l.stream + [line])|
      && n == l.(stream := l.stream + [line], pending := l.pending + 1, onFile := spilled,
                 threads := l.threads[who := Awake(line, l.pending + 1)])
    case Refuse(who) =>
      who !in l.threads && (!l.open || l.broken) && n == l.(threads := l.threads[who := Failed])
    case WriteError(who, line, spilled) =>
      && who !in l.threads && l.open && !l.broken && IsLine(line, parses)
      && l.onFile <= spilled <= |Bytes(l.stream + [line])|
      && n == l.(stream := l.stream + [line], broken := true, onFile := spilled,
                 threads := Wake(l.threads)[who := Failed])
    case Check(who, flushed, spilled) =>
      && who in l.threads && l.threads[who].Awake?
      && l.onFile <= spilled <= |Bytes(l.stream)|
      && (var t := AtCheck(l, l.threads[who], flushed);
          && (t.Syncing? && flushed ==> spilled == |Bytes(l.stream)|)
          && n == l.(threads := l.threads[who := t],
                     syncing := l.syncing || t.Syncing?,
                     onFile := if t.Syncing? then spilled else l.onFile,
                     acked := if t.Acked? && l.base + t.mine > l.acked then l.base + t.mine else l.acked))
    case Synced(who, ok) =>
      && who in l.threads && l.threads[who].Syncing?
      && (ok ==> l.open && l.threads[who].flushed)
      && (var t := l.threads[who];
          n == l.(syncing := false, broken := l.broken || !ok,
                  synced := if ok && t.upTo > l.synced then t.upTo else l.synced,
                  onDisk := if ok then Max(l.onDisk, Front(l.stream, l.base + t.upTo)) else l.onDisk,
                  threads := Wake(l.threads)[who := Awake(t.line, t.mine)]))
    case Close(spilled) =>
      && !l.syncing && l.open && l.onFile <= spilled <= |Bytes(l.stream)|
      && n == l.(open := false, onFile := spilled, threads := Wake(l.threads))
    case Crash(cut, onDisk) =>
      && l.onDisk <= cut <= |Bytes(l.stream)|
      && (var found := Lines(Bytes(l.stream)[..cut], parses);
          && Front(l.stream, l.acked) <= onDisk <= |Bytes(found)|
          && n == Log(found, |found|, 0, 0, false, false, true, map[], |Bytes(found)|, onDisk, l.acked))
  }

  /** A record number handed out to a call, and the record it stands for. */
  ghost predicate Owns(l: Log, t: Thread) {
    !t.Failed? ==> 1 <= t.mine <= l.pending && l.base + t.mine <= |l.stream| && l.stream[l.base + t.mine - 1] == t.line
  }

  ghost predicate ThreadFine(l: Log, t: Thread) {
    && Owns(l, t)
    && (t.Waiting? ==> l.syncing)
    && (t.Acked? ==> l.base + t.mine <= l.acked)
    && (t.Syncing? ==> l.syncing && l.synced < t.mine <= t.upTo <= l.pending
                       && (t.flushed ==> Front(l.stream, l.base + t.upTo) <= l.onFile))
  }

  ghost predicate Counts(l: Log) {
    && l.synced <= l.pending
    && l.base + l.pending <= |l.stream|
    && (!l.broken ==> l.base + l.pending == |l.stream|)
    && l.acked <= l.base + l.synced
  }

  ghost predicate Safe(l: Log) {
    && Front(l.stream, l.acked) <= l.onDisk <= l.onFile <= |Bytes(l.stream)|
    && (l.synced > 0 ==> Front(l.stream, l.base + l.synced) <= l.onDisk)
  }

  predicate IsSyncing(l: Log, t: nat) { t in l.threads && l.threads[t].Syncing? }

  ghost predicate Base(l: Log, parses: Line -> bool) { Counts(l) && Safe(l) && Encoded(l.stream, parses) }

  ghost predicate Threads(l: Log) {
    && (forall t :: t in l.threads ==> ThreadFine(l, l.threads[t]))
    && (l.syncing ==> exists t :: IsSyncing(l, t))
    && (forall t, u :: IsSyncing(l, t) && IsSyncing(l, u) ==> t == u)
  }

  ghost predicate Inv(l: Log, parses: Line -> bool) { Base(l, parses) && Threads(l) }

  // ---- every step keeps the invariant ----

  lemma ThreadGrows(l: Log, n: Log, t: Thread)
    requires ThreadFine(l, t) && l.stream <= n.stream && l.base == n.base && l.pending <= n.pending
    requires l.base + l.pending <= |l.stream| && l.onFile <= n.onFile && l.acked <= n.acked
    requires l.syncing == n.syncing && l.synced == n.synced
    ensures ThreadFine(n, t)
    ensures t.Waiting? ==> ThreadFine(n, Awake(t.line, t.mine))
  {
    if t.Syncing? { FrontSame(l.stream, n.stream, l.base + t.upTo); }
  }

  lemma WroteThreads(l: Log, who: nat, line: Line, spilled: nat, n: Log, parses: Line -> bool)
    requires Inv(l, parses)
    requires Next(l, Write(who, line, spilled), n, parses) || Next(l, WriteError(who, line, spilled), n, parses)
    ensures Threads(n)
  {
    forall t | t in n.threads
      ensures ThreadFine(n, n.threads[t])
    {
      if t != who { ThreadGrows(l, n, l.threads[t]); }
    }
    assert forall t :: IsSyncing(n, t) <==> IsSyncing(l, t);
  }

  lemma WroteBase(l: Log, who: nat, line: Line, spilled: nat, n: Log, parses: Line -> bool)
    requires Base(l, parses)
    requires Next(l, Write(who, line, spilled), n, parses) || Next(l, WriteError(who, line, spilled), n, parses)
    ensures Base(n, parses)
  {
    BytesPlus(l.stream, [line]);
    FrontSame(l.stream, n.stream, l.acked);
    FrontSame(l.stream, n.stream, l.base + l.synced);
  }

  /** Steps that change one thread and no byte. */
  lemma OneThread(l: Log, who: nat, t: Thread, n: Log)
    requires Threads(l) && !IsSyncing(l, who)
    requires l.acked <= n.acked && l.onFile <= n.onFile && (n.syncing <==> l.syncing || t.Syncing?)
    requires n == l.(threads := l.threads[who := t], syncing := n.syncing, onFile := n.onFile, acked := n.acked)
    requires ThreadFine(n, t) && (t.Syncing? ==> !l.syncing)
    ensures Threads(n)
  {
    forall u | u in n.threads
      ensures ThreadFine(n, n.threads[u])
      ensures IsSyncing(n, u) ==> (u == who && t.Syncing?) || (u != who && IsSyncing(l, u) && l.syncing)
    {
      if u != who { assert ThreadFine(l, l.threads[u]); }
    }
    if l.syncing {
      var u :| IsSyncing(l, u);
      assert IsSyncing(n, u);
    } else if n.syncing {
      assert IsSyncing(n, who);
    }
  }

  lemma StartFine(l: Log, who: nat, flushed: bool, spilled: nat, n: Log, parses: Line -> bool)
    requires Inv(l, parses) && Next(l, Check(who, flushed, spilled), n, parses) && n.threads[who].Syncing?
    ensures ThreadFine(n, n.threads[who])
  {
    assert ThreadFine(l, l.threads[who]);
    FrontMono(l.stream, l.base + l.pending, l.base + l.pending);
  }

  lemma AckBase(l: Log, who: nat, flushed: bool, spilled: nat, n: Log, parses: Line -> bool)
    requires Base(l, parses) && Next(l, Check(who, flushed, spilled), n, parses) && ThreadFine(l, l.threads[who])
    ensures Base(n, parses)
  {
    var t := l.threads[who];
    if t.mine <= l.synced {
      FrontMono(l.stream, l.base + t.mine, l.base + l.synced);
    }
  }

  lemma CheckKeeps(l: Log, who: nat, flushed: bool, spilled: nat, n: Log, parses: Line -> bool)
    requires Inv(l, parses) && Next(l, Check(who, flushed, spilled), n, parses)
    ensures Inv(n, parses)
  {
    var t := AtCheck(l, l.threads[who], flushed);
    assert ThreadFine(l, l.threads[who]);
    if t.Syncing? { StartFine(l, who, flushed, spilled, n, parses); }
    OneThread(l, who, t, n);
    AckBase(l, who, flushed, spilled, n, parses);
  }

  lemma SyncedThreads(l: Log, who: nat, ok: bool, n: Log, parses: Line -> bool)
    requires Inv(l, parses) && Next(l, Synced(who, ok), n, parses)
    ensures Threads(n)
  {
    assert IsSyncing(l, who);
    forall t | t in n.threads
      ensures ThreadFine(n, n.threads[t]) && !IsSyncing(n, t)
    {
      assert ThreadFine(l, l.threads[t]);
      assert t != who ==> !IsSyncing(l, t);
    }
  }

  lemma SyncedBase(l: Log, who: nat, ok: bool, n: Log, parses: Line -> bool)
    requires Base(l, parses) && Next(l, Synced(who, ok), n, parses) && ThreadFine(l, l.threads[who])
    ensures Base(n, parses)
  {
    FrontMono(l.stream, l.base + l.threads[who].upTo, l.base + l.threads[who].upTo);
  }

  lemma CrashKeeps(l: Log, cut: nat, onDisk: nat, n: Log, parses: Line -> bool)
    requires Inv(l, parses) && Next(l, Crash(cut, onDisk), n, parses)
    ensures Inv(n, parses)
    ensures n.stream <= l.stream && l.acked <= |n.stream|
  {
    CutFile(l.stream, cut, parses);
    FrontMono(l.stream, l.acked, l.acked);
    FrontSame(n.stream, l.stream, l.acked);
  }

  lemma CloseThreads(l: Log, spilled: nat, n: Log, parses: Line -> bool)
    requires Threads(l) && Next(l, Close(spilled), n, parses)
    ensures Threads(n)
  {
    forall t | t in n.threads
      ensures ThreadFine(n, n.threads[t]) && !IsSyncing(n, t)
    {
      assert ThreadFine(l, l.threads[t]);
    }
  }

  lemma WroteKeeps(l: Log, who: nat, line: Line, spilled: nat, n: Log, parses: Line -> bool)
    requires Inv(l, parses)
    requires Next(l, Write(who, line, spilled), n, parses) || Next(l, WriteError(who, line, spilled), n, parses)
    ensures Inv(n, parses)
  {
    WroteThreads(l, who, line, spilled, n, parses);
    WroteBase(l, who, line, spilled, n, parses);
  }

  lemma SyncedKeeps(l: Log, who: nat, ok: bool, n: Log, parses: Line -> bool)
    requires Inv(l, parses) && Next(l, Synced(who, ok), n, parses)
    ensures Inv(n, parses)
  {
    SyncedThreads(l, who, ok, n, parses);
    SyncedBase(l, who, ok, n, parses);
  }

  lemma NextKeeps(l: Log, e: Event, n: Log, parses: Line -> bool)
    requires Inv(l, parses) && Next(l, e, n, parses)
    ensures Inv(n, parses)
  {
    match e
    case Write(who, line, spilled) => WroteKeeps(l, who, line, spilled, n, parses);
    case WriteError(who, line, spilled) => WroteKeeps(l, who, line, spilled, n, parses);
    case Refuse(who) => OneThread(l, who, Failed, n);
    case Check(who, flushed, spilled) => CheckKeeps(l, who, flushed, spilled, n, parses);
    case Synced(who, ok) => SyncedKeeps(l, who, ok, n, parses);
    case Close(spilled) => CloseThreads(l, spilled, n, parses);
    case Crash(cut, onDisk) => CrashKeeps(l, cut, onDisk, n, parses);
  }

  /** Whatever happens, the acknowledged records stay where they are. */
  lemma AckedKept(l: Log, e: Event, n: Log, parses: Line -> bool)
    requires Inv(l, parses) && Next(l, e, n, parses)
    ensures l.acked <= n.acked && SameFront(l.stream, n.stream, l.acked)
  {
    if e.Crash? { CrashKeeps(l, e.cut, e.onDisk, n, parses); }
  }

  ghost predicate SameFront(a: seq<Line>, b: seq<Line>, n: nat) {
    n <= |a| && n <= |b| && forall i :: 0 <= i < n ==> a[i] == b[i]
  }

  // ---- whole runs ----

  /** A log just opened on a file of whole records. */
  ghost predicate Opened(l: Log, parses: Line -> bool) {
    && Encoded(l.stream, parses) && l.onDisk <= |Bytes(l.stream)|
    && l == Log(l.stream, |l.stream|, 0, 0, false, false, true, map[], |Bytes(l.stream)|, l.onDisk, 0)
  }

  ghost predicate Behaviour(run: seq<Log>, events: seq<Event>, parses: Line -> bool) {
    && |run| == |events| + 1 && Opened(run[0], parses)
    && forall i :: 0 <= i < |events| ==> Next(run[i], events[i], run[i + 1], parses)
  }

  lemma {:induction false} AlwaysFine(run: seq<Log>, events: seq<Event>, parses: Line -> bool, i: nat)
    requires Behaviour(run, events, parses) && i < |run|
    ensures Inv(run[i], parses)
  {
    if i > 0 {
      AlwaysFine(run, events, parses, i - 1);
      NextKeeps(run[i - 1], events[i - 1], run[i], parses);
    }
  }

  lemma {:induction false} AckedStays(run: seq<Log>, events: seq<Event>, parses: Line -> bool, i: nat, j: nat)
    requires Behaviour(run, events, parses) && i <= j < |run|
    ensures run[i].acked <= run[j].acked && SameFront(run[i].stream, run[j].stream, run[i].acked)
    decreases j
  {
    AlwaysFine(run, events, parses, j);
    if i < j {
      AckedStays(run, events, parses, i, j - 1);
      AlwaysFine(run, events, parses, j - 1);
      AckedKept(run[j - 1], events[j - 1], run[j], parses);
    }
  }

  /** When Append returns nil its record is in the synced part of the file, and whatever happens later,
      crashes included, reading any file the disk may then hold gives the record back, in its place. */
  lemma AcknowledgedSurvives(run: seq<Log>, events: seq<Event>, parses: Line -> bool, i: nat, who: nat, j: nat, cut: nat)
    requires Behaviour(run, events, parses) && i <= j < |run|
    requires who in run[i].threads && run[i].threads[who].Acked?
    requires run[j].onDisk <= cut <= |Bytes(run[j].stream)|
    ensures var at := run[i].base + run[i].threads[who].mine - 1;
            && Front(run[i].stream, at + 1) <= run[i].onDisk
            && (var found := Lines(Bytes(run[j].stream)[..cut], parses);
                found <= run[j].stream && 0 <= at < |found| && found[at] == run[i].threads[who].line)
  {
    var l, m := run[i], run[j];
    var at := l.base + l.threads[who].mine - 1;
    AlwaysFine(run, events, parses, i);
    AlwaysFine(run, events, parses, j);
    AckedStays(run, events, parses, i, j);
    assert ThreadFine(l, l.threads[who]);
    FrontMono(l.stream, at + 1, l.acked);
    CutFile(m.stream, cut, parses);
    FrontMono(m.stream, at + 1, m.acked);
  }

  /** At most one sync runs, nobody sleeps unless one does, and as long as any call is unfinished some
      step can be taken. */
  lemma NobodyIsStranded(run: seq<Log>, events: seq<Event>, parses: Line -> bool, i: nat, who: nat)
    requires Behaviour(run, events, parses) && i < |run|
    requires who in run[i].threads && !run[i].threads[who].Acked? && !run[i].threads[who].Failed?
    ensures forall t, u :: IsSyncing(run[i], t) && IsSyncing(run[i], u) ==> t == u
    ensures run[i].threads[who].Waiting? ==> exists t :: IsSyncing(run[i], t)
    ensures exists e: Event, n :: (e.Check? || e.Synced?) && Next(run[i], e, n, parses)
  {
    var l := run[i];
    AlwaysFine(run, events, parses, i);
    assert ThreadFine(l, l.threads[who]);
    if l.threads[who].Awake? {
      CanCheck(l, who, parses);
    } else {
      var t :| IsSyncing(l, t);
      CanFinish(l, t, parses);
    }
  }

  /** What each step leaves. A write appends the record under the next number; a failed one breaks the log and fails the
      call. A sync takes on everything written so far, and a successful flush has handed all of it over. A successful
      sync makes it safe, a failed one breaks the log and makes nothing safe. Closing closes, and after a crash the
      reopened log takes calls. Nobody sleeps through a failure, a sync's end or a close. */
  lemma StepsMean(l: Log, e: Event, n: Log, parses: Line -> bool)
    requires Inv(l, parses) && Next(l, e, n, parses)
    ensures e.Write? ==>
              && n == l.(stream := l.stream + [e.line], pending := n.pending, onFile := e.spilled, threads := l.threads[e.who := n.threads[e.who]])
              && n.threads[e.who] == Awake(e.line, n.pending) && n.base + n.pending == |n.stream|
    ensures e.WriteError? ==> n.broken && n.stream == l.stream + [e.line] && n.onFile == e.spilled && n.threads[e.who].Failed? && n.synced == l.synced
    ensures e.Check? ==> n.stream == l.stream && n.onDisk == l.onDisk
    ensures e.Check? && n.threads[e.who].Syncing? ==>
              n.syncing && n.threads[e.who].upTo == l.pending && n.onFile == e.spilled && (e.flushed ==> n.onFile == |Bytes(n.stream)|)
    ensures e.Synced? ==> !n.syncing && n.stream == l.stream
    ensures e.Synced? && e.ok ==> Front(l.stream, l.base + l.threads[e.who].upTo) <= n.onDisk && n.synced >= l.threads[e.who].upTo
    ensures e.Synced? && !e.ok ==> n.broken && n.onDisk == l.onDisk && n.synced == l.synced
    ensures e.Close? ==> !n.open && n.onFile == e.spilled && n.stream == l.stream
    ensures e.Crash? ==> n.open && !n.broken && !n.syncing && n.threads == map[] && n.base == |n.stream| && n.onFile == |Bytes(n.stream)|
    ensures e.WriteError? || e.Synced? || e.Close? ==> forall t :: t in n.threads ==> !n.threads[t].Waiting?
  {
    if e.Close? { assert forall t :: t in l.threads ==> ThreadFine(l, l.threads[t]); }
  }

  /** Nothing is assumed of callers and machine: a new call is taken, however much the buffer passes on and even if its
      write fails, exactly while the log is open and unbroken, and refused otherwise; a flush may fail after any part; the
      log can be closed while no sync runs; and a crash may leave any front of the written bytes that has all that is safe. */
  lemma AnythingCanHappen(run: seq<Log>, events: seq<Event>, parses: Line -> bool, i: nat, who: nat, line: Line, bytes: nat)
    requires Behaviour(run, events, parses) && i < |run|
    ensures who !in run[i].threads && IsLine(line, parses) && run[i].onFile <= bytes <= |Bytes(run[i].stream + [line])| ==>
              && (run[i].open && !run[i].broken <==> exists n :: Next(run[i], Write(who, line, bytes), n, parses))
              && (run[i].open && !run[i].broken <==> exists n :: Next(run[i], WriteError(who, line, bytes), n, parses))
              && (!run[i].open || run[i].broken <==> exists n :: Next(run[i], Refuse(who), n, parses))
    ensures who in run[i].threads && run[i].threads[who].Awake? && run[i].onFile <= bytes <= |Bytes(run[i].stream)| ==>
              exists n :: Next(run[i], Check(who, false, bytes), n, parses)
    ensures run[i].onFile <= bytes <= |Bytes(run[i].stream)| ==>
              (run[i].open && !run[i].syncing <==> exists n :: Next(run[i], Close(bytes), n, parses))
    ensures run[i].onDisk <= bytes <= |Bytes(run[i].stream)| ==>
              exists onDisk, n :: Next(run[i], Crash(bytes, onDisk), n, parses)
  {
    var l := run[i];
    AlwaysFine(run, events, parses, i);
    if who !in l.threads && IsLine(line, parses) && l.onFile <= bytes <= |Bytes(l.stream + [line])| { CanCall(l, who, line, bytes, parses); }
    if who in l.threads && l.threads[who].Awake? && l.onFile <= bytes <= |Bytes(l.stream)| { CanFailFlush(l, who, bytes, parses); }
    if l.open && !l.syncing && l.onFile <= bytes <= |Bytes(l.stream)| {
      assert Next(l, Close(bytes), l.(open := false, onFile := bytes, threads := Wake(l.threads)), parses);
    }
    if l.onDisk <= bytes <= |Bytes(l.stream)| { CanCrash(l, bytes, parses); }
  }

  lemma CanCall(l: Log, who: nat, line: Line, bytes: nat, parses: Line -> bool)
    requires who !in l.threads && IsLine(line, parses) && l.onFile <= bytes <= |Bytes(l.stream + [line])|
    ensures l.open && !l.broken <==> exists n :: Next(l, Write(who, line, bytes), n, parses)
    ensures l.open && !l.broken <==> exists n :: Next(l, WriteError(who, line, bytes), n, parses)
    ensures !l.open || l.broken <==> exists n :: Next(l, Refuse(who), n, parses)
  {
    if l.open && !l.broken {
      var n := l.(stream := l.stream + [line], pending := l.pending + 1, onFile := bytes,
                  threads := l.threads[who := Awake(line, l.pending + 1)]);
      assert Next(l, Write(who, line, bytes), n, parses);
      var m := l.(stream := l.stream + [line], broken := true, onFile := bytes, threads := Wake(l.threads)[who := Failed]);
      assert Next(l, WriteError(who, line, bytes), m, parses);
    } else {
      assert Next(l, Refuse(who), l.(threads := l.threads[who := Failed]), parses);
    }
  }

  lemma CanFailFlush(l: Log, who: nat, bytes: nat, parses: Line -> bool)
    requires who in l.threads && l.threads[who].Awake? && l.onFile <= bytes <= |Bytes(l.stream)|
    ensures exists n :: Next(l, Check(who, false, bytes), n, parses)
  {
    var t := AtCheck(l, l.threads[who], false);
    var n := l.(threads := l.threads[who := t],
                syncing := l.syncing || t.Syncing?,
                onFile := if t.Syncing? then bytes else l.onFile,
                acked := if t.Acked? && l.base + t.mine > l.acked then l.base + t.mine else l.acked);
    assert Next(l, Check(who, false, bytes), n, parses);
  }

  lemma CanCrash(l: Log, cut: nat, parses: Line -> bool)
    requires Inv(l, parses) && l.onDisk <= cut <= |Bytes(l.stream)|
    ensures exists onDisk, n :: Next(l, Crash(cut, onDisk), n, parses)
  {
    var found := Lines(Bytes(l.stream)[..cut], parses);
    CutFile(l.stream, cut, parses);
    FrontMono(found, l.acked, l.acked);
    FrontSame(found, l.stream, l.acked);
    var onDisk := Front(l.stream, l.acked);
    var n := Log(found, |found|, 0, 0, false, false, true, map[], |Bytes(found)|, onDisk, l.acked);
    assert Next(l, Crash(cut, onDisk), n, parses);
  }

  lemma CanCheck(l: Log, who: nat, parses: Line -> bool)
    requires Inv(l, parses) && who in l.threads && l.threads[who].Awake?
    ensures exists e: Event, n :: e.Check? && Next(l, e, n, parses)
  {
    var t := AtCheck(l, l.threads[who], true);
    var spilled := |Bytes(l.stream)|;
    var n := l.(threads := l.threads[who := t],
                syncing := l.syncing || t.Syncing?,
                onFile := if t.Syncing? then spilled else l.onFile,
                acked := if t.Acked? && l.base + t.mine > l.acked then l.base + t.mine else l.acked);
    assert Next(l, Check(who, true, spilled), n, parses);
  }

  lemma CanFinish(l: Log, who: nat, parses: Line -> bool)
    requires Inv(l, parses) && who in l.threads && l.threads[who].Syncing?
    ensures exists e: Event, n :: e.Synced? && Next(l, e, n, parses)
  {
    var t := l.threads[who];
    var n := l.(syncing := false, broken := true,
                threads := Wake(l.threads)[who := Awake(t.line, t.mine)]);
    assert Next(l, Synced(who, false), n, parses);
  }

  /** One finished sync settles every call whose record it covered, the one that ran it included: its
      next look at the log returns. So no call ever runs two syncs. */
  lemma SyncSettles(l: Log, who: nat, ok: bool, m: Log, other: nat, flushed: bool, spilled: nat, n: Log, parses: Line -> bool)
    requires Inv(l, parses) && Next(l, Synced(who, ok), m, parses)
    requires Next(m, Check(other, flushed, spilled), n, parses)
    requires m.threads[other].mine <= l.threads[who].upTo || !ok
    ensures other == who ==> m.threads[other].mine <= l.threads[who].upTo
    ensures !n.syncing
    ensures n.threads[other].Acked? || n.threads[other].Failed?
    ensures ok ==> n.threads[other].Acked?
    ensures !ok && n.threads[other].Acked? ==> m.threads[other].mine <= l.synced
  {
    assert ThreadFine(l, l.threads[who]);
  }

  /** Once a sync has failed, or after closing, no later call is acknowledged. */
  lemma {:induction false} NothingAfterBroken(run: seq<Log>, events: seq<Event>, parses: Line -> bool, i: nat, j: nat, who: nat)
    requires Behaviour(run, events, parses) && i <= j < |run|
    requires run[i].broken || !run[i].open
    requires forall k :: i <= k < j ==> !events[k].Crash?
    requires who !in run[i].threads
    ensures run[j].broken || !run[j].open
    ensures who in run[j].threads ==> run[j].threads[who] == Failed
    decreases j
  {
    if i < j {
      NothingAfterBroken(run, events, parses, i, j - 1, who);
    }
  }
}

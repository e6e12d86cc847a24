/** The event clock: a schedule of blocks that the organiser can pause, compress, jump about in and
    stretch, and that announces every block once. Times and lengths are nanoseconds. */
module EventClock {
  import opened Numeric

  const MIN_BLOCK := 60_000_000_000
  const MAX_BLOCK := 366 * 24 * 60 * MIN_BLOCK

  datatype Error = NotStarted | AlreadyStarted | NotPaused | AlreadyPaused | UnknownBlock | NotLater | BadLength | BlockInPast | AlreadyRun

  datatype Reply = Ok | Recovered(absorbed: int, overrun: int) | Failed(error: Error)

  /** `last` is the highest block announced. */
  datatype State = State(started: bool, startedAt: int, offset: int, paused: bool, pausedAt: int,
                         durations: seq<int>, ids: seq<string>, last: int)

  datatype Position = Before | At(index: nat, elapsed: int, into: int, remaining: int) | Ended(elapsed: int)

  // ---- the schedule ----

  /** When block i starts. */
  function StartOf(ds: seq<int>, i: nat): int
    requires i <= |ds|
  {
    if i == 0 then 0 else StartOf(ds, i - 1) + ds[i - 1]
  }

  function Total(ds: seq<int>): int { StartOf(ds, |ds|) }

  predicate Positive(ds: seq<int>) { forall i :: 0 <= i < |ds| ==> ds[i] > 0 }

  /** The block that is on at this elapsed time; the number of blocks once all are over. */
  ghost predicate IsIndex(ds: seq<int>, elapsed: int, i: nat) {
    && i <= |ds|
    && (forall k :: 0 < k <= i ==> Max(elapsed, 0) >= StartOf(ds, k))
    && (i < |ds| ==> Max(elapsed, 0) < StartOf(ds, i + 1))
  }

  function IndexFrom(ds: seq<int>, elapsed: int, i: nat): nat
    requires i <= |ds|
    decreases |ds| - i
  {
    if i == |ds| || elapsed < StartOf(ds, i + 1) then i else IndexFrom(ds, elapsed, i + 1)
  }

  function IndexOf(ds: seq<int>, elapsed: int): nat { IndexFrom(ds, Max(elapsed, 0), 0) }

  lemma {:induction false} IndexFromIs(ds: seq<int>, elapsed: int, i: nat)
    requires i <= |ds| && forall k :: 0 < k <= i ==> Max(elapsed, 0) >= StartOf(ds, k)
    ensures IsIndex(ds, elapsed, IndexFrom(ds, Max(elapsed, 0), i))
    decreases |ds| - i
  {
    if i < |ds| && Max(elapsed, 0) >= StartOf(ds, i + 1) { IndexFromIs(ds, elapsed, i + 1); }
  }

  lemma IndexIs(ds: seq<int>, elapsed: int)
    ensures IsIndex(ds, elapsed, IndexOf(ds, elapsed))
  {
    IndexFromIs(ds, elapsed, 0);
  }

  lemma IndexUnique(ds: seq<int>, elapsed: int, i: nat, j: nat)
    requires IsIndex(ds, elapsed, i) && IsIndex(ds, elapsed, j)
    ensures i == j
  {
  }

  lemma {:induction false} StartsGrow(ds: seq<int>, i: nat, j: nat)
    requires Positive(ds) && i <= j <= |ds|
    ensures StartOf(ds, j) - StartOf(ds, i) >= j - i
    decreases j
  {
    if i < j { StartsGrow(ds, i, j - 1); }
  }

  /** At the very moment a block starts it is the block that is on, and at the end of the schedule all are
      over: the two computations are each other's inverse. */
  lemma IndexOfStart(ds: seq<int>, i: nat)
    requires Positive(ds) && i <= |ds|
    ensures IndexOf(ds, StartOf(ds, i)) == i
  {
    StartsGrow(ds, 0, i);
    forall k | 0 < k <= i
      ensures StartOf(ds, i) >= StartOf(ds, k)
    {
      StartsGrow(ds, k, i);
    }
    IndexIs(ds, StartOf(ds, i));
    IndexUnique(ds, StartOf(ds, i), IndexOf(ds, StartOf(ds, i)), i);
  }

  /** The time into a block is less than its length, and not negative unless the clock was nudged back
      before the start. */
  lemma IntoRange(ds: seq<int>, elapsed: int)
    requires Positive(ds)
    ensures var i := IndexOf(ds, elapsed);
            && (i < |ds| ==> elapsed - StartOf(ds, i) < ds[i] && (elapsed >= 0 <==> elapsed - StartOf(ds, i) >= 0))
            && (i == |ds| <==> Max(elapsed, 0) >= Total(ds))
  {
    IndexIs(ds, elapsed);
    var i := IndexOf(ds, elapsed);
    StartsGrow(ds, 0, i);
    if i > 0 { assert Max(elapsed, 0) >= StartOf(ds, i); }
    if i < |ds| { StartsGrow(ds, i + 1, |ds|); }
  }

  // ---- the clock's position ----

  function Elapsed(s: State, now: int): int {
    if !s.started then 0 else (if s.paused then s.pausedAt else now) - s.startedAt + s.offset
  }

  function PositionAt(s: State, now: int): Position {
    if !s.started then Before
    else
      var e := Elapsed(s, now);
      var i := IndexOf(s.durations, e);
      if i >= |s.durations| then Ended(e)
      else At(i, e, e - StartOf(s.durations, i), s.durations[i] - (e - StartOf(s.durations, i)))
  }

  function Find(ids: seq<string>, id: string): (k: int)
    ensures -1 <= k < |ids| && (k >= 0 <==> id in ids)
  {
    if ids == [] then -1 else if ids[0] == id then 0 else var k := Find(ids[1..], id); if k < 0 then -1 else k + 1
  }

  lemma {:induction false} FindIs(ids: seq<string>, id: string)
    ensures -1 <= Find(ids, id) < |ids|
    ensures Find(ids, id) >= 0 ==> ids[Find(ids, id)] == id && forall k :: 0 <= k < Find(ids, id) ==> ids[k] != id
    ensures Find(ids, id) == -1 <==> id !in ids
  {
    if ids != [] { FindIs(ids[1..], id); }
  }

  /** When the event will be over if nothing more is changed, by the wall clock. */
  function PlannedEnd(s: State): int { s.startedAt - s.offset + Total(s.durations) }

  // ---- operations ----

  datatype Op =
    | Start(now: int) | StartAt(now: int, id: string) | Pause(now: int) | Resume(now: int, id: string)
    | JumpTo(now: int, id: string) | Nudge(shift: int) | SetLength(now: int, id: string, length: int) | End(now: int)
    | Tick(now: int)

  predicate WellFormed(s: State) {
    |s.ids| == |s.durations| && Positive(s.durations) && -1 <= s.last < |s.durations|
  }

  /** Moves the clock to this elapsed time. */
  function MoveTo(s: State, now: int, target: int): State { s.(offset := s.offset + (target - Elapsed(s, now))) }

  function Resumed(s: State, now: int, id: string): (State, Reply)
    requires WellFormed(s)
  {
    if !s.started then (s, Failed(NotStarted))
    else if !s.paused then (s, Failed(NotPaused))
    else
      var idx := Find(s.ids, id);
      var lost := now - s.pausedAt;
      var on := s.(paused := false, startedAt := s.startedAt + lost);
      FindIs(s.ids, id);
      if id == "" then (on, Recovered(0, lost))
      else if idx < 0 then (s, Failed(UnknownBlock))
      else if idx <= IndexOf(s.durations, Elapsed(s, now)) then (s, Failed(NotLater))
      else
        var absorbed := Min(lost, Max(s.durations[idx] - MIN_BLOCK, 0));
        (on.(durations := s.durations[idx := s.durations[idx] - absorbed]), Recovered(absorbed, lost - absorbed))
  }

  function Lengthened(s: State, now: int, id: string, length: int): (State, Reply)
    requires WellFormed(s)
  {
    var idx := Find(s.ids, id);
    FindIs(s.ids, id);
    if idx < 0 then (s, Failed(UnknownBlock))
    else if length < MIN_BLOCK || length > MAX_BLOCK then (s, Failed(BadLength))
    else
      var p := PositionAt(s, now);
      if p.Ended? || (p.At? && idx < p.index) then (s, Failed(BlockInPast))
      else if p.At? && idx == p.index && length < p.into then (s, Failed(AlreadyRun))
      else (s.(durations := s.durations[idx := length]), Ok)
  }

  /** The new state, the blocks announced and the answer. */
  function Step(s: State, op: Op): (State, seq<int>, Reply)
    requires WellFormed(s)
  {
    match op
    case Start(now) => if s.started then (s, [], Failed(AlreadyStarted)) else (s.(started := true, startedAt := now), [], Ok)
    case StartAt(now, id) =>
      if s.started then (s, [], Failed(AlreadyStarted))
      else
        var idx := if id == "" then 0 else Find(s.ids, id);
        FindIs(s.ids, id);
        if idx < 0 then (s, [], Failed(UnknownBlock))
        else (s.(started := true, paused := false, startedAt := now, offset := StartOf(s.durations, idx), last := idx - 1), [], Ok)
    case Pause(now) =>
      if !s.started then (s, [], Failed(NotStarted))
      else if s.paused then (s, [], Failed(AlreadyPaused))
      else (s.(paused := true, pausedAt := now), [], Ok)
    case Resume(now, id) => var r := Resumed(s, now, id); (r.0, [], r.1)
    case JumpTo(now, id) =>
      FindIs(s.ids, id);
      if !s.started then (s, [], Failed(NotStarted))
      else if Find(s.ids, id) < 0 then (s, [], Failed(UnknownBlock))
      else (MoveTo(s, now, StartOf(s.durations, Find(s.ids, id))), [], Ok)
    case Nudge(shift) => if !s.started then (s, [], Failed(NotStarted)) else (s.(offset := s.offset + shift), [], Ok)
    case SetLength(now, id, length) => var r := Lengthened(s, now, id, length); (r.0, [], r.1)
    case End(now) =>
      if !s.started then (s, [], Failed(NotStarted)) else (MoveTo(s, now, Total(s.durations)), [], Ok)
    case Tick(now) =>
      if !s.started then (s, [], Ok)
      else
        var upto := Min(IndexOf(s.durations, Elapsed(s, now)), |s.durations| - 1);
        (s.(last := Max(s.last, upto)), Due(s.last + 1, upto), Ok)
  }

  /** The blocks from one number to another. */
  function Due(from: int, upto: int): seq<int>
    decreases upto - from
  {
    if from > upto then [] else Due(from, upto - 1) + [upto]
  }

  // ---- no block is missed or repeated ----

  lemma {:induction false} DueIs(from: int, upto: int)
    ensures |Due(from, upto)| == Max(upto - from + 1, 0)
    ensures forall k :: 0 <= k < |Due(from, upto)| ==> Due(from, upto)[k] == from + k
    decreases upto - from
  {
    if from <= upto { DueIs(from, upto - 1); }
  }

  lemma ResumedWellFormed(s: State, now: int, id: string)
    requires WellFormed(s)
    ensures WellFormed(Resumed(s, now, id).0) && |Resumed(s, now, id).0.durations| == |s.durations| && Resumed(s, now, id).0.ids == s.ids
  {
    FindIs(s.ids, id);
  }

  /** A resume that shortens a block. */
  lemma Shortened(s: State, now: int, id: string, absorbed: int)
    requires WellFormed(s) && s.started && s.paused && id != "" && Find(s.ids, id) > IndexOf(s.durations, Elapsed(s, now))
    requires absorbed == Min(now - s.pausedAt, Max(s.durations[Find(s.ids, id)] - MIN_BLOCK, 0))
    ensures var idx := Find(s.ids, id);
            Resumed(s, now, id) == (s.(paused := false, startedAt := s.startedAt + (now - s.pausedAt), durations := s.durations[idx := s.durations[idx] - absorbed]),
                                    Recovered(absorbed, now - s.pausedAt - absorbed))
  {
  }

  lemma StepWellFormed(s: State, op: Op)
    requires WellFormed(s) && s.durations != []
    ensures WellFormed(Step(s, op).0) && |Step(s, op).0.durations| == |s.durations|
  {
    if op.Resume? || op.SetLength? || op.JumpTo? || op.StartAt? { FindIs(s.ids, op.id); }
    if op.Tick? { IndexIs(s.durations, Elapsed(s, op.now)); }
  }

  function Run(s: State, ops: seq<Op>): (State, seq<int>)
    requires WellFormed(s) && s.durations != []
    ensures WellFormed(Run(s, ops).0) && |Run(s, ops).0.durations| == |s.durations|
  {
    if ops == [] then (s, []) else
      var (t, done) := Run(s, ops[..|ops| - 1]);
      StepWellFormed(t, ops[|ops| - 1]);
      (Step(t, ops[|ops| - 1]).0, done + Step(t, ops[|ops| - 1]).1)
  }

  /** The first block to announce: the one after the last announced, or the one the event was started at. */
  function First(s: State, ops: seq<Op>): int
    requires WellFormed(s) && s.durations != []
  {
    if ops == [] then s.last + 1 else
      var past, op := ops[..|ops| - 1], ops[|ops| - 1];
      if op.StartAt? && Step(Run(s, past).0, op).2 == Ok then (if op.id == "" then 0 else Find(Run(s, past).0.ids, op.id)) else First(s, past)
  }

  ghost predicate Consecutive(done: seq<int>, first: int, last: int) {
    |done| == last + 1 - first && forall k :: 0 <= k < |done| ==> done[k] == first + k
  }

  lemma StepAnnounces(s: State, op: Op, done: seq<int>, first: int)
    requires WellFormed(s) && s.durations != [] && Consecutive(done, first, s.last)
    requires op.StartAt? ==> Step(s, op).2 != Ok
    ensures Consecutive(done + Step(s, op).1, first, Step(s, op).0.last)
  {
    if op.Tick? && s.started {
      DueIs(s.last + 1, Min(IndexOf(s.durations, Elapsed(s, op.now)), |s.durations| - 1));
    }
    assert done + [] == done;
  }

  lemma {:induction false} NothingBeforeStart(s: State, ops: seq<Op>)
    requires WellFormed(s) && s.durations != [] && !Run(s, ops).0.started
    ensures Run(s, ops).1 == [] && !s.started
  {
    if ops != [] {
      NothingBeforeStart(s, ops[..|ops| - 1]);
    }
  }

  /** Over every run the blocks announced follow one another without a gap and without a repeat, from the
      starting block up to the highest one reached. */
  lemma {:induction false} NoneMissedOrRepeated(s: State, ops: seq<Op>)
    requires WellFormed(s) && s.durations != []
    ensures Consecutive(Run(s, ops).1, First(s, ops), Run(s, ops).0.last)
  {
    if ops != [] {
      var past, op := ops[..|ops| - 1], ops[|ops| - 1];
      NoneMissedOrRepeated(s, past);
      var (t, done) := Run(s, past);
      if op.StartAt? && Step(t, op).2 == Ok {
        NothingBeforeStart(s, past);
      } else {
        StepAnnounces(t, op, done, First(s, past));
      }
    }
  }

  /** After a tick every block from the starting one up to the current one has been announced. */
  lemma TickAnnouncesAll(s: State, ops: seq<Op>, now: int, i: int)
    requires WellFormed(s) && s.durations != []
    ensures var (t, done) := Run(s, ops + [Tick(now)]);
            t.started && First(s, ops) <= i <= IndexOf(t.durations, Elapsed(t, now)) && i < |t.durations| ==> i in done
  {
    var all := ops + [Tick(now)];
    assert all[..|all| - 1] == ops;
    NoneMissedOrRepeated(s, all);
    var (t, done) := Run(s, all);
    if t.started && First(s, ops) <= i <= IndexOf(t.durations, Elapsed(t, now)) && i < |t.durations| {
      assert i <= t.last;
      assert done[i - First(s, ops)] == i;
    }
  }

  // ---- pausing and moving about ----

  /** Resuming leaves the current block and the time into it as they were at the pause; what is not
      absorbed is exactly by how much the planned end moves; and a compressed block keeps a minute, or
      all it had if that was less. */
  lemma ResumeKeepsPlace(s: State, now: int, id: string)
    requires WellFormed(s) && s.paused && now >= s.pausedAt && Resumed(s, now, id).1.Recovered?
    ensures var (t, r) := Resumed(s, now, id);
            && SamePlace(PositionAt(t, now), PositionAt(s, now))
            && Elapsed(t, now) == Elapsed(s, now)
            && r.absorbed + r.overrun == now - s.pausedAt && r.absorbed >= 0 && r.overrun >= 0
            && PlannedEnd(t) == PlannedEnd(s) + r.overrun
            && |t.durations| == |s.durations|
            && (forall i :: 0 <= i < |s.durations| ==> Min(MIN_BLOCK, s.durations[i]) <= t.durations[i] <= s.durations[i])
  {
    var (t, r) := Resumed(s, now, id);
    FindIs(s.ids, id);
    if id != "" {
      var idx := Find(s.ids, id);
      IndexIs(s.durations, Elapsed(s, now));
      ShortenLater(s.durations, idx, t.durations[idx], Elapsed(s, now));
    }
  }

  /** Only this block may have another length. */
  ghost predicate OnlyLength(ds: seq<int>, es: seq<int>, i: int, length: int) {
    |es| == |ds| && 0 <= i < |ds| && es[i] == length && forall k :: 0 <= k < |ds| && k != i ==> es[k] == ds[k]
  }

  /** What resuming absorbs: without a block nothing; with one all the lost time, or all that this block can give
      and still keep its minute. Nobody else's length changes. */
  lemma ResumeAbsorbs(s: State, now: int, id: string)
    requires WellFormed(s) && now >= s.pausedAt && Resumed(s, now, id).1.Recovered?
    ensures var (t, r) := Resumed(s, now, id);
            && t.started && !t.paused
            && (if id == "" then t.durations == s.durations && r == Recovered(0, now - s.pausedAt)
                else id in s.ids && OnlyLength(s.durations, t.durations, Find(s.ids, id), s.durations[Find(s.ids, id)] - r.absorbed)
                     && (r.overrun == 0 || t.durations[Find(s.ids, id)] <= MIN_BLOCK))
  {
    FindIs(s.ids, id);
  }

  /** A clock resumes if and only if it is paused and the block to shorten, if any, exists and is still to come;
      otherwise it stays as it is. */
  lemma ResumesIff(s: State, now: int, id: string)
    requires WellFormed(s)
    ensures Resumed(s, now, id).1.Recovered?
       <==> s.started && s.paused && (id == "" || (id in s.ids && StartOf(s.durations, Find(s.ids, id)) > Max(Elapsed(s, now), 0)))
    ensures !Resumed(s, now, id).1.Recovered? ==> Resumed(s, now, id).0 == s
  {
    FindIs(s.ids, id);
    if id in s.ids { LaterIff(s.durations, Elapsed(s, now), Find(s.ids, id)); }
  }

  /** A block comes after the current one exactly when its start does. */
  lemma LaterIff(ds: seq<int>, elapsed: int, i: nat)
    requires Positive(ds) && i < |ds|
    ensures i > IndexOf(ds, elapsed) <==> StartOf(ds, i) > Max(elapsed, 0)
  {
    IndexIs(ds, elapsed);
    var at := IndexOf(ds, elapsed);
    StartsGrow(ds, 0, i);
    if i > at {
      StartsGrow(ds, at + 1, i);
    } else if i > 0 {
      assert Max(elapsed, 0) >= StartOf(ds, i);
    }
  }

  /** A running clock keeps time, a paused one stands still from the moment it was paused, and one that is
      resumed goes on from there. */
  lemma PauseStopsTime(s: State, at: int, until: int, x: int)
    requires WellFormed(s) && s.started && !s.paused
    ensures Elapsed(s, x) - Elapsed(s, at) == x - at
    ensures var (p, due, r) := Step(s, Pause(at));
            && r == Ok && due == [] && p == s.(paused := true, pausedAt := at) && Elapsed(p, x) == Elapsed(s, at)
            && Step(p, Resume(until, "")).2 == Recovered(0, until - at)
            && Elapsed(Step(p, Resume(until, "")).0, x) == Elapsed(s, at) + (x - until)
  {
  }

  /** Starting starts the first block and sets the clock going; nudging moves the clock forward by that much, or back. */
  lemma NudgeMoves(s: State, shift: int, now: int, at: int)
    requires WellFormed(s)
    ensures !s.started && !s.paused && s.offset == 0 ==>
              var t := Step(s, Start(at)).0; Elapsed(t, now) == now - at && t == s.(started := true, startedAt := at)
    ensures s.started ==>
              && Step(s, Nudge(shift)).2 == Ok && Elapsed(Step(s, Nudge(shift)).0, now) == Elapsed(s, now) + shift
              && Step(s, Nudge(shift)).0 == s.(offset := s.offset + shift)
  {
  }

  /** What an operation but resuming and lengthening needs. */
  predicate Accepts(s: State, op: Op) {
    match op
    case Start(_) => !s.started
    case StartAt(_, id) => !s.started && (id == "" || id in s.ids)
    case Pause(_) => s.started && !s.paused
    case JumpTo(_, id) => s.started && id in s.ids
    case Tick(_) => true
    case _ => s.started
  }

  /** Which operations are refused: what needs a running event before it has started, starting it twice, pausing it
      twice, and blocks that do not exist. A refused operation changes nothing. */
  lemma AcceptedIff(s: State, op: Op)
    requires WellFormed(s)
    ensures !op.Resume? && !op.SetLength? ==> (Step(s, op).2 == Ok <==> Accepts(s, op))
    ensures Step(s, op).2.Failed? ==> Step(s, op).0 == s && Step(s, op).1 == []
    ensures !s.started ==> forall now :: Elapsed(s, now) == 0 && PositionAt(s, now) == Before
  {
    FindIs(s.ids, "");
    if op.JumpTo? || op.StartAt? { FindIs(s.ids, op.id); }
    if op.Resume? { ResumesIff(s, op.now, op.id); }
  }

  /** Left alone, a running clock is at the end of its last block exactly at the planned end, and not before. */
  lemma PlannedEndIsEnd(s: State, now: int)
    requires WellFormed(s) && s.started && !s.paused
    ensures PositionAt(s, PlannedEnd(s)) == Ended(Total(s.durations))
    ensures now < PlannedEnd(s) && s.durations != [] ==> PositionAt(s, now).At?
  {
    IndexOfStart(s.durations, |s.durations|);
    IndexIs(s.durations, Elapsed(s, now));
    IntoRange(s.durations, Elapsed(s, now));
    StartsGrow(s.durations, 0, |s.durations|);
    assert now < PlannedEnd(s) ==> Elapsed(s, now) < Total(s.durations);
  }

  /** What remains of the current block is how long it takes the clock to reach the next one. */
  lemma RemainingIsRight(s: State, now: int)
    requires WellFormed(s) && s.started && !s.paused && PositionAt(s, now).At?
    ensures var p := PositionAt(s, now);
            && p.remaining > 0 && p.elapsed == Elapsed(s, now) && p.into == p.elapsed - StartOf(s.durations, p.index)
            && (var q := PositionAt(s, now + p.remaining);
                if p.index + 1 == |s.durations| then q == Ended(Total(s.durations))
                else q == At(p.index + 1, p.elapsed + p.remaining, 0, s.durations[p.index + 1]))
  {
    var i := IndexOf(s.durations, Elapsed(s, now));
    IntoRange(s.durations, Elapsed(s, now));
    IndexOfStart(s.durations, i + 1);
  }

  ghost predicate SamePlace(p: Position, q: Position) {
    match q
    case Before => p.Before?
    case Ended(_) => p.Ended?
    case At(i, e, into, _) => p.At? && p.index == i && p.elapsed == e && p.into == into
  }

  lemma {:induction false} StartsShift(ds: seq<int>, idx: nat, d: int, i: nat)
    requires idx < |ds| && i <= |ds|
    ensures StartOf(ds[idx := d], i) == StartOf(ds, i) + if i > idx then d - ds[idx] else 0
  {
    if i > 0 { StartsShift(ds, idx, d, i - 1); }
  }

  /** Changing a later block does not move the current one. */
  lemma ShortenLater(ds: seq<int>, idx: nat, d: int, elapsed: int)
    requires Positive(ds) && idx < |ds| && d > 0 && IndexOf(ds, elapsed) < idx
    ensures IndexOf(ds[idx := d], elapsed) == IndexOf(ds, elapsed)
    ensures StartOf(ds[idx := d], IndexOf(ds, elapsed)) == StartOf(ds, IndexOf(ds, elapsed))
    ensures Total(ds[idx := d]) == Total(ds) + d - ds[idx]
  {
    var es, i := ds[idx := d], IndexOf(ds, elapsed);
    IndexIs(ds, elapsed);
    IndexIs(es, elapsed);
    forall k | 0 <= k <= i + 1
      ensures StartOf(es, k) == StartOf(ds, k)
    {
      StartsShift(ds, idx, d, k);
    }
    assert IsIndex(es, elapsed, i);
    IndexUnique(es, elapsed, i, IndexOf(es, elapsed));
    StartsShift(ds, idx, d, i);
    StartsShift(ds, idx, d, |ds|);
  }

  /** Jumping and starting at a block land exactly on its edge, and ending lands exactly on the end. */
  lemma LandsOnEdge(s: State, op: Op)
    requires WellFormed(s) && Step(s, op).2 == Ok && (op.JumpTo? || op.StartAt? || op.End?)
    requires op.StartAt? && op.id == "" ==> s.ids != []
    ensures var t := Step(s, op).0;
            && (!op.End? ==> PositionAt(t, op.now).At? && PositionAt(t, op.now).into == 0
                             && (op.id != "" || op.JumpTo? ==> t.ids[PositionAt(t, op.now).index] == op.id)
                             && (op.id == "" && op.StartAt? ==> PositionAt(t, op.now).index == 0))
            && (op.End? ==> PositionAt(t, op.now) == Ended(Total(t.durations)))
            && t.durations == s.durations
  {
    if op.End? {
      IndexOfStart(s.durations, |s.durations|);
    } else {
      FindIs(s.ids, op.id);
      IndexOfStart(s.durations, if op.StartAt? && op.id == "" then 0 else Find(s.ids, op.id));
    }
  }

  /** The length given to the current block is exactly what it has already run. */
  predicate UsedUp(s: State, now: int, id: string, length: int) {
    var i := IndexOf(s.durations, Elapsed(s, now));
    i < |s.durations| && Find(s.ids, id) == i && length == Elapsed(s, now) - StartOf(s.durations, i)
  }

  /** A new length is accepted only for a block that is not over, and never moves the clock back. */
  lemma LengthKeepsPlace(s: State, now: int, id: string, length: int)
    requires WellFormed(s) && s.started && Lengthened(s, now, id, length).1 == Ok && Elapsed(s, now) >= 0
    ensures var t := Lengthened(s, now, id, length).0;
            && Elapsed(t, now) == Elapsed(s, now)
            && IndexOf(t.durations, Elapsed(t, now)) >= IndexOf(s.durations, Elapsed(s, now))
            && (IndexOf(t.durations, Elapsed(t, now)) > IndexOf(s.durations, Elapsed(s, now)) <==> UsedUp(s, now, id, length))
  {
    var idx, ds, e := Find(s.ids, id), s.durations, Elapsed(s, now);
    FindIs(s.ids, id);
    var i := IndexOf(ds, e);
    IndexIs(ds, e);
    var es := ds[idx := length];
    if idx > i {
      ShortenLater(ds, idx, length, e);
    } else {
      ResizeCurrent(ds, i, length, e);
    }
  }

  /** A new length is accepted if and only if the block exists, the length is allowed, and the clock has not gone
      past that much of it. It is then the only thing that changes. */
  lemma LengthenedIff(s: State, now: int, id: string, length: int)
    requires WellFormed(s)
    ensures var (t, r) := Lengthened(s, now, id, length);
            && (r == Ok <==> id in s.ids && MIN_BLOCK <= length <= MAX_BLOCK
                             && (s.started ==> MayEnd(s.durations, Find(s.ids, id), length, Elapsed(s, now))))
            && (r != Ok ==> t == s)
            && (r == Ok ==> t == s.(durations := t.durations) && OnlyLength(s.durations, t.durations, Find(s.ids, id), length))
  {
    FindIs(s.ids, id);
    if id in s.ids && s.started {
      var i := Find(s.ids, id);
      IntoRange(s.durations, Elapsed(s, now));
      LaterIff(s.durations, Elapsed(s, now), i);
      EndIff(s.durations, Elapsed(s, now), i);
    }
  }

  /** The block is not over, nor has it run longer than this. */
  predicate MayEnd(ds: seq<int>, i: int, length: int, elapsed: int) {
    0 <= i < |ds| && elapsed < StartOf(ds, i + 1) && elapsed <= StartOf(ds, i) + length
  }

  /** What a refusal says of the operation. */
  predicate Because(error: Error, s: State, op: Op) {
    match error
    case NotStarted => !s.started && !op.Start? && !op.StartAt? && !op.SetLength? && !op.Tick?
    case AlreadyStarted => s.started && (op.Start? || op.StartAt?)
    case NotPaused => s.started && !s.paused && op.Resume?
    case AlreadyPaused => s.started && s.paused && op.Pause?
    case UnknownBlock => (op.StartAt? || op.Resume? || op.JumpTo? || op.SetLength?) && op.id !in s.ids
    case NotLater => op.Resume? && op.id in s.ids
    case BadLength => op.SetLength? && op.id in s.ids && !(MIN_BLOCK <= op.length <= MAX_BLOCK)
    case BlockInPast => op.SetLength? && op.id in s.ids && s.started && 0 <= Find(s.ids, op.id) < |s.durations|
                        && StartOf(s.durations, Find(s.ids, op.id) + 1) <= Elapsed(s, op.now)
    case AlreadyRun => op.SetLength? && op.id in s.ids && s.started && 0 <= Find(s.ids, op.id) < |s.durations|
                       && op.length < Elapsed(s, op.now) - StartOf(s.durations, Find(s.ids, op.id))
  }

  /** Every refusal tells the truth. */
  lemma RefusalMeans(s: State, op: Op)
    requires WellFormed(s) && Step(s, op).2.Failed?
    ensures Because(Step(s, op).2.error, s, op)
  {
    if op.SetLength? {
      FindIs(s.ids, op.id);
      if op.id in s.ids && s.started {
        IntoRange(s.durations, Elapsed(s, op.now));
        EndIff(s.durations, Elapsed(s, op.now), Find(s.ids, op.id));
      }
    }
  }

  lemma EndIff(ds: seq<int>, elapsed: int, i: nat)
    requires Positive(ds) && i < |ds|
    ensures i < IndexOf(ds, elapsed) <==> StartOf(ds, i + 1) <= elapsed
  {
    IndexIs(ds, elapsed);
    StartsGrow(ds, 0, i + 1);
    if i >= IndexOf(ds, elapsed) { StartsGrow(ds, IndexOf(ds, elapsed) + 1, i + 1); }
  }

  lemma IndexAtLeast(ds: seq<int>, e: int, i: nat)
    requires Positive(ds) && i <= |ds| && 0 <= StartOf(ds, i) <= e
    ensures IndexOf(ds, e) >= i
  {
    IndexIs(ds, e);
    if IndexOf(ds, e) < i { StartsGrow(ds, IndexOf(ds, e) + 1, i); }
  }

  lemma ResizeCurrent(ds: seq<int>, i: nat, d: int, e: int)
    requires Positive(ds) && i < |ds| && d > 0 && e >= 0 && i == IndexOf(ds, e) && d >= e - StartOf(ds, i)
    ensures var j := IndexOf(ds[i := d], e); j >= i && (j == i <==> d > e - StartOf(ds, i))
  {
    var es := ds[i := d];
    IndexIs(ds, e);
    IndexIs(es, e);
    forall k | 0 <= k <= i
      ensures StartOf(es, k) == StartOf(ds, k)
    {
      StartsShift(ds, i, d, k);
    }
    StartsShift(ds, i, d, i + 1);
    StartsGrow(ds, 0, i);
    IndexAtLeast(es, e, i);
  }

  // ---- restarting ----

  lemma OneRises(s: State, op: Op)
    requires WellFormed(s) && s.started
    ensures Step(s, op).0.started && s.last <= Step(s, op).0.last && (op.StartAt? ==> Step(s, op).2 != Ok)
  {
  }

  lemma {:induction false} LastRises(s: State, ops: seq<Op>)
    requires WellFormed(s) && s.durations != [] && s.started
    ensures Run(s, ops).0.started && s.last <= Run(s, ops).0.last && First(s, ops) == s.last + 1
  {
    if ops != [] {
      LastRises(s, ops[..|ops| - 1]);
      OneRises(Run(s, ops[..|ops| - 1]).0, ops[|ops| - 1]);
    }
  }

  /** A restart from a saved state announces nothing up to the saved `last`. */
  lemma NothingOldAgain(saved: State, ops: seq<Op>, x: int)
    requires WellFormed(saved) && saved.durations != [] && saved.started && x <= saved.last
    ensures x !in Run(saved, ops).1
  {
    NoneMissedOrRepeated(saved, ops);
    LastRises(saved, ops);
    var done := Run(saved, ops).1;
    assert forall m :: 0 <= m < |done| ==> done[m] == saved.last + 1 + m;
  }

  /** A tick records all its blocks as announced before it announces the first; a state saved in between
      (every announcement saves one) makes a crash lose the others for good. */
  lemma CrashBetweenAnnouncements(s: State, now: int, k: nat, ops: seq<Op>)
    requires WellFormed(s) && s.durations != [] && s.started && k < |Step(s, Tick(now)).1|
    ensures var saved, due := Step(s, Tick(now)).0, Step(s, Tick(now)).1;
            WellFormed(saved) && |saved.durations| == |s.durations| && due[k] !in due[..k] && due[k] !in Run(saved, ops).1
  {
    StepWellFormed(s, Tick(now));
    DueIs(s.last + 1, Min(IndexOf(s.durations, Elapsed(s, now)), |s.durations| - 1));
    NothingOldAgain(Step(s, Tick(now)).0, ops, Step(s, Tick(now)).1[k]);
  }

  // ---- what is saved ----

  /** A block as the organiser has set it: its id and the length it was given in the schedule. */
  datatype Block = Block(id: string, length: int)

  /** What is stored: the clock's state with its live lengths, and the schedule (none in what older versions
      stored). */
  datatype Saved = Saved(state: State, blocks: seq<Block>)

  const MAX_BLOCKS := 60

  predicate ValidBlocks(bs: seq<Block>) {
    && 1 <= |bs| <= MAX_BLOCKS
    && (forall i :: 0 <= i < |bs| ==> 1 <= |bs[i].id| <= 40 && MIN_BLOCK <= bs[i].length <= MAX_BLOCK)
    && (forall i, j :: 0 <= i < j < |bs| ==> bs[i].id != bs[j].id)
  }

  function IdsOf(bs: seq<Block>): (r: seq<string>)
    ensures |r| == |bs| && forall i :: 0 <= i < |r| ==> r[i] == bs[i].id
  {
    seq(|bs|, i requires 0 <= i < |bs| => bs[i].id)
  }

  function LengthsOf(bs: seq<Block>): (r: seq<int>)
    ensures |r| == |bs| && forall i :: 0 <= i < |r| ==> r[i] == bs[i].length
  {
    seq(|bs|, i requires 0 <= i < |bs| => bs[i].length)
  }

  /** Lengths that do not fit the saved schedule are replaced by the schedule's own; a state without a
      schedule must fit the clock's; otherwise the restore is refused and changes nothing. */
  function Restored(was: State, mine: seq<Block>, saved: Saved): (State, seq<Block>, bool) {
    if saved.blocks != [] then
      if !ValidBlocks(saved.blocks) then (was, mine, false)
      else
        var ds := if |saved.state.durations| == |saved.blocks| then saved.state.durations else LengthsOf(saved.blocks);
        (saved.state.(durations := ds, ids := IdsOf(saved.blocks)), saved.blocks, true)
    else if |saved.state.durations| != |mine| then (was, mine, false)
    else (saved.state.(ids := IdsOf(mine)), mine, true)
  }

  /** What a clock stored is what any clock restores from it. */
  lemma RestoreUndoesSnapshot(was: State, mine: seq<Block>, s: State, bs: seq<Block>)
    requires ValidBlocks(bs) && s.ids == IdsOf(bs) && |s.durations| == |bs|
    ensures Restored(was, mine, Saved(s, bs)) == (s, bs, true)
  {
  }

  /** What a clock takes over: the stored schedule if there is a valid one, its own if none was stored; the stored
      lengths if there is one for each block, else the schedule's. Anything else is refused and changes nothing. */
  lemma RestoresIff(was: State, mine: seq<Block>, saved: Saved)
    ensures var (s, bs, ok) := Restored(was, mine, saved);
            && (ok <==> if saved.blocks == [] then |saved.state.durations| == |mine|
                        else |saved.blocks| <= 60 && (forall b :: b in saved.blocks ==> b.id != "" && |b.id| <= 40 && MIN_BLOCK <= b.length <= MAX_BLOCK)
                             && forall i, j :: 0 <= i < |saved.blocks| && 0 <= j < |saved.blocks| && saved.blocks[i].id == saved.blocks[j].id ==> i == j)
            && (!ok ==> s == was && bs == mine)
            && (ok ==> bs == (if saved.blocks == [] then mine else saved.blocks) && s.ids == IdsOf(bs) && |s.durations| == |bs|
                       && s == saved.state.(durations := s.durations, ids := s.ids)
                       && s.durations in {saved.state.durations, LengthsOf(bs)}
                       && (|saved.state.durations| == |bs| ==> s.durations == saved.state.durations))
  {
  }

  /** In a schedule that is taken over every block can be found by its id, and lasts. */
  lemma RestoredFine(was: State, mine: seq<Block>, saved: Saved, i: nat)
    requires saved.blocks != [] && i < |saved.blocks| && Positive(saved.state.durations)
    ensures var (s, bs, ok) := Restored(was, mine, saved);
            ok ==> Positive(s.durations) && Find(s.ids, bs[i].id) == i
  {
    FindIs(IdsOf(saved.blocks), saved.blocks[i].id);
  }

  // ---- the clock as an object ----

  /** A clock's state with the schedule it was given. */
  predicate Fits(s: State, bs: seq<Block>) { WellFormed(s) && s.durations != [] && ValidBlocks(bs) && s.ids == IdsOf(bs) }

  lemma ResumedFits(s: State, bs: seq<Block>, now: int, id: string)
    requires Fits(s, bs)
    ensures Fits(Resumed(s, now, id).0, bs)
  {
    ResumedWellFormed(s, now, id);
  }

  class Clock {
    var started: bool
    var startedAt: int
    var offset: int
    var paused: bool
    var pausedAt: int
    var durations: seq<int>
    var ids: seq<string>
    var last: int
    var blocks: seq<Block>

    ghost predicate Valid()
      reads this
    {
      Fits(Value(), blocks)
    }

    function Value(): State
      reads this
    {
      State(started, startedAt, offset, paused, pausedAt, durations, ids, last)
    }

    constructor (blocks: seq<Block>)
      requires ValidBlocks(blocks)
      ensures Valid() && this.blocks == blocks && Value() == State(false, 0, 0, false, 0, LengthsOf(blocks), IdsOf(blocks), -1)
    {
      this.blocks := blocks;
      ids, durations := IdsOf(blocks), LengthsOf(blocks);
      started, startedAt, offset, paused, pausedAt, last := false, 0, 0, false, 0, -1;
    }

    method ElapsedAt(now: int) returns (e: int)
      ensures e == Elapsed(Value(), now)
    {
      if !started { return 0; }
      var at := now;
      if paused { at := pausedAt; }
      e := at - startedAt + offset;
    }

    method IndexAt(elapsed: int) returns (i: nat)
      requires Valid()
      ensures i == IndexOf(durations, elapsed)
    {
      var e := if elapsed < 0 then 0 else elapsed;
      var acc := 0;
      i := 0;
      while i < |durations|
        invariant 0 <= i <= |durations| && acc == StartOf(durations, i)
        invariant IndexFrom(durations, e, i) == IndexOf(durations, elapsed)
      {
        if e < acc + durations[i] { return; }
        acc := acc + durations[i];
        i := i + 1;
      }
    }

    method StartAtIndex(idx: nat) returns (acc: int)
      requires idx <= |durations|
      ensures acc == StartOf(durations, idx)
    {
      acc := 0;
      for i := 0 to idx
        invariant acc == StartOf(durations, i)
      {
        acc := acc + durations[i];
      }
    }

    method BlockIndex(id: string) returns (i: int)
      requires Valid()
      ensures i == Find(ids, id) && i < |durations|
    {
      FindIs(ids, id);
      for k := 0 to |ids|
        invariant forall m :: 0 <= m < k ==> ids[m] != id
      {
        if ids[k] == id { return k; }
      }
      i := -1;
    }

    method PositionNow(now: int) returns (p: Position)
      requires Valid()
      ensures p == PositionAt(Value(), now)
    {
      if !started { return Before; }
      var e := ElapsedAt(now);
      var i := IndexAt(e);
      if i >= |durations| { return Ended(e); }
      var from := StartAtIndex(i);
      p := At(i, e, e - from, durations[i] - (e - from));
    }

    method Start(now: int) returns (r: Reply)
      requires Valid()
      modifies this
      ensures Valid() && (Value(), [], r) == Step(old(Value()), Op.Start(now))
    {
      if started { return Failed(AlreadyStarted); }
      started, startedAt := true, now;
      r := Ok;
    }

    method StartAt(now: int, id: string) returns (r: Reply)
      requires Valid()
      modifies this
      ensures Valid() && (Value(), [], r) == Step(old(Value()), Op.StartAt(now, id))
    {
      StepWellFormed(Value(), Op.StartAt(now, id));
      if started { return Failed(AlreadyStarted); }
      var idx: int := 0;
      if id != "" {
        idx := BlockIndex(id);
        if idx < 0 { return Failed(UnknownBlock); }
      }
      started, paused, startedAt := true, false, now;
      offset := StartAtIndex(idx);
      last := idx - 1;
      r := Ok;
    }

    method Pause(now: int) returns (r: Reply)
      requires Valid()
      modifies this
      ensures Valid() && (Value(), [], r) == Step(old(Value()), Op.Pause(now))
    {
      if !started { return Failed(NotStarted); }
      if paused { return Failed(AlreadyPaused); }
      paused, pausedAt := true, now;
      r := Ok;
    }

    /** Checks everything before it changes anything: a refused resume leaves the clock paused. */
    method Resume(now: int, id: string) returns (r: Reply)
      requires Valid()
      modifies this
      ensures Valid() && (Value(), r) == Resumed(old(Value()), now, id)
    {
      ResumedFits(Value(), blocks, now, id);
      if !started { return Failed(NotStarted); }
      if !paused { return Failed(NotPaused); }
      var idx := -1;
      if id != "" {
        idx := BlockIndex(id);
        if idx < 0 { return Failed(UnknownBlock); }
        var e := ElapsedAt(now);
        var at := IndexAt(e);
        if idx <= at { return Failed(NotLater); }
      }
      ghost var was := Value();
      var lost := now - pausedAt;
      paused := false;
      startedAt := startedAt + lost;
      if idx < 0 { return Recovered(0, lost); }
      var room := Max(durations[idx] - MIN_BLOCK, 0);
      var absorbed := Min(lost, room);
      durations := durations[idx := durations[idx] - absorbed];
      Shortened(was, now, id, absorbed);
      r := Recovered(absorbed, lost - absorbed);
    }

    method JumpTo(now: int, id: string) returns (r: Reply)
      requires Valid()
      modifies this
      ensures Valid() && (Value(), [], r) == Step(old(Value()), Op.JumpTo(now, id))
    {
      if !started { return Failed(NotStarted); }
      var idx := BlockIndex(id);
      if idx < 0 { return Failed(UnknownBlock); }
      var from := StartAtIndex(idx);
      var e := ElapsedAt(now);
      offset := offset + (from - e);
      r := Ok;
    }

    method Nudge(shift: int) returns (r: Reply)
      requires Valid()
      modifies this
      ensures Valid() && (Value(), [], r) == Step(old(Value()), Op.Nudge(shift))
    {
      if !started { return Failed(NotStarted); }
      offset := offset + shift;
      r := Ok;
    }

    method SetBlockDuration(now: int, id: string, length: int) returns (r: Reply)
      requires Valid()
      modifies this
      ensures Valid() && (Value(), r) == Lengthened(old(Value()), now, id, length)
    {
      var idx := BlockIndex(id);
      if idx < 0 { return Failed(UnknownBlock); }
      if length < MIN_BLOCK || length > MAX_BLOCK { return Failed(BadLength); }
      if started {
        var p := PositionNow(now);
        if p.Ended? || idx < p.index { return Failed(BlockInPast); }
        if idx == p.index && length < p.into { return Failed(AlreadyRun); }
      }
      durations := durations[idx := length];
      r := Ok;
    }

    method End(now: int) returns (r: Reply)
      requires Valid()
      modifies this
      ensures Valid() && (Value(), [], r) == Step(old(Value()), Op.End(now))
    {
      if !started { return Failed(NotStarted); }
      var to := StartAtIndex(|durations|);
      var e := ElapsedAt(now);
      offset := offset + (to - e);
      r := Ok;
    }

    /** The blocks to announce, one by one. */
    method Tick(now: int) returns (due: seq<int>)
      requires Valid()
      modifies this
      ensures Valid() && (Value(), due, Ok) == Step(old(Value()), Op.Tick(now))
    {
      StepWellFormed(Value(), Op.Tick(now));
      due := [];
      if !started { return; }
      var e := ElapsedAt(now);
      var upto: int := IndexAt(e);
      if upto >= |durations| { upto := |durations| - 1; }
      var i := last + 1;
      while i <= upto
        invariant last + 1 <= i && (i <= upto + 1 || i == last + 1)
        invariant due == Due(last + 1, i - 1)
        decreases upto - i
      {
        due := due + [i];
        i := i + 1;
      }
      assert due == Due(last + 1, upto);
      if upto > last { last := upto; }
    }

    method Snapshot() returns (s: Saved)
      ensures s == Saved(Value(), blocks)
    {
      s := Saved(State(started, startedAt, offset, paused, pausedAt, durations, ids, last), blocks);
    }

    /** `s` was stored by a clock: its lengths are positive and the last block announced is one of its own. */
    method Restore(s: Saved) returns (ok: bool)
      requires Valid() && Positive(s.state.durations)
      requires -1 <= s.state.last < if s.blocks != [] then |s.blocks| else |s.state.durations|
      modifies this
      ensures Valid() && (Value(), blocks, ok) == Restored(old(Value()), old(blocks), s)
    {
      var ds := s.state.durations;
      if |s.blocks| > 0 {
        if !ValidBlocks(s.blocks) { return false; }
        blocks := s.blocks;
        ids := IdsOf(blocks);
        if |ds| != |blocks| { ds := LengthsOf(blocks); }
      } else if |ds| != |blocks| {
        return false;
      }
      durations, offset, last := ds, s.state.offset, s.state.last;
      started, paused, startedAt, pausedAt := s.state.started, s.state.paused, s.state.startedAt, s.state.pausedAt;
      ok := true;
    }
  }
}

/** The event clock and its saved state over restarts. A tick counts all the blocks that have become due as
    announced and then announces them one by one, outside the clock's lock; meanwhile the organiser's
    handlers change and save the clock, and may tick it too. */
module ClockRestart {
  import opened Numeric
  import opened EventClock

  /** One tick's announcements: how many it has made, and the blocks still to come. */
  datatype Round = Round(told: nat, due: seq<int>)

  /** The running clock, the ticks announcing, what is on disk, and every announcement made so far, by this
      process and those before it. */
  datatype Sys = Sys(live: State, rounds: seq<Round>, saved: State, done: seq<int>)

  datatype Event =
    | Do(op: Op)         // the organiser changes the clock
    | Save               // the clock's state is stored
    | Sweep(now: int)    // a tick finds what has become due
    | Announce(who: nat) // a tick announces the next of its blocks
    | Crash              // the server dies and starts again from what is stored

  predicate Can(s: Sys, e: Event) {
    match e
    case Do(op) => !op.Tick?
    case Announce(who) => who < |s.rounds| && s.rounds[who].due != []
    case _ => true
  }

  predicate Good(s: State) { WellFormed(s) && s.durations != [] && s.started }

  function Told(r: Round): Round
    requires r.due != []
  {
    Round(r.told + 1, r.due[1..])
  }

  function After(s: Sys, e: Event): Sys
    requires Can(s, e) && Good(s.live)
  {
    match e
    case Do(op) => s.(live := Step(s.live, op).0)
    case Save => s.(saved := s.live)
    case Sweep(now) => s.(live := Step(s.live, Tick(now)).0, rounds := s.rounds + [Round(0, Step(s.live, Tick(now)).1)])
    case Announce(who) => s.(rounds := s.rounds[who := Told(s.rounds[who])], done := s.done + [s.rounds[who].due[0]])
    case Crash => s.(live := s.saved, rounds := [])
  }

  /** The organiser moves the live clock at once, whoever is announcing: a jump lands on the edge of its block, a nudge
      moves the time, and neither what is saved nor what is due changes before it is saved or announced. */
  lemma OrganiserActs(s: Sys, op: Op, now: int)
    requires Good(s.live) && Can(s, Do(op))
    ensures var n := After(s, Do(op));
            && (n.saved, n.rounds, n.done) == (s.saved, s.rounds, s.done)
            && (op.Nudge? ==> Elapsed(n.live, now) == Elapsed(s.live, now) + op.shift)
            && (op.JumpTo? && op.id in s.live.ids ==>
                  var p := PositionAt(n.live, op.now); p.At? && p.into == 0 && n.live.ids[p.index] == op.id)
            && (op.Pause? && !s.live.paused && op.now <= now ==> Elapsed(n.live, now) == Elapsed(s.live, op.now))
  {
    if op.JumpTo? {
      FindIs(s.live.ids, op.id);
      if op.id in s.live.ids { LandsOnEdge(s.live, op); }
    }
  }

  // ---- what always holds ----

  predicate DueIn(s: Sys, w: nat, x: int)
    requires w < |s.rounds|
  {
    x in s.rounds[w].due
  }

  /** Some tick has still to announce this block. */
  predicate IsDue(s: Sys, x: int) { exists w :: 0 <= w < |s.rounds| && DueIn(s, w, x) }

  /** What is on disk is never ahead of the clock, and what is due is counted by the clock. */
  ghost predicate Inv(s: Sys, first: int) {
    && Good(s.live) && Good(s.saved) && first - 1 <= s.saved.last <= s.live.last
    && forall x :: IsDue(s, x) ==> first <= x <= s.live.last
  }

  lemma OpKeepsLast(s: State, op: Op)
    requires Good(s) && !op.Tick?
    ensures Good(Step(s, op).0) && Step(s, op).0.last == s.last
  {
    StepWellFormed(s, op);
    OneRises(s, op);
  }

  lemma {:induction false} DueHas(from: int, upto: int, x: int)
    ensures x in Due(from, upto) <==> from <= x <= upto
    decreases upto - from
  {
    if from <= upto { DueHas(from, upto - 1, x); }
  }

  /** A tick makes due exactly the blocks between the old count and the new. */
  lemma SweepFinds(s: State, now: int, x: int)
    requires Good(s)
    ensures var t := Step(s, Tick(now));
            Good(t.0) && s.last <= t.0.last && (x in t.1 <==> s.last < x <= t.0.last)
  {
    StepWellFormed(s, Tick(now));
    OneRises(s, Tick(now));
    DueHas(s.last + 1, Min(IndexOf(s.durations, Elapsed(s, now)), |s.durations| - 1), x);
  }

  lemma DueAfterSweep(s: Sys, now: int, x: int)
    requires Good(s.live)
    ensures IsDue(After(s, Sweep(now)), x) <==> IsDue(s, x) || s.live.last < x <= After(s, Sweep(now)).live.last
  {
    var t := After(s, Sweep(now));
    SweepFinds(s.live, now, x);
    if IsDue(s, x) {
      var w :| 0 <= w < |s.rounds| && DueIn(s, w, x);
      assert DueIn(t, w, x);
    }
    if s.live.last < x <= t.live.last { assert DueIn(t, |s.rounds|, x); }
    if IsDue(t, x) {
      var w :| 0 <= w < |t.rounds| && DueIn(t, w, x);
      assert w < |s.rounds| ==> DueIn(s, w, x);
    }
  }

  lemma DueAfterAnnounce(s: Sys, who: nat, x: int)
    requires Good(s.live) && Can(s, Announce(who))
    ensures IsDue(After(s, Announce(who)), x) ==> IsDue(s, x)
    ensures IsDue(s, x) ==> IsDue(After(s, Announce(who)), x) || x in After(s, Announce(who)).done
  {
    var t := After(s, Announce(who));
    if IsDue(t, x) {
      var w :| 0 <= w < |t.rounds| && DueIn(t, w, x);
      assert DueIn(s, w, x);
    }
    if IsDue(s, x) {
      var w :| 0 <= w < |s.rounds| && DueIn(s, w, x);
      if w == who && x == s.rounds[who].due[0] {
        assert t.done[|s.done|] == x;
      } else {
        assert DueIn(t, w, x);
      }
    }
  }

  lemma SameDue(s: Sys, e: Event, x: int)
    requires Can(s, e) && Good(s.live) && (e.Do? || e.Save?)
    ensures IsDue(After(s, e), x) <==> IsDue(s, x)
  {
    assert forall w :: 0 <= w < |s.rounds| ==> (DueIn(After(s, e), w, x) <==> DueIn(s, w, x));
  }

  lemma InvKept(s: Sys, e: Event, first: int)
    requires Inv(s, first) && Can(s, e)
    ensures Inv(After(s, e), first) && s.saved.last <= After(s, e).saved.last && s.done <= After(s, e).done
  {
    var t := After(s, e);
    if e.Do? { OpKeepsLast(s.live, e.op); }
    if e.Sweep? { SweepFinds(s.live, e.now, 0); }
    forall x | IsDue(t, x)
      ensures first <= x <= t.live.last
    {
      if e.Sweep? { DueAfterSweep(s, e.now, x); }
      else if e.Announce? { DueAfterAnnounce(s, e.who, x); }
      else if !e.Crash? { SameDue(s, e, x); }
    }
  }

  /** Every block the clock counts has been announced or is due. */
  ghost predicate NothingLost(s: Sys, first: int) {
    forall x :: first <= x <= s.live.last ==> x in s.done || IsDue(s, x)
  }

  /** A crash now would lose this block: it is due, counted on disk, and has not been announced. */
  predicate Exposed(s: Sys, x: int) { IsDue(s, x) && x <= s.saved.last && x !in s.done }

  ghost predicate Cut(s: Sys) { exists x :: Exposed(s, x) }

  lemma NothingLostKept(s: Sys, e: Event, first: int)
    requires Inv(s, first) && Can(s, e) && NothingLost(s, first) && (e.Crash? ==> !Cut(s))
    ensures NothingLost(After(s, e), first)
  {
    var t := After(s, e);
    InvKept(s, e, first);
    if e.Do? { OpKeepsLast(s.live, e.op); }
    forall x | first <= x <= t.live.last
      ensures x in t.done || IsDue(t, x)
    {
      if e.Sweep? { DueAfterSweep(s, e.now, x); }
      else if e.Announce? { DueAfterAnnounce(s, e.who, x); }
      else if e.Crash? { assert !Exposed(s, x); }
      else { SameDue(s, e, x); }
    }
  }

  /** This block is counted on disk, was never announced, and is not due. */
  predicate Gone(s: Sys, x: int) { x !in s.done && !IsDue(s, x) && x <= s.saved.last }

  lemma GoneForGood(s: Sys, e: Event, first: int, x: int)
    requires Inv(s, first) && Can(s, e) && Gone(s, x)
    ensures Gone(After(s, e), x)
  {
    InvKept(s, e, first);
    if e.Sweep? { DueAfterSweep(s, e.now, x); }
    else if e.Announce? {
      DueAfterAnnounce(s, e.who, x);
      if s.rounds[e.who].due[0] == x { assert DueIn(s, e.who, x); }
    }
    else if !e.Crash? { SameDue(s, e, x); }
  }

  // ---- whole runs ----

  ghost predicate Steps(s: Sys, e: Event, t: Sys) { Good(s.live) && Can(s, e) && t == After(s, e) }

  ghost predicate Behaviour(run: seq<Sys>, events: seq<Event>) {
    && |run| == |events| + 1 && Good(run[0].live) && run[0] == Sys(run[0].live, [], run[0].live, [])
    && forall i :: 0 <= i < |events| ==> Steps(run[i], events[i], run[i + 1])
  }

  /** The first block this run has to announce. */
  function First(s: Sys): int { s.live.last + 1 }

  ghost predicate NoCut(run: seq<Sys>, events: seq<Event>, i: nat)
    requires |run| == |events| + 1
  {
    forall j :: 0 <= j < i && j < |events| && events[j].Crash? ==> !Cut(run[j])
  }

  lemma InvAt(run: seq<Sys>, events: seq<Event>, i: nat)
    requires Behaviour(run, events) && 0 < i < |run| && Inv(run[i - 1], First(run[0]))
    ensures Inv(run[i], First(run[0]))
    ensures NothingLost(run[i - 1], First(run[0])) && (events[i - 1].Crash? ==> !Cut(run[i - 1])) ==> NothingLost(run[i], First(run[0]))
  {
    assert Steps(run[i - 1], events[i - 1], run[i]);
    InvKept(run[i - 1], events[i - 1], First(run[0]));
    if NothingLost(run[i - 1], First(run[0])) && (events[i - 1].Crash? ==> !Cut(run[i - 1])) {
      NothingLostKept(run[i - 1], events[i - 1], First(run[0]));
    }
  }

  lemma {:induction false} AlwaysInv(run: seq<Sys>, events: seq<Event>, i: nat)
    requires Behaviour(run, events) && i < |run|
    ensures Inv(run[i], First(run[0]))
    ensures NoCut(run, events, i) ==> NothingLost(run[i], First(run[0]))
  {
    if i > 0 {
      AlwaysInv(run, events, i - 1);
      InvAt(run, events, i);
    }
  }

  lemma GoneAt(run: seq<Sys>, events: seq<Event>, i: nat, x: int)
    requires Behaviour(run, events) && 0 < i < |run| && Gone(run[i - 1], x)
    ensures Gone(run[i], x)
  {
    AlwaysInv(run, events, i - 1);
    assert Steps(run[i - 1], events[i - 1], run[i]);
    GoneForGood(run[i - 1], events[i - 1], First(run[0]), x);
  }

  lemma {:induction false} GoneSince(run: seq<Sys>, events: seq<Event>, i: nat, j: nat, x: int)
    requires Behaviour(run, events) && i <= j < |run| && Gone(run[i], x)
    ensures Gone(run[j], x)
    decreases j
  {
    if i < j {
      GoneSince(run, events, i, j - 1, x);
      GoneAt(run, events, j, x);
    }
  }

  lemma CutIsLost(run: seq<Sys>, events: seq<Event>, j: nat, i: nat)
    requires Behaviour(run, events) && j < i < |run| && events[j].Crash? && Cut(run[j])
    ensures !NothingLost(run[i], First(run[0]))
  {
    var x :| Exposed(run[j], x);
    AlwaysInv(run, events, j);
    AlwaysInv(run, events, i);
    assert Steps(run[j], events[j], run[j + 1]);
    assert Gone(run[j + 1], x);
    GoneSince(run, events, j + 1, i, x);
  }

  /** Over every run, however often the server dies: all the blocks from the first one up to the clock's own
      have been announced or are due if and only if no crash came at a block exposed by what was saved. */
  lemma RestartCoversIff(run: seq<Sys>, events: seq<Event>, i: nat)
    requires Behaviour(run, events) && i < |run|
    ensures NothingLost(run[i], First(run[0])) <==> NoCut(run, events, i)
  {
    AlwaysInv(run, events, i);
    if !NoCut(run, events, i) {
      var j :| 0 <= j < i && j < |events| && events[j].Crash? && Cut(run[j]);
      CutIsLost(run, events, j, i);
    }
  }

  // ---- which saves expose a block ----

  ghost predicate NoCrash(events: seq<Event>, a: nat, b: nat) {
    forall k :: a <= k < b && k < |events| ==> !events[k].Crash?
  }

  /** The clock was saved at k while this block was due, and the server has not died since. */
  ghost predicate SavedAt(run: seq<Sys>, events: seq<Event>, k: nat, j: nat, x: int) {
    k < j && k < |events| && k < |run| && events[k].Save? && IsDue(run[k], x) && NoCrash(events, k + 1, j)
  }

  lemma CountedAt(run: seq<Sys>, events: seq<Event>, j: nat, x: int)
    requires Behaviour(run, events) && 0 < j < |run| && IsDue(run[j], x) && x <= run[j].saved.last
    ensures !events[j - 1].Crash? && IsDue(run[j - 1], x)
    ensures events[j - 1].Save? || x <= run[j - 1].saved.last
  {
    var s, e := run[j - 1], events[j - 1];
    AlwaysInv(run, events, j - 1);
    assert Steps(s, e, run[j]);
    if e.Sweep? { DueAfterSweep(s, e.now, x); }
    else if e.Announce? { DueAfterAnnounce(s, e.who, x); }
    else if !e.Crash? { SameDue(s, e, x); }
  }

  /** What is due and counted on disk was due when the clock was saved. */
  lemma {:induction false} CountedWasSaved(run: seq<Sys>, events: seq<Event>, j: nat, x: int) returns (k: nat)
    requires Behaviour(run, events) && 0 < j < |run| && IsDue(run[j], x) && x <= run[j].saved.last
    ensures SavedAt(run, events, k, j, x)
  {
    CountedAt(run, events, j, x);
    k := j - 1;
    if !events[j - 1].Save? {
      assert j > 1;
      k := CountedWasSaved(run, events, j - 1, x);
    }
  }

  /** The tick still has to announce the block, or it has been announced. */
  predicate StillDue(s: Sys, w: nat, x: int, told: nat) {
    w < |s.rounds| && s.rounds[w].told >= told && (DueIn(s, w, x) || x in s.done)
  }

  lemma StillDueAt(run: seq<Sys>, events: seq<Event>, j: nat, w: nat, x: int, told: nat)
    requires Behaviour(run, events) && 0 < j < |run| && !events[j - 1].Crash? && StillDue(run[j - 1], w, x, told)
    ensures StillDue(run[j], w, x, told) && run[j - 1].saved.last <= run[j].saved.last
  {
    var s, e := run[j - 1], events[j - 1];
    AlwaysInv(run, events, j - 1);
    assert Steps(s, e, run[j]);
    InvKept(s, e, First(run[0]));
    if e.Announce? && e.who == w && DueIn(s, w, x) && x == s.rounds[w].due[0] { assert run[j].done[|s.done|] == x; }
  }

  lemma {:induction false} StillDueSince(run: seq<Sys>, events: seq<Event>, i: nat, j: nat, w: nat, x: int, told: nat)
    requires Behaviour(run, events) && i <= j < |run| && NoCrash(events, i, j) && StillDue(run[i], w, x, told)
    ensures StillDue(run[j], w, x, told) && run[i].saved.last <= run[j].saved.last
    decreases j
  {
    if i < j {
      StillDueSince(run, events, i, j - 1, w, x, told);
      StillDueAt(run, events, j, w, x, told);
    }
  }

  /** A save while a block is due exposes it until it is announced. */
  lemma SaveExposes(run: seq<Sys>, events: seq<Event>, k: nat, j: nat, w: nat, x: int)
    requires Behaviour(run, events) && j < |run| && SavedAt(run, events, k, j, x) && x !in run[j].done
    requires w < |run[k].rounds| && DueIn(run[k], w, x)
    ensures Exposed(run[j], x) && w < |run[j].rounds| && DueIn(run[j], w, x) && run[j].rounds[w].told >= run[k].rounds[w].told
  {
    AlwaysInv(run, events, k);
    assert Steps(run[k], events[k], run[k + 1]);
    assert StillDue(run[k + 1], w, x, run[k].rounds[w].told);
    StillDueSince(run, events, k + 1, j, w, x, run[k].rounds[w].told);
  }

  /** Some block was due when the clock was saved, and neither has it been announced nor has the server died
      since. */
  ghost predicate SavedTooEarly(run: seq<Sys>, events: seq<Event>, j: nat)
    requires j < |run|
  {
    exists k: nat, x: int :: SavedAt(run, events, k, j, x) && x !in run[j].done
  }

  /** Which saves and crashes lose blocks: a crash loses one if and only if the clock was saved while a block
      was due and that block has not been announced since. Any save counts, by an announcement or by the
      organiser. */
  lemma CutIff(run: seq<Sys>, events: seq<Event>, j: nat)
    requires Behaviour(run, events) && j < |run|
    ensures Cut(run[j]) <==> SavedTooEarly(run, events, j)
  {
    if Cut(run[j]) {
      var x :| Exposed(run[j], x);
      assert j > 0;
      var k := CountedWasSaved(run, events, j, x);
    }
    if SavedTooEarly(run, events, j) {
      var k: nat, x: int :| SavedAt(run, events, k, j, x) && x !in run[j].done;
      var w :| 0 <= w < |run[k].rounds| && DueIn(run[k], w, x);
      SaveExposes(run, events, k, j, w, x);
    }
  }

  /** No crash came after the clock had been saved while a block was due that was never announced since. */
  ghost predicate NoneSavedTooEarly(run: seq<Sys>, events: seq<Event>, i: nat)
    requires |run| == |events| + 1
  {
    forall j :: 0 <= j < i && j < |events| && events[j].Crash? ==> !SavedTooEarly(run, events, j)
  }

  /** The same over every run, in terms of when the clock is saved: no block is lost if and only if no crash
      follows a save made while a block was due that has not been announced since. */
  lemma RestartCoversBySaves(run: seq<Sys>, events: seq<Event>, i: nat)
    requires Behaviour(run, events) && i < |run|
    ensures NothingLost(run[i], First(run[0])) <==> NoneSavedTooEarly(run, events, i)
  {
    forall j | 0 <= j < i && j < |events| && events[j].Crash?
      ensures Cut(run[j]) <==> SavedTooEarly(run, events, j)
    {
      CutIff(run, events, j);
    }
    RestartCoversIff(run, events, i);
  }

  // ---- what other saving would guarantee ----

  /** The clock is saved only when nothing is due. */
  ghost predicate SavesWait(run: seq<Sys>, events: seq<Event>) {
    |run| == |events| + 1 && forall k :: 0 <= k < |events| && events[k].Save? ==> forall x :: !IsDue(run[k], x)
  }

  /** Were the clock saved only when no block is due, no crash would ever lose one. */
  lemma WaitingLosesNothing(run: seq<Sys>, events: seq<Event>, i: nat)
    requires Behaviour(run, events) && SavesWait(run, events) && i < |run|
    ensures NothingLost(run[i], First(run[0]))
  {
    forall j | 0 <= j < i && j < |events| && events[j].Crash?
      ensures !Cut(run[j])
    {
      CutIff(run, events, j);
    }
    RestartCoversIff(run, events, i);
  }

  /** The clock is saved only when every tick under way has announced its first block. */
  ghost predicate SavesFollow(run: seq<Sys>, events: seq<Event>) {
    && |run| == |events| + 1
    && forall k, w :: 0 <= k < |events| && events[k].Save? && 0 <= w < |run[k].rounds| ==> Started(run[k].rounds[w])
  }

  predicate Started(r: Round) { r.due != [] ==> r.told > 0 }

  /** Were it saved only by announcements, a crash would lose blocks only after some and before all of a tick's
      announcements, so a tick with at most one block due would never lose one. */
  lemma CutOnlyMidway(run: seq<Sys>, events: seq<Event>, j: nat)
    requires Behaviour(run, events) && SavesFollow(run, events) && j < |run| && Cut(run[j])
    ensures exists w :: 0 <= w < |run[j].rounds| && Midway(run[j].rounds[w])
  {
    CutIff(run, events, j);
    var k: nat, x: int :| SavedAt(run, events, k, j, x) && x !in run[j].done;
    var w :| 0 <= w < |run[k].rounds| && DueIn(run[k], w, x);
    assert Started(run[k].rounds[w]);
    SaveExposes(run, events, k, j, w, x);
    assert Midway(run[j].rounds[w]);
  }

  /** Some of its announcements have been made, and some not. */
  predicate Midway(r: Round) { 0 < r.told < r.told + |r.due| }

  // ---- runs that lose a block ----

  /** Blocks of a minute, started at time 0. */
  function Minutes(ids: seq<string>, last: int): State {
    State(true, 0, 0, false, 0, seq(|ids|, i => MIN_BLOCK), ids, last)
  }

  lemma OneIsDue(s: State)
    requires s == Minutes(["a"], -1)
    ensures Good(s) && Step(s, Tick(0)) == (Minutes(["a"], 0), [0], Ok)
  {
    IndexOfStart(s.durations, 0);
    assert StartOf(s.durations, 0) == 0 && Elapsed(s, 0) == 0 && IndexOf(s.durations, 0) == 0;
    assert Due(0, -1) == [] && Due(0, 0) == [0];
  }

  /** One block is due, the organiser's handler saves the clock before it is announced, and the server dies: the
      only block is never announced. */
  lemma OnlyBlockLost()
    ensures exists run: seq<Sys>, events: seq<Event> :: Behaviour(run, events) && |run| == 4 && events == [Sweep(0), Save, Crash]
              && |run[1].rounds| == 1 && run[1].rounds[0].due == [0] && !NothingLost(run[3], First(run[0]))
  {
    var a, b := Minutes(["a"], -1), Minutes(["a"], 0);
    var round := Round(0, [0]);
    var run := [Sys(a, [], a, []), Sys(b, [round], a, []), Sys(b, [round], b, []), Sys(b, [], b, [])];
    var events := [Sweep(0), Save, Crash];
    OneIsDue(a);
    assert [] + [round] == [round];
    assert Steps(run[0], events[0], run[1]) && Steps(run[1], events[1], run[2]) && Steps(run[2], events[2], run[3]);
    assert Behaviour(run, events);
    assert 0 !in run[3].done && !IsDue(run[3], 0);
  }

  lemma TwoAreDue(s: State)
    requires s == Minutes(["a", "b"], -1)
    ensures Good(s) && Step(s, Tick(MIN_BLOCK)) == (Minutes(["a", "b"], 1), [0, 1], Ok)
  {
    IndexOfStart(s.durations, 1);
    assert StartOf(s.durations, 0) == 0 && StartOf(s.durations, 1) == MIN_BLOCK;
    assert Elapsed(s, MIN_BLOCK) == MIN_BLOCK && IndexOf(s.durations, MIN_BLOCK) == 1;
    assert Due(0, -1) == [] && Due(0, 0) == [0] && Due(0, 1) == [0, 1];
  }

  /** The first tick comes when the second block has begun. The server dies after it has announced the first
      block, and saved the clock as that makes it do: the second block is never announced. */
  lemma SecondBlockLost()
    ensures exists run: seq<Sys>, events: seq<Event> :: Behaviour(run, events) && |run| == 5 && events == [Sweep(MIN_BLOCK), Announce(0), Save, Crash]
              && !NothingLost(run[4], First(run[0]))
  {
    var a, b := Minutes(["a", "b"], -1), Minutes(["a", "b"], 1);
    var all, rest := Round(0, [0, 1]), Round(1, [1]);
    var run := [Sys(a, [], a, []), Sys(b, [all], a, []), Sys(b, [rest], a, [0]), Sys(b, [rest], b, [0]), Sys(b, [], b, [0])];
    var events := [Sweep(MIN_BLOCK), Announce(0), Save, Crash];
    TwoAreDue(a);
    assert [] + [all] == [all] && [0, 1][1..] == [1] && [] + [0] == [0];
    assert [all][0 := rest] == [rest] && Told(all) == rest;
    assert Steps(run[0], events[0], run[1]) && Steps(run[1], events[1], run[2]);
    assert Steps(run[2], events[2], run[3]) && Steps(run[3], events[3], run[4]);
    assert Behaviour(run, events);
    assert 1 !in run[4].done && !IsDue(run[4], 1);
  }
}

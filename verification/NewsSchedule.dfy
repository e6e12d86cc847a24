/** The scheduler of scripted news: what goes out by itself and when, what the organiser can hold, move,
    edit or release by hand, and what a restart remembers. */
module NewsSchedule {
  import opened Numeric
  import opened Options

  datatype Impact = Impact(sector: string, symbol: string, shockPct: real, rampMinutes: real)

  /** A news item. A regime announcement reaches everyone at once. */
  datatype Event = Event(id: string, regime: bool, phase2: bool, atMinute: real, headline: string, impacts: seq<Impact>)

  datatype Regime = Regime(id: string, bull: bool, atMinute: real, headline: string)

  datatype Scenario = Scenario(events: seq<Event>, regimes: seq<Regime>, tickSeconds: int, byMarketTime: bool, tableRows: Option<nat>)

  datatype Edit = Edit(headline: string, at: Option<real>)

  datatype Shock = Shock(sector: string, symbol: string, perTickPct: real, ticksLeft: int)

  datatype Pending = Pending(applyAt: int, impacts: seq<Impact>)

  datatype State = State(tick: int, marketSeconds: int, fired: seq<string>, pending: seq<Pending>, shocks: seq<Shock>,
                         manual: bool, skipped: seq<string>, edits: map<string, Edit>)

  /** What goes out. */
  datatype Release = Release(id: string, regime: bool, headline: string)

  /** What one second meets: the event's elapsed minutes once it has started, whether the market is open and
      Phase 1 is on, the fund managers' head start in milliseconds, and the time. */
  datatype World = World(elapsed: Option<real>, open: bool, phase1: bool, lead: int, now: int)

  const START := State(0, 0, [], [], [], false, [], map[])

  // ---- the scenario ----

  predicate Known(sc: Scenario, id: string) {
    (exists i :: 0 <= i < |sc.events| && sc.events[i].id == id) || (exists i :: 0 <= i < |sc.regimes| && sc.regimes[i].id == id)
  }

  /** Ids are unique over events and regimes together; prices change every so many seconds. */
  ghost predicate Valid(sc: Scenario) {
    && sc.tickSeconds >= 1
    && (forall i, j :: 0 <= i < j < |sc.events| ==> sc.events[i].id != sc.events[j].id)
    && (forall i, j :: 0 <= i < j < |sc.regimes| ==> sc.regimes[i].id != sc.regimes[j].id)
    && (forall i, j :: 0 <= i < |sc.events| && 0 <= j < |sc.regimes| ==> sc.events[i].id != sc.regimes[j].id)
  }

  /** An item with the organiser's edits. */
  function Effective(ev: Event, edits: map<string, Edit>): Event {
    if ev.id !in edits then ev
    else
      var ed := edits[ev.id];
      var named := if ed.headline != "" then ev.(headline := ed.headline) else ev;
      if ed.at.Some? then named.(atMinute := ed.at.value) else named
  }

  function Minutes(sc: Scenario, s: State, elapsed: real): real {
    if sc.byMarketTime then s.marketSeconds as real / 60.0 else elapsed
  }

  /** With a price table news goes out a head start before its minute. */
  function Early(sc: Scenario, lead: int): real { if sc.tableRows.Some? then lead as real / 60000.0 else 0.0 }

  // ---- what is due ----

  function Free(s: State, id: string): bool { id !in s.fired && id !in s.skipped }

  predicate EventDue(sc: Scenario, s: State, ev: Event, w: World, mins: real) {
    var e := Effective(ev, s.edits);
    && mins >= (if e.regime then e.atMinute else e.atMinute - Early(sc, w.lead))
    && Free(s, ev.id)
    && !(ev.phase2 && w.phase1)
  }

  predicate RegimeDue(s: State, r: Regime, mins: real) { mins >= r.atMinute && Free(s, r.id) }

  function EventRelease(ev: Event, edits: map<string, Edit>): Release {
    Release(ev.id, Effective(ev, edits).regime, Effective(ev, edits).headline)
  }

  function RegimeRelease(r: Regime): Release {
    Release(r.id, true, if r.headline != "" then r.headline
                        else if r.bull then "The market has entered a Bull Run" else "The market has entered a Bear Run")
  }

  function FireEvent(s: State, ev: Event, applyAt: int): State {
    s.(fired := s.fired + [ev.id], pending := if ev.impacts == [] then s.pending else s.pending + [Pending(applyAt, ev.impacts)])
  }

  function FireRegime(s: State, r: Regime): State { s.(fired := s.fired + [r.id]) }

  /** The events among the first n whose turn has come. */
  function FireEvents(sc: Scenario, s: State, w: World, mins: real, n: nat): (State, seq<Release>)
    requires n <= |sc.events|
  {
    if n == 0 then (s, [])
    else
      var past := FireEvents(sc, s, w, mins, n - 1);
      var ev := sc.events[n - 1];
      if EventDue(sc, past.0, ev, w, mins)
      then (FireEvent(past.0, ev, w.now + w.lead), past.1 + [EventRelease(ev, s.edits)])
      else past
  }

  function FireRegimes(sc: Scenario, s: State, mins: real, n: nat): (State, seq<Release>)
    requires n <= |sc.regimes|
  {
    if n == 0 then (s, [])
    else
      var past := FireRegimes(sc, s, mins, n - 1);
      if RegimeDue(past.0, sc.regimes[n - 1], mins)
      then (FireRegime(past.0, sc.regimes[n - 1]), past.1 + [RegimeRelease(sc.regimes[n - 1])])
      else past
  }

  function FireDue(sc: Scenario, s: State, w: World, elapsed: real): (State, seq<Release>) {
    if s.manual then (s, [])
    else
      var mins := Minutes(sc, s, elapsed);
      var first := FireEvents(sc, s, w, mins, |sc.events|);
      var rest := FireRegimes(sc, first.0, mins, |sc.regimes|);
      (rest.0, first.1 + rest.1)
  }

  // ---- price effects ----

  /** How a whole move spreads over so many price changes. */
  type Spread = (real, int) -> real

  function Ticks(sc: Scenario, im: Impact): int
    requires sc.tickSeconds > 0
  {
    Max(1, Ceil(im.rampMinutes * 60.0 / sc.tickSeconds as real))
  }

  function ShocksOf(sc: Scenario, ims: seq<Impact>, spread: Spread): seq<Shock>
    requires sc.tickSeconds > 0
  {
    seq(|ims|, i requires 0 <= i < |ims| =>
          Shock(ims[i].sector, ims[i].symbol, spread(ims[i].shockPct, Ticks(sc, ims[i])), Ticks(sc, ims[i])))
  }

  /** Effects whose moment has come become shocks, in order; the others wait, in order. */
  function ApplyPending(sc: Scenario, ps: seq<Pending>, shocks: seq<Shock>, now: int, spread: Spread): (seq<Pending>, seq<Shock>)
    requires sc.tickSeconds > 0
  {
    if ps == [] then ([], shocks)
    else
      var last := ps[|ps| - 1];
      var past := ApplyPending(sc, ps[..|ps| - 1], shocks, now, spread);
      if last.applyAt > now then (past.0 + [last], past.1) else (past.0, past.1 + ShocksOf(sc, last.impacts, spread))
  }

  /** A price change uses up one step of every shock; a price table has its own and forgets them. */
  function UseShocks(shocks: seq<Shock>): seq<Shock> {
    if shocks == [] then []
    else
      var last := shocks[|shocks| - 1];
      var past := UseShocks(shocks[..|shocks| - 1]);
      if last.ticksLeft - 1 > 0 then past + [last.(ticksLeft := last.ticksLeft - 1)] else past
  }

  /** One second of open market. */
  function MarketSecond(sc: Scenario, s: State): State
    requires sc.tickSeconds > 0
  {
    var t := s.(marketSeconds := s.marketSeconds + 1);
    if t.marketSeconds % sc.tickSeconds != 0 then t
    else
      var u := t.(tick := t.tick + 1);
      u.(shocks := if sc.tableRows.Some? && u.tick < sc.tableRows.value then [] else UseShocks(u.shocks))
  }

  function AdvanceOne(sc: Scenario, s: State, w: World, spread: Spread): (State, seq<Release>)
    requires sc.tickSeconds > 0
  {
    if w.elapsed.None? then (s, [])
    else
      var t := if w.open then MarketSecond(sc, s) else s;
      var fired := FireDue(sc, t, w, w.elapsed.value);
      var effects := ApplyPending(sc, fired.0.pending, fired.0.shocks, w.now, spread);
      (fired.0.(pending := effects.0, shocks := effects.1), fired.1)
  }

  // ---- the organiser's controls ----

  /** By hand, whatever its time, its phase or a hold; once only. */
  function FireOne(sc: Scenario, s: State, id: string, w: World): (State, seq<Release>) {
    if id in s.fired then (s, [])
    else
      var first := FireNamed(sc, s, id, w, |sc.events|);
      var rest := FireNamedRegime(sc, first.0, id, |sc.regimes|);
      (rest.0, first.1 + rest.1)
  }

  function FireNamed(sc: Scenario, s: State, id: string, w: World, n: nat): (State, seq<Release>)
    requires n <= |sc.events|
  {
    if n == 0 then (s, [])
    else
      var past := FireNamed(sc, s, id, w, n - 1);
      if sc.events[n - 1].id == id
      then (FireEvent(past.0, sc.events[n - 1], w.now + w.lead), past.1 + [EventRelease(sc.events[n - 1], s.edits)])
      else past
  }

  function FireNamedRegime(sc: Scenario, s: State, id: string, n: nat): (State, seq<Release>)
    requires n <= |sc.regimes|
  {
    if n == 0 then (s, [])
    else
      var past := FireNamedRegime(sc, s, id, n - 1);
      if sc.regimes[n - 1].id == id
      then (FireRegime(past.0, sc.regimes[n - 1]), past.1 + [RegimeRelease(sc.regimes[n - 1])])
      else past
  }

  /** Everything whose own time has passed and that is not held; regimes and phases aside. */
  function Overdue(sc: Scenario, s: State, w: World, mins: real, n: nat): (State, seq<Release>)
    requires n <= |sc.events|
  {
    if n == 0 then (s, [])
    else
      var past := Overdue(sc, s, w, mins, n - 1);
      var ev := sc.events[n - 1];
      if mins >= Effective(ev, s.edits).atMinute && Free(past.0, ev.id)
      then (FireEvent(past.0, ev, w.now + w.lead), past.1 + [EventRelease(ev, s.edits)])
      else past
  }

  function OverdueMinutes(sc: Scenario, s: State, w: World): real {
    if !sc.byMarketTime && w.elapsed.Some? then w.elapsed.value else s.marketSeconds as real / 60.0
  }

  function Without(skipped: seq<string>, id: string): seq<string> {
    if skipped == [] then []
    else if skipped[|skipped| - 1] == id then Without(skipped[..|skipped| - 1], id)
    else Without(skipped[..|skipped| - 1], id) + [skipped[|skipped| - 1]]
  }

  predicate MayHold(sc: Scenario, s: State, id: string) { id !in s.fired && Known(sc, id) }

  function Held(sc: Scenario, s: State, id: string, skip: bool): State {
    if !MayHold(sc, s, id) then s
    else s.(skipped := Without(s.skipped, id) + if skip then [id] else [])
  }

  function EditOf(s: State, id: string): Edit { if id in s.edits then s.edits[id] else Edit("", None) }

  predicate IsEvent(sc: Scenario, id: string) { exists i :: 0 <= i < |sc.events| && sc.events[i].id == id }

  predicate MayEdit(sc: Scenario, s: State, id: string, at: Option<real>) {
    (at.Some? ==> 0.0 <= at.value <= 1440.0) && IsEvent(sc, id) && id !in s.fired
  }

  function Edited(sc: Scenario, s: State, id: string, headline: string, at: Option<real>): State {
    if !MayEdit(sc, s, id, at) then s
    else
      var ed := EditOf(s, id);
      s.(edits := s.edits[id := Edit(if headline != "" then headline else ed.headline, if at.Some? then at else ed.at)])
  }

  function Shifted(sc: Scenario, s: State, delta: real, n: nat): State
    requires n <= |sc.events|
  {
    if n == 0 then s
    else
      var past := Shifted(sc, s, delta, n - 1);
      var ev := sc.events[n - 1];
      if ev.id in s.fired then past
      else past.(edits := past.edits[ev.id := EditOf(past, ev.id).(at := Some(RMax(Effective(ev, past.edits).atMinute + delta, 0.0)))])
  }

  predicate MayShift(delta: real) { -1440.0 <= delta <= 1440.0 }

  function ShiftAll(sc: Scenario, s: State, delta: real): State {
    if !MayShift(delta) then s else Shifted(sc, s, delta, |sc.events|)
  }

  datatype Op =
    | Second(w: World) | ByHand(id: string, w: World) | CatchUp(w: World)
    | Hold(id: string, skip: bool) | EditItem(id: string, headline: string, at: Option<real>) | Shift(delta: real) | SetManual(on: bool)

  function Step(sc: Scenario, s: State, op: Op, spread: Spread): (State, seq<Release>)
    requires sc.tickSeconds > 0
  {
    match op
    case Second(w) => AdvanceOne(sc, s, w, spread)
    case ByHand(id, w) => FireOne(sc, s, id, w)
    case CatchUp(w) => Overdue(sc, s, w, OverdueMinutes(sc, s, w), |sc.events|)
    case Hold(id, skip) => (Held(sc, s, id, skip), [])
    case EditItem(id, headline, at) => (Edited(sc, s, id, headline, at), [])
    case Shift(delta) => (ShiftAll(sc, s, delta), [])
    case SetManual(on) => (s.(manual := on), [])
  }

  // ---- every step fires only what has not been fired, and records it ----

  function Ids(out: seq<Release>): seq<string> { seq(|out|, i requires 0 <= i < |out| => out[i].id) }

  predicate NoRepeats(s: seq<string>) { forall i, j :: 0 <= i < j < |s| ==> s[i] != s[j] }

  lemma IdsPlus(a: seq<Release>, b: seq<Release>)
    ensures Ids(a + b) == Ids(a) + Ids(b)
  {
  }

  /** The step's record: what it fired is what it releases, on top of what was fired before. */
  ghost predicate Recorded(s: State, t: State, out: seq<Release>) { t.fired == s.fired + Ids(out) }

  lemma RecordedMore(s: State, t: State, u: State, out: seq<Release>, r: Release)
    requires Recorded(s, t, out) && u.fired == t.fired + [r.id]
    ensures Recorded(s, u, out + [r])
  {
    IdsPlus(out, [r]);
    assert Ids([r]) == [r.id];
  }

  lemma FreshMore(fired: seq<string>, id: string)
    requires NoRepeats(fired) && id !in fired
    ensures NoRepeats(fired + [id])
  {
  }

  lemma {:induction false} EventsFire(sc: Scenario, s: State, w: World, mins: real, n: nat)
    requires n <= |sc.events| && NoRepeats(s.fired)
    ensures var r := FireEvents(sc, s, w, mins, n); Recorded(s, r.0, r.1) && NoRepeats(r.0.fired) && Same(s, r.0)
  {
    if n > 0 {
      EventsFire(sc, s, w, mins, n - 1);
      var past, ev := FireEvents(sc, s, w, mins, n - 1), sc.events[n - 1];
      if EventDue(sc, past.0, ev, w, mins) {
        FreshMore(past.0.fired, ev.id);
        RecordedMore(s, past.0, FireEvent(past.0, ev, w.now + w.lead), past.1, EventRelease(ev, s.edits));
      }
    } else {
      assert s.fired + Ids([]) == s.fired;
    }
  }

  /** What firing leaves alone. */
  predicate Same(s: State, t: State) {
    s.manual == t.manual && s.skipped == t.skipped && s.edits == t.edits && s.tick == t.tick && s.marketSeconds == t.marketSeconds
  }

  lemma {:induction false} RegimesFire(sc: Scenario, s: State, mins: real, n: nat)
    requires n <= |sc.regimes| && NoRepeats(s.fired)
    ensures var r := FireRegimes(sc, s, mins, n); Recorded(s, r.0, r.1) && NoRepeats(r.0.fired) && Same(s, r.0)
  {
    if n > 0 {
      RegimesFire(sc, s, mins, n - 1);
      var past, g := FireRegimes(sc, s, mins, n - 1), sc.regimes[n - 1];
      if RegimeDue(past.0, g, mins) {
        FreshMore(past.0.fired, g.id);
        RecordedMore(s, past.0, FireRegime(past.0, g), past.1, RegimeRelease(g));
      }
    } else {
      assert s.fired + Ids([]) == s.fired;
    }
  }

  lemma TwoRecorded(s: State, t: State, u: State, a: seq<Release>, b: seq<Release>)
    requires Recorded(s, t, a) && Recorded(t, u, b)
    ensures Recorded(s, u, a + b)
  {
    IdsPlus(a, b);
    assert s.fired + (Ids(a) + Ids(b)) == s.fired + Ids(a) + Ids(b);
  }

  lemma DueFires(sc: Scenario, s: State, w: World, elapsed: real)
    requires NoRepeats(s.fired)
    ensures var r := FireDue(sc, s, w, elapsed); Recorded(s, r.0, r.1) && NoRepeats(r.0.fired) && Same(s, r.0)
  {
    if s.manual {
      assert s.fired + Ids([]) == s.fired;
    } else {
      var mins := Minutes(sc, s, elapsed);
      EventsFire(sc, s, w, mins, |sc.events|);
      var first := FireEvents(sc, s, w, mins, |sc.events|);
      RegimesFire(sc, first.0, mins, |sc.regimes|);
      var second := FireRegimes(sc, first.0, mins, |sc.regimes|);
      TwoRecorded(s, first.0, second.0, first.1, second.1);
    }
  }

  lemma {:induction false} NamedFires(sc: Scenario, s: State, id: string, w: World, n: nat)
    requires n <= |sc.events| && NoRepeats(s.fired) && id !in s.fired && Valid(sc)
    ensures var r := FireNamed(sc, s, id, w, n);
            && Recorded(s, r.0, r.1) && NoRepeats(r.0.fired) && Same(s, r.0)
            && (id in r.0.fired <==> exists i :: 0 <= i < n && sc.events[i].id == id)
            && (r.1 != [] <==> exists i :: 0 <= i < n && sc.events[i].id == id)
  {
    if n > 0 {
      NamedFires(sc, s, id, w, n - 1);
      var past, ev := FireNamed(sc, s, id, w, n - 1), sc.events[n - 1];
      if ev.id == id {
        FreshMore(past.0.fired, id);
        RecordedMore(s, past.0, FireEvent(past.0, ev, w.now + w.lead), past.1, EventRelease(ev, s.edits));
      }
    } else {
      assert s.fired + Ids([]) == s.fired;
    }
  }

  lemma {:induction false} NamedRegimeFires(sc: Scenario, s: State, id: string, n: nat)
    requires n <= |sc.regimes| && NoRepeats(s.fired) && Valid(sc)
    requires id in s.fired ==> forall i :: 0 <= i < |sc.regimes| ==> sc.regimes[i].id != id
    ensures var r := FireNamedRegime(sc, s, id, n);
            && Recorded(s, r.0, r.1) && NoRepeats(r.0.fired) && Same(s, r.0)
            && (id in r.0.fired <==> id in s.fired || exists i :: 0 <= i < n && sc.regimes[i].id == id)
            && (r.1 != [] <==> exists i :: 0 <= i < n && sc.regimes[i].id == id)
  {
    if n > 0 {
      NamedRegimeFires(sc, s, id, n - 1);
      var past, g := FireNamedRegime(sc, s, id, n - 1), sc.regimes[n - 1];
      if g.id == id {
        FreshMore(past.0.fired, id);
        RecordedMore(s, past.0, FireRegime(past.0, g), past.1, RegimeRelease(g));
      }
    } else {
      assert s.fired + Ids([]) == s.fired;
    }
  }

  lemma OneFires(sc: Scenario, s: State, id: string, w: World)
    requires NoRepeats(s.fired) && Valid(sc)
    ensures var r := FireOne(sc, s, id, w);
            && Recorded(s, r.0, r.1) && NoRepeats(r.0.fired) && Same(s, r.0)
            && (r.1 != [] <==> id !in s.fired && Known(sc, id))
  {
    if id in s.fired {
      assert s.fired + Ids([]) == s.fired;
    } else {
      NamedFires(sc, s, id, w, |sc.events|);
      var first := FireNamed(sc, s, id, w, |sc.events|);
      NamedRegimeFires(sc, first.0, id, |sc.regimes|);
      var second := FireNamedRegime(sc, first.0, id, |sc.regimes|);
      TwoRecorded(s, first.0, second.0, first.1, second.1);
    }
  }

  lemma {:induction false} OverdueFires(sc: Scenario, s: State, w: World, mins: real, n: nat)
    requires n <= |sc.events| && NoRepeats(s.fired)
    ensures var r := Overdue(sc, s, w, mins, n); Recorded(s, r.0, r.1) && NoRepeats(r.0.fired) && Same(s, r.0)
  {
    if n > 0 {
      OverdueFires(sc, s, w, mins, n - 1);
      var past, ev := Overdue(sc, s, w, mins, n - 1), sc.events[n - 1];
      if mins >= Effective(ev, s.edits).atMinute && Free(past.0, ev.id) {
        FreshMore(past.0.fired, ev.id);
        RecordedMore(s, past.0, FireEvent(past.0, ev, w.now + w.lead), past.1, EventRelease(ev, s.edits));
      }
    } else {
      assert s.fired + Ids([]) == s.fired;
    }
  }

  lemma {:induction false} ShiftKeepsFired(sc: Scenario, s: State, delta: real, n: nat)
    requires n <= |sc.events|
    ensures var t := Shifted(sc, s, delta, n);
            t.fired == s.fired && t.skipped == s.skipped && t.manual == s.manual && t.tick == s.tick && t.marketSeconds == s.marketSeconds
  {
    if n > 0 { ShiftKeepsFired(sc, s, delta, n - 1); }
  }

  /** Whatever the step, it releases only items not released before, each once, and records them all. */
  lemma StepRecords(sc: Scenario, s: State, op: Op, spread: Spread)
    requires Valid(sc) && NoRepeats(s.fired)
    ensures var r := Step(sc, s, op, spread); Recorded(s, r.0, r.1) && NoRepeats(r.0.fired)
  {
    assert s.fired + Ids([]) == s.fired;
    match op
    case Second(w) =>
      if w.elapsed.Some? { DueFires(sc, if w.open then MarketSecond(sc, s) else s, w, w.elapsed.value); }
    case ByHand(id, w) => OneFires(sc, s, id, w);
    case CatchUp(w) => OverdueFires(sc, s, w, OverdueMinutes(sc, s, w), |sc.events|);
    case Shift(delta) => ShiftKeepsFired(sc, s, delta, |sc.events|);
    case _ =>
  }

  // ---- what goes out by itself ----

  /** The item with this id, if any, that would go out by itself now. */
  ghost predicate DueNow(sc: Scenario, s: State, id: string, w: World, mins: real) {
    || (exists i :: 0 <= i < |sc.events| && sc.events[i].id == id && EventDue(sc, s, sc.events[i], w, mins))
    || (exists i :: 0 <= i < |sc.regimes| && sc.regimes[i].id == id && RegimeDue(s, sc.regimes[i], mins))
  }

  /** Whether an event is due does not depend on the others that go out in the same second. */
  lemma {:induction false} EventsExactly(sc: Scenario, s: State, w: World, mins: real, n: nat, id: string)
    requires n <= |sc.events| && Valid(sc)
    ensures var r := FireEvents(sc, s, w, mins, n);
            && (id in Ids(r.1) <==> exists i :: 0 <= i < n && sc.events[i].id == id && EventDue(sc, s, sc.events[i], w, mins))
            && (id in r.0.fired <==> id in s.fired || id in Ids(r.1)) && r.0.skipped == s.skipped && r.0.edits == s.edits
  {
    if n > 0 {
      var past, ev := FireEvents(sc, s, w, mins, n - 1), sc.events[n - 1];
      EventsExactly(sc, s, w, mins, n - 1, id);
      EventsExactly(sc, s, w, mins, n - 1, ev.id);
      assert EventDue(sc, past.0, ev, w, mins) <==> EventDue(sc, s, ev, w, mins);
      IdsPlus(past.1, [EventRelease(ev, s.edits)]);
      assert Ids([EventRelease(ev, s.edits)]) == [ev.id];
    }
  }

  lemma {:induction false} RegimesExactly(sc: Scenario, s: State, mins: real, n: nat, id: string)
    requires n <= |sc.regimes| && Valid(sc)
    ensures var r := FireRegimes(sc, s, mins, n);
            && (id in Ids(r.1) <==> exists i :: 0 <= i < n && sc.regimes[i].id == id && RegimeDue(s, sc.regimes[i], mins))
            && (id in r.0.fired <==> id in s.fired || id in Ids(r.1)) && r.0.skipped == s.skipped
  {
    if n > 0 {
      var past, g := FireRegimes(sc, s, mins, n - 1), sc.regimes[n - 1];
      RegimesExactly(sc, s, mins, n - 1, id);
      RegimesExactly(sc, s, mins, n - 1, g.id);
      assert RegimeDue(past.0, g, mins) <==> RegimeDue(s, g, mins);
      IdsPlus(past.1, [RegimeRelease(g)]);
      assert Ids([RegimeRelease(g)]) == [g.id];
    }
  }

  /** With automatic news on, a second releases exactly the items that are due: their time has come, they
      are neither out nor held, and a Phase 2 item waits for Phase 2. With it off nothing goes out. */
  lemma DueExactly(sc: Scenario, s: State, w: World, elapsed: real, id: string)
    requires Valid(sc)
    ensures id in Ids(FireDue(sc, s, w, elapsed).1) <==> !s.manual && DueNow(sc, s, id, w, Minutes(sc, s, elapsed))
  {
    if !s.manual {
      var mins := Minutes(sc, s, elapsed);
      var first := FireEvents(sc, s, w, mins, |sc.events|);
      EventsExactly(sc, s, w, mins, |sc.events|, id);
      RegimesExactly(sc, first.0, mins, |sc.regimes|, id);
      IdsPlus(first.1, FireRegimes(sc, first.0, mins, |sc.regimes|).1);
      forall i | 0 <= i < |sc.regimes| && sc.regimes[i].id == id
        ensures RegimeDue(first.0, sc.regimes[i], mins) <==> RegimeDue(s, sc.regimes[i], mins)
      {
      }
    }
  }

  lemma {:induction false} OverdueFree(sc: Scenario, s: State, w: World, mins: real, n: nat, id: string)
    requires n <= |sc.events|
    ensures var r := Overdue(sc, s, w, mins, n);
            && (id in Ids(r.1) ==> Free(s, id) && IsEvent(sc, id))
            && (id in s.fired ==> id in r.0.fired) && r.0.skipped == s.skipped
  {
    if n > 0 {
      var past, ev := Overdue(sc, s, w, mins, n - 1), sc.events[n - 1];
      OverdueFree(sc, s, w, mins, n - 1, id);
      IdsPlus(past.1, [EventRelease(ev, s.edits)]);
      assert Ids([EventRelease(ev, s.edits)]) == [ev.id];
    }
  }

  /** Nothing that is held ever goes out but by hand, and in Phase 1 no Phase 2 item goes out by itself. */
  lemma HeldStays(sc: Scenario, s: State, op: Op, spread: Spread, id: string)
    requires Valid(sc) && !op.ByHand? && id in Ids(Step(sc, s, op, spread).1)
    ensures id !in s.skipped && id !in s.fired
    ensures op.Second? ==> !s.manual
    ensures op.Second? && op.w.phase1 ==> forall i :: 0 <= i < |sc.events| && sc.events[i].id == id ==> !sc.events[i].phase2
  {
    match op
    case Second(w) =>
      if w.elapsed.Some? {
        var t := if w.open then MarketSecond(sc, s) else s;
        DueExactly(sc, t, w, w.elapsed.value, id);
      }
    case CatchUp(w) => OverdueFree(sc, s, w, OverdueMinutes(sc, s, w), |sc.events|, id);
    case _ =>
  }

  // ---- price changes and their effects ----

  ghost predicate OnGrid(sc: Scenario, s: State)
    requires sc.tickSeconds > 0
  {
    s.marketSeconds >= 0 && s.tick == s.marketSeconds / sc.tickSeconds
  }

  lemma NextOnGrid(m: int, t: int)
    requires m >= 0 && t > 0
    ensures (m + 1) / t == m / t + if (m + 1) % t == 0 then 1 else 0
  {
    var q, r := m / t, m % t;
    assert m == q * t + r;
    if r + 1 == t {
      assert m + 1 == (q + 1) * t;
      DivExact(m + 1, q + 1, 0, t);
    } else {
      DivExact(m + 1, q, r + 1, t);
    }
  }

  lemma DivExact(x: int, q: int, r: int, t: int)
    requires t > 0 && 0 <= r < t && x == q * t + r
    ensures x / t == q && x % t == r
  {
    DivRange(x, t);
    if x / t > q { MulMono(q + 1, x / t, t); }
    if x / t < q { MulMono(x / t + 1, q, t); }
  }

  /** The number of price changes is always the open-market seconds divided by the interval. */
  lemma GridKept(sc: Scenario, s: State, op: Op, spread: Spread)
    requires Valid(sc) && OnGrid(sc, s) && NoRepeats(s.fired)
    ensures OnGrid(sc, Step(sc, s, op, spread).0)
  {
    match op
    case Second(w) =>
      NextOnGrid(s.marketSeconds, sc.tickSeconds);
      if w.elapsed.Some? { DueFires(sc, if w.open then MarketSecond(sc, s) else s, w, w.elapsed.value); }
    case ByHand(id, w) => OneFires(sc, s, id, w);
    case CatchUp(w) => OverdueFires(sc, s, w, OverdueMinutes(sc, s, w), |sc.events|);
    case Shift(delta) => ShiftKeepsFired(sc, s, delta, |sc.events|);
    case _ =>
  }

  /** The effects still waiting, in order. */
  function Waiting(ps: seq<Pending>, now: int): seq<Pending> {
    if ps == [] then []
    else if ps[|ps| - 1].applyAt > now then Waiting(ps[..|ps| - 1], now) + [ps[|ps| - 1]]
    else Waiting(ps[..|ps| - 1], now)
  }

  /** The impacts of those whose moment has come, in order. */
  function Impacts(ps: seq<Pending>, now: int): seq<Impact> {
    if ps == [] then []
    else if ps[|ps| - 1].applyAt > now then Impacts(ps[..|ps| - 1], now)
    else Impacts(ps[..|ps| - 1], now) + ps[|ps| - 1].impacts
  }

  lemma ShocksPlus(sc: Scenario, a: seq<Impact>, b: seq<Impact>, spread: Spread)
    requires sc.tickSeconds > 0
    ensures ShocksOf(sc, a + b, spread) == ShocksOf(sc, a, spread) + ShocksOf(sc, b, spread)
  {
  }

  /** Every waiting effect is applied in the first second at or after its moment, and only then: the shocks
      added are exactly one for each impact of those effects, in their order. */
  lemma {:induction false} PendingExactly(sc: Scenario, ps: seq<Pending>, shocks: seq<Shock>, now: int, spread: Spread)
    requires sc.tickSeconds > 0
    ensures var r := ApplyPending(sc, ps, shocks, now, spread);
            && (forall p :: p in r.0 <==> p in ps && p.applyAt > now)
            && r.0 == Waiting(ps, now)
            && r.1 == shocks + ShocksOf(sc, Impacts(ps, now), spread)
  {
    if ps == [] {
      assert shocks + ShocksOf(sc, [], spread) == shocks;
    } else {
      var last := ps[|ps| - 1];
      PendingExactly(sc, ps[..|ps| - 1], shocks, now, spread);
      assert forall p :: p in ps <==> p in ps[..|ps| - 1] || p == last;
      ShocksPlus(sc, Impacts(ps[..|ps| - 1], now), last.impacts, spread);
    }
  }

  /** A price change uses up one step of every shock and drops those that are done. */
  lemma {:induction false} ShocksRunOut(shocks: seq<Shock>, sh: Shock)
    ensures sh in UseShocks(shocks) <==> sh.ticksLeft > 0 && sh.(ticksLeft := sh.ticksLeft + 1) in shocks
  {
    if shocks != [] {
      var last := shocks[|shocks| - 1];
      ShocksRunOut(shocks[..|shocks| - 1], sh);
      assert forall x :: x in shocks <==> x in shocks[..|shocks| - 1] || x == last;
      assert last.(ticksLeft := last.ticksLeft - 1) == sh <==> last == sh.(ticksLeft := sh.ticksLeft + 1);
    }
  }

  function UseTimes(shocks: seq<Shock>, k: nat): seq<Shock> { if k == 0 then shocks else UseShocks(UseTimes(shocks, k - 1)) }

  /** After k price changes exactly the shocks with more than k steps are still at work, each with k fewer. */
  lemma {:induction false} ShocksLeft(shocks: seq<Shock>, sh: Shock, k: nat)
    ensures sh in UseTimes(shocks, k) <==> (k > 0 ==> sh.ticksLeft > 0) && sh.(ticksLeft := sh.ticksLeft + k) in shocks
    decreases k
  {
    if k > 0 {
      ShocksRunOut(UseTimes(shocks, k - 1), sh);
      ShocksLeft(shocks, sh.(ticksLeft := sh.ticksLeft + 1), k - 1);
      assert sh.(ticksLeft := sh.ticksLeft + 1).(ticksLeft := sh.ticksLeft + 1 + (k - 1)) == sh.(ticksLeft := sh.ticksLeft + k);
    }
  }

  // ---- which operations are saved ----

  predicate EffectDue(ps: seq<Pending>, now: int) { exists i :: 0 <= i < |ps| && ps[i].applyAt <= now }

  predicate PricesChange(sc: Scenario, s: State, w: World)
    requires sc.tickSeconds > 0
  {
    w.open && (s.marketSeconds + 1) % sc.tickSeconds == 0
  }

  function AfterMarket(sc: Scenario, s: State, w: World): State
    requires sc.tickSeconds > 0
  {
    if w.open then MarketSecond(sc, s) else s
  }

  /** The second changes prices, releases something or applies an effect. */
  predicate Dirty(sc: Scenario, s: State, w: World)
    requires sc.tickSeconds > 0
  {
    && w.elapsed.Some?
    && var fired := FireDue(sc, AfterMarket(sc, s, w), w, w.elapsed.value);
      PricesChange(sc, s, w) || fired.1 != [] || EffectDue(fired.0.pending, w.now)
  }

  /** When the operation copies the state for the disk: under the lock it works in, under the lock taken once
      more after it, or not at all. */
  datatype Saving = AtOnce | Later | Never

  function SavingOf(sc: Scenario, s: State, op: Op): Saving
    requires sc.tickSeconds > 0
  {
    match op
    case Second(w) => if Dirty(sc, s, w) then AtOnce else Never
    case ByHand(id, w) => if FireOne(sc, s, id, w).1 != [] then AtOnce else Never
    case Hold(id, skip) => if MayHold(sc, s, id) then Later else Never
    case EditItem(id, headline, at) => if MayEdit(sc, s, id, at) then Later else Never
    case Shift(delta) => if MayShift(delta) then Later else Never
    case _ => Later
  }

  /** The same but for the seconds of open market, of which b has counted fewer. */
  predicate SameButSeconds(a: State, b: State) { a == b.(marketSeconds := a.marketSeconds) && b.marketSeconds <= a.marketSeconds }

  lemma {:induction false} QuietEvents(sc: Scenario, s: State, w: World, mins: real, n: nat)
    requires n <= |sc.events| && FireEvents(sc, s, w, mins, n).1 == []
    ensures FireEvents(sc, s, w, mins, n).0 == s
  {
    if n > 0 { QuietEvents(sc, s, w, mins, n - 1); }
  }

  lemma {:induction false} QuietRegimes(sc: Scenario, s: State, mins: real, n: nat)
    requires n <= |sc.regimes| && FireRegimes(sc, s, mins, n).1 == []
    ensures FireRegimes(sc, s, mins, n).0 == s
  {
    if n > 0 { QuietRegimes(sc, s, mins, n - 1); }
  }

  lemma QuietDue(sc: Scenario, s: State, w: World, elapsed: real)
    requires FireDue(sc, s, w, elapsed).1 == []
    ensures FireDue(sc, s, w, elapsed).0 == s
  {
    if !s.manual {
      var mins := Minutes(sc, s, elapsed);
      var first := FireEvents(sc, s, w, mins, |sc.events|);
      QuietEvents(sc, s, w, mins, |sc.events|);
      QuietRegimes(sc, first.0, mins, |sc.regimes|);
    }
  }

  lemma {:induction false} NoneApply(sc: Scenario, ps: seq<Pending>, shocks: seq<Shock>, now: int, spread: Spread)
    requires sc.tickSeconds > 0 && !EffectDue(ps, now)
    ensures ApplyPending(sc, ps, shocks, now, spread) == (ps, shocks)
  {
    if ps != [] {
      var past := ps[..|ps| - 1];
      assert !EffectDue(past, now) by {
        assert forall i :: 0 <= i < |past| ==> past[i] == ps[i];
      }
      NoneApply(sc, past, shocks, now, spread);
      assert past + [ps[|ps| - 1]] == ps;
    }
  }

  lemma {:induction false} NamedQuiet(sc: Scenario, s: State, id: string, w: World, n: nat)
    requires n <= |sc.events| && FireNamed(sc, s, id, w, n).1 == []
    ensures FireNamed(sc, s, id, w, n).0 == s
  {
    if n > 0 { NamedQuiet(sc, s, id, w, n - 1); }
  }

  lemma {:induction false} NamedRegimeQuiet(sc: Scenario, s: State, id: string, n: nat)
    requires n <= |sc.regimes| && FireNamedRegime(sc, s, id, n).1 == []
    ensures FireNamedRegime(sc, s, id, n).0 == s
  {
    if n > 0 { NamedRegimeQuiet(sc, s, id, n - 1); }
  }

  /** What is not saved releases nothing and changes nothing but the seconds of open market. */
  lemma UnsavedIsQuiet(sc: Scenario, s: State, op: Op, spread: Spread)
    requires sc.tickSeconds > 0 && SavingOf(sc, s, op).Never?
    ensures Step(sc, s, op, spread).1 == [] && SameButSeconds(Step(sc, s, op, spread).0, s)
  {
    match op
    case Second(w) =>
      if w.elapsed.Some? {
        var t := AfterMarket(sc, s, w);
        QuietDue(sc, t, w, w.elapsed.value);
        NoneApply(sc, t.pending, t.shocks, w.now, spread);
      }
    case ByHand(id, w) =>
      if id !in s.fired {
        var first := FireNamed(sc, s, id, w, |sc.events|);
        NamedQuiet(sc, s, id, w, |sc.events|);
        NamedRegimeQuiet(sc, first.0, id, |sc.regimes|);
      }
    case _ =>
  }

  // ---- whole runs, with saves and restarts ----

  /** The engine, how many operations have still to copy its state, the copies taken but not stored yet, the
      state on disk, and what has gone out. */
  datatype Sys = Sys(s: State, owed: nat, taken: seq<State>, disk: State, out: seq<string>)

  /** An operation, a copy that an earlier one owes, a copy stored, or a restart. Nothing orders the stores of
      two operations. */
  datatype Happening = Do(op: Op) | Copy | Store(i: nat) | Restart

  function Happen(sc: Scenario, y: Sys, h: Happening, spread: Spread): Sys
    requires sc.tickSeconds > 0
  {
    match h
    case Do(op) =>
      var r := Step(sc, y.s, op, spread);
      var done := y.(s := r.0, out := y.out + Ids(r.1));
      (match SavingOf(sc, y.s, op)
       case AtOnce => done.(taken := y.taken + [r.0])
       case Later => done.(owed := y.owed + 1)
       case Never => done)
    case Copy => if y.owed > 0 then y.(owed := y.owed - 1, taken := y.taken + [y.s]) else y
    case Store(i) => if i < |y.taken| then y.(taken := y.taken[..i] + y.taken[i + 1..], disk := y.taken[i]) else y
    case Restart => y.(s := y.disk, owed := 0, taken := [])
  }

  function Run(sc: Scenario, hs: seq<Happening>, spread: Spread): Sys
    requires sc.tickSeconds > 0
  {
    if hs == [] then Sys(START, 0, [], START, []) else Happen(sc, Run(sc, hs[..|hs| - 1], spread), hs[|hs| - 1], spread)
  }

  /** The disk knows of everything that has gone out. */
  ghost predicate AllStored(y: Sys) { forall id :: id in y.out ==> id in y.disk.fired }

  ghost predicate SafeRestarts(sc: Scenario, hs: seq<Happening>, spread: Spread)
    requires sc.tickSeconds > 0
  {
    hs != [] ==>
      && SafeRestarts(sc, hs[..|hs| - 1], spread)
      && (hs[|hs| - 1].Restart? ==> AllStored(Run(sc, hs[..|hs| - 1], spread)))
  }

  ghost predicate Once(y: Sys) {
    && NoRepeats(y.out) && NoRepeats(y.s.fired) && NoRepeats(y.disk.fired)
    && (forall id :: id in y.out ==> id in y.s.fired)
    && (forall i :: 0 <= i < |y.taken| ==> NoRepeats(y.taken[i].fired))
  }

  lemma DoOnce(sc: Scenario, y: Sys, op: Op, spread: Spread)
    requires Valid(sc) && Once(y)
    ensures Once(Happen(sc, y, Do(op), spread))
  {
    var r := Step(sc, y.s, op, spread);
    StepRecords(sc, y.s, op, spread);
    OutOnce(y.out, y.s.fired, Ids(r.1));
  }

  lemma OutOnce(out: seq<string>, fired: seq<string>, more: seq<string>)
    requires NoRepeats(out) && NoRepeats(fired + more) && forall id :: id in out ==> id in fired
    ensures NoRepeats(out + more) && forall id :: id in out + more ==> id in fired + more
  {
    var all := out + more;
    forall i, j | 0 <= i < j < |all|
      ensures all[i] != all[j]
    {
      if i < |out| && j >= |out| {
        assert out[i] in fired;
        var k :| 0 <= k < |fired| && fired[k] == out[i];
        assert (fired + more)[k] != (fired + more)[|fired| + j - |out|];
      } else if i >= |out| {
        assert (fired + more)[|fired| + i - |out|] != (fired + more)[|fired| + j - |out|];
      }
    }
  }

  /** Over every run of seconds, releases, holds, edits, shifts, manual mode, saves in any order and
      restarts, no item goes out twice, as long as every restart finds on disk what has gone out. */
  lemma {:induction false} EachOnce(sc: Scenario, hs: seq<Happening>, spread: Spread)
    requires Valid(sc) && SafeRestarts(sc, hs, spread)
    ensures Once(Run(sc, hs, spread))
  {
    if hs != [] {
      var y, h := Run(sc, hs[..|hs| - 1], spread), hs[|hs| - 1];
      EachOnce(sc, hs[..|hs| - 1], spread);
      if h.Do? { DoOnce(sc, y, h.op, spread); }
    }
  }

  ghost predicate Tidy(sc: Scenario, s: State)
    requires sc.tickSeconds > 0
  {
    NoRepeats(s.fired) && OnGrid(sc, s)
  }

  /** The engine's state, the copies not stored yet and the state on disk are all on the grid. */
  ghost predicate AllTidy(sc: Scenario, y: Sys)
    requires sc.tickSeconds > 0
  {
    Tidy(sc, y.s) && Tidy(sc, y.disk) && forall i :: 0 <= i < |y.taken| ==> Tidy(sc, y.taken[i])
  }

  lemma TidyStep(sc: Scenario, s: State, op: Op, spread: Spread)
    requires Valid(sc) && Tidy(sc, s)
    ensures Tidy(sc, Step(sc, s, op, spread).0)
  {
    StepRecords(sc, s, op, spread);
    GridKept(sc, s, op, spread);
  }

  /** Over every run, whatever is stored in whatever order and however often the server restarts: the number
      of price changes is the open-market seconds divided by the interval. */
  lemma {:induction false} GridOverRun(sc: Scenario, hs: seq<Happening>, spread: Spread)
    requires Valid(sc)
    ensures AllTidy(sc, Run(sc, hs, spread))
  {
    if hs != [] {
      var y, h := Run(sc, hs[..|hs| - 1], spread), hs[|hs| - 1];
      GridOverRun(sc, hs[..|hs| - 1], spread);
      if h.Do? { TidyStep(sc, y.s, h.op, spread); }
    }
  }

  /** The copies are stored in the order they were taken. */
  predicate InOrder(hs: seq<Happening>) { forall i :: 0 <= i < |hs| && hs[i].Store? ==> hs[i].i == 0 }

  /** The copy taken last; with all stored, what is on disk. */
  function LastCopy(y: Sys): State { if y.taken == [] then y.disk else y.taken[|y.taken| - 1] }

  /** With no copy owed, the last one is the engine's state but for seconds of open market since. */
  predicate UpToDate(y: Sys) { y.owed == 0 ==> SameButSeconds(y.s, LastCopy(y)) }

  lemma UpToDateKept(sc: Scenario, y: Sys, h: Happening, spread: Spread)
    requires sc.tickSeconds > 0 && UpToDate(y) && (h.Store? ==> h.i == 0)
    ensures UpToDate(Happen(sc, y, h, spread))
  {
    if h.Do? && SavingOf(sc, y.s, h.op).Never? { UnsavedIsQuiet(sc, y.s, h.op, spread); }
  }

  lemma {:induction false} OrderedIsUpToDate(sc: Scenario, hs: seq<Happening>, spread: Spread)
    requires sc.tickSeconds > 0 && InOrder(hs)
    ensures UpToDate(Run(sc, hs, spread))
  {
    if hs != [] {
      OrderedIsUpToDate(sc, hs[..|hs| - 1], spread);
      UpToDateKept(sc, Run(sc, hs[..|hs| - 1], spread), hs[|hs| - 1], spread);
    }
  }

  /** Every copy has been taken and stored. */
  predicate Settled(y: Sys) { y.owed == 0 && y.taken == [] }

  /** No restart happens while a copy is still to be taken or stored. */
  ghost predicate QuietRestarts(sc: Scenario, hs: seq<Happening>, spread: Spread)
    requires sc.tickSeconds > 0
  {
    forall i :: 0 <= i < |hs| && hs[i].Restart? ==> Settled(Run(sc, hs[..i], spread))
  }

  lemma QuietPast(sc: Scenario, hs: seq<Happening>, spread: Spread)
    requires sc.tickSeconds > 0 && hs != [] && InOrder(hs) && QuietRestarts(sc, hs, spread)
    ensures InOrder(hs[..|hs| - 1]) && QuietRestarts(sc, hs[..|hs| - 1], spread)
  {
    var past := hs[..|hs| - 1];
    forall i | 0 <= i < |past| && past[i].Restart?
      ensures Settled(Run(sc, past[..i], spread))
    {
      assert past[..i] == hs[..i] && past[i] == hs[i];
    }
  }

  /** With the copies stored in order, a restart after all of them loses less than one interval of open market
      and nothing else. */
  lemma SettledRestart(sc: Scenario, hs: seq<Happening>, spread: Spread)
    requires Valid(sc) && InOrder(hs) && Settled(Run(sc, hs, spread))
    ensures var s, t := Run(sc, hs, spread).s, Run(sc, hs + [Restart], spread).s;
            SameButSeconds(s, t) && s.marketSeconds - t.marketSeconds < sc.tickSeconds
  {
    var y := Run(sc, hs, spread);
    OrderedIsUpToDate(sc, hs, spread);
    GridOverRun(sc, hs, spread);
    Follows(sc, hs, Restart, Happen(sc, y, Restart, spread), spread);
    SameQuotient(y.s.marketSeconds, y.disk.marketSeconds, sc.tickSeconds);
  }

  lemma SameQuotient(a: int, b: int, t: int)
    requires t > 0 && a / t == b / t
    ensures a - b < t
  {
    DivRange(a, t);
    DivRange(b, t);
  }

  /** With the copies stored in order and none outstanding at a restart, every restart finds on disk what has
      gone out, so nothing goes out twice. */
  lemma {:induction false} OrderedRestartsAreSafe(sc: Scenario, hs: seq<Happening>, spread: Spread)
    requires Valid(sc) && InOrder(hs) && QuietRestarts(sc, hs, spread)
    ensures SafeRestarts(sc, hs, spread) && NoRepeats(Run(sc, hs, spread).out)
  {
    if hs != [] {
      var past := hs[..|hs| - 1];
      QuietPast(sc, hs, spread);
      OrderedRestartsAreSafe(sc, past, spread);
      EachOnce(sc, past, spread);
      OrderedIsUpToDate(sc, past, spread);
      assert hs[|hs| - 1].Restart? ==> Settled(Run(sc, hs[..|hs| - 1], spread));
    }
    EachOnce(sc, hs, spread);
  }

  /** After a restart an item that had gone out can go out again exactly when the state on disk did not know
      of it. */
  lemma RestartForgetsIff(sc: Scenario, hs: seq<Happening>, spread: Spread, id: string, w: World)
    requires Valid(sc) && SafeRestarts(sc, hs, spread) && Known(sc, id)
    requires var y := Run(sc, hs, spread); id in y.out
    ensures var y := Run(sc, hs, spread);
            id in Ids(FireOne(sc, Happen(sc, y, Restart, spread).s, id, w).1) <==> id !in y.disk.fired
  {
    var y := Run(sc, hs, spread);
    EachOnce(sc, hs, spread);
    OneFires(sc, y.disk, id, w);
    var r := FireOne(sc, y.disk, id, w);
    if id !in y.disk.fired { OnlyNamed(sc, y.disk, id, w); }
  }

  lemma OnlyNamed(sc: Scenario, s: State, id: string, w: World)
    requires Valid(sc) && NoRepeats(s.fired) && id !in s.fired && Known(sc, id)
    ensures id in Ids(FireOne(sc, s, id, w).1)
  {
    NamedFires(sc, s, id, w, |sc.events|);
    var first := FireNamed(sc, s, id, w, |sc.events|);
    NamedRegimeFires(sc, first.0, id, |sc.regimes|);
    var second := FireNamedRegime(sc, first.0, id, |sc.regimes|);
    TwoRecorded(s, first.0, second.0, first.1, second.1);
    assert second.0.fired == s.fired + Ids(first.1 + second.1);
  }

  /** Two releases whose saves are stored in the other order: both saves succeed, and the disk has forgotten
      the second. */
  lemma LateSaveForgets(sc: Scenario, a: string, b: string, w: World, spread: Spread)
    requires Valid(sc) && Known(sc, a) && Known(sc, b) && a != b
    ensures var y := Run(sc, [Do(ByHand(a, w)), Do(ByHand(b, w)), Store(1), Store(0)], spread);
            b in y.out && Settled(y) && b !in y.disk.fired
  {
    var first := FireOne(sc, START, a, w);
    var second := FireOne(sc, first.0, b, w);
    OneFires(sc, START, a, w);
    OnlyThat(sc, START, a, w, b);
    OneFires(sc, first.0, b, w);
    OnlyNamed(sc, first.0, b, w);
    StoredInReverse(sc, ByHand(a, w), ByHand(b, w), spread, first, second);
  }

  /** The first copy stored last: the disk is back where it was between the two operations. */
  lemma StoredInReverse(sc: Scenario, a: Op, b: Op, spread: Spread, first: (State, seq<Release>), second: (State, seq<Release>))
    requires sc.tickSeconds > 0 && first == Step(sc, START, a, spread) && second == Step(sc, first.0, b, spread)
    requires SavingOf(sc, START, a).AtOnce? && SavingOf(sc, first.0, b).AtOnce?
    ensures Run(sc, [Do(a), Do(b), Store(1), Store(0)], spread) == Sys(second.0, 0, [], first.0, Ids(first.1) + Ids(second.1))
  {
    var y1 := Sys(first.0, 0, [first.0], START, Ids(first.1));
    var y2 := Sys(second.0, 0, [first.0, second.0], START, Ids(first.1) + Ids(second.1));
    assert Happen(sc, Sys(START, 0, [], START, []), Do(a), spread) == y1;
    assert Happen(sc, y1, Do(b), spread) == y2;
    RunOfFour(sc, Do(a), Do(b), Store(1), Store(0), y1, y2, y2.(taken := [first.0], disk := second.0), spread);
  }

  lemma RunOfFour(sc: Scenario, a: Happening, b: Happening, c: Happening, d: Happening, y1: Sys, y2: Sys, y3: Sys, spread: Spread)
    requires sc.tickSeconds > 0 && Happen(sc, Sys(START, 0, [], START, []), a, spread) == y1
    requires Happen(sc, y1, b, spread) == y2 && Happen(sc, y2, c, spread) == y3
    ensures Run(sc, [a, b, c, d], spread) == Happen(sc, y3, d, spread)
  {
    Follows(sc, [], a, y1, spread);
    assert [] + [a] == [a];
    TwoMore(sc, [a], b, c, y1, y2, y3, spread);
    assert [a] + [b, c] == [a, b, c];
    Follows(sc, [a, b, c], d, Happen(sc, y3, d, spread), spread);
    assert [a, b, c] + [d] == [a, b, c, d];
  }

  lemma TwoMore(sc: Scenario, hs: seq<Happening>, a: Happening, b: Happening, y: Sys, y1: Sys, y2: Sys, spread: Spread)
    requires sc.tickSeconds > 0 && Run(sc, hs, spread) == y
    requires Happen(sc, y, a, spread) == y1 && Happen(sc, y1, b, spread) == y2
    ensures Run(sc, hs + [a, b], spread) == y2
  {
    Follows(sc, hs, a, y1, spread);
    Follows(sc, hs + [a], b, y2, spread);
    assert hs + [a] + [b] == hs + [a, b];
  }

  lemma Follows(sc: Scenario, hs: seq<Happening>, h: Happening, y: Sys, spread: Spread)
    requires sc.tickSeconds > 0 && Happen(sc, Run(sc, hs, spread), h, spread) == y
    ensures Run(sc, hs + [h], spread) == y
  {
    assert (hs + [h])[..|hs|] == hs;
  }

  lemma {:induction false} NamedOnly(sc: Scenario, s: State, id: string, w: World, n: nat, other: string)
    requires n <= |sc.events| && other != id
    ensures other in FireNamed(sc, s, id, w, n).0.fired <==> other in s.fired
  {
    if n > 0 { NamedOnly(sc, s, id, w, n - 1, other); }
  }

  lemma {:induction false} NamedRegimeOnly(sc: Scenario, s: State, id: string, n: nat, other: string)
    requires n <= |sc.regimes| && other != id
    ensures other in FireNamedRegime(sc, s, id, n).0.fired <==> other in s.fired
  {
    if n > 0 { NamedRegimeOnly(sc, s, id, n - 1, other); }
  }

  lemma OnlyThat(sc: Scenario, s: State, id: string, w: World, other: string)
    requires other != id
    ensures other in FireOne(sc, s, id, w).0.fired <==> other in s.fired
  {
    if id !in s.fired {
      NamedOnly(sc, s, id, w, |sc.events|, other);
      NamedRegimeOnly(sc, FireNamed(sc, s, id, w, |sc.events|).0, id, |sc.regimes|, other);
    }
  }

  lemma ShocksMore(sc: Scenario, ims: seq<Impact>, i: nat, spread: Spread)
    requires sc.tickSeconds > 0 && i < |ims|
    ensures var ticks := Ticks(sc, ims[i]);
            ShocksOf(sc, ims[..i + 1], spread)
              == ShocksOf(sc, ims[..i], spread) + [Shock(ims[i].sector, ims[i].symbol, spread(ims[i].shockPct, ticks), ticks)]
  {
  }

  // ---- the engine as an object ----

  class Engine {
    const sc: Scenario
    var tick: int
    var marketSeconds: int
    var firedList: seq<string>
    var fired: set<string>
    var pending: seq<Pending>
    var shocks: seq<Shock>
    var manual: bool
    var skipped: seq<string>
    var edits: map<string, Edit>

    function Value(): State
      reads this
    {
      State(tick, marketSeconds, firedList, pending, shocks, manual, skipped, edits)
    }

    /** The set is the list without its order, and the list has no repeats. */
    ghost predicate Good()
      reads this
    {
      && Valid(sc) && NoRepeats(firedList) && OnGrid(sc, Value())
      && (forall id :: id in fired <==> id in firedList)
    }

    constructor (sc: Scenario)
      requires Valid(sc)
      ensures Good() && this.sc == sc && Value() == START
    {
      this.sc := sc;
      tick, marketSeconds, firedList, fired, pending, shocks, manual, skipped, edits := 0, 0, [], {}, [], [], false, [], map[];
    }

    /** Carries on from a saved state. */
    method Adopt(s: State)
      requires Valid(sc) && NoRepeats(s.fired) && OnGrid(sc, s)
      modifies this
      ensures Good() && Value() == s
    {
      tick, marketSeconds, firedList, pending, shocks := s.tick, s.marketSeconds, s.fired, s.pending, s.shocks;
      manual, skipped, edits := s.manual, s.skipped, s.edits;
      fired := {};
      for i := 0 to |s.fired|
        invariant forall id :: id in fired <==> id in s.fired[..i]
        invariant Value() == s
      {
        assert s.fired[..i + 1] == s.fired[..i] + [s.fired[i]];
        fired := fired + {s.fired[i]};
      }
      assert s.fired[..|s.fired|] == s.fired;
    }

    method MarkFired(id: string)
      modifies this`fired, this`firedList
      ensures firedList == old(firedList) + [id] && fired == old(fired) + {id}
    {
      fired := fired + {id};
      firedList := firedList + [id];
    }

    method FireOneEvent(ev: Event, applyAt: int) returns (r: Release)
      modifies this`fired, this`firedList, this`pending
      ensures Value() == FireEvent(old(Value()), ev, applyAt) && fired == old(fired) + {ev.id}
      ensures r == EventRelease(ev, edits)
    {
      var e := Effective(ev, edits);
      MarkFired(ev.id);
      r := Release(ev.id, e.regime, e.headline);
      if ev.impacts != [] { pending := pending + [Pending(applyAt, ev.impacts)]; }
    }

    /** The list and the set agree. */
    ghost predicate InStep()
      reads this
    {
      forall id :: id in fired <==> id in firedList
    }

    method TryEvent(ev: Event, w: World, mins: real) returns (out: seq<Release>)
      requires InStep()
      modifies this`fired, this`firedList, this`pending
      ensures InStep()
      ensures if EventDue(sc, old(Value()), ev, w, mins)
              then Value() == FireEvent(old(Value()), ev, w.now + w.lead) && out == [EventRelease(ev, edits)]
              else Value() == old(Value()) && out == []
    {
      out := [];
      var e := Effective(ev, edits);
      var due := if e.regime then e.atMinute else e.atMinute - Early(sc, w.lead);
      if mins >= due && ev.id !in fired && ev.id !in skipped && !(ev.phase2 && w.phase1) {
        var r := FireOneEvent(ev, w.now + w.lead);
        out := [r];
      }
    }

    method FireEventsDue(w: World, mins: real) returns (out: seq<Release>)
      requires InStep()
      modifies this`fired, this`firedList, this`pending
      ensures InStep() && (Value(), out) == FireEvents(sc, old(Value()), w, mins, |sc.events|)
    {
      out := [];
      ghost var was := Value();
      for i := 0 to |sc.events|
        invariant (Value(), out) == FireEvents(sc, was, w, mins, i)
        invariant edits == was.edits && InStep()
      {
        var more := TryEvent(sc.events[i], w, mins);
        assert out + [] == out;
        out := out + more;
      }
    }

    method FireRegimesDue(mins: real) returns (out: seq<Release>)
      requires InStep()
      modifies this`fired, this`firedList, this`pending
      ensures InStep() && (Value(), out) == FireRegimes(sc, old(Value()), mins, |sc.regimes|)
    {
      out := [];
      ghost var was := Value();
      for i := 0 to |sc.regimes|
        invariant (Value(), out) == FireRegimes(sc, was, mins, i) && InStep()
      {
        var g := sc.regimes[i];
        if mins >= g.atMinute && g.id !in fired && g.id !in skipped {
          MarkFired(g.id);
          out := out + [RegimeRelease(g)];
        }
      }
    }

    /** Releases every event and regime announcement whose time has come. */
    method FireAllDue(w: World, elapsed: real) returns (out: seq<Release>)
      requires InStep()
      modifies this`fired, this`firedList, this`pending
      ensures InStep() && (Value(), out) == FireDue(sc, old(Value()), w, elapsed)
    {
      if manual { return []; }
      var mins := if sc.byMarketTime then marketSeconds as real / 60.0 else elapsed;
      var first := FireEventsDue(w, mins);
      var second := FireRegimesDue(mins);
      out := first + second;
    }

    method ApplyEffects(now: int, spread: Spread)
      requires sc.tickSeconds > 0
      modifies this`pending, this`shocks
      ensures (pending, shocks) == ApplyPending(sc, old(pending), old(shocks), now, spread)
    {
      var keep: seq<Pending> := [];
      ghost var all, had := pending, shocks;
      for i := 0 to |pending|
        invariant pending == all && (keep, shocks) == ApplyPending(sc, all[..i], had, now, spread)
      {
        assert all[..i + 1][..i] == all[..i];
        var p := pending[i];
        if p.applyAt > now {
          keep := keep + [p];
        } else {
          var more := AddShocks(p.impacts, spread);
          shocks := shocks + more;
        }
      }
      assert all[..|all|] == all;
      pending := keep;
    }

    method AddShocks(ims: seq<Impact>, spread: Spread) returns (more: seq<Shock>)
      requires sc.tickSeconds > 0
      ensures more == ShocksOf(sc, ims, spread)
    {
      more := [];
      for i := 0 to |ims|
        invariant more == ShocksOf(sc, ims[..i], spread)
      {
        var ticks := Ceil(ims[i].rampMinutes * 60.0 / sc.tickSeconds as real);
        if ticks < 1 { ticks := 1; }
        ShocksMore(sc, ims, i, spread);
        more := more + [Shock(ims[i].sector, ims[i].symbol, spread(ims[i].shockPct, ticks), ticks)];
      }
      assert ims[..|ims|] == ims;
    }

    method UseUp()
      modifies this`shocks
      ensures shocks == UseShocks(old(shocks))
    {
      var keep: seq<Shock> := [];
      ghost var all := shocks;
      for i := 0 to |shocks|
        invariant shocks == all && keep == UseShocks(all[..i])
      {
        assert all[..i + 1][..i] == all[..i];
        var left := shocks[i].ticksLeft - 1;
        if left > 0 { keep := keep + [shocks[i].(ticksLeft := left)]; }
      }
      assert all[..|all|] == all;
      shocks := keep;
    }

    method OneMarketSecond()
      requires sc.tickSeconds > 0
      modifies this`marketSeconds, this`tick, this`shocks
      ensures Value() == MarketSecond(sc, old(Value()))
    {
      marketSeconds := marketSeconds + 1;
      if marketSeconds % sc.tickSeconds == 0 {
        tick := tick + 1;
        if sc.tableRows.Some? && tick < sc.tableRows.value { shocks := []; } else { UseUp(); }
      }
    }

    /** One second. */
    method Advance(w: World, spread: Spread) returns (out: seq<Release>)
      requires Good()
      modifies this
      ensures Good() && (Value(), out) == Step(sc, old(Value()), Second(w), spread)
    {
      StepRecords(sc, Value(), Second(w), spread);
      GridKept(sc, Value(), Second(w), spread);
      out := RunSecond(w, spread);
    }

    method RunSecond(w: World, spread: Spread) returns (out: seq<Release>)
      requires InStep() && sc.tickSeconds > 0
      modifies this
      ensures InStep() && (Value(), out) == AdvanceOne(sc, old(Value()), w, spread)
    {
      if w.elapsed.None? { return []; }
      if w.open { OneMarketSecond(); }
      out := FireAllDue(w, w.elapsed.value);
      ApplyEffects(w.now, spread);
    }

    method FireNamedEvents(id: string, w: World) returns (out: seq<Release>)
      requires InStep()
      modifies this`fired, this`firedList, this`pending
      ensures InStep() && (Value(), out) == FireNamed(sc, old(Value()), id, w, |sc.events|)
    {
      out := [];
      ghost var was := Value();
      for i := 0 to |sc.events|
        invariant (Value(), out) == FireNamed(sc, was, id, w, i)
        invariant edits == was.edits && InStep()
      {
        if sc.events[i].id == id {
          var r := FireOneEvent(sc.events[i], w.now + w.lead);
          out := out + [r];
        }
      }
    }

    method FireNamedRegimes(id: string) returns (out: seq<Release>)
      requires InStep()
      modifies this`fired, this`firedList, this`pending
      ensures InStep() && (Value(), out) == FireNamedRegime(sc, old(Value()), id, |sc.regimes|)
    {
      out := [];
      ghost var was := Value();
      for i := 0 to |sc.regimes|
        invariant (Value(), out) == FireNamedRegime(sc, was, id, i) && InStep()
      {
        if sc.regimes[i].id == id {
          MarkFired(id);
          out := out + [RegimeRelease(sc.regimes[i])];
        }
      }
    }

    /** Releases one item by hand. */
    method FireByHand(id: string, w: World, ghost spread: Spread) returns (out: seq<Release>)
      requires Good()
      modifies this
      ensures Good() && (Value(), out) == Step(sc, old(Value()), ByHand(id, w), spread)
    {
      StepRecords(sc, Value(), ByHand(id, w), spread);
      GridKept(sc, Value(), ByHand(id, w), spread);
      if id in fired { return []; }
      var first := FireNamedEvents(id, w);
      var second := FireNamedRegimes(id);
      out := first + second;
    }

    method TryOverdue(ev: Event, w: World, mins: real) returns (out: seq<Release>)
      requires InStep()
      modifies this`fired, this`firedList, this`pending
      ensures InStep()
      ensures if mins >= Effective(ev, edits).atMinute && Free(old(Value()), ev.id)
              then Value() == FireEvent(old(Value()), ev, w.now + w.lead) && out == [EventRelease(ev, edits)]
              else Value() == old(Value()) && out == []
    {
      out := [];
      if mins >= Effective(ev, edits).atMinute && ev.id !in fired && ev.id !in skipped {
        var r := FireOneEvent(ev, w.now + w.lead);
        out := [r];
      }
    }

    method FireOverdue(w: World, mins: real) returns (out: seq<Release>)
      requires InStep()
      modifies this`fired, this`firedList, this`pending
      ensures InStep() && (Value(), out) == Overdue(sc, old(Value()), w, mins, |sc.events|)
    {
      out := [];
      ghost var was := Value();
      for i := 0 to |sc.events|
        invariant (Value(), out) == Overdue(sc, was, w, mins, i)
        invariant edits == was.edits && InStep()
      {
        var more := TryOverdue(sc.events[i], w, mins);
        assert out + [] == out;
        out := out + more;
      }
    }

    method ReleaseOverdue(w: World, ghost spread: Spread) returns (out: seq<Release>)
      requires Good()
      modifies this
      ensures Good() && (Value(), out) == Step(sc, old(Value()), CatchUp(w), spread)
    {
      StepRecords(sc, Value(), CatchUp(w), spread);
      GridKept(sc, Value(), CatchUp(w), spread);
      var mins := marketSeconds as real / 60.0;
      if !sc.byMarketTime && w.elapsed.Some? { mins := w.elapsed.value; }
      out := FireOverdue(w, mins);
    }

    method SetSkipped(id: string, skip: bool)
      requires Good()
      modifies this`skipped
      ensures Good() && Value() == Held(sc, old(Value()), id, skip)
    {
      if id in fired || !Known(sc, id) { return; }
      var kept: seq<string> := [];
      for i := 0 to |skipped|
        invariant skipped == old(skipped) && kept == Without(skipped[..i], id)
      {
        assert skipped[..i + 1][..i] == skipped[..i];
        if skipped[i] != id { kept := kept + [skipped[i]]; }
      }
      assert skipped[..|skipped|] == skipped;
      if skip { kept := kept + [id]; }
      skipped := kept;
    }

    method EditOne(id: string, headline: string, at: Option<real>)
      requires Good()
      modifies this`edits
      ensures Good() && Value() == Edited(sc, old(Value()), id, headline, at)
    {
      if at.Some? && (at.value < 0.0 || at.value > 1440.0) { return; }
      if !IsEvent(sc, id) || id in fired { return; }
      var ed := if id in edits then edits[id] else Edit("", None);
      if headline != "" { ed := ed.(headline := headline); }
      if at.Some? { ed := ed.(at := at); }
      edits := edits[id := ed];
    }

    method ShiftUnreleased(delta: real)
      requires Good()
      modifies this`edits
      ensures Good() && Value() == ShiftAll(sc, old(Value()), delta)
    {
      if delta > 1440.0 || delta < -1440.0 { return; }
      ghost var was := Value();
      for i := 0 to |sc.events|
        invariant Value() == Shifted(sc, was, delta, i)
      {
        var ev := sc.events[i];
        if ev.id !in fired {
          var at := RMax(Effective(ev, edits).atMinute + delta, 0.0);
          var ed := if ev.id in edits then edits[ev.id] else Edit("", None);
          edits := edits[ev.id := ed.(at := Some(at))];
        }
      }
      ShiftKeepsFired(sc, was, delta, |sc.events|);
    }

    method SetNewsManual(on: bool)
      requires Good()
      modifies this`manual
      ensures Good() && Value() == old(Value()).(manual := on)
    {
      manual := on;
    }
  }
}

/** What the news scheduler's rules come to: when an item is due and with which words, which effects it leaves behind,
    and what holding, editing and moving do to it. */
module NewsRules {
  import opened Numeric
  import opened Options
  import opened NewsSchedule

  // ---- words and times ----

  /** The organiser's edits replace the words if there are new ones, and the minute if there is one; nothing else. */
  lemma EditedItem(ev: Event, edits: map<string, Edit>)
    ensures var e := Effective(ev, edits);
            && (e.id, e.regime, e.phase2, e.impacts) == (ev.id, ev.regime, ev.phase2, ev.impacts)
            && e.headline == (if ev.id in edits && edits[ev.id].headline != "" then edits[ev.id].headline else ev.headline)
            && e.atMinute == (if ev.id in edits && edits[ev.id].at.Some? then edits[ev.id].at.value else ev.atMinute)
  {
  }

  /** What has passed on the scenario's own clock, in milliseconds: of open market, or of the event. */
  function Passed(sc: Scenario, s: State, elapsed: real): real {
    if sc.byMarketTime then s.marketSeconds as real * 1000.0 else elapsed * 60000.0
  }

  /** An item goes out by itself from its minute on, or with a price table its head start before, unless it is a regime
      announcement; not if it is out or held, and not in Phase 1 if it is for Phase 2. */
  lemma DueMeans(sc: Scenario, s: State, ev: Event, w: World, elapsed: real)
    ensures EventDue(sc, s, ev, w, Minutes(sc, s, elapsed))
       <==> && Passed(sc, s, elapsed) + (if sc.tableRows.Some? && !ev.regime then w.lead as real else 0.0) >= Effective(ev, s.edits).atMinute * 60000.0
            && ev.id !in s.fired && ev.id !in s.skipped && (ev.phase2 ==> !w.phase1)
  {
    var e, lead := Effective(ev, s.edits), w.lead as real;
    assert Minutes(sc, s, elapsed) * 60000.0 == Passed(sc, s, elapsed);
    assert Early(sc, w.lead) * 60000.0 == if sc.tableRows.Some? then lead else 0.0;
    var due := if e.regime then e.atMinute else e.atMinute - Early(sc, w.lead);
    Compare(Minutes(sc, s, elapsed), due, 60000.0);
    assert (e.atMinute - Early(sc, w.lead)) * 60000.0 == e.atMinute * 60000.0 - Early(sc, w.lead) * 60000.0;
  }

  lemma Compare(a: real, b: real, k: real)
    requires k > 0.0
    ensures a >= b <==> a * k >= b * k
  {
    RLessByFactor(a, b, k);
    RLessByFactor(b, a, k);
  }

  /** A regime's announcement goes out from its minute on, without a head start. */
  lemma RegimeDueMeans(sc: Scenario, s: State, r: Regime, elapsed: real)
    ensures RegimeDue(s, r, Minutes(sc, s, elapsed))
       <==> Passed(sc, s, elapsed) >= r.atMinute * 60000.0 && r.id !in s.fired && r.id !in s.skipped
  {
    assert Minutes(sc, s, elapsed) * 60000.0 == Passed(sc, s, elapsed);
    Compare(Minutes(sc, s, elapsed), r.atMinute, 60000.0);
  }

  /** An announcement without words of its own says which way the market has turned. */
  lemma RegimeWords(r: Regime)
    ensures var x := RegimeRelease(r);
            && x.id == r.id && x.regime && (r.headline != "" ==> x.headline == r.headline)
            && (r.headline == "" ==> x.headline == "The market has entered a " + (if r.bull then "Bull Run" else "Bear Run"))
  {
    assert "The market has entered a " + "Bull Run" == "The market has entered a Bull Run";
    assert "The market has entered a " + "Bear Run" == "The market has entered a Bear Run";
  }

  // ---- the effects an item leaves behind ----

  /** The effects of the item with this id on prices. */
  function ImpactsOf(sc: Scenario, n: nat, id: string): seq<Impact>
    requires n <= |sc.events|
  {
    if n == 0 then [] else if sc.events[n - 1].id == id then sc.events[n - 1].impacts else ImpactsOf(sc, n - 1, id)
  }

  /** What one release leaves waiting, if anything. */
  function Own(sc: Scenario, r: Release, when: int): seq<Pending> {
    var ims := ImpactsOf(sc, |sc.events|, r.id);
    if ims == [] then [] else [Pending(when, ims)]
  }

  /** What the first n of these releases leave waiting until that moment, in order. */
  function QueuedBy(sc: Scenario, out: seq<Release>, n: nat, when: int): seq<Pending>
    requires n <= |out|
  {
    if n == 0 then [] else QueuedBy(sc, out, n - 1, when) + Own(sc, out[n - 1], when)
  }

  function Queued(sc: Scenario, out: seq<Release>, when: int): seq<Pending> { QueuedBy(sc, out, |out|, when) }

  lemma {:induction false} OwnImpacts(sc: Scenario, i: nat, n: nat)
    requires Valid(sc) && i < n <= |sc.events|
    ensures ImpactsOf(sc, n, sc.events[i].id) == sc.events[i].impacts
  {
    if i < n - 1 { OwnImpacts(sc, i, n - 1); }
  }

  lemma {:induction false} NoImpacts(sc: Scenario, j: nat, n: nat)
    requires Valid(sc) && j < |sc.regimes| && n <= |sc.events|
    ensures ImpactsOf(sc, n, sc.regimes[j].id) == []
  {
    if n > 0 { NoImpacts(sc, j, n - 1); }
  }

  lemma {:induction false} QueuedSame(sc: Scenario, a: seq<Release>, b: seq<Release>, n: nat, when: int)
    requires n <= |a|
    ensures QueuedBy(sc, a + b, n, when) == QueuedBy(sc, a, n, when)
  {
    if n > 0 { QueuedSame(sc, a, b, n - 1, when); }
  }

  lemma QueuedMore(sc: Scenario, out: seq<Release>, r: Release, when: int)
    ensures Queued(sc, out + [r], when) == Queued(sc, out, when) + Own(sc, r, when)
  {
    QueuedSame(sc, out, [r], |out|, when);
  }

  lemma Regroup<T>(a: seq<T>, b: seq<T>, c: seq<T>)
    ensures (a + b) + c == a + (b + c)
  {
  }

  lemma {:induction false} QueuedUpTo(sc: Scenario, a: seq<Release>, b: seq<Release>, n: nat, when: int)
    requires n <= |b|
    ensures QueuedBy(sc, a + b, |a| + n, when) == Queued(sc, a, when) + QueuedBy(sc, b, n, when)
  {
    if n == 0 {
      QueuedSame(sc, a, b, |a|, when);
    } else {
      QueuedUpTo(sc, a, b, n - 1, when);
      Regroup(Queued(sc, a, when), QueuedBy(sc, b, n - 1, when), Own(sc, b[n - 1], when));
    }
  }

  lemma QueuedPlus(sc: Scenario, a: seq<Release>, b: seq<Release>, when: int)
    ensures Queued(sc, a + b, when) == Queued(sc, a, when) + Queued(sc, b, when)
  {
    QueuedUpTo(sc, a, b, |b|, when);
  }

  /** Of the effects of these releases, none is missing among those waiting, and nothing else was added. (Compared with
      true below, so that the verifier takes it as it stands.) */
  predicate LeftBehind(sc: Scenario, s: State, r: (State, seq<Release>), when: int) { r.0.pending == s.pending + Queued(sc, r.1, when) }

  lemma NoneLeft(sc: Scenario, s: State, when: int)
    ensures LeftBehind(sc, s, (s, []), when) == true
  {
    assert s.pending + [] == s.pending;
  }

  /** The k-th event is fired, or not. */
  predicate Fires(sc: Scenario, s: State, past: (State, seq<Release>), next: (State, seq<Release>), k: nat, when: int)
    requires k < |sc.events|
  {
    next == past || next == (FireEvent(past.0, sc.events[k], when), past.1 + [EventRelease(sc.events[k], s.edits)])
  }

  /** The effects under the event's id are its own. */
  predicate Owns(sc: Scenario, i: nat)
    requires i < |sc.events|
  {
    ImpactsOf(sc, |sc.events|, sc.events[i].id) == sc.events[i].impacts
  }

  ghost predicate AllOwn(sc: Scenario) { forall i: nat :: i < |sc.events| ==> Owns(sc, i) }

  lemma ValidOwn(sc: Scenario)
    requires Valid(sc)
    ensures AllOwn(sc)
  {
    forall i: nat | i < |sc.events|
      ensures Owns(sc, i)
    {
      OwnImpacts(sc, i, |sc.events|);
    }
  }

  /** One event fired on top of others, or left alone. */
  lemma EventQueued(sc: Scenario, s: State, past: (State, seq<Release>), next: (State, seq<Release>), i: nat, when: int)
    requires i < |sc.events| && Owns(sc, i)
    requires LeftBehind(sc, s, past, when) == true
    requires Fires(sc, s, past, next, i, when) == true
    ensures LeftBehind(sc, s, next, when) == true
  {
    QueuedMore(sc, past.1, EventRelease(sc.events[i], s.edits), when);
  }

  /** The same for the announcement of a regime, which leaves nothing behind. */
  lemma RegimeQueued(sc: Scenario, s: State, past: (State, seq<Release>), next: (State, seq<Release>), i: nat, when: int)
    requires Valid(sc) && i < |sc.regimes| && past.0.pending == s.pending && Queued(sc, past.1, when) == []
    requires next == past || (next.0.pending == past.0.pending && next.1 == past.1 + [RegimeRelease(sc.regimes[i])])
    ensures next.0.pending == s.pending && Queued(sc, next.1, when) == []
  {
    NoImpacts(sc, i, |sc.events|);
    QueuedMore(sc, past.1, RegimeRelease(sc.regimes[i]), when);
  }

  lemma {:induction false} EventsNext(sc: Scenario, s: State, w: World, mins: real, k: nat)
    requires k < |sc.events|
    ensures Fires(sc, s, FireEvents(sc, s, w, mins, k), FireEvents(sc, s, w, mins, k + 1), k, w.now + w.lead)
  {
  }

  lemma {:induction false} EventsQueue(sc: Scenario, s: State, w: World, mins: real, n: nat)
    requires AllOwn(sc) && n <= |sc.events|
    ensures LeftBehind(sc, s, FireEvents(sc, s, w, mins, n), w.now + w.lead) == true
  {
    if n == 0 {
      NoneLeft(sc, s, w.now + w.lead);
    } else {
      EventsQueue(sc, s, w, mins, n - 1);
      EventsNext(sc, s, w, mins, n - 1);
      assert Owns(sc, n - 1);
      EventQueued(sc, s, FireEvents(sc, s, w, mins, n - 1), FireEvents(sc, s, w, mins, n), n - 1, w.now + w.lead);
    }
  }

  lemma {:induction false} NamedNext(sc: Scenario, s: State, id: string, w: World, k: nat)
    requires k < |sc.events|
    ensures Fires(sc, s, FireNamed(sc, s, id, w, k), FireNamed(sc, s, id, w, k + 1), k, w.now + w.lead)
  {
  }

  lemma {:induction false} NamedQueue(sc: Scenario, s: State, id: string, w: World, n: nat)
    requires AllOwn(sc) && n <= |sc.events|
    ensures LeftBehind(sc, s, FireNamed(sc, s, id, w, n), w.now + w.lead) == true
  {
    if n == 0 {
      NoneLeft(sc, s, w.now + w.lead);
    } else {
      NamedQueue(sc, s, id, w, n - 1);
      NamedNext(sc, s, id, w, n - 1);
      assert Owns(sc, n - 1);
      EventQueued(sc, s, FireNamed(sc, s, id, w, n - 1), FireNamed(sc, s, id, w, n), n - 1, w.now + w.lead);
    }
  }

  lemma {:induction false} OverdueNext(sc: Scenario, s: State, w: World, mins: real, k: nat)
    requires k < |sc.events|
    ensures Fires(sc, s, Overdue(sc, s, w, mins, k), Overdue(sc, s, w, mins, k + 1), k, w.now + w.lead)
  {
  }

  lemma {:induction false} OverdueQueue(sc: Scenario, s: State, w: World, mins: real, n: nat)
    requires AllOwn(sc) && n <= |sc.events|
    ensures LeftBehind(sc, s, Overdue(sc, s, w, mins, n), w.now + w.lead) == true
  {
    if n == 0 {
      NoneLeft(sc, s, w.now + w.lead);
    } else {
      OverdueQueue(sc, s, w, mins, n - 1);
      OverdueNext(sc, s, w, mins, n - 1);
      assert Owns(sc, n - 1);
      EventQueued(sc, s, Overdue(sc, s, w, mins, n - 1), Overdue(sc, s, w, mins, n), n - 1, w.now + w.lead);
    }
  }

  lemma {:induction false} RegimesQueue(sc: Scenario, s: State, mins: real, n: nat, when: int)
    requires Valid(sc) && n <= |sc.regimes|
    ensures var r := FireRegimes(sc, s, mins, n); r.0.pending == s.pending && Queued(sc, r.1, when) == []
  {
    if n > 0 {
      RegimesQueue(sc, s, mins, n - 1, when);
      RegimeQueued(sc, s, FireRegimes(sc, s, mins, n - 1), FireRegimes(sc, s, mins, n), n - 1, when);
    }
  }

  lemma {:induction false} NamedRegimeQueue(sc: Scenario, s: State, id: string, n: nat, when: int)
    requires Valid(sc) && n <= |sc.regimes|
    ensures var r := FireNamedRegime(sc, s, id, n); r.0.pending == s.pending && Queued(sc, r.1, when) == []
  {
    if n > 0 {
      NamedRegimeQueue(sc, s, id, n - 1, when);
      RegimeQueued(sc, s, FireNamedRegime(sc, s, id, n - 1), FireNamedRegime(sc, s, id, n), n - 1, when);
    }
  }

  /** Events, and then regimes. */
  lemma Together(sc: Scenario, s: State, first: (State, seq<Release>), rest: (State, seq<Release>), when: int)
    requires LeftBehind(sc, s, first, when) && rest.0.pending == first.0.pending && Queued(sc, rest.1, when) == []
    ensures LeftBehind(sc, s, (rest.0, first.1 + rest.1), when) == true
  {
    QueuedPlus(sc, first.1, rest.1, when);
  }

  lemma DueQueue(sc: Scenario, s: State, w: World, elapsed: real)
    requires Valid(sc)
    ensures LeftBehind(sc, s, FireDue(sc, s, w, elapsed), w.now + w.lead) == true
  {
    var when := w.now + w.lead;
    if s.manual {
      NoneLeft(sc, s, when);
    } else {
      var mins := Minutes(sc, s, elapsed);
      var first := FireEvents(sc, s, w, mins, |sc.events|);
      ValidOwn(sc);
      EventsQueue(sc, s, w, mins, |sc.events|);
      RegimesQueue(sc, first.0, mins, |sc.regimes|, when);
      Together(sc, s, first, FireRegimes(sc, first.0, mins, |sc.regimes|), when);
    }
  }

  lemma OneQueue(sc: Scenario, s: State, id: string, w: World)
    requires Valid(sc)
    ensures LeftBehind(sc, s, FireOne(sc, s, id, w), w.now + w.lead) == true
  {
    var when := w.now + w.lead;
    if id in s.fired {
      NoneLeft(sc, s, when);
    } else {
      var first := FireNamed(sc, s, id, w, |sc.events|);
      ValidOwn(sc);
      NamedQueue(sc, s, id, w, |sc.events|);
      NamedRegimeQueue(sc, first.0, id, |sc.regimes|, when);
      Together(sc, s, first, FireNamedRegime(sc, first.0, id, |sc.regimes|), when);
    }
  }

  lemma SecondQueues(sc: Scenario, s: State, w: World, spread: Spread)
    requires Valid(sc) && w.elapsed.Some?
    ensures var r := AdvanceOne(sc, s, w, spread); r.0.pending == Waiting(s.pending + Queued(sc, r.1, w.now + w.lead), w.now)
  {
    var t := AfterMarket(sc, s, w);
    DueQueue(sc, t, w, w.elapsed.value);
    var fired := FireDue(sc, t, w, w.elapsed.value).0;
    PendingExactly(sc, fired.pending, fired.shocks, w.now, spread);
  }

  /** What an operation leaves waiting, given what it released. */
  function Left(sc: Scenario, s: State, op: Op, out: seq<Release>): seq<Pending> {
    match op
    case Second(w) => if w.elapsed.Some? then Waiting(s.pending + Queued(sc, out, w.now + w.lead), w.now) else s.pending
    case ByHand(_, w) => s.pending + Queued(sc, out, w.now + w.lead)
    case CatchUp(w) => s.pending + Queued(sc, out, w.now + w.lead)
    case _ => s.pending
  }

  /** Whatever releases items, each leaves exactly its own effects waiting until the public has it, in order; a second
      then applies those whose moment has come, and every other operation leaves the waiting ones alone. */
  lemma StepQueues(sc: Scenario, s: State, op: Op, spread: Spread)
    requires Valid(sc)
    ensures Step(sc, s, op, spread).0.pending == Left(sc, s, op, Step(sc, s, op, spread).1)
  {
    match op
    case Second(w) => if w.elapsed.Some? { SecondQueues(sc, s, w, spread); }
    case ByHand(id, w) => OneQueue(sc, s, id, w);
    case CatchUp(w) =>
      ValidOwn(sc);
      OverdueQueue(sc, s, w, OverdueMinutes(sc, s, w), |sc.events|);
    case Shift(delta) => ShiftMoves(sc, s, delta);
    case _ =>
  }

  /** An effect that builds up over some minutes is spread over the price changes they take, at least one. */
  lemma TicksMean(sc: Scenario, im: Impact)
    requires sc.tickSeconds > 0
    ensures var n := Ticks(sc, im);
            && n >= 1 && n as real * sc.tickSeconds as real >= im.rampMinutes * 60.0
            && (n > 1 ==> (n - 1) as real * sc.tickSeconds as real < im.rampMinutes * 60.0)
  {
    TicksCover(im.rampMinutes * 60.0, sc.tickSeconds as real, Ticks(sc, im));
  }

  lemma TicksCover(secs: real, t: real, n: int)
    requires t > 0.0 && n == Max(1, Ceil(secs / t))
    ensures n as real * t >= secs
    ensures n > 1 ==> (n - 1) as real * t < secs
  {
    var x := secs / t;
    assert x * t == secs;
    CeilIs(x);
    RMulMono(x, n as real, t);
    if n > 1 { CoverLess((n - 1) as real, x, t, secs); }
  }

  lemma CoverLess(k: real, x: real, t: real, secs: real)
    requires t > 0.0 && k < x && x * t == secs
    ensures k * t < secs
  {
    Below(k, x, t);
  }

  lemma CeilIs(x: real)
    ensures x <= Ceil(x) as real < x + 1.0
  {
    var down := (-x).Floor;
    assert down as real <= -x < down as real + 1.0;
  }

  lemma Below(a: real, b: real, k: real)
    requires a < b && k > 0.0
    ensures a * k < b * k
  {
    assert b * k - a * k == (b - a) * k;
  }

  /** While the price table lasts its prices already hold the news, and every price change forgets the shocks; after it
      each price change uses up one step of them. */
  lemma ShocksAtChange(sc: Scenario, s: State)
    requires sc.tickSeconds > 0
    ensures var t := MarketSecond(sc, s);
            && t == s.(marketSeconds := s.marketSeconds + 1, tick := t.tick, shocks := t.shocks)
            && (if t.marketSeconds % sc.tickSeconds != 0 then t.tick == s.tick && t.shocks == s.shocks
                else t.tick == s.tick + 1
                     && t.shocks == if sc.tableRows.Some? && sc.tableRows.value > t.tick then [] else UseShocks(s.shocks))
  {
  }

  /** A second is saved at once exactly when it changed prices, released something or had an effect to apply. */
  lemma SecondSavedIff(sc: Scenario, s: State, w: World, spread: Spread)
    requires sc.tickSeconds > 0 && w.elapsed.Some?
    ensures SavingOf(sc, s, Second(w)).AtOnce?
       <==> var r := Step(sc, s, Second(w), spread);
            r.0.tick != s.tick || r.1 != [] || exists p :: p in s.pending && p.applyAt <= w.now
  {
    var t := AfterMarket(sc, s, w);
    if FireDue(sc, t, w, w.elapsed.value).1 == [] {
      QuietDue(sc, t, w, w.elapsed.value);
      assert EffectDue(t.pending, w.now) <==> exists p :: p in s.pending && p.applyAt <= w.now by {
        assert t.pending == s.pending;
      }
    }
  }

  // ---- catching up ----

  /** Catching up sends exactly the items whose own minute has passed and that are neither out nor held, without a head
      start and whatever their phase. */
  lemma {:induction false} OverdueExactly(sc: Scenario, s: State, w: World, mins: real, n: nat, id: string)
    requires Valid(sc) && n <= |sc.events|
    ensures var r := Overdue(sc, s, w, mins, n);
            && (id in Ids(r.1) <==> Free(s, id) && exists i :: 0 <= i < n && sc.events[i].id == id && mins >= Effective(sc.events[i], s.edits).atMinute)
            && (id in r.0.fired <==> id in s.fired || id in Ids(r.1)) && r.0.skipped == s.skipped
  {
    if n > 0 {
      var past, ev := Overdue(sc, s, w, mins, n - 1), sc.events[n - 1];
      OverdueExactly(sc, s, w, mins, n - 1, id);
      OverdueExactly(sc, s, w, mins, n - 1, ev.id);
      assert Free(past.0, ev.id) <==> Free(s, ev.id);
      IdsPlus(past.1, [EventRelease(ev, s.edits)]);
      assert Ids([EventRelease(ev, s.edits)]) == [ev.id];
    }
  }

  // ---- holding, editing, moving ----

  lemma {:induction false} WithoutOnly(skipped: seq<string>, id: string, other: string)
    ensures other in Without(skipped, id) <==> other in skipped && other != id
  {
    if skipped != [] { WithoutOnly(skipped[..|skipped| - 1], id, other); }
  }

  /** An item that is known and not out is held or freed as asked, and no other; anything else is refused. */
  lemma HeldMeans(sc: Scenario, s: State, id: string, skip: bool, other: string)
    ensures var t := Held(sc, s, id, skip);
            && t == s.(skipped := t.skipped)
            && (other in t.skipped <==> if other == id && id !in s.fired && Known(sc, id) then skip else other in s.skipped)
  {
    WithoutOnly(s.skipped, id, other);
  }

  /** An event that is not out gets the words and the minute it is given, as far as they are given; no other one is
      touched. */
  lemma EditMeans(sc: Scenario, s: State, id: string, headline: string, at: Option<real>, ev: Event)
    ensures var t := Edited(sc, s, id, headline, at);
            var (e, f) := (Effective(ev, s.edits), Effective(ev, t.edits));
            && t == s.(edits := t.edits)
            && (if ev.id == id && IsEvent(sc, id) && id !in s.fired && (at.None? || (at.value >= 0.0 && at.value <= 1440.0))
                then f == e.(headline := if headline != "" then headline else e.headline, atMinute := if at.Some? then at.value else e.atMinute)
                else f == e)
  {
  }

  /** What shifting the first n events makes of an event. */
  function Moved(s: State, ev: Event, delta: real): Event {
    var e := Effective(ev, s.edits);
    if ev.id in s.fired then e else e.(atMinute := RMax(e.atMinute + delta, 0.0))
  }

  lemma ShiftedStep(s: State, past: State, next: State, ev: Event, other: Event, delta: real)
    requires past == s.(edits := past.edits) && Effective(ev, past.edits) == Effective(ev, s.edits)
    requires next == if ev.id in s.fired then past
                     else past.(edits := past.edits[ev.id := EditOf(past, ev.id).(at := Some(RMax(Effective(ev, past.edits).atMinute + delta, 0.0)))])
    ensures next == s.(edits := next.edits) && Effective(ev, next.edits) == Moved(s, ev, delta)
    ensures other.id != ev.id ==> Effective(other, next.edits) == Effective(other, past.edits)
  {
  }

  lemma {:induction false} ShiftedMeans(sc: Scenario, s: State, delta: real, n: nat, i: nat)
    requires Valid(sc) && n <= |sc.events| && i < |sc.events|
    ensures var t := Shifted(sc, s, delta, n);
            && t == s.(edits := t.edits)
            && Effective(sc.events[i], t.edits) == if i < n then Moved(s, sc.events[i], delta) else Effective(sc.events[i], s.edits)
    decreases n
  {
    if n > 0 {
      ShiftedMeans(sc, s, delta, n - 1, n - 1);
      ShiftedStep(s, Shifted(sc, s, delta, n - 1), Shifted(sc, s, delta, n), sc.events[n - 1], sc.events[i], delta);
      if i != n - 1 {
        ShiftedMeans(sc, s, delta, n - 1, i);
        Apart(sc, i, n - 1);
      }
    }
  }

  lemma Apart(sc: Scenario, i: nat, j: nat)
    requires Valid(sc) && i < |sc.events| && j < |sc.events| && i != j
    ensures sc.events[i].id != sc.events[j].id
  {
    if i < j { assert sc.events[i].id != sc.events[j].id; } else { assert sc.events[j].id != sc.events[i].id; }
  }

  /** Shifting moves every event that is not out by so many minutes, but not before the start, and leaves its words
      alone. */
  lemma ShiftMeans(sc: Scenario, s: State, delta: real, i: nat)
    requires Valid(sc) && i < |sc.events|
    ensures Effective(sc.events[i], ShiftAll(sc, s, delta).edits)
         == if -1440.0 <= delta <= 1440.0 then Moved(s, sc.events[i], delta) else Effective(sc.events[i], s.edits)
  {
    ShiftedMeans(sc, s, delta, |sc.events|, i);
  }

  lemma ShiftMoves(sc: Scenario, s: State, delta: real)
    ensures ShiftAll(sc, s, delta).pending == s.pending
  {
    if MayShift(delta) { ShiftKeepsPending(sc, s, delta, |sc.events|); }
  }

  lemma {:induction false} ShiftKeepsPending(sc: Scenario, s: State, delta: real, n: nat)
    requires n <= |sc.events|
    ensures Shifted(sc, s, delta, n).pending == s.pending
  {
    if n > 0 { ShiftKeepsPending(sc, s, delta, n - 1); }
  }
}

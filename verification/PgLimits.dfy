/** Where the promises of the database log end: exactly when a stored record can be refused, and exactly
    when a server that lost the write lock writes again. */
module PgLimits {
  import opened Options
  import opened PgWriter

  // ---- what can follow a state ----

  ghost predicate Leads(s: Sys, t: Sys, bad: set<Rid>) {
    exists run, events :: Path(run, events, bad) && run[0] == s && run[|run| - 1] == t
  }

  ghost predicate Reachable(s: Sys, bad: set<Rid>) { Leads(Init(), s, bad) }

  lemma Stay(s: Sys, bad: set<Rid>)
    ensures Leads(s, s, bad)
  {
    assert Path([s], [], bad);
  }

  lemma Extend(s: Sys, t: Sys, e: Event, u: Sys, bad: set<Rid>)
    requires Leads(s, t, bad) && Move(t, e, u, bad)
    ensures Leads(s, u, bad)
  {
    var run, events :| Path(run, events, bad) && run[0] == s && run[|run| - 1] == t;
    var run', events' := run + [u], events + [e];
    forall i | 0 <= i < |events'|
      ensures Move(run'[i], events'[i], run'[i + 1], bad)
    {
      if i < |events| { assert run'[i] == run[i] && run'[i + 1] == run[i + 1] && events'[i] == events[i]; }
    }
    assert Path(run', events', bad);
  }

  lemma Follow(s: Sys, t: Sys, e: Event, bad: set<Rid>) returns (u: Sys)
    requires Leads(s, t, bad) && Inv(t, bad) && Batches(t, bad) && Can(t, e, bad)
    ensures u == Do(t, e, bad) && Leads(s, u, bad) && Inv(u, bad) && Batches(u, bad)
  {
    u := Do(t, e, bad);
    Extend(s, t, e, u, bad);
    StepKeeps(t, e, bad);
    BatchesKept(t, e, bad);
  }

  lemma PathAt(run: seq<Sys>, events: seq<Event>, bad: set<Rid>, i: nat)
    requires Path(run, events, bad) && 0 < i < |run| && Inv(run[i - 1], bad) && Batches(run[i - 1], bad)
    ensures Inv(run[i], bad) && Batches(run[i], bad) && run[i - 1].table <= run[i].table
  {
    MoveKeeps(run[i - 1], events[i - 1], run[i], bad);
    GrowsOnce(run[i - 1], events[i - 1], run[i], bad);
  }

  lemma {:induction false} PathFine(run: seq<Sys>, events: seq<Event>, bad: set<Rid>, i: nat)
    requires Path(run, events, bad) && i < |run| && Inv(run[0], bad) && Batches(run[0], bad)
    ensures Inv(run[i], bad) && Batches(run[i], bad) && run[0].table <= run[i].table
  {
    if i > 0 {
      PathFine(run, events, bad, i - 1);
      PathAt(run, events, bad, i);
      PrefixOf(run[0].table, run[i - 1].table, run[i].table);
    }
  }

  lemma LeadsFine(s: Sys, t: Sys, bad: set<Rid>)
    requires Leads(s, t, bad) && Inv(s, bad) && Batches(s, bad)
    ensures Inv(t, bad) && Batches(t, bad) && s.table <= t.table
  {
    var run, events :| Path(run, events, bad) && run[0] == s && run[|run| - 1] == t;
    PathFine(run, events, bad, |run| - 1);
  }

  lemma ReachableFine(s: Sys, bad: set<Rid>)
    requires Reachable(s, bad)
    ensures Inv(s, bad) && Batches(s, bad)
  {
    LeadsFine(Init(), s, bad);
  }

  // ---- a stored record can be refused exactly when a record of its batch cannot be stored ----

  /** The record is in the table, was refused with its fate unknown, and the log goes on. */
  predicate StoredYetRefused(t: Sys, w: nat, n: nat) {
    && w in t.writers && n < |t.writers[w].answers| && t.writers[w].answers[n].Unknown? && !t.writers[w].broken
    && Rid(w, n) in t.table
  }

  /** Until record n has its answer its batch is [a, b); its fate is left unknown only if that is spoilt. */
  ghost predicate Waits(t: Sys, w: nat, n: nat, a: nat, b: nat, bad: set<Rid>) {
    w in t.writers && WaitsSo(w, t.writers[w], n, a, b, bad)
  }

  predicate WaitsSo(w: nat, wr: Writer, n: nat, a: nat, b: nat, bad: set<Rid>) {
    if |wr.answers| <= n then wr.start == a && Limit(wr) == b && !wr.phase.Idle?
    else wr.answers[n].Unknown? ==> HasBad(bad, w, a, b)
  }

  lemma AloneWaits(s: Sys, w: nat, wr: Writer, act: Act, n: nat, a: nat, b: nat, bad: set<Rid>)
    requires IsAlone(By(w, act)) && CanGo(s, w, wr, act) && !wr.phase.Dead?
    requires BatchFine(w, wr, bad) && a <= n < b && WaitsSo(w, wr, n, a, b, bad)
    ensures WaitsSo(w, Alone(wr, act), n, a, b, bad)
  {
  }

  lemma OwnWaits(s: Sys, e: Event, bad: set<Rid>, n: nat, a: nat, b: nat)
    requires e.By? && !e.act.Open? && Can(s, e, bad) && a <= n < b && Waits(s, e.w, n, a, b, bad)
    requires BatchFine(e.w, s.writers[e.w], bad)
    ensures WaitsSo(e.w, Do(s, e, bad).writers[e.w], n, a, b, bad)
  {
    OwnWriter(s, e, bad);
    if IsAlone(e) { AloneWaits(s, e.w, s.writers[e.w], e.act, n, a, b, bad); }
  }

  lemma WaitsOn(s: Sys, e: Event, t: Sys, bad: set<Rid>, w: nat, n: nat, a: nat, b: nat)
    requires Move(s, e, t, bad) && Batches(s, bad) && a <= n < b && Waits(s, w, n, a, b, bad)
    ensures Waits(t, w, n, a, b, bad)
  {
    FinalOnce(s, e, t, bad, w);
    if e.By? && e.w == w && !e.act.Open? { OwnWaits(s, e, bad, n, a, b); } else { OthersStay(s, e, bad, w); }
  }

  lemma WaitsAt(run: seq<Sys>, events: seq<Event>, bad: set<Rid>, i: nat, w: nat, n: nat, a: nat, b: nat)
    requires Path(run, events, bad) && 0 < i < |run| && Inv(run[0], bad) && Batches(run[0], bad) && a <= n < b
    requires Waits(run[i - 1], w, n, a, b, bad)
    ensures Waits(run[i], w, n, a, b, bad)
  {
    PathFine(run, events, bad, i - 1);
    WaitsOn(run[i - 1], events[i - 1], run[i], bad, w, n, a, b);
  }

  lemma {:induction false} WaitsAlong(run: seq<Sys>, events: seq<Event>, bad: set<Rid>, i: nat, w: nat, n: nat, a: nat, b: nat)
    requires Path(run, events, bad) && i < |run| && Inv(run[0], bad) && Batches(run[0], bad) && a <= n < b
    requires Waits(run[0], w, n, a, b, bad)
    ensures Waits(run[i], w, n, a, b, bad)
  {
    if i > 0 {
      WaitsAlong(run, events, bad, i - 1, w, n, a, b);
      WaitsAt(run, events, bad, i, w, n, a, b);
    }
  }

  /** A writer that has the lock, a live session and is storing one by one, the next record being n. */
  ghost predicate AtOne(s: Sys, w: nat, n: nat, to: nat, bad: set<Rid>) {
    && Inv(s, bad) && Batches(s, bad) && Connected(s, w) && s.writers[w].phase == One(to) && Next(s.writers[w]) == n < to
    && !s.writers[w].broken
  }

  lemma SessionOfConn(s: Sys, w: nat, bad: set<Rid>)
    requires Inv(s, bad) && Connected(s, w)
    ensures s.sessions[s.writers[w].conn.value].owner == w
    ensures s.writers[w].phase.One? || s.writers[w].phase.Ready? ==> s.sessions[s.writers[w].conn.value].stmt == Free
  {
    assert WriterFine(s, w, bad);
  }

  /** The database answers the insert of the one record. */
  lemma OneAnswered(s: Sys, t: Sys, w: nat, n: nat, to: nat, bad: set<Rid>) returns (u: Sys)
    requires Leads(s, t, bad) && AtOne(t, w, n, to, bad)
    ensures Leads(s, u, bad) && Inv(u, bad) && Batches(u, bad) && HasReply(u, w)
    ensures u.writers[w] == t.writers[w].(phase := OneSent(to))
    ensures Rid(w, n) !in bad ==> Rid(w, n) in u.table
  {
    var sid := t.writers[w].conn.value;
    SessionOfConn(t, w, bad);
    var v := Follow(s, t, By(w, SendOne), bad);
    assert v.sessions[sid].stmt == Running(n, n + 1) && v.sessions[sid].owner == w;
    if Rid(w, n) in bad {
      assert RunsBad(v, sid, bad);
      u := Follow(s, v, Db(sid, Reject), bad);
    } else {
      assert !RunsBad(v, sid, bad);
      u := Follow(s, v, Db(sid, Store), bad);
      InsertHas(v.table, w, n, n + 1, Rid(w, n));
    }
  }

  lemma OnePasses(s: Sys, t: Sys, w: nat, n: nat, to: nat, bad: set<Rid>) returns (u: Sys)
    requires Leads(s, t, bad) && AtOne(t, w, n, to, bad) && n + 1 < to
    ensures Leads(s, u, bad) && AtOne(u, w, n + 1, to, bad)
  {
    var v := OneAnswered(s, t, w, n, to, bad);
    u := Follow(s, v, By(w, HearOne), bad);
  }

  lemma {:induction false} OnesPass(s: Sys, t: Sys, w: nat, m: nat, n: nat, to: nat, bad: set<Rid>) returns (u: Sys)
    requires Leads(s, t, bad) && AtOne(t, w, m, to, bad) && m <= n < to
    ensures Leads(s, u, bad) && AtOne(u, w, n, to, bad)
    decreases n - m
  {
    if m == n {
      u := t;
    } else {
      var v := OnePasses(s, t, w, m, to, bad);
      u := OnesPass(s, v, w, m + 1, n, to, bad);
    }
  }

  lemma BatchSpoilt(s: Sys, w: nat, bad: set<Rid>) returns (u: Sys)
    requires Inv(s, bad) && Batches(s, bad) && Connected(s, w) && s.writers[w].phase.Ready?
    requires HasBad(bad, w, Next(s.writers[w]), s.writers[w].phase.to)
    ensures Leads(s, u, bad) && AtOne(u, w, Next(s.writers[w]), s.writers[w].phase.to, bad)
  {
    var sid := s.writers[w].conn.value;
    SessionOfConn(s, w, bad);
    assert BatchFine(w, s.writers[w], bad);
    Stay(s, bad);
    var a := Follow(s, s, By(w, Send), bad);
    assert a.sessions[sid].stmt == Running(Next(s.writers[w]), s.writers[w].phase.to) && a.sessions[sid].owner == w;
    assert RunsBad(a, sid, bad);
    var b := Follow(s, a, Db(sid, Reject), bad);
    u := Follow(s, b, By(w, Hear), bad);
  }

  lemma LosesOne(s: Sys, w: nat, n: nat, bad: set<Rid>) returns (u: Sys)
    requires Inv(s, bad) && Batches(s, bad) && Connected(s, w) && s.writers[w].phase.Ready?
    requires Next(s.writers[w]) <= n < s.writers[w].phase.to && Rid(w, n) !in bad
    requires HasBad(bad, w, Next(s.writers[w]), s.writers[w].phase.to)
    ensures Leads(s, u, bad) && StoredYetRefused(u, w, n)
  {
    var to := s.writers[w].phase.to;
    var a := BatchSpoilt(s, w, bad);
    var b := OnesPass(s, a, w, Next(s.writers[w]), n, to, bad);
    var c := OneAnswered(s, b, w, n, to, bad);
    u := Follow(s, c, By(w, LoseOne), bad);
  }

  /** A batch is about to be sent. A record of it can come to be stored and yet refused, with the log going
      on, if and only if the batch has a record that cannot be stored. */
  lemma StoredYetRefusedIff(s: Sys, w: nat, n: nat, bad: set<Rid>)
    requires Reachable(s, bad) && Connected(s, w) && s.writers[w].phase.Ready?
    requires Next(s.writers[w]) <= n < s.writers[w].phase.to && Rid(w, n) !in bad
    ensures (exists t :: Leads(s, t, bad) && StoredYetRefused(t, w, n))
            <==> HasBad(bad, w, Next(s.writers[w]), s.writers[w].phase.to)
  {
    ReachableFine(s, bad);
    assert BatchFine(w, s.writers[w], bad);
    if HasBad(bad, w, Next(s.writers[w]), s.writers[w].phase.to) {
      var t := LosesOne(s, w, n, bad);
    }
    if t :| Leads(s, t, bad) && StoredYetRefused(t, w, n) {
      var run, events :| Path(run, events, bad) && run[0] == s && run[|run| - 1] == t;
      assert Waits(s, w, n, Next(s.writers[w]), s.writers[w].phase.to, bad);
      WaitsAlong(run, events, bad, |run| - 1, w, n, Next(s.writers[w]), s.writers[w].phase.to);
    }
  }

  // ---- a server that lost the lock writes again exactly when it takes it again ----

  /** The server has no insert under way and, at most, a connection on which it has not asked for the lock yet. */
  ghost predicate Fenced(s: Sys, w: nat) {
    && (forall sid :: sid in s.sessions && s.sessions[sid].owner == w ==> !s.sessions[sid].stmt.Running?)
    && (Connected(s, w) ==> s.writers[w].phase.Asking?)
  }

  lemma HeldByAnother(s: Sys, w: nat, bad: set<Rid>)
    requires Inv(s, bad) && s.lock.Some? && s.lock.value in s.sessions && s.sessions[s.lock.value].owner != w
    ensures Fenced(s, w)
  {
    forall sid | sid in s.sessions && s.sessions[sid].owner == w
      ensures !s.sessions[sid].stmt.Running?
    {
      assert SessionFine(s, sid);
    }
    if Connected(s, w) { assert WriterFine(s, w, bad); }
  }

  lemma FencedByOther(s: Sys, e: Event, bad: set<Rid>, w: nat)
    requires Inv(s, bad) && Can(s, e, bad) && Fenced(s, w) && e.By? && e.w != w
    ensures Fenced(Do(s, e, bad), w)
  {
    OtherStatements(s, e, bad);
    if w in Do(s, e, bad).writers { OthersStay(s, e, bad, w); }
    if Connected(Do(s, e, bad), w) { assert WriterFine(s, w, bad); }
  }

  /** A writer's step leaves other servers' sessions as they are. */
  lemma OtherStatements(s: Sys, e: Event, bad: set<Rid>)
    requires Inv(s, bad) && Can(s, e, bad) && e.By?
    ensures forall sid :: sid in Do(s, e, bad).sessions && Do(s, e, bad).sessions[sid].owner != e.w ==>
                            sid in s.sessions && Do(s, e, bad).sessions[sid] == s.sessions[sid]
  {
    if e.w in s.writers { assert WriterFine(s, e.w, bad); }
  }

  lemma FencedByOwn(s: Sys, e: Event, bad: set<Rid>)
    requires Inv(s, bad) && e.By? && Can(s, e, bad) && Fenced(s, e.w) && !e.act.Lock?
    ensures Fenced(Do(s, e, bad), e.w)
  {
    if e.w in s.writers { assert WriterFine(s, e.w, bad); }
  }

  lemma FencedByDb(s: Sys, e: Event, bad: set<Rid>, w: nat)
    requires Inv(s, bad) && e.Db? && Can(s, e, bad) && Fenced(s, w)
    ensures Fenced(Do(s, e, bad), w)
  {
  }

  ghost predicate NoNew(was: seq<Rid>, now: seq<Rid>, w: nat) { forall n: nat :: Rid(w, n) in now ==> Rid(w, n) in was }

  lemma StoresNothing(s: Sys, e: Event, bad: set<Rid>, w: nat)
    requires Inv(s, bad) && Can(s, e, bad) && Fenced(s, w)
    ensures NoNew(s.table, Do(s, e, bad).table, w)
  {
    OnlyTheLockHolderWrites(s, e, bad);
    if e.Db? && e.what.Store? {
      forall n: nat | Rid(w, n) in Do(s, e, bad).table
        ensures Rid(w, n) in s.table
      {
        InsertHas(s.table, s.sessions[e.sid].owner, s.sessions[e.sid].stmt.from, s.sessions[e.sid].stmt.to, Rid(w, n));
      }
    }
  }

  lemma FencedOn(s: Sys, e: Event, t: Sys, bad: set<Rid>, w: nat)
    requires Inv(s, bad) && Move(s, e, t, bad) && Fenced(s, w) && e != By(w, Lock)
    ensures Fenced(t, w) && NoNew(s.table, t.table, w)
  {
    StoresNothing(s, e, bad, w);
    if e.Db? { FencedByDb(s, e, bad, w); }
    else if e.w == w { FencedByOwn(s, e, bad); }
    else { FencedByOther(s, e, bad, w); }
  }

  ghost predicate NoLock(events: seq<Event>, w: nat, a: nat, i: nat) {
    forall k :: a <= k < i && k < |events| ==> events[k] != By(w, Lock)
  }

  lemma FencedAt(run: seq<Sys>, events: seq<Event>, bad: set<Rid>, w: nat, i: nat)
    requires Path(run, events, bad) && 0 < i < |run| && Inv(run[0], bad) && Batches(run[0], bad)
    requires Fenced(run[i - 1], w) && events[i - 1] != By(w, Lock)
    ensures Fenced(run[i], w) && NoNew(run[i - 1].table, run[i].table, w)
  {
    PathFine(run, events, bad, i - 1);
    FencedOn(run[i - 1], events[i - 1], run[i], bad, w);
  }

  lemma {:induction false} FencedAlong(run: seq<Sys>, events: seq<Event>, bad: set<Rid>, w: nat, a: nat, i: nat)
    requires Path(run, events, bad) && a <= i < |run| && Inv(run[0], bad) && Batches(run[0], bad)
    requires Fenced(run[a], w) && NoLock(events, w, a, i)
    ensures Fenced(run[i], w) && NoNew(run[a].table, run[i].table, w)
    decreases i
  {
    if a < i {
      FencedAlong(run, events, bad, w, a, i - 1);
      FencedAt(run, events, bad, w, i);
    }
  }

  ghost predicate StoresFor(s: Sys, e: Event, w: nat) {
    e.Db? && e.what.Store? && e.sid in s.sessions && s.sessions[e.sid].owner == w
  }

  /** Over every run: between another server's insert and a later one of its own, a server has taken the
      lock again, and it was free then. */
  lemma WritesAgainOnlyLocked(run: seq<Sys>, events: seq<Event>, bad: set<Rid>, v: nat, w: nat, i: nat, j: nat)
    requires Behaviour(run, events, bad) && i < j < |events| && v != w
    requires StoresFor(run[i], events[i], v) && StoresFor(run[j], events[j], w)
    ensures exists k :: i < k < j && events[k] == By(w, Lock) && run[k].lock == None
  {
    AlwaysFine(run, events, bad, 0);
    AlwaysFine(run, events, bad, i);
    assert Move(run[i], events[i], run[i + 1], bad) && Move(run[j], events[j], run[j + 1], bad);
    assert SessionFine(run[i], events[i].sid);
    HeldByAnother(run[i], w, bad);
    FencedByDb(run[i], events[i], bad, w);
    if NoLock(events, w, i + 1, j) {
      FencedAlong(run, events, bad, w, i + 1, j);
      assert false;
    }
    var k :| i + 1 <= k < j && k < |events| && events[k] == By(w, Lock);
    assert Move(run[k], events[k], run[k + 1], bad);
  }

  /** The server is gone or has stopped itself. */
  predicate Over(s: Sys, w: nat) { w in s.writers && (s.writers[w].broken || s.writers[w].phase.Dead?) }

  lemma OverOn(s: Sys, e: Event, t: Sys, bad: set<Rid>, w: nat)
    requires Batches(s, bad) && Move(s, e, t, bad) && Over(s, w)
    ensures Over(t, w) && e != By(w, Lock)
  {
    assert BatchFine(w, s.writers[w], bad);
    FinalOnce(s, e, t, bad, w);
    if !(e.By? && e.w == w) { OthersStay(s, e, bad, w); }
  }

  lemma OverAt(run: seq<Sys>, events: seq<Event>, bad: set<Rid>, w: nat, i: nat)
    requires Path(run, events, bad) && 0 < i < |run| && Inv(run[0], bad) && Batches(run[0], bad) && Over(run[i - 1], w)
    ensures Over(run[i], w) && events[i - 1] != By(w, Lock)
  {
    PathFine(run, events, bad, i - 1);
    OverOn(run[i - 1], events[i - 1], run[i], bad, w);
  }

  lemma {:induction false} OverAlong(run: seq<Sys>, events: seq<Event>, bad: set<Rid>, w: nat, i: nat)
    requires Path(run, events, bad) && i < |run| && Inv(run[0], bad) && Batches(run[0], bad) && Over(run[0], w)
    ensures Over(run[i], w) && NoLock(events, w, 0, i)
  {
    if i > 0 {
      OverAlong(run, events, bad, w, i - 1);
      OverAt(run, events, bad, w, i);
    }
  }

  // a server that has not given up can always come back

  predicate Active(s: Sys, w: nat) { w in s.writers && !s.writers[w].broken && !s.writers[w].phase.Dead? }

  /** None of its records without an answer is one that cannot be stored. */
  ghost predicate GoodFrom(bad: set<Rid>, w: nat, n: nat) { forall m: nat :: n <= m ==> Rid(w, m) !in bad }

  ghost predicate Ongoing(s: Sys, t: Sys, w: nat, bad: set<Rid>) {
    Leads(s, t, bad) && Inv(t, bad) && Batches(t, bad) && Active(t, w) && GoodFrom(bad, w, Next(t.writers[w]))
  }

  /** It gives up storing one by one and has no connection left. */
  lemma {:induction false} OnesLost(s: Sys, t: Sys, w: nat, bad: set<Rid>) returns (u: Sys)
    requires Ongoing(s, t, w, bad) && t.writers[w].phase.One?
    ensures Ongoing(s, u, w, bad) && u.writers[w].phase.Idle?
    decreases t.writers[w].phase.to - Next(t.writers[w])
  {
    assert BatchFine(w, t.writers[w], bad);
    u := Follow(s, t, By(w, LoseOne), bad);
    if u.writers[w].phase.One? { u := OnesLost(s, u, w, bad); }
  }

  lemma OnesOver(s: Sys, t: Sys, w: nat, bad: set<Rid>) returns (u: Sys)
    requires Ongoing(s, t, w, bad)
    ensures Ongoing(s, u, w, bad) && !u.writers[w].phase.One? && !u.writers[w].phase.OneSent?
  {
    u := t;
    if u.writers[w].phase.OneSent? { u := Follow(s, u, By(w, LoseOne), bad); }
    if u.writers[w].phase.One? { u := OnesLost(s, u, w, bad); }
  }

  lemma LosesConnection(s: Sys, t: Sys, w: nat, bad: set<Rid>) returns (u: Sys)
    requires Ongoing(s, t, w, bad)
    ensures Ongoing(s, u, w, bad) && u.writers[w].phase.Down?
  {
    u := OnesOver(s, t, w, bad);
    match u.writers[w].phase
    case Idle => u := Follow(s, u, By(w, CheckFails), bad);
    case Ready(_) => u := Follow(s, u, By(w, SendFails), bad);
    case Sent(_) => u := Follow(s, u, By(w, Drop), bad);
    case Asking(_) => u := Follow(s, u, By(w, LockFails(false)), bad);
    case Down(_) =>
  }

  /** The session that holds the lock ends, and the server takes the lock. */
  lemma TakesLock(s: Sys, t: Sys, w: nat, bad: set<Rid>) returns (u: Sys)
    requires Ongoing(s, t, w, bad) && t.writers[w].phase.Down?
    ensures Ongoing(s, u, w, bad) && Connected(u, w) && (u.writers[w].phase.Idle? || u.writers[w].phase.Ready?)
  {
    u := t;
    if u.lock.Some? { u := Follow(s, u, Db(u.lock.value, Hangup), bad); }
    u := Follow(s, u, By(w, Connect), bad);
    u := Follow(s, u, By(w, Lock), bad);
  }

  lemma StoresBatch(s: Sys, t: Sys, w: nat, bad: set<Rid>) returns (u: Sys)
    requires Ongoing(s, t, w, bad) && Connected(t, w) && t.writers[w].phase.Ready?
    ensures Ongoing(s, u, w, bad) && Connected(u, w) && u.writers[w].phase.Idle?
    ensures Rid(w, Next(t.writers[w])) in u.table
  {
    var sid, from, to := t.writers[w].conn.value, Next(t.writers[w]), t.writers[w].phase.to;
    SessionOfConn(t, w, bad);
    assert WriterFine(t, w, bad);
    var a := Follow(s, t, By(w, Send), bad);
    assert a.sessions[sid].stmt == Running(from, to) && a.sessions[sid].owner == w;
    assert !RunsBad(a, sid, bad);
    var b := Follow(s, a, Db(sid, Store), bad);
    InsertHas(a.table, w, from, to, Rid(w, from));
    u := Follow(s, b, By(w, Hear), bad);
  }

  lemma StoresNext(s: Sys, t: Sys, w: nat, bad: set<Rid>) returns (u: Sys)
    requires Ongoing(s, t, w, bad) && Connected(t, w) && t.writers[w].phase.Idle?
    ensures Leads(s, u, bad) && Rid(w, Next(t.writers[w])) in u.table
  {
    assert WriterFine(t, w, bad);
    var a := Follow(s, t, By(w, Append), bad);
    var b := Follow(s, a, By(w, Take(1)), bad);
    u := StoresBatch(s, b, w, bad);
  }

  lemma ComesBack(s: Sys, w: nat, bad: set<Rid>) returns (u: Sys)
    requires Inv(s, bad) && Batches(s, bad) && Active(s, w) && GoodFrom(bad, w, Next(s.writers[w]))
    ensures Leads(s, u, bad) && !NoNew(s.table, u.table, w)
  {
    Stay(s, bad);
    var a := LosesConnection(s, s, w, bad);
    var b := TakesLock(s, a, w, bad);
    if b.writers[w].phase.Ready? { b := StoresBatch(s, b, w, bad); }
    assert WriterFine(b, w, bad);
    LeadsFine(s, b, bad);
    assert Rid(w, Next(b.writers[w])) !in b.table;
    u := StoresNext(s, b, w, bad);
  }

  /** Another server's session holds the lock. The server can still come to store further records if and
      only if it has neither stopped itself nor died: until its time to retry is up, losing the lock does
      not end its writing for good. */
  lemma FencedWritesIff(s: Sys, w: nat, bad: set<Rid>)
    requires Reachable(s, bad) && w in s.writers && GoodFrom(bad, w, Next(s.writers[w]))
    requires s.lock.Some? && s.lock.value in s.sessions && s.sessions[s.lock.value].owner != w
    ensures (exists t :: Leads(s, t, bad) && !NoNew(s.table, t.table, w)) <==> Active(s, w)
  {
    ReachableFine(s, bad);
    if Active(s, w) {
      var t := ComesBack(s, w, bad);
    } else {
      HeldByAnother(s, w, bad);
      forall t | Leads(s, t, bad)
        ensures NoNew(s.table, t.table, w)
      {
        var run, events :| Path(run, events, bad) && run[0] == s && run[|run| - 1] == t;
        OverAlong(run, events, bad, w, |run| - 1);
        FencedAlong(run, events, bad, w, 0, |run| - 1);
      }
    }
  }

  // ---- two runs the design did not mean to allow ----

  lemma Onward(s: Sys, e: Event, t: Sys, bad: set<Rid>)
    requires Reachable(s, bad) && Move(s, e, t, bad)
    ensures Reachable(t, bad)
  {
    Extend(Init(), s, e, t, bad);
  }

  /** One server, with its session and the lock. */
  function Lone(table: seq<Rid>, stmt: Stmt, wr: Writer): Sys {
    Sys(table, map[0 := Session(0, stmt)], Some(0), 1, map[0 := wr])
  }

  lemma Opened(bad: set<Rid>)
    ensures Reachable(Lone([], Free, Writer(0, [], 0, Idle, Some(0), false)), bad)
  {
    var s1 := Sys([], map[], None, 0, map[0 := Writer(0, [], 0, Down(0), None, false)]);
    var s2 := Sys([], map[0 := Session(0, Free)], None, 1, map[0 := Writer(0, [], 0, Asking(0), Some(0), false)]);
    Stay(Init(), bad);
    Onward(Init(), By(0, Open), s1, bad);
    Onward(s1, By(0, Connect), s2, bad);
    Onward(s2, By(0, Lock), Lone([], Free, Writer(0, [], 0, Idle, Some(0), false)), bad);
  }

  lemma TwoTaken(bad: set<Rid>)
    ensures Reachable(Lone([], Free, Writer(2, [], 0, Ready(2), Some(0), false)), bad)
  {
    var s0 := Lone([], Free, Writer(0, [], 0, Idle, Some(0), false));
    var s1 := Lone([], Free, Writer(1, [], 0, Idle, Some(0), false));
    var s2 := Lone([], Free, Writer(2, [], 0, Idle, Some(0), false));
    Opened(bad);
    Onward(s0, By(0, Append), s1, bad);
    Onward(s1, By(0, Append), s2, bad);
    Onward(s2, By(0, Take(2)), Lone([], Free, Writer(2, [], 0, Ready(2), Some(0), false)), bad);
  }

  lemma BatchRejected(bad: set<Rid>)
    requires bad == {Rid(0, 1)}
    ensures Reachable(Lone([], Free, Writer(2, [], 0, One(2), Some(0), false)), bad)
  {
    var s1 := Lone([], Free, Writer(2, [], 0, Ready(2), Some(0), false));
    var s2 := Lone([], Running(0, 2), Writer(2, [], 0, Sent(2), Some(0), false));
    var s3 := Lone([], Replied(BadData), Writer(2, [], 0, Sent(2), Some(0), false));
    TwoTaken(bad);
    Onward(s1, By(0, Send), s2, bad);
    assert RunsBad(s2, 0, bad);
    Onward(s2, Db(0, Reject), s3, bad);
    Onward(s3, By(0, Hear), Lone([], Free, Writer(2, [], 0, One(2), Some(0), false)), bad);
  }

  lemma FirstStored(bad: set<Rid>)
    requires bad == {Rid(0, 1)}
    ensures Reachable(Lone([Rid(0, 0)], Replied(Stored), Writer(2, [], 0, OneSent(2), Some(0), false)), bad)
  {
    var s4 := Lone([], Free, Writer(2, [], 0, One(2), Some(0), false));
    var s5 := Lone([], Running(0, 1), Writer(2, [], 0, OneSent(2), Some(0), false));
    BatchRejected(bad);
    Onward(s4, By(0, SendOne), s5, bad);
    assert !RunsBad(s5, 0, bad);
    InsertFirst(Rid(0, 0));
    Onward(s5, Db(0, Store), Lone([Rid(0, 0)], Replied(Stored), Writer(2, [], 0, OneSent(2), Some(0), false)), bad);
  }

  /** A record stored one by one whose answer is lost is refused, yet it is in the table, and the writer
      goes on as if nothing had happened. */
  lemma RefusedYetStored()
    ensures Reachable(Lone([Rid(0, 0)], Replied(Stored), Writer(2, [Unknown], 0, One(2), None, false)), {Rid(0, 1)})
  {
    var bad := {Rid(0, 1)};
    var s6 := Lone([Rid(0, 0)], Replied(Stored), Writer(2, [], 0, OneSent(2), Some(0), false));
    FirstStored(bad);
    assert s6.writers[0].answers + [Unknown] == [Unknown];
    Onward(s6, By(0, LoseOne), Lone([Rid(0, 0)], Replied(Stored), Writer(2, [Unknown], 0, One(2), None, false)), bad);
  }

  /** Two servers: the first waits with no session of its own, the second has the lock. */
  function Pair(table: seq<Rid>, stmt: Stmt, second: Writer): Sys {
    Sys(table, map[1 := Session(1, stmt)], Some(1), 2, map[0 := Writer(0, [], 0, Idle, Some(0), false), 1 := second])
  }

  lemma SecondTakesOver()
    ensures Reachable(Pair([], Free, Writer(0, [], 0, Idle, Some(1), false)), {})
  {
    var first := Writer(0, [], 0, Idle, Some(0), false);
    var s1 := Sys([], map[], None, 1, map[0 := first]);
    var s2 := Sys([], map[], None, 1, map[0 := first, 1 := Writer(0, [], 0, Down(0), None, false)]);
    var s3 := Sys([], map[1 := Session(1, Free)], None, 2, map[0 := first, 1 := Writer(0, [], 0, Asking(0), Some(1), false)]);
    Opened({});
    Onward(Lone([], Free, first), Db(0, Hangup), s1, {});
    Onward(s1, By(1, Open), s2, {});
    Onward(s2, By(1, Connect), s3, {});
    Onward(s3, By(1, Lock), Pair([], Free, Writer(0, [], 0, Idle, Some(1), false)), {});
  }

  lemma SecondSends()
    ensures Reachable(Pair([], Running(0, 1), Writer(1, [], 0, Sent(1), Some(1), false)), {})
  {
    var s1 := Pair([], Free, Writer(1, [], 0, Idle, Some(1), false));
    var s2 := Pair([], Free, Writer(1, [], 0, Ready(1), Some(1), false));
    SecondTakesOver();
    Onward(Pair([], Free, Writer(0, [], 0, Idle, Some(1), false)), By(1, Append), s1, {});
    Onward(s1, By(1, Take(1)), s2, {});
    Onward(s2, By(1, Send), Pair([], Running(0, 1), Writer(1, [], 0, Sent(1), Some(1), false)), {});
  }

  lemma SecondWrites()
    ensures Reachable(Pair([Rid(1, 0)], Replied(Stored), Writer(1, [], 0, Sent(1), Some(1), false)), {})
  {
    var s3 := Pair([], Running(0, 1), Writer(1, [], 0, Sent(1), Some(1), false));
    SecondSends();
    assert !RunsBad(s3, 1, {});
    InsertFirst(Rid(1, 0));
    Onward(s3, Db(1, Store), Pair([Rid(1, 0)], Replied(Stored), Writer(1, [], 0, Sent(1), Some(1), false)), {});
  }

  lemma InsertFirst(r: Rid)
    ensures Insert([], r.server, r.n, r.n + 1) == [r]
  {
    assert Insert([], r.server, r.n, r.n) == [];
  }

  lemma SecondGone()
    ensures Reachable(Sys([Rid(1, 0)], map[], None, 2, map[0 := Writer(0, [], 0, Idle, Some(0), false),
                                                          1 := Writer(1, [], 0, Sent(1), Some(1), false)]), {})
  {
    var second := Writer(1, [], 0, Sent(1), Some(1), false);
    var s0 := Pair([Rid(1, 0)], Replied(Stored), second);
    SecondWrites();
    assert s0.sessions - {1} == map[];
    Onward(s0, Db(1, Hangup), Sys([Rid(1, 0)], map[], None, 2, map[0 := Writer(0, [], 0, Idle, Some(0), false), 1 := second]), {});
  }

  /** Server 0 has the lock again, server 1 is gone after its first record. */
  function Back(table: seq<Rid>, stmt: Stmt, first: Writer): Sys {
    Sys(table, map[2 := Session(0, stmt)], Some(2), 3, map[0 := first, 1 := Writer(1, [], 0, Sent(1), Some(1), false)])
  }

  lemma FirstReturns()
    ensures Reachable(Back([Rid(1, 0)], Free, Writer(0, [], 0, Idle, Some(2), false)), {})
  {
    var second := Writer(1, [], 0, Sent(1), Some(1), false);
    var s1 := Sys([Rid(1, 0)], map[], None, 2, map[0 := Writer(0, [], 0, Idle, Some(0), false), 1 := second]);
    var s2 := Sys([Rid(1, 0)], map[], None, 2, map[0 := Writer(0, [], 0, Down(0), None, false), 1 := second]);
    var s3 := Sys([Rid(1, 0)], map[2 := Session(0, Free)], None, 3, map[0 := Writer(0, [], 0, Asking(0), Some(2), false), 1 := second]);
    SecondGone();
    Onward(s1, By(0, CheckFails), s2, {});
    Onward(s2, By(0, Connect), s3, {});
    Onward(s3, By(0, Lock), Back([Rid(1, 0)], Free, Writer(0, [], 0, Idle, Some(2), false)), {});
  }

  lemma FirstSends()
    ensures Reachable(Back([Rid(1, 0)], Running(0, 1), Writer(1, [], 0, Sent(1), Some(2), false)), {})
  {
    var s1 := Back([Rid(1, 0)], Free, Writer(0, [], 0, Idle, Some(2), false));
    var s2 := Back([Rid(1, 0)], Free, Writer(1, [], 0, Idle, Some(2), false));
    var s3 := Back([Rid(1, 0)], Free, Writer(1, [], 0, Ready(1), Some(2), false));
    FirstReturns();
    Onward(s1, By(0, Append), s2, {});
    Onward(s2, By(0, Take(1)), s3, {});
    Onward(s3, By(0, Send), Back([Rid(1, 0)], Running(0, 1), Writer(1, [], 0, Sent(1), Some(2), false)), {});
  }

  lemma InsertSecond(a: Rid, r: Rid)
    requires a != r
    ensures Insert([a], r.server, r.n, r.n + 1) == [a, r]
  {
    assert Insert([a], r.server, r.n, r.n) == [a];
  }

  /** A server that lost the lock to another one gets it back when that one is gone, as long as its own
      retry time lasts, and stores its record after one it has never seen. */
  lemma FencedServerReturns()
    ensures Reachable(Back([Rid(1, 0), Rid(0, 0)], Replied(Stored), Writer(1, [], 0, Sent(1), Some(2), false)), {})
  {
    var s4 := Back([Rid(1, 0)], Running(0, 1), Writer(1, [], 0, Sent(1), Some(2), false));
    FirstSends();
    assert !RunsBad(s4, 2, {});
    InsertSecond(Rid(1, 0), Rid(0, 0));
    Onward(s4, Db(2, Store), Back([Rid(1, 0), Rid(0, 0)], Replied(Stored), Writer(1, [], 0, Sent(1), Some(2), false)), {});
  }
}

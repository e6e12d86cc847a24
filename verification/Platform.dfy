/** The whole platform over time: concurrent operations that check, make a record durable and then
    apply it; failing writes; crashes; and the restore that replays the log.

    Each operation holds the locks of what it will change (the trading lock and the ledger locks of its
    accounts, or the fund lock) from its checks until it has applied its record.

    A failed write stops the file's log for good, and the database's when its writer gives up. The
    database's log also goes on after refusing a record that it has stored, when another record of the
    batch cannot be stored (PgLimits.StoredYetRefusedIff): that is Slip below. */
module Platform {
  import opened Numeric
  import opened Options
  import L = Ledger
  import T = Trading
  import B = FundBook
  import F = Formation

  // ---- state, and the small steps that change it ----

  datatype Sys = Sys(accounts: L.Accounts, book: B.Book, seen: map<string, map<string, T.Trade>>, users: set<string>)

  /** One indivisible change. */
  datatype Micro = Led(op: L.Op) | Funds(ev: B.Event) | Mark(trade: T.Trade) | Join(id: string)

  /** What a lock protects. */
  datatype Res = Account(id: string) | Book | Trades(account: string)

  function SeenBy(s: Sys, account: string): map<string, T.Trade> {
    if account in s.seen then s.seen[account] else map[]
  }

  function Foot(m: Micro): set<Res> {
    match m
    case Led(op) => set id | id in L.Foot(op) :: Account(id)
    case Funds(_) => {Book}
    case Mark(t) => {Trades(t.account)}
    case Join(id) => {Account(id)}
  }

  function Do(m: Micro, s: Sys): Sys {
    match m
    case Led(op) => s.(accounts := L.Apply(op, s.accounts))
    case Funds(ev) => s.(book := B.Step(s.book, ev).0)
    case Mark(t) => s.(seen := s.seen[t.account := SeenBy(s, t.account)[t.clientId := t]])
    case Join(id) => s.(users := s.users + {id})
  }

  /** The live checks: balances suffice, the book accepts the event, the trade id is new. */
  predicate Ready(m: Micro, s: Sys) {
    match m
    case Led(op) => L.Allowed(op, s.accounts)
    case Funds(ev) => B.Step(s.book, ev).1
    case Mark(t) => t.clientId !in SeenBy(s, t.account)
    case Join(_) => true
  }

  function FootAll(ms: seq<Micro>): set<Res> {
    if ms == [] then {} else Foot(ms[0]) + FootAll(ms[1..])
  }

  function DoAll(ms: seq<Micro>, s: Sys): Sys {
    if ms == [] then s else DoAll(ms[1..], Do(ms[0], s))
  }

  predicate ReadyAll(ms: seq<Micro>, s: Sys) {
    ms == [] || (Ready(ms[0], s) && ReadyAll(ms[1..], Do(ms[0], s)))
  }

  // ---- disjoint steps commute ----

  predicate SameAt(s: Sys, t: Sys, r: Res) {
    match r
    case Account(id) => L.SameAt(s.accounts, t.accounts, id) && (id in s.users <==> id in t.users)
    case Book => s.book == t.book
    case Trades(a) => (a in s.seen <==> a in t.seen) && (a in s.seen ==> s.seen[a] == t.seen[a])
  }

  ghost predicate SameOn(s: Sys, t: Sys, rs: set<Res>) {
    forall r :: r in rs ==> SameAt(s, t, r)
  }

  lemma SameEverywhere(s: Sys, t: Sys)
    requires forall r :: SameAt(s, t, r)
    ensures s == t
  {
    assert SameAt(s, t, Book);
    forall id
      ensures (id in s.accounts <==> id in t.accounts) && (id in s.accounts ==> s.accounts[id] == t.accounts[id])
      ensures id in s.users <==> id in t.users
    {
      assert SameAt(s, t, Account(id));
    }
    assert s.accounts == t.accounts && s.users == t.users;
    forall a
      ensures (a in s.seen <==> a in t.seen) && (a in s.seen ==> s.seen[a] == t.seen[a])
    {
      assert SameAt(s, t, Trades(a));
    }
    assert s.seen == t.seen;
  }

  lemma DoFrame(m: Micro, s: Sys, r: Res)
    requires r !in Foot(m)
    ensures SameAt(s, Do(m, s), r)
  {
    if m.Led? && r.Account? {
      assert r.id !in L.Foot(m.op);
      L.ApplyFrame(m.op, s.accounts, r.id);
    }
  }

  lemma DoLocal(m: Micro, s: Sys, t: Sys)
    requires SameOn(s, t, Foot(m))
    ensures Ready(m, s) <==> Ready(m, t)
    ensures SameOn(Do(m, s), Do(m, t), Foot(m))
  {
    match m
    case Led(op) =>
      forall id | id in L.Foot(op)
        ensures L.SameAt(s.accounts, t.accounts, id)
      {
        assert SameAt(s, t, Account(id));
      }
      L.ApplyLocal(op, s.accounts, t.accounts);
      forall r | r in Foot(m)
        ensures SameAt(Do(m, s), Do(m, t), r)
      {
        assert SameAt(s, t, r) && L.SameAt(Do(m, s).accounts, Do(m, t).accounts, r.id);
      }
    case Funds(_) => assert SameAt(s, t, Book);
    case Mark(trade) => assert SameAt(s, t, Trades(trade.account));
    case Join(id) => assert SameAt(s, t, Account(id));
  }

  lemma Commute(a: Micro, b: Micro, s: Sys)
    requires Foot(a) !! Foot(b)
    ensures Do(a, Do(b, s)) == Do(b, Do(a, s))
  {
    var ab, ba := Do(a, Do(b, s)), Do(b, Do(a, s));
    forall r
      ensures SameAt(ab, ba, r)
    {
      CommuteAt(a, b, s, r);
    }
    SameEverywhere(ab, ba);
  }

  lemma CommuteAt(a: Micro, b: Micro, s: Sys, r: Res)
    requires Foot(a) !! Foot(b)
    ensures SameAt(Do(a, Do(b, s)), Do(b, Do(a, s)), r)
  {
    if r in Foot(a) {
      CommuteOn(a, b, s, r);
    } else if r in Foot(b) {
      CommuteOn(b, a, s, r);
    } else {
      DoFrame(a, Do(b, s), r);
      DoFrame(b, s, r);
      DoFrame(b, Do(a, s), r);
      DoFrame(a, s, r);
    }
  }

  lemma CommuteOn(a: Micro, b: Micro, s: Sys, r: Res)
    requires Foot(a) !! Foot(b) && r in Foot(a)
    ensures SameAt(Do(a, Do(b, s)), Do(b, Do(a, s)), r)
  {
    forall q | q in Foot(a)
      ensures SameAt(Do(b, s), s, q)
    {
      DoFrame(b, s, q);
    }
    DoLocal(a, Do(b, s), s);
    assert SameAt(Do(a, Do(b, s)), Do(a, s), r);
    DoFrame(b, Do(a, s), r);
  }

  lemma {:induction false} CommuteAll(a: Micro, ms: seq<Micro>, s: Sys)
    requires Foot(a) !! FootAll(ms)
    ensures Do(a, DoAll(ms, s)) == DoAll(ms, Do(a, s))
  {
    if ms != [] {
      CommuteAll(a, ms[1..], Do(ms[0], s));
      Commute(a, ms[0], s);
    }
  }

  lemma {:induction false} DoAllFrame(ms: seq<Micro>, s: Sys, r: Res)
    requires r !in FootAll(ms)
    ensures SameAt(s, DoAll(ms, s), r)
  {
    if ms != [] {
      DoFrame(ms[0], s, r);
      DoAllFrame(ms[1..], Do(ms[0], s), r);
    }
  }

  lemma {:induction false} ReadyLocal(ms: seq<Micro>, s: Sys, t: Sys)
    requires SameOn(s, t, FootAll(ms))
    ensures ReadyAll(ms, s) <==> ReadyAll(ms, t)
  {
    if ms != [] {
      DoLocal(ms[0], s, t);
      var s', t' := Do(ms[0], s), Do(ms[0], t);
      forall r | r in FootAll(ms[1..])
        ensures SameAt(s', t', r)
      {
        if r !in Foot(ms[0]) {
          DoFrame(ms[0], s, r);
          DoFrame(ms[0], t, r);
          assert SameAt(s, t, r);
        }
      }
      ReadyLocal(ms[1..], s', t');
    }
  }

  // ---- records and what they do ----

  datatype Rec =
    | Register(id: string)
    | Traded(trade: T.Trade)
    | Granted(id: string, symbol: string, qty: int, price: int)
    | TookBack(id: string, symbol: string, qty: int)
    | CashSet(id: string, delta: int)
    | FundEvent(ev: B.Event)

  /** The rulebook's amounts. */
  datatype Rules = Rules(start: int, seed: int, launch: real)

  function OpenFunds(fs: seq<B.Formed>, rules: Rules): seq<Micro> {
    seq(|fs|, i requires 0 <= i < |fs| => Led(L.Open(fs[i].account, rules.seed)))
  }

  function CloseFunds(b: B.Book, order: seq<string>): seq<Micro> {
    if order == [] then []
    else CloseFunds(b, order[..|order| - 1])
         + (if order[|order| - 1] in b.funds then [Led(L.Remove(b.funds[order[|order| - 1]].formed.account))] else [])
  }

  function Ledgers(ops: seq<L.Op>): seq<Micro> { seq(|ops|, i requires 0 <= i < |ops| => Led(ops[i])) }

  /** The steps a record stands for, in the order the live operation and the replay take them. A fund
      event names its fund by id, so its steps depend on the book. */
  function Effects(rec: Rec, b: B.Book, rules: Rules): seq<Micro> {
    match rec
    case Register(id) => [Join(id), Led(L.Open(id, rules.start))]
    case Traded(t) => [Led(T.LedgerOp(t)), Mark(t)]
    case Granted(id, symbol, qty, price) => [Led(L.Grant(id, symbol, qty, price))]
    case TookBack(id, symbol, qty) => [Led(L.Revoke(id, symbol, qty))]
    case CashSet(id, delta) => [Led(L.Cash(id, delta))]
    case FundEvent(ev) => FundEffects(ev, b, rules)
  }

  function FundEffects(ev: B.Event, b: B.Book, rules: Rules): seq<Micro> {
    match ev
    case Alloc(fund, investor, _, amount, _) =>
      if fund in b.funds then [Led(L.Move(investor, b.funds[fund].formed.account, amount)), Funds(ev)] else [Funds(ev)]
    case Redeem(fund, investor, _, amount, _) =>
      if fund in b.funds then [Led(L.Move(b.funds[fund].formed.account, investor, amount)), Funds(ev)] else [Funds(ev)]
    case Forming(fs, moves, _) => [Funds(ev)] + OpenFunds(fs, rules) + Ledgers(F.AllOps(moves))
    case Dissolve(back) => Ledgers(F.AllOps(back)) + [Funds(ev)] + CloseFunds(b, b.order)
    case _ => [Funds(ev)]
  }

  /** A log entry: a record, or a reset of the event, which voids everything but the accounts; with
      `everything` those too. */
  datatype Entry = Kept(rec: Rec) | Reset(everything: bool)

  function Fresh(rules: Rules): Sys { Sys(map[], B.Empty(rules.launch), map[], {}) }

  function AfterReset(s: Sys, everything: bool, rules: Rules): Sys {
    var users := if everything then {} else s.users;
    Sys(map id | id in users :: L.Acct(rules.start, map[]), B.Empty(s.book.launch), map[], users)
  }

  function ReplayOne(e: Entry, s: Sys, rules: Rules): Sys {
    match e
    case Kept(rec) => DoAll(Effects(rec, s.book, rules), s)
    case Reset(everything) => AfterReset(s, everything, rules)
  }

  /** The restore: replay every record, oldest first. */
  function Replay(log: seq<Entry>, rules: Rules): Sys {
    if log == [] then Fresh(rules) else ReplayOne(log[|log| - 1], Replay(log[..|log| - 1], rules), rules)
  }

  /** Every record finds what it needs, so the restore never stops with an error, overdraws an account
      or repeats a trade. */
  predicate Sound(log: seq<Entry>, rules: Rules) {
    log == [] ||
    (var past := log[..|log| - 1];
     var s := Replay(past, rules);
     Sound(past, rules)
     && (log[|log| - 1].Kept? ==> ReadyAll(Effects(log[|log| - 1].rec, s.book, rules), s)))
  }

  // ---- the running system ----

  /** An operation that has checked, holds its locks and has written its record, but whose write failed:
      nobody knows whether the record is on disk. */
  datatype Lost = Lost(rec: Rec, steps: seq<Micro>)

  datatype Machine = Machine(
    live: Sys,
    pending: seq<seq<Micro>>,  // committed operations and the steps each has still to take
    known: seq<Entry>,         // the records of those operations and of what was restored
    log: seq<Entry>,           // the durable records
    lost: seq<Lost>,           // records written after them whose write failed for good
    limbo: Option<bool>,       // a reset whose write failed for good
    broken: bool)              // the log refuses every further write

  function Held(pending: seq<seq<Micro>>): set<Res> {
    if pending == [] then {} else FootAll(pending[0]) + Held(pending[1..])
  }

  function Steps(lost: seq<Lost>): seq<seq<Micro>> { seq(|lost|, i requires 0 <= i < |lost| => lost[i].steps) }

  function Records(lost: seq<Lost>): seq<Entry> { seq(|lost|, i requires 0 <= i < |lost| => Kept(lost[i].rec)) }

  /** Checks passed on the live state, with locks no other operation holds. */
  ghost predicate MayCommit(m: Machine, rec: Rec, rules: Rules) {
    var steps := Effects(rec, m.live.book, rules);
    && ReadyAll(steps, m.live)
    && FootAll(steps) !! Held(m.pending + Steps(m.lost))
  }

  datatype Event =
    | Commit(rec: Rec)      // the record becomes durable
    | Take(who: nat)        // a committed operation takes its next step
    | Refuse                // an operation is refused, or its write fails with nothing stored
    | Lose(rec: Rec)        // its write fails, the log stops, and the record may or may not be on disk
    | Slip(rec: Rec)        // its record is stored, yet it is refused and the log goes on
    | ResetEvent(all: bool) // the organiser starts the event over; nothing else is running
    | ResetSlips(all: bool) // the reset's record is stored, yet it is refused and the log goes on
    | ResetLost(all: bool)  // its write fails, the log stops, and the record may or may not be on disk
    | Crash(kept: nat)      // the process dies; that many of the lost records turn out to be on disk

  ghost predicate Next(m: Machine, e: Event, n: Machine, rules: Rules) {
    match e
    case Commit(rec) =>
      && !m.broken && MayCommit(m, rec, rules)
      && n == m.(log := m.log + [Kept(rec)], known := m.known + [Kept(rec)],
                 pending := m.pending + [Effects(rec, m.live.book, rules)])
    case Take(who) =>
      && who < |m.pending| && m.pending[who] != []
      && n == m.(live := Do(m.pending[who][0], m.live), pending := m.pending[who := m.pending[who][1..]])
    case Refuse => n == m
    case Lose(rec) =>
      && m.limbo.None? && MayCommit(m, rec, rules)
      && n == m.(lost := m.lost + [Lost(rec, Effects(rec, m.live.book, rules))], broken := true)
    case Slip(rec) => !m.broken && MayCommit(m, rec, rules) && n == m.(log := m.log + [Kept(rec)])
    case ResetEvent(all) =>
      && MayReset(m)
      && n == m.(live := AfterReset(m.live, all, rules), log := m.log + [Reset(all)], known := m.known + [Reset(all)])
    case ResetSlips(all) => MayReset(m) && n == m.(log := m.log + [Reset(all)])
    case ResetLost(all) => MayReset(m) && n == m.(limbo := Some(all), broken := true)
    case Crash(kept) =>
      && kept <= (if m.limbo.Some? then 1 else |m.lost|)
      && var log := m.log + Recovered(m, kept);
         n == Machine(Replay(log, rules), [], log, log, [], None, false)
  }

  predicate MayReset(m: Machine) { !m.broken && m.lost == [] && AtRest(m) }

  /** What turns out to be on disk of what was written and failed. */
  function Recovered(m: Machine, kept: nat): seq<Entry>
    requires kept <= if m.limbo.Some? then 1 else |m.lost|
  {
    if m.limbo.None? then Records(m.lost[..kept]) else if kept == 0 then [] else [Reset(m.limbo.value)]
  }

  /** No operation is between its commit and its last step. */
  predicate AtRest(m: Machine) { forall i :: 0 <= i < |m.pending| ==> m.pending[i] == [] }

  function DoEach(pending: seq<seq<Micro>>, s: Sys): Sys {
    if pending == [] then s else DoEach(pending[1..], DoAll(pending[0], s))
  }

  predicate Apart(pending: seq<seq<Micro>>) {
    forall i, j :: 0 <= i < j < |pending| ==> FootAll(pending[i]) !! FootAll(pending[j])
  }

  predicate AllReady(pending: seq<seq<Micro>>, s: Sys) {
    forall i :: 0 <= i < |pending| ==> ReadyAll(pending[i], s)
  }

  /** Restoring from the known records gives the live state once every committed operation has finished. */
  ghost predicate Inv(m: Machine, rules: Rules) {
    && Replay(m.known, rules) == DoEach(m.pending, m.live)
    && Apart(m.pending + Steps(m.lost))
    && AllReady(m.pending + Steps(m.lost), m.live)
    && (forall i :: 0 <= i < |m.lost| ==> m.lost[i].steps == Effects(m.lost[i].rec, m.live.book, rules))
    && (m.lost != [] ==> m.broken)
    && (m.limbo.Some? ==> m.lost == [] && m.broken && AtRest(m))
  }

  /** No cash or share count is negative, neither live nor at any point of the restore. */
  ghost predicate Safe(m: Machine, rules: Rules) { Sound(m.known, rules) && L.Sane(m.live.accounts) }

  // ---- every step keeps the invariant ----

  lemma {:induction false} HeldHas(p: seq<seq<Micro>>, i: nat, r: Res)
    requires i < |p| && r in FootAll(p[i])
    ensures r in Held(p)
  {
    if i > 0 { HeldHas(p[1..], i - 1, r); }
  }

  lemma {:induction false} DoEachFrame(p: seq<seq<Micro>>, s: Sys, r: Res)
    requires r !in Held(p)
    ensures SameAt(s, DoEach(p, s), r)
  {
    if p != [] {
      DoAllFrame(p[0], s, r);
      DoEachFrame(p[1..], DoAll(p[0], s), r);
    }
  }

  lemma {:induction false} DoEachPlus(p: seq<seq<Micro>>, last: seq<Micro>, s: Sys)
    ensures DoEach(p + [last], s) == DoAll(last, DoEach(p, s))
  {
    if p != [] {
      DoEachPlus(p[1..], last, DoAll(p[0], s));
      assert (p + [last])[1..] == p[1..] + [last];
    }
  }

  /** An operation may take its next step before older ones have finished: the outcome is the same. */
  lemma {:induction false} DoEachTake(p: seq<seq<Micro>>, who: nat, s: Sys)
    requires who < |p| && p[who] != []
    requires forall j :: 0 <= j < who ==> FootAll(p[j]) !! Foot(p[who][0])
    ensures DoEach(p[who := p[who][1..]], Do(p[who][0], s)) == DoEach(p, s)
  {
    var head, tail := p[who][0], p[who][1..];
    if who == 0 {
      assert p[0 := tail][1..] == p[1..];
    } else {
      CommuteAll(head, p[0], s);
      forall j | 0 <= j < who - 1
        ensures FootAll(p[1..][j]) !! Foot(p[1..][who - 1][0])
      {
        assert p[1..][j] == p[j + 1];
      }
      DoEachTake(p[1..], who - 1, DoAll(p[0], s));
      assert p[who := tail][1..] == p[1..][who - 1 := tail];
    }
  }

  lemma {:induction false} LedgersFoot(ms: seq<Micro>, i: nat)
    requires i < |ms|
    ensures Foot(ms[i]) <= FootAll(ms)
  {
    if i > 0 { LedgersFoot(ms[1..], i - 1); }
  }

  /** The steps of a fund event depend on the book and lock it; no other record's do. */
  lemma EffectsLockBook(rec: Rec, b: B.Book, c: B.Book, rules: Rules)
    ensures rec.FundEvent? ==> Book in FootAll(Effects(rec, b, rules))
    ensures !rec.FundEvent? ==> Effects(rec, b, rules) == Effects(rec, c, rules)
  {
    if rec.FundEvent? {
      var ms := Effects(rec, b, rules);
      var i := if rec.ev.Forming? then 0
               else if rec.ev.Dissolve? then |F.AllOps(rec.ev.back)|
               else if rec.ev.Alloc? || rec.ev.Redeem? then (if rec.ev.fund in b.funds then 1 else 0) else 0;
      assert ms[i] == Funds(rec.ev);
      LedgersFoot(ms, i);
    }
  }

  /** A record checked on the live state, with locks of its own, means the same at the end of the log. */
  lemma Extend(p: seq<seq<Micro>>, live: Sys, rec: Rec, rules: Rules)
    requires ReadyAll(Effects(rec, live.book, rules), live)
    requires FootAll(Effects(rec, live.book, rules)) !! Held(p)
    ensures var (steps, s) := (Effects(rec, live.book, rules), DoEach(p, live));
            && Effects(rec, s.book, rules) == steps && ReadyAll(steps, s)
            && DoAll(steps, s) == DoEach(p + [steps], live)
  {
    var steps, s := Effects(rec, live.book, rules), DoEach(p, live);
    forall r | r in FootAll(steps)
      ensures SameAt(live, s, r)
    {
      DoEachFrame(p, live, r);
    }
    EffectsLockBook(rec, live.book, s.book, rules);
    assert rec.FundEvent? ==> SameAt(live, s, Book);
    ReadyLocal(steps, live, s);
    DoEachPlus(p, steps, live);
  }

  lemma SoundPlus(log: seq<Entry>, rec: Rec, rules: Rules)
    requires ReadyAll(Effects(rec, Replay(log, rules).book, rules), Replay(log, rules))
    ensures Sound(log, rules) ==> Sound(log + [Kept(rec)], rules)
    ensures Replay(log + [Kept(rec)], rules)
         == DoAll(Effects(rec, Replay(log, rules).book, rules), Replay(log, rules))
  {
    assert (log + [Kept(rec)])[..|log|] == log;
  }

  lemma ExtendLog(log: seq<Entry>, p: seq<seq<Micro>>, live: Sys, rec: Rec, steps: seq<Micro>, rules: Rules)
    requires Replay(log, rules) == DoEach(p, live)
    requires steps == Effects(rec, live.book, rules) && ReadyAll(steps, live) && FootAll(steps) !! Held(p)
    ensures Sound(log, rules) ==> Sound(log + [Kept(rec)], rules)
    ensures Replay(log + [Kept(rec)], rules) == DoEach(p + [steps], live)
  {
    Extend(p, live, rec, rules);
    SoundPlus(log, rec, rules);
  }

  lemma {:induction false} DoAllSane(ms: seq<Micro>, s: Sys)
    requires ReadyAll(ms, s) && L.Sane(s.accounts)
    ensures L.Sane(DoAll(ms, s).accounts)
  {
    if ms != [] {
      if ms[0].Led? { L.AllowedStaysSane(ms[0].op, s.accounts); }
      DoAllSane(ms[1..], Do(ms[0], s));
    }
  }

  lemma {:induction false} SoundIsSane(log: seq<Entry>, rules: Rules)
    requires Sound(log, rules) && rules.start >= 0
    ensures L.Sane(Replay(log, rules).accounts)
  {
    if log != [] {
      var past := log[..|log| - 1];
      SoundIsSane(past, rules);
      if log[|log| - 1].Kept? {
        DoAllSane(Effects(log[|log| - 1].rec, Replay(past, rules).book, rules), Replay(past, rules));
      }
    }
  }

  lemma CommitKeeps(m: Machine, rec: Rec, n: Machine, rules: Rules)
    requires Inv(m, rules) && Next(m, Commit(rec), n, rules)
    ensures Inv(n, rules) && (Safe(m, rules) ==> Safe(n, rules))
  {
    var steps := Effects(rec, m.live.book, rules);
    assert m.lost == [] && m.pending + Steps(m.lost) == m.pending && n.pending + Steps(n.lost) == n.pending;
    ExtendLog(m.known, m.pending, m.live, rec, steps, rules);
    ApartPlus(m.pending, steps);
  }

  lemma ApartPlus(p: seq<seq<Micro>>, steps: seq<Micro>)
    requires Apart(p) && FootAll(steps) !! Held(p)
    ensures Apart(p + [steps])
  {
    var q := p + [steps];
    forall i, j | 0 <= i < j < |q|
      ensures FootAll(q[i]) !! FootAll(q[j])
    {
      if j == |p| {
        forall r | r in FootAll(p[i])
          ensures r in Held(p)
        {
          HeldHas(p, i, r);
        }
      }
    }
  }

  lemma LoseKeeps(m: Machine, rec: Rec, n: Machine, rules: Rules)
    requires Inv(m, rules) && Next(m, Lose(rec), n, rules)
    ensures Inv(n, rules)
  {
    var steps := Effects(rec, m.live.book, rules);
    var p := m.pending + Steps(m.lost);
    assert n.pending + Steps(n.lost) == p + [steps];
    ApartPlus(p, steps);
  }

  lemma TakeReady(head: Micro, ms: seq<Micro>, s: Sys)
    requires Foot(head) !! FootAll(ms) && ReadyAll(ms, s)
    ensures ReadyAll(ms, Do(head, s))
  {
    forall r | r in FootAll(ms)
      ensures SameAt(s, Do(head, s), r)
    {
      DoFrame(head, s, r);
    }
    ReadyLocal(ms, s, Do(head, s));
  }

  lemma TakeApart(p: seq<seq<Micro>>, who: nat, s: Sys)
    requires Apart(p) && AllReady(p, s) && who < |p| && p[who] != []
    ensures Apart(p[who := p[who][1..]])
    ensures AllReady(p[who := p[who][1..]], Do(p[who][0], s))
  {
    var head, tail := p[who][0], p[who][1..];
    var q := p[who := tail];
    assert FootAll(p[who]) == Foot(head) + FootAll(tail);
    forall i, j | 0 <= i < j < |q|
      ensures FootAll(q[i]) !! FootAll(q[j])
    {
      assert FootAll(p[i]) !! FootAll(p[j]);
    }
    forall i | 0 <= i < |q|
      ensures ReadyAll(q[i], Do(head, s))
    {
      assert ReadyAll(p[i], s);
      if i != who {
        assert FootAll(p[i]) !! FootAll(p[who]);
        TakeReady(head, p[i], s);
      }
    }
  }

  lemma TakeReplay(m: Machine, who: nat, rules: Rules)
    requires Inv(m, rules) && who < |m.pending| && m.pending[who] != []
    ensures DoEach(m.pending[who := m.pending[who][1..]], Do(m.pending[who][0], m.live)) == Replay(m.known, rules)
  {
    var p := m.pending + Steps(m.lost);
    forall j | 0 <= j < who
      ensures FootAll(m.pending[j]) !! Foot(m.pending[who][0])
    {
      assert p[j] == m.pending[j] && p[who] == m.pending[who];
      assert FootAll(p[j]) !! FootAll(p[who]);
    }
    DoEachTake(m.pending, who, m.live);
  }

  lemma TakeLost(m: Machine, who: nat, i: nat, rules: Rules)
    requires Inv(m, rules) && who < |m.pending| && m.pending[who] != [] && i < |m.lost|
    ensures m.lost[i].steps == Effects(m.lost[i].rec, Do(m.pending[who][0], m.live).book, rules)
  {
    var p := m.pending + Steps(m.lost);
    assert p[|m.pending| + i] == m.lost[i].steps && p[who] == m.pending[who];
    assert FootAll(p[who]) !! FootAll(p[|m.pending| + i]);
    LostSteady(m.lost[i], m.pending[who][0], m.live, rules);
  }

  lemma TakeKeeps(m: Machine, who: nat, n: Machine, rules: Rules)
    requires Inv(m, rules) && Next(m, Take(who), n, rules)
    ensures Inv(n, rules) && (Safe(m, rules) ==> Safe(n, rules))
  {
    var head := m.pending[who][0];
    var p := m.pending + Steps(m.lost);
    assert p[who] == m.pending[who];
    assert n.pending + Steps(n.lost) == p[who := p[who][1..]];
    TakeApart(p, who, m.live);
    TakeReplay(m, who, rules);
    forall i | 0 <= i < |n.lost|
      ensures n.lost[i].steps == Effects(n.lost[i].rec, n.live.book, rules)
    {
      TakeLost(m, who, i, rules);
    }
    assert ReadyAll(p[who], m.live);
    if head.Led? && Safe(m, rules) { L.AllowedStaysSane(head.op, m.live.accounts); }
  }

  lemma LostSteady(x: Lost, head: Micro, live: Sys, rules: Rules)
    requires x.steps == Effects(x.rec, live.book, rules) && Foot(head) !! FootAll(x.steps)
    ensures x.steps == Effects(x.rec, Do(head, live).book, rules)
  {
    EffectsLockBook(x.rec, live.book, Do(head, live).book, rules);
    if x.rec.FundEvent? {
      DoFrame(head, live, Book);
    }
  }

  /** The records, and the unfinished operations, counting the first k failed writes as stored. */
  function LogWith(m: Machine, k: nat): seq<Entry>
    requires k <= |m.lost|
  {
    m.known + Records(m.lost[..k])
  }

  function PendingWith(m: Machine, k: nat): seq<seq<Micro>>
    requires k <= |m.lost|
  {
    m.pending + Steps(m.lost[..k])
  }

  lemma WithOneMore(m: Machine, k: nat)
    requires k < |m.lost|
    ensures LogWith(m, k + 1) == LogWith(m, k) + [Kept(m.lost[k].rec)]
    ensures PendingWith(m, k + 1) == PendingWith(m, k) + [m.lost[k].steps]
    ensures PendingWith(m, |m.lost|)[..|m.pending| + k] == PendingWith(m, k)
    ensures PendingWith(m, |m.lost|)[|m.pending| + k] == m.lost[k].steps
    ensures PendingWith(m, |m.lost|) == m.pending + Steps(m.lost)
  {
    assert m.lost[..|m.lost|] == m.lost;
  }

  lemma WithNone(m: Machine)
    ensures LogWith(m, 0) == m.known && PendingWith(m, 0) == m.pending
  {
    assert m.lost[..0] == [];
    assert Records([]) == [] && Steps([]) == [];
  }

  /** Whatever part of the failed writes turns out to be on disk, replaying it is what finishing those
      operations would have done. */
  lemma {:induction false} LostReplay(m: Machine, kept: nat, rules: Rules)
    requires Inv(m, rules) && kept <= |m.lost|
    ensures Sound(m.known, rules) ==> Sound(LogWith(m, kept), rules)
    ensures Replay(LogWith(m, kept), rules) == DoEach(PendingWith(m, kept), m.live)
  {
    if kept == 0 {
      WithNone(m);
    } else {
      LostReplay(m, kept - 1, rules);
      LostOneMore(m, kept - 1, rules);
    }
  }

  lemma LostOneMore(m: Machine, k: nat, rules: Rules)
    requires Inv(m, rules) && k < |m.lost|
    requires Replay(LogWith(m, k), rules) == DoEach(PendingWith(m, k), m.live)
    ensures Sound(LogWith(m, k), rules) ==> Sound(LogWith(m, k + 1), rules)
    ensures Replay(LogWith(m, k + 1), rules) == DoEach(PendingWith(m, k + 1), m.live)
  {
    WithOneMore(m, k);
    LostApart(m, k, rules);
    ExtendLog(LogWith(m, k), PendingWith(m, k), m.live, m.lost[k].rec, m.lost[k].steps, rules);
  }

  lemma LostApart(m: Machine, k: nat, rules: Rules)
    requires Inv(m, rules) && k < |m.lost|
    ensures FootAll(m.lost[k].steps) !! Held(PendingWith(m, k))
    ensures ReadyAll(m.lost[k].steps, m.live)
  {
    WithOneMore(m, k);
    var all := m.pending + Steps(m.lost);
    HeldApart(all, |m.pending| + k);
    assert ReadyAll(all[|m.pending| + k], m.live);
  }

  lemma {:induction false} HeldApart(p: seq<seq<Micro>>, n: nat)
    requires Apart(p) && n < |p|
    ensures FootAll(p[n]) !! Held(p[..n])
  {
    forall r | r in Held(p[..n])
      ensures r !in FootAll(p[n])
    {
      HeldFrom(p[..n], r);
      var i :| 0 <= i < n && r in FootAll(p[..n][i]);
      assert p[..n][i] == p[i];
    }
  }

  lemma {:induction false} HeldFrom(p: seq<seq<Micro>>, r: Res)
    requires r in Held(p)
    ensures exists i :: 0 <= i < |p| && r in FootAll(p[i])
  {
    if r in FootAll(p[0]) {
      assert r in FootAll(p[0]);
    } else {
      HeldFrom(p[1..], r);
      var i :| 0 <= i < |p[1..]| && r in FootAll(p[1..][i]);
      assert r in FootAll(p[i + 1]);
    }
  }

  lemma CrashKeeps(m: Machine, kept: nat, n: Machine, rules: Rules)
    requires Inv(m, rules) && rules.start >= 0 && Next(m, Crash(kept), n, rules)
    ensures Inv(n, rules)
    ensures m.known == m.log && Safe(m, rules) ==> Safe(n, rules)
  {
    if m.known == m.log && Safe(m, rules) {
      if m.limbo.Some? {
        if kept > 0 { assert n.log[..|m.log|] == m.log; } else { assert n.log == m.log; }
      } else {
        LostReplay(m, kept, rules);
      }
      SoundIsSane(n.log, rules);
    }
  }

  lemma {:induction false} AllDone(p: seq<seq<Micro>>, s: Sys)
    requires forall i :: 0 <= i < |p| ==> p[i] == []
    ensures DoEach(p, s) == s && Held(p) == {}
  {
    if p != [] {
      forall i | 0 <= i < |p[1..]|
        ensures p[1..][i] == []
      {
        assert p[1..][i] == p[i + 1];
      }
      AllDone(p[1..], s);
    }
  }

  lemma ResetKeeps(m: Machine, all: bool, n: Machine, rules: Rules)
    requires Inv(m, rules) && rules.start >= 0 && Next(m, ResetEvent(all), n, rules)
    ensures Inv(n, rules) && (Safe(m, rules) ==> Safe(n, rules))
  {
    AllDone(m.pending, m.live);
    AllDone(m.pending, n.live);
    assert n.known[..|m.known|] == m.known;
    assert m.pending + Steps(m.lost) == m.pending && n.pending + Steps(n.lost) == n.pending;
  }

  /** The restart, if this is one, finds on disk exactly what the live state knew. */
  predicate Truthful(m: Machine, e: Event) { e.Crash? ==> m.known == m.log }

  lemma NextKeeps(m: Machine, e: Event, n: Machine, rules: Rules)
    requires Inv(m, rules) && rules.start >= 0 && Next(m, e, n, rules)
    ensures Inv(n, rules)
    ensures Safe(m, rules) && Truthful(m, e) ==> Safe(n, rules)
  {
    match e
    case Commit(rec) => CommitKeeps(m, rec, n, rules);
    case Take(who) => TakeKeeps(m, who, n, rules);
    case Refuse =>
    case Lose(rec) => LoseKeeps(m, rec, n, rules);
    case Slip(_) =>
    case ResetEvent(all) => ResetKeeps(m, all, n, rules);
    case ResetSlips(_) =>
    case ResetLost(_) =>
    case Crash(kept) => CrashKeeps(m, kept, n, rules);
  }

  // ---- whole runs ----

  ghost predicate Path(run: seq<Machine>, events: seq<Event>, rules: Rules) {
    |run| == |events| + 1 && forall i :: 0 <= i < |events| ==> Next(run[i], events[i], run[i + 1], rules)
  }

  function Start(rules: Rules): Machine { Machine(Fresh(rules), [], [], [], [], None, false) }

  ghost predicate Behaviour(run: seq<Machine>, events: seq<Event>, rules: Rules) {
    Path(run, events, rules) && run[0] == Start(rules)
  }

  /** So far every restart found on disk exactly what the live state had known. */
  ghost predicate AllTruthful(run: seq<Machine>, events: seq<Event>, i: nat)
    requires |run| == |events| + 1
  {
    forall k :: 0 <= k < i && k < |events| ==> Truthful(run[k], events[k])
  }

  lemma NextAt(run: seq<Machine>, events: seq<Event>, rules: Rules, i: nat)
    requires Behaviour(run, events, rules) && rules.start >= 0 && 0 < i < |run| && Inv(run[i - 1], rules)
    ensures Inv(run[i], rules)
    ensures Safe(run[i - 1], rules) && Truthful(run[i - 1], events[i - 1]) ==> Safe(run[i], rules)
  {
    NextKeeps(run[i - 1], events[i - 1], run[i], rules);
  }

  lemma {:induction false} AlwaysInv(run: seq<Machine>, events: seq<Event>, rules: Rules, i: nat)
    requires Behaviour(run, events, rules) && rules.start >= 0 && i < |run|
    ensures Inv(run[i], rules)
    ensures AllTruthful(run, events, i) ==> Safe(run[i], rules)
  {
    if i > 0 {
      AlwaysInv(run, events, rules, i - 1);
      NextAt(run, events, rules, i);
    }
  }

  ghost predicate NoSlips(events: seq<Event>, i: nat) {
    forall k :: 0 <= k < i && k < |events| ==> !events[k].Slip? && !events[k].ResetSlips?
  }

  lemma AllKnownAt(run: seq<Machine>, events: seq<Event>, rules: Rules, i: nat)
    requires Behaviour(run, events, rules) && 0 < i < |run| && run[i - 1].known == run[i - 1].log
    requires !events[i - 1].Slip? && !events[i - 1].ResetSlips?
    ensures run[i].known == run[i].log
  {
    assert Next(run[i - 1], events[i - 1], run[i], rules);
  }

  lemma {:induction false} AllKnown(run: seq<Machine>, events: seq<Event>, rules: Rules, i: nat)
    requires Behaviour(run, events, rules) && i < |run| && NoSlips(events, i)
    ensures run[i].known == run[i].log && AllTruthful(run, events, i)
  {
    if i > 0 {
      AllKnown(run, events, rules, i - 1);
      AllKnownAt(run, events, rules, i);
    }
  }

  /** At every moment of every interleaving, the known records replay to what the live state becomes when
      the committed operations finish; at rest the two are equal. Unless a stored record was refused, the
      known records are the log, they replay without error, and no cash or share count is negative,
      neither live nor after a restore. */
  lemma LiveIsReplay(run: seq<Machine>, events: seq<Event>, rules: Rules, i: nat)
    requires Behaviour(run, events, rules) && rules.start >= 0 && i < |run|
    ensures Replay(run[i].known, rules) == DoEach(run[i].pending, run[i].live)
    ensures AtRest(run[i]) ==> run[i].live == Replay(run[i].known, rules)
    ensures AllTruthful(run, events, i) ==>
              Sound(run[i].known, rules) && L.Sane(run[i].live.accounts) && L.Sane(Replay(run[i].known, rules).accounts)
    ensures NoSlips(events, i) ==> run[i].known == run[i].log && AllTruthful(run, events, i)
  {
    AlwaysInv(run, events, rules, i);
    if AllTruthful(run, events, i) { SoundIsSane(run[i].known, rules); }
    if AtRest(run[i]) { AllDone(run[i].pending, run[i].live); }
    if NoSlips(events, i) { AllKnown(run, events, rules, i); }
  }

  /** A crash loses nothing that was acknowledged: the durable log only grows, and unless a stored record
      was refused, an operation caught between its commit and its last step comes back as fully applied, and
      a reset that turns out to be on disk as done. */
  lemma CrashRecoversAsApplied(m: Machine, kept: nat, n: Machine, rules: Rules)
    requires Inv(m, rules) && Next(m, Crash(kept), n, rules)
    ensures m.log <= n.log
    ensures m.known == m.log && m.limbo.None? ==> n.live == DoEach(PendingWith(m, kept), m.live)
    ensures m.known == m.log && kept == 0 ==> n.live == DoEach(m.pending, m.live)
    ensures m.known == m.log && m.limbo.Some? && kept == 1 ==> n.live == AfterReset(m.live, m.limbo.value, rules)
  {
    WithNone(m);
    if m.limbo.None? {
      LostReplay(m, kept, rules);
    } else {
      AllDone(m.pending, m.live);
      if kept > 0 { assert n.log[..|m.log|] == m.log; } else { assert n.log == m.log; }
    }
  }

  /** A write or a reset that failed for good changes nothing; a later crash can find it on disk, after what was
      lost before it, or not. */
  lemma LostEitherWay(m: Machine, e: Event, n: Machine, rules: Rules)
    requires Inv(m, rules) && (e.Lose? || e.ResetLost?) && Next(m, e, n, rules)
    ensures (n.live, n.pending, n.log, n.known) == (m.live, m.pending, m.log, m.known) && n.broken
    ensures exists o :: Next(n, Crash(|m.lost|), o, rules) && o.log == m.log + Records(m.lost)
    ensures exists o :: Next(n, Crash(|m.lost| + 1), o, rules)
                        && o.log == m.log + Records(m.lost) + [EntryOf(e)]
  {
    LostFound(m, e, n, rules);
    CanCrash(n, |m.lost|, rules);
    CanCrash(n, |m.lost| + 1, rules);
  }

  function EntryOf(e: Event): Entry
    requires e.Lose? || e.ResetLost?
  {
    if e.Lose? then Kept(e.rec) else Reset(e.all)
  }

  lemma LostFound(m: Machine, e: Event, n: Machine, rules: Rules)
    requires Inv(m, rules) && (e.Lose? || e.ResetLost?) && Next(m, e, n, rules)
    ensures |m.lost| + 1 <= (if n.limbo.Some? then 1 else |n.lost|) && n.log == m.log
    ensures m.log + Recovered(n, |m.lost|) == m.log + Records(m.lost)
    ensures m.log + Recovered(n, |m.lost| + 1) == m.log + Records(m.lost) + [EntryOf(e)]
  {
    var k := |m.lost|;
    if e.Lose? { assert n.lost[..k] == m.lost && n.lost[..k + 1] == n.lost; }
    assert Recovered(n, k) == Records(m.lost);
    assert Recovered(n, k + 1) == Records(m.lost) + [EntryOf(e)];
  }

  /** A reset goes through, or fails either way, exactly while the log takes records and no operation is under way. */
  lemma ResetIff(m: Machine, all: bool, rules: Rules)
    requires Inv(m, rules)
    ensures !m.broken && AtRest(m) <==> exists n :: Next(m, ResetEvent(all), n, rules)
    ensures !m.broken && AtRest(m) <==> exists n :: Next(m, ResetSlips(all), n, rules)
    ensures !m.broken && AtRest(m) <==> exists n :: Next(m, ResetLost(all), n, rules)
  {
    if !m.broken && AtRest(m) {
      assert Next(m, ResetEvent(all), m.(live := AfterReset(m.live, all, rules), log := m.log + [Reset(all)], known := m.known + [Reset(all)]), rules);
      assert Next(m, ResetSlips(all), m.(log := m.log + [Reset(all)]), rules);
      assert Next(m, ResetLost(all), m.(limbo := Some(all), broken := true), rules);
    }
  }

  lemma CanCrash(m: Machine, kept: nat, rules: Rules)
    requires kept <= (if m.limbo.Some? then 1 else |m.lost|)
    ensures exists o :: Next(m, Crash(kept), o, rules) && o.log == m.log + Recovered(m, kept)
  {
    var log := m.log + Recovered(m, kept);
    var o := Machine(Replay(log, rules), [], log, log, [], None, false);
    assert Next(m, Crash(kept), o, rules);
  }

  lemma {:induction false} SoundPrefix(log: seq<Entry>, rules: Rules, n: nat)
    requires Sound(log, rules) && n <= |log|
    ensures Sound(log[..n], rules)
    decreases |log|
  {
    if n < |log| {
      SoundPrefix(log[..|log| - 1], rules, n);
      assert log[..|log| - 1][..n] == log[..n];
    } else {
      assert log[..n] == log;
    }
  }

  // ---- the fund operations pass the checks of every step ----

  lemma {:induction false} ReadyPlus(a: seq<Micro>, b: seq<Micro>, s: Sys)
    ensures ReadyAll(a + b, s) <==> ReadyAll(a, s) && ReadyAll(b, DoAll(a, s))
    ensures DoAll(a + b, s) == DoAll(b, DoAll(a, s))
  {
    if a == [] {
      assert a + b == b;
    } else {
      assert (a + b)[0] == a[0] && (a + b)[1..] == a[1..] + b;
      ReadyPlus(a[1..], b, Do(a[0], s));
    }
  }

  lemma {:induction false} LedgersReady(ops: seq<L.Op>, s: Sys)
    ensures ReadyAll(Ledgers(ops), s) <==> F.AllAllowed(ops, s.accounts)
    ensures DoAll(Ledgers(ops), s) == s.(accounts := F.ApplyOps(ops, s.accounts))
  {
    if ops != [] {
      assert Ledgers(ops)[1..] == Ledgers(ops[1..]);
      LedgersReady(ops[1..], Do(Led(ops[0]), s));
    }
  }

  /** A plan only depends on the accounts of the teams that join. */
  lemma {:induction false} PlanSame(A: L.Accounts, M: L.Accounts, js: seq<(string, B.Formed)>,
                                    symbols: seq<string>, price: map<string, int>, launch: real)
    requires launch > 0.0 && forall i :: 0 <= i < |js| ==> L.SameAt(A, M, js[i].0)
    ensures F.SeedPlan(A, js, symbols, price, launch) == F.SeedPlan(M, js, symbols, price, launch)
  {
    if js != [] {
      PlanSame(A, M, js[..|js| - 1], symbols, price, launch);
      assert L.SameAt(A, M, js[|js| - 1].0);
    }
  }

  lemma {:induction false} OpensReady(fs: seq<B.Formed>, s: Sys, rules: Rules)
    requires rules.seed >= 0 && L.Sane(s.accounts)
    ensures ReadyAll(OpenFunds(fs, rules), s)
    ensures var t := DoAll(OpenFunds(fs, rules), s);
            && t == s.(accounts := t.accounts) && L.Sane(t.accounts)
            && s.accounts.Keys <= t.accounts.Keys
            && (forall i :: 0 <= i < |fs| ==> fs[i].account in t.accounts)
  {
    if fs != [] {
      var next := Do(Led(L.Open(fs[0].account, rules.seed)), s);
      assert OpenFunds(fs, rules)[1..] == OpenFunds(fs[1..], rules);
      L.AllowedStaysSane(L.Open(fs[0].account, rules.seed), s.accounts);
      OpensReady(fs[1..], next, rules);
    }
  }

  lemma {:induction false} OpensFrame(fs: seq<B.Formed>, s: Sys, rules: Rules, id: string)
    requires forall i :: 0 <= i < |fs| ==> fs[i].account != id
    ensures L.SameAt(s.accounts, DoAll(OpenFunds(fs, rules), s).accounts, id)
  {
    if fs != [] {
      assert OpenFunds(fs, rules)[1..] == OpenFunds(fs[1..], rules);
      assert fs[0].account != id;
      OpensFrame(fs[1..], Do(Led(L.Open(fs[0].account, rules.seed)), s), rules, id);
    }
  }

  lemma {:induction false} SeedsKnown(b: B.Book, seeds: seq<B.SeedUnits>)
    requires SeedsIn(seeds, b.funds.Keys)
    ensures B.AddSeeds(b, seeds).1 && B.AddSeeds(b, seeds).0.funds.Keys == b.funds.Keys
  {
    if seeds != [] { SeedsKnown(b, seeds[..|seeds| - 1]); }
  }

  lemma {:induction false} FundsAdded(b: B.Book, fs: seq<B.Formed>)
    ensures forall i :: 0 <= i < |fs| ==> fs[i].id in B.AddFunds(b, fs).funds
  {
    if fs != [] { FundsAdded(b, fs[..|fs| - 1]); }
  }

  predicate SeedsIn(seeds: seq<B.SeedUnits>, ids: set<string>) {
    forall i :: 0 <= i < |seeds| ==> seeds[i].fund in ids
  }

  lemma {:induction false} PlanFunds(A: L.Accounts, js: seq<(string, B.Formed)>, ids: set<string>,
                                     symbols: seq<string>, price: map<string, int>, launch: real)
    requires launch > 0.0 && forall i :: 0 <= i < |js| ==> js[i].1.id in ids
    ensures SeedsIn(F.SeedPlan(A, js, symbols, price, launch).1, ids)
  {
    if js != [] {
      var past, j := js[..|js| - 1], js[|js| - 1];
      PlanFunds(A, past, ids, symbols, price, launch);
      var before := F.SeedPlan(A, past, symbols, price, launch).1;
      assert SeedsIn(before, ids);
      if F.Brings(A, j.0, symbols) {
        assert js[|js| - 1].1.id in ids;
        assert SeedsIn(before + [F.TeamSeed(j.0, j.1.id, A[j.0], symbols, price, launch)], ids);
      }
    }
  }

  /** What FormFunds checks before it makes its plan: no team twice, and no fund's account is a team. */
  predicate Teams(js: seq<(string, B.Formed)>) {
    && (forall i, j :: 0 <= i < j < |js| ==> js[i].0 != js[j].0)
    && (forall i, j :: 0 <= i < |js| && 0 <= j < |js| ==> js[i].0 != js[j].1.account)
  }

  /** A formation planned on the live accounts passes every check of every one of its steps. */
  lemma {:induction false} FormingIsReady(s: Sys, fs: seq<B.Formed>, symbols: seq<string>, price: map<string, int>, rules: Rules)
    requires rules.launch > 0.0 && rules.seed >= 0 && L.Sane(s.accounts) && F.NoRepeats(symbols)
    requires !s.book.formed && Teams(F.Joiners(fs))
    ensures var (moves, seeds) := F.SeedPlan(s.accounts, F.Joiners(fs), symbols, price, rules.launch);
            ReadyAll(FundEffects(B.Forming(fs, moves, seeds), s.book, rules), s)
  {
    var (moves, seeds) := F.SeedPlan(s.accounts, F.Joiners(fs), symbols, price, rules.launch);
    var ev := B.Forming(fs, moves, seeds);
    FormingAccepted(s, fs, symbols, price, rules);
    MovesReady(Do(Funds(ev), s), fs, symbols, price, rules);
    var rest := OpenFunds(fs, rules) + Ledgers(F.AllOps(moves));
    ReadyOne(Funds(ev), rest, s);
    assert FundEffects(ev, s.book, rules) == [Funds(ev)] + rest;
  }

  /** Opening the funds' accounts does not disturb the plan. */
  lemma {:induction false} MovesReady(s: Sys, fs: seq<B.Formed>, symbols: seq<string>, price: map<string, int>, rules: Rules)
    requires rules.launch > 0.0 && rules.seed >= 0 && L.Sane(s.accounts) && F.NoRepeats(symbols)
    requires Teams(F.Joiners(fs))
    ensures ReadyAll(OpenFunds(fs, rules)
                     + Ledgers(F.AllOps(F.SeedPlan(s.accounts, F.Joiners(fs), symbols, price, rules.launch).0)), s)
  {
    var js := F.Joiners(fs);
    var moves := F.SeedPlan(s.accounts, js, symbols, price, rules.launch).0;
    OpensReady(fs, s, rules);
    var t := DoAll(OpenFunds(fs, rules), s);
    forall i | 0 <= i < |js|
      ensures js[i].1.account in t.accounts
      ensures L.SameAt(s.accounts, t.accounts, js[i].0)
    {
      JoinersFrom(fs, i);
      forall k | 0 <= k < |fs|
        ensures fs[k].account != js[i].0
      {
        assert js[2 * k].1 == fs[k];
      }
      OpensFrame(fs, s, rules, js[i].0);
    }
    PlanSame(s.accounts, t.accounts, js, symbols, price, rules.launch);
    F.PlanIsAllowed(t.accounts, js, symbols, price, rules.launch);
    LedgersReady(F.AllOps(moves), t);
    ReadyPlus(OpenFunds(fs, rules), Ledgers(F.AllOps(moves)), s);
  }

  lemma ReadyOne(m: Micro, ms: seq<Micro>, s: Sys)
    requires Ready(m, s) && ReadyAll(ms, Do(m, s))
    ensures ReadyAll([m] + ms, s)
  {
    assert ([m] + ms)[1..] == ms;
  }

  lemma JoinersFrom(fs: seq<B.Formed>, i: nat)
    requires i < |F.Joiners(fs)|
    ensures i / 2 < |fs| && F.Joiners(fs)[i].1 == fs[i / 2]
  {
    assert i == 2 * (i / 2) || i == 2 * (i / 2) + 1;
  }

  lemma {:induction false} FormingAccepted(s: Sys, fs: seq<B.Formed>, symbols: seq<string>, price: map<string, int>, rules: Rules)
    requires rules.launch > 0.0 && !s.book.formed
    ensures var (moves, seeds) := F.SeedPlan(s.accounts, F.Joiners(fs), symbols, price, rules.launch);
            B.Step(s.book, B.Forming(fs, moves, seeds)).1
  {
    var js := F.Joiners(fs);
    var (moves, seeds) := F.SeedPlan(s.accounts, js, symbols, price, rules.launch);
    var b := B.AddFunds(s.book, fs).(formed := true, seedMoves := moves);
    FundsAdded(s.book, fs);
    forall i | 0 <= i < |js|
      ensures js[i].1.id in b.funds.Keys
    {
      JoinersFrom(fs, i);
    }
    PlanFunds(s.accounts, js, b.funds.Keys, symbols, price, rules.launch);
    SeedsKnown(b, seeds);
    assert B.Step(s.book, B.Forming(fs, moves, seeds)) == B.AddSeeds(b, seeds);
  }

  lemma {:induction false} ClosesReady(b: B.Book, order: seq<string>, s: Sys)
    ensures ReadyAll(CloseFunds(b, order), s)
  {
    if order != [] {
      var rest := CloseFunds(b, order[..|order| - 1]);
      var last := if order[|order| - 1] in b.funds then [Led(L.Remove(b.funds[order[|order| - 1]].formed.account))] else [];
      ClosesReady(b, order[..|order| - 1], s);
      ReadyPlus(rest, last, s);
    }
  }

  /** While the funds still hold what the formation moved in, dissolving passes every check too. */
  lemma {:induction false} DissolvingIsReady(s: Sys, ops: seq<L.Op>, back: seq<B.Move>, rules: Rules)
    requires F.Transfers(ops) && F.OneWay(ops) && F.Covers(s.accounts, ops)
    requires F.AllOps(back) == F.BackAll(ops)
    ensures ReadyAll(FundEffects(B.Dissolve(back), s.book, rules), s)
  {
    var ev := B.Dissolve(back);
    F.BackAllowed(ops, s.accounts);
    LedgersReady(F.BackAll(ops), s);
    DissolveRest(DoAll(Ledgers(F.BackAll(ops)), s), ev, s.book);
    DissolveJoin(Ledgers(F.BackAll(ops)), ev, s);
  }

  lemma {:induction false} DissolveJoin(first: seq<Micro>, ev: B.Event, s: Sys)
    requires ReadyAll(first, s) && ReadyAll([Funds(ev)] + CloseFunds(s.book, s.book.order), DoAll(first, s))
    ensures ReadyAll(first + [Funds(ev)] + CloseFunds(s.book, s.book.order), s)
  {
    var rest := [Funds(ev)] + CloseFunds(s.book, s.book.order);
    ReadyPlus(first, rest, s);
    assert first + [Funds(ev)] + CloseFunds(s.book, s.book.order) == first + rest;
  }

  lemma {:induction false} DissolveRest(s: Sys, ev: B.Event, b: B.Book)
    requires ev.Dissolve?
    ensures ReadyAll([Funds(ev)] + CloseFunds(b, b.order), s)
  {
    ClosesReady(b, b.order, Do(Funds(ev), s));
    ReadyOne(Funds(ev), CloseFunds(b, b.order), s);
  }
}

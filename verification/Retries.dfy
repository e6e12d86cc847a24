/** Trades and their client trade ids over whole runs of the platform: what a retry gets, when a trade is in
    the log twice, and when a restart would restore something else than the live state. */
module Retries {
  import opened Options
  import opened Platform
  import L = Ledger
  import T = Trading
  import B = FundBook

  // ---- ids and what is remembered under them ----

  /** The two entries are trades of one account under one client id. */
  predicate SameTrade(x: Entry, y: Entry) {
    x.Kept? && x.rec.Traded? && y.Kept? && y.rec.Traded? && T.KeyOf(x.rec.trade) == T.KeyOf(y.rec.trade)
  }

  predicate IsTrade(rec: Rec, key: T.Key) { rec.Traded? && T.KeyOf(rec.trade) == key }

  predicate Seen(s: Sys, key: T.Key) { key.1 in SeenBy(s, key.0) }

  lemma TradeSteps(t: T.Trade, s: Sys)
    ensures var ms := [Led(T.LedgerOp(t)), Mark(t)];
            && Seen(DoAll(ms, s), T.KeyOf(t)) && SeenBy(DoAll(ms, s), t.account)[t.clientId] == t
            && (ReadyAll(ms, s) ==> !Seen(s, T.KeyOf(t)))
            && Trades(t.account) in FootAll(ms)
  {
    var ms := [Led(T.LedgerOp(t)), Mark(t)];
    assert ms[1..] == [Mark(t)] && ms[1..][1..] == [];
    var s1 := Do(Led(T.LedgerOp(t)), s);
    assert DoAll(ms, s) == DoAll([Mark(t)], s1);
    assert DoAll([Mark(t)], s1) == DoAll([], Do(Mark(t), s1)) == Do(Mark(t), s1);
    assert ReadyAll(ms, s) ==> ReadyAll([Mark(t)], s1);
    assert SeenBy(s1, t.account) == SeenBy(s, t.account);
  }

  lemma {:induction false} SeenStays(ms: seq<Micro>, s: Sys, key: T.Key)
    requires Seen(s, key)
    ensures Seen(DoAll(ms, s), key)
    ensures ReadyAll(ms, s) ==> SeenBy(DoAll(ms, s), key.0)[key.1] == SeenBy(s, key.0)[key.1]
  {
    if ms != [] { SeenStays(ms[1..], Do(ms[0], s), key); }
  }

  lemma SeenNow(log: seq<Entry>, rules: Rules)
    requires log != [] && log[|log| - 1].Kept? && log[|log| - 1].rec.Traded?
    ensures var t := log[|log| - 1].rec.trade;
            Seen(Replay(log, rules), T.KeyOf(t)) && SeenBy(Replay(log, rules), t.account)[t.clientId] == t
  {
    TradeSteps(log[|log| - 1].rec.trade, Replay(log[..|log| - 1], rules));
  }

  lemma SeenNext(log: seq<Entry>, rules: Rules, key: T.Key)
    requires log != [] && log[|log| - 1].Kept? && Seen(Replay(log[..|log| - 1], rules), key)
    ensures Seen(Replay(log, rules), key)
    ensures Sound(log, rules) ==>
              Sound(log[..|log| - 1], rules) && SeenBy(Replay(log, rules), key.0)[key.1] == SeenBy(Replay(log[..|log| - 1], rules), key.0)[key.1]
  {
    var s := Replay(log[..|log| - 1], rules);
    SeenStays(Effects(log[|log| - 1].rec, s.book, rules), s, key);
  }

  /** A trade after the last reset is remembered, as it was made. */
  lemma {:induction false} SeenAfter(log: seq<Entry>, rules: Rules, i: nat)
    requires i < |log| && log[i].Kept? && log[i].rec.Traded?
    requires forall k :: i < k < |log| ==> log[k].Kept?
    ensures var t := log[i].rec.trade;
            Seen(Replay(log, rules), T.KeyOf(t))
            && (Sound(log, rules) ==> SeenBy(Replay(log, rules), t.account)[t.clientId] == t)
    decreases |log|
  {
    if i < |log| - 1 {
      SeenAfter(log[..|log| - 1], rules, i);
      SeenNext(log, rules, T.KeyOf(log[i].rec.trade));
    } else {
      SeenNow(log, rules);
    }
  }

  lemma RepeatRefused(past: seq<Entry>, rules: Rules, i: nat, t: T.Trade)
    requires i < |past| && SameTrade(past[i], Kept(Traded(t))) && forall k :: i < k < |past| ==> past[k].Kept?
    ensures !ReadyAll(Effects(Traded(t), Replay(past, rules).book, rules), Replay(past, rules))
  {
    SeenAfter(past, rules, i);
    TradeSteps(t, Replay(past, rules));
  }

  lemma SoundAt(log: seq<Entry>, rules: Rules, j: nat)
    requires Sound(log, rules) && j < |log| && log[j].Kept?
    ensures ReadyAll(Effects(log[j].rec, Replay(log[..j], rules).book, rules), Replay(log[..j], rules))
  {
    SoundPrefix(log, rules, j + 1);
    assert log[..j + 1][..j] == log[..j];
  }

  /** No (account, client trade id) is ever in the log twice within one event. */
  lemma {:induction false} NoTradeTwice(log: seq<Entry>, rules: Rules, i: nat, j: nat)
    requires Sound(log, rules) && i < j < |log| && SameTrade(log[i], log[j])
    ensures exists k :: i < k < j && log[k].Reset?
  {
    SoundAt(log, rules, j);
    if forall k :: i < k < j ==> log[k].Kept? { RepeatRefused(log[..j], rules, i, log[j].rec.trade); }
  }

  predicate NoMarks(ms: seq<Micro>) { forall i :: 0 <= i < |ms| ==> !ms[i].Mark? }

  lemma {:induction false} CloseNoMarks(b: B.Book, order: seq<string>)
    ensures NoMarks(CloseFunds(b, order))
  {
    if order != [] { CloseNoMarks(b, order[..|order| - 1]); }
  }

  lemma OtherNoMarks(rec: Rec, b: B.Book, rules: Rules)
    requires !rec.Traded?
    ensures NoMarks(Effects(rec, b, rules))
  {
    CloseNoMarks(b, b.order);
  }

  lemma {:induction false} UnseenStays(ms: seq<Micro>, s: Sys, key: T.Key)
    requires NoMarks(ms) && !Seen(s, key)
    ensures !Seen(DoAll(ms, s), key)
  {
    if ms != [] {
      assert !ms[0].Mark?;
      UnseenStays(ms[1..], Do(ms[0], s), key);
    }
  }

  /** Only a trade under that id makes an id known. */
  lemma UnseenPlus(log: seq<Entry>, rec: Rec, rules: Rules, key: T.Key)
    requires !Seen(Replay(log, rules), key) && !IsTrade(rec, key)
    ensures !Seen(Replay(log + [Kept(rec)], rules), key)
  {
    var s := Replay(log, rules);
    assert (log + [Kept(rec)])[..|log|] == log;
    if rec.Traded? {
      var ms := Effects(rec, s.book, rules);
      assert ms[1..] == [Mark(rec.trade)] && ms[1..][1..] == [];
      assert DoAll(ms, s) == DoAll(ms[1..], Do(ms[0], s)) == Do(Mark(rec.trade), Do(ms[0], s));
    } else {
      OtherNoMarks(rec, s.book, rules);
      UnseenStays(Effects(rec, s.book, rules), s, key);
    }
  }

  /** A record not under that id leaves what is remembered under it as it is. */
  lemma {:induction false} SeenSame(ms: seq<Micro>, s: Sys, key: T.Key)
    requires NoMarks(ms) && Seen(s, key)
    ensures Seen(DoAll(ms, s), key) && SeenBy(DoAll(ms, s), key.0)[key.1] == SeenBy(s, key.0)[key.1]
  {
    if ms != [] {
      assert !ms[0].Mark?;
      SeenSame(ms[1..], Do(ms[0], s), key);
    }
  }

  lemma SeenPlus(log: seq<Entry>, rec: Rec, rules: Rules, key: T.Key)
    requires Seen(Replay(log, rules), key)
    ensures Seen(Replay(log + [Kept(rec)], rules), key)
    ensures !IsTrade(rec, key) ==> SeenBy(Replay(log + [Kept(rec)], rules), key.0)[key.1] == SeenBy(Replay(log, rules), key.0)[key.1]
  {
    var s := Replay(log, rules);
    assert (log + [Kept(rec)])[..|log|] == log;
    SeenStays(Effects(rec, s.book, rules), s, key);
    if rec.Traded? {
      var ms := Effects(rec, s.book, rules);
      assert ms[1..] == [Mark(rec.trade)] && ms[1..][1..] == [];
      assert DoAll(ms, s) == DoAll(ms[1..], Do(ms[0], s)) == Do(Mark(rec.trade), Do(ms[0], s));
    } else {
      OtherNoMarks(rec, s.book, rules);
      SeenSame(Effects(rec, s.book, rules), s, key);
    }
  }

  /** The trade is at place n, and what follows is neither a reset nor under its id. */
  predicate Owns(log: seq<Entry>, t: T.Trade, n: nat) {
    && n < |log| && log[n] == Kept(Traded(t))
    && forall k :: n < k < |log| ==> log[k].Kept? && !IsTrade(log[k].rec, T.KeyOf(t))
  }

  lemma {:induction false} OwnedSeen(log: seq<Entry>, rules: Rules, t: T.Trade, n: nat)
    requires Owns(log, t, n)
    ensures Seen(Replay(log, rules), T.KeyOf(t)) && SeenBy(Replay(log, rules), t.account)[t.clientId] == t
    decreases |log|
  {
    var last := |log| - 1;
    if n == last {
      TradeSteps(t, Replay(log[..last], rules));
    } else {
      OwnedSeen(log[..last], rules, t, n);
      assert log[..last] + [Kept(log[last].rec)] == log;
      SeenPlus(log[..last], log[last].rec, rules, T.KeyOf(t));
    }
  }

  /** A checked trade's id is new to everything the live state knows. */
  lemma UnseenIfReady(m: Machine, t: T.Trade, rules: Rules)
    requires Inv(m, rules) && ReadyAll([Led(T.LedgerOp(t)), Mark(t)], m.live) && Trades(t.account) !in Held(m.pending)
    ensures !Seen(Replay(m.known, rules), T.KeyOf(t))
  {
    TradeSteps(t, m.live);
    DoEachFrame(m.pending, m.live, Trades(t.account));
    assert SameAt(m.live, Replay(m.known, rules), Trades(t.account));
  }

  lemma {:induction false} HeldMore(p: seq<seq<Micro>>, q: seq<seq<Micro>>, r: Res)
    requires r in Held(p)
    ensures r in Held(p + q)
  {
    if r !in FootAll(p[0]) {
      HeldMore(p[1..], q, r);
    }
    assert (p + q)[0] == p[0] && (p + q)[1..] == p[1..] + q;
  }

  lemma NotYetSeen(m: Machine, t: T.Trade, rules: Rules)
    requires Inv(m, rules) && MayCommit(m, Traded(t), rules)
    ensures !Seen(Replay(m.known, rules), T.KeyOf(t))
  {
    TradeSteps(t, m.live);
    if Trades(t.account) in Held(m.pending) { HeldMore(m.pending, Steps(m.lost), Trades(t.account)); }
    UnseenIfReady(m, t, rules);
  }

  lemma LostUnseen(m: Machine, k: nat, t: T.Trade, rules: Rules)
    requires Inv(m, rules) && k < |m.lost| && m.lost[k].rec == Traded(t)
    ensures !Seen(Replay(m.known, rules), T.KeyOf(t))
  {
    LostApart(m, k, rules);
    TradeSteps(t, m.live);
    if Trades(t.account) in Held(m.pending) { HeldMore(m.pending, Steps(m.lost[..k]), Trades(t.account)); }
    UnseenIfReady(m, t, rules);
  }

  /** No two writes that failed for good are trades under one id. */
  lemma LostOnce(m: Machine, i: nat, k: nat, rules: Rules)
    requires Inv(m, rules) && i < k < |m.lost| && m.lost[i].rec.Traded? && m.lost[k].rec.Traded?
    ensures T.KeyOf(m.lost[i].rec.trade) != T.KeyOf(m.lost[k].rec.trade)
  {
    LostFeet(m, i, k);
    LostTrade(m, i, rules);
    LostTrade(m, k, rules);
  }

  lemma LostFeet(m: Machine, i: nat, k: nat)
    requires Apart(m.pending + Steps(m.lost)) && i < k < |m.lost|
    ensures FootAll(m.lost[i].steps) !! FootAll(m.lost[k].steps)
  {
    StepsAt(m.pending, m.lost, i);
    StepsAt(m.pending, m.lost, k);
    ApartAt(m.pending + Steps(m.lost), |m.pending| + i, |m.pending| + k);
  }

  lemma StepsAt(p: seq<seq<Micro>>, lost: seq<Lost>, i: nat)
    requires i < |lost|
    ensures |p| + i < |p + Steps(lost)| && (p + Steps(lost))[|p| + i] == lost[i].steps
  {
  }

  lemma ApartAt(p: seq<seq<Micro>>, i: nat, k: nat)
    requires Apart(p) && i < k < |p|
    ensures FootAll(p[i]) !! FootAll(p[k])
  {
  }

  lemma LostTrade(m: Machine, i: nat, rules: Rules)
    requires Inv(m, rules) && i < |m.lost| && m.lost[i].rec.Traded?
    ensures Trades(m.lost[i].rec.trade.account) in FootAll(m.lost[i].steps)
  {
    TradeSteps(m.lost[i].rec.trade, m.live);
  }

  // ---- a retry gets the original trade ----

  predicate Owned(log: seq<Entry>, t: T.Trade) { exists n :: 0 <= n < |log| && Owns(log, t, n) }

  /** The trade stands in the live state and on disk, and nothing in doubt is under its id. */
  ghost predicate Has(m: Machine, t: T.Trade) {
    && Owned(m.known, t) && Owned(m.log, t) && m.limbo.None?
    && forall i :: 0 <= i < |m.lost| ==> !IsTrade(m.lost[i].rec, T.KeyOf(t))
  }

  lemma OwnedPlus(log: seq<Entry>, t: T.Trade, rec: Rec)
    requires Owned(log, t) && !IsTrade(rec, T.KeyOf(t))
    ensures Owned(log + [Kept(rec)], t)
  {
    var n :| 0 <= n < |log| && Owns(log, t, n);
    assert Owns(log + [Kept(rec)], t, n);
  }

  lemma OwnedRecovered(log: seq<Entry>, t: T.Trade, lost: seq<Lost>)
    requires Owned(log, t) && forall i :: 0 <= i < |lost| ==> !IsTrade(lost[i].rec, T.KeyOf(t))
    ensures Owned(log + Records(lost), t)
  {
    var n :| 0 <= n < |log| && Owns(log, t, n);
    assert Owns(log + Records(lost), t, n);
  }

  lemma HasNoSecond(m: Machine, t: T.Trade, rec: Rec, rules: Rules)
    requires Inv(m, rules) && Has(m, t) && MayCommit(m, rec, rules)
    ensures !IsTrade(rec, T.KeyOf(t))
  {
    var n :| 0 <= n < |m.known| && Owns(m.known, t, n);
    OwnedSeen(m.known, rules, t, n);
    if IsTrade(rec, T.KeyOf(t)) { NotYetSeen(m, rec.trade, rules); }
  }

  predicate IsReset(e: Event) { e.ResetEvent? || e.ResetSlips? || e.ResetLost? }

  lemma HasRecorded(m: Machine, e: Event, n: Machine, t: T.Trade, rules: Rules)
    requires Inv(m, rules) && Has(m, t) && Next(m, e, n, rules) && (e.Commit? || e.Slip? || e.Lose?)
    ensures Has(n, t)
  {
    HasNoSecond(m, t, e.rec, rules);
    OwnedPlus(m.known, t, e.rec);
    OwnedPlus(m.log, t, e.rec);
  }

  lemma HasKept(m: Machine, e: Event, n: Machine, t: T.Trade, rules: Rules)
    requires Inv(m, rules) && Has(m, t) && Next(m, e, n, rules) && !IsReset(e)
    ensures Has(n, t)
  {
    if e.Commit? || e.Slip? || e.Lose? {
      HasRecorded(m, e, n, t, rules);
    } else if e.Crash? {
      OwnedRecovered(m.log, t, m.lost[..e.kept]);
    }
  }

  ghost predicate NoReset(events: seq<Event>, i: nat, j: nat) {
    forall k :: i <= k < j && k < |events| ==> !IsReset(events[k])
  }

  lemma HasAt(run: seq<Machine>, events: seq<Event>, rules: Rules, j: nat, t: T.Trade)
    requires Behaviour(run, events, rules) && rules.start >= 0 && 0 < j < |run| && !IsReset(events[j - 1]) && Has(run[j - 1], t)
    ensures Has(run[j], t)
  {
    var m, e, n := run[j - 1], events[j - 1], run[j];
    assert Inv(m, rules) by { AlwaysInv(run, events, rules, j - 1); }
    assert Next(m, e, n, rules);
    HasKept(m, e, n, t, rules);
  }

  lemma {:induction false} HasSince(run: seq<Machine>, events: seq<Event>, rules: Rules, i: nat, j: nat, t: T.Trade)
    requires Behaviour(run, events, rules) && rules.start >= 0 && i <= j < |run| && NoReset(events, i, j) && Has(run[i], t)
    ensures Has(run[j], t)
    decreases j
  {
    if i < j {
      HasSince(run, events, rules, i, j - 1, t);
      HasAt(run, events, rules, j, t);
    }
  }

  lemma CommittedHas(m: Machine, n: Machine, t: T.Trade, rules: Rules)
    requires Inv(m, rules) && Next(m, Commit(Traded(t)), n, rules)
    ensures Has(n, t)
  {
    assert Owns(n.known, t, |m.known|) && Owns(n.log, t, |m.log|);
  }

  /** The executor's memory is the platform's. */
  ghost predicate Remembers(st: T.State, s: Sys) {
    forall key: T.Key ::
      (key in st.seen <==> Seen(s, key))
      && (key in st.seen ==> st.seen[key] == T.Entry(T.PrintOf(SeenBy(s, key.0)[key.1]), SeenBy(s, key.0)[key.1]))
  }

  /** A trade was made. Whatever happens afterwards, crashes and refused records included, and whoever else
      trades: as long as no reset of the event is tried, a retry gets that trade, or is refused if it asks for
      something else. It waits, as every call does, until the account's trades are not being changed. */
  lemma RetryReturnsOriginal(run: seq<Machine>, events: seq<Event>, rules: Rules, i: nat, j: nat, t: T.Trade,
                             st: T.State, r: T.Request, w: T.World)
    requires Behaviour(run, events, rules) && rules.start >= 0 && i < j < |run| && events[i] == Commit(Traded(t))
    requires NoReset(events, i + 1, j) && Trades(t.account) !in Held(run[j].pending)
    requires Remembers(st, run[j].live) && T.WellFormed(r) && (r.account, r.clientId) == T.KeyOf(t)
    ensures T.Exec(st, r, w) == (st, if T.Wanted(r) == T.PrintOf(t) then T.Traded(t, true) else T.Failed(T.Mismatch))
  {
    AlwaysInv(run, events, rules, i);
    AlwaysInv(run, events, rules, j);
    assert Next(run[i], events[i], run[i + 1], rules);
    CommittedHas(run[i], run[i + 1], t, rules);
    HasSince(run, events, rules, i + 1, j, t);
    var n :| 0 <= n < |run[j].known| && Owns(run[j].known, t, n);
    OwnedSeen(run[j].known, rules, t, n);
    DoEachFrame(run[j].pending, run[j].live, Trades(t.account));
    assert SameAt(run[j].live, Replay(run[j].known, rules), Trades(t.account));
    assert T.KeyOf(t) in st.seen;
  }

  // ---- when a trade is in the log twice ----

  predicate IsTradeEntry(e: Entry, key: T.Key) { e.Kept? && IsTrade(e.rec, key) }

  predicate TwiceAt(log: seq<Entry>, key: T.Key, i: nat, j: nat)
    requires i < |log| && j < |log|
  {
    IsTradeEntry(log[i], key) && IsTradeEntry(log[j], key) && forall k :: i < k < j ==> log[k].Kept?
  }

  /** Two trades of one id with no reset between them. */
  predicate Twice(log: seq<Entry>, key: T.Key) { exists i, j :: 0 <= i < j < |log| && TwiceAt(log, key, i, j) }

  lemma TwiceStays(a: seq<Entry>, b: seq<Entry>, key: T.Key)
    requires a <= b && Twice(a, key)
    ensures Twice(b, key)
  {
    var i, j :| 0 <= i < j < |a| && TwiceAt(a, key, i, j);
    assert TwiceAt(b, key, i, j);
  }

  /** A new entry that makes it twice is a trade of the id, and the one before it is still remembered. */
  lemma TwiceNow(log: seq<Entry>, e: Entry, rules: Rules, key: T.Key)
    requires Twice(log + [e], key) && !Twice(log, key)
    ensures IsTradeEntry(e, key) && Seen(Replay(log, rules), key)
  {
    var all := log + [e];
    var i, j :| 0 <= i < j < |all| && TwiceAt(all, key, i, j);
    forall k | i < k < j && k < |log|
      ensures log[k].Kept?
    {
      assert all[k] == log[k];
    }
    if j < |log| {
      assert TwiceAt(log, key, i, j);
    } else {
      assert all[j] == e;
      SeenAfter(log, rules, i);
    }
  }

  /** Since then there has been no restart, and no reset has reached the log. */
  ghost predicate Quiet(events: seq<Event>, a: nat, b: nat) {
    forall k :: a <= k < b && k < |events| ==> !events[k].Crash? && !events[k].ResetEvent? && !events[k].ResetSlips?
  }

  ghost predicate NoCrash(events: seq<Event>, a: nat, b: nat) {
    forall k :: a <= k < b && k < |events| ==> !events[k].Crash?
  }

  /** A trade of this id was refused although it was stored. */
  predicate Slips(e: Event, key: T.Key) { e.Slip? && IsTrade(e.rec, key) }

  ghost predicate SlippedSince(events: seq<Event>, n: nat, key: T.Key) {
    exists a :: 0 <= a < n && a < |events| && Slips(events[a], key) && Quiet(events, a + 1, n)
  }

  lemma UnknownAt(run: seq<Machine>, events: seq<Event>, rules: Rules, n: nat, key: T.Key)
    requires Behaviour(run, events, rules) && 0 < n < |run|
    requires Seen(Replay(run[n].log, rules), key) && !Seen(Replay(run[n].known, rules), key)
    ensures Slips(events[n - 1], key)
            || (Quiet(events, n - 1, n) && Seen(Replay(run[n - 1].log, rules), key) && !Seen(Replay(run[n - 1].known, rules), key))
  {
    assert Next(run[n - 1], events[n - 1], run[n], rules);
    UnknownStep(run[n - 1], events[n - 1], run[n], rules, key);
  }

  /** The live state misses this id, which is in the log. */
  ghost predicate Unknown(m: Machine, rules: Rules, key: T.Key) {
    Seen(Replay(m.log, rules), key) && !Seen(Replay(m.known, rules), key)
  }

  lemma UnknownStep(m: Machine, e: Event, n: Machine, rules: Rules, key: T.Key)
    requires Next(m, e, n, rules) && Unknown(n, rules, key)
    ensures Slips(e, key) || (!e.Crash? && !e.ResetEvent? && !e.ResetSlips? && Unknown(m, rules, key))
  {
    if e.ResetEvent? || e.ResetSlips? {
      ResetForgets(m.log, e.all, rules, key);
    } else if e.Commit? {
      if IsTrade(e.rec, key) { OwnedSeenLast(m.known, rules, e.rec.trade); } else { UnknownBefore(m, e.rec, rules, key); }
      if Seen(Replay(m.known, rules), key) { SeenPlus(m.known, e.rec, rules, key); }
    } else if e.Slip? {
      if !IsTrade(e.rec, key) { UnknownBefore(m, e.rec, rules, key); }
    }
  }

  lemma ResetForgets(log: seq<Entry>, all: bool, rules: Rules, key: T.Key)
    ensures !Seen(Replay(log + [Reset(all)], rules), key)
  {
    assert (log + [Reset(all)])[..|log|] == log;
  }

  lemma OwnedSeenLast(log: seq<Entry>, rules: Rules, t: T.Trade)
    ensures Seen(Replay(log + [Kept(Traded(t))], rules), T.KeyOf(t))
  {
    assert Owns(log + [Kept(Traded(t))], t, |log|);
    OwnedSeen(log + [Kept(Traded(t))], rules, t, |log|);
  }

  lemma UnknownBefore(m: Machine, rec: Rec, rules: Rules, key: T.Key)
    requires !IsTrade(rec, key) && Seen(Replay(m.log + [Kept(rec)], rules), key)
    ensures Seen(Replay(m.log, rules), key)
  {
    if !Seen(Replay(m.log, rules), key) { UnseenPlus(m.log, rec, rules, key); }
  }

  /** What the log remembers and the live state does not was refused since the last restart. */
  lemma {:induction false} UnknownWasSlipped(run: seq<Machine>, events: seq<Event>, rules: Rules, n: nat, key: T.Key)
    requires Behaviour(run, events, rules) && n < |run|
    requires Seen(Replay(run[n].log, rules), key) && !Seen(Replay(run[n].known, rules), key)
    ensures SlippedSince(events, n, key)
  {
    if n > 0 {
      UnknownAt(run, events, rules, n, key);
      if Slips(events[n - 1], key) {
        assert Quiet(events, n, n);
      } else {
        UnknownWasSlipped(run, events, rules, n - 1, key);
        var a :| 0 <= a < n - 1 && a < |events| && Slips(events[a], key) && Quiet(events, a + 1, n - 1);
        assert Quiet(events, a + 1, n);
      }
    }
  }

  /** At b this trade's write failed for good, as the k-th since the last restart. */
  ghost predicate LostAt(run: seq<Machine>, events: seq<Event>, b: nat, n: nat, k: nat, rec: Rec) {
    b < n && b < |events| && b < |run| && events[b] == Lose(rec) && |run[b].lost| == k && NoCrash(events, b + 1, n)
  }

  lemma {:induction false} LostWhen(run: seq<Machine>, events: seq<Event>, rules: Rules, n: nat, k: nat) returns (b: nat)
    requires Behaviour(run, events, rules) && 0 < n < |run| && k < |run[n].lost|
    ensures LostAt(run, events, b, n, k, run[n].lost[k].rec)
  {
    assert Next(run[n - 1], events[n - 1], run[n], rules);
    LostStep(run[n - 1], events[n - 1], run[n], rules, k);
    b := n - 1;
    if n > 1 && k < |run[n - 1].lost| { b := LostWhen(run, events, rules, n - 1, k); }
  }

  lemma LostStep(m: Machine, e: Event, n: Machine, rules: Rules, k: nat)
    requires Next(m, e, n, rules) && k < |n.lost|
    ensures !e.Crash? && if k < |m.lost| then n.lost[k] == m.lost[k] else k == |m.lost| && e == Lose(n.lost[k].rec)
  {
  }

  /** Once its log has stopped, a server only finishes what it has committed, until it is restarted. */
  lemma StoppedOn(run: seq<Machine>, events: seq<Event>, rules: Rules, j: nat)
    requires Behaviour(run, events, rules) && 0 < j < |run| && !events[j - 1].Crash? && run[j - 1].broken
    ensures run[j].broken && run[j].log == run[j - 1].log && run[j - 1].lost <= run[j].lost && !events[j - 1].Slip?
  {
    assert Next(run[j - 1], events[j - 1], run[j], rules);
  }

  lemma {:induction false} StoppedSince(run: seq<Machine>, events: seq<Event>, rules: Rules, i: nat, j: nat)
    requires Behaviour(run, events, rules) && i <= j < |run| && NoCrash(events, i, j) && run[i].broken
    ensures run[j].broken && run[j].log == run[i].log && run[i].lost <= run[j].lost
    ensures forall k :: i <= k < j ==> !events[k].Slip?
    decreases j
  {
    if i < j {
      StoppedSince(run, events, rules, i, j - 1);
      StoppedOn(run, events, rules, j);
    }
  }

  /** By moment n the trade recorded at b is in the log: it was committed, or refused and stored, or its write
      failed and a restart found it. */
  ghost predicate RecordedBy(run: seq<Machine>, events: seq<Event>, b: nat, n: nat, key: T.Key) {
    && b < n && b < |events| && b < |run|
    && (((events[b].Commit? || events[b].Slip?) && IsTrade(events[b].rec, key))
        || (events[b].Lose? && IsTrade(events[b].rec, key) && exists c: nat :: FoundAt(run, events, b, c, n)))
  }

  ghost predicate FoundAt(run: seq<Machine>, events: seq<Event>, b: nat, c: nat, n: nat)
    requires b < |run|
  {
    b < c < n && c < |events| && events[c].Crash? && NoCrash(events, b + 1, c) && events[c].kept > |run[b].lost|
  }

  /** A refused trade was stored, and a further one under its id is recorded before the next restart or
      reset. */
  ghost predicate SlippedThenMade(run: seq<Machine>, events: seq<Event>, n: nat, key: T.Key) {
    exists a: nat, b: nat :: Pair(run, events, a, b, n, key)
  }

  ghost predicate Pair(run: seq<Machine>, events: seq<Event>, a: nat, b: nat, n: nat, key: T.Key) {
    a < b && b < |events| && Slips(events[a], key) && Quiet(events, a + 1, b) && RecordedBy(run, events, b, n, key)
  }

  lemma PairStays(run: seq<Machine>, events: seq<Event>, n: nat, m: nat, key: T.Key)
    requires n <= m && SlippedThenMade(run, events, n, key)
    ensures SlippedThenMade(run, events, m, key)
  {
    var a: nat, b: nat :| Pair(run, events, a, b, n, key);
    if events[b].Lose? {
      var c: nat :| FoundAt(run, events, b, c, n);
      assert FoundAt(run, events, b, c, m);
    }
    assert Pair(run, events, a, b, m, key);
  }

  lemma QuietPart(events: seq<Event>, a: nat, b: nat, c: nat)
    requires Quiet(events, a, c) && b <= c
    ensures Quiet(events, a, b)
  {
  }

  lemma MadeUnknown(m: Machine, e: Event, n: Machine, rules: Rules, key: T.Key)
    requires Inv(m, rules) && Next(m, e, n, rules) && (e.Commit? || e.Slip?) && Twice(n.log, key) && !Twice(m.log, key)
    ensures IsTrade(e.rec, key) && Seen(Replay(m.log, rules), key) && !Seen(Replay(m.known, rules), key)
  {
    TwiceNow(m.log, Kept(e.rec), rules, key);
    NotYetSeen(m, e.rec.trade, rules);
  }

  lemma MadeUnknownAt(run: seq<Machine>, events: seq<Event>, rules: Rules, n: nat, key: T.Key)
    requires Behaviour(run, events, rules) && rules.start >= 0 && 0 < n < |run|
    requires events[n - 1].Commit? || events[n - 1].Slip?
    requires Twice(run[n].log, key) && !Twice(run[n - 1].log, key)
    ensures IsTrade(events[n - 1].rec, key) && Unknown(run[n - 1], rules, key)
  {
    AlwaysInv(run, events, rules, n - 1);
    assert Next(run[n - 1], events[n - 1], run[n], rules);
    MadeUnknown(run[n - 1], events[n - 1], run[n], rules, key);
  }

  lemma MadeTwiceNow(run: seq<Machine>, events: seq<Event>, rules: Rules, n: nat, key: T.Key)
    requires Behaviour(run, events, rules) && rules.start >= 0 && 0 < n < |run|
    requires events[n - 1].Commit? || events[n - 1].Slip?
    requires Twice(run[n].log, key) && !Twice(run[n - 1].log, key)
    ensures SlippedThenMade(run, events, n, key)
  {
    MadeUnknownAt(run, events, rules, n, key);
    UnknownWasSlipped(run, events, rules, n - 1, key);
    SlippedBefore(run, events, n - 1, n, key);
  }

  lemma SlippedBefore(run: seq<Machine>, events: seq<Event>, b: nat, n: nat, key: T.Key)
    requires b < |events| && SlippedSince(events, b, key) && RecordedBy(run, events, b, n, key)
    ensures SlippedThenMade(run, events, n, key)
  {
    var a :| 0 <= a < b && a < |events| && Slips(events[a], key) && Quiet(events, a + 1, b);
    assert Pair(run, events, a, b, n, key);
  }

  lemma NoneRecovered(m: Machine)
    ensures m.log + Records(m.lost[..0]) == m.log && m.log + [] == m.log
  {
  }

  /** The log with the first i of the records whose write failed. */
  function With(m: Machine, i: nat): seq<Entry>
    requires i <= |m.lost|
  {
    m.log + Records(m.lost[..i])
  }

  lemma WithMore(m: Machine, i: nat)
    requires i < |m.lost|
    ensures With(m, i + 1) == With(m, i) + [Kept(m.lost[i].rec)]
  {
  }

  /** None of the first i records whose write failed is a trade of this id. */
  predicate NoneLost(m: Machine, i: nat, key: T.Key) {
    i <= |m.lost| && forall j :: 0 <= j < i ==> !IsTrade(m.lost[j].rec, key)
  }

  lemma OthersLost(m: Machine, k: nat, rules: Rules, key: T.Key)
    requires Inv(m, rules) && k < |m.lost| && IsTrade(m.lost[k].rec, key)
    ensures NoneLost(m, k, key)
  {
    forall j | 0 <= j < k
      ensures !IsTrade(m.lost[j].rec, key)
    {
      if m.lost[j].rec.Traded? { LostOnce(m, j, k, rules); }
    }
  }

  lemma SeenEarlier(m: Machine, i: nat, rules: Rules, key: T.Key)
    requires i < |m.lost| && !IsTrade(m.lost[i].rec, key) && Seen(Replay(With(m, i + 1), rules), key)
    ensures Seen(Replay(With(m, i), rules), key)
  {
    WithMore(m, i);
    if !Seen(Replay(With(m, i), rules), key) { UnseenPlus(With(m, i), m.lost[i].rec, rules, key); }
  }

  lemma OneLess(m: Machine, i: nat, key: T.Key)
    requires NoneLost(m, i, key) && i > 0
    ensures NoneLost(m, i - 1, key) && i - 1 < |m.lost| && !IsTrade(m.lost[i - 1].rec, key)
  {
  }

  lemma {:induction false} SeenBeforeLost(m: Machine, i: nat, rules: Rules, key: T.Key)
    requires NoneLost(m, i, key) && Seen(Replay(With(m, i), rules), key)
    ensures Seen(Replay(m.log, rules), key)
    decreases i
  {
    if i == 0 {
      NoneRecovered(m);
    } else {
      OneLess(m, i, key);
      SeenEarlier(m, i - 1, rules, key);
      SeenBeforeLost(m, i - 1, rules, key);
    }
  }

  /** The first of the recovered records that makes it twice. */
  lemma {:induction false} FirstTwice(m: Machine, kept: nat, rules: Rules, key: T.Key) returns (k: nat)
    requires Inv(m, rules) && kept <= |m.lost| && Twice(With(m, kept), key) && !Twice(m.log, key)
    ensures k < kept && IsTrade(m.lost[k].rec, key) && Seen(Replay(m.log, rules), key)
  {
    k := 0;
    if kept == 0 {
      NoneRecovered(m);
    } else if Twice(With(m, kept - 1), key) {
      k := FirstTwice(m, kept - 1, rules, key);
    } else {
      k := kept - 1;
      WithMore(m, k);
      TwiceNow(With(m, k), Kept(m.lost[k].rec), rules, key);
      OthersLost(m, k, rules, key);
      SeenBeforeLost(m, k, rules, key);
    }
  }

  lemma FoundUnknown(m: Machine, k: nat, rules: Rules, key: T.Key)
    requires Inv(m, rules) && k < |m.lost| && IsTrade(m.lost[k].rec, key)
    ensures !Seen(Replay(m.known, rules), key)
  {
    LostUnseen(m, k, m.lost[k].rec.trade, rules);
  }

  /** What a restart found that makes it twice was a failed write, and the live state missed its id. */
  lemma FoundLoss(m: Machine, e: Event, n: Machine, rules: Rules, key: T.Key) returns (k: nat)
    requires Inv(m, rules) && Next(m, e, n, rules) && e.Crash? && Twice(n.log, key) && !Twice(m.log, key)
    ensures k < |m.lost| && k < e.kept && IsTrade(m.lost[k].rec, key) && Unknown(m, rules, key)
  {
    RecoveredNoReset(m, e.kept, rules, key);
    k := FirstTwice(m, e.kept, rules, key);
    FoundUnknown(m, k, rules, key);
  }

  lemma FoundTwiceNow(run: seq<Machine>, events: seq<Event>, rules: Rules, n: nat, key: T.Key)
    requires Behaviour(run, events, rules) && rules.start >= 0 && 0 < n < |run| && events[n - 1].Crash?
    requires Twice(run[n].log, key) && !Twice(run[n - 1].log, key)
    ensures SlippedThenMade(run, events, n, key)
  {
    assert Next(run[n - 1], events[n - 1], run[n], rules);
    AlwaysInv(run, events, rules, n - 1);
    var k := FoundLoss(run[n - 1], events[n - 1], run[n], rules, key);
    LossWasSlipped(run, events, rules, n, k, key);
  }

  lemma LossWasSlipped(run: seq<Machine>, events: seq<Event>, rules: Rules, n: nat, k: nat, key: T.Key)
    requires Behaviour(run, events, rules) && rules.start >= 0 && 0 < n < |run| && events[n - 1].Crash?
    requires k < |run[n - 1].lost| && k < events[n - 1].kept && IsTrade(run[n - 1].lost[k].rec, key) && Unknown(run[n - 1], rules, key)
    ensures SlippedThenMade(run, events, n, key)
  {
    UnknownWasSlipped(run, events, rules, n - 1, key);
    var a :| 0 <= a < n - 1 && a < |events| && Slips(events[a], key) && Quiet(events, a + 1, n - 1);
    var b := LostWhen(run, events, rules, n - 1, k);
    SlipBeforeLoss(run, events, rules, a, b, n - 1, k, run[n - 1].lost[k].rec);
    QuietPart(events, a + 1, b, n - 1);
    assert FoundAt(run, events, b, n - 1, n);
    assert Pair(run, events, a, b, n, key);
  }

  lemma RecoveredNoReset(m: Machine, kept: nat, rules: Rules, key: T.Key)
    requires Inv(m, rules) && kept <= (if m.limbo.Some? then 1 else |m.lost|)
    requires Twice(m.log + Recovered(m, kept), key) && !Twice(m.log, key)
    ensures m.limbo.None?
  {
    if m.limbo.Some? {
      if kept == 0 { NoneRecovered(m); } else { TwiceNow(m.log, Reset(m.limbo.value), rules, key); }
    }
  }

  lemma SlipBeforeLoss(run: seq<Machine>, events: seq<Event>, rules: Rules, a: nat, b: nat, n: nat, k: nat, rec: Rec)
    requires Behaviour(run, events, rules) && a < n < |run| && events[a].Slip? && LostAt(run, events, b, n, k, rec)
    ensures a < b
  {
    assert Next(run[b], events[b], run[b + 1], rules);
    if b < a { StoppedSince(run, events, rules, b + 1, n); }
  }

  lemma TwiceStep(run: seq<Machine>, events: seq<Event>, rules: Rules, n: nat, key: T.Key)
    requires Behaviour(run, events, rules) && rules.start >= 0 && 0 < n < |run|
    requires Twice(run[n].log, key) && !Twice(run[n - 1].log, key)
    ensures SlippedThenMade(run, events, n, key)
  {
    var m, e := run[n - 1], events[n - 1];
    assert Next(m, e, run[n], rules);
    if e.Commit? || e.Slip? {
      MadeTwiceNow(run, events, rules, n, key);
    } else if e.Crash? {
      FoundTwiceNow(run, events, rules, n, key);
    } else if e.ResetEvent? || e.ResetSlips? {
      TwiceNow(m.log, Reset(e.all), rules, key);
    }
  }

  lemma {:induction false} TwiceWasSlipped(run: seq<Machine>, events: seq<Event>, rules: Rules, n: nat, key: T.Key)
    requires Behaviour(run, events, rules) && rules.start >= 0 && n < |run| && Twice(run[n].log, key)
    ensures SlippedThenMade(run, events, n, key)
  {
    if n > 0 {
      if Twice(run[n - 1].log, key) {
        TwiceWasSlipped(run, events, rules, n - 1, key);
        PairStays(run, events, n - 1, n, key);
      } else {
        TwiceStep(run, events, rules, n, key);
      }
    }
  }

  // and the other way

  /** From one moment to another the records have only been added to, without a reset. */
  predicate Grown(a: seq<Entry>, b: seq<Entry>) { a <= b && forall k :: |a| <= k < |b| ==> b[k].Kept? }

  lemma GrownOn(a: seq<Entry>, b: seq<Entry>, c: seq<Entry>)
    requires Grown(a, b) && Grown(b, c)
    ensures Grown(a, c)
  {
  }

  lemma LogGrownAt(run: seq<Machine>, events: seq<Event>, rules: Rules, j: nat)
    requires Behaviour(run, events, rules) && 0 < j < |run|
    ensures Quiet(events, j - 1, j) ==> Grown(run[j - 1].log, run[j].log)
  {
    assert Next(run[j - 1], events[j - 1], run[j], rules);
  }

  /** The log has only been added to. */
  predicate Longer(m: Machine, n: Machine) { m.log <= n.log }

  lemma LongerOn(m: Machine, n: Machine, o: Machine)
    requires Longer(m, n) && Longer(n, o)
    ensures Longer(m, o)
  {
  }

  lemma LongerSelf(m: Machine)
    ensures Longer(m, m)
  {
  }

  lemma LogLongerAt(run: seq<Machine>, events: seq<Event>, rules: Rules, j: nat)
    requires Behaviour(run, events, rules) && 0 < j < |run|
    ensures Longer(run[j - 1], run[j])
  {
    assert Next(run[j - 1], events[j - 1], run[j], rules);
  }

  lemma {:induction false} LogGrown(run: seq<Machine>, events: seq<Event>, rules: Rules, i: nat, j: nat)
    requires Behaviour(run, events, rules) && i <= j < |run| && Quiet(events, i, j)
    ensures Grown(run[i].log, run[j].log)
    decreases j
  {
    if i < j {
      LogGrown(run, events, rules, i, j - 1);
      LogGrownAt(run, events, rules, j);
      GrownOn(run[i].log, run[j - 1].log, run[j].log);
    }
  }

  ghost predicate Chain(run: seq<Machine>) { forall k :: 0 < k < |run| ==> Longer(run[k - 1], run[k]) }

  lemma {:induction false} ChainLonger(run: seq<Machine>, i: nat, j: nat)
    requires Chain(run) && i <= j < |run|
    ensures Longer(run[i], run[j])
    decreases j
  {
    if i == j {
      LongerSelf(run[i]);
    } else {
      ChainLonger(run, i, j - 1);
      LongerOn(run[i], run[j - 1], run[j]);
    }
  }

  lemma LogLonger(run: seq<Machine>, events: seq<Event>, rules: Rules, i: nat, j: nat)
    requires Behaviour(run, events, rules) && i <= j < |run|
    ensures Longer(run[i], run[j])
  {
    forall k | 0 < k < |run|
      ensures Longer(run[k - 1], run[k])
    {
      LogLongerAt(run, events, rules, k);
    }
    ChainLonger(run, i, j);
  }

  /** The log at b holds the refused trade, and no reset after it. */
  lemma SlippedHeld(run: seq<Machine>, events: seq<Event>, rules: Rules, a: nat, b: nat, key: T.Key)
    requires Behaviour(run, events, rules) && a < b < |run| && Slips(events[a], key) && Quiet(events, a + 1, b)
    ensures var i := |run[a].log|;
            i < |run[b].log| && IsTradeEntry(run[b].log[i], key) && forall k :: i < k < |run[b].log| ==> run[b].log[k].Kept?
  {
    assert Next(run[a], events[a], run[a + 1], rules);
    LogGrown(run, events, rules, a + 1, b);
  }

  lemma TwiceMade(log: seq<Entry>, i: nat, more: seq<Entry>, k: nat, key: T.Key)
    requires i < |log| && IsTradeEntry(log[i], key) && forall m :: i < m < |log| ==> log[m].Kept?
    requires k < |more| && IsTradeEntry(more[k], key) && forall m :: 0 <= m < |more| ==> more[m].Kept?
    ensures Twice(log + more, key)
  {
    assert TwiceAt(log + more, key, i, |log| + k);
  }

  lemma FoundIsTwice(run: seq<Machine>, events: seq<Event>, rules: Rules, a: nat, b: nat, c: nat, n: nat, key: T.Key)
    requires Behaviour(run, events, rules) && rules.start >= 0 && n < |run|
    requires Pair(run, events, a, b, n, key) && events[b].Lose? && FoundAt(run, events, b, c, n)
    ensures Twice(run[n].log, key)
  {
    LostHeld(run, events, rules, b, c);
    FoundAdds(run, events, rules, b, c);
    SlippedHeld(run, events, rules, a, b, key);
    TwiceMade(run[c].log, |run[a].log|, Records(run[c].lost[..events[c].kept]), |run[b].lost|, key);
    LogLonger(run, events, rules, c + 1, n);
    TwiceStays(run[c + 1].log, run[n].log, key);
  }

  /** What failed at b is still among the failed writes at c. */
  lemma LostHeld(run: seq<Machine>, events: seq<Event>, rules: Rules, b: nat, c: nat)
    requires Behaviour(run, events, rules) && b < c < |run| && events[b].Lose? && NoCrash(events, b + 1, c)
    ensures |run[b].lost| < |run[c].lost| && run[c].lost[|run[b].lost|].rec == events[b].rec && run[c].log == run[b].log
  {
    assert Next(run[b], events[b], run[b + 1], rules);
    StoppedSince(run, events, rules, b + 1, c);
  }

  /** A restart at c that finds it adds it and what failed before it. */
  lemma FoundAdds(run: seq<Machine>, events: seq<Event>, rules: Rules, b: nat, c: nat)
    requires Behaviour(run, events, rules) && rules.start >= 0 && b < c < |run| && c < |events| && events[c].Crash?
    requires |run[b].lost| < |run[c].lost| && events[c].kept > |run[b].lost|
    ensures events[c].kept <= |run[c].lost| && run[c + 1].log == run[c].log + Records(run[c].lost[..events[c].kept])
  {
    AlwaysInv(run, events, rules, c);
    assert Next(run[c], events[c], run[c + 1], rules);
  }

  lemma PairIsTwice(run: seq<Machine>, events: seq<Event>, rules: Rules, a: nat, b: nat, n: nat, key: T.Key)
    requires Behaviour(run, events, rules) && rules.start >= 0 && n < |run| && Pair(run, events, a, b, n, key)
    ensures Twice(run[n].log, key)
  {
    if events[b].Lose? {
      var c: nat :| FoundAt(run, events, b, c, n);
      FoundIsTwice(run, events, rules, a, b, c, n, key);
    } else {
      assert Next(run[b], events[b], run[b + 1], rules);
      SlippedHeld(run, events, rules, a, b, key);
      TwiceMade(run[b].log, |run[a].log|, [Kept(events[b].rec)], 0, key);
      LogLonger(run, events, rules, b + 1, n);
      TwiceStays(run[b + 1].log, run[n].log, key);
    }
  }

  /** Over every run: the log has two trades of one client trade id with no reset between them if and only if
      a trade under it was refused although it was stored, and a further one was recorded under it before the
      next restart or reset. */
  lemma TwiceIff(run: seq<Machine>, events: seq<Event>, rules: Rules, n: nat, key: T.Key)
    requires Behaviour(run, events, rules) && rules.start >= 0 && n < |run|
    ensures Twice(run[n].log, key) <==> SlippedThenMade(run, events, n, key)
  {
    if Twice(run[n].log, key) { TwiceWasSlipped(run, events, rules, n, key); }
    if SlippedThenMade(run, events, n, key) {
      var a: nat, b: nat :| Pair(run, events, a, b, n, key);
      PairIsTwice(run, events, rules, a, b, n, key);
    }
  }

  // ---- when a restart would restore something else ----

  /** What is known and what is on disk restore to the same. */
  ghost predicate Agree(m: Machine, rules: Rules) { Replay(m.log, rules) == Replay(m.known, rules) }

  ghost predicate NoneSlipped(events: seq<Event>, c: nat, i: nat) {
    forall k :: c <= k < i && k < |events| ==> !events[k].Slip? && !events[k].ResetSlips?
  }

  lemma AgreePlus(a: seq<Entry>, b: seq<Entry>, e: Entry, rules: Rules)
    requires Replay(a, rules) == Replay(b, rules)
    ensures Replay(a + [e], rules) == Replay(b + [e], rules)
  {
    assert (a + [e])[..|a|] == a && (b + [e])[..|b|] == b;
  }

  lemma AgreeOn(m: Machine, e: Event, n: Machine, rules: Rules)
    requires Next(m, e, n, rules) && Agree(m, rules) && !e.Slip? && !e.ResetSlips?
    ensures Agree(n, rules)
  {
    if e.Commit? { AgreePlus(m.log, m.known, Kept(e.rec), rules); }
    if e.ResetEvent? { AgreePlus(m.log, m.known, Reset(e.all), rules); }
  }

  lemma {:induction false} Upward(ok: nat -> bool, c: nat, i: nat)
    requires c <= i && ok(c) && forall k: nat :: c < k <= i && ok(k - 1) ==> ok(k)
    ensures ok(i)
    decreases i
  {
    if c < i { Upward(ok, c, i - 1); }
  }

  ghost predicate AgreeAt(run: seq<Machine>, rules: Rules, k: nat) { k < |run| && Agree(run[k], rules) }

  lemma AgreeNext(run: seq<Machine>, events: seq<Event>, rules: Rules, k: nat)
    requires Behaviour(run, events, rules) && 0 < k < |run| && AgreeAt(run, rules, k - 1)
    requires !events[k - 1].Slip? && !events[k - 1].ResetSlips?
    ensures AgreeAt(run, rules, k)
  {
    assert Next(run[k - 1], events[k - 1], run[k], rules);
    AgreeOn(run[k - 1], events[k - 1], run[k], rules);
  }

  lemma AgreeSince(run: seq<Machine>, events: seq<Event>, rules: Rules, c: nat, i: nat)
    requires Behaviour(run, events, rules) && c <= i < |run| && AgreeAt(run, rules, c) && NoneSlipped(events, c, i)
    ensures AgreeAt(run, rules, i)
  {
    var ok := (k: nat) => AgreeAt(run, rules, k);
    forall k: nat | c < k <= i && ok(k - 1)
      ensures ok(k)
    {
      AgreeNext(run, events, rules, k);
    }
    Upward(ok, c, i);
  }

  lemma {:induction false} LaunchStays(log: seq<Entry>, rules: Rules)
    ensures Replay(log, rules).book.launch == rules.launch
  {
    if log != [] {
      var past := log[..|log| - 1];
      LaunchStays(past, rules);
      if log[|log| - 1].Kept? {
        LaunchKept(Effects(log[|log| - 1].rec, Replay(past, rules).book, rules), Replay(past, rules));
      }
    }
  }

  lemma {:induction false} LaunchKept(ms: seq<Micro>, s: Sys)
    ensures DoAll(ms, s).book.launch == s.book.launch
  {
    if ms != [] {
      if ms[0].Funds? { BookLaunch(s.book, ms[0].ev); }
      LaunchKept(ms[1..], Do(ms[0], s));
    }
  }

  lemma BookLaunch(b: B.Book, ev: B.Event)
    ensures B.Step(b, ev).0.launch == b.launch
  {
    if ev.Forming? {
      FundsLaunch(b, ev.funds);
      SeedsLaunch(B.AddFunds(b, ev.funds).(formed := true, seedMoves := ev.moves), ev.seeds);
    } else if ev.Checkpoint? {
      RowsLaunch(b, ev.rows);
    }
  }

  lemma {:induction false} FundsLaunch(b: B.Book, fs: seq<B.Formed>)
    ensures B.AddFunds(b, fs).launch == b.launch
  {
    if fs != [] { FundsLaunch(b, fs[..|fs| - 1]); }
  }

  lemma {:induction false} SeedsLaunch(b: B.Book, seeds: seq<B.SeedUnits>)
    ensures B.AddSeeds(b, seeds).0.launch == b.launch
  {
    if seeds != [] { SeedsLaunch(b, seeds[..|seeds| - 1]); }
  }

  lemma {:induction false} RowsLaunch(b: B.Book, rows: seq<B.FundCheckpoint>)
    ensures B.WithRows(b, rows).launch == b.launch
  {
    if rows != [] { RowsLaunch(b, rows[..|rows| - 1]); }
  }

  /** The same reset leads to the same from two logs exactly when it drops the teams or they knew the same ones. */
  lemma ResetAgrees(a: seq<Entry>, b: seq<Entry>, all: bool, rules: Rules)
    ensures Replay(a + [Reset(all)], rules) == Replay(b + [Reset(all)], rules)
       <==> (!all ==> Replay(a, rules).users == Replay(b, rules).users)
  {
    assert (a + [Reset(all)])[..|a|] == a && (b + [Reset(all)])[..|b|] == b;
    LaunchStays(a, rules);
    LaunchStays(b, rules);
  }

  lemma AgreeStep(m: Machine, e: Event, n: Machine, rules: Rules)
    requires Next(m, e, n, rules) && (e.Crash? || e.ResetEvent?)
    ensures Agree(n, rules) <==> (e == ResetEvent(false) ==> Replay(m.log, rules).users == Replay(m.known, rules).users)
  {
    if e.ResetEvent? { ResetAgrees(m.log, m.known, e.all, rules); }
  }

  /** The two agree at the start, after every restart, and after a reset that drops the teams, or when no
      registration is known to one only. */
  lemma AgreeAgain(run: seq<Machine>, events: seq<Event>, rules: Rules, c: nat)
    requires Behaviour(run, events, rules) && c < |run|
    requires c > 0 ==> events[c - 1].Crash? || events[c - 1].ResetEvent?
    ensures Agree(run[c], rules)
       <==> (c > 0 && events[c - 1] == ResetEvent(false) ==>
               Replay(run[c - 1].log, rules).users == Replay(run[c - 1].known, rules).users)
  {
    if c > 0 {
      assert Next(run[c - 1], events[c - 1], run[c], rules);
      AgreeStep(run[c - 1], events[c - 1], run[c], rules);
    }
  }

  /** Since then nothing was restarted, reset or traded under that id. */
  ghost predicate LeftAlone(events: seq<Event>, key: T.Key, i: nat, j: nat) {
    Quiet(events, i, j) && forall k :: i <= k < j && k < |events| && events[k].Commit? ==> !IsTrade(events[k].rec, key)
  }

  lemma UnseenAt(run: seq<Machine>, events: seq<Event>, rules: Rules, j: nat, key: T.Key)
    requires Behaviour(run, events, rules) && 0 < j < |run| && LeftAlone(events, key, j - 1, j)
    requires !Seen(Replay(run[j - 1].known, rules), key)
    ensures !Seen(Replay(run[j].known, rules), key)
  {
    assert Next(run[j - 1], events[j - 1], run[j], rules);
    if events[j - 1].Commit? { UnseenPlus(run[j - 1].known, events[j - 1].rec, rules, key); }
  }

  lemma {:induction false} UnseenSince(run: seq<Machine>, events: seq<Event>, rules: Rules, i: nat, j: nat, key: T.Key)
    requires Behaviour(run, events, rules) && i <= j < |run| && LeftAlone(events, key, i, j)
    requires !Seen(Replay(run[i].known, rules), key)
    ensures !Seen(Replay(run[j].known, rules), key)
    decreases j
  {
    if i < j {
      UnseenSince(run, events, rules, i, j - 1, key);
      UnseenAt(run, events, rules, j, key);
    }
  }

  /** A refused trade that was stored all the same stays in the restore and out of the live state. */
  lemma SlippedShows(run: seq<Machine>, events: seq<Event>, rules: Rules, j: nat, i: nat, t: T.Trade)
    requires Behaviour(run, events, rules) && rules.start >= 0 && j < i < |run| && events[j] == Slip(Traded(t))
    requires LeftAlone(events, T.KeyOf(t), j + 1, i)
    ensures Seen(Replay(run[i].log, rules), T.KeyOf(t)) && !Seen(Replay(run[i].known, rules), T.KeyOf(t))
  {
    AlwaysInv(run, events, rules, j);
    assert Next(run[j], events[j], run[j + 1], rules);
    NotYetSeen(run[j], t, rules);
    UnseenSince(run, events, rules, j + 1, i, T.KeyOf(t));
    SlippedHeld(run, events, rules, j, i, T.KeyOf(t));
    SeenAfter(run[i].log, rules, |run[j].log|);
  }

  /** One of the records refused since then is a trade that has been left alone. */
  ghost predicate OneLeftAlone(events: seq<Event>, c: nat, i: nat) {
    exists j :: c <= j < i && j < |events| && events[j].Slip? && events[j].rec.Traded?
                && LeftAlone(events, T.KeyOf(events[j].rec.trade), j + 1, i)
  }

  /** Count from a moment at which the two agreed, such as the last restart. If stored records have been
      refused since, let one of them be a trade not made again yet. Then at rest the live state is what a
      restart would restore if and only if there were none. */
  lemma LiveIsReplayIff(run: seq<Machine>, events: seq<Event>, rules: Rules, c: nat, i: nat)
    requires Behaviour(run, events, rules) && rules.start >= 0 && c <= i < |run| && AtRest(run[i]) && Agree(run[c], rules)
    requires NoneSlipped(events, c, i) || OneLeftAlone(events, c, i)
    ensures run[i].live == Replay(run[i].log, rules) <==> NoneSlipped(events, c, i)
  {
    LiveIsReplay(run, events, rules, i);
    if NoneSlipped(events, c, i) {
      AgreeSince(run, events, rules, c, i);
    } else {
      var j :| c <= j < i && j < |events| && events[j].Slip? && events[j].rec.Traded?
               && LeftAlone(events, T.KeyOf(events[j].rec.trade), j + 1, i);
      SlippedShows(run, events, rules, j, i, events[j].rec.trade);
    }
  }

  // ---- a run in which a trade is made twice ----

  ghost predicate Reachable(m: Machine, rules: Rules) {
    exists run, events :: Behaviour(run, events, rules) && run[|run| - 1] == m
  }

  lemma ReachStart(rules: Rules)
    ensures Reachable(Start(rules), rules)
  {
    assert Behaviour([Start(rules)], [], rules);
  }

  lemma Onward(m: Machine, e: Event, n: Machine, rules: Rules)
    requires Reachable(m, rules) && Next(m, e, n, rules)
    ensures Reachable(n, rules)
  {
    var run, events :| Behaviour(run, events, rules) && run[|run| - 1] == m;
    var run', events' := run + [n], events + [e];
    forall i | 0 <= i < |events'|
      ensures Next(run'[i], events'[i], run'[i + 1], rules)
    {
      if i < |events| { assert run'[i] == run[i] && run'[i + 1] == run[i + 1] && events'[i] == events[i]; }
    }
    assert Behaviour(run', events', rules);
  }

  // a team with 100 paise buys a share at 60; the write is refused, so the client tries again

  const SMALL := Rules(100, 0, 1.0)

  function Buying(id: string): T.Trade { T.Trade(id, "c", "a", "X", T.Buy, 1, 60, "", 0) }

  function Registered(): Sys { Sys(map["a" := L.Acct(100, map[])], B.Empty(1.0), map[], {"a"}) }

  function BuySteps(id: string): seq<Micro> { [Led(T.LedgerOp(Buying(id))), Mark(Buying(id))] }

  lemma RegisterReached()
    ensures Reachable(Machine(Registered(), [[]], [Kept(Register("a"))], [Kept(Register("a"))], [], None, false), SMALL)
  {
    var steps, log := [Join("a"), Led(L.Open("a", 100))], [Kept(Register("a"))];
    var empty := Fresh(SMALL);
    var m1 := Machine(empty, [steps], log, log, [], None, false);
    var m2 := Machine(empty.(users := {"a"}), [[Led(L.Open("a", 100))]], log, log, [], None, false);
    ReachStart(SMALL);
    assert steps[1..] == [Led(L.Open("a", 100))] && steps[1..][1..] == [];
    assert ReadyAll(steps, empty);
    assert Held([]) == {} && [] + Steps([]) == [];
    Onward(Start(SMALL), Commit(Register("a")), m1, SMALL);
    assert m1.pending[0 := steps[1..]] == m2.pending;
    Onward(m1, Take(0), m2, SMALL);
    assert m2.pending[0 := []] == [[]];
    Onward(m2, Take(0), Machine(Registered(), [[]], log, log, [], None, false), SMALL);
  }

  lemma BuyReady(id: string)
    ensures ReadyAll(BuySteps(id), Registered()) && FootAll(BuySteps(id)) !! Held([[]] + Steps([]))
  {
    var ms := BuySteps(id);
    assert ms[1..] == [Mark(Buying(id))] && ms[1..][1..] == [];
    assert ReadyAll(ms[1..], Do(ms[0], Registered()));
    assert [[]] + Steps([]) == [[]];
    assert FootAll([]) == {} && Held([[]]) == {};
  }

  function Bought(s: Sys, id: string): Sys { DoAll(BuySteps(id), s) }

  lemma BuyCosts(s: Sys, id: string)
    requires "a" in s.accounts
    ensures "a" in Bought(s, id).accounts && Bought(s, id).accounts["a"].cash == s.accounts["a"].cash - 60
  {
    var ms := BuySteps(id);
    assert ms[1..] == [Mark(Buying(id))] && ms[1..][1..] == [];
    assert DoAll(ms, s) == DoAll(ms[1..], Do(ms[0], s)) == Do(Mark(Buying(id)), Do(ms[0], s));
  }

  lemma ReplayPlus(log: seq<Entry>, rec: Rec, rules: Rules)
    ensures Replay(log + [Kept(rec)], rules) == DoAll(Effects(rec, Replay(log, rules).book, rules), Replay(log, rules))
  {
    assert (log + [Kept(rec)])[..|log|] == log;
  }

  /** The refused trade was stored, and its retry is made and stored too: after a restart the team has
      bought twice and has less than no cash. */
  lemma SlippedTradeRunsTwice()
    ensures exists m :: Reachable(m, SMALL) && "a" in m.live.accounts && m.live.accounts["a"].cash == -20
  {
    var one, two, reg := Kept(Traded(Buying("1"))), Kept(Traded(Buying("2"))), [Kept(Register("a"))];
    var m3 := Machine(Registered(), [[]], reg, reg, [], None, false);
    var m4 := m3.(log := reg + [one]);
    var m5 := m4.(log := reg + [one] + [two], known := reg + [two], pending := [[]] + [BuySteps("2")]);
    RegisterReached();
    BuyReady("1");
    Onward(m3, Slip(Traded(Buying("1"))), m4, SMALL);
    BuyReady("2");
    Onward(m4, Commit(Traded(Buying("2"))), m5, SMALL);
    var log := m5.log + Records([]);
    assert log == m5.log;
    var m6 := Machine(Replay(log, SMALL), [], log, log, [], None, false);
    Onward(m5, Crash(0), m6, SMALL);
    AlwaysRegistered();
    ReplayPlus(reg, Traded(Buying("1")), SMALL);
    BuyCosts(Registered(), "1");
    ReplayPlus(reg + [one], Traded(Buying("2")), SMALL);
    BuyCosts(Bought(Registered(), "1"), "2");
  }

  lemma AlwaysRegistered()
    ensures Replay([Kept(Register("a"))], SMALL) == Registered()
  {
    var steps, log := [Join("a"), Led(L.Open("a", 100))], [Kept(Register("a"))];
    assert steps[1..] == [Led(L.Open("a", 100))] && steps[1..][1..] == [];
    assert log[..0] == [];
    var s := Fresh(SMALL);
    assert DoAll(steps, s) == DoAll(steps[1..], Do(steps[0], s)) == DoAll([], Do(steps[1], Do(steps[0], s)));
  }
}

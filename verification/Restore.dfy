/** What a record does when it is replayed, against what the operation that wrote it did: the trading service, the
    fund desk, the organisers' corrections, and the formation of the funds. */
module Restore {
  import opened Numeric
  import opened Platform
  import L = Ledger
  import T = Trading
  import B = FundBook
  import F = Formation
  import Q = Liquidation
  import D = FundFlows
  import R = Retries

  // ---- replaying from a state on ----

  function ReplayOn(s: Sys, es: seq<Entry>, rules: Rules): Sys {
    if es == [] then s else ReplayOne(es[|es| - 1], ReplayOn(s, es[..|es| - 1], rules), rules)
  }

  /** Replaying a log and then more is replaying both. */
  lemma {:induction false} ReplayPlus(log: seq<Entry>, more: seq<Entry>, rules: Rules)
    ensures Replay(log + more, rules) == ReplayOn(Replay(log, rules), more, rules)
  {
    if more == [] {
      assert log + more == log;
    } else {
      ReplayPlus(log, more[..|more| - 1], rules);
      assert (log + more)[..|log + more| - 1] == log + more[..|more| - 1];
    }
  }

  lemma OneMore(s: Sys, es: seq<Entry>, e: Entry, rules: Rules)
    ensures ReplayOn(s, es + [e], rules) == ReplayOne(e, ReplayOn(s, es, rules), rules)
  {
    assert (es + [e])[..|es|] == es;
  }

  // ---- trades ----

  /** The platform has the executor's balances, and remembers the trades it remembers. */
  ghost predicate Holds(s: Sys, st: T.State) { s.accounts == st.accounts && R.Remembers(st, s) }

  ghost predicate OnlyTrading(s: Sys, u: Sys) { u.book == s.book && u.users == s.users }

  lemma MarkRemembers(st: T.State, s: Sys, t: T.Trade)
    requires R.Remembers(st, s)
    ensures R.Remembers(T.Extended(st, t), Do(Mark(t), s))
  {
    var n, u := T.Extended(st, t), Do(Mark(t), s);
    forall key: T.Key
      ensures key in n.seen <==> R.Seen(u, key)
      ensures key in n.seen ==> n.seen[key] == T.Entry(T.PrintOf(SeenBy(u, key.0)[key.1]), SeenBy(u, key.0)[key.1])
    {
      if key == T.KeyOf(t) { assert SeenBy(u, t.account)[t.clientId] == t; } else { assert key in n.seen <==> key in st.seen; }
    }
  }

  /** Replaying a trade's record does to balances and remembered ids what the executor did. */
  lemma TradeReplayed(s: Sys, st: T.State, t: T.Trade, rules: Rules)
    requires Holds(s, st)
    ensures var u := ReplayOne(Kept(Traded(t)), s, rules); Holds(u, T.Extended(st, t)) && OnlyTrading(s, u)
  {
    var ms, led := [Led(T.LedgerOp(t)), Mark(t)], Do(Led(T.LedgerOp(t)), s);
    assert ms[1..] == [Mark(t)] && ms[1..][1..] == [];
    assert DoAll(ms, s) == DoAll(ms[1..], led) == Do(Mark(t), led);
    assert forall key: T.Key :: SeenBy(led, key.0) == SeenBy(s, key.0);
    MarkRemembers(st, led, t);
    MarkRemembers(st, s, t);
  }

  /** Whatever is asked of it: the trading service's new state is the replay of the trade it made, if any. */
  lemma TradeRestored(s: Sys, st: T.State, r: T.Request, w: T.World, rules: Rules)
    requires Holds(s, st)
    ensures var (t, reply) := T.Exec(st, r, w);
            var made := if reply.Traded? && !reply.deduped then [reply.trade] else [];
            t.log == st.log + made && Holds(ReplayOn(s, Entries(made), rules), t) && OnlyTrading(s, ReplayOn(s, Entries(made), rules))
  {
    var (t, reply) := T.Exec(st, r, w);
    T.ExecEither(st, r, w);
    if reply.Traded? && !reply.deduped {
      TradeReplayed(s, st, reply.trade, rules);
      assert Entries([reply.trade]) == [] + [Kept(Traded(reply.trade))];
      OneMore(s, [], Kept(Traded(reply.trade)), rules);
    } else {
      assert st.log + [] == st.log && Entries([]) == [];
    }
  }

  function Entries(ts: seq<T.Trade>): seq<Entry> { seq(|ts|, i requires 0 <= i < |ts| => Kept(Traded(ts[i]))) }

  lemma EntriesPlus(a: seq<T.Trade>, b: seq<T.Trade>)
    ensures Entries(a + b) == Entries(a) + Entries(b)
  {
  }

  lemma {:induction false} ReplayOnPlus(s: Sys, a: seq<Entry>, b: seq<Entry>, rules: Rules)
    ensures ReplayOn(s, a + b, rules) == ReplayOn(ReplayOn(s, a, rules), b, rules)
  {
    if b == [] {
      assert a + b == a;
    } else {
      ReplayOnPlus(s, a, b[..|b| - 1], rules);
      assert (a + b)[..|a + b| - 1] == a + b[..|b| - 1];
    }
  }

  // ---- investing and redeeming ----

  /** The platform and the desk have the same balances, remembered trades and book. */
  ghost predicate SameShop(s: Sys, shop: D.Shop) { Holds(s, shop.trading) && s.book == shop.book }

  /** Replaying an investment's record does what the desk did, which changes nothing if it was refused. */
  lemma AllocRestored(s: Sys, shop: D.Shop, q: D.Ask, room: int, terms: D.Terms, m: D.Market, up: bool, rules: Rules)
    requires SameShop(s, shop)
    ensures var (t, a) := D.Allocated(shop, q, room, terms, m, up);
            var u := if a.Done? then ReplayOne(Kept(FundEvent(D.AllocEvent(q, a))), s, rules) else s;
            SameShop(u, t) && u.users == s.users
  {
    var (t, a) := D.Allocated(shop, q, room, terms, m, up);
    D.AllocDone(shop.trading.accounts, shop.book, q, room, terms, m, up);
    if a.Done? { FundMove(s, D.AllocEvent(q, a), L.Move(q.investor, shop.book.funds[q.fund].formed.account, a.amount), rules); }
  }

  lemma FundMove(s: Sys, ev: B.Event, op: L.Op, rules: Rules)
    requires FundEffects(ev, s.book, rules) == [Led(op), Funds(ev)]
    ensures ReplayOne(Kept(FundEvent(ev)), s, rules) == s.(accounts := L.Apply(op, s.accounts), book := B.Step(s.book, ev).0)
  {
    var ms := [Led(op), Funds(ev)];
    assert ms[1..] == [Funds(ev)] && ms[1..][1..] == [];
    assert DoAll(ms, s) == DoAll(ms[1..], Do(Led(op), s)) == Do(Funds(ev), Do(Led(op), s));
  }

  /** The executor after these trades. */
  function TradesMade(st: T.State, ts: seq<T.Trade>): T.State {
    if ts == [] then st else T.Extended(TradesMade(st, ts[..|ts| - 1]), ts[|ts| - 1])
  }

  lemma MadePlus(st: T.State, a: seq<T.Trade>, t: T.Trade)
    ensures TradesMade(st, a + [t]) == T.Extended(TradesMade(st, a), t)
  {
    assert (a + [t])[..|a|] == a;
  }

  lemma {:induction false} MadeOn(st: T.State, a: seq<T.Trade>, b: seq<T.Trade>)
    ensures TradesMade(st, a + b) == TradesMade(TradesMade(st, a), b)
  {
    if b == [] {
      assert a + b == a;
    } else {
      MadeOn(st, a, b[..|b| - 1]);
      assert (a + b)[..|a + b| - 1] == a + b[..|b| - 1];
    }
  }

  lemma {:induction false} MadeLog(st: T.State, ts: seq<T.Trade>)
    ensures TradesMade(st, ts).log == st.log + ts
  {
    if ts != [] {
      MadeLog(st, ts[..|ts| - 1]);
      assert st.log + ts[..|ts| - 1] + [ts[|ts| - 1]] == st.log + ts;
    } else {
      assert st.log + ts == st.log;
    }
  }

  lemma SaleMade(st: T.State, env: Q.Env, account: string, stage: string, symbol: string, qty: int) returns (ts: seq<T.Trade>)
    ensures Q.Sales(env, account, stage)(st, symbol, qty).0 == TradesMade(st, ts)
  {
    var r, w := Q.Order(env, account, symbol, qty, stage), env(symbol);
    var (t, reply) := T.Exec(st, r, w);
    T.ExecEither(st, r, w);
    ts := if reply.Traded? && !reply.deduped then [reply.trade] else [];
    if ts != [] { MadePlus(st, [], reply.trade); assert [] + [reply.trade] == ts; }
  }

  /** However the sales for a payout end, the trading service has made exactly some trades, one after the other. */
  lemma {:induction false} SalesMade(st: T.State, account: string, parts: seq<Q.Part>, need: int, env: Q.Env, stage: string) returns (ts: seq<T.Trade>)
    ensures Q.SellEach(st, account, parts, need, Q.Sales(env, account, stage)).0 == TradesMade(st, ts)
    decreases |parts|
  {
    ts := [];
    if |parts| == 0 {
    } else if parts[0].1 <= 0 {
      ts := SalesMade(st, account, parts[1..], need, env, stage);
    } else {
      var sale := Q.Sales(env, account, stage)(st, parts[0].0, parts[0].1);
      ts := SaleMade(st, env, account, stage, parts[0].0, parts[0].1);
      if sale.1.Traded? && !Q.Enough(sale.0, account, need) {
        var more := SalesMade(sale.0, account, parts[1..], need, env, stage);
        MadeOn(st, ts, more);
        ts := ts + more;
      }
    }
  }

  lemma RaiseIs(st: T.State, account: string, symbols: seq<string>, price: map<string, int>, need: int, sell: Q.Seller)
    returns (parts: seq<Q.Part>)
    ensures var t := Q.Raise(st, account, symbols, price, need, sell).0; t == st || t == Q.SellEach(st, account, parts, need, sell).0
  {
    parts := [];
    if account in st.accounts {
      var snap := st.accounts[account];
      var held := Q.HeldValue(snap, symbols, price);
      if snap.cash < need && held > 0 { parts := Q.Parts(snap, symbols, Q.Slicer(need - snap.cash, held)); }
    }
  }

  lemma RaiseMade(st: T.State, account: string, m: D.Market, need: int, env: Q.Env, stage: string) returns (ts: seq<T.Trade>)
    ensures Q.Raise(st, account, m.symbols, m.price, need, Q.Sales(env, account, stage)).0 == TradesMade(st, ts)
  {
    var parts := RaiseIs(st, account, m.symbols, m.price, need, Q.Sales(env, account, stage));
    ts := [];
    if Q.Raise(st, account, m.symbols, m.price, need, Q.Sales(env, account, stage)).0 != st {
      ts := SalesMade(st, account, parts, need, env, stage);
    }
  }

  lemma {:induction false} TradesReplayed(s: Sys, st: T.State, ts: seq<T.Trade>, rules: Rules)
    requires Holds(s, st)
    ensures var u := ReplayOn(s, Entries(ts), rules); Holds(u, TradesMade(st, ts)) && OnlyTrading(s, u)
  {
    if ts != [] {
      var past, t := ts[..|ts| - 1], ts[|ts| - 1];
      TradesReplayed(s, st, past, rules);
      TradeReplayed(ReplayOn(s, Entries(past), rules), TradesMade(st, past), t, rules);
      LastEntry(s, ts, rules);
    }
  }

  lemma LastEntry(s: Sys, ts: seq<T.Trade>, rules: Rules)
    requires ts != []
    ensures var past, t := ts[..|ts| - 1], ts[|ts| - 1];
            ReplayOn(s, Entries(ts), rules) == ReplayOne(Kept(Traded(t)), ReplayOn(s, Entries(past), rules), rules)
  {
    var past, t := ts[..|ts| - 1], ts[|ts| - 1];
    assert Entries(ts) == Entries(past) + [Kept(Traded(t))];
    OneMore(s, Entries(past), Kept(Traded(t)), rules);
  }

  /** The records a redemption writes: the sales, and if it is paid its own. */
  function RedeemEntries(shop: D.Shop, t: D.Shop, q: D.Ask, a: D.Answer): seq<Entry>
    requires shop.trading.log <= t.trading.log
  {
    Entries(t.trading.log[|shop.trading.log|..]) + if a.Done? then [Kept(FundEvent(D.RedeemEvent(q, a)))] else []
  }

  /** Replaying the records of a redemption, its sales included, does what the desk did, whether it was paid or
      refused half way. */
  lemma RedeemRestored(s: Sys, shop: D.Shop, q: D.Ask, terms: D.Terms, m: D.Market, env: Q.Env, stage: string, up: bool, rules: Rules)
    requires SameShop(s, shop) && q.fund in shop.book.funds
    ensures var (t, a) := D.Redeemed(shop, q, terms, m, Q.Sales(env, shop.book.funds[q.fund].formed.account, stage), up);
            && shop.trading.log <= t.trading.log
            && SameShop(ReplayOn(s, RedeemEntries(shop, t, q, a), rules), t)
            && ReplayOn(s, RedeemEntries(shop, t, q, a), rules).users == s.users
  {
    var account := shop.book.funds[q.fund].formed.account;
    var sell := Q.Sales(env, account, stage);
    var check := D.RedeemCheck(shop.trading.accounts, shop.book, q, terms, m);
    if check.Refused? {
      assert Entries(shop.trading.log[|shop.trading.log|..]) + [] == [];
    } else {
      D.RedeemDone(shop.trading.accounts, shop.book, q, terms, m);
      var raised := Q.Raise(shop.trading, account, m.symbols, m.price, check.amount, sell);
      var ts := RaiseMade(shop.trading, account, m, check.amount, env, stage);
      MadeLog(shop.trading, ts);
      assert raised.0.log[|shop.trading.log|..] == ts;
      TradesReplayed(s, shop.trading, ts, rules);
      PaidReplayed(ReplayOn(s, Entries(ts), rules), raised.0, raised.1, shop.book, q, check, up, rules);
      var (t, a) := D.Paid(raised.0, raised.1, shop.book, q, check, up);
      if a.Done? { OneMore(s, Entries(ts), Kept(FundEvent(D.RedeemEvent(q, a))), rules); } else { assert Entries(ts) + [] == Entries(ts); }
    }
  }

  lemma PaidReplayed(s: Sys, st: T.State, raised: Q.Outcome, b: B.Book, q: D.Ask, check: D.Answer, up: bool, rules: Rules)
    requires Holds(s, st) && s.book == b && check.Done? && q.fund in b.funds
    ensures var (t, a) := D.Paid(st, raised, b, q, check, up);
            var u := if a.Done? then ReplayOne(Kept(FundEvent(D.RedeemEvent(q, a))), s, rules) else s;
            t.trading.log == st.log && (a.Done? ==> a == check) && SameShop(u, t) && u.users == s.users
  {
    FundMove(s, D.RedeemEvent(q, check), L.Move(b.funds[q.fund].formed.account, q.investor, check.amount), rules);
  }

  // ---- what each record means, in amounts ----

  /** The state after one more record. */
  function Then(log: seq<Entry>, rec: Rec, rules: Rules): Sys { Replay(log + [Kept(rec)], rules) }

  lemma ThenIs(log: seq<Entry>, rec: Rec, rules: Rules)
    ensures Then(log, rec, rules) == ReplayOne(Kept(rec), Replay(log, rules), rules)
  {
    assert (log + [Kept(rec)])[..|log|] == log;
  }

  /** Everything but these accounts, and the book if it says so, is as it was. */
  ghost predicate Elsewhere(s: Sys, u: Sys, ids: set<string>) {
    u.users == s.users && u.seen == s.seen && forall id :: id !in ids ==> L.SameAt(s.accounts, u.accounts, id)
  }

  /** So much cash went from one account to the other, and no shares. */
  ghost predicate Paid(s: Sys, u: Sys, from: string, to: string, amount: int) {
    && {from, to} <= s.accounts.Keys && u.accounts.Keys == s.accounts.Keys
    && u.accounts[from] == s.accounts[from].(cash := s.accounts[from].cash - amount)
    && u.accounts[to] == s.accounts[to].(cash := s.accounts[to].cash + amount)
  }

  /** Replaying an investment takes the amount from the investor and gives it to the fund; the investor's units and
      the fund's rise by the same, and the window's inflow by the amount. */
  lemma AllocInAmounts(log: seq<Entry>, ev: B.Event, rules: Rules)
    requires ev.Alloc? && ev.fund in Replay(log, rules).book.funds
    requires var s := Replay(log, rules); {ev.investor, s.book.funds[ev.fund].formed.account} <= s.accounts.Keys
                                          && ev.investor != s.book.funds[ev.fund].formed.account
    ensures var (s, u) := (Replay(log, rules), Then(log, FundEvent(ev), rules));
            var (account, who) := (s.book.funds[ev.fund].formed.account, (ev.investor, ev.fund));
            && Paid(s, u, ev.investor, account, ev.amount) && Elsewhere(s, u, {ev.investor, account})
            && B.HoldingOf(u.book, who).units == B.HoldingOf(s.book, who).units + ev.units
            && B.HoldingOf(u.book, who).contributed == B.HoldingOf(s.book, who).contributed + ev.amount
            && ev.fund in u.book.funds && u.book.funds[ev.fund].units == s.book.funds[ev.fund].units + ev.units
            && B.Inflow(u.book, ev.window, ev.fund) == B.Inflow(s.book, ev.window, ev.fund) + ev.amount
  {
    var s := Replay(log, rules);
    ThenIs(log, FundEvent(ev), rules);
    FundMove(s, ev, L.Move(ev.investor, s.book.funds[ev.fund].formed.account, ev.amount), rules);
  }

  /** Replaying a redemption takes the amount from the fund and gives it to the investor; the investor's units and the
      fund's fall by the same. */
  lemma RedeemInAmounts(log: seq<Entry>, ev: B.Event, rules: Rules)
    requires ev.Redeem? && ev.fund in Replay(log, rules).book.funds
    requires var s := Replay(log, rules); {ev.investor, s.book.funds[ev.fund].formed.account} <= s.accounts.Keys
                                          && ev.investor != s.book.funds[ev.fund].formed.account
    requires var b := Replay(log, rules).book; ev.units <= B.HoldingOf(b, (ev.investor, ev.fund)).units <= b.funds[ev.fund].units
    ensures var (s, u) := (Replay(log, rules), Then(log, FundEvent(ev), rules));
            var (account, who) := (s.book.funds[ev.fund].formed.account, (ev.investor, ev.fund));
            && Paid(s, u, account, ev.investor, ev.amount) && Elsewhere(s, u, {ev.investor, account})
            && B.HoldingOf(u.book, who).units == B.HoldingOf(s.book, who).units - ev.units
            && B.HoldingOf(u.book, who).redeemed == B.HoldingOf(s.book, who).redeemed + ev.amount
            && ev.fund in u.book.funds && u.book.funds[ev.fund].units == s.book.funds[ev.fund].units - ev.units
            && forall window, id :: B.Inflow(u.book, window, id) == B.Inflow(s.book, window, id)
  {
    var s := Replay(log, rules);
    ThenIs(log, FundEvent(ev), rules);
    FundMove(s, ev, L.Move(s.book.funds[ev.fund].formed.account, ev.investor, ev.amount), rules);
  }

  lemma OneLedgerStep(s: Sys, rec: Rec, op: L.Op, rules: Rules)
    requires Effects(rec, s.book, rules) == [Led(op)]
    ensures ReplayOne(Kept(rec), s, rules) == s.(accounts := L.Apply(op, s.accounts))
  {
    var ms := [Led(op)];
    assert ms[1..] == [];
    assert DoAll(ms, s) == Do(Led(op), s);
  }

  /** Replaying a registration opens the account with the starting cash and no shares. */
  lemma RegisterRestored(log: seq<Entry>, id: string, rules: Rules)
    requires id !in Replay(log, rules).accounts
    ensures var (s, u) := (Replay(log, rules), Then(log, Register(id), rules));
            u == s.(users := s.users + {id}, accounts := s.accounts[id := L.Acct(rules.start, map[])])
  {
    ThenIs(log, Register(id), rules);
    var ms, s := [Join(id), Led(L.Open(id, rules.start))], Replay(log, rules);
    assert ms[1..] == [Led(L.Open(id, rules.start))] && ms[1..][1..] == [];
    assert DoAll(ms, s) == DoAll(ms[1..], Do(Join(id), s)) == Do(Led(L.Open(id, rules.start)), Do(Join(id), s));
  }

  /** An organiser's correction, as its record replays: the account, and what it adds to its cash, its shares of a
      company and their cost. */
  predicate Corrects(rec: Rec, id: string, cash: int, symbol: string, qty: int, cost: int) {
    match rec
    case Granted(who, s, n, price) => id == who && cash == 0 && symbol == s && qty == n && cost == n * price
    case CashSet(who, delta) => id == who && cash == delta && qty == 0 && cost == 0
    case _ => false
  }

  /** Replaying an organiser's grant or cash correction adds exactly what it says, to this account alone. */
  lemma CorrectionRestored(log: seq<Entry>, rec: Rec, id: string, cash: int, symbol: string, qty: int, cost: int, rules: Rules)
    requires Corrects(rec, id, cash, symbol, qty, cost) && id in Replay(log, rules).accounts
    ensures var (s, u) := (Replay(log, rules), Then(log, rec, rules));
            && u.book == s.book && Elsewhere(s, u, {id}) && id in u.accounts
            && u.accounts[id].cash == s.accounts[id].cash + cash
            && L.Held(u.accounts[id], symbol).qty == L.Held(s.accounts[id], symbol).qty + qty
            && L.Held(u.accounts[id], symbol).cost == L.Held(s.accounts[id], symbol).cost + cost
            && forall x :: x != symbol ==> L.Held(u.accounts[id], x) == L.Held(s.accounts[id], x)
  {
    ThenIs(log, rec, rules);
    var op := if rec.Granted? then L.Grant(rec.id, rec.symbol, rec.qty, rec.price) else L.Cash(rec.id, rec.delta);
    OneLedgerStep(Replay(log, rules), rec, op, rules);
  }

  /** Replaying a revocation takes the shares at average cost, as the live one did; none that are not there. */
  lemma RevocationRestored(log: seq<Entry>, id: string, symbol: string, qty: int, rules: Rules)
    requires id in Replay(log, rules).accounts && qty > 0 && symbol in Replay(log, rules).accounts[id].pos
    ensures var (s, u) := (Replay(log, rules), Then(log, TookBack(id, symbol, qty), rules));
            && u.book == s.book && Elsewhere(s, u, {id}) && id in u.accounts && u.accounts[id].cash == s.accounts[id].cash
            && L.Held(u.accounts[id], symbol) == L.Less(L.Held(s.accounts[id], symbol), qty)
            && L.Held(u.accounts[id], symbol).qty == Max(L.Held(s.accounts[id], symbol).qty - qty, 0)
            && forall x :: x != symbol ==> L.Held(u.accounts[id], x) == L.Held(s.accounts[id], x)
  {
    ThenIs(log, TookBack(id, symbol, qty), rules);
    OneLedgerStep(Replay(log, rules), TookBack(id, symbol, qty), L.Revoke(id, symbol, qty), rules);
    Revoked(Replay(log, rules).accounts, id, symbol, qty);
  }

  lemma Revoked(A: L.Accounts, id: string, symbol: string, qty: int)
    requires id in A && qty > 0 && symbol in A[id].pos
    ensures var M := L.Apply(L.Revoke(id, symbol, qty), A);
            && id in M && M[id].cash == A[id].cash && (forall x :: x != id ==> L.SameAt(A, M, x))
            && L.Held(M[id], symbol) == L.Less(L.Held(A[id], symbol), qty)
            && L.Held(M[id], symbol).qty == Max(L.Held(A[id], symbol).qty - qty, 0)
            && forall x :: x != symbol ==> L.Held(M[id], x) == L.Held(A[id], x)
  {
  }

  /** After a reset nothing is left but the teams, if they are kept, each with the starting cash. */
  lemma ResetRestored(log: seq<Entry>, everything: bool, rules: Rules)
    ensures var (s, u) := (Replay(log, rules), Replay(log + [Reset(everything)], rules));
            && u.users == (if everything then {} else s.users) && u.accounts.Keys == u.users
            && (forall id :: id in u.accounts ==> u.accounts[id] == L.Acct(rules.start, map[]))
            && u.book == B.Empty(rules.launch) && u.seen == map[]
  {
    assert (log + [Reset(everything)])[..|log|] == log;
    R.LaunchStays(log, rules);
  }

  // ---- forming and dissolving the funds ----

  /** The accounts with one for each new fund, with the seed capital. */
  function Opened(A: L.Accounts, fs: seq<B.Formed>, seed: int): L.Accounts
    decreases |fs|
  {
    if fs == [] then A else Opened(L.Apply(L.Open(fs[0].account, seed), A), fs[1..], seed)
  }

  lemma {:induction false} OpenedIs(A: L.Accounts, fs: seq<B.Formed>, seed: int, id: string)
    ensures var M := Opened(A, fs, seed);
            && (id in M <==> id in A || exists i :: 0 <= i < |fs| && fs[i].account == id)
            && (id in A ==> id in M && M[id] == A[id])
            && (id in M && id !in A ==> M[id] == L.Acct(seed, map[]))
    decreases |fs|
  {
    if fs != [] {
      OpenedIs(L.Apply(L.Open(fs[0].account, seed), A), fs[1..], seed, id);
      assert fs[1..] == fs[1..|fs|];
    }
  }

  lemma {:induction false} OpensDone(fs: seq<B.Formed>, s: Sys, rules: Rules)
    ensures DoAll(OpenFunds(fs, rules), s) == s.(accounts := Opened(s.accounts, fs, rules.seed))
  {
    if fs != [] {
      assert OpenFunds(fs, rules)[1..] == OpenFunds(fs[1..], rules);
      OpensDone(fs[1..], Do(Led(L.Open(fs[0].account, rules.seed)), s), rules);
    }
  }

  lemma {:induction false} LedgersDone(ops: seq<L.Op>, s: Sys)
    ensures DoAll(Ledgers(ops), s) == s.(accounts := F.ApplyOps(ops, s.accounts))
  {
    if ops != [] {
      assert Ledgers(ops)[1..] == Ledgers(ops[1..]);
      LedgersDone(ops[1..], Do(Led(ops[0]), s));
    }
  }

  lemma {:induction false} DoAllPlus(a: seq<Micro>, b: seq<Micro>, s: Sys)
    ensures DoAll(a + b, s) == DoAll(b, DoAll(a, s))
  {
    if a == [] {
      assert a + b == b;
    } else {
      assert (a + b)[0] == a[0] && (a + b)[1..] == a[1..] + b;
      DoAllPlus(a[1..], b, Do(a[0], s));
    }
  }

  /** Replaying a formation opens the new funds' accounts with the seed capital, then makes the moves. */
  lemma FormingReplayed(s: Sys, ev: B.Event, rules: Rules)
    requires ev.Forming?
    ensures ReplayOne(Kept(FundEvent(ev)), s, rules)
         == s.(book := B.Step(s.book, ev).0, accounts := F.ApplyOps(F.AllOps(ev.moves), Opened(s.accounts, ev.funds, rules.seed)))
  {
    var t := Do(Funds(ev), s);
    var first, opens, moves := [Funds(ev)], OpenFunds(ev.funds, rules), Ledgers(F.AllOps(ev.moves));
    DoAllPlus(first + opens, moves, s);
    DoAllPlus(first, opens, s);
    assert first[1..] == [] && DoAll(first, s) == t;
    OpensDone(ev.funds, t, rules);
    LedgersDone(F.AllOps(ev.moves), DoAll(opens, t));
  }

  /** The accounts without those of the funds in the order. */
  function Closed(A: L.Accounts, b: B.Book, order: seq<string>): L.Accounts {
    if order == [] then A
    else
      var past, id := Closed(A, b, order[..|order| - 1]), order[|order| - 1];
      if id in b.funds then L.Apply(L.Remove(b.funds[id].formed.account), past) else past
  }

  lemma {:induction false} ClosesDone(b: B.Book, order: seq<string>, s: Sys)
    ensures DoAll(CloseFunds(b, order), s) == s.(accounts := Closed(s.accounts, b, order))
  {
    if order != [] {
      var id := order[|order| - 1];
      ClosesDone(b, order[..|order| - 1], s);
      if id in b.funds {
        var last := [Led(L.Remove(b.funds[id].formed.account))];
        DoAllPlus(CloseFunds(b, order[..|order| - 1]), last, s);
        assert last[1..] == [];
        assert DoAll(last, DoAll(CloseFunds(b, order[..|order| - 1]), s)) == Do(last[0], DoAll(CloseFunds(b, order[..|order| - 1]), s));
      } else {
        assert CloseFunds(b, order[..|order| - 1]) + [] == CloseFunds(b, order[..|order| - 1]);
      }
    }
  }

  lemma {:induction false} ClosedIs(A: L.Accounts, b: B.Book, order: seq<string>, id: string)
    ensures var M := Closed(A, b, order);
            && (id in M <==> id in A && !exists i :: 0 <= i < |order| && order[i] in b.funds && b.funds[order[i]].formed.account == id)
            && (id in M ==> M[id] == A[id])
  {
    if order != [] {
      var past := order[..|order| - 1];
      ClosedIs(A, b, past, id);
      assert forall i :: 0 <= i < |past| ==> past[i] == order[i];
    }
  }

  /** Replaying a dissolution makes the moves back, closes the funds' accounts and empties the book. */
  lemma DissolveReplayed(s: Sys, back: seq<B.Move>, rules: Rules)
    ensures ReplayOne(Kept(FundEvent(B.Dissolve(back))), s, rules)
         == s.(book := B.Empty(s.book.launch), accounts := Closed(F.ApplyOps(F.AllOps(back), s.accounts), s.book, s.book.order))
  {
    var ev := B.Dissolve(back);
    var moves, closes := Ledgers(F.AllOps(back)), CloseFunds(s.book, s.book.order);
    DoAllPlus(moves + [Funds(ev)], closes, s);
    DoAllPlus(moves, [Funds(ev)], s);
    LedgersDone(F.AllOps(back), s);
    var t := DoAll(moves, s);
    assert [Funds(ev)][1..] == [];
    assert DoAll([Funds(ev)], t) == Do(Funds(ev), t);
    ClosesDone(s.book, s.book.order, Do(Funds(ev), t));
  }

  // -- a formation and a dissolution, one after the other in the log

  lemma {:induction false} OpenedSane(A: L.Accounts, fs: seq<B.Formed>, seed: int)
    requires L.Sane(A) && seed >= 0
    ensures L.Sane(Opened(A, fs, seed))
    decreases |fs|
  {
    if fs != [] {
      L.AllowedStaysSane(L.Open(fs[0].account, seed), A);
      OpenedSane(L.Apply(L.Open(fs[0].account, seed), A), fs[1..], seed);
    }
  }

  /** What a formation needs besides the checks of its plan: the funds' accounts and ids are new and their own. */
  ghost predicate NewFunds(s: Sys, fs: seq<B.Formed>) {
    && s.book.funds == map[] && !s.book.formed && Teams(F.Joiners(fs))
    && (forall i :: 0 <= i < |fs| ==> fs[i].account !in s.accounts)
    && (forall i, j :: 0 <= i < j < |fs| ==> fs[i].id != fs[j].id)
  }

  lemma {:induction false} AddedFunds(b: B.Book, fs: seq<B.Formed>)
    requires forall i, j :: 0 <= i < j < |fs| ==> fs[i].id != fs[j].id
    ensures var c := B.AddFunds(b, fs);
            && (forall i :: 0 <= i < |fs| ==> fs[i].id in c.order && fs[i].id in c.funds && c.funds[fs[i].id].formed.account == fs[i].account)
            && (forall id :: id in c.funds ==> id in b.funds || exists i :: 0 <= i < |fs| && fs[i].id == id)
            && c.formed == b.formed
  {
    if fs != [] {
      var past := fs[..|fs| - 1];
      AddedFunds(b, past);
      assert forall i :: 0 <= i < |past| ==> past[i] == fs[i];
      var c, d := B.AddFunds(b, past), B.AddFunds(b, fs);
      assert d.order[|c.order|] == fs[|fs| - 1].id;
      assert forall i :: 0 <= i < |past| ==> past[i].id in c.order;
    }
  }

  lemma {:induction false} SeedsKeepFunds(b: B.Book, seeds: seq<B.SeedUnits>)
    ensures var c := B.AddSeeds(b, seeds).0;
            c.order == b.order && c.funds.Keys == b.funds.Keys && forall id :: id in b.funds ==> c.funds[id].formed == b.funds[id].formed
  {
    if seeds != [] { SeedsKeepFunds(b, seeds[..|seeds| - 1]); }
  }

  predicate HasAccount(c: B.Book, id: string, account: string) { id in c.funds && c.funds[id].formed.account == account }

  ghost predicate KnowsAccount(c: B.Book, account: string) { exists i :: 0 <= i < |c.order| && HasAccount(c, c.order[i], account) }

  lemma SameAccounts(c: B.Book, d: B.Book, account: string)
    requires c.order == d.order && c.funds.Keys == d.funds.Keys && forall id :: id in d.funds ==> c.funds[id].formed == d.funds[id].formed
    ensures KnowsAccount(c, account) <==> KnowsAccount(d, account)
  {
    assert forall i :: 0 <= i < |c.order| ==> (HasAccount(c, c.order[i], account) <==> HasAccount(d, c.order[i], account));
  }

  lemma AccountsListed(d: B.Book, fs: seq<B.Formed>, account: string)
    requires forall i :: 0 <= i < |fs| ==> fs[i].id in d.order && fs[i].id in d.funds && d.funds[fs[i].id].formed.account == fs[i].account
    requires forall id :: id in d.funds ==> exists i :: 0 <= i < |fs| && fs[i].id == id
    ensures KnowsAccount(d, account) <==> exists i :: 0 <= i < |fs| && fs[i].account == account
  {
    if KnowsAccount(d, account) {
      var i :| 0 <= i < |d.order| && HasAccount(d, d.order[i], account);
      var k :| 0 <= k < |fs| && fs[k].id == d.order[i];
      assert fs[k].account == account;
    }
    if k :| 0 <= k < |fs| && fs[k].account == account {
      var i :| 0 <= i < |d.order| && d.order[i] == fs[k].id;
      assert HasAccount(d, d.order[i], account);
    }
  }

  /** The book a formation leaves knows each new fund's account. */
  lemma FormedBook(b: B.Book, fs: seq<B.Formed>, moves: seq<B.Move>, seeds: seq<B.SeedUnits>, account: string)
    requires b.funds == map[] && !b.formed && forall i, j :: 0 <= i < j < |fs| ==> fs[i].id != fs[j].id
    ensures var c := B.Step(b, B.Forming(fs, moves, seeds)).0;
            KnowsAccount(c, account) <==> exists i :: 0 <= i < |fs| && fs[i].account == account
    ensures B.Step(b, B.Forming(fs, moves, seeds)).0.launch == b.launch
  {
    AddedFunds(b, fs);
    var d := B.AddFunds(b, fs).(formed := true, seedMoves := moves);
    SeedsKeepFunds(d, seeds);
    R.SeedsLaunch(d, seeds);
    R.FundsLaunch(b, fs);
    AccountsListed(d, fs, account);
    SameAccounts(B.AddSeeds(d, seeds).0, d, account);
  }

  /** Every move ends in an account that has nothing but its seed capital. */
  lemma RidersAreFresh(M: L.Accounts, ops: seq<L.Op>, js: seq<(string, B.Formed)>, seed: int)
    requires seed >= 0 && F.Routed(M, ops, js) && F.Transfers(ops)
    requires forall i :: 0 <= i < |js| ==> js[i].1.account in M && M[js[i].1.account] == L.Acct(seed, map[])
    ensures F.FreshFunds(M, ops)
  {
    forall i | 0 <= i < |ops|
      ensures ops[i].to in M && M[ops[i].to] == L.Acct(seed, map[])
    {
      assert F.Rides(ops[i], js);
    }
  }

  /** The plan made before the funds' accounts are opened fits them once they are. */
  lemma PlanFits(A: L.Accounts, fs: seq<B.Formed>, symbols: seq<string>, price: map<string, int>, rules: Rules)
    requires rules.launch > 0.0 && rules.seed >= 0 && L.Sane(A) && F.NoRepeats(symbols) && Teams(F.Joiners(fs))
    requires forall i :: 0 <= i < |fs| ==> fs[i].account !in A
    ensures var M, ops := Opened(A, fs, rules.seed), F.AllOps(F.SeedPlan(A, F.Joiners(fs), symbols, price, rules.launch).0);
            F.Transfers(ops) && F.OneWay(ops) && F.FreshFunds(M, ops) && F.AllAllowed(ops, M)
  {
    var js, M := F.Joiners(fs), Opened(A, fs, rules.seed);
    OpenedRoster(A, fs, rules.seed);
    PlanSame(A, M, js, symbols, price, rules.launch);
    F.PlanIsAllowed(M, js, symbols, price, rules.launch);
    F.PlanRouted(M, js, symbols, price, rules.launch);
    RidersAreFresh(M, F.AllOps(F.SeedPlan(M, js, symbols, price, rules.launch).0), js, rules.seed);
  }

  lemma {:induction false} BroughtSame(A: L.Accounts, M: L.Accounts, js: seq<(string, B.Formed)>, account: string, w: F.What)
    requires forall i :: 0 <= i < |js| ==> L.SameAt(A, M, js[i].0)
    ensures F.Brought(A, js, account, w) == F.Brought(M, js, account, w)
  {
    if js != [] {
      BroughtSame(A, M, js[..|js| - 1], account, w);
      assert L.SameAt(A, M, js[|js| - 1].0);
    }
  }

  /** Opening the funds' accounts leaves the teams' alone, and every fund's is new. */
  lemma OpenedRoster(A: L.Accounts, fs: seq<B.Formed>, seed: int)
    requires L.Sane(A) && seed >= 0 && Teams(F.Joiners(fs)) && forall i :: 0 <= i < |fs| ==> fs[i].account !in A
    ensures var js, M := F.Joiners(fs), Opened(A, fs, seed);
            && L.Sane(M) && F.Roster(M, js)
            && forall i :: 0 <= i < |js| ==> L.SameAt(A, M, js[i].0) && js[i].1.account in M && M[js[i].1.account] == L.Acct(seed, map[])
  {
    var js, M := F.Joiners(fs), Opened(A, fs, seed);
    OpenedSane(A, fs, seed);
    forall i | 0 <= i < |js|
      ensures js[i].1.account in M && M[js[i].1.account] == L.Acct(seed, map[]) && L.SameAt(A, M, js[i].0)
    {
      JoinersFrom(fs, i);
      OpenedIs(A, fs, seed, js[i].1.account);
      OpenedIs(A, fs, seed, js[i].0);
      forall k | 0 <= k < |fs|
        ensures fs[k].account != js[i].0
      {
        assert js[2 * k].1 == fs[k];
      }
    }
  }

  /** Replaying a planned formation leaves a joining team no cash and no listed shares, and gives its fund the seed
      capital and everything its teams had, at the cost it had. */
  lemma FormingInAmounts(log: seq<Entry>, fs: seq<B.Formed>, symbols: seq<string>, price: map<string, int>, rules: Rules, k: nat, w: F.What)
    requires rules.launch > 0.0 && rules.seed >= 0 && F.NoRepeats(symbols) && F.Listed(w, symbols)
    requires L.Sane(Replay(log, rules).accounts) && NewFunds(Replay(log, rules), fs)
    requires k < |F.Joiners(fs)| && F.Joiners(fs)[k].0 in Replay(log, rules).accounts
    ensures var (s, js) := (Replay(log, rules), F.Joiners(fs));
            var (moves, seeds) := F.SeedPlan(s.accounts, js, symbols, price, rules.launch);
            var u := Then(log, FundEvent(B.Forming(fs, moves, seeds)), rules);
            && js[k].0 in u.accounts && F.Amount(u.accounts[js[k].0], w) == 0
            && js[k].1.account in u.accounts
            && F.Amount(u.accounts[js[k].1.account], w)
               == (if w.InCash? then rules.seed else 0) + F.Brought(s.accounts, js, js[k].1.account, w)
  {
    var s, js := Replay(log, rules), F.Joiners(fs);
    var (moves, seeds) := F.SeedPlan(s.accounts, js, symbols, price, rules.launch);
    var M := Opened(s.accounts, fs, rules.seed);
    ThenIs(log, FundEvent(B.Forming(fs, moves, seeds)), rules);
    FormingReplayed(s, B.Forming(fs, moves, seeds), rules);
    OpenedRoster(s.accounts, fs, rules.seed);
    PlanSame(s.accounts, M, js, symbols, price, rules.launch);
    BroughtSame(s.accounts, M, js, js[k].1.account, w);
    F.TeamGivesAll(M, js, k, w, symbols, price, rules.launch);
    F.FundReceives(M, js, js[k].1.account, w, symbols, price, rules.launch);
  }

  /** Replaying a planned formation and then its dissolution, with nothing in between, gives every account back its
      cash, its shares and their cost, leaves no account more or less, and empties the book. */
  lemma DissolveUndoesFormInLog(log: seq<Entry>, fs: seq<B.Formed>, back: seq<B.Move>, symbols: seq<string>, price: map<string, int>,
                                rules: Rules, id: string, w: F.What)
    requires rules.launch > 0.0 && rules.seed >= 0 && F.NoRepeats(symbols)
    requires L.Sane(Replay(log, rules).accounts) && NewFunds(Replay(log, rules), fs)
    requires var moves := F.SeedPlan(Replay(log, rules).accounts, F.Joiners(fs), symbols, price, rules.launch).0;
             |back| == |moves| && forall i :: 0 <= i < |moves| ==> back[i] == F.Reversed(moves[i])
    ensures var s := Replay(log, rules);
            var (moves, seeds) := F.SeedPlan(s.accounts, F.Joiners(fs), symbols, price, rules.launch);
            var u := Replay(log + [Kept(FundEvent(B.Forming(fs, moves, seeds))), Kept(FundEvent(B.Dissolve(back)))], rules);
            && u.book == B.Empty(rules.launch) && u.users == s.users && u.seen == s.seen
            && (id in u.accounts <==> id in s.accounts)
            && (id in s.accounts ==> F.Amount(u.accounts[id], w) == F.Amount(s.accounts[id], w))
  {
    var s := Replay(log, rules);
    var (moves, seeds) := F.SeedPlan(s.accounts, F.Joiners(fs), symbols, price, rules.launch);
    var form, dissolve := Kept(FundEvent(B.Forming(fs, moves, seeds))), Kept(FundEvent(B.Dissolve(back)));
    ReplayPlus(log, [form, dissolve], rules);
    OneMore(s, [], form, rules);
    OneMore(s, [form], dissolve, rules);
    assert [] + [form] == [form] && [form] + [dissolve] == [form, dissolve];
    FormingReplayed(s, B.Forming(fs, moves, seeds), rules);
    var t := ReplayOne(form, s, rules);
    DissolveReplayed(t, back, rules);
    PlanFits(s.accounts, fs, symbols, price, rules);
    F.ReversedOps(moves, back);
    F.DissolveUndoesForm(F.AllOps(moves), Opened(s.accounts, fs, rules.seed), id, w);
    OpenedIs(s.accounts, fs, rules.seed, id);
    FormedBook(s.book, fs, moves, seeds, id);
    R.LaunchStays(log, rules);
    ClosedIs(F.ApplyOps(F.AllOps(back), t.accounts), t.book, t.book.order, id);
  }
}

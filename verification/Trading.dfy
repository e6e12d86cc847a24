/** Executing participants' trades: write before acknowledge, and idempotent on
    (account, client trade id). */
module Trading {
  import opened Journalling
  import opened Options
  import L = Ledger

  datatype Side = Buy | Sell | OtherSide

  datatype Request = Request(clientId: string, account: string, symbol: string, side: Side, qty: int,
                             expected: int, stage: string)

  datatype Trade = Trade(id: string, clientId: string, account: string, symbol: string, side: Side,
                         qty: int, price: int, stage: string, at: int)

  datatype Fingerprint = Fingerprint(symbol: string, side: Side, qty: int)

  datatype Entry = Entry(fp: Fingerprint, trade: Trade)

  type Key = (string, string)

  type Seen = map<Key, Entry>

  datatype Error =
    | InvalidTrade | Mismatch | UnknownSymbol | NoPrice | PriceChanged(current: int)
    | Guarded | FromLedger(why: L.Refusal)

  datatype Reply = Traded(trade: Trade, deduped: bool) | Failed(error: Error)

  function KeyOf(t: Trade): Key { (t.account, t.clientId) }

  function PrintOf(t: Trade): Fingerprint { Fingerprint(t.symbol, t.side, t.qty) }

  function Wanted(r: Request): Fingerprint { Fingerprint(r.symbol, r.side, r.qty) }

  function LedgerOp(t: Trade): L.Op { L.Trade(t.account, t.symbol, t.side.Buy?, t.qty, t.price) }

  /** What one call meets: the company's price at that moment (if any), the pre-trade check's answer,
      whether the journal can store the trade, and the new trade's id and time. */
  datatype World = World(price: Option<int>, guard: bool, up: bool, id: string, at: int)

  datatype State = State(accounts: L.Accounts, seen: Seen, log: seq<Trade>)

  predicate WellFormed(r: Request) {
    r.account != "" && r.clientId != "" && r.symbol != "" && !r.side.OtherSide? && r.qty > 0
  }

  function Made(r: Request, w: World, price: int): Trade {
    Trade(w.id, r.clientId, r.account, r.symbol, r.side, r.qty, price, r.stage, w.at)
  }

  function Seeded(seen: Seen, t: Trade): Seen { seen[KeyOf(t) := Entry(PrintOf(t), t)] }

  /** One call as a whole: the new state and the answer. */
  function Exec(s: State, r: Request, w: World): (State, Reply) {
    if !WellFormed(r) then (s, Failed(InvalidTrade))
    else if (r.account, r.clientId) in s.seen then
      var prev := s.seen[(r.account, r.clientId)];
      (s, if prev.fp == Wanted(r) then Traded(prev.trade, true) else Failed(Mismatch))
    else if w.price.None? then (s, Failed(UnknownSymbol))
    else if w.price.value <= 0 then (s, Failed(NoPrice))
    else if r.expected != 0 && r.expected != w.price.value then (s, Failed(PriceChanged(w.price.value)))
    else if !w.guard then (s, Failed(Guarded))
    else
      var t := Made(r, w, w.price.value);
      var verdict := Verdict(s.accounts, t, w.up);
      if verdict.Done?
      then (State(L.Apply(LedgerOp(t), s.accounts), Seeded(s.seen, t), s.log + [t]), Traded(t, false))
      else (s, Failed(FromLedger(verdict.why)))
  }

  function Verdict(accounts: L.Accounts, t: Trade, up: bool): L.Outcome {
    L.TradeVerdict(accounts, t.account, t.symbol, t.side.Buy?, t.qty, t.price, up)
  }

  // ---- properties of every run ----

  function Replayed(start: L.Accounts, log: seq<Trade>): L.Accounts {
    if log == [] then start else L.Apply(LedgerOp(log[|log| - 1]), Replayed(start, log[..|log| - 1]))
  }

  predicate OncePerKey(log: seq<Trade>) {
    forall i, j :: 0 <= i < j < |log| ==> KeyOf(log[i]) != KeyOf(log[j])
  }

  /** What restoring from the log remembers. */
  function SeenOf(log: seq<Trade>): Seen {
    if log == [] then map[] else Seeded(SeenOf(log[..|log| - 1]), log[|log| - 1])
  }

  lemma {:induction false} SeenOfKeys(log: seq<Trade>, i: nat)
    requires i < |log|
    ensures KeyOf(log[i]) in SeenOf(log)
  {
    if i < |log| - 1 { SeenOfKeys(log[..|log| - 1], i); }
  }

  /** The balances and the remembered ids are the replay of the log, and no id is in the log twice. */
  ghost predicate Consistent(start: L.Accounts, s: State) {
    && s.accounts == Replayed(start, s.log)
    && s.seen == SeenOf(s.log)
    && OncePerKey(s.log)
  }

  function Run(s: State, calls: seq<(Request, World)>): (State, seq<Reply>) {
    if calls == [] then (s, []) else
      var n := |calls| - 1;
      var (before, replies) := Run(s, calls[..n]);
      var (after, reply) := Exec(before, calls[n].0, calls[n].1);
      (after, replies + [reply])
  }

  lemma AppendConsistent(start: L.Accounts, s: State, t: Trade)
    requires Consistent(start, s) && KeyOf(t) !in s.seen
    ensures Consistent(start, Extended(s, t))
  {
    LogPlus(start, s.log, t);
    forall i | 0 <= i < |s.log|
      ensures KeyOf(s.log[i]) != KeyOf(t)
    {
      SeenOfKeys(s.log, i);
    }
    OncePlus(s.log, t);
  }

  lemma LogPlus(start: L.Accounts, log: seq<Trade>, t: Trade)
    ensures Replayed(start, log + [t]) == L.Apply(LedgerOp(t), Replayed(start, log))
    ensures SeenOf(log + [t]) == Seeded(SeenOf(log), t)
  {
    assert (log + [t])[..|log|] == log;
  }

  lemma OncePlus(log: seq<Trade>, t: Trade)
    requires OncePerKey(log) && forall i :: 0 <= i < |log| ==> KeyOf(log[i]) != KeyOf(t)
    ensures OncePerKey(log + [t])
  {
  }

  function Extended(s: State, t: Trade): State {
    State(L.Apply(LedgerOp(t), s.accounts), Seeded(s.seen, t), s.log + [t])
  }

  /** A call changes nothing at all, or makes and remembers exactly one new trade. */
  lemma ExecEither(s: State, r: Request, w: World)
    ensures var (t, reply) := Exec(s, r, w);
            if reply.Traded? && !reply.deduped
            then t == Extended(s, reply.trade) && KeyOf(reply.trade) == (r.account, r.clientId)
                 && KeyOf(reply.trade) !in s.seen
                 && PrintOf(reply.trade) == Wanted(r) && L.Allowed(LedgerOp(reply.trade), s.accounts)
            else t == s
                 && (reply.Traded? ==>
                       && (r.account, r.clientId) in s.seen
                       && s.seen[(r.account, r.clientId)] == Entry(Wanted(r), reply.trade))
  {
    if w.price.Some? {
      L.TradeDoneIff(s.accounts, r.account, r.symbol, r.side.Buy?, r.qty, w.price.value, w.up);
    }
  }

  /** The account can pay for the shares at this price, or has them to sell. */
  predicate Affords(a: L.Acct, r: Request, price: int) {
    if r.side.Buy? then a.cash >= price * r.qty else L.Held(a, r.symbol).qty >= r.qty
  }

  /** A new trade is made if and only if: the request is complete, its id is new, the company has a price, and that
      is the one expected, if any was; the guard agrees; the account can afford it at that price; and the record
      could be stored. */
  lemma TradesIff(s: State, r: Request, w: World)
    ensures (Exec(s, r, w).1.Traded? && !Exec(s, r, w).1.deduped)
       <==> && WellFormed(r) && (r.account, r.clientId) !in s.seen
            && w.price.Some? && w.price.value > 0 && r.expected in {0, w.price.value}
            && w.guard && r.account in s.accounts && Affords(s.accounts[r.account], r, w.price.value) && w.up
  {
    if w.price.Some? {
      L.TradeDoneIff(s.accounts, r.account, r.symbol, r.side.Buy?, r.qty, w.price.value, w.up);
    }
  }

  /** What a new trade does: at the market's price of that moment, cash against shares, for this account and this
      company alone; and what it records. */
  lemma TradeExact(s: State, r: Request, w: World)
    requires Exec(s, r, w).1.Traded? && !Exec(s, r, w).1.deduped
    ensures var (t, reply) := Exec(s, r, w);
            var trade := reply.trade;
            && w.price == Some(trade.price) && (r.expected != 0 ==> trade.price == r.expected)
            && trade.id == w.id && trade.at == w.at && trade.stage == r.stage && KeyOf(trade) == (r.account, r.clientId)
            && (trade.symbol, trade.side, trade.qty) == (r.symbol, r.side, r.qty)
            && t.log == s.log + [trade] && t.seen == s.seen[KeyOf(trade) := Entry(Wanted(r), trade)]
    ensures var (A, M) := (s.accounts, Exec(s, r, w).0.accounts);
            var paid := r.qty * w.price.value;
            && r.account in A && M.Keys == A.Keys && (forall id :: id in A && id != r.account ==> M[id] == A[id])
            && M[r.account].cash == (if r.side.Buy? then A[r.account].cash - paid else A[r.account].cash + paid)
            && Shares(M[r.account], r.symbol) == Shares(A[r.account], r.symbol) + (if r.side.Buy? then r.qty else -r.qty)
            && (r.side.Buy? ==> L.Held(M[r.account], r.symbol).cost == L.Held(A[r.account], r.symbol).cost + paid)
            && forall x :: x != r.symbol ==> L.Held(M[r.account], x) == L.Held(A[r.account], x)
  {
    TradesIff(s, r, w);
  }

  function Shares(a: L.Acct, symbol: string): int { L.Held(a, symbol).qty }

  /** What a refusal says of the call. */
  predicate Because(error: Error, s: State, r: Request, w: World) {
    match error
    case InvalidTrade => r.account == "" || r.clientId == "" || r.symbol == "" || r.side.OtherSide? || r.qty <= 0
    case Mismatch => (r.account, r.clientId) in s.seen && s.seen[(r.account, r.clientId)].fp != Wanted(r)
    case UnknownSymbol => w.price == None
    case NoPrice => w.price.Some? && w.price.value <= 0
    case PriceChanged(current) => w.price == Some(current) && current > 0 && r.expected != 0 && r.expected != current
    case Guarded => !w.guard
    case FromLedger(why) =>
      match why
      case UnknownAccount => r.account !in s.accounts
      case InsufficientCash => r.account in s.accounts && w.price.Some? && r.side.Buy? && s.accounts[r.account].cash < r.qty * w.price.value
      case InsufficientShares => r.account in s.accounts && r.side.Sell? && Shares(s.accounts[r.account], r.symbol) < r.qty
      case NotDurable => !w.up
      case _ => false
  }

  /** Every refusal tells the truth. */
  lemma RefusalMeans(s: State, r: Request, w: World)
    requires Exec(s, r, w).1.Failed?
    ensures Because(Exec(s, r, w).1.error, s, r, w)
  {
    if w.price.Some? {
      L.TradeDoneIff(s.accounts, r.account, r.symbol, r.side.Buy?, r.qty, w.price.value, w.up);
    }
  }

  lemma ExecConsistent(start: L.Accounts, s: State, r: Request, w: World)
    requires Consistent(start, s) && L.Sane(s.accounts)
    ensures var t := Exec(s, r, w).0;
            Consistent(start, t) && L.Sane(t.accounts)
  {
    var (t, reply) := Exec(s, r, w);
    ExecEither(s, r, w);
    if reply.Traded? && !reply.deduped {
      L.AllowedStaysSane(LedgerOp(reply.trade), s.accounts);
      AppendConsistent(start, s, reply.trade);
    }
  }

  /** Any sequence of calls keeps the balances equal to the replay of the log, never below zero, with
      each (account, client id) traded at most once. */
  lemma {:induction false} RunConsistent(start: L.Accounts, calls: seq<(Request, World)>)
    requires L.Sane(start)
    ensures var (s, replies) := Run(State(start, map[], []), calls);
            Consistent(start, s) && L.Sane(s.accounts) && |replies| == |calls|
  {
    if calls != [] {
      var n := |calls| - 1;
      RunConsistent(start, calls[..n]);
      ExecConsistent(start, Run(State(start, map[], []), calls[..n]).0, calls[n].0, calls[n].1);
    }
  }

  lemma {:induction false} ReplyStable(start: L.Accounts, calls: seq<(Request, World)>, i: nat)
    requires L.Sane(start) && i < |calls|
    ensures var (s, replies) := Run(State(start, map[], []), calls);
            var r := calls[i].0;
            |replies| == |calls| &&
            (replies[i].Traded? ==> (r.account, r.clientId) in s.seen
                                    && s.seen[(r.account, r.clientId)] == Entry(Wanted(r), replies[i].trade))
    decreases |calls|
  {
    var n := |calls| - 1;
    var (before, replies) := Run(State(start, map[], []), calls[..n]);
    RunConsistent(start, calls[..n]);
    ExecEither(before, calls[n].0, calls[n].1);
    if i < n {
      ReplyStable(start, calls[..n], i);
      assert calls[..n][i] == calls[i];
    }
  }

  /** A retry returns the original trade and never trades again; the same id for a different trade is
      refused. However many calls by anyone lie in between. */
  lemma RetryReturnsOriginal(start: L.Accounts, calls: seq<(Request, World)>, i: nat, r: Request, w: World)
    requires L.Sane(start) && i < |calls|
    requires |Run(State(start, map[], []), calls).1| == |calls|
    requires Run(State(start, map[], []), calls).1[i].Traded?
    requires WellFormed(r) && (r.account, r.clientId) == (calls[i].0.account, calls[i].0.clientId)
    ensures var (s, replies) := Run(State(start, map[], []), calls);
            Exec(s, r, w) == (s, if Wanted(r) == Wanted(calls[i].0) then Traded(replies[i].trade, true)
                                 else Failed(Mismatch))
  {
    ReplyStable(start, calls, i);
  }

  // ---- the executor as an object ----

  class Executor {
    const ledger: L.Ledger
    const journal: Journal<Trade>
    var seen: Seen

    ghost predicate Valid()
      reads this, ledger, journal
    {
      && ledger.Valid()
      && (this as object) !in {ledger as object, journal as object}
      && (ledger as object) != journal
      && forall id :: id in ledger.accts ==> ledger.accts[id] as object !in {this as object, ledger as object, journal as object}
    }

    ghost function Current(): State
      reads this, ledger, ledger.accts.Values, journal
    {
      State(ledger.Contents(), seen, journal.log)
    }

    constructor (ledger: L.Ledger, journal: Journal<Trade>)
      requires ledger.Valid()
      requires (ledger as object) != journal
      requires forall id :: id in ledger.accts ==> ledger.accts[id] as object !in {ledger as object, journal as object}
      ensures Valid() && this.ledger == ledger && this.journal == journal
      ensures Current() == State(ledger.Contents(), map[], journal.log)
    {
      this.ledger, this.journal, this.seen := ledger, journal, map[];
    }

    method SeenBefore(account: string, clientId: string) returns (yes: bool)
      ensures yes <==> (account, clientId) in seen
    {
      yes := (account, clientId) in seen;
    }

    method Seed(t: Trade)
      modifies this
      ensures seen == Seeded(old(seen), t)
    {
      seen := seen[(t.account, t.clientId) := Entry(Fingerprint(t.symbol, t.side, t.qty), t)];
    }

    method Execute(r: Request, w: World) returns (reply: Reply)
      requires Valid()
      modifies this, ledger.accts.Values, journal
      ensures Valid()
      ensures (Current(), reply) == Exec(old(Current()), r, w)
    {
      if r.account == "" || r.clientId == "" || r.symbol == "" || r.side.OtherSide? || r.qty <= 0 {
        return Failed(InvalidTrade);
      }
      var fp := Fingerprint(r.symbol, r.side, r.qty);
      if (r.account, r.clientId) in seen {
        var prev := seen[(r.account, r.clientId)];
        if prev.fp != fp { return Failed(Mismatch); }
        return Traded(prev.trade, true);
      }
      if w.price.None? { return Failed(UnknownSymbol); }
      var price := w.price.value;
      if price <= 0 { return Failed(NoPrice); }
      if r.expected != 0 && r.expected != price { return Failed(PriceChanged(price)); }
      if !w.guard { return Failed(Guarded); }
      var t := Trade(w.id, r.clientId, r.account, r.symbol, r.side, r.qty, price, r.stage, w.at);
      var done := ledger.TradeAt(r.account, r.symbol, r.side.Buy?, r.qty, price, journal, t, w.up);
      if done.Refused? { return Failed(FromLedger(done.why)); }
      Seed(t);
      reply := Traded(t, false);
    }
  }
}

/** Something that makes records durable before anything changes: the commit function every
    balance-changing operation calls first. */
module Journalling {

  class Journal<R> {
    var log: seq<R>

    constructor ()
      ensures log == []
    {
      log := [];
    }

    /** `up` is the environment's answer: whether the record reached the disk. */
    method Commit(r: R, up: bool) returns (ok: bool)
      modifies this
      ensures ok == up
      ensures log == if up then old(log) + [r] else old(log)
    {
      if up {
        log := log + [r];
      }
      ok := up;
    }
  }
}

/** Cash and share holdings of every account. Money is integer paise. */
module Ledger {
  import opened Numeric
  import opened Journalling

  // ---- the ledger as a value ----

  datatype Pos = Pos(qty: int, cost: int)

  datatype Acct = Acct(cash: int, pos: map<string, Pos>)

  type Accounts = map<string, Acct>

  const NO_POS := Pos(0, 0)

  function Held(a: Acct, symbol: string): Pos {
    if symbol in a.pos then a.pos[symbol] else NO_POS
  }

  /** Shares leave at average cost, rounded down; an emptied holding has no cost left. */
  function Less(p: Pos, qty: int): Pos {
    if p.qty - qty <= 0 then NO_POS
    else if p.qty > 0 then Pos(p.qty - qty, p.cost - TDiv(p.cost * Min(qty, p.qty), p.qty))
    else Pos(p.qty - qty, p.cost)
  }

  function More(p: Pos, qty: int, cost: int): Pos { Pos(p.qty + qty, p.cost + cost) }

  /** A fixed amount of cost leaves with the shares. */
  function Without(p: Pos, qty: int, cost: int): Pos {
    if p.qty - qty <= 0 then NO_POS else Pos(p.qty - qty, p.cost - cost)
  }

  function Put(a: Acct, symbol: string, p: Pos): Acct { a.(pos := a.pos[symbol := p]) }

  function GivenUp(a: Acct, symbol: string, qty: int, cost: int): Acct {
    if symbol in a.pos then Put(a, symbol, Without(a.pos[symbol], qty, cost)) else a
  }

  /** One change to the ledger, as the log replays it. */
  datatype Op =
    | Trade(id: string, symbol: string, buy: bool, qty: int, price: int)
    | Grant(id: string, symbol: string, qty: int, price: int)
    | Revoke(id: string, symbol: string, qty: int)
    | Cash(id: string, delta: int)
    | Move(from: string, to: string, amount: int)
    | MoveShares(from: string, to: string, symbol: string, qty: int, cost: int)
    | Open(id: string, cash: int)
    | Remove(id: string)

  /** The accounts an operation reads or changes. */
  function Foot(op: Op): set<string> {
    match op
    case Move(from, to, _) => {from, to}
    case MoveShares(from, to, _, _, _) => {from, to}
    case _ => {op.id}
  }

  /** The operation finds every account it names (Open and Remove always do). */
  predicate Known(op: Op, L: Accounts) {
    op.Open? || op.Remove? || Foot(op) <= L.Keys
  }

  function Traded(a: Acct, symbol: string, buy: bool, qty: int, price: int): Acct {
    if buy then Put(a, symbol, More(Held(a, symbol), qty, price * qty)).(cash := a.cash - price * qty)
    else Put(a, symbol, Less(Held(a, symbol), qty)).(cash := a.cash + price * qty)
  }

  function Apply(op: Op, L: Accounts): Accounts {
    if !Known(op, L) then L else
      match op
      case Trade(id, symbol, buy, qty, price) => L[id := Traded(L[id], symbol, buy, qty, price)]
      case Grant(id, symbol, qty, price) => L[id := Put(L[id], symbol, More(Held(L[id], symbol), qty, price * qty))]
      case Revoke(id, symbol, qty) =>
        if symbol in L[id].pos then L[id := Put(L[id], symbol, Less(Held(L[id], symbol), qty))] else L
      case Cash(id, delta) => L[id := L[id].(cash := L[id].cash + delta)]
      case Move(from, to, amount) =>
        var M := L[from := L[from].(cash := L[from].cash - amount)];
        M[to := M[to].(cash := M[to].cash + amount)]
      case MoveShares(from, to, symbol, qty, cost) =>
        var M := L[from := GivenUp(L[from], symbol, qty, cost)];
        M[to := Put(M[to], symbol, More(Held(M[to], symbol), qty, cost))]
      case Open(id, cash) => if id in L then L else L[id := Acct(cash, map[])]
      case Remove(id) => L - {id}
  }

  /** The checks a live operation passes before it is committed. */
  predicate Allowed(op: Op, L: Accounts) {
    && Known(op, L)
    && match op
       case Trade(id, symbol, buy, qty, price) =>
         && qty > 0 && price > 0 && symbol != ""
         && (if buy then L[id].cash >= price * qty else Held(L[id], symbol).qty >= qty)
       case Grant(_, _, qty, price) => qty > 0 && price >= 0
       case Revoke(id, symbol, qty) => qty > 0 && Held(L[id], symbol).qty >= qty
       case Cash(id, delta) => L[id].cash + delta >= 0
       case Move(from, to, amount) => amount > 0 && from != to && L[from].cash >= amount
       case MoveShares(from, to, symbol, qty, cost) =>
         var p := Held(L[from], symbol);
         && qty > 0 && from != to && 0 <= cost <= p.cost && qty <= p.qty
         && (qty == p.qty ==> cost == p.cost)
       case Open(_, cash) => cash >= 0
       case Remove(_) => true
  }

  predicate SanePos(p: Pos) { p.qty >= 0 && p.cost >= 0 && (p.qty == 0 ==> p.cost == 0) }

  predicate SaneAcct(a: Acct) { a.cash >= 0 && forall s :: s in a.pos ==> SanePos(a.pos[s]) }

  /** No leverage, no short selling, no negative cost. */
  predicate Sane(L: Accounts) { forall id :: id in L ==> SaneAcct(L[id]) }

  lemma LessSane(p: Pos, qty: int)
    requires SanePos(p) && qty > 0
    ensures SanePos(Less(p, qty))
  {
    if p.qty - qty > 0 {
      ShareBound(p.cost, qty, p.qty);
    }
  }

  /** An operation that passed its checks never drives cash or a share count below zero. */
  lemma AllowedStaysSane(op: Op, L: Accounts)
    requires Sane(L) && Allowed(op, L)
    ensures Sane(Apply(op, L))
  {
    forall id | id in Apply(op, L)
      ensures SaneAcct(Apply(op, L)[id])
    {
      if id !in Foot(op) {
        ApplyFrame(op, L, id);
        assert SaneAcct(L[id]);
      } else if op.Move? || op.MoveShares? {
        MoveStaysSane(op, L, id);
      } else if id in L {
        OneStaysSane(op, L);
      }
    }
  }

  lemma PutSane(a: Acct, symbol: string, p: Pos, cash: int)
    requires SaneAcct(a) && SanePos(p) && cash >= 0
    ensures SaneAcct(Put(a, symbol, p).(cash := cash))
  {
  }

  lemma HeldSane(a: Acct, symbol: string)
    requires SaneAcct(a)
    ensures SanePos(Held(a, symbol))
  {
  }

  /** Operations on one account. */
  lemma OneStaysSane(op: Op, L: Accounts)
    requires Sane(L) && Allowed(op, L) && !op.Move? && !op.MoveShares? && op.id in L && op.id in Apply(op, L)
    ensures SaneAcct(Apply(op, L)[op.id])
  {
    var a := L[op.id];
    assert SaneAcct(a);
    match op
    case Trade(_, symbol, buy, qty, price) =>
      MulMono(0, price, qty);
      HeldSane(a, symbol);
      if buy {
        PutSane(a, symbol, More(Held(a, symbol), qty, price * qty), a.cash - price * qty);
      } else {
        LessSane(Held(a, symbol), qty);
        PutSane(a, symbol, Less(Held(a, symbol), qty), a.cash + price * qty);
      }
    case Grant(_, symbol, qty, price) =>
      MulMono(0, price, qty);
      HeldSane(a, symbol);
      PutSane(a, symbol, More(Held(a, symbol), qty, price * qty), a.cash);
    case Revoke(_, symbol, qty) =>
      HeldSane(a, symbol);
      LessSane(Held(a, symbol), qty);
      PutSane(a, symbol, Less(Held(a, symbol), qty), a.cash);
    case _ =>
  }

  /** Operations between two accounts. */
  lemma MoveStaysSane(op: Op, L: Accounts, id: string)
    requires Sane(L) && Allowed(op, L) && (op.Move? || op.MoveShares?) && id in Foot(op)
    ensures id in Apply(op, L) && SaneAcct(Apply(op, L)[id])
  {
    assert SaneAcct(L[op.from]) && SaneAcct(L[op.to]);
    if op.MoveShares? {
      HeldSane(L[op.from], op.symbol);
      HeldSane(L[op.to], op.symbol);
      PutSane(L[op.from], op.symbol, Without(Held(L[op.from], op.symbol), op.qty, op.cost), L[op.from].cash);
      PutSane(L[op.to], op.symbol, More(Held(L[op.to], op.symbol), op.qty, op.cost), L[op.to].cash);
    }
  }

  // ---- footprints: what lets operations on different accounts run in parallel ----

  predicate SameAt(L: Accounts, M: Accounts, id: string) {
    (id in L <==> id in M) && (id in L ==> L[id] == M[id])
  }

  predicate SameOn(L: Accounts, M: Accounts, ids: set<string>) {
    forall id :: id in ids ==> SameAt(L, M, id)
  }

  lemma ApplyFrame(op: Op, L: Accounts, id: string)
    requires id !in Foot(op)
    ensures SameAt(L, Apply(op, L), id)
  {
  }

  lemma ApplyLocal(op: Op, L: Accounts, M: Accounts)
    requires SameOn(L, M, Foot(op))
    ensures Known(op, L) <==> Known(op, M)
    ensures Allowed(op, L) <==> Allowed(op, M)
    ensures SameOn(Apply(op, L), Apply(op, M), Foot(op))
  {
    assert forall id :: id in Foot(op) ==> SameAt(L, M, id);
    match op
    case Move(from, to, _) => assert SameAt(L, M, from) && SameAt(L, M, to);
    case MoveShares(from, to, _, _, _) => assert SameAt(L, M, from) && SameAt(L, M, to);
    case _ => assert SameAt(L, M, op.id);
  }

  // ---- conservation ----

  function CashOf(L: Accounts): map<string, int> { map id | id in L :: L[id].cash }

  function SharesOf(L: Accounts, symbol: string): map<string, int> {
    map id | id in L :: Held(L[id], symbol).qty
  }

  ghost function TotalCash(L: Accounts): int { Sum(CashOf(L)) }

  ghost function TotalShares(L: Accounts, symbol: string): int { Sum(SharesOf(L, symbol)) }

  lemma CashPut(L: Accounts, id: string, a: Acct)
    ensures TotalCash(L[id := a]) == TotalCash(L) - (if id in L then L[id].cash else 0) + a.cash
  {
    SumPut(CashOf(L), id, a.cash);
    assert CashOf(L[id := a]) == CashOf(L)[id := a.cash];
  }

  lemma SharesPut(L: Accounts, id: string, a: Acct, symbol: string)
    ensures TotalShares(L[id := a], symbol)
         == TotalShares(L, symbol) - (if id in L then Held(L[id], symbol).qty else 0) + Held(a, symbol).qty
  {
    SumPut(SharesOf(L, symbol), id, Held(a, symbol).qty);
    assert SharesOf(L[id := a], symbol) == SharesOf(L, symbol)[id := Held(a, symbol).qty];
  }

  lemma OnePut(L: Accounts, id: string, a: Acct, s: string)
    ensures TotalCash(L[id := a]) == TotalCash(L) - (if id in L then L[id].cash else 0) + a.cash
    ensures TotalShares(L[id := a], s)
         == TotalShares(L, s) - (if id in L then Held(L[id], s).qty else 0) + Held(a, s).qty
  {
    CashPut(L, id, a);
    SharesPut(L, id, a, s);
  }

  lemma MoveConserves(op: Op, L: Accounts, s: string)
    requires op.Move? && Allowed(op, L)
    ensures TotalCash(Apply(op, L)) == TotalCash(L) && TotalShares(Apply(op, L), s) == TotalShares(L, s)
  {
    var a := L[op.from].(cash := L[op.from].cash - op.amount);
    var M := L[op.from := a];
    OnePut(L, op.from, a, s);
    OnePut(M, op.to, M[op.to].(cash := M[op.to].cash + op.amount), s);
  }

  lemma ShareMoveConserves(op: Op, L: Accounts, s: string)
    requires op.MoveShares? && Allowed(op, L)
    ensures TotalCash(Apply(op, L)) == TotalCash(L) && TotalShares(Apply(op, L), s) == TotalShares(L, s)
  {
    var a := Put(L[op.from], op.symbol, Without(Held(L[op.from], op.symbol), op.qty, op.cost));
    var M := L[op.from := a];
    OnePut(L, op.from, a, s);
    OnePut(M, op.to, Put(M[op.to], op.symbol, More(Held(M[op.to], op.symbol), op.qty, op.cost)), s);
  }

  /** What an allowed operation adds to the total cash, and to the total shares of s. */
  function NewCash(op: Op): int {
    match op
    case Trade(_, _, buy, qty, price) => if buy then -(price * qty) else price * qty
    case Cash(_, delta) => delta
    case _ => 0
  }

  function NewShares(op: Op, s: string): int {
    match op
    case Trade(_, symbol, buy, qty, _) => if symbol != s then 0 else if buy then qty else -qty
    case Grant(_, symbol, qty, _) => if symbol == s then qty else 0
    case Revoke(_, symbol, qty) => if symbol == s then -qty else 0
    case _ => 0
  }

  lemma OneConserves(op: Op, L: Accounts, s: string)
    requires op.Trade? || op.Grant? || op.Revoke? || op.Cash?
    requires Allowed(op, L)
    ensures TotalCash(Apply(op, L)) == TotalCash(L) + NewCash(op)
    ensures TotalShares(Apply(op, L), s) == TotalShares(L, s) + NewShares(op, s)
  {
    var a := Apply(op, L)[op.id];
    OnePut(L, op.id, a, s);
    assert Apply(op, L) == L[op.id := a];
  }

  /** Cash and shares only ever change hands: a move leaves both totals alone, a trade exchanges
      cash against shares of one company at its price, and nothing else is touched. */
  lemma Conserved(op: Op, L: Accounts, s: string)
    requires Allowed(op, L) && !op.Open? && !op.Remove?
    ensures TotalCash(Apply(op, L)) == TotalCash(L) + NewCash(op)
    ensures TotalShares(Apply(op, L), s) == TotalShares(L, s) + NewShares(op, s)
  {
    if op.Move? {
      MoveConserves(op, L, s);
    } else if op.MoveShares? {
      ShareMoveConserves(op, L, s);
    } else {
      OneConserves(op, L, s);
    }
  }

  function At(m: map<string, int>, s: string): int { if s in m then m[s] else 0 }

  ghost predicate Counts(shares: map<string, int>, L: Accounts) {
    forall s :: At(shares, s) == TotalShares(L, s)
  }

  lemma CountsPut(shares: map<string, int>, sum: map<string, int>, L: Accounts, id: string, a: Acct)
    requires Counts(shares, L) && id !in L
    requires forall s :: At(sum, s) == At(shares, s) + (if s in a.pos then a.pos[s].qty else 0)
    ensures Counts(sum, L[id := a])
  {
    forall s
      ensures At(sum, s) == TotalShares(L[id := a], s)
    {
      SharesPut(L, id, a, s);
    }
  }

  // ---- the average-cost rule against exact arithmetic ----

  /** What happens to one holding: shares come in at a known cost, or leave at average cost. */
  datatype Change = In(qty: int, cost: int) | Out(qty: int)

  function Stored(run: seq<Change>): Pos {
    if run == [] then NO_POS else
      var p := Stored(run[..|run| - 1]);
      match run[|run| - 1]
      case In(qty, cost) => More(p, qty, cost)
      case Out(qty) => Less(p, qty)
  }

  /** Every change is one the ledger accepts. */
  predicate Accepted(run: seq<Change>) {
    run == [] ||
    (var p := Stored(run[..|run| - 1]);
     && Accepted(run[..|run| - 1])
     && match run[|run| - 1]
        case In(qty, cost) => qty > 0 && cost >= 0
        case Out(qty) => 0 < qty <= p.qty)
  }

  /** The part of x that belongs to `part` of `whole` shares. */
  ghost function Share(x: real, part: int, whole: int): (y: real)
    requires whole > 0
    ensures y * (whole as real) == x * (part as real)
    ensures part == 0 ==> y == 0.0
  {
    x * (part as real) / (whole as real)
  }

  /** The cost basis with no rounding at all. */
  ghost function Exact(run: seq<Change>): real
    requires Accepted(run)
  {
    if run == [] then 0.0 else
      var p := Stored(run[..|run| - 1]);
      var x := Exact(run[..|run| - 1]);
      match run[|run| - 1]
      case In(qty, cost) => x + cost as real
      case Out(qty) => Share(x, p.qty - qty, p.qty)
  }

  function Outs(run: seq<Change>): nat {
    if run == [] then 0 else Outs(run[..|run| - 1]) + if run[|run| - 1].Out? then 1 else 0
  }

  lemma KeptCost(p: Pos, qty: int)
    requires 0 < qty < p.qty && p.cost >= 0
    ensures var kept := Less(p, qty).cost;
            p.cost * (p.qty - qty) <= kept * p.qty < p.cost * (p.qty - qty) + p.qty
  {
    MulMono(0, p.cost, qty);
    var k := p.cost * qty / p.qty;
    DivRange(p.cost * qty, p.qty);
    assert (p.cost - k) * p.qty == p.cost * p.qty - k * p.qty;
    assert p.cost * (p.qty - qty) == p.cost * p.qty - p.cost * qty;
  }

  lemma KeptNotBelow(c: real, x: real, k: real, r: real, n: real, y: real)
    requires 0.0 <= r && 0.0 < n && x <= c
    requires c * r <= k * n && y * n == x * r
    ensures y <= k
  {
    RMulMono(x, c, r);
    RLessByFactor(y, k, n);
  }

  lemma KeptNotAbove(c: real, x: real, d: real, k: real, r: real, n: real, y: real)
    requires 0.0 <= r <= n && 0.0 < n && c <= x + d && 0.0 <= d
    requires k * n < c * r + n && y * n == x * r
    ensures k < y + d + 1.0
  {
    assert c * r <= x * r + d * n by {
      RMulMono(c, x + d, r);
      RDistribute(x, d, r);
      RMulMono(r, n, d);
    }
    assert (y + d + 1.0) * n == y * n + d * n + n by {
      RDistribute(y + d, 1.0, n);
      RDistribute(y, d, n);
    }
    RLessByFactor(k, y + d + 1.0, n);
  }

  /** One sale: the stored cost rounds up, so it gains less than one paisa on the exact cost. */
  lemma OutStep(p: Pos, qty: int, x: real, d: real)
    requires 0 < qty < p.qty && p.cost >= 0
    requires 0.0 <= p.cost as real - x <= d
    ensures 0.0 <= Less(p, qty).cost as real - Share(x, p.qty - qty, p.qty) < d + 1.0
  {
    var kept := Less(p, qty).cost;
    var r, n := (p.qty - qty) as real, p.qty as real;
    KeptReal(p, qty);
    ShareTimes(x, p.qty - qty, p.qty);
    KeptNotBelow(p.cost as real, x, kept as real, r, n, Share(x, p.qty - qty, p.qty));
    KeptNotAbove(p.cost as real, x, d, kept as real, r, n, Share(x, p.qty - qty, p.qty));
  }

  lemma KeptReal(p: Pos, qty: int)
    requires 0 < qty < p.qty && p.cost >= 0
    ensures var kept, r, n := Less(p, qty).cost as real, (p.qty - qty) as real, p.qty as real;
            (p.cost as real) * r <= kept * n < (p.cost as real) * r + n
  {
    KeptCost(p, qty);
    ProductAsReal(p.cost, p.qty - qty);
    ProductAsReal(Less(p, qty).cost, p.qty);
  }

  lemma ShareTimes(x: real, part: int, whole: int)
    requires whole > 0
    ensures Share(x, part, whole) * whole as real == x * part as real
  {
  }

  lemma OutFinal(run: seq<Change>, p: Pos, qty: int, x: real)
    requires run != [] && Accepted(run)
    requires p == Stored(run[..|run| - 1]) && x == Exact(run[..|run| - 1]) && run[|run| - 1] == Out(qty)
    requires SanePos(p) && 0.0 <= p.cost as real - x <= Outs(run[..|run| - 1]) as real
    ensures SanePos(Stored(run))
    ensures 0.0 <= Stored(run).cost as real - Exact(run) < Outs(run) as real
    ensures Stored(run).qty == 0 ==> Exact(run) == 0.0
  {
    assert Exact(run) == Share(x, p.qty - qty, p.qty);
    LessSane(p, qty);
    if qty < p.qty {
      OutStep(p, qty, x, Outs(run[..|run| - 1]) as real);
    }
  }

  /** Over any run the stored cost is never below the exact one and exceeds it by less than one
      paisa per sale or revocation; an empty holding has no cost at all. */
  lemma {:induction false} AverageCostBound(run: seq<Change>)
    requires Accepted(run)
    ensures SanePos(Stored(run))
    ensures 0.0 <= Stored(run).cost as real - Exact(run) <= Outs(run) as real
    ensures Outs(run) > 0 ==> Stored(run).cost as real - Exact(run) < Outs(run) as real
    ensures Stored(run).qty == 0 ==> Stored(run).cost == 0 && Exact(run) == 0.0
  {
    if run != [] {
      var past := run[..|run| - 1];
      var p := Stored(past);
      AverageCostBound(past);
      if run[|run| - 1].Out? {
        OutFinal(run, p, run[|run| - 1].qty, Exact(past));
      }
    }
  }

  // ---- what an operation does to one account, in amounts ----

  /** What it adds to the account's cash. */
  function CashFor(op: Op, id: string): int {
    match op
    case Trade(who, _, buy, qty, price) => if who != id then 0 else if buy then -(price * qty) else price * qty
    case Cash(who, delta) => if who == id then delta else 0
    case Move(from, to, amount) => if id == from then -amount else if id == to then amount else 0
    case _ => 0
  }

  /** What it adds to the account's shares of this company. */
  function SharesFor(op: Op, id: string, s: string): int {
    match op
    case Trade(who, symbol, buy, qty, _) => if who != id || symbol != s then 0 else if buy then qty else -qty
    case Grant(who, symbol, qty, _) => if who == id && symbol == s then qty else 0
    case Revoke(who, symbol, qty) => if who == id && symbol == s then -qty else 0
    case MoveShares(from, to, symbol, qty, _) => if symbol != s then 0 else if id == from then -qty else if id == to then qty else 0
    case _ => 0
  }

  /** An allowed operation changes the cash and the shares of every account by exactly these amounts. */
  lemma ApplyAmounts(op: Op, L: Accounts, id: string, s: string)
    requires Allowed(op, L) && !op.Open? && !op.Remove? && id in L
    ensures var M := Apply(op, L);
            && M.Keys == L.Keys && M[id].cash == L[id].cash + CashFor(op, id)
            && Held(M[id], s).qty == Held(L[id], s).qty + SharesFor(op, id, s)
  {
  }

  /** Opening gives an account its cash and no shares, unless it is there already; removing takes it away; neither
      touches another one. */
  lemma OpensAndRemoves(L: Accounts, id: string, cash: int)
    ensures Apply(Open(id, cash), L) == if id in L then L else L[id := Acct(cash, map[])]
    ensures id !in Apply(Remove(id), L) && forall other :: other != id ==> SameAt(L, Apply(Remove(id), L), other)
  {
  }

  /** What it does to one holding, as the cost rule sees it: shares come in at what they cost, or leave at average
      cost. */
  function ChangesFor(op: Op, id: string, s: string): seq<Change> {
    match op
    case Trade(who, symbol, buy, qty, price) => if who != id || symbol != s then [] else if buy then [In(qty, price * qty)] else [Out(qty)]
    case Grant(who, symbol, qty, price) => if who == id && symbol == s then [In(qty, price * qty)] else []
    case Revoke(who, symbol, qty) => if who == id && symbol == s then [Out(qty)] else []
    case MoveShares(_, to, symbol, qty, cost) => if to == id && symbol == s then [In(qty, cost)] else []
    case _ => []
  }

  /** It leaves the account in place and takes no shares of the holding at a cost of its own choosing. */
  predicate Gentle(op: Op, id: string, s: string) {
    match op
    case MoveShares(from, _, symbol, _, _) => from != id || symbol != s
    case Open(who, _) => who != id
    case Remove(who) => who != id
    case _ => true
  }

  function ApplyAll(ops: seq<Op>, L: Accounts): Accounts {
    if ops == [] then L else Apply(ops[|ops| - 1], ApplyAll(ops[..|ops| - 1], L))
  }

  function AllChanges(ops: seq<Op>, id: string, s: string): seq<Change> {
    if ops == [] then [] else AllChanges(ops[..|ops| - 1], id, s) + ChangesFor(ops[|ops| - 1], id, s)
  }

  /** Every operation is allowed when it comes. */
  predicate AllowedInTurn(ops: seq<Op>, L: Accounts, id: string, s: string) {
    ops == [] ||
    (var op := ops[|ops| - 1];
     AllowedInTurn(ops[..|ops| - 1], L, id, s) && Allowed(op, ApplyAll(ops[..|ops| - 1], L)) && Gentle(op, id, s))
  }

  lemma StoredMore(past: seq<Change>, x: Change)
    requires Accepted(past)
    ensures x.In? ==> Stored(past + [x]) == More(Stored(past), x.qty, x.cost) && (x.qty > 0 && x.cost >= 0 ==> Accepted(past + [x]))
    ensures x.Out? ==> Stored(past + [x]) == Less(Stored(past), x.qty) && (0 < x.qty <= Stored(past).qty ==> Accepted(past + [x]))
  {
    assert (past + [x])[..|past|] == past;
  }

  /** Another account's or another company's business. */
  lemma HoldingKept(op: Op, L: Accounts, id: string, s: string)
    requires Allowed(op, L) && Gentle(op, id, s) && id in L && ChangesFor(op, id, s) == []
    ensures id in Apply(op, L) && Held(Apply(op, L)[id], s) == Held(L[id], s)
  {
  }

  lemma HoldingIn(op: Op, L: Accounts, id: string, s: string, qty: int, cost: int)
    requires Allowed(op, L) && Gentle(op, id, s) && id in L && ChangesFor(op, id, s) == [In(qty, cost)]
    ensures id in Apply(op, L) && Held(Apply(op, L)[id], s) == More(Held(L[id], s), qty, cost) && qty > 0 && cost >= 0
  {
    if op.Trade? || op.Grant? { MulMono(0, op.price, op.qty); }
  }

  lemma HoldingOut(op: Op, L: Accounts, id: string, s: string, qty: int)
    requires Allowed(op, L) && Gentle(op, id, s) && id in L && ChangesFor(op, id, s) == [Out(qty)]
    ensures id in Apply(op, L) && Held(Apply(op, L)[id], s) == Less(Held(L[id], s), qty) && 0 < qty <= Held(L[id], s).qty
  {
  }

  lemma HoldingChanges(op: Op, L: Accounts, id: string, s: string, past: seq<Change>)
    requires Allowed(op, L) && Gentle(op, id, s) && id in L
    requires Held(L[id], s) == Stored(past) && Accepted(past)
    ensures id in Apply(op, L) && Held(Apply(op, L)[id], s) == Stored(past + ChangesFor(op, id, s)) && Accepted(past + ChangesFor(op, id, s))
  {
    var xs := ChangesFor(op, id, s);
    if xs == [] {
      HoldingKept(op, L, id, s);
      assert past + xs == past;
    } else {
      StoredMore(past, xs[0]);
      assert xs == [xs[0]];
      match xs[0]
      case In(qty, cost) => HoldingIn(op, L, id, s, qty, cost);
      case Out(qty) => HoldingOut(op, L, id, s, qty);
    }
  }

  lemma {:induction false} RunChanges(ops: seq<Op>, L: Accounts, id: string, s: string)
    requires AllowedInTurn(ops, L, id, s) && id in L && Held(L[id], s) == NO_POS
    ensures id in ApplyAll(ops, L) && Held(ApplyAll(ops, L)[id], s) == Stored(AllChanges(ops, id, s)) && Accepted(AllChanges(ops, id, s))
  {
    if ops != [] {
      var past, op := ops[..|ops| - 1], ops[|ops| - 1];
      RunChanges(past, L, id, s);
      HoldingChanges(op, ApplyAll(past, L), id, s, AllChanges(past, id, s));
    }
  }

  /** Over any run of allowed operations on any accounts: a holding that began empty has the cost that the exact rule
      gives it, never less, and less than a paisa more for each sale or revocation. */
  lemma AccountCostBound(ops: seq<Op>, L: Accounts, id: string, s: string)
    requires AllowedInTurn(ops, L, id, s) && id in L && Held(L[id], s) == NO_POS
    ensures id in ApplyAll(ops, L) && Accepted(AllChanges(ops, id, s))
    ensures var p, run := Held(ApplyAll(ops, L)[id], s), AllChanges(ops, id, s);
            && SanePos(p) && 0.0 <= p.cost as real - Exact(run) <= Outs(run) as real
            && (Outs(run) > 0 ==> p.cost as real - Exact(run) < Outs(run) as real)
            && (p.qty == 0 ==> p.cost == 0 && Exact(run) == 0.0)
  {
    RunChanges(ops, L, id, s);
    AverageCostBound(AllChanges(ops, id, s));
  }

  /** How a live trade ends: the checks in the source's order, then the commit. */
  function TradeVerdict(L: Accounts, id: string, symbol: string, buy: bool, qty: int, price: int, up: bool): Outcome {
    if qty <= 0 || price <= 0 || symbol == "" then Refused(Invalid)
    else if id !in L then Refused(UnknownAccount)
    else if buy && L[id].cash < price * qty then Refused(InsufficientCash)
    else if !buy && Held(L[id], symbol).qty < qty then Refused(InsufficientShares)
    else if !up then Refused(NotDurable)
    else Done
  }

  /** A trade goes through exactly when its checks pass and it could be made durable. */
  lemma TradeDoneIff(L: Accounts, id: string, symbol: string, buy: bool, qty: int, price: int, up: bool)
    ensures TradeVerdict(L, id, symbol, buy, qty, price, up).Done?
       <==> Allowed(Trade(id, symbol, buy, qty, price), L) && up
  {
  }

  // ---- the ledger as objects: one record per account, changed in place ----

  datatype Refusal = Invalid | UnknownAccount | AccountExists | InsufficientCash | InsufficientShares | NotDurable

  datatype Outcome = Done | Refused(why: Refusal)

  class Account {
    var cash: int
    var pos: map<string, Pos>

    constructor (cash: int)
      ensures this.cash == cash && pos == map[]
    {
      this.cash, pos := cash, map[];
    }

    function Value(): Acct
      reads this
    {
      Acct(cash, pos)
    }

    method ApplyTrade(symbol: string, buy: bool, qty: int, price: int)
      modifies this
      ensures Value() == Traded(old(Value()), symbol, buy, qty, price)
    {
      var notional := price * qty;
      var p := if symbol in pos then pos[symbol] else NO_POS;
      if buy {
        cash := cash - notional;
        pos := pos[symbol := Pos(p.qty + qty, p.cost + notional)];
      } else {
        cash := cash + notional;
        TakeOut(symbol, qty);
      }
    }

    method TakeOut(symbol: string, qty: int)
      modifies this`pos
      ensures Value() == Put(old(Value()), symbol, Less(Held(old(Value()), symbol), qty))
    {
      var p := if symbol in pos then pos[symbol] else NO_POS;
      var cost := p.cost;
      if p.qty > 0 {
        cost := cost - TDiv(cost * Min(qty, p.qty), p.qty);
      }
      var left := p.qty - qty;
      if left <= 0 {
        left, cost := 0, 0;
      }
      pos := pos[symbol := Pos(left, cost)];
    }

    /** Exactly this cost leaves with the shares. */
    method GiveUp(symbol: string, qty: int, cost: int)
      modifies this`pos
      ensures Value() == GivenUp(old(Value()), symbol, qty, cost)
    {
      if symbol in pos {
        var p := pos[symbol];
        p := Pos(p.qty - qty, p.cost - cost);
        if p.qty <= 0 {
          p := NO_POS;
        }
        pos := pos[symbol := p];
      }
    }

    method PutIn(symbol: string, qty: int, cost: int)
      modifies this`pos
      ensures Value() == Put(old(Value()), symbol, More(Held(old(Value()), symbol), qty, cost))
    {
      var p := if symbol in pos then pos[symbol] else NO_POS;
      pos := pos[symbol := Pos(p.qty + qty, p.cost + cost)];
    }
  }

  class Ledger {
    var accts: map<string, Account>

    constructor ()
      ensures Valid() && Contents() == map[] && accts == map[]
    {
      accts := map[];
    }

    ghost predicate Valid()
      reads this
    {
      forall a, b :: a in accts && b in accts && a != b ==> accts[a] != accts[b]
    }

    ghost function Contents(): Accounts
      reads this, accts.Values
    {
      map id | id in accts :: accts[id].Value()
    }

    method OpenAccount(id: string, cash: int) returns (r: Outcome)
      requires Valid()
      modifies this
      ensures Valid()
      ensures r == if id == "" || cash < 0 then Refused(Invalid)
                   else if id in old(accts) then Refused(AccountExists) else Done
      ensures Contents() == if r.Done? then Apply(Open(id, cash), old(Contents())) else old(Contents())
      ensures r.Done? ==> Allowed(Open(id, cash), old(Contents()))
    {
      if id == "" || cash < 0 { return Refused(Invalid); }
      if id in accts { return Refused(AccountExists); }
      var a := new Account(cash);
      accts := accts[id := a];
      r := Done;
    }

    /** Check, make durable, then apply: if the check or the commit fails nothing changes. */
    method TradeAt<R>(id: string, symbol: string, buy: bool, qty: int, price: int,
                      journal: Journal<R>, rec: R, up: bool)
      returns (r: Outcome)
      requires Valid()
      requires forall i :: i in accts ==> accts[i] as object != journal
      requires this as object != journal
      modifies accts.Values, journal
      ensures Valid()
      ensures r == TradeVerdict(old(Contents()), id, symbol, buy, qty, price, up)
      ensures Contents() == if r.Done? then Apply(Trade(id, symbol, buy, qty, price), old(Contents()))
                            else old(Contents())
      ensures journal.log == if r.Done? then old(journal.log) + [rec] else old(journal.log)
    {
      if qty <= 0 || price <= 0 || symbol == "" { return Refused(Invalid); }
      if id !in accts { return Refused(UnknownAccount); }
      var a := accts[id];
      var notional := price * qty;
      if buy {
        if a.cash < notional { return Refused(InsufficientCash); }
      } else if symbol !in a.pos || a.pos[symbol].qty < qty {
        return Refused(InsufficientShares);
      }
      var ok := journal.Commit(rec, up);
      if !ok { return Refused(NotDurable); }
      a.ApplyTrade(symbol, buy, qty, price);
      r := Done;
    }

    /** Replaying does not refuse: the log is the record of what happened. */
    method ReplayTrade(id: string, symbol: string, buy: bool, qty: int, price: int) returns (r: Outcome)
      requires Valid()
      modifies accts.Values
      ensures Valid()
      ensures r == if id in accts then Done else Refused(UnknownAccount)
      ensures Contents() == Apply(Trade(id, symbol, buy, qty, price), old(Contents()))
    {
      if id !in accts { return Refused(UnknownAccount); }
      accts[id].ApplyTrade(symbol, buy, qty, price);
      r := Done;
    }

    method GrantShares(id: string, symbol: string, qty: int, price: int) returns (r: Outcome)
      requires Valid()
      modifies accts.Values
      ensures Valid()
      ensures r.Done? <==> Allowed(Grant(id, symbol, qty, price), old(Contents()))
      ensures Contents() == if r.Done? then Apply(Grant(id, symbol, qty, price), old(Contents())) else old(Contents())
    {
      if qty <= 0 || price < 0 { return Refused(Invalid); }
      if id !in accts { return Refused(UnknownAccount); }
      accts[id].PutIn(symbol, qty, price * qty);
      r := Done;
    }

    method RevokeShares(id: string, symbol: string, qty: int, force: bool) returns (r: Outcome)
      requires Valid()
      modifies accts.Values
      ensures Valid()
      ensures !force ==> (r.Done? <==> Allowed(Revoke(id, symbol, qty), old(Contents())))
      ensures force && qty > 0 ==> (r.Done? <==> id in accts && symbol in old(accts[id].pos))
      ensures Contents() == if r.Done? then Apply(Revoke(id, symbol, qty), old(Contents())) else old(Contents())
    {
      if qty <= 0 { return Refused(Invalid); }
      if id !in accts { return Refused(UnknownAccount); }
      var a := accts[id];
      if symbol !in a.pos || (!force && a.pos[symbol].qty < qty) { return Refused(InsufficientShares); }
      a.TakeOut(symbol, qty);
      r := Done;
    }

    method AdjustCash(id: string, delta: int, force: bool) returns (r: Outcome)
      requires Valid()
      modifies accts.Values
      ensures Valid()
      ensures !force ==> (r.Done? <==> Allowed(Cash(id, delta), old(Contents())))
      ensures force ==> (r.Done? <==> id in accts)
      ensures Contents() == if r.Done? then Apply(Cash(id, delta), old(Contents())) else old(Contents())
    {
      if id !in accts { return Refused(UnknownAccount); }
      var a := accts[id];
      if !force && a.cash + delta < 0 { return Refused(InsufficientCash); }
      a.cash := a.cash + delta;
      r := Done;
    }

    /** Both accounts change as one step, after the record is durable. */
    method MoveCash<R>(from: string, to: string, amount: int, journal: Journal<R>, rec: R, up: bool)
      returns (r: Outcome)
      requires Valid()
      requires forall i :: i in accts ==> accts[i] as object != journal
      requires this as object != journal
      modifies accts.Values, journal
      ensures Valid()
      ensures var op := Move(from, to, amount);
              && (r.Done? <==> Allowed(op, old(Contents())) && up)
              && Contents() == (if r.Done? then Apply(op, old(Contents())) else old(Contents()))
      ensures journal.log == if r.Done? then old(journal.log) + [rec] else old(journal.log)
    {
      if amount <= 0 || from == to { return Refused(Invalid); }
      if from !in accts || to !in accts { return Refused(UnknownAccount); }
      var src, dst := accts[from], accts[to];
      if src.cash < amount { return Refused(InsufficientCash); }
      var ok := journal.Commit(rec, up);
      if !ok { return Refused(NotDurable); }
      src.cash := src.cash - amount;
      dst.cash := dst.cash + amount;
      r := Done;
    }

    method ReplayMove(from: string, to: string, amount: int) returns (r: Outcome)
      requires Valid()
      modifies accts.Values
      ensures Valid()
      ensures r.Done? <==> from in accts && to in accts
      ensures Contents() == Apply(Move(from, to, amount), old(Contents()))
    {
      if from !in accts || to !in accts { return Refused(UnknownAccount); }
      accts[from].cash := accts[from].cash - amount;
      accts[to].cash := accts[to].cash + amount;
      r := Done;
    }

    /** Moves shares with exactly the given cost. The caller has checked that they are there. */
    method MoveSharesOf(from: string, to: string, symbol: string, qty: int, cost: int) returns (r: Outcome)
      requires Valid()
      modifies accts.Values
      ensures Valid()
      ensures r.Done? <==> qty > 0 && from != to && from in accts && to in accts
      ensures Contents() == if r.Done? then Apply(MoveShares(from, to, symbol, qty, cost), old(Contents()))
                            else old(Contents())
    {
      if qty <= 0 || from == to { return Refused(Invalid); }
      if from !in accts || to !in accts { return Refused(UnknownAccount); }
      var src, dst := accts[from], accts[to];
      src.GiveUp(symbol, qty, cost);
      dst.PutIn(symbol, qty, cost);
      r := Done;
    }

    /** The cash of every account and the shares of each company, accumulated account by account. */
    method Total() returns (cash: int, shares: map<string, int>)
      ensures cash == TotalCash(Contents())
      ensures forall s :: At(shares, s) == TotalShares(Contents(), s)
    {
      cash, shares := 0, map[];
      var left := accts.Keys;
      ghost var all := Contents();
      ghost var done: Accounts := map[];
      while left != {}
        invariant left <= accts.Keys == all.Keys
        invariant done.Keys == all.Keys - left && forall id :: id in done ==> done[id] == all[id]
        invariant cash == TotalCash(done)
        invariant Counts(shares, done)
        decreases left
      {
        var id :| id in left;
        cash := cash + accts[id].cash;
        var sum := AddAll(shares, accts[id].pos);
        CountsPut(shares, sum, done, id, all[id]);
        CashPut(done, id, all[id]);
        shares, done, left := sum, done[id := all[id]], left - {id};
      }
      assert done == all;
    }

    static method AddAll(shares: map<string, int>, pos: map<string, Pos>) returns (sum: map<string, int>)
      ensures forall s :: At(sum, s) == At(shares, s) + (if s in pos then pos[s].qty else 0)
    {
      sum := shares;
      var left := pos.Keys;
      while left != {}
        invariant left <= pos.Keys
        invariant forall s :: At(sum, s) == At(shares, s) + (if s in pos && s !in left then pos[s].qty else 0)
        decreases left
      {
        var s :| s in left;
        sum := sum[s := At(sum, s) + pos[s].qty];
        left := left - {s};
      }
    }

    method RemoveAccount(id: string)
      requires Valid()
      modifies this
      ensures Valid()
      ensures Contents() == Apply(Remove(id), old(Contents()))
    {
      accts := accts - {id};
    }
  }
}

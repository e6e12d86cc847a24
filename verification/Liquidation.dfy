/** Selling a slice of everything a fund holds, so that it can pay someone out. */
module Liquidation {
  import opened Numeric
  import opened Options
  import L = Ledger
  import T = Trading
  import F = Formation

  datatype Outcome = Ok | NoAccount | Illiquid | Failed(error: T.Error)

  /** What the market and the log answer while the fund sells: company by company. */
  type Env = string -> T.World

  ghost predicate PricesAre(env: Env, price: map<string, int>) {
    forall s :: env(s).price == if s in price then Some(price[s]) else None
  }

  /** The part of a holding to sell: rounded up, never more than there is. */
  function Slice(qty: int, frac: real): int { Min(Ceil(qty as real * frac), qty) }

  lemma SliceBounds(qty: int, frac: real)
    requires qty >= 0 && 0.0 < frac <= 1.0
    ensures 0 <= Slice(qty, frac) <= qty
    ensures qty > 0 ==> Slice(qty, frac) > 0
    ensures Slice(qty, frac) as real >= qty as real * frac
  {
    RMulMono(frac, 1.0, qty as real);
    RMulMono(0.0, qty as real, frac);
    if qty > 0 { assert qty as real * frac > 0.0; }
  }

  function Order(env: Env, account: string, s: string, qty: int, stage: string): T.Request {
    T.Request("liq-" + env(s).id, account, s, T.Sell, qty, 0, stage)
  }

  /** The priced holdings' value. */
  function HeldValue(a: L.Acct, symbols: seq<string>, price: map<string, int>): int {
    if symbols == [] then 0
    else (if symbols[0] in price then price[symbols[0]] * L.Held(a, symbols[0]).qty else 0) + HeldValue(a, symbols[1..], price)
  }

  function Fraction(short: int, held: int): real
    requires held > 0
  {
    RMin(1.0, short as real / held as real * 1.001 + 0.000000001)
  }

  /** Sells so many shares of a company. */
  type Seller = (T.State, string, int) -> (T.State, T.Reply)

  /** Sales go through the trading service, under new ids. */
  function Sales(env: Env, account: string, stage: string): Seller {
    (s: T.State, symbol: string, qty: int) => T.Exec(s, Order(env, account, symbol, qty, stage), env(symbol))
  }

  predicate Enough(s: T.State, account: string, need: int) { account in s.accounts && s.accounts[account].cash >= need }

  /** A company and how many of its shares to sell. */
  type Part = (string, int)

  /** Of each holding the same part. */
  function Parts(snap: L.Acct, symbols: seq<string>, slice: int -> int): seq<Part> {
    if |symbols| == 0 then []
    else [(symbols[0], slice(L.Held(snap, symbols[0]).qty))] + Parts(snap, symbols[1..], slice)
  }

  /** The slices that raise what is short from what is held. */
  function Slicer(short: int, held: int): int -> int
    requires held > 0
  {
    (qty: int) => Slice(qty, Fraction(short, held))
  }

  /** Company by company, stopping as soon as the cash is there. */
  function SellEach(s: T.State, account: string, parts: seq<Part>, need: int, sell: Seller): (T.State, Outcome)
    decreases |parts|
  {
    if |parts| == 0 then (s, Ok)
    else if parts[0].1 <= 0 then SellEach(s, account, parts[1..], need, sell)
    else
      var sale := sell(s, parts[0].0, parts[0].1);
      if sale.1.Failed? then (sale.0, Failed(sale.1.error))
      else if Enough(sale.0, account, need) then (sale.0, Ok)
      else SellEach(sale.0, account, parts[1..], need, sell)
  }

  function Raise(s: T.State, account: string, symbols: seq<string>, price: map<string, int>, need: int, sell: Seller)
    : (T.State, Outcome)
  {
    if account !in s.accounts then (s, NoAccount)
    else
      var snap := s.accounts[account];
      if snap.cash >= need then (s, Ok)
      else if HeldValue(snap, symbols, price) <= 0 then (s, Illiquid)
      else SellEach(s, account, Parts(snap, symbols, Slicer(need - snap.cash, HeldValue(snap, symbols, price))), need, sell)
  }

  // ---- as the source runs it ----

  method HeldNow(a: L.Acct, symbols: seq<string>, price: map<string, int>) returns (held: int)
    ensures held == HeldValue(a, symbols, price)
  {
    held := 0;
    for i := 0 to |symbols|
      invariant HeldValue(a, symbols, price) == held + HeldValue(a, symbols[i..], price)
    {
      assert symbols[i..][1..] == symbols[i + 1..];
      if symbols[i] in price { held := held + price[symbols[i]] * L.Held(a, symbols[i]).qty; }
    }
  }

  method SellSlice(exec: T.Executor, account: string, symbol: string, qty: int, env: Env, stage: string) returns (reply: T.Reply)
    requires exec.Valid()
    modifies exec, exec.ledger.accts.Values, exec.journal
    ensures exec.Valid()
    ensures (exec.Current(), reply) == Sales(env, account, stage)(old(exec.Current()), symbol, qty)
  {
    reply := exec.Execute(Order(env, account, symbol, qty, stage), env(symbol));
  }

  method CashReached(exec: T.Executor, account: string, need: int) returns (yes: bool)
    ensures yes <==> Enough(exec.Current(), account, need)
  {
    yes := account in exec.ledger.accts && exec.ledger.accts[account].cash >= need;
  }

  /** One company's turn. */
  method SellNext(exec: T.Executor, account: string, ghost parts: seq<Part>, symbol: string, qty: int, need: int, env: Env, stage: string)
    returns (stop: bool, r: Outcome)
    requires exec.Valid() && |parts| > 0 && parts[0] == (symbol, qty)
    modifies exec, exec.ledger.accts.Values, exec.journal
    ensures exec.Valid()
    ensures SellEach(old(exec.Current()), account, parts, need, Sales(env, account, stage))
         == if stop then (exec.Current(), r) else SellEach(exec.Current(), account, parts[1..], need, Sales(env, account, stage))
    ensures !stop ==> r == Ok
  {
    stop, r := false, Ok;
    if qty <= 0 { return; }
    var reply := SellSlice(exec, account, symbol, qty, env, stage);
    if reply.Failed? { return true, Failed(reply.error); }
    stop := CashReached(exec, account, need);
  }

  lemma RaiseSells(s: T.State, account: string, symbols: seq<string>, price: map<string, int>, need: int, sell: Seller)
    requires account in s.accounts && s.accounts[account].cash < need && HeldValue(s.accounts[account], symbols, price) > 0
    ensures var snap := s.accounts[account];
            Raise(s, account, symbols, price, need, sell)
            == SellEach(s, account, Parts(snap, symbols, Slicer(need - snap.cash, HeldValue(snap, symbols, price))), need, sell)
  {
  }

  method RaiseFundCash(exec: T.Executor, account: string, symbols: seq<string>, price: map<string, int>, need: int, env: Env, stage: string)
    returns (r: Outcome)
    requires exec.Valid()
    modifies exec, exec.ledger.accts.Values, exec.journal
    ensures exec.Valid()
    ensures (exec.Current(), r) == Raise(old(exec.Current()), account, symbols, price, need, Sales(env, account, stage))
  {
    if account !in exec.ledger.accts { return NoAccount; }
    var snap := exec.ledger.accts[account].Value();
    if snap.cash >= need { return Ok; }
    var held := HeldNow(snap, symbols, price);
    if held <= 0 { return Illiquid; }
    RaiseSells(exec.Current(), account, symbols, price, need, Sales(env, account, stage));
    r := SellSlices(exec, snap, account, symbols, need - snap.cash, held, need, env, stage);
  }

  lemma PartsFrom(snap: L.Acct, symbols: seq<string>, i: nat, slice: int -> int)
    requires i < |symbols|
    ensures var parts := Parts(snap, symbols[i..], slice);
            && |parts| > 0 && parts[0] == (symbols[i], slice(L.Held(snap, symbols[i]).qty))
            && parts[1..] == Parts(snap, symbols[i + 1..], slice)
  {
    assert symbols[i..][1..] == symbols[i + 1..];
  }

  method SliceOf(qty: int, short: int, held: int) returns (part: int)
    requires held > 0
    ensures part == Slicer(short, held)(qty)
  {
    var frac := RMin(1.0, short as real / held as real * 1.001 + 0.000000001);
    part := Ceil(qty as real * frac);
    if part > qty { part := qty; }
  }

  method SellSlices(exec: T.Executor, snap: L.Acct, account: string, symbols: seq<string>, short: int, held: int, need: int,
                    env: Env, stage: string)
    returns (r: Outcome)
    requires exec.Valid() && held > 0
    modifies exec, exec.ledger.accts.Values, exec.journal
    ensures exec.Valid()
    ensures (exec.Current(), r)
         == SellEach(old(exec.Current()), account, Parts(snap, symbols, Slicer(short, held)), need, Sales(env, account, stage))
  {
    r := Ok;
    ghost var was, slice := exec.Current(), Slicer(short, held);
    assert symbols[0..] == symbols;
    for i := 0 to |symbols|
      invariant exec.Valid() && exec.ledger.accts == old(exec.ledger.accts) && r == Ok
      invariant SellEach(was, account, Parts(snap, symbols, slice), need, Sales(env, account, stage))
             == SellEach(exec.Current(), account, Parts(snap, symbols[i..], slice), need, Sales(env, account, stage))
    {
      PartsFrom(snap, symbols, i, slice);
      var qty := SliceOf(L.Held(snap, symbols[i]).qty, short, held);
      var stop, answer := SellNext(exec, account, Parts(snap, symbols[i..], slice), symbols[i], qty, need, env, stage);
      if stop { return answer; }
    }
  }

  // ---- what it achieves ----

  /** A sale that nothing stands in the way of: a positive price, no objection, a working log. */
  predicate Sellable(account: string, env: Env, symbol: string, price: map<string, int>) {
    && account != "" && symbol != ""
    && symbol in price && price[symbol] > 0
    && env(symbol).guard && env(symbol).up
  }

  /** What one sale may do. */
  predicate SaleRight(s: T.State, account: string, symbol: string, qty: int, env: Env, price: map<string, int>,
                      t: T.State, reply: T.Reply)
  {
    && (reply.Failed? ==> t == s)
    && (Sellable(account, env, symbol, price) && Fresh(s, account, env, symbol) && account in s.accounts && 0 < qty <= L.Held(s.accounts[account], symbol).qty ==>
          reply.Traded? && Sold(s, account, symbol, qty, price, t) && t.seen.Keys == s.seen.Keys + {(account, "liq-" + env(symbol).id)})
    && (symbol !in price && Fresh(s, account, env, symbol) ==> reply.Failed?)
    && (t.accounts != s.accounts ==>
          account in s.accounts && symbol in price && 0 < qty <= L.Held(s.accounts[account], symbol).qty
          && Sold(s, account, symbol, qty, price, t))
  }

  predicate Sold(s: T.State, account: string, symbol: string, qty: int, price: map<string, int>, t: T.State) {
    && symbol in price && account in s.accounts
    && t.accounts == s.accounts[account := L.Traded(s.accounts[account], symbol, false, qty, price[symbol])]
  }

  ghost predicate Honest(sell: Seller, account: string, env: Env, price: map<string, int>) {
    forall s, symbol, qty :: SaleRight(s, account, symbol, qty, env, price, sell(s, symbol, qty).0, sell(s, symbol, qty).1)
  }

  /** The trading service sells honestly. */
  lemma SalesAreHonest(env: Env, account: string, stage: string, price: map<string, int>)
    requires PricesAre(env, price)
    ensures Honest(Sales(env, account, stage), account, env, price)
  {
    forall s: T.State, symbol: string, qty: int
      ensures SaleRight(s, account, symbol, qty, env, price, Sales(env, account, stage)(s, symbol, qty).0,
                        Sales(env, account, stage)(s, symbol, qty).1)
    {
      T.ExecEither(s, Order(env, account, symbol, qty, stage), env(symbol));
      assert env(symbol).price == if symbol in price then Some(price[symbol]) else None;
    }
  }

  /** What is still to be sold is there, each company once, under an id of its own. */
  ghost predicate Planned(s: T.State, account: string, parts: seq<Part>, env: Env) {
    && account in s.accounts
    && (forall i :: 0 <= i < |parts| ==> parts[i].1 <= L.Held(s.accounts[account], parts[i].0).qty)
    && (forall i, j :: 0 <= i < j < |parts| ==> parts[i].0 != parts[j].0 && env(parts[i].0).id != env(parts[j].0).id)
    && (forall i :: 0 <= i < |parts| ==> Fresh(s, account, env, parts[i].0))
  }

  predicate Fresh(s: T.State, account: string, env: Env, symbol: string) { (account, "liq-" + env(symbol).id) !in s.seen }

  ghost predicate AllClear(s: T.State, account: string, parts: seq<Part>, env: Env, price: map<string, int>) {
    forall i :: 0 <= i < |parts| && parts[i].1 > 0 ==> Sellable(account, env, parts[i].0, price)
  }

  lemma IdsDiffer(a: string, b: string)
    requires a != b
    ensures "liq-" + a != "liq-" + b
  {
    assert a == ("liq-" + a)[4..];
    assert b == ("liq-" + b)[4..];
  }

  lemma RestPlanned(s: T.State, t: T.State, account: string, parts: seq<Part>, env: Env, price: map<string, int>)
    requires |parts| > 0 && Planned(s, account, parts, env)
    requires t == s || (Sold(s, account, parts[0].0, parts[0].1, price, t)
                        && t.seen.Keys == s.seen.Keys + {(account, "liq-" + env(parts[0].0).id)})
    ensures Planned(t, account, parts[1..], env)
  {
    var rest := parts[1..];
    forall i | 0 <= i < |rest|
      ensures rest[i].1 <= L.Held(t.accounts[account], rest[i].0).qty && Fresh(t, account, env, rest[i].0)
    {
      assert rest[i] == parts[i + 1] && rest[i].0 != parts[0].0 && Fresh(s, account, env, parts[i + 1].0);
      IdsDiffer(env(parts[0].0).id, env(parts[i + 1].0).id);
    }
  }

  /** What the parts bring at their prices. */
  function Proceeds(parts: seq<Part>, price: map<string, int>): int {
    if |parts| == 0 then 0
    else (if parts[0].1 > 0 && parts[0].0 in price then price[parts[0].0] * parts[0].1 else 0) + Proceeds(parts[1..], price)
  }

  /** Everything planned can be sold: the cash is reached, or everything was sold. */
  lemma {:induction false} SellEachReaches(s: T.State, account: string, parts: seq<Part>, need: int, sell: Seller, env: Env, price: map<string, int>)
    requires Honest(sell, account, env, price) && Planned(s, account, parts, env) && AllClear(s, account, parts, env, price)
    ensures var all := SellEach(s, account, parts, need, sell);
            && all.1 == Ok && account in all.0.accounts
            && (Enough(all.0, account, need) || all.0.accounts[account].cash == s.accounts[account].cash + Proceeds(parts, price))
    decreases |parts|
  {
    if |parts| > 0 {
      var t := s;
      if parts[0].1 > 0 {
        t := sell(s, parts[0].0, parts[0].1).0;
        assert Sellable(account, env, parts[0].0, price) && Fresh(s, account, env, parts[0].0);
        assert SaleRight(s, account, parts[0].0, parts[0].1, env, price, t, sell(s, parts[0].0, parts[0].1).1);
      }
      if t == s || !Enough(t, account, need) {
        RestPlanned(s, t, account, parts, env, price);
        assert forall i :: 0 <= i < |parts[1..]| ==> parts[1..][i] == parts[i + 1];
        SellEachReaches(t, account, parts[1..], need, sell, env, price);
      }
    }
  }

  /** The selling comes to a company without a price before the cash is there. */
  ghost predicate Blocked(cash: int, parts: seq<Part>, need: int, price: map<string, int>) {
    exists k :: 0 <= k < |parts| && parts[k].1 > 0 && parts[k].0 !in price && cash + Proceeds(parts[..k], price) < need
  }

  lemma ProceedsFirst(parts: seq<Part>, k: nat, price: map<string, int>)
    requires 0 < k <= |parts|
    ensures Proceeds(parts[..k], price) == Proceeds(parts[..1], price) + Proceeds(parts[1..][..k - 1], price)
  {
    assert parts[..k][1..] == parts[1..][..k - 1];
    assert parts[..1][1..] == [];
  }

  lemma {:induction false} ProceedsGrow(parts: seq<Part>, price: map<string, int>)
    requires forall s :: s in price ==> price[s] > 0
    ensures Proceeds(parts, price) >= 0
  {
    if |parts| > 0 {
      ProceedsGrow(parts[1..], price);
      if parts[0].1 > 0 && parts[0].0 in price { MulMono(0, price[parts[0].0], parts[0].1); }
    }
  }

  /** Whether the rest is blocked, seen from the first part. */
  lemma BlockedRest(cash: int, parts: seq<Part>, need: int, price: map<string, int>)
    requires |parts| > 0 && !(parts[0].1 > 0 && parts[0].0 !in price)
    ensures Blocked(cash, parts, need, price) <==> Blocked(cash + Proceeds(parts[..1], price), parts[1..], need, price)
  {
    var rest := parts[1..];
    if Blocked(cash, parts, need, price) {
      var k :| 0 <= k < |parts| && parts[k].1 > 0 && parts[k].0 !in price && cash + Proceeds(parts[..k], price) < need;
      ProceedsFirst(parts, k, price);
      assert rest[k - 1] == parts[k];
    }
    if Blocked(cash + Proceeds(parts[..1], price), rest, need, price) {
      var k :| 0 <= k < |rest| && rest[k].1 > 0 && rest[k].0 !in price
               && cash + Proceeds(parts[..1], price) + Proceeds(rest[..k], price) < need;
      ProceedsFirst(parts, k + 1, price);
      assert parts[k + 1] == rest[k];
    }
  }

  lemma NotBlocked(cash: int, parts: seq<Part>, need: int, price: map<string, int>)
    requires cash >= need && forall s :: s in price ==> price[s] > 0
    ensures !Blocked(cash, parts, need, price)
  {
    forall k | 0 <= k < |parts|
      ensures Proceeds(parts[..k], price) >= 0
    {
      ProceedsGrow(parts[..k], price);
    }
  }

  /** Nothing else stands in the way: the priced companies can be sold. */
  ghost predicate PricedSell(account: string, env: Env, price: map<string, int>) {
    && (forall s :: s in price ==> price[s] > 0)
    && (forall s :: s in price ==> Sellable(account, env, s, price))
  }

  lemma OnePart(parts: seq<Part>, price: map<string, int>)
    requires |parts| > 0
    ensures Proceeds(parts[..1], price) == if parts[0].1 > 0 && parts[0].0 in price then price[parts[0].0] * parts[0].1 else 0
  {
    assert parts[..1][1..] == [];
  }

  /** The selling ends with an error if and only if it is blocked by a company without a price. */
  lemma {:induction false} SellEachFailsIff(s: T.State, account: string, parts: seq<Part>, need: int, sell: Seller, env: Env, price: map<string, int>)
    requires Honest(sell, account, env, price) && Planned(s, account, parts, env) && PricedSell(account, env, price)
    requires s.accounts[account].cash < need
    ensures SellEach(s, account, parts, need, sell).1.Failed? <==> Blocked(s.accounts[account].cash, parts, need, price)
    decreases |parts|
  {
    var cash := s.accounts[account].cash;
    if |parts| > 0 {
      assert Fresh(s, account, env, parts[0].0);
      var t, reply := sell(s, parts[0].0, parts[0].1).0, sell(s, parts[0].0, parts[0].1).1;
      assert SaleRight(s, account, parts[0].0, parts[0].1, env, price, t, reply);
      OnePart(parts, price);
      if parts[0].1 <= 0 {
        BlockedRest(cash, parts, need, price);
        RestPlanned(s, s, account, parts, env, price);
        SellEachFailsIff(s, account, parts[1..], need, sell, env, price);
      } else if parts[0].0 !in price {
        assert Proceeds(parts[..0], price) == 0;
      } else {
        assert Sellable(account, env, parts[0].0, price);
        BlockedRest(cash, parts, need, price);
        if Enough(t, account, need) {
          NotBlocked(t.accounts[account].cash, parts[1..], need, price);
        } else {
          RestPlanned(s, t, account, parts, env, price);
          SellEachFailsIff(t, account, parts[1..], need, sell, env, price);
        }
      }
    }
  }

  // ---- the slices of a fund's holdings ----

  /** The snapshot's holdings, each company once, under ids not used before. */
  ghost predicate Listed(s: T.State, account: string, symbols: seq<string>, env: Env) {
    && account in s.accounts && L.SaneAcct(s.accounts[account])
    && (forall i, j :: 0 <= i < j < |symbols| ==> symbols[i] != symbols[j] && env(symbols[i]).id != env(symbols[j]).id)
    && (forall i :: 0 <= i < |symbols| ==> Fresh(s, account, env, symbols[i]))
  }

  /** Never more than is held, and something of everything that is held. */
  ghost predicate Fits(slice: int -> int) {
    forall q :: q >= 0 ==> 0 <= slice(q) <= q && (q > 0 ==> slice(q) > 0)
  }

  lemma {:induction false} PartsAre(snap: L.Acct, symbols: seq<string>, slice: int -> int)
    requires L.SaneAcct(snap) && Fits(slice)
    ensures var parts := Parts(snap, symbols, slice);
            |parts| == |symbols| && forall i :: 0 <= i < |parts| ==>
              parts[i].0 == symbols[i] && 0 <= parts[i].1 <= L.Held(snap, symbols[i]).qty
              && (L.Held(snap, symbols[i]).qty > 0 ==> parts[i].1 > 0)
  {
    if |symbols| > 0 {
      PartsAre(snap, symbols[1..], slice);
      assert L.SanePos(L.Held(snap, symbols[0]));
    }
  }

  lemma PartsPlanned(s: T.State, account: string, symbols: seq<string>, slice: int -> int, env: Env)
    requires Listed(s, account, symbols, env) && Fits(slice)
    ensures Planned(s, account, Parts(s.accounts[account], symbols, slice), env)
  {
    PartsAre(s.accounts[account], symbols, slice);
  }

  /** A share of an amount, additive in the amount, that every slice brings at any price. */
  ghost predicate Brings(slice: int -> int, share: int -> real) {
    && share(0) == 0.0
    && (forall x, y, z :: x + y == z ==> share(x) + share(y) == share(z))
    && (forall q, price :: q >= 0 && price > 0 ==> BringsOne(q, slice(q), price, share))
  }

  ghost predicate BringsOne(qty: int, part: int, price: int, share: int -> real) {
    (price * part) as real >= share(price * qty)
  }

  lemma {:induction false} PartsProceeds(snap: L.Acct, symbols: seq<string>, slice: int -> int, share: int -> real, price: map<string, int>)
    requires L.SaneAcct(snap) && Fits(slice) && Brings(slice, share) && forall s :: s in price ==> price[s] > 0
    ensures Proceeds(Parts(snap, symbols, slice), price) as real >= share(HeldValue(snap, symbols, price))
  {
    if |symbols| > 0 {
      PartsProceeds(snap, symbols[1..], slice, share, price);
      var held, rest := L.Held(snap, symbols[0]).qty, HeldValue(snap, symbols[1..], price);
      assert L.SanePos(L.Held(snap, symbols[0]));
      if symbols[0] in price {
        assert BringsOne(held, slice(held), price[symbols[0]], share);
        assert share(price[symbols[0]] * held) + share(rest) == share(price[symbols[0]] * held + rest);
      }
    }
  }

  lemma SlicerFits(short: int, held: int)
    requires 0 < short && 0 < held
    ensures Fits(Slicer(short, held))
  {
    FractionFits(short, held);
    forall q | q >= 0
      ensures 0 <= Slicer(short, held)(q) <= q && (q > 0 ==> Slicer(short, held)(q) > 0)
    {
      SliceBounds(q, Fraction(short, held));
    }
  }

  function Share(frac: real): int -> real { (x: int) => frac * x as real }

  lemma SlicerBrings(short: int, held: int)
    requires 0 < short && 0 < held
    ensures Brings(Slicer(short, held), Share(Fraction(short, held)))
  {
    var frac := Fraction(short, held);
    FractionFits(short, held);
    forall x, y, z | x + y == z
      ensures Share(frac)(x) + Share(frac)(y) == Share(frac)(z)
    {
      RDistribute(x as real, y as real, frac);
    }
    forall q, price | q >= 0 && price > 0
      ensures BringsOne(q, Slicer(short, held)(q), price, Share(frac))
    {
      SliceProceeds(q, frac, price);
    }
  }

  /** The cash a sale of a rounded-up slice brings. */
  lemma SliceProceeds(qty: int, frac: real, price: int)
    requires qty >= 0 && 0.0 < frac <= 1.0 && price >= 0
    ensures (price * Slice(qty, frac)) as real >= frac * (price * qty) as real
  {
    SliceBounds(qty, frac);
    RMulMono(qty as real * frac, Slice(qty, frac) as real, price as real);
    ProductAsReal(price, Slice(qty, frac));
    ProductAsReal(price, qty);
  }

  lemma FractionFits(short: int, held: int)
    requires 0 < short && 0 < held
    ensures 0.0 < Fraction(short, held) <= 1.0
    ensures short <= held ==> Fraction(short, held) * held as real >= short as real
  {
    var q := short as real / held as real;
    assert q * held as real == short as real;
    assert q > 0.0;
    if short <= held {
      var f := q * 1.001 + 0.000000001;
      assert f >= q;
      RMulMono(q, f, held as real);
    }
  }

  lemma SlicesSuffice(snap: L.Acct, symbols: seq<string>, short: int, held: int, price: map<string, int>)
    requires L.SaneAcct(snap) && forall s :: s in price ==> price[s] > 0
    requires 0 < short <= held == HeldValue(snap, symbols, price)
    ensures Proceeds(Parts(snap, symbols, Slicer(short, held)), price) >= short
  {
    var share := SlicerShare(short, held);
    PartsProceeds(snap, symbols, Slicer(short, held), share, price);
  }

  /** The share of the holdings' value that the slices bring; what is short is no more than that. */
  lemma SlicerShare(short: int, held: int) returns (share: int -> real)
    requires 0 < short <= held
    ensures Fits(Slicer(short, held)) && Brings(Slicer(short, held), share) && share(held) >= short as real
  {
    share := Share(Fraction(short, held));
    SlicerFits(short, held);
    SlicerBrings(short, held);
    FractionFits(short, held);
  }

  /** If what is needed is at most the cash plus the holdings at their prices, the fund ends with it, in
      spite of every rounding, cap and early stop. */
  lemma {:induction false} RaiseReaches(s: T.State, account: string, symbols: seq<string>, need: int, sell: Seller, env: Env, price: map<string, int>)
    requires Honest(sell, account, env, price) && Listed(s, account, symbols, env) && PricedSell(account, env, price)
    requires forall i :: 0 <= i < |symbols| && L.Held(s.accounts[account], symbols[i]).qty > 0 ==> symbols[i] in price
    requires need <= s.accounts[account].cash + HeldValue(s.accounts[account], symbols, price)
    ensures var all := Raise(s, account, symbols, price, need, sell);
            all.1 == Ok && account in all.0.accounts && all.0.accounts[account].cash >= need
  {
    var snap := s.accounts[account];
    if snap.cash < need {
      var short, held := need - snap.cash, HeldValue(snap, symbols, price);
      SlicerFits(short, held);
      SlicesSuffice(snap, symbols, short, held, price);
      RaiseIs(s, account, symbols, need, sell, price, held);
      PartsReach(s, account, symbols, Slicer(short, held), need, sell, env, price);
    }
  }

  lemma {:induction false} PartsReach(s: T.State, account: string, symbols: seq<string>, slice: int -> int, need: int,
                   sell: Seller, env: Env, price: map<string, int>)
    requires Honest(sell, account, env, price) && Listed(s, account, symbols, env) && PricedSell(account, env, price)
    requires forall i :: 0 <= i < |symbols| && L.Held(s.accounts[account], symbols[i]).qty > 0 ==> symbols[i] in price
    requires Fits(slice) && Proceeds(Parts(s.accounts[account], symbols, slice), price) >= need - s.accounts[account].cash
    ensures var all := SellEach(s, account, Parts(s.accounts[account], symbols, slice), need, sell);
            all.1 == Ok && account in all.0.accounts && all.0.accounts[account].cash >= need
  {
    PartsAre(s.accounts[account], symbols, slice);
    PartsPlanned(s, account, symbols, slice, env);
    SellEachReaches(s, account, Parts(s.accounts[account], symbols, slice), need, sell, env, price);
  }

  // ---- no more is sold than that ----

  /** The first k parts have been sold, and nothing else has changed. */
  ghost predicate SoldFirst(a: L.Acct, b: L.Acct, parts: seq<Part>, k: nat, price: map<string, int>)
    requires k <= |parts|
  {
    && b.cash == a.cash + Proceeds(parts[..k], price)
    && (forall i :: 0 <= i < |parts| ==> L.Held(b, parts[i].0).qty == L.Held(a, parts[i].0).qty - (if i < k then Max(parts[i].1, 0) else 0))
    && (forall x :: (forall i :: 0 <= i < k ==> parts[i].0 != x) ==> L.Held(b, x) == L.Held(a, x))
  }

  lemma SoldNone(a: L.Acct, parts: seq<Part>, price: map<string, int>)
    ensures SoldFirst(a, a, parts, 0, price)
  {
    assert parts[..0] == [];
  }

  lemma SoldOneMore(a: L.Acct, b: L.Acct, c: L.Acct, parts: seq<Part>, k: nat, price: map<string, int>)
    requires |parts| > 0 && k <= |parts| - 1 && (forall i :: 0 < i < |parts| ==> parts[i].0 != parts[0].0)
    requires SoldFirst(a, b, parts, 1, price) && SoldFirst(b, c, parts[1..], k, price)
    ensures SoldFirst(a, c, parts, k + 1, price)
  {
    var rest := parts[1..];
    ProceedsFirst(parts, k + 1, price);
    forall i | 0 <= i < |parts|
      ensures L.Held(c, parts[i].0).qty == L.Held(a, parts[i].0).qty - (if i < k + 1 then Max(parts[i].1, 0) else 0)
    {
      if i > 0 {
        assert rest[i - 1] == parts[i];
      } else {
        assert forall j :: 0 <= j < k ==> rest[j] == parts[j + 1];
      }
    }
    forall x | forall i :: 0 <= i < k + 1 ==> parts[i].0 != x
      ensures L.Held(c, x) == L.Held(a, x)
    {
      assert parts[0].0 != x;
      assert forall i :: 0 <= i < k ==> rest[i] == parts[i + 1] && rest[i].0 != x;
    }
  }

  lemma SoldThis(a: L.Acct, b: L.Acct, parts: seq<Part>, price: map<string, int>)
    requires |parts| > 0 && (forall i :: 0 < i < |parts| ==> parts[i].0 != parts[0].0)
    requires if parts[0].1 <= 0 then b == a
             else parts[0].0 in price && parts[0].1 <= L.Held(a, parts[0].0).qty && b == L.Traded(a, parts[0].0, false, parts[0].1, price[parts[0].0])
    ensures SoldFirst(a, b, parts, 1, price)
  {
    OnePart(parts, price);
    forall x | forall i :: 0 <= i < 1 ==> parts[i].0 != x
      ensures L.Held(b, x) == L.Held(a, x)
    {
      assert parts[0].0 != x;
    }
  }

  /** A sale that did not raise enough, and those after it. */
  lemma SoldOn(a: L.Acct, b: L.Acct, c: L.Acct, parts: seq<Part>, k: nat, need: int, price: map<string, int>)
    requires |parts| > 0 && k <= |parts| - 1 && (forall i :: 0 < i < |parts| ==> parts[i].0 != parts[0].0)
    requires SoldFirst(a, b, parts, 1, price) && SoldFirst(b, c, parts[1..], k, price)
    requires a.cash < need && b.cash < need && (k > 0 ==> b.cash + Proceeds(parts[1..][..k - 1], price) < need)
    ensures SoldFirst(a, c, parts, k + 1, price) && a.cash + Proceeds(parts[..k], price) < need
  {
    SoldOneMore(a, b, c, parts, k, price);
    if k > 0 { ProceedsFirst(parts, k, price); } else { assert parts[..0] == []; }
  }

  /** If everything held can be sold, the first so many parts are sold in their order, and no further one once the
      cash is there. */
  lemma {:induction false} SellsInOrder(s: T.State, account: string, parts: seq<Part>, need: int, sell: Seller, env: Env, price: map<string, int>)
    returns (k: nat)
    requires Honest(sell, account, env, price) && Planned(s, account, parts, env) && AllClear(s, account, parts, env, price)
    requires s.accounts[account].cash < need
    ensures var t := SellEach(s, account, parts, need, sell).0;
            && k <= |parts| && account in t.accounts && SoldFirst(s.accounts[account], t.accounts[account], parts, k, price)
            && (k > 0 ==> s.accounts[account].cash + Proceeds(parts[..k - 1], price) < need)
    decreases |parts|
  {
    k := 0;
    if |parts| == 0 {
      SoldNone(s.accounts[account], parts, price);
    } else {
      var t := SaleOf(s, account, parts, sell, env, price);
      SoldThis(s.accounts[account], t.accounts[account], parts, price);
      k := 1;
      assert parts[..0] == [];
      if t.accounts[account].cash < need {
        RestPlanned(s, t, account, parts, env, price);
        var more := SellsInOrder(t, account, parts[1..], need, sell, env, price);
        SoldOn(s.accounts[account], t.accounts[account], SellEach(t, account, parts[1..], need, sell).0.accounts[account], parts, more, need, price);
        k := more + 1;
      }
    }
  }

  /** The first part's sale, if it is one. */
  lemma SaleOf(s: T.State, account: string, parts: seq<Part>, sell: Seller, env: Env, price: map<string, int>) returns (t: T.State)
    requires |parts| > 0 && Honest(sell, account, env, price) && Planned(s, account, parts, env) && AllClear(s, account, parts, env, price)
    ensures account in t.accounts
    ensures if parts[0].1 <= 0 then t == s
            else t == sell(s, parts[0].0, parts[0].1).0 && sell(s, parts[0].0, parts[0].1).1.Traded? && Sold(s, account, parts[0].0, parts[0].1, price, t)
                 && t.seen.Keys == s.seen.Keys + {(account, "liq-" + env(parts[0].0).id)}
  {
    t := s;
    if parts[0].1 > 0 {
      t := sell(s, parts[0].0, parts[0].1).0;
      assert Sellable(account, env, parts[0].0, price) && Fresh(s, account, env, parts[0].0);
      assert SaleRight(s, account, parts[0].0, parts[0].1, env, price, t, sell(s, parts[0].0, parts[0].1).1);
    }
  }

  /** The same part of every holding: what is short of what is held, a thousandth more of it and a hair; rounded up
      to a whole share, or the whole holding. */
  lemma SlicesAreParts(qty: int, short: int, held: int)
    requires qty >= 0 && 0 < short && 0 < held
    ensures var part, frac := Slicer(short, held)(qty), short as real / held as real * 1.001 + 0.000000001;
            && part <= qty && (frac >= 1.0 ==> part == qty)
            && (frac < 1.0 ==> qty as real * frac <= part as real < qty as real * frac + 1.0)
  {
    var frac := short as real / held as real * 1.001 + 0.000000001;
    FractionFits(short, held);
    SliceBounds(qty, Fraction(short, held));
    CeilAbove(qty as real * Fraction(short, held));
    if frac >= 1.0 { assert qty as real * 1.0 == qty as real; }
  }

  lemma CeilAbove(x: real)
    ensures x <= Ceil(x) as real < x + 1.0
  {
    var down := (-x).Floor;
    assert down as real <= -x < down as real + 1.0;
  }

  /** If every holding has a price, a fund that is short sells the same part of each in their order and stops when the
      cash is there. */
  lemma RaiseSellsParts(s: T.State, account: string, symbols: seq<string>, need: int, sell: Seller, env: Env, price: map<string, int>)
    returns (k: nat)
    requires Honest(sell, account, env, price) && Listed(s, account, symbols, env) && PricedSell(account, env, price)
    requires forall i :: 0 <= i < |symbols| && L.Held(s.accounts[account], symbols[i]).qty > 0 ==> symbols[i] in price
    requires s.accounts[account].cash < need && HeldValue(s.accounts[account], symbols, price) > 0
    ensures var snap := s.accounts[account];
            var parts := Parts(snap, symbols, Slicer(need - snap.cash, HeldValue(snap, symbols, price)));
            var t := Raise(s, account, symbols, price, need, sell).0;
            && |parts| == |symbols| && (forall i :: 0 <= i < |symbols| ==>
                 parts[i] == (symbols[i], Slicer(need - snap.cash, HeldValue(snap, symbols, price))(L.Held(snap, symbols[i]).qty)))
            && k <= |parts| && account in t.accounts && SoldFirst(snap, t.accounts[account], parts, k, price)
            && (k > 0 ==> snap.cash + Proceeds(parts[..k - 1], price) < need)
  {
    var snap := s.accounts[account];
    var short, held := need - snap.cash, HeldValue(snap, symbols, price);
    SlicerFits(short, held);
    PartsAre(snap, symbols, Slicer(short, held));
    PartsSame(snap, symbols, Slicer(short, held));
    PartsPlanned(s, account, symbols, Slicer(short, held), env);
    k := SellsInOrder(s, account, Parts(snap, symbols, Slicer(short, held)), need, sell, env, price);
  }

  lemma {:induction false} PartsSame(snap: L.Acct, symbols: seq<string>, slice: int -> int)
    ensures var parts := Parts(snap, symbols, slice);
            |parts| == |symbols| && forall i :: 0 <= i < |symbols| ==> parts[i] == (symbols[i], slice(L.Held(snap, symbols[i]).qty))
  {
    if |symbols| > 0 { PartsSame(snap, symbols[1..], slice); }
  }

  /** What the holdings without a price have cost. */
  function UnpricedCost(a: L.Acct, symbols: seq<string>, price: map<string, int>): int {
    if symbols == [] then 0
    else (if symbols[0] in price then 0 else L.Held(a, symbols[0]).cost) + UnpricedCost(a, symbols[1..], price)
  }

  /** What the sales count on is the account's value but for its cash and its holdings without a price. */
  lemma HeldIsValue(a: L.Acct, symbols: seq<string>, price: map<string, int>)
    ensures HeldValue(a, symbols, price) == F.Value(a, symbols, price) - a.cash - UnpricedCost(a, symbols, price)
  {
    HeldIsMarks(a, symbols, |symbols|, price);
    assert symbols[..|symbols|] == symbols && symbols[|symbols|..] == [];
  }

  lemma {:induction false} HeldIsMarks(a: L.Acct, symbols: seq<string>, n: nat, price: map<string, int>)
    requires n <= |symbols|
    ensures F.MarkSum(a, symbols[..n], price) + HeldValue(a, symbols[n..], price) + UnpricedCost(a, symbols[n..], price)
         == HeldValue(a, symbols, price) + UnpricedCost(a, symbols, price)
  {
    if n == 0 {
      assert symbols[0..] == symbols;
    } else {
      HeldIsMarks(a, symbols, n - 1, price);
      assert symbols[..n][..n - 1] == symbols[..n - 1] && symbols[n - 1..][1..] == symbols[n..];
    }
  }

  /** A company without a price comes before the slices of those before it have brought enough. */
  ghost predicate HeldUp(snap: L.Acct, symbols: seq<string>, need: int, price: map<string, int>)
    requires HeldValue(snap, symbols, price) > 0
  {
    Blocked(snap.cash, Parts(snap, symbols, Slicer(need - snap.cash, HeldValue(snap, symbols, price))), need, price)
  }

  lemma {:induction false} RaiseIs(s: T.State, account: string, symbols: seq<string>, need: int, sell: Seller, price: map<string, int>, held: int)
    requires account in s.accounts && s.accounts[account].cash < need
    requires held == HeldValue(s.accounts[account], symbols, price) > 0
    ensures Raise(s, account, symbols, price, need, sell)
         == SellEach(s, account, Parts(s.accounts[account], symbols, Slicer(need - s.accounts[account].cash, held)), need, sell)
  {
  }

  /** Otherwise the call fails only for want of a price: it succeeds if and only if something that has a
      price is held and no company without a price comes before the cash is there. */
  lemma {:induction false} RaiseFailsIff(s: T.State, account: string, symbols: seq<string>, need: int, sell: Seller, env: Env, price: map<string, int>)
    requires Honest(sell, account, env, price) && Listed(s, account, symbols, env) && PricedSell(account, env, price)
    requires s.accounts[account].cash < need
    ensures var snap := s.accounts[account];
            var held := HeldValue(snap, symbols, price);
            (Raise(s, account, symbols, price, need, sell).1 == Ok) == (held > 0 && !HeldUp(snap, symbols, need, price))
  {
    if HeldValue(s.accounts[account], symbols, price) > 0 { RaiseHeldUp(s, account, symbols, need, sell, env, price); }
  }

  /** A fund holds a share of a company without a price and one worth 100 of another, and needs 50. The first
      sale is refused, and with it the whole call. */
  lemma UnpricedFirstFails(s: T.State, sell: Seller, env: Env)
    requires Honest(sell, "fund", env, map["B" := 100]) && Fresh(s, "fund", env, "A")
    requires "fund" in s.accounts && s.accounts["fund"] == L.Acct(0, map["A" := L.Pos(1, 10), "B" := L.Pos(1, 100)])
    ensures HeldValue(s.accounts["fund"], ["A", "B"], map["B" := 100]) == 100
    ensures Raise(s, "fund", ["A", "B"], map["B" := 100], 50, sell).1.Failed?
  {
    var a, price := s.accounts["fund"], map["B" := 100];
    assert ["A", "B"][1..] == ["B"] && ["B"][1..] == [];
    assert HeldValue(a, ["B"], price) == 100;
    SlicerFits(50, 100);
    var part := Slicer(50, 100)(1);
    assert part > 0;
    assert Parts(a, ["A", "B"], Slicer(50, 100))[0] == ("A", part);
    assert SaleRight(s, "fund", "A", part, env, price, sell(s, "A", part).0, sell(s, "A", part).1);
  }

  lemma {:induction false} RaiseHeldUp(s: T.State, account: string, symbols: seq<string>, need: int, sell: Seller, env: Env, price: map<string, int>)
    requires Honest(sell, account, env, price) && Listed(s, account, symbols, env) && PricedSell(account, env, price)
    requires s.accounts[account].cash < need && HeldValue(s.accounts[account], symbols, price) > 0
    ensures Raise(s, account, symbols, price, need, sell).1 == Ok <==> !HeldUp(s.accounts[account], symbols, need, price)
  {
    var short, held := need - s.accounts[account].cash, HeldValue(s.accounts[account], symbols, price);
    SlicerFits(short, held);
    RaiseIs(s, account, symbols, need, sell, price, held);
    PartsFailIff(s, account, symbols, Slicer(short, held), need, sell, env, price);
  }

  lemma {:induction false} PartsFailIff(s: T.State, account: string, symbols: seq<string>, slice: int -> int, need: int,
                     sell: Seller, env: Env, price: map<string, int>)
    requires Honest(sell, account, env, price) && Listed(s, account, symbols, env) && PricedSell(account, env, price)
    requires s.accounts[account].cash < need && Fits(slice)
    ensures var snap := s.accounts[account];
            var parts := Parts(snap, symbols, slice);
            SellEach(s, account, parts, need, sell).1 == Ok <==> !Blocked(snap.cash, parts, need, price)
  {
    var parts := Parts(s.accounts[account], symbols, slice);
    PartsPlanned(s, account, symbols, slice, env);
    SellEachFailsIff(s, account, parts, need, sell, env, price);
    NeverIlliquid(s, account, parts, need, sell);
  }

  lemma {:induction false} NeverIlliquid(s: T.State, account: string, parts: seq<Part>, need: int, sell: Seller)
    ensures SellEach(s, account, parts, need, sell).1 == Ok || SellEach(s, account, parts, need, sell).1.Failed?
    decreases |parts|
  {
    if |parts| > 0 {
      NeverIlliquid(s, account, parts[1..], need, sell);
      NeverIlliquid(sell(s, parts[0].0, parts[0].1).0, account, parts[1..], need, sell);
    }
  }

  /** Why no cash is raised: there is no such account; or it is short of cash and its priced holdings are worth
      nothing; or one of the sales failed. Before any sale nothing has changed. */
  lemma NotRaisedBecause(s: T.State, account: string, symbols: seq<string>, price: map<string, int>, need: int, sell: Seller)
    ensures var (t, out) := Raise(s, account, symbols, price, need, sell);
            && (out.NoAccount? <==> account !in s.accounts)
            && (out.Illiquid? <==> account in s.accounts && s.accounts[account].cash < need && HeldValue(s.accounts[account], symbols, price) <= 0)
            && (out.NoAccount? || out.Illiquid? || Enough(s, account, need) ==> t == s)
  {
    if account in s.accounts && s.accounts[account].cash < need {
      var snap := s.accounts[account];
      var held := HeldValue(snap, symbols, price);
      if held > 0 { NeverIlliquid(s, account, Parts(snap, symbols, Slicer(need - snap.cash, held)), need, sell); }
    }
  }

  // ---- nothing is lost or made up on the way ----

  /** Of the fund's account only holdings have become cash at their prices; no other account has changed. */
  ghost predicate Exchanged(s: T.State, t: T.State, account: string, all: seq<string>, price: map<string, int>) {
    && t.accounts.Keys == s.accounts.Keys
    && (forall id :: id in s.accounts && id != account ==> t.accounts[id] == s.accounts[id])
    && (account in s.accounts ==>
          && F.Value(t.accounts[account], all, price) == F.Value(s.accounts[account], all, price)
          && forall x :: 0 <= L.Held(t.accounts[account], x).qty <= L.Held(s.accounts[account], x).qty
                         || L.Held(t.accounts[account], x) == L.Held(s.accounts[account], x))
  }

  lemma {:induction false} MarksPut(a: L.Acct, b: L.Acct, all: seq<string>, x: string, price: map<string, int>)
    requires F.NoRepeats(all) && forall y :: y in all && y != x ==> L.Held(b, y) == L.Held(a, y)
    ensures F.MarkSum(b, all, price) == F.MarkSum(a, all, price)
                                        + if x in all then F.MarkOf(b, x, price) - F.MarkOf(a, x, price) else 0
  {
    if all != [] {
      var past, last := all[..|all| - 1], all[|all| - 1];
      MarksPut(a, b, past, x, price);
      assert forall i :: 0 <= i < |past| ==> past[i] == all[i] && past[i] != last;
      assert x in all <==> x in past || x == last;
    }
  }

  lemma SaleExchanges(s: T.State, t: T.State, account: string, symbol: string, qty: int, all: seq<string>, price: map<string, int>)
    requires F.NoRepeats(all) && symbol in all && Sold(s, account, symbol, qty, price, t)
    requires 0 < qty <= L.Held(s.accounts[account], symbol).qty
    ensures Exchanged(s, t, account, all, price)
  {
    var a, b := s.accounts[account], t.accounts[account];
    MarksPut(a, b, all, symbol, price);
    var held := L.Held(a, symbol).qty;
    assert L.Held(b, symbol).qty == held - qty;
    assert price[symbol] * (held - qty) == price[symbol] * held - price[symbol] * qty;
  }

  lemma {:induction false} SellEachExchanges(s: T.State, account: string, parts: seq<Part>, need: int, sell: Seller, env: Env,
                                             all: seq<string>, price: map<string, int>)
    requires Honest(sell, account, env, price) && F.NoRepeats(all)
    requires forall i :: 0 <= i < |parts| ==> parts[i].0 in all
    ensures Exchanged(s, SellEach(s, account, parts, need, sell).0, account, all, price)
    decreases |parts|
  {
    if |parts| > 0 {
      var t := sell(s, parts[0].0, parts[0].1).0;
      assert SaleRight(s, account, parts[0].0, parts[0].1, env, price, t, sell(s, parts[0].0, parts[0].1).1);
      if t.accounts != s.accounts { SaleExchanges(s, t, account, parts[0].0, parts[0].1, all, price); }
      assert forall i :: 0 <= i < |parts[1..]| ==> parts[1..][i] == parts[i + 1];
      SellEachExchanges(t, account, parts[1..], need, sell, env, all, price);
      SellEachExchanges(s, account, parts[1..], need, sell, env, all, price);
    }
  }

  /** However it ends: the fund is worth what it was, it has sold no more than it held, and nobody else
      is touched. */
  lemma RaiseExchanges(s: T.State, account: string, symbols: seq<string>, need: int, sell: Seller, env: Env, price: map<string, int>)
    requires Honest(sell, account, env, price) && F.NoRepeats(symbols)
    ensures Exchanged(s, Raise(s, account, symbols, price, need, sell).0, account, symbols, price)
  {
    if account in s.accounts && s.accounts[account].cash < need {
      var snap := s.accounts[account];
      var held := HeldValue(snap, symbols, price);
      if held > 0 {
        var slice := Slicer(need - snap.cash, held);
        PartsNamed(snap, symbols, slice);
        SellEachExchanges(s, account, Parts(snap, symbols, slice), need, sell, env, symbols, price);
      }
    }
  }

  lemma {:induction false} PartsNamed(snap: L.Acct, symbols: seq<string>, slice: int -> int)
    ensures |Parts(snap, symbols, slice)| == |symbols|
    ensures forall i :: 0 <= i < |symbols| ==> Parts(snap, symbols, slice)[i].0 == symbols[i]
  {
    if |symbols| > 0 { PartsNamed(snap, symbols[1..], slice); }
  }
}

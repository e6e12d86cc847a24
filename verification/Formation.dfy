/** Forming the funds from teams' whole portfolios, and taking them apart again. */
module Formation {
  import opened Numeric
  import L = Ledger
  import B = FundBook

  // ---- moves as ledger operations ----

  function ShareOps(from: string, to: string, shares: seq<B.MovedShares>): (ops: seq<L.Op>)
    ensures |ops| == |shares|
    ensures forall i :: 0 <= i < |shares| ==>
      ops[i] == L.MoveShares(from, to, shares[i].symbol, shares[i].qty, shares[i].cost)
  {
    seq(|shares|, i requires 0 <= i < |shares| =>
      L.MoveShares(from, to, shares[i].symbol, shares[i].qty, shares[i].cost))
  }

  function MoveOps(m: B.Move): seq<L.Op> {
    (if m.cash > 0 then [L.Move(m.from, m.to, m.cash)] else []) + ShareOps(m.from, m.to, m.shares)
  }

  function AllOps(moves: seq<B.Move>): seq<L.Op> {
    if moves == [] then [] else AllOps(moves[..|moves| - 1]) + MoveOps(moves[|moves| - 1])
  }

  function ApplyOps(ops: seq<L.Op>, A: L.Accounts): L.Accounts {
    if ops == [] then A else ApplyOps(ops[1..], L.Apply(ops[0], A))
  }

  predicate AllAllowed(ops: seq<L.Op>, A: L.Accounts) {
    ops == [] || (L.Allowed(ops[0], A) && AllAllowed(ops[1..], L.Apply(ops[0], A)))
  }

  predicate Transfer(op: L.Op) { (op.Move? || op.MoveShares?) && op.from != op.to }

  predicate Transfers(ops: seq<L.Op>) { forall i :: 0 <= i < |ops| ==> Transfer(ops[i]) }

  /** The same transfer the other way. */
  function Back(op: L.Op): L.Op {
    match op
    case Move(from, to, amount) => L.Move(to, from, amount)
    case MoveShares(from, to, symbol, qty, cost) => L.MoveShares(to, from, symbol, qty, cost)
    case _ => op
  }

  function BackAll(ops: seq<L.Op>): (r: seq<L.Op>)
    ensures |r| == |ops|
    ensures forall i :: 0 <= i < |ops| ==> r[i] == Back(ops[i])
  {
    seq(|ops|, i requires 0 <= i < |ops| => Back(ops[i]))
  }

  // ---- transfers are exact ----

  /** What an account can hold: cash, shares of a company, the cost basis of those shares. */
  datatype What = InCash | InShares(s: string) | InCost(s: string)

  function Amount(a: L.Acct, w: What): int {
    match w
    case InCash => a.cash
    case InShares(s) => L.Held(a, s).qty
    case InCost(s) => L.Held(a, s).cost
  }

  /** How much of w one transfer carries. */
  function Carries(op: L.Op, w: What): int {
    match w
    case InCash => if op.Move? then op.amount else 0
    case InShares(s) => if op.MoveShares? && op.symbol == s then op.qty else 0
    case InCost(s) => if op.MoveShares? && op.symbol == s then op.cost else 0
  }

  /** What one transfer brings to an account (negative for what it takes away). */
  function Net(op: L.Op, id: string, w: What): int
    requires Transfer(op)
  {
    if op.to == id then Carries(op, w) else if op.from == id then -Carries(op, w) else 0
  }

  function NetAll(ops: seq<L.Op>, id: string, w: What): int
    requires Transfers(ops)
  {
    if ops == [] then 0 else Net(ops[0], id, w) + NetAll(ops[1..], id, w)
  }

  lemma CashMoveExact(op: L.Op, A: L.Accounts, id: string, w: What)
    requires op.Move? && L.Allowed(op, A) && id in A
    ensures Amount(L.Apply(op, A)[id], w) == Amount(A[id], w) + Net(op, id, w)
  {
  }

  lemma ShareMoveExact(op: L.Op, A: L.Accounts, id: string, w: What)
    requires op.MoveShares? && L.Allowed(op, A) && id in A
    ensures Amount(L.Apply(op, A)[id], w) == Amount(A[id], w) + Net(op, id, w)
  {
  }

  /** The clamp at zero never bites on a checked transfer: cash, shares and cost change by exactly
      what was moved, and no account appears or disappears. */
  lemma {:induction false} TransfersExact(ops: seq<L.Op>, A: L.Accounts, id: string, w: What)
    requires Transfers(ops) && AllAllowed(ops, A)
    ensures ApplyOps(ops, A).Keys == A.Keys
    ensures id in A ==> Amount(ApplyOps(ops, A)[id], w) == Amount(A[id], w) + NetAll(ops, id, w)
  {
    if ops != [] {
      if id in A {
        if ops[0].Move? { CashMoveExact(ops[0], A, id, w); } else { ShareMoveExact(ops[0], A, id, w); }
      }
      TransfersExact(ops[1..], L.Apply(ops[0], A), id, w);
    }
  }

  lemma {:induction false} BackNets(ops: seq<L.Op>, id: string, w: What)
    requires Transfers(ops)
    ensures Transfers(BackAll(ops))
    ensures NetAll(BackAll(ops), id, w) == -NetAll(ops, id, w)
  {
    if ops != [] {
      assert BackAll(ops)[0] == Back(ops[0]);
      assert BackAll(ops)[1..] == BackAll(ops[1..]);
      BackNets(ops[1..], id, w);
      assert forall i :: 0 <= i < |ops| ==> Transfer(ops[i]);
    }
  }

  // ---- the plan: every team's whole portfolio ----

  /** An account's positive holdings, in the order of the (sorted) company list. */
  function Positions(a: L.Acct, symbols: seq<string>): seq<B.MovedShares> {
    if symbols == [] then [] else
      var s := symbols[|symbols| - 1];
      var p := L.Held(a, s);
      Positions(a, symbols[..|symbols| - 1]) + if p.qty > 0 then [B.MovedShares(s, p.qty, p.cost)] else []
  }

  /** Shares at the current price; a company without a price adds nothing here. */
  function Priced(shares: seq<B.MovedShares>, price: map<string, int>): int {
    if shares == [] then 0 else
      var s := shares[|shares| - 1];
      Priced(shares[..|shares| - 1], price) + if s.symbol in price then price[s.symbol] * s.qty else 0
  }

  /** Both teams of every fund, in order, with the account each one's portfolio goes to. */
  function Joiners(fs: seq<B.Formed>): (r: seq<(string, B.Formed)>)
    ensures |r| == 2 * |fs|
    ensures forall i :: 0 <= i < |fs| ==> r[2 * i] == (fs[i].first, fs[i]) && r[2 * i + 1] == (fs[i].second, fs[i])
  {
    if fs == [] then [] else
      var f := fs[|fs| - 1];
      Joiners(fs[..|fs| - 1]) + [(f.first, f), (f.second, f)]
  }

  function TeamMove(team: string, account: string, a: L.Acct, symbols: seq<string>): B.Move {
    B.Move(team, account, Max(a.cash, 0), Positions(a, symbols))
  }

  function TeamSeed(team: string, fund: string, a: L.Acct, symbols: seq<string>, price: map<string, int>, launch: real): B.SeedUnits
    requires launch > 0.0
  {
    var value := a.cash + Priced(Positions(a, symbols), price);
    B.SeedUnits(fund, team, value, (value as real / 100.0) / launch)
  }

  /** A team with an account and something to bring. */
  predicate Brings(A: L.Accounts, team: string, symbols: seq<string>) {
    team in A && (A[team].cash > 0 || Positions(A[team], symbols) != [])
  }

  function SeedPlan(A: L.Accounts, js: seq<(string, B.Formed)>, symbols: seq<string>, price: map<string, int>, launch: real)
    : (seq<B.Move>, seq<B.SeedUnits>)
    requires launch > 0.0
  {
    if js == [] then ([], []) else
      var (moves, seeds) := SeedPlan(A, js[..|js| - 1], symbols, price, launch);
      var (team, f) := js[|js| - 1];
      if Brings(A, team, symbols)
      then (moves + [TeamMove(team, f.account, A[team], symbols)],
            seeds + [TeamSeed(team, f.id, A[team], symbols, price, launch)])
      else (moves, seeds)
  }

  method SeedFunds(A: L.Accounts, fs: seq<B.Formed>, symbols: seq<string>, price: map<string, int>, launch: real)
    returns (moves: seq<B.Move>, seeds: seq<B.SeedUnits>)
    requires launch > 0.0
    ensures (moves, seeds) == SeedPlan(A, Joiners(fs), symbols, price, launch)
  {
    moves, seeds := [], [];
    ghost var js := Joiners(fs);
    for i := 0 to |fs|
      invariant (moves, seeds) == SeedPlan(A, js[..2 * i], symbols, price, launch)
    {
      assert js[..2 * i + 1][..2 * i] == js[..2 * i] && js[2 * i] == (fs[i].first, fs[i]);
      moves, seeds := Join(A, js[..2 * i], moves, seeds, fs[i].first, fs[i], symbols, price, launch);
      assert js[..2 * i] + [js[2 * i]] == js[..2 * i + 1];
      moves, seeds := Join(A, js[..2 * i + 1], moves, seeds, fs[i].second, fs[i], symbols, price, launch);
      assert js[..2 * i + 1] + [js[2 * i + 1]] == js[..2 * i + 2];
    }
    assert js[..2 * |fs|] == js;
  }

  /** One team's share of the loop: its whole portfolio joins the plan. */
  method Join(A: L.Accounts, ghost js: seq<(string, B.Formed)>, moves: seq<B.Move>, seeds: seq<B.SeedUnits>,
              team: string, f: B.Formed, symbols: seq<string>, price: map<string, int>, launch: real)
    returns (moves': seq<B.Move>, seeds': seq<B.SeedUnits>)
    requires launch > 0.0
    requires (moves, seeds) == SeedPlan(A, js, symbols, price, launch)
    ensures (moves', seeds') == SeedPlan(A, js + [(team, f)], symbols, price, launch)
  {
    moves', seeds' := moves, seeds;
    assert (js + [(team, f)])[..|js|] == js;
    if team !in A { return; }
    var snap := A[team];
    var shares := Positions(snap, symbols);
    var cash, value := snap.cash, snap.cash + Priced(shares, price);
    if cash <= 0 && shares == [] { return; }
    if cash < 0 {
      cash := 0;
    }
    moves' := moves + [B.Move(team, f.account, cash, shares)];
    seeds' := seeds + [B.SeedUnits(f.id, team, value, (value as real / 100.0) / launch)];
  }

  // ---- taking the funds apart is always possible, and exact ----

  /** This account holds what the transfers brought it of s (and at least the cash they brought). */
  predicate Holds(a: L.Acct, ops: seq<L.Op>, id: string, s: string)
    requires Transfers(ops)
  {
    && Amount(a, InShares(s)) == NetAll(ops, id, InShares(s))
    && Amount(a, InCost(s)) == NetAll(ops, id, InCost(s))
    && a.cash >= NetAll(ops, id, InCash)
  }

  /** The receivers hold all that these transfers brought them, and nothing else in shares. */
  ghost predicate Covers(X: L.Accounts, ops: seq<L.Op>)
    requires Transfers(ops)
  {
    && (forall i :: 0 <= i < |ops| ==> ops[i].from in X && ops[i].to in X)
    && (forall i, s :: 0 <= i < |ops| ==> Holds(X[ops[i].to], ops, ops[i].to, s))
  }

  /** Money and shares only flow one way, from teams to funds. */
  predicate OneWay(ops: seq<L.Op>) {
    && (forall i, j :: 0 <= i < |ops| && 0 <= j < |ops| ==>
          Transfer(ops[i]) && Transfer(ops[j]) && ops[i].from != ops[j].to)
    && (forall i :: 0 <= i < |ops| ==> Positive(ops[i]))
  }

  predicate Positive(op: L.Op) {
    match op
    case Move(_, _, amount) => amount > 0
    case MoveShares(_, _, _, qty, cost) => qty > 0 && cost >= 0
    case _ => false
  }

  lemma {:induction false} InflowOnly(ops: seq<L.Op>, id: string, s: string)
    requires Transfers(ops) && OneWay(ops) && forall i :: 0 <= i < |ops| ==> ops[i].from != id
    ensures NetAll(ops, id, InCash) >= 0 && NetAll(ops, id, InShares(s)) >= 0 && NetAll(ops, id, InCost(s)) >= 0
    ensures NetAll(ops, id, InShares(s)) == 0 ==> NetAll(ops, id, InCost(s)) == 0
  {
    if ops != [] {
      assert Positive(ops[0]);
      InflowOnly(ops[1..], id, s);
    }
  }

  lemma BackIsAllowed(ops: seq<L.Op>, X: L.Accounts)
    requires ops != [] && Transfers(ops) && OneWay(ops) && Covers(X, ops)
    ensures L.Allowed(Back(ops[0]), X)
  {
    var op := ops[0];
    assert Positive(op) && Transfer(op);
    var s := if op.MoveShares? then op.symbol else "";
    InflowOnly(ops[1..], op.to, s);
    assert Holds(X[op.to], ops, op.to, s);
  }

  lemma CoversRest(ops: seq<L.Op>, X: L.Accounts)
    requires ops != [] && Transfers(ops) && OneWay(ops) && Covers(X, ops)
    requires L.Allowed(Back(ops[0]), X)
    ensures Covers(L.Apply(Back(ops[0]), X), ops[1..])
  {
    var rest := ops[1..];
    assert Transfer(ops[0]);
    forall i, s | 0 <= i < |rest|
      ensures rest[i].from in X && rest[i].to in X
      ensures Holds(L.Apply(Back(ops[0]), X)[rest[i].to], rest, rest[i].to, s)
    {
      assert rest[i] == ops[i + 1];
      assert Holds(X[rest[i].to], ops, rest[i].to, s) && ops[0].from != rest[i].to;
      HoldsAfter(ops, X, rest[i].to, s);
    }
  }

  lemma HoldsAfter(ops: seq<L.Op>, X: L.Accounts, id: string, s: string)
    requires ops != [] && Transfers(ops) && L.Allowed(Back(ops[0]), X)
    requires id in X && ops[0].from != id && Holds(X[id], ops, id, s)
    ensures Holds(L.Apply(Back(ops[0]), X)[id], ops[1..], id, s)
  {
    OneBack(ops[0], X, id, InShares(s));
    OneBack(ops[0], X, id, InCost(s));
    OneBack(ops[0], X, id, InCash);
  }

  lemma OneBack(op: L.Op, X: L.Accounts, id: string, w: What)
    requires Transfer(op) && L.Allowed(Back(op), X) && id in X && op.from != id
    ensures Amount(L.Apply(Back(op), X)[id], w) == Amount(X[id], w) - Net(op, id, w)
  {
    if op.Move? { CashMoveExact(Back(op), X, id, w); } else { ShareMoveExact(Back(op), X, id, w); }
  }

  lemma {:induction false} BackAllowed(ops: seq<L.Op>, X: L.Accounts)
    requires Transfers(ops) && OneWay(ops) && Covers(X, ops)
    ensures AllAllowed(BackAll(ops), X)
  {
    if ops != [] {
      BackIsAllowed(ops, X);
      CoversRest(ops, X);
      assert OneWay(ops[1..]);
      BackAllowed(ops[1..], L.Apply(Back(ops[0]), X));
      assert BackAll(ops)[1..] == BackAll(ops[1..]);
    }
  }

  /** The funds' accounts are fresh: no shares yet, and cash at most as seed capital. */
  predicate FreshFunds(A: L.Accounts, ops: seq<L.Op>)
    requires Transfers(ops)
  {
    forall i :: 0 <= i < |ops| ==>
      ops[i].to in A && A[ops[i].to].cash >= 0 && forall s :: s in A[ops[i].to].pos ==> A[ops[i].to].pos[s] == L.NO_POS
  }

  lemma {:induction false} AllowedKnown(ops: seq<L.Op>, A: L.Accounts)
    requires Transfers(ops) && AllAllowed(ops, A)
    ensures forall i :: 0 <= i < |ops| ==> ops[i].from in A && ops[i].to in A
  {
    if ops != [] {
      AllowedKnown(ops[1..], L.Apply(ops[0], A));
      assert Transfer(ops[0]) && L.Apply(ops[0], A).Keys == A.Keys;
      forall i | 0 <= i < |ops|
        ensures ops[i].from in A && ops[i].to in A
      {
        if i > 0 { assert ops[i] == ops[1..][i - 1]; }
      }
    }
  }

  lemma FormedCovers(ops: seq<L.Op>, A: L.Accounts)
    requires Transfers(ops) && OneWay(ops) && FreshFunds(A, ops) && AllAllowed(ops, A)
    ensures Covers(ApplyOps(ops, A), ops)
  {
    AllowedKnown(ops, A);
    TransfersExact(ops, A, "", InCash);
    forall i, s | 0 <= i < |ops|
      ensures Holds(ApplyOps(ops, A)[ops[i].to], ops, ops[i].to, s)
    {
      FundHolds(ops, A, ops[i].to, s);
    }
  }

  lemma FundHolds(ops: seq<L.Op>, A: L.Accounts, id: string, s: string)
    requires Transfers(ops) && AllAllowed(ops, A) && id in A
    requires A[id].cash >= 0 && L.Held(A[id], s) == L.NO_POS
    ensures id in ApplyOps(ops, A) && Holds(ApplyOps(ops, A)[id], ops, id, s)
  {
    TransfersExact(ops, A, id, InShares(s));
    TransfersExact(ops, A, id, InCost(s));
    TransfersExact(ops, A, id, InCash);
  }

  /** Dissolving undoes forming: from the state the formation left, every seed move can be made
      backwards, and afterwards every account holds exactly the cash, the shares and the cost basis
      it had before, even where two teams brought the same company into one fund. */
  lemma DissolveUndoesForm(ops: seq<L.Op>, A: L.Accounts, id: string, w: What)
    requires Transfers(ops) && OneWay(ops) && FreshFunds(A, ops) && AllAllowed(ops, A)
    ensures var M := ApplyOps(ops, A);
            && AllAllowed(BackAll(ops), M)
            && ApplyOps(BackAll(ops), M).Keys == A.Keys
            && (id in A ==> Amount(ApplyOps(BackAll(ops), M)[id], w) == Amount(A[id], w))
  {
    var M := ApplyOps(ops, A);
    FormedCovers(ops, A);
    BackAllowed(ops, M);
    BackNets(ops, id, w);
    TransfersExact(ops, A, id, w);
    TransfersExact(BackAll(ops), M, id, w);
  }

  // ---- the plan fits the accounts it was made from ----

  predicate NoRepeats(symbols: seq<string>) {
    forall i, j :: 0 <= i < j < |symbols| ==> symbols[i] != symbols[j]
  }

  /** The sender has exactly the shares (and at least the cash) that this transfer takes. */
  predicate Fits(A: L.Accounts, op: L.Op) {
    && Transfer(op) && Positive(op) && op.from in A
    && (op.Move? ==> op.amount <= A[op.from].cash)
    && (op.MoveShares? ==> L.Held(A[op.from], op.symbol) == L.Pos(op.qty, op.cost))
  }

  predicate Clash(x: L.Op, y: L.Op) {
    (x.Move? && y.Move? && x.from == y.from)
    || (x.MoveShares? && y.MoveShares? && x.from == y.from && x.symbol == y.symbol)
  }

  predicate NoClash(ops: seq<L.Op>) {
    forall i, j :: 0 <= i < j < |ops| ==> !Clash(ops[i], ops[j])
  }

  predicate AllFit(A: L.Accounts, ops: seq<L.Op>) {
    forall i :: 0 <= i < |ops| ==> Fits(A, ops[i]) && ops[i].to in A
  }

  lemma StillFits(op: L.Op, later: L.Op, A: L.Accounts)
    requires Fits(A, op) && Fits(A, later) && !Clash(op, later)
    requires L.Allowed(op, A) && op.to != later.from
    ensures Fits(L.Apply(op, A), later)
  {
    if later.Move? {
      if op.Move? { CashMoveExact(op, A, later.from, InCash); } else { ShareMoveExact(op, A, later.from, InCash); }
    } else {
      var q, c := InShares(later.symbol), InCost(later.symbol);
      if op.Move? {
        CashMoveExact(op, A, later.from, q);
        CashMoveExact(op, A, later.from, c);
      } else {
        ShareMoveExact(op, A, later.from, q);
        ShareMoveExact(op, A, later.from, c);
      }
    }
  }

  lemma {:induction false} FittingIsAllowed(ops: seq<L.Op>, A: L.Accounts)
    requires AllFit(A, ops) && NoClash(ops) && Transfers(ops) && OneWay(ops)
    ensures AllAllowed(ops, A)
  {
    if ops != [] {
      assert Fits(A, ops[0]);
      var B := L.Apply(ops[0], A);
      forall i | 0 <= i < |ops[1..]|
        ensures Fits(B, ops[1..][i]) && ops[1..][i].to in B
      {
        assert ops[1..][i] == ops[i + 1] && Fits(A, ops[i + 1]);
        StillFits(ops[0], ops[i + 1], A);
      }
      assert OneWay(ops[1..]);
      FittingIsAllowed(ops[1..], B);
    }
  }

  predicate PosFits(a: L.Acct, symbols: seq<string>, p: B.MovedShares) {
    p.symbol in symbols && p.qty > 0 && p.cost >= 0 && L.Held(a, p.symbol) == L.Pos(p.qty, p.cost)
  }

  predicate AllPosFit(a: L.Acct, symbols: seq<string>, ps: seq<B.MovedShares>) {
    && (forall i :: 0 <= i < |ps| ==> PosFits(a, symbols, ps[i]))
    && (forall i, j :: 0 <= i < j < |ps| ==> ps[i].symbol != ps[j].symbol)
  }

  lemma {:induction false} PositionsFit(a: L.Acct, symbols: seq<string>)
    requires L.SaneAcct(a) && NoRepeats(symbols)
    ensures AllPosFit(a, symbols, Positions(a, symbols))
  {
    if symbols != [] {
      var past, s := symbols[..|symbols| - 1], symbols[|symbols| - 1];
      PositionsFit(a, past);
      var ps, all := Positions(a, past), Positions(a, symbols);
      forall i | 0 <= i < |all|
        ensures PosFits(a, symbols, all[i])
      {
        if i < |ps| {
          assert PosFits(a, past, ps[i]) && all[i] == ps[i];
        } else {
          assert s in a.pos;
        }
      }
      forall i, j | 0 <= i < j < |all|
        ensures all[i].symbol != all[j].symbol
      {
        assert PosFits(a, past, ps[i]) && all[i] == ps[i];
      }
    }
  }

  /** These operations take from `team`, give to `account`, fit and do not clash. */
  ghost predicate From(A: L.Accounts, ops: seq<L.Op>, team: string, account: string) {
    (forall i :: 0 <= i < |ops| ==> Fits(A, ops[i]) && ops[i].from == team && ops[i].to == account) && NoClash(ops)
  }

  lemma TeamFits(A: L.Accounts, team: string, account: string, symbols: seq<string>)
    requires team in A && L.SaneAcct(A[team]) && NoRepeats(symbols) && team != account
    ensures From(A, MoveOps(TeamMove(team, account, A[team], symbols)), team, account)
  {
    PositionsFit(A[team], symbols);
    var m := TeamMove(team, account, A[team], symbols);
    var shares := ShareOps(team, account, m.shares);
    forall i | 0 <= i < |shares|
      ensures Fits(A, shares[i])
    {
      assert PosFits(A[team], symbols, m.shares[i]);
    }
    forall i, j | 0 <= i < j < |shares|
      ensures !Clash(shares[i], shares[j])
    {
      assert m.shares[i].symbol != m.shares[j].symbol;
    }
  }

  /** What the callers of formation check: every team joins once, and no fund account is a team. */
  predicate Roster(A: L.Accounts, js: seq<(string, B.Formed)>) {
    && (forall i, j :: 0 <= i < j < |js| ==> js[i].0 != js[j].0)
    && (forall i, j :: 0 <= i < |js| && 0 <= j < |js| ==> js[i].0 != js[j].1.account)
    && (forall i :: 0 <= i < |js| ==> js[i].1.account in A)
  }

  /** The operation takes a team's things to that team's fund. */
  ghost predicate Rides(op: L.Op, js: seq<(string, B.Formed)>) {
    (op.Move? || op.MoveShares?) && exists k :: 0 <= k < |js| && js[k].0 == op.from && js[k].1.account == op.to
  }

  ghost predicate Routed(A: L.Accounts, ops: seq<L.Op>, js: seq<(string, B.Formed)>) {
    (forall i :: 0 <= i < |ops| ==> Fits(A, ops[i]) && Rides(ops[i], js)) && NoClash(ops)
  }

  lemma RidesOn(op: L.Op, js: seq<(string, B.Formed)>)
    requires js != [] && Rides(op, js[..|js| - 1])
    ensures Rides(op, js)
  {
    var k :| 0 <= k < |js| - 1 && js[..|js| - 1][k].0 == op.from && js[..|js| - 1][k].1.account == op.to;
    assert js[k] == js[..|js| - 1][k];
  }

  lemma {:induction false} PlanRouted(A: L.Accounts, js: seq<(string, B.Formed)>, symbols: seq<string>,
                                      price: map<string, int>, launch: real)
    requires launch > 0.0 && L.Sane(A) && NoRepeats(symbols) && Roster(A, js)
    ensures Routed(A, AllOps(SeedPlan(A, js, symbols, price, launch).0), js)
  {
    if js != [] {
      var past := js[..|js| - 1];
      var (team, f) := js[|js| - 1];
      PlanRouted(A, past, symbols, price, launch);
      var moves := SeedPlan(A, past, symbols, price, launch).0;
      var ops := AllOps(moves);
      forall i | 0 <= i < |ops|
        ensures Rides(ops[i], js)
      {
        assert Rides(ops[i], past);
        RidesOn(ops[i], js);
      }
      if Brings(A, team, symbols) {
        assert js[|js| - 1].1.account == f.account;
        TeamFits(A, team, f.account, symbols);
        var m := TeamMove(team, f.account, A[team], symbols);
        assert (moves + [m])[..|moves|] == moves;
        RoutedPlus(A, ops, MoveOps(m), js);
      }
    }
  }

  /** Teams join once, so a later team's moves clash with no earlier one's. */
  lemma LastApart(op: L.Op, js: seq<(string, B.Formed)>, A: L.Accounts)
    requires js != [] && Rides(op, js[..|js| - 1]) && Roster(A, js)
    ensures op.from != js[|js| - 1].0
  {
    var k :| 0 <= k < |js| - 1 && js[..|js| - 1][k].0 == op.from && js[..|js| - 1][k].1.account == op.to;
    assert js[k] == js[..|js| - 1][k];
  }

  lemma RoutedPlus(A: L.Accounts, ops: seq<L.Op>, more: seq<L.Op>, js: seq<(string, B.Formed)>)
    requires js != [] && Routed(A, ops, js[..|js| - 1]) && Roster(A, js)
    requires From(A, more, js[|js| - 1].0, js[|js| - 1].1.account)
    ensures Routed(A, ops + more, js)
  {
    var n, all := |js| - 1, ops + more;
    forall i | 0 <= i < |all|
      ensures Fits(A, all[i]) && Rides(all[i], js)
    {
      if i < |ops| {
        assert all[i] == ops[i] && Rides(ops[i], js[..n]);
        RidesOn(ops[i], js);
      } else {
        assert all[i] == more[i - |ops|] && Fits(A, more[i - |ops|]);
        assert js[n].0 == all[i].from && js[n].1.account == all[i].to;
      }
    }
    forall i, j | 0 <= i < j < |all|
      ensures !Clash(all[i], all[j])
    {
      if i < |ops| && j >= |ops| {
        assert Rides(ops[i], js[..n]) && all[j] == more[j - |ops|] && Fits(A, more[j - |ops|]);
        LastApart(ops[i], js, A);
      }
    }
  }

  /** The plan made from the current accounts can be carried out in full, and only moves things from
      teams to funds: with DissolveUndoesForm, forming and dissolving restores every account. */
  lemma PlanIsAllowed(A: L.Accounts, js: seq<(string, B.Formed)>, symbols: seq<string>, price: map<string, int>, launch: real)
    requires launch > 0.0 && L.Sane(A) && NoRepeats(symbols) && Roster(A, js)
    ensures var ops := AllOps(SeedPlan(A, js, symbols, price, launch).0);
            Transfers(ops) && OneWay(ops) && AllAllowed(ops, A)
  {
    var ops := AllOps(SeedPlan(A, js, symbols, price, launch).0);
    PlanRouted(A, js, symbols, price, launch);
    forall i | 0 <= i < |ops|
      ensures Transfer(ops[i]) && Positive(ops[i]) && ops[i].to in A
    {
      assert Fits(A, ops[i]) && Rides(ops[i], js);
    }
    forall i, j | 0 <= i < |ops| && 0 <= j < |ops|
      ensures ops[i].from != ops[j].to
    {
      assert Rides(ops[i], js) && Rides(ops[j], js);
      RidesApart(ops[i], ops[j], js, A);
    }
    FittingIsAllowed(ops, A);
  }

  lemma RidesApart(x: L.Op, y: L.Op, js: seq<(string, B.Formed)>, A: L.Accounts)
    requires Rides(x, js) && Rides(y, js) && Roster(A, js)
    ensures x.from != y.to
  {
    var k :| 0 <= k < |js| && js[k].0 == x.from && js[k].1.account == x.to;
    var l :| 0 <= l < |js| && js[l].0 == y.from && js[l].1.account == y.to;
  }

  /** The dissolving event's moves are the formation's transfers, each the other way. */
  function Reversed(m: B.Move): B.Move { B.Move(m.to, m.from, m.cash, m.shares) }

  lemma {:induction false} ReversedOps(moves: seq<B.Move>, back: seq<B.Move>)
    requires |back| == |moves| && forall i :: 0 <= i < |moves| ==> back[i] == Reversed(moves[i])
    ensures AllOps(back) == BackAll(AllOps(moves))
  {
    if moves != [] {
      var n := |moves| - 1;
      ReversedOps(moves[..n], back[..n]);
      ReversedMove(moves[n]);
      BackPlus(AllOps(moves[..n]), MoveOps(moves[n]));
    }
  }

  lemma ReversedMove(m: B.Move)
    ensures MoveOps(Reversed(m)) == BackAll(MoveOps(m))
  {
  }

  lemma BackPlus(a: seq<L.Op>, b: seq<L.Op>)
    ensures BackAll(a + b) == BackAll(a) + BackAll(b)
  {
  }

  // ---- the launch NAV ----

  /** What a holding is worth: at its price, or at cost while it has no price. */
  function Mark(qty: int, cost: int, s: string, price: map<string, int>): int {
    if s in price then price[s] * qty else cost
  }

  function MarkOf(a: L.Acct, s: string, price: map<string, int>): int {
    Mark(L.Held(a, s).qty, L.Held(a, s).cost, s, price)
  }

  function MarkSum(a: L.Acct, symbols: seq<string>, price: map<string, int>): int {
    if symbols == [] then 0
    else MarkSum(a, symbols[..|symbols| - 1], price) + MarkOf(a, symbols[|symbols| - 1], price)
  }

  /** An account's value: cash plus every holding. */
  function Value(a: L.Acct, symbols: seq<string>, price: map<string, int>): int {
    a.cash + MarkSum(a, symbols, price)
  }

  /** The cost of the holdings that have no price. */
  function Unpriced(shares: seq<B.MovedShares>, price: map<string, int>): int {
    if shares == [] then 0 else
      var s := shares[|shares| - 1];
      Unpriced(shares[..|shares| - 1], price) + if s.symbol in price then 0 else s.cost
  }

  lemma SplitStep(ps: seq<B.MovedShares>, x: B.MovedShares, price: map<string, int>)
    ensures Priced(ps + [x], price) + Unpriced(ps + [x], price)
         == Priced(ps, price) + Unpriced(ps, price) + Mark(x.qty, x.cost, x.symbol, price)
  {
    assert (ps + [x])[..|ps|] == ps;
  }

  lemma {:induction false} ValueSplits(a: L.Acct, symbols: seq<string>, price: map<string, int>)
    requires L.SaneAcct(a)
    ensures MarkSum(a, symbols, price) == Priced(Positions(a, symbols), price) + Unpriced(Positions(a, symbols), price)
  {
    if symbols != [] {
      var past, s := symbols[..|symbols| - 1], symbols[|symbols| - 1];
      ValueSplits(a, past, price);
      var p := L.Held(a, s);
      assert L.SanePos(p);
      var ps := Positions(a, past);
      if p.qty > 0 {
        SplitStep(ps, B.MovedShares(s, p.qty, p.cost), price);
      } else {
        assert Positions(a, symbols) == ps && MarkOf(a, s, price) == 0;
      }
    }
  }

  // ---- what a formation brings to one fund ----

  predicate Joins(A: L.Accounts, j: (string, B.Formed), account: string) {
    j.0 in A && j.1.account == account
  }

  function Brought(A: L.Accounts, js: seq<(string, B.Formed)>, account: string, w: What): int {
    if js == [] then 0 else
      var j := js[|js| - 1];
      Brought(A, js[..|js| - 1], account, w) + if Joins(A, j, account) then Amount(A[j.0], w) else 0
  }

  function ValueBrought(A: L.Accounts, js: seq<(string, B.Formed)>, account: string, symbols: seq<string>, price: map<string, int>): int {
    if js == [] then 0 else
      var j := js[|js| - 1];
      ValueBrought(A, js[..|js| - 1], account, symbols, price)
      + if Joins(A, j, account) then MarkSum(A[j.0], symbols, price) else 0
  }

  function UnpricedBrought(A: L.Accounts, js: seq<(string, B.Formed)>, account: string, symbols: seq<string>, price: map<string, int>): int {
    if js == [] then 0 else
      var j := js[|js| - 1];
      UnpricedBrought(A, js[..|js| - 1], account, symbols, price)
      + if Joins(A, j, account) then Unpriced(Positions(A[j.0], symbols), price) else 0
  }

  lemma {:induction false} NetPlus(a: seq<L.Op>, b: seq<L.Op>, id: string, w: What)
    requires Transfers(a) && Transfers(b)
    ensures Transfers(a + b) && NetAll(a + b, id, w) == NetAll(a, id, w) + NetAll(b, id, w)
  {
    if a == [] {
      assert a + b == b;
    } else {
      NetPlus(a[1..], b, id, w);
      assert (a + b)[0] == a[0] && (a + b)[1..] == a[1..] + b;
    }
  }

  /** Whether this amount is part of a portfolio over the given companies. */
  predicate Listed(w: What, symbols: seq<string>) { w.InCash? || w.s in symbols }

  lemma {:induction false} ShareNet(team: string, account: string, a: L.Acct, symbols: seq<string>, w: What)
    requires team != account && L.SaneAcct(a) && NoRepeats(symbols)
    ensures var ops := ShareOps(team, account, Positions(a, symbols));
            Transfers(ops)
            && NetAll(ops, account, w) == if w.InCash? || !Listed(w, symbols) then 0 else Amount(a, w)
  {
    if symbols != [] {
      var past, s := symbols[..|symbols| - 1], symbols[|symbols| - 1];
      ShareNet(team, account, a, past, w);
      var p := L.Held(a, s);
      assert L.SanePos(p);
      if p.qty > 0 {
        var ops, op := ShareOps(team, account, Positions(a, past)), L.MoveShares(team, account, s, p.qty, p.cost);
        assert ShareOps(team, account, Positions(a, symbols)) == ops + [op];
        NetPlus(ops, [op], account, w);
        assert NetAll([op], account, w) == Net(op, account, w);
        assert !w.InCash? && w.s == s ==> s !in past;
      } else {
        assert Positions(a, symbols) == Positions(a, past);
      }
    }
  }

  lemma TeamNet(team: string, to: string, account: string, a: L.Acct, symbols: seq<string>, w: What)
    requires team != to && team != account && L.SaneAcct(a) && NoRepeats(symbols) && Listed(w, symbols)
    ensures var ops := MoveOps(TeamMove(team, to, a, symbols));
            Transfers(ops) && NetAll(ops, account, w) == if to == account then Amount(a, w) else 0
  {
    var shares := ShareOps(team, to, Positions(a, symbols));
    ShareNet(team, to, a, symbols, w);
    NetElsewhere(shares, team, to, account, w);
    if a.cash > 0 {
      CashFirst(L.Move(team, to, a.cash), shares, account, w);
    } else {
      assert [] + shares == shares;
    }
  }

  lemma CashFirst(op: L.Op, shares: seq<L.Op>, account: string, w: What)
    requires Transfer(op) && Transfers(shares)
    ensures Transfers([op] + shares) && NetAll([op] + shares, account, w) == Net(op, account, w) + NetAll(shares, account, w)
  {
    assert ([op] + shares)[1..] == shares;
  }

  lemma {:induction false} NetElsewhere(ops: seq<L.Op>, team: string, to: string, account: string, w: What)
    requires Transfers(ops) && forall i :: 0 <= i < |ops| ==> ops[i].from == team && ops[i].to == to
    ensures account != to && account != team ==> NetAll(ops, account, w) == 0
  {
    if ops != [] { NetElsewhere(ops[1..], team, to, account, w); }
  }

  lemma NothingToBring(a: L.Acct, symbols: seq<string>, w: What)
    requires L.SaneAcct(a) && a.cash <= 0 && Positions(a, symbols) == [] && Listed(w, symbols)
    ensures Amount(a, w) == 0
  {
    if !w.InCash? { NoPosition(a, symbols, w.s); }
  }

  lemma {:induction false} NoPosition(a: L.Acct, symbols: seq<string>, s: string)
    requires L.SaneAcct(a) && Positions(a, symbols) == [] && s in symbols
    ensures L.Held(a, s) == L.NO_POS
  {
    var past := symbols[..|symbols| - 1];
    if s != symbols[|symbols| - 1] { NoPosition(a, past, s); }
  }

  lemma {:induction false} PlanNet(A: L.Accounts, js: seq<(string, B.Formed)>, account: string, w: What,
                                   symbols: seq<string>, price: map<string, int>, launch: real)
    requires launch > 0.0 && L.Sane(A) && NoRepeats(symbols) && Roster(A, js) && Listed(w, symbols)
    requires forall i :: 0 <= i < |js| ==> js[i].0 != account
    ensures var ops := AllOps(SeedPlan(A, js, symbols, price, launch).0);
            Transfers(ops) && NetAll(ops, account, w) == Brought(A, js, account, w)
  {
    if js != [] {
      var past := js[..|js| - 1];
      var (team, f) := js[|js| - 1];
      PlanNet(A, past, account, w, symbols, price, launch);
      var moves := SeedPlan(A, past, symbols, price, launch).0;
      if Brings(A, team, symbols) {
        assert js[|js| - 1].1.account == f.account;
        var m := TeamMove(team, f.account, A[team], symbols);
        TeamNet(team, f.account, account, A[team], symbols, w);
        NetPlus(AllOps(moves), MoveOps(m), account, w);
        assert (moves + [m])[..|moves|] == moves;
      } else if team in A {
        NothingToBring(A[team], symbols, w);
      }
    }
  }

  lemma {:induction false} SenderNet(ops: seq<L.Op>, team: string, to: string, w: What)
    requires Transfers(ops) && team != to && forall i :: 0 <= i < |ops| ==> ops[i].from == team && ops[i].to == to
    ensures NetAll(ops, team, w) == -NetAll(ops, to, w)
  {
    if ops != [] { SenderNet(ops[1..], team, to, w); }
  }

  lemma {:induction false} NetUntouched(ops: seq<L.Op>, id: string, w: What)
    requires Transfers(ops) && forall i :: 0 <= i < |ops| ==> ops[i].from != id && ops[i].to != id
    ensures NetAll(ops, id, w) == 0
  {
    if ops != [] { NetUntouched(ops[1..], id, w); }
  }

  /** What one team's move takes from it, and from another. */
  lemma MoveTakes(A: L.Accounts, j: (string, B.Formed), team: string, w: What, symbols: seq<string>)
    requires j.0 in A && L.SaneAcct(A[j.0]) && NoRepeats(symbols) && Listed(w, symbols) && j.0 != j.1.account && team != j.1.account
    ensures var ops := MoveOps(TeamMove(j.0, j.1.account, A[j.0], symbols));
            Transfers(ops) && NetAll(ops, team, w) == if team == j.0 then -Amount(A[j.0], w) else 0
  {
    var ops := MoveOps(TeamMove(j.0, j.1.account, A[j.0], symbols));
    TeamNet(j.0, j.1.account, j.1.account, A[j.0], symbols, w);
    if team == j.0 { SenderNet(ops, team, j.1.account, w); } else { NetUntouched(ops, team, w); }
  }

  /** What the plan takes from a team. */
  lemma {:induction false} PlanTakes(A: L.Accounts, js: seq<(string, B.Formed)>, k: nat, w: What,
                                     symbols: seq<string>, price: map<string, int>, launch: real)
    requires launch > 0.0 && L.Sane(A) && NoRepeats(symbols) && Roster(A, js) && Listed(w, symbols)
    requires k < |js| && js[k].0 in A
    ensures var ops := AllOps(SeedPlan(A, js, symbols, price, launch).0);
            Transfers(ops) && NetAll(ops, js[k].0, w) == -Amount(A[js[k].0], w)
  {
    var past, n := js[..|js| - 1], |js| - 1;
    var moves := SeedPlan(A, past, symbols, price, launch).0;
    if k == n { PlanSpares(A, js, symbols, price, launch, w); } else { PlanTakes(A, past, k, w, symbols, price, launch); }
    if Brings(A, js[n].0, symbols) {
      var m := TeamMove(js[n].0, js[n].1.account, A[js[n].0], symbols);
      MoveTakes(A, js[n], js[k].0, w, symbols);
      NetPlus(AllOps(moves), MoveOps(m), js[k].0, w);
      assert (moves + [m])[..|moves|] == moves;
    } else if k == n {
      NothingToBring(A[js[n].0], symbols, w);
    }
  }

  /** The moves of the other teams do not touch the last one. */
  lemma PlanSpares(A: L.Accounts, js: seq<(string, B.Formed)>, symbols: seq<string>, price: map<string, int>, launch: real, w: What)
    requires launch > 0.0 && L.Sane(A) && NoRepeats(symbols) && Roster(A, js) && js != []
    ensures var ops := AllOps(SeedPlan(A, js[..|js| - 1], symbols, price, launch).0);
            Transfers(ops) && NetAll(ops, js[|js| - 1].0, w) == 0
  {
    var past, team := js[..|js| - 1], js[|js| - 1].0;
    var ops := AllOps(SeedPlan(A, past, symbols, price, launch).0);
    PlanRouted(A, past, symbols, price, launch);
    forall i | 0 <= i < |ops|
      ensures Transfer(ops[i]) && ops[i].from != team && ops[i].to != team
    {
      assert Fits(A, ops[i]) && Rides(ops[i], past);
      var k :| 0 <= k < |past| && past[k].0 == ops[i].from && past[k].1.account == ops[i].to;
      assert past[k] == js[k];
    }
    NetUntouched(ops, team, w);
  }

  /** After the plan a team has no cash left and no shares of any listed company. */
  lemma TeamGivesAll(A: L.Accounts, js: seq<(string, B.Formed)>, k: nat, w: What,
                     symbols: seq<string>, price: map<string, int>, launch: real)
    requires launch > 0.0 && L.Sane(A) && NoRepeats(symbols) && Roster(A, js) && Listed(w, symbols)
    requires k < |js| && js[k].0 in A
    ensures var M := ApplyOps(AllOps(SeedPlan(A, js, symbols, price, launch).0), A);
            js[k].0 in M && Amount(M[js[k].0], w) == 0
  {
    PlanIsAllowed(A, js, symbols, price, launch);
    PlanTakes(A, js, k, w, symbols, price, launch);
    TransfersExact(AllOps(SeedPlan(A, js, symbols, price, launch).0), A, js[k].0, w);
  }

  /** What a team is credited with for its cash and its priced shares. */
  function Worth(a: L.Acct, symbols: seq<string>, price: map<string, int>): int {
    if symbols == [] then a.cash
    else
      var s := symbols[|symbols| - 1];
      Worth(a, symbols[..|symbols| - 1], price) + if s in price then price[s] * L.Held(a, s).qty else 0
  }

  lemma {:induction false} WorthIsPriced(a: L.Acct, symbols: seq<string>, price: map<string, int>)
    requires L.SaneAcct(a)
    ensures Worth(a, symbols, price) == a.cash + Priced(Positions(a, symbols), price)
  {
    if symbols != [] {
      var past, s := symbols[..|symbols| - 1], symbols[|symbols| - 1];
      WorthIsPriced(a, past, price);
      var p := L.Held(a, s);
      assert L.SanePos(p);
      if p.qty > 0 {
        var ps, x := Positions(a, past), B.MovedShares(s, p.qty, p.cost);
        assert (ps + [x])[..|ps|] == ps;
      } else {
        assert Positions(a, symbols) == Positions(a, past);
        if s in price { assert price[s] * p.qty == 0; }
      }
    }
  }

  /** In this team's name and fund: what it is worth, and the units that buys at the launch NAV. */
  predicate CreditsAt(x: B.SeedUnits, A: L.Accounts, j: (string, B.Formed), symbols: seq<string>, price: map<string, int>, launch: real) {
    && Brings(A, j.0, symbols) && x.team == j.0 && x.fund == j.1.id
    && x.amount == Worth(A[j.0], symbols, price) && x.units * launch * 100.0 == x.amount as real
  }

  ghost predicate Credits(x: B.SeedUnits, A: L.Accounts, js: seq<(string, B.Formed)>, symbols: seq<string>, price: map<string, int>, launch: real) {
    exists k :: 0 <= k < |js| && CreditsAt(x, A, js[k], symbols, price, launch)
  }

  lemma CreditsOn(x: B.SeedUnits, A: L.Accounts, js: seq<(string, B.Formed)>, symbols: seq<string>, price: map<string, int>, launch: real)
    requires js != [] && Credits(x, A, js[..|js| - 1], symbols, price, launch)
    ensures Credits(x, A, js, symbols, price, launch)
    ensures (forall i, j :: 0 <= i < j < |js| ==> js[i].0 != js[j].0) ==> x.team != js[|js| - 1].0
  {
    var past := js[..|js| - 1];
    var k :| 0 <= k < |past| && CreditsAt(x, A, past[k], symbols, price, launch);
    assert past[k] == js[k];
  }

  lemma SeedsStep(A: L.Accounts, js: seq<(string, B.Formed)>, symbols: seq<string>, price: map<string, int>, launch: real)
    requires launch > 0.0 && js != []
    ensures var (j, past) := (js[|js| - 1], js[..|js| - 1]);
            SeedPlan(A, js, symbols, price, launch).1
              == SeedPlan(A, past, symbols, price, launch).1
                 + if Brings(A, j.0, symbols) then [TeamSeed(j.0, j.1.id, A[j.0], symbols, price, launch)] else []
  {
  }

  /** Every team that brings something is credited, once, with what it is worth; nobody else is. */
  lemma {:induction false} SeedsByTeam(A: L.Accounts, js: seq<(string, B.Formed)>, symbols: seq<string>, price: map<string, int>, launch: real)
    requires launch > 0.0 && L.Sane(A) && forall i, j :: 0 <= i < j < |js| ==> js[i].0 != js[j].0
    ensures var seeds := SeedPlan(A, js, symbols, price, launch).1;
            && (forall i :: 0 <= i < |seeds| ==> Credits(seeds[i], A, js, symbols, price, launch))
            && (forall i, j :: 0 <= i < j < |seeds| ==> seeds[i].team != seeds[j].team)
  {
    if js != [] {
      var past, n := js[..|js| - 1], |js| - 1;
      SeedsByTeam(A, past, symbols, price, launch);
      SeedsStep(A, js, symbols, price, launch);
      var before, seeds := SeedPlan(A, past, symbols, price, launch).1, SeedPlan(A, js, symbols, price, launch).1;
      forall i | 0 <= i < |seeds|
        ensures Credits(seeds[i], A, js, symbols, price, launch)
        ensures i < |before| ==> seeds[i] == before[i] && before[i].team != js[n].0
      {
        if i < |before| {
          CreditsOn(before[i], A, js, symbols, price, launch);
        } else {
          SeedOfTeam(A, js[n], symbols, price, launch);
        }
      }
    }
  }

  lemma {:induction false} EveryTeamSeeded(A: L.Accounts, js: seq<(string, B.Formed)>, k: nat, symbols: seq<string>, price: map<string, int>, launch: real)
    requires launch > 0.0 && k < |js| && Brings(A, js[k].0, symbols)
    ensures var seeds := SeedPlan(A, js, symbols, price, launch).1; exists i :: 0 <= i < |seeds| && seeds[i].team == js[k].0
  {
    var past, n := js[..|js| - 1], |js| - 1;
    var before, seeds := SeedPlan(A, past, symbols, price, launch).1, SeedPlan(A, js, symbols, price, launch).1;
    SeedsStep(A, js, symbols, price, launch);
    if k == n {
      assert seeds[|before|].team == js[k].0;
    } else {
      EveryTeamSeeded(A, past, k, symbols, price, launch);
      var i :| 0 <= i < |before| && before[i].team == js[k].0;
      assert seeds[i] == before[i];
    }
  }

  lemma SeedOfTeam(A: L.Accounts, j: (string, B.Formed), symbols: seq<string>, price: map<string, int>, launch: real)
    requires launch > 0.0 && L.Sane(A) && Brings(A, j.0, symbols)
    ensures CreditsAt(TeamSeed(j.0, j.1.id, A[j.0], symbols, price, launch), A, j, symbols, price, launch)
  {
    WorthIsPriced(A[j.0], symbols, price);
    UnitsAtLaunch(Worth(A[j.0], symbols, price) as real, launch);
  }

  lemma UnitsAtLaunch(paise: real, launch: real)
    requires launch > 0.0
    ensures paise / 100.0 / launch * launch * 100.0 == paise
  {
    assert paise / 100.0 / launch * launch == paise / 100.0;
  }

  lemma MarkAdds(q: int, c: int, q': int, c': int, s: string, price: map<string, int>)
    ensures Mark(q + q', c + c', s, price) == Mark(q, c, s, price) + Mark(q', c', s, price)
  {
  }

  /** The marks of what every team brought of one company. */
  function MarkBrought(A: L.Accounts, js: seq<(string, B.Formed)>, account: string, s: string, price: map<string, int>): int {
    Mark(Brought(A, js, account, InShares(s)), Brought(A, js, account, InCost(s)), s, price)
  }

  function MarksBrought(A: L.Accounts, js: seq<(string, B.Formed)>, account: string, symbols: seq<string>, price: map<string, int>): int {
    if symbols == [] then 0
    else MarksBrought(A, js, account, symbols[..|symbols| - 1], price)
         + MarkBrought(A, js, account, symbols[|symbols| - 1], price)
  }

  lemma {:induction false} MarksStep(A: L.Accounts, js: seq<(string, B.Formed)>, account: string, symbols: seq<string>, price: map<string, int>)
    requires js != []
    ensures MarksBrought(A, js, account, symbols, price)
         == MarksBrought(A, js[..|js| - 1], account, symbols, price)
            + (if Joins(A, js[|js| - 1], account) then MarkSum(A[js[|js| - 1].0], symbols, price) else 0)
  {
    if symbols != [] {
      var s := symbols[|symbols| - 1];
      MarksStep(A, js, account, symbols[..|symbols| - 1], price);
      var past, j := js[..|js| - 1], js[|js| - 1];
      if Joins(A, j, account) {
        MarkAdds(Brought(A, past, account, InShares(s)), Brought(A, past, account, InCost(s)),
                 Amount(A[j.0], InShares(s)), Amount(A[j.0], InCost(s)), s, price);
      }
    }
  }

  lemma {:induction false} MarksAreValues(A: L.Accounts, js: seq<(string, B.Formed)>, account: string, symbols: seq<string>, price: map<string, int>)
    ensures MarksBrought(A, js, account, symbols, price) == ValueBrought(A, js, account, symbols, price)
  {
    if js == [] {
      NoMarks(A, account, symbols, price);
    } else {
      MarksStep(A, js, account, symbols, price);
      MarksAreValues(A, js[..|js| - 1], account, symbols, price);
    }
  }

  lemma {:induction false} NoMarks(A: L.Accounts, account: string, symbols: seq<string>, price: map<string, int>)
    ensures MarksBrought(A, [], account, symbols, price) == 0
  {
    if symbols != [] { NoMarks(A, account, symbols[..|symbols| - 1], price); }
  }

  lemma {:induction false} FundMarks(a: L.Acct, A: L.Accounts, js: seq<(string, B.Formed)>, account: string,
                                     symbols: seq<string>, price: map<string, int>)
    requires forall s :: s in symbols ==> Amount(a, InShares(s)) == Brought(A, js, account, InShares(s))
                                          && Amount(a, InCost(s)) == Brought(A, js, account, InCost(s))
    ensures MarkSum(a, symbols, price) == MarksBrought(A, js, account, symbols, price)
  {
    if symbols != [] {
      FundMarks(a, A, js, account, symbols[..|symbols| - 1], price);
      assert symbols[|symbols| - 1] in symbols;
    }
  }

  function AmountOf(seeds: seq<B.SeedUnits>, fund: string): int {
    if seeds == [] then 0
    else AmountOf(seeds[..|seeds| - 1], fund) + if seeds[|seeds| - 1].fund == fund then seeds[|seeds| - 1].amount else 0
  }

  function UnitsOf(seeds: seq<B.SeedUnits>, fund: string): real {
    if seeds == [] then 0.0
    else UnitsOf(seeds[..|seeds| - 1], fund) + if seeds[|seeds| - 1].fund == fund then seeds[|seeds| - 1].units else 0.0
  }

  lemma {:induction false} PlanSeedAmounts(A: L.Accounts, js: seq<(string, B.Formed)>, f: B.Formed,
                                           symbols: seq<string>, price: map<string, int>, launch: real)
    requires launch > 0.0 && L.Sane(A)
    requires forall i :: 0 <= i < |js| ==> (js[i].1.id == f.id <==> js[i].1.account == f.account)
    ensures AmountOf(SeedPlan(A, js, symbols, price, launch).1, f.id)
         == Brought(A, js, f.account, InCash) + ValueBrought(A, js, f.account, symbols, price)
            - UnpricedBrought(A, js, f.account, symbols, price)
  {
    if js != [] {
      var past := js[..|js| - 1];
      var (team, g) := js[|js| - 1];
      PlanSeedAmounts(A, past, f, symbols, price, launch);
      var seeds := SeedPlan(A, past, symbols, price, launch).1;
      assert js[|js| - 1].1 == g;
      if team in A { ValueSplits(A[team], symbols, price); }
      if Brings(A, team, symbols) {
        assert (seeds + [TeamSeed(team, g.id, A[team], symbols, price, launch)])[..|seeds|] == seeds;
      }
    }
  }

  predicate UnitsMatch(seeds: seq<B.SeedUnits>, id: string, launch: real) {
    UnitsOf(seeds, id) * launch == AmountOf(seeds, id) as real / 100.0
  }

  lemma SeedUnitsStep(seeds: seq<B.SeedUnits>, x: B.SeedUnits, id: string, launch: real)
    requires UnitsMatch(seeds, id, launch) && x.units * launch == x.amount as real / 100.0
    ensures UnitsMatch(seeds + [x], id, launch)
  {
    assert (seeds + [x])[..|seeds|] == seeds;
    RDistribute(UnitsOf(seeds, id), x.units, launch);
  }

  lemma {:induction false} PlanSeedUnits(A: L.Accounts, js: seq<(string, B.Formed)>, id: string,
                                         symbols: seq<string>, price: map<string, int>, launch: real)
    requires launch > 0.0
    ensures UnitsMatch(SeedPlan(A, js, symbols, price, launch).1, id, launch)
  {
    if js != [] {
      var past := js[..|js| - 1];
      var (team, g) := js[|js| - 1];
      PlanSeedUnits(A, past, id, symbols, price, launch);
      if Brings(A, team, symbols) {
        var x := TeamSeed(team, g.id, A[team], symbols, price, launch);
        UnitsTimesNav(x.amount as real / 100.0, launch);
        SeedUnitsStep(SeedPlan(A, past, symbols, price, launch).1, x, id, launch);
      }
    }
  }

  lemma UnitsTimesNav(rupees: real, launch: real)
    requires launch > 0.0
    ensures (rupees / launch) * launch == rupees
  {
  }

  /** A fund's NAV per unit: its value in rupees over the units outstanding. */
  function Nav(value: int, units: real): real
    requires units > 0.0
  {
    (value as real / 100.0) / units
  }

  /** Formation's terms for one fund: its account is new and none of the joining teams. */
  ghost predicate Launches(A: L.Accounts, js: seq<(string, B.Formed)>, f: B.Formed, symbols: seq<string>) {
    && L.Sane(A) && NoRepeats(symbols) && Roster(A, js)
    && (forall i :: 0 <= i < |js| ==> js[i].0 != f.account)
    && (forall i :: 0 <= i < |js| ==> (js[i].1.id == f.id <==> js[i].1.account == f.account))
    && f.account in A && (forall s :: L.Held(A[f.account], s) == L.NO_POS)
  }

  function ValueAfter(A: L.Accounts, js: seq<(string, B.Formed)>, account: string,
                      symbols: seq<string>, price: map<string, int>, launch: real): int
    requires launch > 0.0
  {
    var M := ApplyOps(AllOps(SeedPlan(A, js, symbols, price, launch).0), A);
    if account in M then Value(M[account], symbols, price) else 0
  }

  /** After a formation, a fund is worth its seed capital plus everything its teams brought, and its
      units are what the priced part of that buys at the launch NAV. */
  lemma LaunchAmounts(A: L.Accounts, js: seq<(string, B.Formed)>, f: B.Formed,
                      symbols: seq<string>, price: map<string, int>, launch: real)
    requires launch > 0.0 && Launches(A, js, f, symbols)
    ensures var seeds := SeedPlan(A, js, symbols, price, launch).1;
            && ValueAfter(A, js, f.account, symbols, price, launch)
               == AmountOf(seeds, f.id) + A[f.account].cash + UnpricedBrought(A, js, f.account, symbols, price)
            && UnitsMatch(seeds, f.id, launch)
  {
    FundWorth(A, js, f.account, symbols, price, launch);
    PlanSeedAmounts(A, js, f, symbols, price, launch);
    PlanSeedUnits(A, js, f.id, symbols, price, launch);
  }

  /** A fund starts exactly at the launch NAV if and only if it has no seed capital and nothing it was
      given is unpriced. */
  lemma LaunchNav(A: L.Accounts, js: seq<(string, B.Formed)>, f: B.Formed,
                  symbols: seq<string>, price: map<string, int>, launch: real)
    requires launch > 0.0 && Launches(A, js, f, symbols)
    requires UnitsOf(SeedPlan(A, js, symbols, price, launch).1, f.id) > 0.0
    ensures Nav(ValueAfter(A, js, f.account, symbols, price, launch),
                UnitsOf(SeedPlan(A, js, symbols, price, launch).1, f.id)) == launch
       <==> A[f.account].cash + UnpricedBrought(A, js, f.account, symbols, price) == 0
  {
    var seeds := SeedPlan(A, js, symbols, price, launch).1;
    LaunchAmounts(A, js, f, symbols, price, launch);
    NavIsLaunch(seeds, f.id, A[f.account].cash + UnpricedBrought(A, js, f.account, symbols, price), launch);
  }

  /** A team brings a rupee to a fund with a rupee of seed capital: at a launch NAV of 1 it gets one unit, and
      the fund starts at a NAV of 2. */
  lemma SeedCapitalRaisesNav(f: B.Formed)
    requires f == B.Formed("F1", "fund:F1", "a", "b", "a")
    ensures var A := map["a" := L.Acct(100, map[]), "fund:F1" := L.Acct(100, map[])];
            var units := UnitsOf(SeedPlan(A, [("a", f)], [], map[], 1.0).1, "F1");
            units == 1.0 && Nav(ValueAfter(A, [("a", f)], "fund:F1", [], map[], 1.0), units) == 2.0
  {
    var A, js := map["a" := L.Acct(100, map[]), "fund:F1" := L.Acct(100, map[])], [("a", f)];
    LaunchAmounts(A, js, f, [], map[], 1.0);
    assert js[..0] == [];
    var seeds := SeedPlan(A, js, [], map[], 1.0).1;
    assert seeds == [TeamSeed("a", "F1", A["a"], [], map[], 1.0)];
    assert seeds[..0] == [] && UnpricedBrought(A, [], "fund:F1", [], map[]) == 0;
  }

  lemma FundWorth(A: L.Accounts, js: seq<(string, B.Formed)>, account: string,
                  symbols: seq<string>, price: map<string, int>, launch: real)
    requires launch > 0.0 && L.Sane(A) && NoRepeats(symbols) && Roster(A, js)
    requires account in A && forall i :: 0 <= i < |js| ==> js[i].0 != account
    requires forall s :: L.Held(A[account], s) == L.NO_POS
    ensures var M := ApplyOps(AllOps(SeedPlan(A, js, symbols, price, launch).0), A);
            account in M && Value(M[account], symbols, price)
                            == A[account].cash + Brought(A, js, account, InCash) + ValueBrought(A, js, account, symbols, price)
  {
    var M := ApplyOps(AllOps(SeedPlan(A, js, symbols, price, launch).0), A);
    FundReceives(A, js, account, InCash, symbols, price, launch);
    forall s | s in symbols
      ensures Amount(M[account], InShares(s)) == Brought(A, js, account, InShares(s))
      ensures Amount(M[account], InCost(s)) == Brought(A, js, account, InCost(s))
    {
      FundReceives(A, js, account, InShares(s), symbols, price, launch);
      FundReceives(A, js, account, InCost(s), symbols, price, launch);
    }
    FundMarks(M[account], A, js, account, symbols, price);
    MarksAreValues(A, js, account, symbols, price);
  }

  lemma FundReceives(A: L.Accounts, js: seq<(string, B.Formed)>, account: string, w: What,
                     symbols: seq<string>, price: map<string, int>, launch: real)
    requires launch > 0.0 && L.Sane(A) && NoRepeats(symbols) && Roster(A, js) && Listed(w, symbols)
    requires account in A && forall i :: 0 <= i < |js| ==> js[i].0 != account
    ensures var M := ApplyOps(AllOps(SeedPlan(A, js, symbols, price, launch).0), A);
            account in M && Amount(M[account], w) == Amount(A[account], w) + Brought(A, js, account, w)
  {
    PlanIsAllowed(A, js, symbols, price, launch);
    PlanNet(A, js, account, w, symbols, price, launch);
    TransfersExact(AllOps(SeedPlan(A, js, symbols, price, launch).0), A, account, w);
  }

  lemma NavIsLaunch(seeds: seq<B.SeedUnits>, id: string, extra: int, launch: real)
    requires UnitsMatch(seeds, id, launch) && UnitsOf(seeds, id) > 0.0
    ensures Nav(AmountOf(seeds, id) + extra, UnitsOf(seeds, id)) == launch <==> extra == 0
  {
    NavNumbers(AmountOf(seeds, id), extra, UnitsOf(seeds, id), launch);
  }

  lemma NavNumbers(amount: int, extra: int, units: real, launch: real)
    requires units > 0.0 && units * launch == amount as real / 100.0
    ensures Nav(amount + extra, units) == launch <==> extra == 0
  {
    var nav := Nav(amount + extra, units);
    assert nav * units == amount as real / 100.0 + extra as real / 100.0;
    if extra == 0 {
      RLessByFactor(nav, launch, units);
      RLessByFactor(launch, nav, units);
    }
  }
}

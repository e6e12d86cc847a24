/** Forming the funds reads the teams' accounts first and moves what it read later, without checking again
    and without the locks of their accounts: what a member's trades in between can do. */
module StalePlan {
  import opened Numeric
  import opened Formation
  import L = Ledger
  import B = FundBook

  // ---- when an unchecked move overdraws nobody ----

  /** Formation reads the teams' accounts first and moves what it read later, without checking again
      and without their locks. A cash move keeps every account at or above zero if and only if the
      sender still has the cash. */
  lemma UncheckedCash(op: L.Op, A: L.Accounts)
    requires op.Move? && op.from != op.to && op.amount > 0 && op.from in A && op.to in A && L.Sane(A)
    ensures L.Sane(L.Apply(op, A)) <==> A[op.from].cash >= op.amount
  {
    var M := L.Apply(op, A);
    assert M[op.from].cash == A[op.from].cash - op.amount;
    if A[op.from].cash >= op.amount {
      L.AllowedStaysSane(op, A);
    }
  }

  /** The sender still has what an unchecked move takes: the cash; or, if shares remain with it, their cost. */
  predicate Covered(op: L.Op, A: L.Accounts)
    requires Transfer(op) && op.from in A
  {
    if op.Move? then A[op.from].cash >= op.amount
    else L.Held(A[op.from], op.symbol).qty <= op.qty || op.cost <= L.Held(A[op.from], op.symbol).cost
  }

  /** A share move keeps every balance and cost at or above zero if and only if no shares stay behind or
      their cost does too. It leaves the number of shares in existence alone if and only if the sender
      still has them: the clamp at zero would otherwise make up the difference. */
  lemma UncheckedShares(op: L.Op, A: L.Accounts)
    requires op.MoveShares? && op.from != op.to && op.qty > 0 && op.from in A && op.to in A && L.Sane(A)
    ensures op.cost >= 0 ==> (L.Sane(L.Apply(op, A)) <==> Covered(op, A))
    ensures L.TotalShares(L.Apply(op, A), op.symbol) == L.TotalShares(A, op.symbol)
       <==> L.Held(A[op.from], op.symbol).qty >= op.qty
  {
    var s := op.symbol;
    var a := L.GivenUp(A[op.from], s, op.qty, op.cost);
    var M := A[op.from := a];
    var b := L.Put(M[op.to], s, L.More(L.Held(M[op.to], s), op.qty, op.cost));
    assert L.Apply(op, A) == M[op.to := b];
    if op.cost >= 0 { SharesSaneIff(op, A); }
    L.SharesPut(A, op.from, a, s);
    L.SharesPut(M, op.to, b, s);
  }

  lemma SharesSaneIff(op: L.Op, A: L.Accounts)
    requires op.MoveShares? && op.from != op.to && op.qty > 0 && op.cost >= 0 && op.from in A && op.to in A && L.Sane(A)
    ensures L.Sane(L.Apply(op, A)) <==> Covered(op, A)
  {
    var s, M := op.symbol, L.Apply(op, A);
    assert L.SaneAcct(A[op.from]) && L.SaneAcct(A[op.to]);
    if Covered(op, A) {
      forall id | id in M
        ensures L.SaneAcct(M[id])
      {
        assert id in A && L.SaneAcct(A[id]);
      }
    } else {
      assert s in M[op.from].pos && M[op.from].pos[s].cost < 0;
    }
  }

  // ---- the whole plan ----

  /** What later takes is still there, or still missing, after another move. */
  lemma CoveredSame(x: L.Op, later: L.Op, A: L.Accounts)
    requires Transfer(x) && Transfer(later) && x.from in A && x.to in A && later.from in A
    requires !Clash(x, later) && x.to != later.from
    ensures later.from in L.Apply(x, A) && (Covered(later, L.Apply(x, A)) <==> Covered(later, A))
    ensures Short(L.Apply(x, A), later) <==> Short(A, later)
  {
  }

  /** The sender has less than nothing of what this move took. */
  predicate Short(A: L.Accounts, op: L.Op)
    requires Transfer(op)
  {
    op.from in A && (if op.Move? then A[op.from].cash < 0 else L.Held(A[op.from], op.symbol).cost < 0)
  }

  /** Moves with distinct things to take, from accounts none of them gives to. */
  ghost predicate Plan(ops: seq<L.Op>, A: L.Accounts) {
    && Transfers(ops) && OneWay(ops) && NoClash(ops)
    && forall i :: 0 <= i < |ops| ==> Positive(ops[i]) && ops[i].from in A && ops[i].to in A
  }

  lemma PlanRest(ops: seq<L.Op>, A: L.Accounts)
    requires ops != [] && Plan(ops, A)
    ensures Plan(ops[1..], L.Apply(ops[0], A))
    ensures forall i :: 0 <= i < |ops[1..]| ==> !Clash(ops[0], ops[1..][i]) && ops[0].to != ops[1..][i].from && Transfer(ops[1..][i])
  {
    forall i | 0 <= i < |ops[1..]|
      ensures ops[1..][i] == ops[i + 1] && !Clash(ops[0], ops[1..][i])
    {
    }
  }

  lemma {:induction false} ShortStays(ops: seq<L.Op>, A: L.Accounts, op: L.Op)
    requires Plan(ops, A) && Transfer(op) && Short(A, op)
    requires forall i :: 0 <= i < |ops| ==> !Clash(ops[i], op) && ops[i].to != op.from
    ensures !L.Sane(ApplyOps(ops, A))
  {
    if ops == [] {
      assert !L.SaneAcct(A[op.from]);
    } else {
      assert Transfer(ops[0]);
      CoveredSame(ops[0], op, A);
      PlanRest(ops, A);
      forall i | 0 <= i < |ops[1..]|
        ensures !Clash(ops[1..][i], op) && ops[1..][i].to != op.from
      {
        assert ops[1..][i] == ops[i + 1];
      }
      ShortStays(ops[1..], L.Apply(ops[0], A), op);
    }
  }

  lemma UncheckedMove(op: L.Op, A: L.Accounts)
    requires Transfer(op) && Positive(op) && op.from in A && op.to in A && L.Sane(A)
    ensures L.Sane(L.Apply(op, A)) <==> Covered(op, A)
    ensures !Covered(op, A) ==> Short(L.Apply(op, A), op)
  {
    if op.Move? { UncheckedCash(op, A); } else { UncheckedShares(op, A); }
  }

  /** Carried out unchecked on accounts that have changed since, a plan keeps every balance and cost at or
      above zero if and only if each sender, as it is when the moves begin, still covers each move. */
  lemma {:induction false} UncheckedPlan(ops: seq<L.Op>, A: L.Accounts)
    requires Plan(ops, A) && L.Sane(A)
    ensures L.Sane(ApplyOps(ops, A)) <==> forall i :: 0 <= i < |ops| ==> Covered(ops[i], A)
  {
    if ops != [] {
      var rest, B := ops[1..], L.Apply(ops[0], A);
      assert Transfer(ops[0]) && Positive(ops[0]);
      PlanRest(ops, A);
      UncheckedMove(ops[0], A);
      forall i | 0 <= i < |rest|
        ensures rest[i] == ops[i + 1] && (Covered(rest[i], B) <==> Covered(rest[i], A))
      {
        CoveredSame(ops[0], rest[i], A);
      }
      if Covered(ops[0], A) {
        UncheckedPlan(rest, B);
        assert forall i :: 0 < i < |ops| ==> ops[i] == rest[i - 1];
      } else {
        forall i | 0 <= i < |rest|
          ensures !Clash(rest[i], ops[0]) && rest[i].to != ops[0].from
        {
          assert rest[i] == ops[i + 1];
        }
        ShortStays(rest, B, ops[0]);
      }
    }
  }

  /** The formation's plan, made from the accounts as they were and carried out on them as they are. */
  lemma StaleFormation(was: L.Accounts, A: L.Accounts, js: seq<(string, B.Formed)>, symbols: seq<string>,
                       price: map<string, int>, launch: real)
    requires launch > 0.0 && L.Sane(was) && NoRepeats(symbols) && Roster(was, js) && L.Sane(A) && was.Keys <= A.Keys
    ensures var ops := AllOps(SeedPlan(was, js, symbols, price, launch).0);
            Plan(ops, A) && (L.Sane(ApplyOps(ops, A)) <==> forall i :: 0 <= i < |ops| ==> Covered(ops[i], A))
  {
    var ops := AllOps(SeedPlan(was, js, symbols, price, launch).0);
    PlanIsAllowed(was, js, symbols, price, launch);
    PlanRouted(was, js, symbols, price, launch);
    forall i | 0 <= i < |ops|
      ensures Positive(ops[i]) && ops[i].from in A && ops[i].to in A
    {
      assert Fits(was, ops[i]) && Rides(ops[i], js);
    }
    UncheckedPlan(ops, A);
  }

  // ---- trades between the single moves ----

  /** What happens while the funds form: the next move of the plan, unchecked, or another operation, such as a
      member's trade, checked under the locks of its accounts. */
  datatype Turn = Planned(op: L.Op) | Other(op: L.Op)

  /** The moves among the turns, in their order. */
  function Moved(turns: seq<Turn>): seq<L.Op> {
    if turns == [] then []
    else (if turns[0].Planned? then [turns[0].op] else []) + Moved(turns[1..])
  }

  function After(turn: Turn, A: L.Accounts): L.Accounts { L.Apply(turn.op, A) }

  /** Every other operation passes its checks on the accounts as they are then, and none closes an account. */
  predicate Checked(turns: seq<Turn>, A: L.Accounts) {
    turns == [] || ((turns[0].Other? ==> !turns[0].op.Remove? && L.Allowed(turns[0].op, A)) && Checked(turns[1..], After(turns[0], A)))
  }

  /** Every move is covered by its sender as it is when the move is made. */
  predicate CoveredInTurn(turns: seq<Turn>, A: L.Accounts) {
    turns == [] || ((turns[0].Planned? ==> Takes(turns[0].op, A)) && CoveredInTurn(turns[1..], After(turns[0], A)))
  }

  predicate Takes(op: L.Op, A: L.Accounts) { Transfer(op) && op.from in A && Covered(op, A) }

  predicate SaneThroughout(turns: seq<Turn>, A: L.Accounts) {
    L.Sane(A) && (turns == [] || SaneThroughout(turns[1..], After(turns[0], A)))
  }

  predicate Movable(op: L.Op, A: L.Accounts) { Transfer(op) && Positive(op) && op.from in A && op.to in A }

  ghost predicate AllMovable(ops: seq<L.Op>, A: L.Accounts) { forall i :: 0 <= i < |ops| ==> Movable(ops[i], A) }

  predicate MayTurn(turn: Turn, A: L.Accounts) {
    if turn.Other? then !turn.op.Remove? && L.Allowed(turn.op, A) else Movable(turn.op, A)
  }

  lemma OneTurn(turn: Turn, A: L.Accounts)
    requires L.Sane(A) && MayTurn(turn, A)
    ensures L.Sane(After(turn, A)) <==> (turn.Planned? ==> Takes(turn.op, A))
  {
    if turn.Other? { L.AllowedStaysSane(turn.op, A); } else { UncheckedMove(turn.op, A); }
  }

  lemma StillMovable(turn: Turn, op: L.Op, A: L.Accounts)
    requires MayTurn(turn, A) && Movable(op, A)
    ensures Movable(op, After(turn, A))
  {
  }

  lemma MovableRest(turns: seq<Turn>, A: L.Accounts)
    requires turns != [] && AllMovable(Moved(turns), A) && Checked(turns, A)
    ensures MayTurn(turns[0], A) && AllMovable(Moved(turns[1..]), After(turns[0], A))
  {
    var all, rest := Moved(turns), Moved(turns[1..]);
    if turns[0].Planned? { assert all[0] == turns[0].op; }
    forall i | 0 <= i < |rest|
      ensures Movable(rest[i], After(turns[0], A))
    {
      assert rest[i] == all[if turns[0].Planned? then i + 1 else i];
      StillMovable(turns[0], rest[i], A);
    }
  }

  /** However the moves of a plan and the other operations take turns: no balance and no cost ever falls below
      zero if and only if each move is covered by its sender as it is when that move is made. */
  lemma {:induction false} SaneThroughoutIff(turns: seq<Turn>, A: L.Accounts)
    requires L.Sane(A) && Checked(turns, A) && AllMovable(Moved(turns), A)
    ensures SaneThroughout(turns, A) <==> CoveredInTurn(turns, A)
  {
    if turns != [] {
      MovableRest(turns, A);
      OneTurn(turns[0], A);
      if L.Sane(After(turns[0], A)) {
        SaneThroughoutIff(turns[1..], After(turns[0], A));
      } else {
        assert !SaneThroughout(turns[1..], After(turns[0], A));
      }
    }
  }

  /** The formation's plan, made from the accounts as they were, carried out move by move among the
      members' trades. */
  lemma StaleFormationInTurns(was: L.Accounts, A: L.Accounts, js: seq<(string, B.Formed)>, symbols: seq<string>,
                              price: map<string, int>, launch: real, turns: seq<Turn>)
    requires launch > 0.0 && L.Sane(was) && NoRepeats(symbols) && Roster(was, js) && L.Sane(A) && was.Keys <= A.Keys
    requires Moved(turns) == AllOps(SeedPlan(was, js, symbols, price, launch).0) && Checked(turns, A)
    ensures SaneThroughout(turns, A) <==> CoveredInTurn(turns, A)
  {
    StaleFormation(was, A, js, symbols, price, launch);
    SaneThroughoutIff(turns, A);
  }

  // ---- a trade that is logged after the formation's record but made before its moves ----

  /** The order of a trade and a move of the same holding does not matter. */
  predicate Indifferent(t: L.Op, op: L.Op, p: L.Pos)
    requires t.Trade? && t.qty > 0 && op.MoveShares? && op.qty > 0
  {
    if t.buy then p.qty > op.qty || p == L.Pos(op.qty, op.cost)
    else p.qty <= op.qty + t.qty || TDiv(p.cost * t.qty, p.qty) == TDiv((p.cost - op.cost) * t.qty, p.qty - op.qty)
  }

  lemma HoldingEither(t: L.Op, op: L.Op, p: L.Pos)
    requires t.Trade? && op.MoveShares? && op.qty > 0 && t.qty > 0 && p.qty >= 0
    requires p.qty == 0 ==> p == L.NO_POS
    ensures HoldingAgrees(t, op, p) <==> Indifferent(t, op, p)
  {
    if !t.buy && p.qty > op.qty + t.qty {
      assert Min(t.qty, p.qty) == t.qty && Min(t.qty, p.qty - op.qty) == t.qty;
    }
  }

  /** A team's trade and the move of its shares of the same company lead to the same accounts in either
      order if and only if: for a buy, more shares are held than are moved, or exactly those with that
      cost; for a sale, no shares are left over, or the sold ones take the same cost with them. */
  lemma TradeAndMove(t: L.Op, op: L.Op, A: L.Accounts)
    requires t.Trade? && t.qty > 0 && op.MoveShares? && op.from != op.to && op.qty > 0
    requires t.id == op.from && t.symbol == op.symbol && op.from in A && op.to in A && L.Sane(A)
    ensures L.Apply(op, L.Apply(t, A)) == L.Apply(t, L.Apply(op, A)) <==> Indifferent(t, op, L.Held(A[op.from], op.symbol))
  {
    assert L.SaneAcct(A[op.from]);
    HoldingEither(t, op, L.Held(A[op.from], op.symbol));
    OnlyTheHolding(t, op, A);
  }

  /** What a trade makes of a holding. */
  function TradedPos(t: L.Op, p: L.Pos): L.Pos
    requires t.Trade?
  {
    if t.buy then L.More(p, t.qty, t.price * t.qty) else L.Less(p, t.qty)
  }

  /** A holding ends up the same whether it is traded or moved first. */
  predicate HoldingAgrees(t: L.Op, op: L.Op, p: L.Pos)
    requires t.Trade? && op.MoveShares?
  {
    L.Without(TradedPos(t, p), op.qty, op.cost) == TradedPos(t, L.Without(p, op.qty, op.cost))
  }

  /** The two orders can only differ in that holding. */
  lemma OnlyTheHolding(t: L.Op, op: L.Op, A: L.Accounts)
    requires t.Trade? && t.qty > 0 && op.MoveShares? && op.from != op.to && op.qty > 0
    requires t.id == op.from && t.symbol == op.symbol && op.from in A && op.to in A
    requires L.Held(A[op.from], op.symbol).qty >= 0
    ensures L.Apply(op, L.Apply(t, A)) == L.Apply(t, L.Apply(op, A)) <==> HoldingAgrees(t, op, L.Held(A[op.from], op.symbol))
  {
    var s := op.symbol;
    var M, N := L.Apply(op, L.Apply(t, A)), L.Apply(t, L.Apply(op, A));
    assert M[op.to] == N[op.to] && M[op.from].cash == N[op.from].cash;
    assert M[op.from].pos[s] == N[op.from].pos[s] ==> M[op.from].pos == N[op.from].pos;
    if M[op.from].pos[s] == N[op.from].pos[s] { assert M == N; }
  }

  /** A trade of another company, or by another account, and a cash move never depend on the order. */
  lemma TradeAndOther(t: L.Op, op: L.Op, A: L.Accounts)
    requires t.Trade? && Transfer(op) && t.id in A && op.from in A && op.to in A && t.id != op.to
    requires op.Move? || t.id != op.from || t.symbol != op.symbol
    ensures L.Apply(op, L.Apply(t, A)) == L.Apply(t, L.Apply(op, A))
  {
    if t.id != op.from {
      assert L.Apply(op, L.Apply(t, A)) == L.Apply(t, L.Apply(op, A));
    } else if op.Move? {
      TradeAndCash(t, op, A);
    } else {
      TradeAndShares(t, op, A);
    }
  }

  lemma TradeAndCash(t: L.Op, op: L.Op, A: L.Accounts)
    requires t.Trade? && op.Move? && op.from != op.to && t.id == op.from && op.from in A && op.to in A
    ensures L.Apply(op, L.Apply(t, A)) == L.Apply(t, L.Apply(op, A))
  {
    var M, N := L.Apply(op, L.Apply(t, A)), L.Apply(t, L.Apply(op, A));
    assert M[op.from] == N[op.from] && M[op.to] == N[op.to];
    assert M == N;
  }

  lemma TradeAndShares(t: L.Op, op: L.Op, A: L.Accounts)
    requires t.Trade? && op.MoveShares? && op.from != op.to && t.id == op.from && t.symbol != op.symbol && op.from in A && op.to in A
    ensures L.Apply(op, L.Apply(t, A)) == L.Apply(t, L.Apply(op, A))
  {
    var M, N := L.Apply(op, L.Apply(t, A)), L.Apply(t, L.Apply(op, A));
    assert M[op.from].pos == N[op.from].pos;
    assert M[op.from] == N[op.from] && M[op.to] == N[op.to];
    assert M == N;
  }

  /** One trade between a plan and its moves never sets the live accounts apart from the restored ones. */
  lemma {:induction false} OneTradeAgrees(ops: seq<L.Op>, t: L.Op, A: L.Accounts)
    requires AllFit(A, ops) && NoClash(ops) && Transfers(ops) && OneWay(ops) && L.Sane(A)
    requires t.Trade? && t.qty > 0 && t.id in A && forall i :: 0 <= i < |ops| ==> ops[i].to != t.id
    ensures ApplyOps(ops, L.Apply(t, A)) == L.Apply(t, ApplyOps(ops, A))
  {
    if ops != [] {
      var op, B := ops[0], L.Apply(ops[0], A);
      assert Fits(A, op) && Transfer(op);
      if op.MoveShares? && t.id == op.from && t.symbol == op.symbol { TradeAndMove(t, op, A); } else { TradeAndOther(t, op, A); }
      forall i | 0 <= i < |ops[1..]|
        ensures Fits(B, ops[1..][i]) && ops[1..][i].to in B && ops[1..][i].to != t.id
      {
        assert ops[1..][i] == ops[i + 1] && Fits(A, ops[i + 1]);
        StillFits(op, ops[i + 1], A);
      }
      assert OneWay(ops[1..]);
      L.AllowedStaysSane(op, A);
      OneTradeAgrees(ops[1..], t, B);
    }
  }

  /** Ten shares that cost 100 are to be moved. */
  function TenShares(): L.Accounts { map["a" := L.Acct(100, map["X" := L.Pos(10, 100)]), "fund:F1" := L.Acct(0, map[])] }

  function TenMoved(): L.Op { L.MoveShares("a", "fund:F1", "X", 10, 100) }

  function BuyThenSell(A: L.Accounts, price: int, later: int): L.Accounts {
    L.Apply(L.Trade("a", "X", false, 3, later), L.Apply(L.Trade("a", "X", true, 5, price), A))
  }

  /** Enough shares are not enough: buying 5 at 1 and selling 3 at 7 leaves 12 shares that cost less than
      the move takes away. */
  lemma StalePlanBreaksCost()
    ensures var A, op := BuyThenSell(TenShares(), 1, 7), TenMoved();
            && L.Sane(TenShares()) && L.Allowed(op, TenShares()) && L.Sane(A) && A["a"].cash >= 100
            && L.Held(A["a"], "X").qty == 12 && L.Held(L.Apply(op, A)["a"], "X") == L.Pos(2, -16) && !L.Sane(L.Apply(op, A))
  {
    var A, op := BuyThenSell(TenShares(), 1, 7), TenMoved();
    assert A["a"].pos["X"] == L.Pos(12, 84);
    assert L.Apply(op, A)["a"].pos["X"] == L.Pos(2, -16);
  }

  lemma TwoTradesHold(A: L.Accounts, price: int)
    requires "a" in A
    ensures "a" in BuyThenSell(A, price, price) && "X" in BuyThenSell(A, price, price)["a"].pos
    ensures BuyThenSell(A, price, price).Keys == A.Keys
    ensures L.Held(BuyThenSell(A, price, price)["a"], "X") == L.Less(L.More(L.Held(A["a"], "X"), 5, price * 5), 3)
  {
  }

  lemma MoveHolds(A: L.Accounts, op: L.Op)
    requires op.MoveShares? && op.from == "a" && op.symbol == "X" && op.to != "a" && op.to in A && "a" in A && "X" in A["a"].pos
    ensures "a" in L.Apply(op, A) && L.Held(L.Apply(op, A)["a"], "X") == L.Without(L.Held(A["a"], "X"), op.qty, op.cost)
  {
  }

  lemma TwoTradesCost(ten: L.Pos, price: int)
    requires ten == L.Pos(10, 100) && price == 7
    ensures L.Without(L.Less(L.More(ten, 5, price * 5), 3), 10, 100) == L.Pos(2, 8)
    ensures L.Less(L.More(L.Without(ten, 10, 100), 5, price * 5), 3) == L.Pos(2, 14)
  {
    TwoTradesLive(ten, price);
  }

  lemma TwoTradesLive(ten: L.Pos, price: int)
    requires ten == L.Pos(10, 100) && price == 7
    ensures L.Less(L.More(ten, 5, price * 5), 3) == L.Pos(12, 108)
  {
  }

  /** Two trades are enough to set live and restored accounts apart: of ten shares that cost 100, with 5
      bought and 3 sold at 7 before they are moved, two stay behind that cost 8; the restore, which moves
      first, gives those two a cost of 14. */
  lemma TwoTradesDisagree(A: L.Accounts, op: L.Op, price: int)
    requires op == TenMoved() && price == 7 && "fund:F1" in A && "a" in A && "X" in A["a"].pos && A["a"].pos["X"] == L.Pos(10, 100)
    ensures var live, restored := L.Apply(op, BuyThenSell(A, price, price)), BuyThenSell(L.Apply(op, A), price, price);
            "a" in live && L.Held(live["a"], "X") == L.Pos(2, 8) && "a" in restored && L.Held(restored["a"], "X") == L.Pos(2, 14)
  {
    TwoTradesHold(A, price);
    MoveHolds(BuyThenSell(A, price, price), op);
    MoveHolds(A, op);
    TwoTradesHold(L.Apply(op, A), price);
    TwoTradesCost(A["a"].pos["X"], price);
  }

  /** A team with 100 paise joins fund F1 and the plan moves them; a buy for 60 before the move is made
      is enough to overdraw the team. */
  lemma StalePlanOverdraws()
    ensures var A := map["a" := L.Acct(100, map[]), "fund:F1" := L.Acct(0, map[])];
            var buy := L.Trade("a", "X", true, 1, 60);
            var planned := MoveOps(TeamMove("a", "fund:F1", A["a"], ["X"]));
            && L.Sane(A) && L.Allowed(buy, A) && AllAllowed(planned, A)
            && L.Sane(L.Apply(buy, A)) && !L.Sane(ApplyOps(planned, L.Apply(buy, A)))
  {
    var A := map["a" := L.Acct(100, map[]), "fund:F1" := L.Acct(0, map[])];
    var buy, op := L.Trade("a", "X", true, 1, 60), L.Move("a", "fund:F1", 100);
    assert Positions(A["a"], ["X"]) == [] by { assert ["X"][..0] == []; }
    assert MoveOps(TeamMove("a", "fund:F1", A["a"], ["X"])) == [op];
    assert [op][1..] == [];
    L.AllowedStaysSane(buy, A);
    UncheckedCash(op, L.Apply(buy, A));
  }
}

/** Entering and leaving a fund: units are rounded down on the way in and the payout on the way out, so
    that rounding can never be turned into money. */
module FundFlows {
  import opened Numeric
  import opened Journalling
  import L = Ledger
  import T = Trading
  import B = FundBook
  import F = Formation
  import C = AllocationCaps
  import Q = Liquidation

  // ---- the arithmetic of one step ----

  /** Units to six decimals, rounded down. */
  function FloorUnits(x: real): real { (x * 1000000.0).Floor as real / 1000000.0 }

  lemma FloorUnitsBelow(x: real)
    ensures FloorUnits(x) <= x
  {
    RLessByFactor(FloorUnits(x), x, 1000000.0);
  }

  /** The most units to six decimals that are not more than x. */
  lemma FloorUnitsMost(x: real)
    ensures FloorUnits(x) <= x < FloorUnits(x) + UNIT_STEP
  {
    FloorUnitsBelow(x);
    RLessByFactor(x, FloorUnits(x) + UNIT_STEP, 1000000.0);
  }

  const UNIT_STEP := 0.000001

  /** What the source adds before it rounds a payout down, in paise. */
  const SLACK := 0.000000001

  function Payout(units: real, nav: real): int { (units * nav * 100.0 + SLACK).Floor }

  /** A payout is more than the units' exact value exactly when that value is short of a whole number of
      paise by no more than the slack; and then by no more than the slack. */
  lemma PayoutAboveIff(units: real, nav: real)
    ensures Payout(units, nav) as real <= units * nav * 100.0 + SLACK
    ensures Payout(units, nav) as real > units * nav * 100.0
       <==> 0.0 < Ceil(units * nav * 100.0) as real - units * nav * 100.0 <= SLACK
  {
    FloorSlack(units * nav * 100.0);
  }

  lemma FloorIs(x: real, k: int)
    requires k as real <= x < k as real + 1.0
    ensures x.Floor == k
  {
  }

  lemma FloorSlack(x: real)
    ensures (x + SLACK).Floor as real <= x + SLACK
    ensures (x + SLACK).Floor as real > x <==> 0.0 < Ceil(x) as real - x <= SLACK
  {
    var up := Ceil(x);
    CeilRange(x);
    if x + SLACK >= up as real {
      FloorIs(x + SLACK, up);
    } else {
      FloorIs(x + SLACK, up - 1);
    }
  }

  lemma CeilRange(x: real)
    ensures Ceil(x) as real - 1.0 < x <= Ceil(x) as real
  {
    var down := (-x).Floor;
    assert down as real <= -x < down as real + 1.0;
  }

  /** The value of part of a fund's units, in paise. */
  function PartValue(value: int, all: real, part: real): real
    requires all > 0.0
  {
    part * (value as real / all)
  }

  lemma PartOf(value: int, all: real, part: real)
    requires all > 0.0
    ensures PartValue(value, all, part) * all == value as real * part
  {
    assert value as real / all * all == value as real;
    assert part * (value as real / all) * all == part * (value as real / all * all);
  }

  /** Entering: the units bought are worth no more than was paid, so everyone else's are worth no less. */
  lemma EnterFair(value: int, all: real, others: real, amount: int, units: real)
    requires value > 0 && all > 0.0 && 0.0 <= others && amount > 0 && units > 0.0
    requires units * value as real <= amount as real * all
    ensures PartValue(value + amount, all + units, others) >= PartValue(value, all, others)
  {
    PartOf(value, all, others);
    PartOf(value + amount, all + units, others);
    Dilution(value as real, all, others, amount as real, units, PartValue(value, all, others), PartValue(value + amount, all + units, others));
  }

  lemma Dilution(v: real, n: real, o: real, a: real, m: real, x: real, y: real)
    requires n > 0.0 && o >= 0.0 && n + m > 0.0
    requires x * n == v * o && y * (n + m) == (v + a) * o
    requires m * v <= a * n
    ensures y >= x
  {
    // y (n+m) n = (v+a) o n >= (v n + m v) o = v o (n+m) = x n (n+m)
    RMulMono(m * v, a * n, o);
    assert y * (n + m) * n == (v + a) * o * n == v * o * n + a * n * o;
    assert x * n * (n + m) == v * o * (n + m) == v * o * n + m * v * o;
    assert (x * (n + m)) * n <= (y * (n + m)) * n;
    RLessByFactor(x * (n + m), y * (n + m), n);
    RLessByFactor(x, y, n + m);
  }

  /** Leaving: what stays is worth at least its part of what was there, short of the slack at most. */
  lemma LeaveFair(value: int, all: real, others: real, units: real, amount: int, over: real)
    requires all > 0.0 && 0.0 < others <= all - units && units > 0.0 && over >= 0.0
    requires amount as real <= PartValue(value, all, units) + over
    ensures PartValue(value - amount, all - units, others) >= PartValue(value, all, others) - over
  {
    var v, n, left := value as real, all, all - units;
    var x, y := PartValue(value, all, others), PartValue(value - amount, left, others);
    PartOf(value, all, others);
    PartOf(value, all, units);
    PartOf(value - amount, left, others);
    Withdrawal(v, n, others, units, amount as real, over, PartValue(value, all, units), x, y);
  }

  lemma Withdrawal(v: real, n: real, o: real, r: real, a: real, over: real, z: real, x: real, y: real)
    requires n > 0.0 && 0.0 < o <= n - r && over >= 0.0
    requires x * n == v * o && z * n == v * r && y * (n - r) == (v - a) * o && a <= z + over
    ensures y >= x - over
  {
    // (x - over)(n - r) <= x (n - r) - over o  and  y (n - r) >= (v - z - over) o = x (n - r) - over o
    var left := n - r;
    RMulMono(v - z - over, v - a, o);
    assert (v - z) * n == v * left;
    assert (v - z) * o * n == v * left * o == x * n * left;
    RLessByFactor((v - z) * o, x * left, n);
    RLessByFactor(x * left, (v - z) * o, n);
    RMulMono(o, left, over);
    assert (x - over) * left == x * left - over * left;
    assert (v - z - over) * o == (v - z) * o - over * o;
    RLessByFactor(x - over, y, left);
  }

  // ---- what everything is worth ----

  datatype Market = Market(symbols: seq<string>, price: map<string, int>)

  datatype Shop = Shop(trading: T.State, book: B.Book)

  function WorthOf(A: L.Accounts, account: string, m: Market): int {
    if account in A then F.Value(A[account], m.symbols, m.price) else 0
  }

  /** A fund without units is at its launch NAV. */
  function NavOf(A: L.Accounts, launch: real, f: B.Fund, m: Market): real {
    if f.units <= 0.0 then launch else F.Nav(WorthOf(A, f.formed.account, m), f.units)
  }

  function NavAt(A: L.Accounts, b: B.Book, id: string, m: Market): real {
    if id in b.funds then NavOf(A, b.launch, b.funds[id], m) else 0.0
  }

  function HoldingWorth(A: L.Accounts, b: B.Book, who: B.Who, m: Market): int {
    if who in b.holdings && b.holdings[who].units > 0.0 then FromRupees(b.holdings[who].units * NavAt(A, b, who.1, m)) else 0
  }

  ghost function HoldingWorths(A: L.Accounts, b: B.Book, investor: string, m: Market): map<B.Who, int> {
    map who | who in b.holdings && who.0 == investor :: HoldingWorth(A, b, who, m)
  }

  ghost function UnitsWorth(A: L.Accounts, b: B.Book, investor: string, m: Market): int {
    Sum(HoldingWorths(A, b, investor, m))
  }

  ghost function TotalValue(A: L.Accounts, b: B.Book, investor: string, m: Market): int {
    if investor in A then WorthOf(A, investor, m) + UnitsWorth(A, b, investor, m) else 0
  }

  // ---- the two operations ----

  /** The rulebook's amounts, and the largest amount anyone may type in. */
  datatype Terms = Terms(minAbsolute: int, minPct: real, capPct: real, keepPct: real, maxRupees: real)

  datatype Ask = Ask(investor: string, fund: string, rupees: real, all: bool, window: int)

  datatype Refusal =
    | InvalidAmount | UnknownFund | Unavailable | NoAccount | InsufficientCash | BelowMinimum | OverFundCap
    | AtCap | TooSmall | NotMoved | NothingToRedeem | BelowMandatory | NotRaised(why: Q.Outcome)

  datatype Answer = Done(units: real, amount: int) | Refused(why: Refusal)

  function BoughtUnits(amount: int, nav: real): real { if nav == 0.0 then 0.0 else FloorUnits(amount as real / 100.0 / nav) }

  /** The checks before any cash moves. `room` is the fund's room under the equal-cap rule. */
  ghost function AllocCheck(A: L.Accounts, b: B.Book, q: Ask, room: int, terms: Terms, m: Market): Answer {
    if q.rupees <= 0.0 || q.rupees > terms.maxRupees then Refused(InvalidAmount)
    else if q.fund !in b.funds then Refused(UnknownFund)
    else if b.funds[q.fund].disqualified then Refused(Unavailable)
    else if q.investor !in A then Refused(NoAccount)
    else
      AmountCheck(FromRupees(q.rupees), A[q.investor].cash, TotalValue(A, b, q.investor, m), NavOf(A, b.launch, b.funds[q.fund], m),
                  B.HoldingOf(b, (q.investor, q.fund)).units, room, terms)
  }

  function AmountCheck(amount: int, cash: int, wallet: int, nav: real, units: real, room: int, terms: Terms): Answer {
    if amount > cash then Refused(InsufficientCash)
    else if amount < C.MinInvestment(wallet, terms.minAbsolute, terms.minPct) then Refused(BelowMinimum)
    else if FromRupees(units * nav) + amount > C.Percent(wallet, terms.capPct) then Refused(OverFundCap)
    else if amount > room then Refused(AtCap)
    else if BoughtUnits(amount, nav) <= 0.0 then Refused(TooSmall)
    else Done(BoughtUnits(amount, nav), amount)
  }

  /** `up` is whether the log took the record. */
  ghost function AllocAnswer(A: L.Accounts, b: B.Book, q: Ask, room: int, terms: Terms, m: Market, up: bool): Answer {
    var a := AllocCheck(A, b, q, room, terms, m);
    if a.Done? && !(L.Allowed(L.Move(q.investor, b.funds[q.fund].formed.account, a.amount), A) && up) then Refused(NotMoved) else a
  }

  function AllocEvent(q: Ask, a: Answer): B.Event
    requires a.Done?
  {
    B.Alloc(q.fund, q.investor, q.window, a.amount, a.units)
  }

  ghost function Allocated(s: Shop, q: Ask, room: int, terms: Terms, m: Market, up: bool): (Shop, Answer) {
    var a := AllocAnswer(s.trading.accounts, s.book, q, room, terms, m, up);
    if a.Refused? then (s, a)
    else (Shop(s.trading.(accounts := L.Apply(L.Move(q.investor, s.book.funds[q.fund].formed.account, a.amount), s.trading.accounts)),
               B.Step(s.book, AllocEvent(q, a)).0), a)
  }

  function SoldUnits(q: Ask, held: real, nav: real): real {
    if q.all then held else RMin(held, if nav == 0.0 then 0.0 else FloorUnits(q.rupees / nav))
  }

  /** The checks before the fund raises the cash. */
  ghost function RedeemCheck(A: L.Accounts, b: B.Book, q: Ask, terms: Terms, m: Market): Answer {
    if q.fund !in b.funds then Refused(UnknownFund)
    else if B.HoldingOf(b, (q.investor, q.fund)).units <= 0.0 then Refused(NothingToRedeem)
    else if !q.all && q.rupees <= 0.0 then Refused(InvalidAmount)
    else
      ExitCheck(q, B.HoldingOf(b, (q.investor, q.fund)).units, NavOf(A, b.launch, b.funds[q.fund], m),
                TotalValue(A, b, q.investor, m), UnitsWorth(A, b, q.investor, m), terms)
  }

  function ExitCheck(q: Ask, held: real, nav: real, wallet: int, inFunds: int, terms: Terms): Answer {
    var units := SoldUnits(q, held, nav);
    var amount := Payout(units, nav);
    if units <= 0.0 || amount <= 0 || (!q.all && amount < 100) then Refused(InvalidAmount)
    else if KeepsTooLittle(wallet, inFunds - amount, terms) then Refused(BelowMandatory)
    else Done(units, amount)
  }

  predicate KeepsTooLittle(wallet: int, inFunds: int, terms: Terms) {
    wallet > 0 && inFunds as real * 100.0 < wallet as real * terms.keepPct - 0.000001
  }

  function RedeemEvent(q: Ask, a: Answer): B.Event
    requires a.Done?
  {
    B.Redeem(q.fund, q.investor, q.window, a.amount, a.units)
  }

  ghost function Redeemed(s: Shop, q: Ask, terms: Terms, m: Market, sell: Q.Seller, up: bool): (Shop, Answer) {
    var a := RedeemCheck(s.trading.accounts, s.book, q, terms, m);
    if a.Refused? then (s, a)
    else
      var raised := Q.Raise(s.trading, s.book.funds[q.fund].formed.account, m.symbols, m.price, a.amount, sell);
      Paid(raised.0, raised.1, s.book, q, a, up)
  }

  /** The cash is there, or not; the payout is made durable and moved, or not. */
  function Paid(t: T.State, raised: Q.Outcome, b: B.Book, q: Ask, a: Answer, up: bool): (Shop, Answer)
    requires a.Done? && q.fund in b.funds
  {
    var account := b.funds[q.fund].formed.account;
    if raised != Q.Ok then (Shop(t, b), Refused(NotRaised(raised)))
    else if !(L.Allowed(L.Move(account, q.investor, a.amount), t.accounts) && up) then (Shop(t, b), Refused(NotMoved))
    else (Shop(t.(accounts := L.Apply(L.Move(account, q.investor, a.amount), t.accounts)), B.Step(b, RedeemEvent(q, a)).0), a)
  }

  // ---- a fund's room under the equal-cap rule ----

  function CapOf(b: B.Book, window: int, id: string): C.CapFund {
    C.CapFund(id, 1, B.Inflow(b, window, id), id in b.funds && !b.funds[id].disqualified)
  }

  /** The funds as the rule sees them. */
  function WindowFunds(b: B.Book, window: int): (r: seq<C.CapFund>)
    ensures |r| == |b.order| && forall i :: 0 <= i < |r| ==> r[i] == CapOf(b, window, b.order[i])
  {
    seq(|b.order|, i requires 0 <= i < |b.order| => CapOf(b, window, b.order[i]))
  }

  /** The mandatory share of these investors' portfolios, split equally. */
  ghost function SplitOf(A: L.Accounts, b: B.Book, investors: seq<string>, terms: Terms, m: Market): C.Split {
    C.Split(C.Percent(C.TotalOf(Portfolios(A, b, investors, m)), terms.keepPct), |b.order|, 1, terms.minAbsolute)
  }

  ghost function Portfolios(A: L.Accounts, b: B.Book, investors: seq<string>, m: Market): (r: seq<int>)
    ensures |r| == |investors| && forall i :: 0 <= i < |r| ==> r[i] == TotalValue(A, b, investors[i], m)
  {
    seq(|investors|, i requires 0 <= i < |investors| => TotalValue(A, b, investors[i], m))
  }

  /** The window's inflows are amounts the source can represent. */
  predicate Countable(b: B.Book, window: int, terms: Terms) {
    forall i :: 0 <= i < |b.order| ==>
      0 <= B.Inflow(b, window, b.order[i]) && B.Inflow(b, window, b.order[i]) + Max(terms.minAbsolute - 1, 0) < C.MAX_INT64
  }

  /** What the rule leaves the fund, by its inflow in this window and everyone else's. */
  ghost predicate IsRoom(room: int, A: L.Accounts, b: B.Book, q: Ask, investors: seq<string>, terms: Terms, m: Market) {
    if q.fund !in b.order then room == 0
    else
      exists level, i :: RoomAt(room, level, i, A, b, q, investors, terms, m)
  }

  ghost predicate RoomAt(room: int, level: int, i: nat, A: L.Accounts, b: B.Book, q: Ask, investors: seq<string>, terms: Terms, m: Market) {
    var fs, w := WindowFunds(b, q.window), SplitOf(A, b, investors, terms, m);
    i < |fs| && fs[i].id == q.fund && C.IsLevel(level, fs, w) && room == C.Room(fs[i], w, level)
  }

  /** An accepted investment is a step the equal-cap rule allows: its results hold of the window. */
  lemma InvestIsCapStep(s: Shop, q: Ask, room: int, investors: seq<string>, terms: Terms, m: Market, up: bool)
    requires IsRoom(room, s.trading.accounts, s.book, q, investors, terms, m)
    requires Allocated(s, q, room, terms, m, up).1.Done? && F.NoRepeats(s.book.order)
    ensures var (t, a) := Allocated(s, q, room, terms, m, up);
            exists i :: 0 <= i < |s.book.order| && s.book.order[i] == q.fund
              && C.Next(WindowFunds(s.book, q.window), C.Invest(i, a.amount), WindowFunds(t.book, q.window),
                        SplitOf(s.trading.accounts, s.book, investors, terms, m))
  {
    var (t, a) := Allocated(s, q, room, terms, m, up);
    AllocDone(s.trading.accounts, s.book, q, room, terms, m, up);
    AllocRoom(s, q, room, terms, m, up);
    var level, i :| RoomAt(room, level, i, s.trading.accounts, s.book, q, investors, terms, m);
    CapStep(s.book, t.book, q, a, room, level, i, SplitOf(s.trading.accounts, s.book, investors, terms, m));
  }

  /** What an accepted investment has been checked for. */
  lemma AllocRoom(s: Shop, q: Ask, room: int, terms: Terms, m: Market, up: bool)
    requires Allocated(s, q, room, terms, m, up).1.Done?
    ensures var (t, a) := Allocated(s, q, room, terms, m, up);
            q.fund in s.book.funds && !s.book.funds[q.fund].disqualified && 0 < a.amount <= room
            && t.book == B.Step(s.book, AllocEvent(q, a)).0
  {
    AllocDone(s.trading.accounts, s.book, q, room, terms, m, up);
  }

  lemma CapStep(b: B.Book, c: B.Book, q: Ask, a: Answer, room: int, level: int, i: nat, w: C.Split)
    requires a.Done? && q.fund in b.funds && !b.funds[q.fund].disqualified && c == B.Step(b, AllocEvent(q, a)).0
    requires F.NoRepeats(b.order) && i < |b.order| && b.order[i] == q.fund && C.Divides(w)
    requires C.IsLevel(level, WindowFunds(b, q.window), w) && 0 < a.amount <= room == C.Room(WindowFunds(b, q.window)[i], w, level)
    ensures C.Next(WindowFunds(b, q.window), C.Invest(i, a.amount), WindowFunds(c, q.window), w)
  {
    InflowGrows(b, q, a, i);
  }

  lemma InflowGrows(b: B.Book, q: Ask, a: Answer, i: nat)
    requires a.Done? && q.fund in b.funds && i < |b.order| && b.order[i] == q.fund && F.NoRepeats(b.order)
    ensures var c := B.Step(b, AllocEvent(q, a)).0;
            var fs := WindowFunds(b, q.window);
            WindowFunds(c, q.window) == fs[i := fs[i].(inflow := fs[i].inflow + a.amount)]
  {
    var c := B.Step(b, AllocEvent(q, a)).0;
    forall k | 0 <= k < |b.order| && k != i
      ensures CapOf(c, q.window, b.order[k]) == CapOf(b, q.window, b.order[k])
    {
      assert b.order[k] != q.fund;
    }
  }

  // ---- an investor's wealth ----

  /** The exact value of an investor's units of one fund, in paise. */
  ghost function Stake(A: L.Accounts, b: B.Book, investor: string, id: string, m: Market): real
    requires id in b.funds
  {
    if b.funds[id].units > 0.0
    then PartValue(WorthOf(A, b.funds[id].formed.account, m), b.funds[id].units, B.HoldingOf(b, (investor, id)).units)
    else 0.0
  }

  ghost function Stakes(A: L.Accounts, b: B.Book, investor: string, m: Market): map<string, real> {
    map id | id in b.funds :: Stake(A, b, investor, id, m)
  }

  /** Cash, shares and units at their exact NAV, in paise. */
  ghost function Wealth(s: Shop, investor: string, m: Market): real {
    WorthOf(s.trading.accounts, investor, m) as real + RSum(Stakes(s.trading.accounts, s.book, investor, m))
  }

  /** Every fund has an account of its own, not in debt, and somebody else holds units of it. */
  ghost predicate FundSound(s: Shop, investor: string, id: string, m: Market)
    requires id in s.book.funds
  {
    var f := s.book.funds[id];
    && f.formed.account in s.trading.accounts && f.formed.account != investor
    && 0.0 <= B.HoldingOf(s.book, (investor, id)).units < f.units
    && WorthOf(s.trading.accounts, f.formed.account, m) >= 0
  }

  ghost predicate Sound(s: Shop, investor: string, m: Market) {
    && F.NoRepeats(m.symbols) && investor in s.trading.accounts
    && (forall id :: id in s.book.funds ==> FundSound(s, investor, id, m))
    && (forall x, y :: x in s.book.funds && y in s.book.funds && x != y ==>
          s.book.funds[x].formed.account != s.book.funds[y].formed.account)
  }

  // ---- the displayed value and the exact one ----

  /** Each holding is valued at its exact worth, to the nearest paisa. */
  lemma HoldingNearStake(s: Shop, investor: string, id: string, m: Market)
    requires Sound(s, investor, m) && id in s.book.funds
    ensures var A, b := s.trading.accounts, s.book;
            && -0.5 <= HoldingWorth(A, b, (investor, id), m) as real - Stake(A, b, investor, id, m) <= 0.5
            && ((investor, id) !in b.holdings ==> Stake(A, b, investor, id, m) == 0.0)
  {
    var A, b, f := s.trading.accounts, s.book, s.book.funds[id];
    assert FundSound(s, investor, id, m);
    var units := B.HoldingOf(b, (investor, id)).units;
    NavIsPart(WorthOf(A, f.formed.account, m), f.units);
    RoundsToNearest(units * NavAt(A, b, id, m) * 100.0);
  }

  /** These rounded values, of one investor's holdings, add up to about these exact ones. */
  ghost predicate Near(worths: map<B.Who, int>, stakes: map<string, real>, investor: string) {
    && (forall who :: who in worths ==> who.0 == investor && (who.1 !in stakes ==> worths[who] == 0))
    && (forall id :: id in stakes ==>
          if (investor, id) in worths then -0.5 <= worths[(investor, id)] as real - stakes[id] <= 0.5 else stakes[id] == 0.0)
  }

  lemma {:induction false} NearSums(worths: map<B.Who, int>, stakes: map<string, real>, investor: string)
    requires Near(worths, stakes, investor)
    ensures -(|worths| as real) <= 2.0 * (Sum(worths) as real - RSum(stakes)) <= |worths| as real
    decreases |worths|
  {
    if worths == map[] {
      AllZero(stakes);
    } else {
      var who :| who in worths;
      SumPick(worths, who);
      if who.1 in stakes {
        RSumPick(stakes, who.1);
        NearSums(worths - {who}, stakes - {who.1}, investor);
      } else {
        NearSums(worths - {who}, stakes, investor);
      }
    }
  }

  lemma {:induction false} AllZero(stakes: map<string, real>)
    requires forall id :: id in stakes ==> stakes[id] == 0.0
    ensures RSum(stakes) == 0.0
    decreases |stakes|
  {
    if stakes != map[] {
      var id :| id in stakes && RSum(stakes) == stakes[id] + RSum(stakes - {id});
      AllZero(stakes - {id});
    }
  }

  /** What the desk counts as an investor's wallet is the exact wealth, but for half a paisa of rounding for each
      holding at most. */
  lemma WalletNearWealth(s: Shop, investor: string, m: Market)
    requires Sound(s, investor, m)
    ensures var n := |HoldingWorths(s.trading.accounts, s.book, investor, m)| as real;
            -n <= 2.0 * (TotalValue(s.trading.accounts, s.book, investor, m) as real - Wealth(s, investor, m)) <= n
  {
    var A, b := s.trading.accounts, s.book;
    var worths, stakes := HoldingWorths(A, b, investor, m), Stakes(A, b, investor, m);
    forall id | id in stakes
      ensures if (investor, id) in worths then -0.5 <= worths[(investor, id)] as real - stakes[id] <= 0.5 else stakes[id] == 0.0
    {
      HoldingNearStake(s, investor, id, m);
    }
    forall who | who in worths && who.1 !in stakes
      ensures worths[who] == 0
    {
      assert b.holdings[who].units * NavAt(A, b, who.1, m) == 0.0;
    }
    NearSums(worths, stakes, investor);
  }

  // ---- one step ----

  lemma CashWorth(A: L.Accounts, M: L.Accounts, account: string, m: Market)
    requires F.NoRepeats(m.symbols) && account in A && account in M && M[account].pos == A[account].pos
    ensures WorthOf(M, account, m) == WorthOf(A, account, m) + M[account].cash - A[account].cash
  {
    Q.MarksPut(A[account], M[account], m.symbols, "", m.price);
  }

  lemma MoveWorth(A: L.Accounts, from: string, to: string, amount: int, m: Market)
    requires F.NoRepeats(m.symbols) && from in A && to in A && from != to
    ensures var M := L.Apply(L.Move(from, to, amount), A);
            && M.Keys == A.Keys
            && WorthOf(M, from, m) == WorthOf(A, from, m) - amount && WorthOf(M, to, m) == WorthOf(A, to, m) + amount
            && forall id :: id != from && id != to ==> WorthOf(M, id, m) == WorthOf(A, id, m)
  {
    var M := L.Apply(L.Move(from, to, amount), A);
    CashWorth(A, M, from, m);
    CashWorth(A, M, to, m);
  }

  /** A fund's value is its holders' parts together. */
  lemma PartSplit(value: int, all: real, part: real)
    requires all > 0.0
    ensures PartValue(value, all, part) + PartValue(value, all, all - part) == value as real
  {
    PartOf(value, all, all);
    RDistribute(part, all - part, value as real / all);
    assert PartValue(value, all, all) * all == value as real * all;
    RLessByFactor(PartValue(value, all, all), value as real, all);
    RLessByFactor(value as real, PartValue(value, all, all), all);
  }

  /** Only one fund and the investor change: the investor's wealth changes by what the others of that fund
      lose, the two amounts of cash cancelling out. */
  lemma WealthMoves(s: Shop, t: Shop, investor: string, id: string, m: Market)
    requires Sound(s, investor, m) && id in s.book.funds && t.book.funds.Keys == s.book.funds.Keys
    requires forall x :: x in s.book.funds && x != id ==>
               Stake(t.trading.accounts, t.book, investor, x, m) == Stake(s.trading.accounts, s.book, investor, x, m)
    ensures Wealth(t, investor, m) - Wealth(s, investor, m)
         == (WorthOf(t.trading.accounts, investor, m) - WorthOf(s.trading.accounts, investor, m)) as real
            + Stake(t.trading.accounts, t.book, investor, id, m) - Stake(s.trading.accounts, s.book, investor, id, m)
  {
    var before := Stakes(s.trading.accounts, s.book, investor, m);
    var after := Stakes(t.trading.accounts, t.book, investor, m);
    forall x | x in before && x != id
      ensures after[x] == before[x]
    {
      assert Stake(t.trading.accounts, t.book, investor, x, m) == Stake(s.trading.accounts, s.book, investor, x, m);
    }
    OneTermMoves(before, after, id);
  }

  lemma OneTermMoves(before: map<string, real>, after: map<string, real>, id: string)
    requires after.Keys == before.Keys && id in before && forall x :: x in before && x != id ==> after[x] == before[x]
    ensures RSum(after) == RSum(before) - before[id] + after[id]
  {
    RSumPut(before, id, after[id]);
    assert after == before[id := after[id]];
  }

  /** What the other holders of the fund own, in paise. */
  ghost function Others(s: Shop, investor: string, id: string, m: Market): real
    requires id in s.book.funds && s.book.funds[id].units > 0.0
  {
    var f := s.book.funds[id];
    PartValue(WorthOf(s.trading.accounts, f.formed.account, m), f.units, f.units - B.HoldingOf(s.book, (investor, id)).units)
  }

  /** The step is of this fund and this investor: `amount` goes from the investor to the fund, `units` from
      the fund to the investor; either may be negative. */
  ghost predicate Flow(s: Shop, t: Shop, investor: string, id: string, amount: int, units: real, m: Market)
    requires id in s.book.funds
  {
    var A, M, account := s.trading.accounts, t.trading.accounts, s.book.funds[id].formed.account;
    && t.book.funds.Keys == s.book.funds.Keys && M.Keys == A.Keys
    && (forall x :: x in s.book.funds ==> t.book.funds[x].formed.account == s.book.funds[x].formed.account)
    && (forall x :: x in s.book.funds && x != id ==>
          t.book.funds[x].units == s.book.funds[x].units && B.HoldingOf(t.book, (investor, x)) == B.HoldingOf(s.book, (investor, x)))
    && t.book.funds[id].units == s.book.funds[id].units + units
    && B.HoldingOf(t.book, (investor, id)).units == B.HoldingOf(s.book, (investor, id)).units + units
    && WorthOf(M, investor, m) == WorthOf(A, investor, m) - amount
    && WorthOf(M, account, m) == WorthOf(A, account, m) + amount
    && (forall x :: x != investor && x != account ==> WorthOf(M, x, m) == WorthOf(A, x, m))
  }

  /** Wealth is what the others do not have. */
  lemma FlowWealth(s: Shop, t: Shop, investor: string, id: string, amount: int, units: real, m: Market)
    requires Sound(s, investor, m) && id in s.book.funds && Flow(s, t, investor, id, amount, units, m)
    requires t.book.funds[id].units > 0.0
    ensures Wealth(t, investor, m) == Wealth(s, investor, m) + Others(s, investor, id, m) - Others(t, investor, id, m)
  {
    forall x | x in s.book.funds && x != id
      ensures Stake(t.trading.accounts, t.book, investor, x, m) == Stake(s.trading.accounts, s.book, investor, x, m)
    {
      OtherStake(s, t, investor, id, x, amount, units, m);
    }
    WealthMoves(s, t, investor, id, m);
    assert FundSound(s, investor, id, m);
    StakeRest(s, investor, id, m);
    StakeRest(t, investor, id, m);
  }

  lemma OtherStake(s: Shop, t: Shop, investor: string, id: string, x: string, amount: int, units: real, m: Market)
    requires Sound(s, investor, m) && id in s.book.funds && Flow(s, t, investor, id, amount, units, m)
    requires x in s.book.funds && x != id
    ensures Stake(t.trading.accounts, t.book, investor, x, m) == Stake(s.trading.accounts, s.book, investor, x, m)
  {
    assert FundSound(s, investor, x, m);
  }

  /** The investor's part and the others' part make up the fund's value. */
  lemma StakeRest(s: Shop, investor: string, id: string, m: Market)
    requires id in s.book.funds && s.book.funds[id].units > 0.0
    ensures Stake(s.trading.accounts, s.book, investor, id, m) + Others(s, investor, id, m)
         == WorthOf(s.trading.accounts, s.book.funds[id].formed.account, m) as real
  {
    var f := s.book.funds[id];
    PartSplit(WorthOf(s.trading.accounts, f.formed.account, m), f.units, B.HoldingOf(s.book, (investor, id)).units);
  }

  lemma AllocDone(A: L.Accounts, b: B.Book, q: Ask, room: int, terms: Terms, m: Market, up: bool)
    ensures var a := AllocAnswer(A, b, q, room, terms, m, up);
            a.Done? ==> q.fund in b.funds && L.Allowed(L.Move(q.investor, b.funds[q.fund].formed.account, a.amount), A)
                        && a.units > 0.0 && a.units == BoughtUnits(a.amount, NavAt(A, b, q.fund, m)) && up
  {
  }

  lemma AllocBook(b: B.Book, q: Ask, a: Answer)
    requires a.Done? && q.fund in b.funds
    ensures var c := B.Step(b, AllocEvent(q, a)).0;
            && c.funds.Keys == b.funds.Keys && c.launch == b.launch
            && (forall x :: x in b.funds ==> c.funds[x].formed == b.funds[x].formed)
            && (forall x :: x in b.funds && x != q.fund ==>
                  c.funds[x].units == b.funds[x].units && B.HoldingOf(c, (q.investor, x)) == B.HoldingOf(b, (q.investor, x)))
            && c.funds[q.fund].units == b.funds[q.fund].units + a.units
            && B.HoldingOf(c, (q.investor, q.fund)).units == B.HoldingOf(b, (q.investor, q.fund)).units + a.units
  {
  }

  lemma AllocFlows(s: Shop, q: Ask, room: int, terms: Terms, m: Market, up: bool)
    requires Sound(s, q.investor, m)
    ensures var (t, a) := Allocated(s, q, room, terms, m, up);
            if a.Refused? then t == s
            else q.fund in s.book.funds && Flow(s, t, q.investor, q.fund, a.amount, a.units, m)
                 && a.amount > 0 && a.units > 0.0 && a.units == BoughtUnits(a.amount, NavAt(s.trading.accounts, s.book, q.fund, m))
  {
    var a := AllocAnswer(s.trading.accounts, s.book, q, room, terms, m, up);
    AllocDone(s.trading.accounts, s.book, q, room, terms, m, up);
    if a.Done? {
      AllocBook(s.book, q, a);
      MoveWorth(s.trading.accounts, q.investor, s.book.funds[q.fund].formed.account, a.amount, m);
    }
  }

  /** The units bought are worth at most what was paid for them. */
  lemma BoughtWorth(amount: int, value: int, all: real)
    requires value > 0 && all > 0.0 && amount > 0
    ensures BoughtUnits(amount, F.Nav(value, all)) * value as real <= amount as real * all
  {
    var nav := F.Nav(value, all);
    assert nav * all == value as real / 100.0;
    assert nav > 0.0;
    var x := amount as real / 100.0 / nav;
    assert x * nav == amount as real / 100.0;
    FloorUnitsBelow(x);
    BoughtNumbers(FloorUnits(x), x, nav, all, value as real, amount as real);
  }

  lemma BoughtNumbers(m: real, x: real, nav: real, all: real, value: real, amount: real)
    requires m <= x && nav > 0.0 && all > 0.0 && nav * all == value / 100.0 && x * nav == amount / 100.0
    ensures m * value <= amount * all
  {
    RMulMono(m, x, nav * all);
    assert m * value == m * (nav * all) * 100.0;
    assert amount * all == x * nav * 100.0 * all == x * (nav * all) * 100.0;
  }

  /** After the step so many units of the fund are worth no less, or less by no more than `over`. */
  ghost predicate KeepsWorth(s: Shop, id: string, amount: int, units: real, others: real, over: real, m: Market)
    requires id in s.book.funds && s.book.funds[id].units > 0.0 && s.book.funds[id].units + units > 0.0
  {
    var f := s.book.funds[id];
    var value := WorthOf(s.trading.accounts, f.formed.account, m);
    PartValue(value + amount, f.units + units, others) >= PartValue(value, f.units, others) - over
  }

  /** No units are sold of a fund that is worth nothing. */
  lemma NothingNav(value: int, all: real)
    requires all > 0.0
    ensures value == 0 ==> F.Nav(value, all) == 0.0
  {
  }

  lemma EntryKeepsWorth(s: Shop, investor: string, id: string, amount: int, units: real, others: real, m: Market)
    requires id in s.book.funds && FundSound(s, investor, id, m)
    requires amount > 0 && units > 0.0 && others >= 0.0 && units == BoughtUnits(amount, NavAt(s.trading.accounts, s.book, id, m))
    ensures KeepsWorth(s, id, amount, units, others, 0.0, m)
  {
    var f := s.book.funds[id];
    var value := WorthOf(s.trading.accounts, f.formed.account, m);
    NothingNav(value, f.units);
    BoughtWorth(amount, value, f.units);
    EnterFair(value, f.units, others, amount, units);
  }

  /** If what the others hold keeps its worth, the investor does not get richer. */
  lemma WealthFromOthers(s: Shop, t: Shop, investor: string, id: string, amount: int, units: real, over: real, m: Market)
    requires Sound(s, investor, m) && id in s.book.funds && Flow(s, t, investor, id, amount, units, m)
    requires t.book.funds[id].units > 0.0 && s.book.funds[id].units > 0.0
    requires KeepsWorth(s, id, amount, units, s.book.funds[id].units - B.HoldingOf(s.book, (investor, id)).units, over, m)
    ensures Wealth(t, investor, m) <= Wealth(s, investor, m) + over
  {
    FlowWealth(s, t, investor, id, amount, units, m);
    FlowOthers(s, t, investor, id, amount, units, m);
  }

  /** If one unit keeps its worth, the NAV does not fall. */
  lemma NavFromUnit(s: Shop, t: Shop, investor: string, id: string, amount: int, units: real, over: real, m: Market)
    requires Sound(s, investor, m) && id in s.book.funds && Flow(s, t, investor, id, amount, units, m)
    requires t.book.funds[id].units > 0.0 && s.book.funds[id].units > 0.0
    requires KeepsWorth(s, id, amount, units, 1.0, over, m)
    ensures NavAt(t.trading.accounts, t.book, id, m) * 100.0 >= NavAt(s.trading.accounts, s.book, id, m) * 100.0 - over
  {
    FlowNav(s, t, investor, id, amount, units, m);
  }

  /** Investing never makes the investor richer, and the fund's NAV does not fall. */
  lemma AllocFair(s: Shop, q: Ask, room: int, terms: Terms, m: Market, up: bool)
    requires Sound(s, q.investor, m)
    ensures var (t, a) := Allocated(s, q, room, terms, m, up);
            && Wealth(t, q.investor, m) <= Wealth(s, q.investor, m)
            && (q.fund in s.book.funds ==> NavAt(t.trading.accounts, t.book, q.fund, m) >= NavAt(s.trading.accounts, s.book, q.fund, m))
            && Sound(t, q.investor, m)
  {
    var (t, a) := Allocated(s, q, room, terms, m, up);
    AllocFlows(s, q, room, terms, m, up);
    if a.Done? {
      EnterStep(s, t, q.investor, q.fund, a.amount, a.units, m);
    }
  }

  lemma EnterStep(s: Shop, t: Shop, investor: string, id: string, amount: int, units: real, m: Market)
    requires Sound(s, investor, m) && id in s.book.funds && Flow(s, t, investor, id, amount, units, m)
    requires amount > 0 && units > 0.0
    requires units == BoughtUnits(amount, NavAt(s.trading.accounts, s.book, id, m))
    ensures Wealth(t, investor, m) <= Wealth(s, investor, m)
    ensures NavAt(t.trading.accounts, t.book, id, m) >= NavAt(s.trading.accounts, s.book, id, m)
    ensures Sound(t, investor, m)
  {
    assert FundSound(s, investor, id, m);
    EntryKeepsWorth(s, investor, id, amount, units, s.book.funds[id].units - B.HoldingOf(s.book, (investor, id)).units, m);
    EntryKeepsWorth(s, investor, id, amount, units, 1.0, m);
    WealthFromOthers(s, t, investor, id, amount, units, 0.0, m);
    NavFromUnit(s, t, investor, id, amount, units, 0.0, m);
    FlowSound(s, t, investor, id, amount, units, m);
  }

  /** The others hold as many units as before, of a fund with more or less in it. */
  lemma FlowOthers(s: Shop, t: Shop, investor: string, id: string, amount: int, units: real, m: Market)
    requires Sound(s, investor, m) && id in s.book.funds && Flow(s, t, investor, id, amount, units, m)
    requires t.book.funds[id].units > 0.0
    ensures var f := s.book.funds[id];
            var value, others := WorthOf(s.trading.accounts, f.formed.account, m), f.units - B.HoldingOf(s.book, (investor, id)).units;
            && f.units > 0.0
            && Others(s, investor, id, m) == PartValue(value, f.units, others)
            && Others(t, investor, id, m) == PartValue(value + amount, f.units + units, others)
  {
    assert FundSound(s, investor, id, m);
  }

  /** The NAV is what one unit's part is worth. */
  lemma FlowNav(s: Shop, t: Shop, investor: string, id: string, amount: int, units: real, m: Market)
    requires Sound(s, investor, m) && id in s.book.funds && Flow(s, t, investor, id, amount, units, m)
    requires t.book.funds[id].units > 0.0
    ensures var f := s.book.funds[id];
            var value := WorthOf(s.trading.accounts, f.formed.account, m);
            && NavAt(s.trading.accounts, s.book, id, m) * 100.0 == PartValue(value, f.units, 1.0)
            && NavAt(t.trading.accounts, t.book, id, m) * 100.0 == PartValue(value + amount, f.units + units, 1.0)
  {
    assert FundSound(s, investor, id, m);
    var f := s.book.funds[id];
    NavIsPart(WorthOf(s.trading.accounts, f.formed.account, m), f.units);
    NavIsPart(WorthOf(s.trading.accounts, f.formed.account, m) + amount, f.units + units);
  }

  lemma NavIsPart(value: int, all: real)
    requires all > 0.0
    ensures F.Nav(value, all) * 100.0 == PartValue(value, all, 1.0)
    ensures forall units: real :: units * F.Nav(value, all) * 100.0 == PartValue(value, all, units)
  {
    var nav := F.Nav(value, all);
    assert nav * 100.0 * all == value as real;
    assert nav * 100.0 == value as real / all;
    forall units: real
      ensures units * nav * 100.0 == PartValue(value, all, units)
    {
      assert units * (nav * 100.0) == units * nav * 100.0;
    }
  }

  lemma FlowSound(s: Shop, t: Shop, investor: string, id: string, amount: int, units: real, m: Market)
    requires Sound(s, investor, m) && id in s.book.funds && Flow(s, t, investor, id, amount, units, m)
    requires B.HoldingOf(t.book, (investor, id)).units >= 0.0
    requires WorthOf(t.trading.accounts, t.book.funds[id].formed.account, m) >= 0
    ensures Sound(t, investor, m)
  {
    forall x | x in t.book.funds
      ensures FundSound(t, investor, x, m)
    {
      assert FundSound(s, investor, x, m) && FundSound(s, investor, id, m);
    }
  }

  // ---- leaving ----

  lemma RedeemDone(A: L.Accounts, b: B.Book, q: Ask, terms: Terms, m: Market)
    ensures var a := RedeemCheck(A, b, q, terms, m);
            a.Done? ==> q.fund in b.funds && 0.0 < a.units <= B.HoldingOf(b, (q.investor, q.fund)).units
                        && a.amount > 0 && a.amount == Payout(a.units, NavAt(A, b, q.fund, m))
  {
  }

  /** What is left in funds after this payout is the share of the wallet the rulebook asks for, or more. */
  predicate KeepsEnough(wallet: int, inFunds: int, amount: int, terms: Terms) {
    wallet > 0 ==> (inFunds - amount) as real * 100.0 + 0.000001 >= wallet as real * terms.keepPct
  }

  /** The investor holds units of the fund; the rupees asked for are positive; the payout is a paisa or more, or a
      rupee if not everything goes; enough stays in funds; the sales raise the cash and the fund can move it; and
      the record could be stored. */
  ghost predicate PaysOut(s: Shop, q: Ask, held: real, nav: real, terms: Terms, m: Market, sell: Q.Seller, up: bool)
    requires q.fund in s.book.funds
  {
    var A, account := s.trading.accounts, s.book.funds[q.fund].formed.account;
    var units, amount := SoldUnits(q, held, nav), Payout(SoldUnits(q, held, nav), nav);
    var raised := Q.Raise(s.trading, account, m.symbols, m.price, amount, sell);
    && held > 0.0 && (q.all || q.rupees > 0.0) && units > 0.0 && amount >= (if q.all then 1 else 100)
    && KeepsEnough(TotalValue(A, s.book, q.investor, m), UnitsWorth(A, s.book, q.investor, m), amount, terms)
    && raised.1 == Q.Ok && L.Allowed(L.Move(account, q.investor, amount), raised.0.accounts) && up
  }

  lemma RedeemsIff(s: Shop, q: Ask, terms: Terms, m: Market, sell: Q.Seller, up: bool)
    requires q.fund in s.book.funds
    ensures Redeemed(s, q, terms, m, sell, up).1.Done?
       <==> PaysOut(s, q, B.HoldingOf(s.book, (q.investor, q.fund)).units, NavAt(s.trading.accounts, s.book, q.fund, m), terms, m, sell, up)
  {
  }

  /** The rupees are positive and not above the maximum; the fund is not disqualified; the investor has the cash; it
      is not below the minimum ticket, nor above the part of the wallet that may be in one fund, nor above the
      fund's room; it buys a millionth of a unit or more; and the record could be stored. */
  ghost predicate Invests(A: L.Accounts, f: B.Fund, q: Ask, amount: int, held: real, nav: real, wallet: int, room: int, terms: Terms, up: bool) {
    && 0.0 < q.rupees <= terms.maxRupees && !f.disqualified
    && amount >= Min(terms.minAbsolute, C.Percent(wallet, terms.minPct))
    && FromRupees(held * nav) + amount <= C.Percent(wallet, terms.capPct) && amount <= room
    && BoughtUnits(amount, nav) > 0.0
    && L.Allowed(L.Move(q.investor, f.formed.account, amount), A) && up
  }

  lemma AllocatesIff(s: Shop, q: Ask, room: int, terms: Terms, m: Market, up: bool)
    requires q.fund in s.book.funds
    ensures Allocated(s, q, room, terms, m, up).1.Done?
       <==> Invests(s.trading.accounts, s.book.funds[q.fund], q, FromRupees(q.rupees), B.HoldingOf(s.book, (q.investor, q.fund)).units,
                    NavAt(s.trading.accounts, s.book, q.fund, m), TotalValue(s.trading.accounts, s.book, q.investor, m), room, terms, up)
  {
    var A, f := s.trading.accounts, s.book.funds[q.fund];
    if q.investor in A {
      AmountIff(FromRupees(q.rupees), A[q.investor].cash, TotalValue(A, s.book, q.investor, m), NavAt(A, s.book, q.fund, m),
                B.HoldingOf(s.book, (q.investor, q.fund)).units, room, terms);
    }
  }

  lemma AmountIff(amount: int, cash: int, wallet: int, nav: real, units: real, room: int, terms: Terms)
    ensures AmountCheck(amount, cash, wallet, nav, units, room, terms).Done?
       <==> && amount <= cash && amount >= Min(terms.minAbsolute, C.Percent(wallet, terms.minPct))
            && FromRupees(units * nav) + amount <= C.Percent(wallet, terms.capPct) && amount <= room && BoughtUnits(amount, nav) > 0.0
    ensures AmountCheck(amount, cash, wallet, nav, units, room, terms).Done? ==>
              AmountCheck(amount, cash, wallet, nav, units, room, terms) == Done(BoughtUnits(amount, nav), amount)
  {
  }

  /** The amount is the rupees asked for, to the nearest paisa; the units are the most, to six decimals, that it
      pays for. */
  lemma AllocExact(s: Shop, q: Ask, room: int, terms: Terms, m: Market, up: bool)
    requires Allocated(s, q, room, terms, m, up).1.Done?
    ensures var a, nav := Allocated(s, q, room, terms, m, up).1, NavAt(s.trading.accounts, s.book, q.fund, m);
            && -0.5 <= a.amount as real - q.rupees * 100.0 <= 0.5 && a.amount > 0
            && nav > 0.0 && a.units > 0.0 && Buys(a.units, nav, a.amount)
  {
    var a, nav := Allocated(s, q, room, terms, m, up).1, NavAt(s.trading.accounts, s.book, q.fund, m);
    AllocDone(s.trading.accounts, s.book, q, room, terms, m, up);
    assert a.amount == FromRupees(q.rupees);
    RoundsToNearest(q.rupees * 100.0);
    BoughtMost(a.amount, nav);
  }

  /** So many units are the most, to six decimals, that this amount pays for. */
  predicate Buys(units: real, nav: real, amount: int) {
    units * nav * 100.0 <= amount as real < (units + UNIT_STEP) * nav * 100.0
  }

  lemma BoughtMost(amount: int, nav: real)
    requires amount > 0 && BoughtUnits(amount, nav) > 0.0
    ensures nav > 0.0 && Buys(BoughtUnits(amount, nav), nav, amount)
  {
    var rupees := amount as real / 100.0;
    var x := rupees / nav;
    FloorUnitsMost(x);
    assert nav > 0.0 by {
      assert x * nav == rupees;
      if nav < 0.0 { RMulMono(0.0, x, -nav); }
    }
    MostUnits(BoughtUnits(amount, nav), x, nav, rupees);
  }

  lemma MostUnits(units: real, x: real, nav: real, rupees: real)
    requires nav > 0.0 && x == rupees / nav && units <= x
    ensures units * nav <= rupees
    ensures x < units + UNIT_STEP ==> (units + UNIT_STEP) * nav > rupees
  {
    assert x * nav == rupees;
    RMulMono(units, x, nav);
    if x < units + UNIT_STEP { StrictlyMore(x, units + UNIT_STEP, nav); }
  }

  /** What is redeemed is what was asked for: all of it, or the most units that are worth no more than the rupees
      asked for, as far as they are held. The payout is their worth, rounded down to the paisa (or up through the
      slack), and nothing under a rupee is paid unless everything goes. */
  lemma RedeemExact(A: L.Accounts, b: B.Book, q: Ask, terms: Terms, m: Market)
    requires RedeemCheck(A, b, q, terms, m).Done?
    ensures var a := RedeemCheck(A, b, q, terms, m);
            var nav, held := NavAt(A, b, q.fund, m), B.HoldingOf(b, (q.investor, q.fund)).units;
            && q.fund in b.funds && nav > 0.0 && 0.0 < a.units <= held
            && (q.all ==> a.units == held)
            && (!q.all ==> a.units * nav <= q.rupees && (a.units == held || (a.units + UNIT_STEP) * nav > q.rupees) && a.amount >= 100)
            && a.units * nav * 100.0 - 1.0 < a.amount as real <= a.units * nav * 100.0 + SLACK
  {
    var a := RedeemCheck(A, b, q, terms, m);
    var nav, held := NavAt(A, b, q.fund, m), B.HoldingOf(b, (q.investor, q.fund)).units;
    RedeemDone(A, b, q, terms, m);
    PayoutMeans(a.units, nav);
    SoldUnitsMost(q, held, nav);
  }

  /** The most units that are worth no more than the rupees, as far as they are held. */
  lemma SoldUnitsMost(q: Ask, held: real, nav: real)
    requires nav > 0.0
    ensures var units := SoldUnits(q, held, nav);
            if q.all then units == held
            else units <= held && units * nav <= q.rupees && (units == held || (units + UNIT_STEP) * nav > q.rupees)
  {
    var x := q.rupees / nav;
    FloorUnitsMost(x);
    if !q.all { MostUnits(SoldUnits(q, held, nav), x, nav, q.rupees); }
  }

  lemma StrictlyMore(a: real, b: real, k: real)
    requires a < b && 0.0 < k
    ensures a * k < b * k
  {
    assert b * k - a * k == (b - a) * k;
  }

  lemma PayoutMeans(units: real, nav: real)
    ensures units * nav * 100.0 - 1.0 < Payout(units, nav) as real <= units * nav * 100.0 + SLACK
    ensures units > 0.0 && Payout(units, nav) > 0 ==> nav > 0.0
  {
    if nav <= 0.0 && units > 0.0 { RMulMono(nav, 0.0, units); }
  }

  lemma RedeemBook(b: B.Book, q: Ask, a: Answer)
    requires a.Done? && q.fund in b.funds && 0.0 < a.units <= B.HoldingOf(b, (q.investor, q.fund)).units <= b.funds[q.fund].units
    ensures var c := B.Step(b, RedeemEvent(q, a)).0;
            && c.funds.Keys == b.funds.Keys && c.launch == b.launch
            && (forall x :: x in b.funds ==> c.funds[x].formed == b.funds[x].formed)
            && (forall x :: x in b.funds && x != q.fund ==>
                  c.funds[x].units == b.funds[x].units && B.HoldingOf(c, (q.investor, x)) == B.HoldingOf(b, (q.investor, x)))
            && c.funds[q.fund].units == b.funds[q.fund].units - a.units
            && B.HoldingOf(c, (q.investor, q.fund)).units == B.HoldingOf(b, (q.investor, q.fund)).units - a.units
  {
  }

  /** Selling at the prices everything is valued at leaves every account worth what it was. */
  lemma RaiseWorth(s: T.State, account: string, need: int, sell: Q.Seller, env: Q.Env, m: Market)
    requires Q.Honest(sell, account, env, m.price) && F.NoRepeats(m.symbols)
    ensures SameWorth(s.accounts, Q.Raise(s, account, m.symbols, m.price, need, sell).0.accounts, m)
  {
    Q.RaiseExchanges(s, account, m.symbols, need, sell, env, m.price);
  }

  ghost predicate SameWorth(A: L.Accounts, M: L.Accounts, m: Market) {
    M.Keys == A.Keys && forall x :: WorthOf(M, x, m) == WorthOf(A, x, m)
  }

  lemma PaidFlows(s: Shop, t: T.State, raised: Q.Outcome, q: Ask, a: Answer, up: bool, m: Market)
    requires Sound(s, q.investor, m) && q.fund in s.book.funds && SameWorth(s.trading.accounts, t.accounts, m)
    requires a.Done? && 0.0 < a.units <= B.HoldingOf(s.book, (q.investor, q.fund)).units
    ensures var (p, answer) := Paid(t, raised, s.book, q, a, up);
            if answer.Refused? then Flow(s, p, q.investor, q.fund, 0, 0.0, m)
            else answer == a && Flow(s, p, q.investor, q.fund, -a.amount, -a.units, m)
  {
    assert FundSound(s, q.investor, q.fund, m);
    RedeemBook(s.book, q, a);
    MoveWorth(t.accounts, s.book.funds[q.fund].formed.account, q.investor, a.amount, m);
  }

  ghost predicate LeaveRight(s: Shop, q: Ask, a: Answer, m: Market) {
    a.Done? ==>
      && q.fund in s.book.funds && a.amount > 0 && a.amount == Payout(a.units, NavAt(s.trading.accounts, s.book, q.fund, m))
      && 0.0 < a.units <= B.HoldingOf(s.book, (q.investor, q.fund)).units
  }

  /** Leaving takes the payout out of the fund for the units; a refused request moves nothing between them. */
  lemma RedeemFlows(s: Shop, q: Ask, terms: Terms, m: Market, sell: Q.Seller, env: Q.Env, up: bool)
    requires Sound(s, q.investor, m) && q.fund in s.book.funds
    requires Q.Honest(sell, s.book.funds[q.fund].formed.account, env, m.price)
    ensures var (t, a) := Redeemed(s, q, terms, m, sell, up);
            && LeaveRight(s, q, a, m)
            && Flow(s, t, q.investor, q.fund, if a.Done? then -a.amount else 0, if a.Done? then -a.units else 0.0, m)
  {
    var check := RedeemCheck(s.trading.accounts, s.book, q, terms, m);
    RedeemDone(s.trading.accounts, s.book, q, terms, m);
    if check.Done? {
      var account := s.book.funds[q.fund].formed.account;
      var raised := Q.Raise(s.trading, account, m.symbols, m.price, check.amount, sell);
      RaiseWorth(s.trading, account, check.amount, sell, env, m);
      PaidFlows(s, raised.0, raised.1, q, check, up, m);
    }
  }

  /** By how much the payout may exceed the units' exact value: the slack where it was rounded up through
      it, otherwise nothing. */
  ghost function Over(units: real, nav: real): real {
    if Payout(units, nav) as real > units * nav * 100.0 then SLACK else 0.0
  }

  lemma ExitKeepsWorth(s: Shop, investor: string, id: string, units: real, others: real, m: Market)
    requires id in s.book.funds && FundSound(s, investor, id, m)
    requires 0.0 < units && 0.0 < others <= s.book.funds[id].units - units
    ensures var nav := NavAt(s.trading.accounts, s.book, id, m);
            KeepsWorth(s, id, -Payout(units, nav), -units, others, Over(units, nav), m)
  {
    var f := s.book.funds[id];
    var value, nav := WorthOf(s.trading.accounts, f.formed.account, m), NavAt(s.trading.accounts, s.book, id, m);
    NavIsPart(value, f.units);
    PayoutAboveIff(units, nav);
    LeaveFair(value, f.units, others, units, Payout(units, nav), Over(units, nav));
  }

  lemma RedeemFair(s: Shop, q: Ask, terms: Terms, m: Market, sell: Q.Seller, env: Q.Env, up: bool)
    requires Sound(s, q.investor, m) && q.fund in s.book.funds
    requires Q.Honest(sell, s.book.funds[q.fund].formed.account, env, m.price)
    ensures var (t, a) := Redeemed(s, q, terms, m, sell, up);
            && Wealth(t, q.investor, m) <= Wealth(s, q.investor, m)
                 + (if a.Done? then Over(a.units, NavAt(s.trading.accounts, s.book, q.fund, m)) else 0.0)
            && Sound(t, q.investor, m)
  {
    var (t, a) := Redeemed(s, q, terms, m, sell, up);
    RedeemFlows(s, q, terms, m, sell, env, up);
    LeaveFlow(s, t, q, a, m);
    LeaveSound(s, t, q, a, m);
  }

  /** A payout is never more than the whole fund is worth. */
  lemma PayoutWithin(value: int, all: real, units: real)
    requires value >= 0 && 0.0 < units <= all
    ensures Payout(units, F.Nav(value, all)) <= value
  {
    NavIsPart(value, all);
    PartOf(value, all, units);
    RMulMono(units, all, value as real);
    RLessByFactor(PartValue(value, all, units), value as real, all);
  }

  lemma LeaveSound(s: Shop, t: Shop, q: Ask, a: Answer, m: Market)
    requires Sound(s, q.investor, m) && q.fund in s.book.funds && LeaveRight(s, q, a, m)
    requires Flow(s, t, q.investor, q.fund, if a.Done? then -a.amount else 0, if a.Done? then -a.units else 0.0, m)
    ensures Sound(t, q.investor, m)
  {
    assert FundSound(s, q.investor, q.fund, m);
    var f := s.book.funds[q.fund];
    if a.Done? {
      PayoutWithin(WorthOf(s.trading.accounts, f.formed.account, m), f.units, a.units);
      FlowSound(s, t, q.investor, q.fund, -a.amount, -a.units, m);
    } else {
      FlowSound(s, t, q.investor, q.fund, 0, 0.0, m);
    }
  }

  lemma LeaveFlow(s: Shop, t: Shop, q: Ask, a: Answer, m: Market)
    requires Sound(s, q.investor, m) && q.fund in s.book.funds && LeaveRight(s, q, a, m)
    requires Flow(s, t, q.investor, q.fund, if a.Done? then -a.amount else 0, if a.Done? then -a.units else 0.0, m)
    ensures Wealth(t, q.investor, m) <= Wealth(s, q.investor, m)
              + if a.Done? then Over(a.units, NavAt(s.trading.accounts, s.book, q.fund, m)) else 0.0
  {
    assert FundSound(s, q.investor, q.fund, m);
    var others := s.book.funds[q.fund].units - B.HoldingOf(s.book, (q.investor, q.fund)).units;
    if a.Done? {
      ExitKeepsWorth(s, q.investor, q.fund, a.units, others, m);
      WealthFromOthers(s, t, q.investor, q.fund, -a.amount, -a.units, Over(a.units, NavAt(s.trading.accounts, s.book, q.fund, m)), m);
    } else {
      StillWorth(s, q.fund, others, m);
      WealthFromOthers(s, t, q.investor, q.fund, 0, 0.0, 0.0, m);
    }
  }

  lemma StillWorth(s: Shop, id: string, others: real, m: Market)
    requires id in s.book.funds && s.book.funds[id].units > 0.0
    ensures KeepsWorth(s, id, 0, 0.0, others, 0.0, m)
  {
  }

  lemma RatioFalls(v: int, n: real, a: int, r: real)
    requires 0.0 < r < n
    ensures F.Nav(v - a, n - r) >= F.Nav(v, n) <==> a as real <= PartValue(v, n, r)
  {
    var x, y := F.Nav(v, n), F.Nav(v - a, n - r);
    assert x * n == v as real / 100.0 && y * (n - r) == (v - a) as real / 100.0;
    NavIsPart(v, n);
    assert PartValue(v, n, r) == r * x * 100.0;
    assert x * (n - r) == v as real / 100.0 - r * x;
    RLessByFactor(y, x, n - r);
    RLessByFactor(x, y, n - r);
  }

  /** A redemption lowers the fund's NAV for everyone else exactly when its payout was rounded up through
      the slack. */
  lemma RedeemNavIff(s: Shop, q: Ask, terms: Terms, m: Market, sell: Q.Seller, env: Q.Env, up: bool)
    requires Sound(s, q.investor, m) && q.fund in s.book.funds
    requires Q.Honest(sell, s.book.funds[q.fund].formed.account, env, m.price)
    requires Redeemed(s, q, terms, m, sell, up).1.Done?
    ensures var (t, a) := Redeemed(s, q, terms, m, sell, up);
            var nav := NavAt(s.trading.accounts, s.book, q.fund, m);
            NavAt(t.trading.accounts, t.book, q.fund, m) >= nav <==> Over(a.units, nav) == 0.0
  {
    var (t, a) := Redeemed(s, q, terms, m, sell, up);
    RedeemFlows(s, q, terms, m, sell, env, up);
    LeaveNav(s, t, q, a, m);
  }

  lemma LeaveNav(s: Shop, t: Shop, q: Ask, a: Answer, m: Market)
    requires Sound(s, q.investor, m) && q.fund in s.book.funds && LeaveRight(s, q, a, m) && a.Done?
    requires Flow(s, t, q.investor, q.fund, -a.amount, -a.units, m)
    ensures var nav := NavAt(s.trading.accounts, s.book, q.fund, m);
            NavAt(t.trading.accounts, t.book, q.fund, m) >= nav <==> Over(a.units, nav) == 0.0
  {
    LeftNav(s, t, q, a, m);
    var f := s.book.funds[q.fund];
    PayoutNav(WorthOf(s.trading.accounts, f.formed.account, m), f.units, a.units);
  }

  lemma PayoutNav(value: int, all: real, units: real)
    requires 0.0 < units < all
    ensures var nav := F.Nav(value, all);
            F.Nav(value - Payout(units, nav), all - units) >= nav <==> Over(units, nav) == 0.0
  {
    var nav := F.Nav(value, all);
    NavIsPart(value, all);
    OverZero(units, nav);
    RatioFalls(value, all, Payout(units, nav), units);
  }

  /** One unit of a fund worth 10,000 rupees with a million units and a millionth is worth a hair less than a
      paisa. It is paid a whole one, and the NAV falls. */
  lemma SlackPays()
    ensures var nav := F.Nav(1000000, 1000000.000001);
            Payout(1.0, nav) == 1 && 1.0 * nav * 100.0 < 1.0 && F.Nav(999999, 999999.000001) < nav
  {
    var nav := F.Nav(1000000, 1000000.000001);
    NavIsPart(1000000, 1000000.000001);
    var worth := PartValue(1000000, 1000000.000001, 1.0);
    assert worth * 1000000.000001 == 1000000.0;
    assert 1.0 - SLACK < worth < 1.0;
    FloorIs(worth + SLACK, 1);
    PayoutNav(1000000, 1000000.000001, 1.0);
  }

  lemma OverZero(units: real, nav: real)
    ensures Over(units, nav) == 0.0 <==> Payout(units, nav) as real <= units * nav * 100.0
  {
  }

  lemma LeftNav(s: Shop, t: Shop, q: Ask, a: Answer, m: Market)
    requires Sound(s, q.investor, m) && q.fund in s.book.funds && LeaveRight(s, q, a, m) && a.Done?
    requires Flow(s, t, q.investor, q.fund, -a.amount, -a.units, m)
    ensures var f := s.book.funds[q.fund];
            var value := WorthOf(s.trading.accounts, f.formed.account, m);
            && 0.0 < a.units < f.units
            && NavAt(s.trading.accounts, s.book, q.fund, m) == F.Nav(value, f.units)
            && NavAt(t.trading.accounts, t.book, q.fund, m) == F.Nav(value - a.amount, f.units - a.units)
  {
    assert FundSound(s, q.investor, q.fund, m);
  }

  // ---- any sequence of requests ----

  datatype Call =
    | Enter(ask: Ask, room: int, up: bool)
    | Leave(ask: Ask, env: Q.Env, stage: string, up: bool)

  ghost function Next(s: Shop, call: Call, terms: Terms, m: Market): (Shop, Answer) {
    match call
    case Enter(q, room, up) => Allocated(s, q, room, terms, m, up)
    case Leave(q, env, stage, up) =>
      if q.fund in s.book.funds then Redeemed(s, q, terms, m, Q.Sales(env, s.book.funds[q.fund].formed.account, stage), up)
      else (s, Refused(UnknownFund))
  }

  ghost function After(s: Shop, calls: seq<Call>, terms: Terms, m: Market): Shop {
    if calls == [] then s else Next(After(s, calls[..|calls| - 1], terms, m), calls[|calls| - 1], terms, m).0
  }

  /** Did this request's payout go through the slack? */
  ghost predicate RoundsUp(s: Shop, call: Call, terms: Terms, m: Market) {
    && call.Leave? && call.ask.fund in s.book.funds
    && (var a := Next(s, call, terms, m).1;
        a.Done? && Over(a.units, NavAt(s.trading.accounts, s.book, call.ask.fund, m)) > 0.0)
  }

  ghost function RoundedUp(s: Shop, calls: seq<Call>, terms: Terms, m: Market): nat {
    if calls == [] then 0
    else RoundedUp(s, calls[..|calls| - 1], terms, m)
         + if RoundsUp(After(s, calls[..|calls| - 1], terms, m), calls[|calls| - 1], terms, m) then 1 else 0
  }

  /** The investor's request, at the market's prices. */
  ghost predicate Asks(call: Call, investor: string, m: Market) {
    call.ask.investor == investor && (call.Leave? ==> Q.PricesAre(call.env, m.price))
  }

  lemma OneRequest(s: Shop, call: Call, investor: string, terms: Terms, m: Market)
    requires Sound(s, investor, m) && Asks(call, investor, m)
    ensures var t := Next(s, call, terms, m).0;
            && Wealth(t, investor, m) <= Wealth(s, investor, m) + (if RoundsUp(s, call, terms, m) then SLACK else 0.0)
            && Sound(t, investor, m)
  {
    match call
    case Enter(q, room, up) => AllocFair(s, q, room, terms, m, up);
    case Leave(q, env, stage, up) =>
      if q.fund in s.book.funds {
        var account := s.book.funds[q.fund].formed.account;
        Q.SalesAreHonest(env, account, stage, m.price);
        RedeemFair(s, q, terms, m, Q.Sales(env, account, stage), env, up);
      }
  }

  /** At fixed prices no sequence of investments and redemptions makes the investor richer, but for at most
      a billionth of a paisa for each payout that was rounded up through the slack. */
  lemma {:induction false} RoundingNeverPays(s: Shop, calls: seq<Call>, investor: string, terms: Terms, m: Market)
    requires Sound(s, investor, m) && forall i :: 0 <= i < |calls| ==> Asks(calls[i], investor, m)
    ensures Wealth(After(s, calls, terms, m), investor, m)
         <= Wealth(s, investor, m) + SLACK * RoundedUp(s, calls, terms, m) as real
    ensures Sound(After(s, calls, terms, m), investor, m)
  {
    if calls != [] {
      var past, last := calls[..|calls| - 1], calls[|calls| - 1];
      RoundingNeverPays(s, past, investor, terms, m);
      OneRequest(After(s, past, terms, m), last, investor, terms, m);
    }
  }

  // ---- as the source runs it: the ledger, the book and the trading service, changed in place ----

  ghost function NavMap(A: L.Accounts, b: B.Book, m: Market): map<string, real> {
    map id | id in b.funds :: NavOf(A, b.launch, b.funds[id], m)
  }

  class Desk {
    const exec: T.Executor
    const book: B.State
    const journal: Journal<B.Event>

    ghost predicate Valid()
      reads this, exec, exec.ledger, exec.journal
    {
      && exec.Valid()
      && (journal as object) !in {exec as object, exec.ledger as object, exec.journal as object}
      && (book as object) !in {exec as object, exec.ledger as object, exec.journal as object}
      && forall id :: id in exec.ledger.accts ==> exec.ledger.accts[id] as object !in {journal as object, book as object}
    }

    ghost function Now(): Shop
      reads exec, exec.ledger, exec.ledger.accts.Values, exec.journal, book
    {
      Shop(exec.Current(), book.Value())
    }

    constructor (exec: T.Executor, book: B.State, journal: Journal<B.Event>)
      ensures this.exec == exec && this.book == book && this.journal == journal
    {
      this.exec, this.book, this.journal := exec, book, journal;
    }

    /** Cash plus every holding at its price. */
    method Worth(account: string, m: Market) returns (v: int)
      ensures v == WorthOf(exec.ledger.Contents(), account, m)
    {
      if account !in exec.ledger.accts { return 0; }
      var a := exec.ledger.accts[account].Value();
      v := a.cash;
      for i := 0 to |m.symbols|
        invariant v == F.Value(a, m.symbols[..i], m.price)
      {
        assert m.symbols[..i + 1][..i] == m.symbols[..i];
        v := v + F.MarkOf(a, m.symbols[i], m.price);
      }
      assert m.symbols[..|m.symbols|] == m.symbols;
    }

    method Navs(m: Market) returns (navs: map<string, real>)
      ensures navs == NavMap(exec.ledger.Contents(), book.Value(), m)
    {
      navs := map[];
      var left := book.funds.Keys;
      while left != {}
        invariant left <= book.funds.Keys && navs.Keys == book.funds.Keys - left
        invariant forall id :: id in navs ==> navs[id] == NavOf(exec.ledger.Contents(), book.launch, book.funds[id], m)
        decreases |left|
      {
        var id :| id in left;
        var f := book.funds[id];
        var nav := book.launch;
        if f.units > 0.0 {
          var v := Worth(f.formed.account, m);
          nav := F.Nav(v, f.units);
        }
        navs := navs[id := nav];
        left := left - {id};
      }
    }

    method HoldingValue(who: B.Who, navs: map<string, real>, m: Market) returns (worth: int)
      requires navs == NavMap(exec.ledger.Contents(), book.Value(), m) && who in book.holdings
      ensures worth == HoldingWorth(exec.ledger.Contents(), book.Value(), who, m)
    {
      var h := book.holdings[who];
      if h.units <= 0.0 { return 0; }
      var nav := if who.1 in navs then navs[who.1] else 0.0;
      worth := FromRupees(h.units * nav);
    }

    /** What an investor's units of every fund are worth, each rounded to the paisa. */
    method UnitsValue(investor: string, navs: map<string, real>, m: Market) returns (total: int)
      requires navs == NavMap(exec.ledger.Contents(), book.Value(), m)
      ensures total == UnitsWorth(exec.ledger.Contents(), book.Value(), investor, m)
    {
      ghost var all := HoldingWorths(exec.ledger.Contents(), book.Value(), investor, m);
      total := AddUp((set who | who in book.holdings && who.0 == investor), navs, m, all);
    }

    method AddUp(whos: set<B.Who>, navs: map<string, real>, m: Market, ghost all: map<B.Who, int>) returns (total: int)
      requires navs == NavMap(exec.ledger.Contents(), book.Value(), m) && all.Keys == whos <= book.holdings.Keys
      requires forall who :: who in all ==> all[who] == HoldingWorth(exec.ledger.Contents(), book.Value(), who, m)
      ensures total == Sum(all)
    {
      total := 0;
      var left := whos;
      ghost var rest := all;
      while left != {}
        invariant left <= whos && rest.Keys == left && forall who :: who in rest ==> rest[who] == all[who]
        invariant total + Sum(rest) == Sum(all)
        decreases |left|
      {
        var who :| who in left;
        var worth := HoldingValue(who, navs, m);
        SumPick(rest, who);
        rest := rest - {who};
        total := total + worth;
        left := left - {who};
      }
    }

    /** Cash, shares and units together; nothing for an unknown account. */
    method Total(investor: string, navs: map<string, real>, m: Market) returns (v: int)
      requires navs == NavMap(exec.ledger.Contents(), book.Value(), m)
      ensures v == TotalValue(exec.ledger.Contents(), book.Value(), investor, m)
    {
      if investor !in exec.ledger.accts { return 0; }
      var own := Worth(investor, m);
      var inFunds := UnitsValue(investor, navs, m);
      v := own + inFunds;
    }

    method Pool(investors: seq<string>, navs: map<string, real>, terms: Terms, m: Market) returns (pool: int)
      requires navs == NavMap(exec.ledger.Contents(), book.Value(), m)
      ensures pool == SplitOf(exec.ledger.Contents(), book.Value(), investors, terms, m).pool
    {
      var values: seq<int> := [];
      for i := 0 to |investors|
        invariant |values| == i
        invariant forall k :: 0 <= k < i ==> values[k] == TotalValue(exec.ledger.Contents(), book.Value(), investors[k], m)
      {
        var v := Total(investors[i], navs, m);
        values := values + [v];
      }
      pool := C.MandatoryPool(values, terms.keepPct);
      assert values == Portfolios(exec.ledger.Contents(), book.Value(), investors, m);
    }

    /** How much more a fund may take in the window. */
    method CapRoom(q: Ask, investors: seq<string>, navs: map<string, real>, terms: Terms, m: Market) returns (room: int)
      requires navs == NavMap(exec.ledger.Contents(), book.Value(), m) && Countable(book.Value(), q.window, terms)
      ensures IsRoom(room, exec.ledger.Contents(), book.Value(), q, investors, terms, m)
    {
      var pool := Pool(investors, navs, terms, m);
      var cs: seq<C.CapFund> := [];
      for i := 0 to |book.order|
        invariant |cs| == i && forall k :: 0 <= k < i ==> cs[k] == CapOf(book.Value(), q.window, book.order[k])
      {
        cs := cs + [CapOf(book.Value(), q.window, book.order[i])];
      }
      room := 0;
      if cs == [] { return; }
      assert cs == WindowFunds(book.Value(), q.window);
      var level, states := C.Caps(cs, C.Split(pool, |cs|, 1, terms.minAbsolute));
      ghost var at := -1;
      for i := 0 to |states|
        invariant -1 <= at < i && (at == -1 ==> room == 0 && forall k :: 0 <= k < i ==> cs[k].id != q.fund)
        invariant at >= 0 ==> RoomAt(room, level, at, exec.ledger.Contents(), book.Value(), q, investors, terms, m)
      {
        if states[i].id == q.fund { room, at := states[i].room, i; }
      }
    }

    /** Nothing about the room matters to these refusals. */
    static predicate Early(why: Refusal) { why in {InvalidAmount, UnknownFund, Unavailable, NoAccount} }

    /** The checks of Allocate, in the source's order, up to the move of cash; `room` is the room they met. */
    method CheckAllocate(q: Ask, investors: seq<string>, terms: Terms, m: Market) returns (r: Answer, ghost room: int)
      requires Countable(book.Value(), q.window, terms)
      ensures r == AllocCheck(exec.ledger.Contents(), book.Value(), q, room, terms, m)
      ensures (r.Refused? && Early(r.why)) || IsRoom(room, exec.ledger.Contents(), book.Value(), q, investors, terms, m)
    {
      room := 0;
      if q.rupees <= 0.0 || q.rupees > terms.maxRupees { r := Refused(InvalidAmount); return; }
      if q.fund !in book.funds { r := Refused(UnknownFund); return; }
      var f := book.funds[q.fund];
      if f.disqualified { r := Refused(Unavailable); return; }
      var navs := Navs(m);
      var nav := navs[q.fund];
      var amount := FromRupees(q.rupees);
      var wallet := Total(q.investor, navs, m);
      if q.investor !in exec.ledger.accts { r := Refused(NoAccount); return; }
      var h := B.HoldingOf(book.Value(), (q.investor, q.fund));
      var left := CapRoom(q, investors, navs, terms, m);
      room := left;
      r := Checked(amount, exec.ledger.accts[q.investor].cash, wallet, nav, h.units, left, terms);
    }

    static method Checked(amount: int, cash: int, wallet: int, nav: real, units: real, room: int, terms: Terms) returns (r: Answer)
      ensures r == AmountCheck(amount, cash, wallet, nav, units, room, terms)
    {
      if amount > cash { return Refused(InsufficientCash); }
      if amount < C.MinInvestment(wallet, terms.minAbsolute, terms.minPct) { return Refused(BelowMinimum); }
      var held, limit := FromRupees(units * nav), Round(wallet as real * terms.capPct / 100.0);
      if held + amount > limit { return Refused(OverFundCap); }
      if amount > room { return Refused(AtCap); }
      var bought := BoughtUnits(amount, nav);
      if bought <= 0.0 { return Refused(TooSmall); }
      r := Done(bought, amount);
    }

    /** `investors` are the teams that take part as investors; `room` is what the equal-cap rule left the fund. */
    method Allocate(q: Ask, investors: seq<string>, terms: Terms, m: Market, up: bool) returns (r: Answer, ghost room: int)
      requires Valid() && Countable(book.Value(), q.window, terms)
      modifies exec.ledger.accts.Values, book, journal
      ensures Valid()
      ensures (Now(), r) == Allocated(old(Now()), q, room, terms, m, up)
      ensures (r.Refused? && Early(r.why)) || IsRoom(room, old(exec.ledger.Contents()), old(book.Value()), q, investors, terms, m)
      ensures journal.log == if r.Done? then old(journal.log) + [AllocEvent(q, r)] else old(journal.log)
    {
      r, room := CheckAllocate(q, investors, terms, m);
      if r.Done? { r := Enter(q, r, room, terms, m, up); }
    }

    /** The checks have passed: the cash moves once the record is durable, and the units are credited. */
    method Enter(q: Ask, check: Answer, ghost room: int, terms: Terms, m: Market, up: bool) returns (r: Answer)
      requires Valid() && check.Done? && check == AllocCheck(exec.ledger.Contents(), book.Value(), q, room, terms, m)
      modifies exec.ledger.accts.Values, book, journal
      ensures Valid()
      ensures (Now(), r) == Allocated(old(Now()), q, room, terms, m, up)
      ensures r.Done? || r == Refused(NotMoved)
      ensures journal.log == if r.Done? then old(journal.log) + [AllocEvent(q, r)] else old(journal.log)
    {
      r := check;
      var ev := AllocEvent(q, r);
      var moved := exec.ledger.MoveCash(q.investor, book.funds[q.fund].formed.account, r.amount, journal, ev, up);
      if moved != L.Done { return Refused(NotMoved); }
      var ok := book.Apply(ev);
    }

    /** The checks of Redeem, in the source's order, up to raising the cash. */
    method CheckRedeem(q: Ask, terms: Terms, m: Market) returns (r: Answer)
      ensures r == RedeemCheck(exec.ledger.Contents(), book.Value(), q, terms, m)
    {
      if q.fund !in book.funds { return Refused(UnknownFund); }
      var navs := Navs(m);
      var nav := navs[q.fund];
      var h := B.HoldingOf(book.Value(), (q.investor, q.fund));
      if h.units <= 0.0 { return Refused(NothingToRedeem); }
      if !q.all && q.rupees <= 0.0 { return Refused(InvalidAmount); }
      var wallet := Total(q.investor, navs, m);
      var inFunds := UnitsValue(q.investor, navs, m);
      r := CheckedExit(q, h.units, nav, wallet, inFunds, terms);
    }

    static method CheckedExit(q: Ask, held: real, nav: real, wallet: int, inFunds: int, terms: Terms) returns (r: Answer)
      ensures r == ExitCheck(q, held, nav, wallet, inFunds, terms)
    {
      var units := held;
      if !q.all {
        var wanted := if nav == 0.0 then 0.0 else FloorUnits(q.rupees / nav);
        if wanted <= units { units := wanted; }
      }
      if units <= 0.0 { return Refused(InvalidAmount); }
      var amount := Payout(units, nav);
      if amount <= 0 || (!q.all && amount < 100) { return Refused(InvalidAmount); }
      if KeepsTooLittle(wallet, inFunds - amount, terms) { return Refused(BelowMandatory); }
      r := Done(units, amount);
    }

    method Redeem(q: Ask, terms: Terms, m: Market, env: Q.Env, stage: string, up: bool) returns (r: Answer)
      requires Valid()
      modifies exec, exec.ledger.accts.Values, exec.journal, book, journal
      ensures Valid()
      ensures q.fund in old(book.funds) ==>
                (Now(), r) == Redeemed(old(Now()), q, terms, m, Q.Sales(env, old(book.funds[q.fund].formed.account), stage), up)
      ensures q.fund !in old(book.funds) ==> r == Refused(UnknownFund) && Now() == old(Now())
      ensures journal.log == if r.Done? then old(journal.log) + [RedeemEvent(q, r)] else old(journal.log)
    {
      var check := CheckRedeem(q, terms, m);
      if check.Refused? { return check; }
      var account := book.funds[q.fund].formed.account;
      var raised := Q.RaiseFundCash(exec, account, m.symbols, m.price, check.amount, env, stage);
      r := Pay(q, check, raised, up);
    }

    method Pay(q: Ask, a: Answer, raised: Q.Outcome, up: bool) returns (r: Answer)
      requires Valid() && a.Done? && q.fund in book.funds
      modifies exec.ledger.accts.Values, book, journal
      ensures Valid()
      ensures (Now(), r) == Paid(old(exec.Current()), raised, old(book.Value()), q, a, up)
      ensures journal.log == if r.Done? then old(journal.log) + [RedeemEvent(q, a)] else old(journal.log)
    {
      if raised != Q.Ok { return Refused(NotRaised(raised)); }
      var ev := RedeemEvent(q, a);
      var moved := exec.ledger.MoveCash(book.funds[q.fund].formed.account, q.investor, a.amount, journal, ev, up);
      if moved != L.Done { return Refused(NotMoved); }
      var ok := book.Apply(ev);
      r := a;
    }
  }
}

/** Why an investment or a redemption is refused. */
module FlowRules {
  import opened Numeric
  import L = Ledger
  import B = FundBook
  import C = AllocationCaps
  import Q = Liquidation
  import opened FundFlows

  /** What an amount is refused for. */
  predicate WrongAmount(why: Refusal, amount: int, wallet: int, nav: real, units: real, room: int, terms: Terms) {
    match why
    case BelowMinimum => amount < terms.minAbsolute && amount < C.Percent(wallet, terms.minPct)
    case OverFundCap => amount > C.Percent(wallet, terms.capPct) - FromRupees(units * nav)
    case AtCap => amount > room
    case TooSmall => nav <= 0.0 || amount as real < UNIT_STEP * nav * 100.0
    case _ => false
  }

  lemma AmountRefused(amount: int, cash: int, wallet: int, nav: real, units: real, room: int, terms: Terms)
    ensures var a := AmountCheck(amount, cash, wallet, nav, units, room, terms);
            a.Refused? ==> if a.why.InsufficientCash? then cash < amount else WrongAmount(a.why, amount, wallet, nav, units, room, terms)
  {
    BuysNothing(amount, nav);
  }

  /** What a refused investment says. */
  ghost predicate NotInvested(why: Refusal, A: L.Accounts, b: B.Book, q: Ask, room: int, terms: Terms, m: Market, up: bool) {
    var amount, nav, wallet := FromRupees(q.rupees), NavAt(A, b, q.fund, m), TotalValue(A, b, q.investor, m);
    match why
    case InvalidAmount => q.rupees <= 0.0 || q.rupees > terms.maxRupees
    case UnknownFund => q.fund !in b.funds
    case Unavailable => q.fund in b.funds && b.funds[q.fund].disqualified
    case NoAccount => q.investor !in A
    case InsufficientCash => q.investor in A && A[q.investor].cash < amount
    case NotMoved => q.fund in b.funds && !(L.Allowed(L.Move(q.investor, b.funds[q.fund].formed.account, amount), A) && up)
    case _ => WrongAmount(why, amount, wallet, nav, B.HoldingOf(b, (q.investor, q.fund)).units, room, terms)
  }

  /** What a refused redemption says. */
  ghost predicate NotPaidOut(why: Refusal, s: Shop, q: Ask, terms: Terms, m: Market, sell: Q.Seller, up: bool) {
    var (A, b) := (s.trading.accounts, s.book);
    var nav, held := NavAt(A, b, q.fund, m), B.HoldingOf(b, (q.investor, q.fund)).units;
    var units := SoldUnits(q, held, nav);
    var amount := Payout(units, nav);
    match why
    case UnknownFund => q.fund !in b.funds
    case NothingToRedeem => held <= 0.0
    case InvalidAmount => (!q.all && q.rupees <= 0.0) || units <= 0.0 || amount < if q.all then 1 else 100
    case BelowMandatory => !KeepsEnough(TotalValue(A, b, q.investor, m), UnitsWorth(A, b, q.investor, m), amount, terms)
    case NotRaised(out) => q.fund in b.funds && out != Q.Ok && out == Q.Raise(s.trading, b.funds[q.fund].formed.account, m.symbols, m.price, amount, sell).1
    case NotMoved =>
      && q.fund in b.funds
      && var raised := Q.Raise(s.trading, b.funds[q.fund].formed.account, m.symbols, m.price, amount, sell);
         raised.1 == Q.Ok && !(L.Allowed(L.Move(b.funds[q.fund].formed.account, q.investor, amount), raised.0.accounts) && up)
    case _ => false
  }

  /** A refused investment changes nothing, and says why. */
  lemma NotInvestedBecause(s: Shop, q: Ask, room: int, terms: Terms, m: Market, up: bool)
    ensures var (t, a) := Allocated(s, q, room, terms, m, up);
            a.Refused? ==> t == s && NotInvested(a.why, s.trading.accounts, s.book, q, room, terms, m, up)
    ensures Allocated(s, q, room, terms, m, up).1 == Refused(InvalidAmount) <==> q.rupees <= 0.0 || q.rupees > terms.maxRupees
  {
    var A, b := s.trading.accounts, s.book;
    if q.investor in A {
      AmountRefused(FromRupees(q.rupees), A[q.investor].cash, TotalValue(A, b, q.investor, m), NavAt(A, b, q.fund, m),
                    B.HoldingOf(b, (q.investor, q.fund)).units, room, terms);
    }
  }

  /** A refused redemption leaves the book alone, and says why. */
  lemma NotPaidBecause(s: Shop, q: Ask, terms: Terms, m: Market, sell: Q.Seller, up: bool)
    ensures var (t, a) := Redeemed(s, q, terms, m, sell, up);
            a.Refused? ==> t.book == s.book && NotPaidOut(a.why, s, q, terms, m, sell, up)
  {
  }

  lemma BuysNothing(amount: int, nav: real)
    ensures BoughtUnits(amount, nav) <= 0.0 ==> nav <= 0.0 || amount as real < UNIT_STEP * nav * 100.0
  {
    if BoughtUnits(amount, nav) <= 0.0 && nav > 0.0 {
      var x := amount as real / 100.0 / nav;
      FloorUnitsMost(x);
      StrictlyMore(x, UNIT_STEP, nav);
      assert x * nav == amount as real / 100.0;
    }
  }
}

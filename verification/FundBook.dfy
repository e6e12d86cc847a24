/** The state of the investment funds: units and who holds them, high-water marks, risk samples.
    Units and NAVs are exact reals, money is integer paise. */
module FundBook {
  import opened Numeric

  datatype MovedShares = MovedShares(symbol: string, qty: int, cost: int)

  /** Cash and shares moved between two accounts by a fund event. */
  datatype Move = Move(from: string, to: string, cash: int, shares: seq<MovedShares>)

  datatype SeedUnits = SeedUnits(fund: string, team: string, amount: int, units: real)

  datatype Formed = Formed(id: string, account: string, first: string, second: string, trader: string)

  datatype Fund = Fund(formed: Formed, feePct: real, units: real, minted: real, redeemed: real, seed: real,
                       hwm: real, disqualified: bool, peak: real, maxFall: real, aumSum: real, aumN: nat)

  datatype Holding = Holding(units: real, contributed: int, redeemed: int, seed: bool)

  type Who = (string, string) // investor, fund

  datatype FundCheckpoint = FundCheckpoint(fund: string, nav: real, aum: int, avgAum: int, units: real,
                                           mgmtFee: int, perfFee: int, hwmBefore: real, hwmAfter: real)

  datatype Event =
    | Forming(funds: seq<Formed>, moves: seq<Move>, seeds: seq<SeedUnits>)
    | Profile(fund: string, feePct: real)
    | Alloc(fund: string, investor: string, window: int, amount: int, units: real)
    | Redeem(fund: string, investor: string, window: int, amount: int, units: real)
    | Series(navs: map<string, real>, aums: map<string, int>)
    | Checkpoint(rows: seq<FundCheckpoint>)
    | Trader(fund: string, investor: string)
    | Disqualify(fund: string)
    | Dissolve(back: seq<Move>)

  datatype Book = Book(launch: real, order: seq<string>, funds: map<string, Fund>, holdings: map<Who, Holding>,
                       inflow: map<(int, string), int>, formed: bool, seedMoves: seq<Move>, checks: nat)

  function Empty(launch: real): Book { Book(launch, [], map[], map[], map[], false, [], 0) }

  const NO_HOLDING := Holding(0.0, 0, 0, false)

  function HoldingOf(b: Book, who: Who): Holding { if who in b.holdings then b.holdings[who] else NO_HOLDING }

  function Inflow(b: Book, window: int, fund: string): int {
    if (window, fund) in b.inflow then b.inflow[(window, fund)] else 0
  }

  // ---- applying one event ----

  function NewFund(f: Formed, launch: real): Fund {
    var named := if f.trader == "" then f.(trader := f.first) else f;
    Fund(named, 0.0, 0.0, 0.0, 0.0, 0.0, launch, false, launch, 0.0, 0.0, 0)
  }

  function AddFund(b: Book, f: Formed): Book {
    b.(order := b.order + [f.id], funds := b.funds[f.id := NewFund(f, b.launch)])
  }

  function AddFunds(b: Book, fs: seq<Formed>): Book {
    if fs == [] then b else AddFund(AddFunds(b, fs[..|fs| - 1]), fs[|fs| - 1])
  }

  function AddSeed(b: Book, s: SeedUnits): Book
    requires s.fund in b.funds
  {
    var who := (s.team, s.fund);
    var h := if who in b.holdings then b.holdings[who] else Holding(0.0, 0, 0, true);
    var f := b.funds[s.fund];
    b.(holdings := b.holdings[who := h.(units := h.units + s.units, contributed := h.contributed + s.amount)],
       funds := b.funds[s.fund := f.(units := f.units + s.units, seed := f.seed + s.units)])
  }

  /** Seeds are taken in order; an unknown fund stops the event there. */
  function AddSeeds(b: Book, seeds: seq<SeedUnits>): (Book, bool) {
    if seeds == [] then (b, true) else
      var (c, ok) := AddSeeds(b, seeds[..|seeds| - 1]);
      var s := seeds[|seeds| - 1];
      if ok && s.fund in c.funds then (AddSeed(c, s), true) else (c, false)
  }

  function Allocated(b: Book, ev: Event): Book
    requires ev.Alloc? && ev.fund in b.funds
  {
    var who := (ev.investor, ev.fund);
    var h := HoldingOf(b, who);
    var f := b.funds[ev.fund];
    b.(holdings := b.holdings[who := h.(units := h.units + ev.units, contributed := h.contributed + ev.amount)],
       funds := b.funds[ev.fund := f.(units := f.units + ev.units, minted := f.minted + ev.units)],
       inflow := b.inflow[(ev.window, ev.fund) := Inflow(b, ev.window, ev.fund) + ev.amount])
  }

  function Redeemed(b: Book, ev: Event): Book
    requires ev.Redeem? && ev.fund in b.funds
  {
    var who := (ev.investor, ev.fund);
    var h := HoldingOf(b, who);
    var f := b.funds[ev.fund];
    b.(holdings := b.holdings[who := h.(units := RMax(0.0, h.units - ev.units), redeemed := h.redeemed + ev.amount)],
       funds := b.funds[ev.fund := f.(units := RMax(0.0, f.units - ev.units), redeemed := f.redeemed + ev.units)])
  }

  /** One sample: the peak so far and the largest fall from it. */
  function Sampled(f: Fund, nav: real): Fund {
    var peak := RMax(f.peak, nav);
    f.(peak := peak, maxFall := if peak > 0.0 then RMax(f.maxFall, (peak - nav) / peak) else f.maxFall)
  }

  function WithSeries(b: Book, navs: map<string, real>, aums: map<string, int>): Book {
    b.(funds := map id | id in b.funds ::
         var f := if id in navs then Sampled(b.funds[id], navs[id]) else b.funds[id];
         if id in aums then f.(aumSum := f.aumSum + aums[id] as real, aumN := f.aumN + 1) else f)
  }

  function WithRow(b: Book, row: FundCheckpoint): Book {
    if row.fund in b.funds
    then b.(funds := b.funds[row.fund := b.funds[row.fund].(hwm := row.hwmAfter, aumSum := 0.0, aumN := 0)])
    else b
  }

  function WithRows(b: Book, rows: seq<FundCheckpoint>): Book {
    if rows == [] then b else WithRow(WithRows(b, rows[..|rows| - 1]), rows[|rows| - 1])
  }

  /** The new book, and whether the event was accepted. */
  function Step(b: Book, ev: Event): (Book, bool) {
    match ev
    case Forming(fs, moves, seeds) =>
      if b.formed then (b, false)
      else AddSeeds(AddFunds(b, fs).(formed := true, seedMoves := moves), seeds)
    case Profile(fund, feePct) =>
      if fund in b.funds then (b.(funds := b.funds[fund := b.funds[fund].(feePct := feePct)]), true) else (b, false)
    case Alloc(fund, _, _, _, _) => if fund in b.funds then (Allocated(b, ev), true) else (b, false)
    case Redeem(fund, _, _, _, _) => if fund in b.funds then (Redeemed(b, ev), true) else (b, false)
    case Series(navs, aums) => (WithSeries(b, navs, aums), true)
    case Checkpoint(rows) => (WithRows(b, rows).(checks := b.checks + 1), true)
    case Trader(fund, who) =>
      if fund in b.funds && who in {b.funds[fund].formed.first, b.funds[fund].formed.second}
      then (b.(funds := b.funds[fund := b.funds[fund].(formed := b.funds[fund].formed.(trader := who))]), true)
      else (b, false)
    case Disqualify(fund) =>
      if fund in b.funds then (b.(funds := b.funds[fund := b.funds[fund].(disqualified := true)]), true) else (b, false)
    case Dissolve(_) => (Empty(b.launch), true)
  }

  // ---- units: the fund's count is what its holders hold ----

  function UnitsIn(b: Book, fund: string): map<Who, real> {
    map who | who in b.holdings && who.1 == fund :: b.holdings[who].units
  }

  ghost predicate Tied(b: Book) {
    && (forall who :: who in b.holdings ==> who.1 in b.funds && b.holdings[who].units >= 0.0)
    && (forall id :: id in b.funds ==> FundTied(b, id))
    && (!b.formed ==> b.funds == map[])
  }

  ghost predicate FundTied(b: Book, id: string)
    requires id in b.funds
  {
    var f := b.funds[id];
    && f.units == RSum(UnitsIn(b, id))
    && f.units == f.seed + f.minted - f.redeemed
    && f.units >= 0.0
  }

  /** What the callers guarantee: no negative units, no redemption beyond the holder's units, and on
      formation each fund id once with seeds for the funds just formed. */
  predicate Respectful(b: Book, ev: Event) {
    match ev
    case Alloc(_, _, _, _, units) => units >= 0.0
    case Redeem(fund, investor, _, _, units) => 0.0 <= units <= HoldingOf(b, (investor, fund)).units
    case Forming(_, _, seeds) => forall i :: 0 <= i < |seeds| ==> seeds[i].units >= 0.0
    case _ => true
  }

  lemma UnitsPut(b: Book, c: Book, who: Who, id: string)
    requires who in c.holdings && c.holdings == b.holdings[who := c.holdings[who]]
    ensures RSum(UnitsIn(c, id)) == RSum(UnitsIn(b, id))
          + if who.1 == id then c.holdings[who].units - HoldingOf(b, who).units else 0.0
  {
    if who.1 == id {
      RSumPut(UnitsIn(b, id), who, c.holdings[who].units);
      assert UnitsIn(c, id) == UnitsIn(b, id)[who := c.holdings[who].units];
    } else {
      assert UnitsIn(c, id) == UnitsIn(b, id);
    }
  }

  /** Crediting or debiting one holder and its fund by the same units keeps every fund tied. */
  lemma TiedAfter(b: Book, c: Book, who: Who, delta: real)
    requires Tied(b) && b.formed && c.formed && who.1 in b.funds
    requires c.holdings.Keys == b.holdings.Keys + {who}
    requires c.holdings == b.holdings[who := c.holdings[who]]
    requires c.holdings[who].units == HoldingOf(b, who).units + delta >= 0.0
    requires c.funds.Keys == b.funds.Keys
    requires forall id :: id in b.funds && id != who.1 ==> c.funds[id] == b.funds[id]
    requires var f := c.funds[who.1];
             f.units == b.funds[who.1].units + delta == f.seed + f.minted - f.redeemed && f.units >= 0.0
    ensures Tied(c)
  {
    forall id | id in c.funds
      ensures FundTied(c, id)
    {
      assert FundTied(b, id);
      UnitsPut(b, c, who, id);
    }
  }

  lemma HolderWithin(b: Book, who: Who)
    requires Tied(b) && who in b.holdings
    ensures b.holdings[who].units <= b.funds[who.1].units
  {
    var m := UnitsIn(b, who.1);
    RSumPick(m, who);
    NonNegative(m - {who});
    assert FundTied(b, who.1);
  }

  lemma {:induction false} NonNegative<K>(m: map<K, real>)
    requires forall k :: k in m ==> m[k] >= 0.0
    ensures RSum(m) >= 0.0
    decreases |m|
  {
    if m != map[] {
      var k :| k in m && RSum(m) == m[k] + RSum(m - {k});
      NonNegative(m - {k});
    }
  }

  lemma {:induction false} AddFundsTied(b: Book, fs: seq<Formed>)
    requires Tied(b) && b.funds == map[] && b.holdings == map[]
    ensures var c := AddFunds(b, fs);
            Tied(c.(formed := true)) && c.holdings == map[] && c.launch == b.launch
            && c.inflow == b.inflow && c.checks == b.checks
  {
    if fs != [] {
      AddFundsTied(b, fs[..|fs| - 1]);
      var c := AddFunds(b, fs);
      forall id | id in c.funds
        ensures FundTied(c.(formed := true), id)
      {
        assert UnitsIn(c.(formed := true), id) == map[];
        if id != fs[|fs| - 1].id {
          assert FundTied(AddFunds(b, fs[..|fs| - 1]).(formed := true), id);
        }
      }
    }
  }

  lemma {:induction false} AddSeedsTied(b: Book, seeds: seq<SeedUnits>)
    requires Tied(b) && b.formed
    requires forall i :: 0 <= i < |seeds| ==> seeds[i].units >= 0.0
    ensures Tied(AddSeeds(b, seeds).0) && AddSeeds(b, seeds).0.formed
  {
    if seeds != [] {
      AddSeedsTied(b, seeds[..|seeds| - 1]);
      var (c, ok) := AddSeeds(b, seeds[..|seeds| - 1]);
      var s := seeds[|seeds| - 1];
      if ok && s.fund in c.funds {
        assert FundTied(c, s.fund);
        TiedAfter(c, AddSeed(c, s), (s.team, s.fund), s.units);
      }
    }
  }

  lemma {:induction false} RowsKeepUnits(b: Book, rows: seq<FundCheckpoint>)
    ensures var c := WithRows(b, rows);
            && c == b.(funds := c.funds) && c.funds.Keys == b.funds.Keys
            && forall id :: id in b.funds ==> c.funds[id] == b.funds[id].(hwm := c.funds[id].hwm, aumSum := c.funds[id].aumSum, aumN := c.funds[id].aumN)
  {
    if rows != [] { RowsKeepUnits(b, rows[..|rows| - 1]); }
  }

  lemma SameUnitsTied(b: Book, c: Book)
    requires Tied(b) && c.holdings == b.holdings && c.funds.Keys == b.funds.Keys && c.formed == b.formed
    requires forall id :: id in b.funds ==>
      c.funds[id].units == b.funds[id].units && c.funds[id].seed == b.funds[id].seed
      && c.funds[id].minted == b.funds[id].minted && c.funds[id].redeemed == b.funds[id].redeemed
    ensures Tied(c)
  {
    forall id | id in c.funds
      ensures FundTied(c, id)
    {
      assert FundTied(b, id) && UnitsIn(c, id) == UnitsIn(b, id);
    }
  }

  lemma FormingTied(b: Book, ev: Event)
    requires Tied(b) && ev.Forming? && !b.formed && Respectful(b, ev)
    ensures Tied(Step(b, ev).0)
  {
    assert b.holdings == map[];
    AddFundsTied(b, ev.funds);
    var c := AddFunds(b, ev.funds).(formed := true, seedMoves := ev.moves);
    SameUnitsTied(AddFunds(b, ev.funds).(formed := true), c);
    AddSeedsTied(c, ev.seeds);
  }

  lemma AllocTied(b: Book, ev: Event)
    requires Tied(b) && ev.Alloc? && ev.fund in b.funds && ev.units >= 0.0
    ensures Tied(Allocated(b, ev))
  {
    assert FundTied(b, ev.fund);
    TiedAfter(b, Allocated(b, ev), (ev.investor, ev.fund), ev.units);
  }

  lemma RedeemTied(b: Book, ev: Event)
    requires Tied(b) && ev.Redeem? && ev.fund in b.funds && Respectful(b, ev)
    ensures Tied(Redeemed(b, ev))
  {
    var who := (ev.investor, ev.fund);
    assert FundTied(b, ev.fund);
    if who in b.holdings { HolderWithin(b, who); }
    TiedAfter(b, Redeemed(b, ev), who, -ev.units);
  }

  lemma TouchTied(b: Book, id: string, f: Fund)
    requires Tied(b) && id in b.funds
    requires f.units == b.funds[id].units && f.seed == b.funds[id].seed
    requires f.minted == b.funds[id].minted && f.redeemed == b.funds[id].redeemed
    ensures Tied(b.(funds := b.funds[id := f]))
  {
    SameUnitsTied(b, b.(funds := b.funds[id := f]));
  }

  lemma DetailTied(b: Book, ev: Event)
    requires Tied(b) && (ev.Profile? || ev.Trader? || ev.Disqualify?) && ev.fund in b.funds
    ensures Tied(Step(b, ev).0)
  {
    var f := b.funds[ev.fund];
    if ev.Profile? {
      TouchTied(b, ev.fund, f.(feePct := ev.feePct));
    } else if ev.Trader? {
      TouchTied(b, ev.fund, f.(formed := f.formed.(trader := ev.investor)));
    } else {
      TouchTied(b, ev.fund, f.(disqualified := true));
    }
  }

  lemma SeriesTied(b: Book, ev: Event)
    requires Tied(b) && ev.Series?
    ensures Tied(Step(b, ev).0)
  {
    SameUnitsTied(b, WithSeries(b, ev.navs, ev.aums));
  }

  lemma CheckpointTied(b: Book, ev: Event)
    requires Tied(b) && ev.Checkpoint?
    ensures Tied(Step(b, ev).0)
  {
    RowsKeepUnits(b, ev.rows);
    SameUnitsTied(b, WithRows(b, ev.rows).(checks := b.checks + 1));
  }

  /** Every event keeps each fund's units equal to the sum of its holdings and to seed plus minted
      minus redeemed. */
  lemma StepTied(b: Book, ev: Event)
    requires Tied(b) && Respectful(b, ev)
    ensures Tied(Step(b, ev).0)
  {
    if ev.Forming? {
      if !b.formed { FormingTied(b, ev); }
    } else if ev.Series? {
      SeriesTied(b, ev);
    } else if ev.Checkpoint? {
      CheckpointTied(b, ev);
    } else if ev.Dissolve? {
      assert Tied(Empty(b.launch));
    } else if ev.fund in b.funds {
      if ev.Alloc? {
        AllocTied(b, ev);
      } else if ev.Redeem? {
        RedeemTied(b, ev);
      } else {
        DetailTied(b, ev);
      }
    }
  }

  function Run(b: Book, es: seq<Event>): Book {
    if es == [] then b else Step(Run(b, es[..|es| - 1]), es[|es| - 1]).0
  }

  predicate RespectfulRun(b: Book, es: seq<Event>) {
    es == [] || (RespectfulRun(b, es[..|es| - 1]) && Respectful(Run(b, es[..|es| - 1]), es[|es| - 1]))
  }

  lemma {:induction false} UnitsAlwaysTied(launch: real, es: seq<Event>)
    requires RespectfulRun(Empty(launch), es)
    ensures Tied(Run(Empty(launch), es))
  {
    if es != [] {
      UnitsAlwaysTied(launch, es[..|es| - 1]);
      StepTied(Run(Empty(launch), es[..|es| - 1]), es[|es| - 1]);
    }
  }

  // ---- checkpoints: high-water mark and fees ----

  /** One fund's figures at a checkpoint. A missing or non-positive NAV reads as the launch NAV. */
  function PlanRow(b: Book, id: string, nav0: real, aum: int, mgmtPct: real, perfPct: real): FundCheckpoint
    requires id in b.funds
  {
    var f := b.funds[id];
    var nav := if nav0 <= 0.0 then b.launch else nav0;
    var avg := if f.aumN > 0 then f.aumSum / (f.aumN as real) else aum as real;
    var pct := if f.feePct > 0.0 then f.feePct else mgmtPct;
    FundCheckpoint(id, nav, aum, Round(avg), f.units,
                   if b.checks > 0 then PercentOf(avg, pct) else 0,
                   PerfFee(f.hwm, nav, perfPct, f.units), f.hwm, RMax(f.hwm, nav))
  }

  /** A share of the new profit per unit above the high-water mark, on the units held. */
  function PerfFee(hwm: real, nav: real, pct: real, units: real): int {
    if nav > hwm then RiseFee(nav - hwm, pct, units) else 0
  }

  function RiseFee(rise: real, pct: real, units: real): int { FromRupees(rise * pct / 100.0 * units) }

  function PercentOf(amount: real, pct: real): int { Round(amount * pct / 100.0) }

  function Plan(b: Book, navs: map<string, real>, aums: map<string, int>, mgmtPct: real, perfPct: real): seq<FundCheckpoint>
    requires forall i :: 0 <= i < |b.order| ==> b.order[i] in b.funds
  {
    seq(|b.order|, i requires 0 <= i < |b.order| =>
      var id := b.order[i];
      PlanRow(b, id, if id in navs then navs[id] else 0.0, if id in aums then aums[id] else 0, mgmtPct, perfPct))
  }

  /** The row a checkpoint holds for one fund, if any (the last one wins). */
  function RowOf(rows: seq<FundCheckpoint>, id: string): seq<FundCheckpoint> {
    if rows == [] then []
    else if rows[|rows| - 1].fund == id then [rows[|rows| - 1]]
    else RowOf(rows[..|rows| - 1], id)
  }

  lemma {:induction false} RowsSetMark(b: Book, rows: seq<FundCheckpoint>, id: string)
    requires id in b.funds
    ensures var f := WithRows(b, rows).funds;
            id in f && f[id].hwm == (if RowOf(rows, id) == [] then b.funds[id].hwm else RowOf(rows, id)[0].hwmAfter)
            && f[id].peak == b.funds[id].peak && f[id].maxFall == b.funds[id].maxFall
  {
    if rows != [] {
      RowsSetMark(b, rows[..|rows| - 1], id);
    }
  }

  /** Every checkpoint row of this fund was planned from the book it is applied to. */
  predicate Planned(b: Book, ev: Event, id: string)
    requires id in b.funds
  {
    ev.Checkpoint? && RowOf(ev.rows, id) != [] ==>
      RowOf(ev.rows, id)[0].hwmAfter == RMax(b.funds[id].hwm, RowOf(ev.rows, id)[0].nav)
  }

  /** What PlanCheckpoint works out is planned for every fund. */
  lemma PlanIsPlanned(b: Book, navs: map<string, real>, aums: map<string, int>, mgmtPct: real, perfPct: real, id: string)
    requires forall i :: 0 <= i < |b.order| ==> b.order[i] in b.funds
    requires id in b.funds
    ensures Planned(b, Checkpoint(Plan(b, navs, aums, mgmtPct, perfPct)), id)
  {
    RowIsPlanned(b, Plan(b, navs, aums, mgmtPct, perfPct), id);
  }

  predicate RowPlanned(b: Book, row: FundCheckpoint) {
    row.fund in b.funds && row.hwmAfter == RMax(b.funds[row.fund].hwm, row.nav)
  }

  lemma {:induction false} RowIsPlanned(b: Book, rows: seq<FundCheckpoint>, id: string)
    requires id in b.funds
    requires forall i :: 0 <= i < |rows| ==> RowPlanned(b, rows[i])
    ensures RowOf(rows, id) != [] ==> RowPlanned(b, RowOf(rows, id)[0]) && RowOf(rows, id)[0].fund == id
  {
    if rows != [] && rows[|rows| - 1].fund != id {
      var rest := rows[..|rows| - 1];
      assert forall i :: 0 <= i < |rest| ==> rest[i] == rows[i];
      RowIsPlanned(b, rest, id);
    }
  }

  /** A run in which the fund is not formed anew or dissolved and checkpoints are planned. */
  predicate Steady(b: Book, es: seq<Event>, id: string) {
    if es == [] then id in b.funds && b.formed else
      var c := Run(b, es[..|es| - 1]);
      && Steady(b, es[..|es| - 1], id)
      && !es[|es| - 1].Dissolve?
      && id in c.funds && c.formed && Planned(c, es[|es| - 1], id)
  }

  /** The NAVs recorded for one fund at the checkpoints of a run. */
  function CheckNavs(es: seq<Event>, id: string): seq<real> {
    if es == [] then [] else CheckNavs(es[..|es| - 1], id) + CheckOf(es[|es| - 1], id)
  }

  /** m is the largest of x and the elements of s. */
  ghost predicate IsMax(m: real, x: real, s: seq<real>) {
    x <= m && (forall i :: 0 <= i < |s| ==> s[i] <= m) && (m == x || m in s)
  }

  function Fall(a: real, b: real): real { if a > 0.0 then (a - b) / a else 0.0 }

  /** d is the largest fall from any point of s to a later one (or none at all). */
  ghost predicate IsLargestFall(d: real, s: seq<real>) {
    && d >= 0.0
    && (forall i, j :: 0 <= i <= j < |s| ==> Fall(s[i], s[j]) <= d)
    && (d == 0.0 || exists i, j :: 0 <= i <= j < |s| && d == Fall(s[i], s[j]))
  }

  lemma FallGrows(a: real, p: real, b: real)
    requires a <= p && 0.0 < p && 0.0 <= b
    ensures Fall(a, b) <= Fall(p, b) || a <= 0.0
  {
    if a > 0.0 {
      var x, y := Fall(a, b), Fall(p, b);
      assert x * a == a - b && y * p == p - b;
      assert x * (a * p) == (a - b) * p && y * (a * p) == (p - b) * a;
      RMulMono(a, p, b);
      assert (p - b) * a - (a - b) * p == b * p - b * a;
      RMulMono(0.0, a, p);
      RLessByFactor(x, y, a * p);
    }
  }

  /** Adding one sample: comparing it with the peak alone is enough. */
  lemma SampleStep(f: Fund, s: seq<real>, nav: real)
    requires s != [] && s[0] > 0.0 && NoNegative(s) && nav >= 0.0
    requires IsMax(f.peak, s[0], s) && IsLargestFall(f.maxFall, s)
    ensures IsMax(Sampled(f, nav).peak, s[0], s + [nav])
    ensures IsLargestFall(Sampled(f, nav).maxFall, s + [nav])
  {
    var g, t := Sampled(f, nav), s + [nav];
    var n := |s|;
    var k := if g.peak == nav then n else if f.peak == s[0] then 0 else IndexOf(s, f.peak);
    assert t[k] == g.peak && t[n] == nav;
    assert Fall(t[k], t[n]) <= g.maxFall;
    forall i, j | 0 <= i <= j < |t|
      ensures Fall(t[i], t[j]) <= g.maxFall
    {
      if j == n {
        FallGrows(t[i], g.peak, nav);
      } else {
        assert t[i] == s[i] && t[j] == s[j];
      }
    }
    if g.maxFall == f.maxFall {
      if f.maxFall != 0.0 {
        var i, j :| 0 <= i <= j < |s| && f.maxFall == Fall(s[i], s[j]);
        assert t[i] == s[i] && t[j] == s[j];
      }
    }
  }

  function IndexOf(s: seq<real>, x: real): (i: nat)
    requires x in s
    ensures i < |s| && s[i] == x
  {
    if s[0] == x then 0 else 1 + IndexOf(s[1..], x)
  }

  function CheckOf(ev: Event, id: string): seq<real> {
    if ev.Checkpoint? && RowOf(ev.rows, id) != [] then [RowOf(ev.rows, id)[0].nav] else []
  }

  lemma MarkStep(c: Book, ev: Event, id: string, first: real, navs: seq<real>)
    requires id in c.funds && c.formed && !ev.Dissolve? && Planned(c, ev, id)
    requires IsMax(c.funds[id].hwm, first, navs)
    ensures id in Step(c, ev).0.funds
    ensures IsMax(Step(c, ev).0.funds[id].hwm, first, navs + CheckOf(ev, id))
  {
    if ev.Checkpoint? {
      RowsSetMark(c, ev.rows, id);
      if CheckOf(ev, id) != [] {
        assert (navs + CheckOf(ev, id))[|navs|] == RowOf(ev.rows, id)[0].nav;
      }
    } else {
      assert navs + CheckOf(ev, id) == navs;
    }
  }

  /** Over any steady run the high-water mark is the maximum of where it started and every
      checkpoint's NAV. */
  lemma {:induction false} HighWaterIsMax(b: Book, es: seq<Event>, id: string)
    requires Steady(b, es, id)
    ensures id in b.funds && id in Run(b, es).funds
    ensures IsMax(Run(b, es).funds[id].hwm, b.funds[id].hwm, CheckNavs(es, id))
  {
    if es != [] {
      var past, ev := es[..|es| - 1], es[|es| - 1];
      HighWaterIsMax(b, past, id);
      MarkStep(Run(b, past), ev, id, b.funds[id].hwm, CheckNavs(past, id));
    }
  }

  predicate NoNegative(s: seq<real>) { forall i :: 0 <= i < |s| ==> s[i] >= 0.0 }

  function SampleOf(ev: Event, id: string): seq<real> {
    if ev.Series? && id in ev.navs then [ev.navs[id]] else []
  }

  lemma FallStep(c: Book, ev: Event, id: string, all: seq<real>)
    requires id in c.funds && c.formed && !ev.Dissolve?
    requires all != [] && all[0] > 0.0 && NoNegative(all) && NoNegative(SampleOf(ev, id))
    requires IsMax(c.funds[id].peak, all[0], all) && IsLargestFall(c.funds[id].maxFall, all)
    ensures var d := Step(c, ev).0;
            id in d.funds && IsMax(d.funds[id].peak, all[0], all + SampleOf(ev, id))
            && IsLargestFall(d.funds[id].maxFall, all + SampleOf(ev, id))
  {
    if SampleOf(ev, id) == [] {
      assert all + SampleOf(ev, id) == all;
      if ev.Checkpoint? { RowsSetMark(c, ev.rows, id); }
    } else {
      assert SampleOf(ev, id)[0] == ev.navs[id];
      SampleStep(c.funds[id], all, ev.navs[id]);
    }
  }

  /** The launch NAV (or wherever the run starts) counts as the first sample. */
  function AllSamples(first: real, es: seq<Event>, id: string): (all: seq<real>)
    ensures |all| > 0 && all[0] == first
  {
    if es == [] then [first] else AllSamples(first, es[..|es| - 1], id) + SampleOf(es[|es| - 1], id)
  }

  /** Over any steady run of non-negative samples the streamed largest fall is the largest over all
      pairs of an earlier and a later sample. */
  lemma {:induction false} LargestFallIsExact(b: Book, es: seq<Event>, id: string)
    requires Steady(b, es, id) && id in b.funds
    requires b.funds[id].peak > 0.0 && b.funds[id].maxFall == 0.0
    requires NoNegative(AllSamples(b.funds[id].peak, es, id))
    ensures id in Run(b, es).funds
    ensures var all := AllSamples(b.funds[id].peak, es, id);
            && IsMax(Run(b, es).funds[id].peak, all[0], all) && IsLargestFall(Run(b, es).funds[id].maxFall, all)
  {
    var first := b.funds[id].peak;
    if es != [] {
      var past, ev := es[..|es| - 1], es[|es| - 1];
      var all := AllSamples(first, past, id);
      assert NoNegative(all) && NoNegative(SampleOf(ev, id)) by {
        var t := AllSamples(first, es, id);
        assert t[..|all|] == all && t[|all|..] == SampleOf(ev, id);
      }
      LargestFallIsExact(b, past, id);
      FallStep(Run(b, past), ev, id, all);
    } else {
      assert Fall(first, first) == 0.0;
    }
  }

  // ---- performance fees telescope ----

  function Marks(hwm: real, navs: seq<real>): real {
    if navs == [] then hwm else RMax(Marks(hwm, navs[..|navs| - 1]), navs[|navs| - 1])
  }

  function Fees(hwm: real, navs: seq<real>, pct: real, units: real): int {
    if navs == [] then 0
    else Fees(hwm, navs[..|navs| - 1], pct, units)
         + PerfFee(Marks(hwm, navs[..|navs| - 1]), navs[|navs| - 1], pct, units)
  }

  /** Checkpoints that set a new high. */
  function Highs(hwm: real, navs: seq<real>): nat {
    if navs == [] then 0
    else Highs(hwm, navs[..|navs| - 1]) + if navs[|navs| - 1] > Marks(hwm, navs[..|navs| - 1]) then 1 else 0
  }

  function FeeOn(rise: real, pct: real, units: real): real { rise * pct / 100.0 * units * 100.0 }

  lemma RiseFeeIs(rise: real, pct: real, units: real)
    ensures RiseFee(rise, pct, units) == Round(FeeOn(rise, pct, units))
  {
    var r := rise * pct / 100.0 * units;
    assert RiseFee(rise, pct, units) == FromRupees(r) && FeeOn(rise, pct, units) == r * 100.0;
  }

  lemma FeeAdds(x: real, y: real, pct: real, units: real)
    ensures FeeOn(x + y, pct, units) == FeeOn(x, pct, units) + FeeOn(y, pct, units)
  {
    var k := pct / 100.0 * units * 100.0;
    assert FeeOn(x, pct, units) == x * k && FeeOn(y, pct, units) == y * k && FeeOn(x + y, pct, units) == (x + y) * k;
  }

  /** With constant units the fees of a run add up to the fee on the total rise of the high-water
      mark: no rise is ever charged twice. Each new high adds at most half a paisa of rounding. */
  lemma {:induction false} FeesTelescope(hwm: real, navs: seq<real>, pct: real, units: real)
    ensures var exact := FeeOn(Marks(hwm, navs) - hwm, pct, units);
            -(Highs(hwm, navs) as real) <= 2.0 * (Fees(hwm, navs, pct, units) as real - exact) <= Highs(hwm, navs) as real
  {
    if navs != [] {
      var past, nav := navs[..|navs| - 1], navs[|navs| - 1];
      var m := Marks(hwm, past);
      FeesTelescope(hwm, past, pct, units);
      if nav > m {
        FeeAdds(m - hwm, nav - m, pct, units);
        RiseFeeIs(nav - m, pct, units);
      }
    }
  }

  /** The performance fee in every checkpoint row of this fund is the one PlanCheckpoint works out. */
  predicate FeePlanned(b: Book, ev: Event, id: string, pct: real)
    requires id in b.funds
  {
    ev.Checkpoint? && RowOf(ev.rows, id) != [] ==>
      RowOf(ev.rows, id)[0].perfFee == PerfFee(b.funds[id].hwm, RowOf(ev.rows, id)[0].nav, pct, b.funds[id].units)
  }

  predicate RowCharged(b: Book, row: FundCheckpoint, pct: real) {
    row.fund in b.funds && row.perfFee == PerfFee(b.funds[row.fund].hwm, row.nav, pct, b.funds[row.fund].units)
  }

  lemma {:induction false} RowIsCharged(b: Book, rows: seq<FundCheckpoint>, id: string, pct: real)
    requires id in b.funds && forall i :: 0 <= i < |rows| ==> RowCharged(b, rows[i], pct)
    ensures RowOf(rows, id) != [] ==> RowCharged(b, RowOf(rows, id)[0], pct) && RowOf(rows, id)[0].fund == id
  {
    if rows != [] && rows[|rows| - 1].fund != id {
      var rest := rows[..|rows| - 1];
      assert forall i :: 0 <= i < |rest| ==> rest[i] == rows[i];
      RowIsCharged(b, rest, id, pct);
    }
  }

  lemma PlanIsCharged(b: Book, navs: map<string, real>, aums: map<string, int>, mgmtPct: real, perfPct: real, id: string)
    requires forall i :: 0 <= i < |b.order| ==> b.order[i] in b.funds
    requires id in b.funds
    ensures FeePlanned(b, Checkpoint(Plan(b, navs, aums, mgmtPct, perfPct)), id, perfPct)
  {
    RowIsCharged(b, Plan(b, navs, aums, mgmtPct, perfPct), id, perfPct);
  }

  /** A steady run whose checkpoints charge as planned, on the same units. */
  predicate Charged(b: Book, es: seq<Event>, id: string, pct: real, units: real)
    requires Steady(b, es, id)
  {
    es == [] ||
    (var past, ev := es[..|es| - 1], es[|es| - 1];
     Charged(b, past, id, pct, units) && FeePlanned(Run(b, past), ev, id, pct)
     && (CheckOf(ev, id) != [] ==> Run(b, past).funds[id].units == units))
  }

  /** The performance fees charged to one fund at the checkpoints of a run. */
  function PerfFees(es: seq<Event>, id: string): int {
    if es == [] then 0 else PerfFees(es[..|es| - 1], id) + FeeIn(es[|es| - 1], id)
  }

  function FeeIn(ev: Event, id: string): int {
    if ev.Checkpoint? && RowOf(ev.rows, id) != [] then RowOf(ev.rows, id)[0].perfFee else 0
  }

  lemma OneMore(hwm: real, navs: seq<real>, nav: real, pct: real, units: real)
    ensures Marks(hwm, navs + [nav]) == RMax(Marks(hwm, navs), nav)
    ensures Fees(hwm, navs + [nav], pct, units) == Fees(hwm, navs, pct, units) + PerfFee(Marks(hwm, navs), nav, pct, units)
  {
    assert (navs + [nav])[..|navs|] == navs;
  }

  lemma ChargeStep(c: Book, ev: Event, id: string, hwm: real, navs: seq<real>, pct: real, units: real)
    requires id in c.funds && c.formed && !ev.Dissolve? && Planned(c, ev, id) && FeePlanned(c, ev, id, pct)
    requires CheckOf(ev, id) != [] ==> c.funds[id].units == units
    requires c.funds[id].hwm == Marks(hwm, navs)
    ensures id in Step(c, ev).0.funds && Step(c, ev).0.funds[id].hwm == Marks(hwm, navs + CheckOf(ev, id))
    ensures Fees(hwm, navs + CheckOf(ev, id), pct, units) == Fees(hwm, navs, pct, units) + FeeIn(ev, id)
  {
    if ev.Checkpoint? { RowsSetMark(c, ev.rows, id); }
    if CheckOf(ev, id) == [] {
      assert navs + CheckOf(ev, id) == navs;
    } else {
      OneMore(hwm, navs, CheckOf(ev, id)[0], pct, units);
    }
  }

  lemma {:induction false} RunCharges(b: Book, es: seq<Event>, id: string, pct: real, units: real)
    requires Steady(b, es, id) && Charged(b, es, id, pct, units)
    ensures id in b.funds && id in Run(b, es).funds
    ensures Run(b, es).funds[id].hwm == Marks(b.funds[id].hwm, CheckNavs(es, id))
    ensures PerfFees(es, id) == Fees(b.funds[id].hwm, CheckNavs(es, id), pct, units)
  {
    if es != [] {
      var past, ev := es[..|es| - 1], es[|es| - 1];
      RunCharges(b, past, id, pct, units);
      ChargeStep(Run(b, past), ev, id, b.funds[id].hwm, CheckNavs(past, id), pct, units);
    }
  }

  /** Over any steady run with constant units the performance fees in the checkpoints add up to the fee on
      the rise of the high-water mark over the run: no rise is ever charged twice. Each new high adds at
      most half a paisa of rounding. */
  lemma FeesOverRun(b: Book, es: seq<Event>, id: string, pct: real, units: real)
    requires Steady(b, es, id) && Charged(b, es, id, pct, units)
    ensures id in b.funds && id in Run(b, es).funds
    ensures var highs := Highs(b.funds[id].hwm, CheckNavs(es, id)) as real;
            -highs <= 2.0 * (PerfFees(es, id) as real - FeeOn(Run(b, es).funds[id].hwm - b.funds[id].hwm, pct, units)) <= highs
  {
    RunCharges(b, es, id, pct, units);
    FeesTelescope(b.funds[id].hwm, CheckNavs(es, id), pct, units);
  }

  // ---- the book as an object ----

  class State {
    const launch: real
    var order: seq<string>
    var funds: map<string, Fund>
    var holdings: map<Who, Holding>
    var inflow: map<(int, string), int>
    var formed: bool
    var seedMoves: seq<Move>
    var checks: nat

    constructor (launch: real)
      ensures Value() == Empty(launch)
    {
      this.launch := launch;
      order, funds, holdings, inflow, formed, seedMoves, checks := [], map[], map[], map[], false, [], 0;
    }

    function Value(): Book
      reads this
    {
      Book(launch, order, funds, holdings, inflow, formed, seedMoves, checks)
    }

    method Apply(ev: Event) returns (ok: bool)
      modifies this
      ensures (Value(), ok) == Step(old(Value()), ev)
    {
      ok := true;
      match ev
      case Forming(fs, moves, seeds) =>
        ok := FormAll(fs, moves, seeds);
      case Profile(fund, feePct) =>
        if fund !in funds { return false; }
        funds := funds[fund := funds[fund].(feePct := feePct)];
      case Alloc(fund, investor, window, amount, units) =>
        if fund !in funds { return false; }
        var h := if (investor, fund) in holdings then holdings[(investor, fund)] else Holding(0.0, 0, 0, false);
        var f := funds[fund];
        var had := if (window, fund) in inflow then inflow[(window, fund)] else 0;
        holdings := holdings[(investor, fund) := h.(units := h.units + units, contributed := h.contributed + amount)];
        funds := funds[fund := f.(units := f.units + units, minted := f.minted + units)];
        inflow := inflow[(window, fund) := had + amount];
      case Redeem(fund, investor, _, amount, units) =>
        if fund !in funds { return false; }
        var h := if (investor, fund) in holdings then holdings[(investor, fund)] else Holding(0.0, 0, 0, false);
        var f := funds[fund];
        holdings := holdings[(investor, fund) := h.(units := RMax(0.0, h.units - units), redeemed := h.redeemed + amount)];
        funds := funds[fund := f.(units := RMax(0.0, f.units - units), redeemed := f.redeemed + units)];
      case Series(navs, aums) =>
        TakeNavs(navs);
        TakeAums(aums);
        SeriesInTwo(old(Value()), navs, aums);
      case Checkpoint(rows) =>
        ghost var was := Value();
        for i := 0 to |rows|
          invariant Value() == WithRows(was, rows[..i])
        {
          assert rows[..i + 1][..i] == rows[..i];
          if rows[i].fund in funds {
            funds := funds[rows[i].fund := funds[rows[i].fund].(hwm := rows[i].hwmAfter, aumSum := 0.0, aumN := 0)];
          }
        }
        assert rows[..|rows|] == rows;
        RowsKeepUnits(was, rows);
        checks := checks + 1;
      case Trader(fund, who) =>
        if fund !in funds || (who != funds[fund].formed.first && who != funds[fund].formed.second) { return false; }
        funds := funds[fund := funds[fund].(formed := funds[fund].formed.(trader := who))];
      case Disqualify(fund) =>
        if fund !in funds { return false; }
        funds := funds[fund := funds[fund].(disqualified := true)];
      case Dissolve(_) =>
        order, funds, holdings, inflow, formed, seedMoves, checks := [], map[], map[], map[], false, [], 0;
    }

    method FormAll(fs: seq<Formed>, moves: seq<Move>, seeds: seq<SeedUnits>) returns (ok: bool)
      modifies this
      ensures (Value(), ok) == Step(old(Value()), Forming(fs, moves, seeds))
    {
      if formed { return false; }
      for i := 0 to |fs|
        invariant Value() == AddFunds(old(Value()), fs[..i])
      {
        assert fs[..i + 1][..i] == fs[..i];
        order := order + [fs[i].id];
        funds := funds[fs[i].id := NewFund(fs[i], launch)];
      }
      assert fs[..|fs|] == fs;
      formed, seedMoves := true, moves;
      ok := SeedAll(seeds);
    }

    method SeedAll(seeds: seq<SeedUnits>) returns (ok: bool)
      modifies this
      ensures (Value(), ok) == AddSeeds(old(Value()), seeds)
    {
      for i := 0 to |seeds|
        invariant (Value(), true) == AddSeeds(old(Value()), seeds[..i])
      {
        assert seeds[..i + 1][..i] == seeds[..i];
        if seeds[i].fund !in funds {
          StopsHere(old(Value()), seeds, i);
          return false;
        }
        SeedOne(seeds[i]);
      }
      assert seeds[..|seeds|] == seeds;
      ok := true;
    }

    method SeedOne(s: SeedUnits)
      requires s.fund in funds
      modifies this
      ensures Value() == AddSeed(old(Value()), s)
    {
      var h := if (s.team, s.fund) in holdings then holdings[(s.team, s.fund)] else Holding(0.0, 0, 0, true);
      var f := funds[s.fund];
      holdings := holdings[(s.team, s.fund) := h.(units := h.units + s.units, contributed := h.contributed + s.amount)];
      funds := funds[s.fund := f.(units := f.units + s.units, seed := f.seed + s.units)];
    }

    method TakeNavs(navs: map<string, real>)
      modifies this`funds
      ensures Value() == WithSeries(old(Value()), navs, map[])
    {
      var left := navs.Keys;
      while left != {}
        invariant left <= navs.Keys
        invariant funds == WithSeries(old(Value()), navs - left, map[]).funds
        decreases left
      {
        var id :| id in left;
        if id in funds {
          funds := funds[id := Sampled(funds[id], navs[id])];
        }
        left := left - {id};
      }
      assert navs - left == navs;
    }

    method TakeAums(aums: map<string, int>)
      modifies this`funds
      ensures Value() == WithSeries(old(Value()), map[], aums)
    {
      var left := aums.Keys;
      while left != {}
        invariant left <= aums.Keys
        invariant funds == WithSeries(old(Value()), map[], aums - left).funds
        decreases left
      {
        var id :| id in left;
        if id in funds {
          funds := funds[id := funds[id].(aumSum := funds[id].aumSum + aums[id] as real, aumN := funds[id].aumN + 1)];
        }
        left := left - {id};
      }
      assert aums - left == aums;
    }

    method PlanCheckpoint(navs: map<string, real>, aums: map<string, int>, mgmtPct: real, perfPct: real)
      returns (rows: seq<FundCheckpoint>)
      requires forall i :: 0 <= i < |order| ==> order[i] in funds
      ensures rows == Plan(Value(), navs, aums, mgmtPct, perfPct)
    {
      rows := [];
      for i := 0 to |order|
        invariant |rows| == i
        invariant forall k :: 0 <= k < i ==> rows[k] == Plan(Value(), navs, aums, mgmtPct, perfPct)[k]
      {
        var id := order[i];
        var row := Figures(id, if id in navs then navs[id] else 0.0, if id in aums then aums[id] else 0, mgmtPct, perfPct);
        rows := rows + [row];
      }
    }

    method Figures(id: string, nav0: real, aum: int, mgmtPct: real, perfPct: real) returns (row: FundCheckpoint)
      requires id in funds
      ensures row == PlanRow(Value(), id, nav0, aum, mgmtPct, perfPct)
    {
      var f := funds[id];
      var nav := nav0;
      if nav <= 0.0 {
        nav := launch;
      }
      var avg := aum as real;
      if f.aumN > 0 {
        avg := f.aumSum / (f.aumN as real);
      }
      var pct := mgmtPct;
      if f.feePct > 0.0 {
        pct := f.feePct;
      }
      var mgmt, perf, mark := 0, 0, f.hwm;
      if checks > 0 {
        mgmt := PercentOf(avg, pct);
      }
      if nav > f.hwm {
        perf, mark := RiseFee(nav - f.hwm, perfPct, f.units), nav;
      }
      row := FundCheckpoint(id, nav, aum, Round(avg), f.units, mgmt, perf, f.hwm, mark);
    }

    /** Whether anyone but the funds' own teams has ever put money into any fund. */
    method AnyInvestors() returns (yes: bool)
      ensures yes <==> exists who :: who in holdings && !holdings[who].seed
    {
      var left := holdings.Keys;
      while left != {}
        invariant left <= holdings.Keys
        invariant forall who :: who in holdings && who !in left ==> holdings[who].seed
        decreases left
      {
        var who :| who in left;
        if !holdings[who].seed { return true; }
        left := left - {who};
      }
      yes := false;
    }
  }

  lemma {:induction false} StopsHere(b: Book, seeds: seq<SeedUnits>, i: nat)
    requires i < |seeds|
    requires AddSeeds(b, seeds[..i]).1 && seeds[i].fund !in AddSeeds(b, seeds[..i]).0.funds
    ensures AddSeeds(b, seeds) == (AddSeeds(b, seeds[..i]).0, false)
    decreases |seeds|
  {
    if i + 1 < |seeds| {
      var rest := seeds[..|seeds| - 1];
      assert rest[..i] == seeds[..i];
      StopsHere(b, rest, i);
    }
  }

  lemma SeriesInTwo(b: Book, navs: map<string, real>, aums: map<string, int>)
    ensures WithSeries(WithSeries(b, navs, map[]), map[], aums) == WithSeries(b, navs, aums)
  {
    assert WithSeries(WithSeries(b, navs, map[]), map[], aums).funds == WithSeries(b, navs, aums).funds;
  }
}

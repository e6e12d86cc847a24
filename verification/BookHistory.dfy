/** What the fund book says, told from its events alone: who has paid in and out, how many units that left, the
    windows' inflows, the details of every fund, and the figures of a checkpoint. */
module BookHistory {
  import opened Numeric
  import opened FundBook

  // ---- one event's part in each figure ----

  /** The funds exist and stay: nothing is dissolved. */
  predicate Ongoing(es: seq<Event>) { forall i :: 0 <= i < |es| ==> !es[i].Dissolve? }

  predicate Buys(ev: Event, ids: set<string>, who: Who) { ev.Alloc? && ev.fund in ids && (ev.investor, ev.fund) == who }

  predicate Sells(ev: Event, ids: set<string>, who: Who) { ev.Redeem? && ev.fund in ids && (ev.investor, ev.fund) == who }

  function PaidIn(es: seq<Event>, ids: set<string>, who: Who): int {
    if es == [] then 0 else PaidIn(es[..|es| - 1], ids, who) + if Buys(es[|es| - 1], ids, who) then es[|es| - 1].amount else 0
  }

  function PaidOut(es: seq<Event>, ids: set<string>, who: Who): int {
    if es == [] then 0 else PaidOut(es[..|es| - 1], ids, who) + if Sells(es[|es| - 1], ids, who) then es[|es| - 1].amount else 0
  }

  function UnitsLeft(es: seq<Event>, ids: set<string>, who: Who): real {
    if es == [] then 0.0
    else
      var ev := es[|es| - 1];
      UnitsLeft(es[..|es| - 1], ids, who) + if Buys(ev, ids, who) then ev.units else if Sells(ev, ids, who) then -ev.units else 0.0
  }

  /** What came into a fund in a window. */
  function CameIn(es: seq<Event>, window: int, id: string): int {
    if es == [] then 0
    else
      var ev := es[|es| - 1];
      CameIn(es[..|es| - 1], window, id) + if ev.Alloc? && ev.fund == id && ev.window == window then ev.amount else 0
  }

  function Checks(es: seq<Event>): nat { if es == [] then 0 else Checks(es[..|es| - 1]) + if es[|es| - 1].Checkpoint? then 1 else 0 }

  predicate Barred(es: seq<Event>, id: string) { exists i :: 0 <= i < |es| && es[i] == Disqualify(id) }

  /** The fee the fund set last. */
  function LastFee(es: seq<Event>, id: string, was: real): real {
    if es == [] then was
    else if es[|es| - 1].Profile? && es[|es| - 1].fund == id then es[|es| - 1].feePct
    else LastFee(es[..|es| - 1], id, was)
  }

  /** The member of the fund who was made its trader last. */
  function LastTrader(es: seq<Event>, f: Formed): string {
    if es == [] then f.trader
    else
      var ev := es[|es| - 1];
      if ev.Trader? && ev.fund == f.id && ev.investor in {f.first, f.second} then ev.investor else LastTrader(es[..|es| - 1], f)
  }

  /** The samples of a fund's assets since its last checkpoint. */
  function AumsSince(es: seq<Event>, id: string): seq<int> {
    if es == [] then []
    else
      var ev := es[|es| - 1];
      if ev.Checkpoint? && RowOf(ev.rows, id) != [] then []
      else AumsSince(es[..|es| - 1], id) + if ev.Series? && id in ev.aums then [ev.aums[id]] else []
  }

  function TotalOf(s: seq<int>): int { if s == [] then 0 else TotalOf(s[..|s| - 1]) + s[|s| - 1] }

  // ---- the book after a run ----

  /** The figures that concern everybody. */
  ghost predicate Tells(b: Book, c: Book, es: seq<Event>, who: Who, window: int, id: string) {
    && c.formed && c.launch == b.launch && c.order == b.order && c.funds.Keys == b.funds.Keys && c.checks == b.checks + Checks(es)
    && HoldingOf(c, who).contributed == HoldingOf(b, who).contributed + PaidIn(es, b.funds.Keys, who)
    && HoldingOf(c, who).redeemed == HoldingOf(b, who).redeemed + PaidOut(es, b.funds.Keys, who)
    && HoldingOf(c, who).seed == HoldingOf(b, who).seed
    && (id in b.funds ==> Inflow(c, window, id) == Inflow(b, window, id) + CameIn(es, window, id))
    && (id !in b.funds ==> Inflow(c, window, id) == Inflow(b, window, id))
  }

  lemma ChecksKeepAll(b: Book, ev: Event)
    requires ev.Checkpoint?
    ensures var c := Step(b, ev).0;
            c == b.(funds := c.funds, checks := b.checks + 1) && c.funds.Keys == b.funds.Keys
  {
    RowsKeepUnits(b, ev.rows);
  }

  /** One event's part in these figures. */
  ghost predicate Adds(c: Book, d: Book, ev: Event, who: Who, window: int, id: string) {
    var ids := c.funds.Keys;
    && d.formed && d.launch == c.launch && d.order == c.order && d.funds.Keys == ids && d.checks == c.checks + (if ev.Checkpoint? then 1 else 0)
    && HoldingOf(d, who).contributed == HoldingOf(c, who).contributed + (if Buys(ev, ids, who) then ev.amount else 0)
    && HoldingOf(d, who).redeemed == HoldingOf(c, who).redeemed + (if Sells(ev, ids, who) then ev.amount else 0)
    && HoldingOf(d, who).seed == HoldingOf(c, who).seed
    && Inflow(d, window, id) == Inflow(c, window, id) + (if ev.Alloc? && ev.fund == id && id in ids && ev.window == window then ev.amount else 0)
  }

  lemma StepAdds(c: Book, ev: Event, who: Who, window: int, id: string)
    requires c.formed && !ev.Dissolve?
    ensures Adds(c, Step(c, ev).0, ev, who, window, id)
  {
    if ev.Checkpoint? { ChecksKeepAll(c, ev); }
  }

  lemma TellsStep(b: Book, c: Book, d: Book, es: seq<Event>, ev: Event, who: Who, window: int, id: string)
    requires Tells(b, c, es, who, window, id) && Adds(c, d, ev, who, window, id)
    ensures Tells(b, d, es + [ev], who, window, id)
  {
    var all := es + [ev];
    assert all[..|all| - 1] == es && all[|all| - 1] == ev;
  }

  /** Over any run in which nothing is dissolved, whatever else happens: what a holder has put in and taken out is the
      sum of its own investments and redemptions, a window's inflow that of the fund's investments in it, and funds
      neither come nor go. */
  lemma {:induction false} BookTells(b: Book, es: seq<Event>, who: Who, window: int, id: string)
    requires b.formed && Ongoing(es)
    ensures Tells(b, Run(b, es), es, who, window, id)
  {
    if es != [] {
      var past, ev := es[..|es| - 1], es[|es| - 1];
      BookTells(b, past, who, window, id);
      StepAdds(Run(b, past), ev, who, window, id);
      TellsStep(b, Run(b, past), Run(b, es), past, ev, who, window, id);
      assert past + [ev] == es;
    }
  }

  lemma UnitsStep(c: Book, ev: Event, who: Who)
    requires c.formed && !ev.Dissolve? && Respectful(c, ev)
    ensures HoldingOf(Step(c, ev).0, who).units
         == HoldingOf(c, who).units + UnitsLeft([ev], c.funds.Keys, who)
  {
    assert [ev][..0] == [];
    if ev.Checkpoint? { ChecksKeepAll(c, ev); }
  }

  /** If no redemption goes beyond the holder's units, the units are what was bought less what was redeemed. */
  lemma {:induction false} UnitsTell(b: Book, es: seq<Event>, who: Who)
    requires b.formed && Ongoing(es) && RespectfulRun(b, es)
    ensures HoldingOf(Run(b, es), who).units == HoldingOf(b, who).units + UnitsLeft(es, b.funds.Keys, who)
  {
    if es != [] {
      var past, ev := es[..|es| - 1], es[|es| - 1];
      UnitsTell(b, past, who);
      BookTells(b, past, who, 0, "");
      UnitsStep(Run(b, past), ev, who);
      assert [ev][..0] == [];
    }
  }

  // ---- a fund's details ----

  ghost predicate FundTells(f: Fund, g: Fund, es: seq<Event>, id: string) {
    && g.feePct == LastFee(es, id, f.feePct) && g.formed == f.formed.(trader := LastTrader(es, f.formed))
    && (g.disqualified <==> f.disqualified || Barred(es, id))
    && AumTells(g, es, id)
  }

  predicate AumTells(g: Fund, es: seq<Event>, id: string) {
    g.aumSum == TotalOf(AumsSince(es, id)) as real && g.aumN == |AumsSince(es, id)|
  }

  lemma {:induction false} RowsClearAum(b: Book, rows: seq<FundCheckpoint>, id: string)
    requires id in b.funds
    ensures var f, g := b.funds[id], WithRows(b, rows).funds;
            && id in g && g[id].formed == f.formed && g[id].feePct == f.feePct && g[id].disqualified == f.disqualified
            && (if RowOf(rows, id) == [] then g[id].aumSum == f.aumSum && g[id].aumN == f.aumN else g[id].aumSum == 0.0 && g[id].aumN == 0)
  {
    if rows != [] { RowsClearAum(b, rows[..|rows| - 1], id); }
  }

  lemma AumStep(c: Book, es: seq<Event>, ev: Event, id: string)
    requires c.formed && !ev.Dissolve? && id in c.funds && AumTells(c.funds[id], es, id)
    ensures id in Step(c, ev).0.funds && AumTells(Step(c, ev).0.funds[id], es + [ev], id)
  {
    var all := es + [ev];
    assert all[..|es|] == es && all[|es|] == ev;
    if ev.Checkpoint? { RowsClearAum(c, ev.rows, id); }
    var aums := AumsSince(es, id);
    if ev.Series? && id in ev.aums { assert (aums + [ev.aums[id]])[..|aums|] == aums; } else { assert aums + [] == aums; }
  }

  lemma BarredMore(es: seq<Event>, ev: Event, id: string)
    ensures Barred(es + [ev], id) <==> Barred(es, id) || ev == Disqualify(id)
  {
    var all := es + [ev];
    if Barred(es, id) {
      var i :| 0 <= i < |es| && es[i] == Disqualify(id);
      assert all[i] == Disqualify(id);
    }
    if ev == Disqualify(id) { assert all[|es|] == ev; }
  }

  lemma FundStep(f: Fund, c: Book, es: seq<Event>, ev: Event, id: string)
    requires c.formed && !ev.Dissolve? && id in c.funds && f.formed.id == id && FundTells(f, c.funds[id], es, id)
    ensures id in Step(c, ev).0.funds && FundTells(f, Step(c, ev).0.funds[id], es + [ev], id)
  {
    var all := es + [ev];
    assert all[..|es|] == es && all[|es|] == ev;
    AumStep(c, es, ev, id);
    BarredMore(es, ev, id);
    if ev.Checkpoint? { RowsClearAum(c, ev.rows, id); }
  }

  /** A fund's fee, its trader and whether it is out are what its own events last said; and since its last checkpoint
      it has counted exactly the samples of its assets. */
  lemma {:induction false} DetailsTell(b: Book, es: seq<Event>, id: string)
    requires b.formed && Ongoing(es) && id in b.funds && b.funds[id].formed.id == id && b.funds[id].aumN == 0 && b.funds[id].aumSum == 0.0
    ensures id in Run(b, es).funds && FundTells(b.funds[id], Run(b, es).funds[id], es, id)
  {
    if es != [] {
      var past, ev := es[..|es| - 1], es[|es| - 1];
      DetailsTell(b, past, id);
      BookTells(b, past, ("", ""), 0, "");
      FundStep(b.funds[id], Run(b, past), past, ev, id);
      assert past + [ev] == es;
    }
  }

  // ---- the figures of a checkpoint ----

  /** The average of the assets: of the samples since the last checkpoint, or if there are none, as they are now. */
  function Average(samples: seq<int>, aum: int): real {
    if samples == [] then aum as real else TotalOf(samples) as real / |samples| as real
  }

  /** So much per cent of this amount, to the nearest paisa. */
  predicate IsFee(fee: int, amount: real, pct: real) { -0.5 <= fee as real - amount * pct / 100.0 <= 0.5 }

  /** A checkpoint has one row for each fund, in the order the funds were formed, and in it: the NAV given, or the
      launch NAV if none or not positive; the assets now and on average; the management fee on that average, at the
      fund's own rate if it set one, but none at the first checkpoint; and the mark before and after. */
  lemma RowTells(c: Book, navs: map<string, real>, aums: map<string, int>, mgmtPct: real, perfPct: real, i: nat, samples: seq<int>)
    requires i < |c.order| && forall k :: 0 <= k < |c.order| ==> c.order[k] in c.funds
    requires var f := c.funds[c.order[i]]; f.aumN == |samples| && f.aumSum == TotalOf(samples) as real
    ensures var rows, id, f := Plan(c, navs, aums, mgmtPct, perfPct), c.order[i], c.funds[c.order[i]];
            && |rows| == |c.order| && rows[i].fund == id && rows[i].units == f.units && rows[i].aum == (if id in aums then aums[id] else 0)
            && rows[i].nav == (if id in navs && navs[id] > 0.0 then navs[id] else c.launch)
            && rows[i].hwmBefore == f.hwm && rows[i].hwmAfter == RMax(f.hwm, rows[i].nav)
            && FeesRight(rows[i], Average(samples, rows[i].aum), if f.feePct > 0.0 then f.feePct else mgmtPct, c.checks)
  {
    var id, f := c.order[i], c.funds[c.order[i]];
    var nav0, aum := if id in navs then navs[id] else 0.0, if id in aums then aums[id] else 0;
    var pct := if f.feePct > 0.0 then f.feePct else mgmtPct;
    assert Plan(c, navs, aums, mgmtPct, perfPct)[i] == PlanRow(c, id, nav0, aum, mgmtPct, perfPct);
    FeesOfRow(PlanRow(c, id, nav0, aum, mgmtPct, perfPct), Average(samples, aum), pct, c.checks, f.units, perfPct);
  }

  lemma FeesOfRow(row: FundCheckpoint, avg: real, pct: real, checks: nat, units: real, perfPct: real)
    requires row.avgAum == Round(avg) && row.mgmtFee == (if checks > 0 then PercentOf(avg, pct) else 0)
    requires row.perfFee == PerfFee(row.hwmBefore, row.nav, perfPct, units)
    ensures FeesRight(row, avg, pct, checks)
  {
    RoundsToNearest(avg);
    RoundsToNearest(avg * pct / 100.0);
  }

  /** So after any run since the funds were formed: the average is that of the samples since the fund's last checkpoint,
      the rate the one it set last, and the first checkpoint is the first of the run. */
  lemma PlanTells(b: Book, es: seq<Event>, navs: map<string, real>, aums: map<string, int>, mgmtPct: real, perfPct: real, i: nat)
    requires b.formed && b.checks == 0 && Ongoing(es) && i < |b.order| && forall k :: 0 <= k < |b.order| ==> b.order[k] in b.funds
    requires var f := b.funds[b.order[i]]; f.formed.id == b.order[i] && f.aumN == 0 && f.aumSum == 0.0
    ensures var c, id := Run(b, es), b.order[i];
            && c.order == b.order && (forall k :: 0 <= k < |c.order| ==> c.order[k] in c.funds)
            && (var row := Plan(c, navs, aums, mgmtPct, perfPct)[i];
                var rate := LastFee(es, id, b.funds[id].feePct);
                FeesRight(row, Average(AumsSince(es, id), row.aum), if rate > 0.0 then rate else mgmtPct, Checks(es)))
  {
    BookTells(b, es, ("", ""), 0, "");
    DetailsTell(b, es, b.order[i]);
    RowTells(Run(b, es), navs, aums, mgmtPct, perfPct, i, AumsSince(es, b.order[i]));
  }

  predicate FeesRight(row: FundCheckpoint, avg: real, pct: real, checks: nat) {
    && -0.5 <= row.avgAum as real - avg <= 0.5
    && (if checks == 0 then row.mgmtFee == 0 else IsFee(row.mgmtFee, avg, pct))
    && (row.nav <= row.hwmBefore ==> row.perfFee == 0)
  }

  // ---- forming the funds ----

  predicate Named(fs: seq<Formed>, id: string) { exists i :: 0 <= i < |fs| && fs[i].id == id }

  predicate AllKnown(seeds: seq<SeedUnits>, ids: set<string>) { forall i :: 0 <= i < |seeds| ==> seeds[i].fund in ids }

  /** Funds are formed once, and seeds are for known funds; a fund event is for a known fund; and only one of its two
      members can be its trader. */
  predicate Accepts(b: Book, ev: Event) {
    match ev
    case Forming(fs, _, seeds) => !b.formed && AllKnown(seeds, AddFunds(b, fs).funds.Keys)
    case Series(_, _) => true
    case Checkpoint(_) => true
    case Dissolve(_) => true
    case Trader(fund, who) => fund in b.funds && (who == b.funds[fund].formed.first || who == b.funds[fund].formed.second)
    case _ => ev.fund in b.funds
  }

  /** Which events the book accepts; one it does not accept changes nothing, but for a formation with seeds of an
      unknown fund. */
  lemma AcceptedIff(b: Book, ev: Event)
    ensures Step(b, ev).1 <==> Accepts(b, ev)
    ensures ev.Dissolve? ==> Step(b, ev).0 == Empty(b.launch)
    ensures !Step(b, ev).1 && !ev.Forming? ==> Step(b, ev).0 == b
    ensures ev.Forming? && b.formed ==> Step(b, ev) == (b, false)
  {
    if ev.Forming? { SeedsKnownIff(AddFunds(b, ev.funds).(formed := true, seedMoves := ev.moves), ev.seeds); }
  }

  lemma {:induction false} SeedsKnownIff(b: Book, seeds: seq<SeedUnits>)
    ensures AddSeeds(b, seeds).1 <==> AllKnown(seeds, b.funds.Keys)
    ensures AddSeeds(b, seeds).0.funds.Keys == b.funds.Keys
  {
    if seeds != [] {
      var past := seeds[..|seeds| - 1];
      SeedsKnownIff(b, past);
      assert forall i :: 0 <= i < |past| ==> past[i] == seeds[i];
    }
  }

  /** The units, and the paise, that these seeds give a fund, or one team in it. */
  function UnitsOf(seeds: seq<SeedUnits>, id: string): real {
    if seeds == [] then 0.0 else UnitsOf(seeds[..|seeds| - 1], id) + if seeds[|seeds| - 1].fund == id then seeds[|seeds| - 1].units else 0.0
  }

  function UnitsFor(seeds: seq<SeedUnits>, who: Who): real {
    if seeds == [] then 0.0
    else
      var s := seeds[|seeds| - 1];
      UnitsFor(seeds[..|seeds| - 1], who) + if (s.team, s.fund) == who then s.units else 0.0
  }

  function AmountFor(seeds: seq<SeedUnits>, who: Who): int {
    if seeds == [] then 0
    else
      var s := seeds[|seeds| - 1];
      AmountFor(seeds[..|seeds| - 1], who) + if (s.team, s.fund) == who then s.amount else 0
  }

  predicate Seeded(seeds: seq<SeedUnits>, who: Who) { exists i :: 0 <= i < |seeds| && (seeds[i].team, seeds[i].fund) == who }

  lemma KnownPast(seeds: seq<SeedUnits>, ids: set<string>)
    requires seeds != [] && AllKnown(seeds, ids)
    ensures AllKnown(seeds[..|seeds| - 1], ids) && seeds[|seeds| - 1].fund in ids
  {
    var past := seeds[..|seeds| - 1];
    assert forall i :: 0 <= i < |past| ==> past[i] == seeds[i];
  }

  lemma {:induction false} SeedsFund(b: Book, seeds: seq<SeedUnits>, id: string)
    requires AllKnown(seeds, b.funds.Keys) && id in b.funds
    ensures var c := AddSeeds(b, seeds).0;
            && id in c.funds && c == b.(funds := c.funds, holdings := c.holdings)
            && c.funds[id] == b.funds[id].(units := b.funds[id].units + UnitsOf(seeds, id), seed := b.funds[id].seed + UnitsOf(seeds, id))
  {
    if seeds != [] {
      var past := seeds[..|seeds| - 1];
      KnownPast(seeds, b.funds.Keys);
      SeedsFund(b, past, id);
      SeedsKnownIff(b, past);
    }
  }

  /** What these seeds make one team's holding. */
  ghost predicate HoldingTells(c: Book, seeds: seq<SeedUnits>, who: Who) {
    HoldingOf(c, who) == Holding(UnitsFor(seeds, who), AmountFor(seeds, who), 0, Seeded(seeds, who)) && (who in c.holdings <==> Seeded(seeds, who))
  }

  lemma HoldingStep(c: Book, past: seq<SeedUnits>, s: SeedUnits, who: Who)
    requires HoldingTells(c, past, who) && s.fund in c.funds
    ensures HoldingTells(AddSeed(c, s), past + [s], who)
  {
    var all := past + [s];
    assert all[..|past|] == past && all[|past|] == s;
    assert Seeded(all, who) <==> Seeded(past, who) || (s.team, s.fund) == who by {
      if Seeded(past, who) {
        var i :| 0 <= i < |past| && (past[i].team, past[i].fund) == who;
        assert all[i] == past[i];
      }
    }
  }

  lemma {:induction false} SeedsHolder(b: Book, seeds: seq<SeedUnits>, who: Who)
    requires AllKnown(seeds, b.funds.Keys) && b.holdings == map[]
    ensures HoldingTells(AddSeeds(b, seeds).0, seeds, who)
  {
    if seeds != [] {
      var past := seeds[..|seeds| - 1];
      KnownPast(seeds, b.funds.Keys);
      SeedsHolder(b, past, who);
      SeedsKnownIff(b, past);
      HoldingStep(AddSeeds(b, past).0, past, seeds[|seeds| - 1], who);
      assert past + [seeds[|seeds| - 1]] == seeds;
    }
  }

  lemma {:induction false} FundsTell(b: Book, fs: seq<Formed>, i: nat)
    requires forall j, k :: 0 <= j < k < |fs| ==> fs[j].id != fs[k].id
    ensures var c := AddFunds(b, fs);
            && c == b.(order := c.order, funds := c.funds) && |c.order| == |b.order| + |fs|
            && (i < |fs| ==> c.order[|b.order| + i] == fs[i].id && fs[i].id in c.funds && c.funds[fs[i].id] == NewFund(fs[i], b.launch))
    ensures b.order <= AddFunds(b, fs).order
  {
    if fs != [] {
      var past := fs[..|fs| - 1];
      FundsTell(b, past, i);
      assert i < |past| ==> past[i] == fs[i];
    }
  }

  /** A new fund and the seeds of its teams. */
  lemma SeededFund(d: Book, seeds: seq<SeedUnits>, f: Formed, launch: real)
    requires AllKnown(seeds, d.funds.Keys) && f.id in d.funds && d.funds[f.id] == NewFund(f, launch)
    ensures var c := AddSeeds(d, seeds).0;
            && c == d.(funds := c.funds, holdings := c.holdings) && f.id in c.funds
            && c.funds[f.id] == NewFund(f, launch).(units := UnitsOf(seeds, f.id), seed := UnitsOf(seeds, f.id))
  {
    SeedsFund(d, seeds, f.id);
  }

  /** After a formation the book lists the new funds in their order. Each starts at the launch NAV, as high-water mark
      and as peak, with its first member as trader unless it names another, no fee of its own, and the units and
      paise of its teams' seeds and nothing else. */
  lemma FormingTells(b: Book, fs: seq<Formed>, moves: seq<Move>, seeds: seq<SeedUnits>, i: nat, who: Who)
    requires !b.formed && b.funds == map[] && b.holdings == map[] && b.order == [] && i < |fs|
    requires forall j, k :: 0 <= j < k < |fs| ==> fs[j].id != fs[k].id
    requires AllKnown(seeds, AddFunds(b, fs).funds.Keys)
    ensures var (c, ok) := Step(b, Forming(fs, moves, seeds));
            && ok && c.formed && c.seedMoves == moves && |c.order| == |fs| && c.order[i] == fs[i].id && fs[i].id in c.funds
            && (var f := c.funds[fs[i].id];
                && f.formed == fs[i].(trader := if fs[i].trader == "" then fs[i].first else fs[i].trader)
                && f.units == f.seed == UnitsOf(seeds, fs[i].id) && f.minted == f.redeemed == 0.0
                && f.hwm == f.peak == b.launch && f.maxFall == 0.0 && !f.disqualified && f.feePct == 0.0 && f.aumSum == 0.0 && f.aumN == 0)
            && HoldingOf(c, who) == Holding(UnitsFor(seeds, who), AmountFor(seeds, who), 0, Seeded(seeds, who))
  {
    FundsTell(b, fs, i);
    var d := AddFunds(b, fs).(formed := true, seedMoves := moves);
    SeedsKnownIff(d, seeds);
    SeededFund(d, seeds, fs[i], b.launch);
    SeedsHolder(d, seeds, who);
  }
}

/** The equal-cap rule: the mandatory pool is split equally, and a fund that has filled its share waits
    until every active fund has. */
module AllocationCaps {
  import opened Numeric

  const MAX_INT64 := 0x7fff_ffff_ffff_ffff

  datatype CapFund = CapFund(id: string, headcount: int, inflow: int, active: bool)

  datatype CapState = CapState(id: string, tranche: int, allowance: int, room: int)

  /** The split: the pool, over how many funds, of what size, and the smallest ticket. */
  datatype Split = Split(pool: int, fundCount: int, standard: int, minTicket: int)

  predicate Divides(w: Split) { w.fundCount * w.standard > 0 }

  function Tranche(f: CapFund, w: Split): int
    requires Divides(w)
  {
    TDiv(w.pool * f.headcount, w.fundCount * w.standard)
  }

  /** A fund this much short of its share counts as having filled it. */
  function Tolerance(w: Split): int { Max(w.minTicket - 1, 0) }

  function Filled(f: CapFund, w: Split): int
    requires Divides(w) && Tranche(f, w) > 0
  {
    TDiv(f.inflow + Tolerance(w), Tranche(f, w))
  }

  predicate SomeActive(fs: seq<CapFund>) { exists i :: 0 <= i < |fs| && fs[i].active }

  predicate SomeUncapped(fs: seq<CapFund>, w: Split)
    requires Divides(w)
  {
    exists i :: 0 <= i < |fs| && fs[i].active && Tranche(fs[i], w) <= 0
  }

  /** One above the fewest whole tranches that any active fund has filled. */
  ghost predicate IsLevel(level: int, fs: seq<CapFund>, w: Split)
    requires Divides(w)
  {
    if !SomeActive(fs) || SomeUncapped(fs, w) then level == 1
    else
      && (forall i :: 0 <= i < |fs| && fs[i].active ==> Filled(fs[i], w) >= level - 1)
      && (exists i :: 0 <= i < |fs| && fs[i].active && Filled(fs[i], w) == level - 1)
  }

  /** How much more the fund may take at this level. */
  function Room(f: CapFund, w: Split, level: int): int
    requires Divides(w)
  {
    if !f.active then 0
    else if Tranche(f, w) <= 0 then MAX_INT64
    else Max(0, level * Tranche(f, w) - f.inflow)
  }

  /** Amounts the source can represent. */
  predicate Representable(fs: seq<CapFund>, w: Split) {
    forall i :: 0 <= i < |fs| ==> 0 <= fs[i].inflow && fs[i].inflow + Tolerance(w) < MAX_INT64
  }

  method Caps(fs: seq<CapFund>, w: Split) returns (level: int, states: seq<CapState>)
    requires Divides(w) && Representable(fs, w)
    ensures IsLevel(level, fs, w) && level >= 1
    ensures |states| == |fs|
    ensures forall i :: 0 <= i < |fs| ==>
              states[i].id == fs[i].id && states[i].tranche == Tranche(fs[i], w) && states[i].room == Room(fs[i], w, level)
  {
    level := FindLevel(fs, w);
    states := [];
    for i := 0 to |fs|
      invariant |states| == i
      invariant forall k :: 0 <= k < i ==>
                  states[k].id == fs[k].id && states[k].tranche == Tranche(fs[k], w) && states[k].room == Room(fs[k], w, level)
    {
      var f := fs[i];
      var t := Tranche(f, w);
      var st := CapState(f.id, t, 0, 0);
      if f.active {
        if t <= 0 {
          st := st.(allowance := MAX_INT64, room := MAX_INT64);
        } else {
          st := st.(allowance := level * t);
          if st.allowance > f.inflow { st := st.(room := st.allowance - f.inflow); }
        }
      }
      states := states + [st];
    }
  }

  method FindLevel(fs: seq<CapFund>, w: Split) returns (level: int)
    requires Divides(w) && Representable(fs, w)
    ensures IsLevel(level, fs, w) && level >= 1
  {
    var any := false;
    var minFilled := MAX_INT64;
    for i := 0 to |fs|
      invariant any <==> exists k :: 0 <= k < i && fs[k].active
      invariant !SomeUncapped(fs[..i], w)
      invariant 0 <= minFilled <= MAX_INT64
      invariant forall k :: 0 <= k < i && fs[k].active ==> Tranche(fs[k], w) > 0 && Filled(fs[k], w) >= minFilled
      invariant any ==> exists k :: 0 <= k < i && fs[k].active && Filled(fs[k], w) == minFilled
      invariant !any ==> minFilled == MAX_INT64
    {
      if fs[i].active {
        var t := Tranche(fs[i], w);
        if t <= 0 { return 1; }
        FilledRange(fs[i], w);
        any := true;
        var filled := TDiv(fs[i].inflow + Tolerance(w), t);
        if filled < minFilled { minFilled := filled; }
      }
    }
    level := if any then minFilled + 1 else 1;
  }

  lemma FilledRange(f: CapFund, w: Split)
    requires Divides(w) && Tranche(f, w) > 0 && 0 <= f.inflow && f.inflow + Tolerance(w) < MAX_INT64
    ensures 0 <= Filled(f, w) < MAX_INT64
  {
    var n, t := f.inflow + Tolerance(w), Tranche(f, w);
    DivRange(n, t);
    if n / t < 0 { MulMono(n / t, -1, t); }
    if n / t > n { MulMono(n + 1, n / t, t); MulMono(1, t, n + 1); }
  }

  /** What it takes to count as having filled k tranches. */
  lemma FilledMeans(f: CapFund, w: Split, k: int)
    requires Divides(w) && Tranche(f, w) > 0 && 0 <= f.inflow
    ensures Filled(f, w) >= k <==> f.inflow + Tolerance(w) >= k * Tranche(f, w)
  {
    var n, t := f.inflow + Tolerance(w), Tranche(f, w);
    DivRange(n, t);
    if n / t >= k {
      MulMono(k, n / t, t);
    } else {
      MulMono(n / t + 1, k, t);
    }
  }

  /** A fund's share is its part of the pool by headcount, rounded down. Full funds of the standard size share it
      equally, and together they get no more than there is and leave less than a paisa each. */
  lemma TrancheShares(f: CapFund, w: Split)
    requires Divides(w) && w.pool * f.headcount >= 0
    ensures var parts := w.fundCount * w.standard;
            Tranche(f, w) * parts <= w.pool * f.headcount < Tranche(f, w) * parts + parts
    ensures f.headcount == w.standard > 0 ==> Tranche(f, w) * w.fundCount <= w.pool < Tranche(f, w) * w.fundCount + w.fundCount
  {
    var t, n, k := Tranche(f, w), w.fundCount, w.standard;
    DivRange(w.pool * f.headcount, n * k);
    if f.headcount == k > 0 {
      assert t * (n * k) == t * n * k && t * (n * k) + n * k == (t * n + n) * k;
      LessByFactor(t * n, w.pool, k);
      if w.pool >= t * n + n { MulMono(t * n + n, w.pool, k); }
    }
  }

  /** It counts as having taken k shares exactly when less than the smallest ticket is missing. */
  lemma FilledWithinTicket(f: CapFund, w: Split, k: int)
    requires Divides(w) && Tranche(f, w) > 0 && 0 <= f.inflow
    ensures Filled(f, w) >= k <==> k * Tranche(f, w) - f.inflow < Max(w.minTicket, 1)
  {
    FilledMeans(f, w, k);
  }

  /** What a fund may take: nothing once it is disqualified, anything if the pool gives it no share, and otherwise up
      to level times its share. */
  lemma RoomMeans(f: CapFund, w: Split, level: int, amount: int)
    requires Divides(w) && 0 < amount <= MAX_INT64
    ensures amount <= Room(f, w, level) <==> f.active && (Tranche(f, w) <= 0 || f.inflow + amount <= level * Tranche(f, w))
  {
  }

  /** The rule never stalls: while there is an active fund, some active fund can take the smallest
      ticket. */
  lemma NeverStalls(fs: seq<CapFund>, w: Split, level: int)
    requires Divides(w) && Representable(fs, w) && IsLevel(level, fs, w) && SomeActive(fs) && w.minTicket <= MAX_INT64
    ensures exists i :: 0 <= i < |fs| && fs[i].active && Room(fs[i], w, level) >= Max(w.minTicket, 1)
  {
    if SomeUncapped(fs, w) {
      var i :| 0 <= i < |fs| && fs[i].active && Tranche(fs[i], w) <= 0;
      assert Room(fs[i], w, level) == MAX_INT64;
    } else {
      var i :| 0 <= i < |fs| && fs[i].active && Filled(fs[i], w) == level - 1;
      FilledMeans(fs[i], w, level);
      assert Room(fs[i], w, level) >= Max(w.minTicket, 1);
    }
  }

  // ---- one window, with a fixed pool and equal tranches ----

  datatype Step = Invest(i: nat, amount: int) | Disqualify(i: nat)

  predicate EqualTranches(fs: seq<CapFund>, w: Split, t: int)
    requires Divides(w)
  {
    t > 0 && forall i :: 0 <= i < |fs| ==> Tranche(fs[i], w) == t
  }

  /** An investment is accepted only within the fund's room. */
  ghost predicate Next(fs: seq<CapFund>, e: Step, gs: seq<CapFund>, w: Split)
    requires Divides(w)
  {
    e.i < |fs| &&
    match e
    case Invest(i, amount) =>
      && 0 < amount && fs[i].active && gs == fs[i := fs[i].(inflow := fs[i].inflow + amount)]
      && exists level :: IsLevel(level, fs, w) && amount <= Room(fs[i], w, level)
    case Disqualify(i) => gs == fs[i := fs[i].(active := false)]
  }

  ghost predicate Within(fs: seq<CapFund>, w: Split, level: int, t: int) {
    forall i :: 0 <= i < |fs| ==> 0 <= fs[i].inflow && (fs[i].active ==> fs[i].inflow <= level * t)
  }

  lemma LevelUnique(fs: seq<CapFund>, w: Split, a: int, b: int)
    requires Divides(w) && IsLevel(a, fs, w) && IsLevel(b, fs, w)
    ensures a == b
  {
  }

  /** A fund that is still active after the step has filled no less than before. */
  lemma LevelRises(fs: seq<CapFund>, e: Step, gs: seq<CapFund>, w: Split, t: int, level: int, level': int)
    requires Divides(w) && EqualTranches(fs, w, t) && Next(fs, e, gs, w) && SomeActive(gs)
    requires Within(fs, w, level, t) && IsLevel(level, fs, w) && IsLevel(level', gs, w)
    ensures level <= level'
  {
    assert forall i :: 0 <= i < |gs| ==> Tranche(gs[i], w) == Tranche(fs[i], w) == t;
    assert !SomeUncapped(gs, w);
    var k :| 0 <= k < |gs| && gs[k].active && Filled(gs[k], w) == level' - 1;
    assert fs[k].active && fs[k].inflow <= gs[k].inflow;
    assert SomeActive(fs) && !SomeUncapped(fs, w);
    assert Filled(fs[k], w) >= level - 1;
    FilledMeans(fs[k], w, level - 1);
    FilledMeans(gs[k], w, level - 1);
  }

  /** One accepted step: the level does not fall while a fund is active, and no active fund is above it. */
  lemma StepKeeps(fs: seq<CapFund>, e: Step, gs: seq<CapFund>, w: Split, t: int, level: int, level': int)
    requires Divides(w) && EqualTranches(fs, w, t) && Next(fs, e, gs, w)
    requires Within(fs, w, level, t) && IsLevel(level, fs, w) && IsLevel(level', gs, w)
    ensures EqualTranches(gs, w, t)
    ensures SomeActive(gs) ==> level <= level'
    ensures Within(gs, w, level', t)
  {
    assert forall i :: 0 <= i < |gs| ==> Tranche(gs[i], w) == Tranche(fs[i], w);
    if SomeActive(gs) { LevelRises(fs, e, gs, w, t, level, level'); }
    forall i | 0 <= i < |gs|
      ensures 0 <= gs[i].inflow && (gs[i].active ==> gs[i].inflow <= level' * t)
    {
      if gs[i].active {
        assert fs[i].active && SomeActive(gs);
        if e.Invest? && e.i == i {
          var l :| IsLevel(l, fs, w) && e.amount <= Room(fs[i], w, l);
          LevelUnique(fs, w, l, level);
        }
        assert gs[i].inflow <= level * t;
        MulMono(level, level', t);
      }
    }
  }

  ghost predicate Behaviour(run: seq<seq<CapFund>>, steps: seq<Step>, levels: seq<int>, w: Split, t: int)
    requires Divides(w)
  {
    && |run| == |levels| == |steps| + 1
    && EqualTranches(run[0], w, t) && (forall i :: 0 <= i < |run[0]| ==> run[0][i].inflow == 0)
    && (forall i :: 0 <= i < |run| ==> IsLevel(levels[i], run[i], w))
    && (forall i :: 0 <= i < |steps| ==> Next(run[i], steps[i], run[i + 1], w))
  }

  lemma FirstLevel(fs: seq<CapFund>, w: Split, t: int, level: int)
    requires Divides(w) && EqualTranches(fs, w, t) && IsLevel(level, fs, w)
    requires forall i :: 0 <= i < |fs| ==> fs[i].inflow == 0
    ensures level >= 1
  {
    if SomeActive(fs) && !SomeUncapped(fs, w) {
      var k :| 0 <= k < |fs| && fs[k].active && Filled(fs[k], w) == level - 1;
      FilledMeans(fs[k], w, 0);
    }
  }

  lemma {:induction false} AlwaysWithin(run: seq<seq<CapFund>>, steps: seq<Step>, levels: seq<int>, w: Split, t: int, i: nat)
    requires Divides(w) && Behaviour(run, steps, levels, w, t) && i < |run|
    ensures EqualTranches(run[i], w, t) && Within(run[i], w, levels[i], t)
  {
    if i == 0 {
      FirstLevel(run[0], w, t, levels[0]);
      MulMono(0, levels[0], t);
    } else {
      AlwaysWithin(run, steps, levels, w, t, i - 1);
      StepKeeps(run[i - 1], steps[i - 1], run[i], w, t, levels[i - 1], levels[i]);
    }
  }

  lemma {:induction false} ActiveBefore(run: seq<seq<CapFund>>, steps: seq<Step>, levels: seq<int>, w: Split, t: int, i: nat, j: nat)
    requires Divides(w) && Behaviour(run, steps, levels, w, t) && i <= j < |run| && SomeActive(run[j])
    ensures SomeActive(run[i])
    decreases j
  {
    if i < j {
      var k :| 0 <= k < |run[j]| && run[j][k].active;
      assert Next(run[j - 1], steps[j - 1], run[j], w) && run[j - 1][k].active;
      ActiveBefore(run, steps, levels, w, t, i, j - 1);
    }
  }

  /** Along any window: while some fund is active the level never falls, and no fund is ever above level
      times tranche. */
  lemma {:induction false} LevelNeverFalls(run: seq<seq<CapFund>>, steps: seq<Step>, levels: seq<int>, w: Split, t: int, i: nat, j: nat)
    requires Divides(w) && Behaviour(run, steps, levels, w, t) && i <= j < |run| && SomeActive(run[j])
    ensures levels[i] <= levels[j]
    ensures forall k :: 0 <= k < |run[i]| && run[i][k].active ==> run[i][k].inflow <= levels[i] * t
    decreases j
  {
    AlwaysWithin(run, steps, levels, w, t, i);
    if i < j {
      ActiveBefore(run, steps, levels, w, t, j - 1, j);
      LevelNeverFalls(run, steps, levels, w, t, i, j - 1);
      AlwaysWithin(run, steps, levels, w, t, j - 1);
      StepKeeps(run[j - 1], steps[j - 1], run[j], w, t, levels[j - 1], levels[j]);
    }
  }

  lemma Apart(fs: seq<CapFund>, w: Split, t: int, level: int, a: nat, b: nat)
    requires Divides(w) && EqualTranches(fs, w, t) && IsLevel(level, fs, w) && Within(fs, w, level, t)
    requires a < |fs| && b < |fs| && fs[a].active && fs[b].active
    ensures fs[a].inflow - fs[b].inflow <= t + Tolerance(w)
  {
    assert SomeActive(fs) && !SomeUncapped(fs, w);
    FilledMeans(fs[b], w, level - 1);
    OneLess(level, t);
  }

  lemma OneLess(k: int, t: int)
    ensures (k - 1) * t == k * t - t
  {
  }

  /** Any two active funds are within one tranche and a ticket of each other. */
  lemma Fair(run: seq<seq<CapFund>>, steps: seq<Step>, levels: seq<int>, w: Split, t: int, i: nat, a: nat, b: nat)
    requires Divides(w) && Behaviour(run, steps, levels, w, t) && i < |run| && a < |run[i]| && b < |run[i]|
    requires run[i][a].active && run[i][b].active
    ensures run[i][a].inflow - run[i][b].inflow <= t + Tolerance(w)
  {
    AlwaysWithin(run, steps, levels, w, t, i);
    Apart(run[i], w, t, levels[i], a, b);
  }

  /** The level falls in a step exactly when the step disqualifies the last active fund of a window that
      had risen: it is then reported as 1 again. */
  lemma LevelFallsIff(fs: seq<CapFund>, e: Step, gs: seq<CapFund>, w: Split, t: int, level: int, level': int)
    requires Divides(w) && EqualTranches(fs, w, t) && Next(fs, e, gs, w)
    requires Within(fs, w, level, t) && IsLevel(level, fs, w) && IsLevel(level', gs, w)
    ensures level' < level <==> !SomeActive(gs) && level > 1
  {
    if SomeActive(gs) { LevelRises(fs, e, gs, w, t, level, level'); }
  }

  /** One fund of 100 has taken its share of 100, so the level is 2; disqualifying it takes the level back to 1. */
  lemma LevelFallsBack()
    ensures var w, fund := Split(100, 1, 1, 1), CapFund("F1", 1, 100, true);
            && Divides(w) && IsLevel(2, [fund], w)
            && Next([fund], Disqualify(0), [fund.(active := false)], w) && IsLevel(1, [fund.(active := false)], w)
  {
    var w, fund := Split(100, 1, 1, 1), CapFund("F1", 1, 100, true);
    assert [fund][0].active && Filled(fund, w) == 1;
    assert [fund][0 := fund.(active := false)] == [fund.(active := false)];
  }

  // ---- the amounts around it ----

  function Percent(amount: int, pct: real): int { Round(amount as real * pct / 100.0) }

  lemma PercentMeans(amount: int, pct: real)
    ensures -50.0 <= Percent(amount, pct) as real * 100.0 - amount as real * pct <= 50.0
  {
    RoundsToNearest(amount as real * pct / 100.0);
  }

  /** The lower of the absolute floor and the share of the wallet. */
  function MinInvestment(wallet: int, absolute: int, pct: real): (m: int)
    ensures m <= absolute && m <= Percent(wallet, pct) && (m == absolute || m == Percent(wallet, pct))
  {
    if Percent(wallet, pct) < absolute then Percent(wallet, pct) else absolute
  }

  function TotalOf(values: seq<int>): int { if values == [] then 0 else TotalOf(values[..|values| - 1]) + values[|values| - 1] }

  /** The mandatory share of everything: rounded once, at the end. */
  method MandatoryPool(values: seq<int>, pct: real) returns (pool: int)
    ensures pool == Percent(TotalOf(values), pct)
  {
    var total := 0.0;
    for i := 0 to |values|
      invariant total == TotalOf(values[..i]) as real * pct / 100.0
    {
      assert values[..i + 1][..i] == values[..i];
      PercentAdds(TotalOf(values[..i]), values[i], pct);
      total := total + values[i] as real * pct / 100.0;
    }
    assert values[..|values|] == values;
    pool := Round(total);
  }

  lemma PercentAdds(a: int, b: int, pct: real)
    ensures (a + b) as real * pct / 100.0 == a as real * pct / 100.0 + b as real * pct / 100.0
  {
    RDistribute(a as real, b as real, pct);
  }
}

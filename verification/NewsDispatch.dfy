/** Delivering news to two feeds: fund managers first, everyone else after a head start that only counts
    while the event is running. Times are milliseconds. */
module NewsDispatch {
  import opened Numeric
  import opened Options

  datatype Feed = Managers | Public

  datatype Item = Item(id: string, news: bool, headline: string)

  /** When each feed got the item. */
  datatype Release = Release(item: Item, managersAt: Option<int>, publicAt: Option<int>)

  datatype Sent = Sent(feed: Feed, id: string, at: int)

  const HOLD_STEP := 250
  const SECOND := 1000

  // ---- one delivery ----

  function AtFeed(r: Release, feed: Feed): Option<int> { if feed == Managers then r.managersAt else r.publicAt }

  function Stamp(r: Release, feed: Feed, at: int): Release {
    if AtFeed(r, feed).Some? then r
    else if feed == Managers then r.(managersAt := Some(at)) else r.(publicAt := Some(at))
  }

  function Find(rs: seq<Release>, id: string): (i: int)
    ensures -1 <= i < |rs|
  {
    if rs == [] then -1 else if rs[|rs| - 1].item.id == id then |rs| - 1 else Find(rs[..|rs| - 1], id)
  }

  lemma {:induction false} FindIs(rs: seq<Release>, id: string)
    ensures Find(rs, id) >= 0 ==> rs[Find(rs, id)].item.id == id
    ensures Find(rs, id) == -1 ==> forall i :: 0 <= i < |rs| ==> rs[i].item.id != id
  {
    if rs != [] { FindIs(rs[..|rs| - 1], id); }
  }

  /** The release log after a delivery, and what was sent: nothing if the item is unknown or the feed has it. */
  function Delivered(rs: seq<Release>, feed: Feed, id: string, at: int): (seq<Release>, seq<Sent>) {
    var i := Find(rs, id);
    FindIs(rs, id);
    if i < 0 || AtFeed(rs[i], feed).Some? then (rs, [])
    else (rs[i := Stamp(rs[i], feed, at)], [Sent(feed, id, at)])
  }

  // ---- everything in flight ----

  datatype Plan = Publishing | Recovering(was: Option<int>, out: bool)

  /** Where the handling of one item stands. `ran` is the waiting counted so far, `total` what must be waited. */
  datatype Task =
    | ToManagers(plan: Plan)
    | Decide(plan: Plan)
    | Count(left: int, ran: int, total: int)              // about to look at the clock
    | Sleep(left: int, wait: int, ran: int, total: int)   // a timer runs
    | ToPublic(ran: int, total: int)
    | Done

  /** The head start, and whether pauses are known at all. */
  datatype Config = Config(lead: int, knowsPauses: bool)

  datatype State = State(now: int, releases: seq<Release>, tasks: map<string, Task>, cancels: set<string>, sent: seq<Sent>,
                         staggered: map<string, int>)

  datatype Event =
    | Publish(item: Item, now: int)
    | Recover(log: seq<Release>, now: int)
    | SendManagers(id: string, now: int)
    | Choose(id: string, tiered: bool, held: bool, now: int)
    | Look(id: string, held: bool, stillHeld: bool)
    | Wake(id: string, held: bool)
    | SendPublic(id: string, now: int)
    | Stop

  function Schedule(c: Config, after: int, held: bool): Task {
    if after <= 0 && !(c.knowsPauses && held) then ToPublic(0, after)
    else if !c.knowsPauses then Sleep(after, after, 0, after)
    else Count(after, 0, after)
  }

  function Wait(left: int, held: bool): int {
    if held then SECOND else if Min(Max(left, 0), HOLD_STEP) <= 0 then HOLD_STEP else Min(Max(left, 0), HOLD_STEP)
  }

  function Chosen(c: Config, plan: Plan, tiered: bool, held: bool, now: int): Task {
    match plan
    case Publishing => if !tiered then ToPublic(0, 0) else Schedule(c, c.lead, held)
    case Recovering(was, out) =>
      if out then Done
      else Schedule(c, if was.None? || !tiered then 0 else was.value + c.lead - now, held)
  }

  /** How long a staggered item still has to be kept from the public: the head start, or after a restart what is left
      of it since the fund managers got the item. */
  function Owed(c: Config, plan: Plan, now: int): Option<int> {
    match plan
    case Publishing => Some(c.lead)
    case Recovering(was, out) => if was.Some? && !out then Some(was.value + c.lead - now) else None
  }

  function Looked(t: Task, held: bool, stillHeld: bool): Task
    requires t.Count?
  {
    if t.left <= 0 && !held then ToPublic(t.ran, t.total) else Sleep(t.left, Wait(t.left, stillHeld), t.ran, t.total)
  }

  /** A timer has fired. */
  function Woken(c: Config, t: Task, pending: bool, held: bool): Task
    requires t.Sleep?
  {
    if !c.knowsPauses then ToPublic(t.ran + t.wait, t.total)
    else if !pending then Done
    else if held then Count(t.left, t.ran, t.total)
    else Count(t.left - t.wait, t.ran + t.wait, t.total)
  }

  function Ids(rs: seq<Release>): set<string> { set i | 0 <= i < |rs| :: rs[i].item.id }

  predicate Unique(rs: seq<Release>) { forall i, j :: 0 <= i < j < |rs| ==> rs[i].item.id != rs[j].item.id }

  function Recovery(r: Release): Task {
    if r.managersAt.None? then ToManagers(Recovering(None, r.publicAt.Some?)) else Decide(Recovering(r.managersAt, r.publicAt.Some?))
  }

  function Recoveries(log: seq<Release>): map<string, Task> {
    if log == [] then map[] else Recoveries(log[..|log| - 1])[log[|log| - 1].item.id := Recovery(log[|log| - 1])]
  }

  predicate Can(s: State, e: Event) {
    match e
    case Publish(item, now) => item.id !in Ids(s.releases) && item.id !in s.tasks && now >= s.now
    case Recover(log, now) => Unique(log) && Ids(log) !! Ids(s.releases) && Ids(log) !! s.tasks.Keys && now >= s.now
                              && forall i :: 0 <= i < |log| ==> RightOrder(log[i], now)
    case SendManagers(id, now) => id in s.tasks && s.tasks[id].ToManagers? && now >= s.now
    case Choose(id, _, _, now) => id in s.tasks && s.tasks[id].Decide? && now >= s.now
    case Look(id, _, _) => id in s.tasks && s.tasks[id].Count?
    case Wake(id, _) => id in s.tasks && s.tasks[id].Sleep?
    case SendPublic(id, now) => id in s.tasks && s.tasks[id].ToPublic? && now >= s.now
    case Stop => true
  }

  function Step(c: Config, s: State, e: Event): State
    requires Can(s, e)
  {
    match e
    case Publish(item, now) =>
      s.(now := now, releases := s.releases + [Release(item, None, None)], tasks := s.tasks[item.id := ToManagers(Publishing)])
    case Recover(log, now) => s.(now := now, releases := s.releases + log, tasks := s.tasks + Recoveries(log))
    case SendManagers(id, now) =>
      var d := Delivered(s.releases, Managers, id, now);
      s.(now := now, releases := d.0, sent := s.sent + d.1, tasks := s.tasks[id := Decide(s.tasks[id].plan)])
    case Choose(id, tiered, held, now) =>
      var t := Chosen(c, s.tasks[id].plan, tiered, held, now);
      s.(now := now, tasks := s.tasks[id := t], cancels := if t.Sleep? then s.cancels + {id} else s.cancels,
         staggered := if tiered && Owed(c, s.tasks[id].plan, now).Some? then s.staggered[id := Owed(c, s.tasks[id].plan, now).value] else s.staggered)
    case Look(id, held, stillHeld) =>
      var t := Looked(s.tasks[id], held, stillHeld);
      s.(tasks := s.tasks[id := t], cancels := if t.Sleep? then s.cancels + {id} else s.cancels - {id})
    case Wake(id, held) =>
      var t := Woken(c, s.tasks[id], id in s.cancels, held);
      s.(tasks := s.tasks[id := t], cancels := if t.ToPublic? then s.cancels - {id} else s.cancels)
    case SendPublic(id, now) =>
      var d := Delivered(s.releases, Public, id, now);
      s.(now := now, releases := d.0, sent := s.sent + d.1, tasks := s.tasks[id := Done])
    case Stop => s.(cancels := {})
  }

  // ---- what always holds ----

  /** Nobody in public gets an item before the fund managers do. */
  predicate RightOrder(r: Release, now: int) {
    && (r.publicAt.Some? ==> r.managersAt.Some? && r.managersAt.value <= r.publicAt.value <= now)
    && (r.managersAt.Some? ==> r.managersAt.value <= now)
  }

  /** The counting adds up, and an item on its way to the public has waited for all of it. */
  predicate Counted(t: Task) {
    match t
    case Count(left, ran, total) => left + ran == total
    case Sleep(left, wait, ran, total) => left + ran == total && wait > 0
    case ToPublic(ran, total) => ran >= total
    case _ => true
  }

  ghost predicate TaskFine(c: Config, s: State, id: string, t: Task) {
    var i := Find(s.releases, id);
    && Counted(t)
    && (!c.knowsPauses ==> !t.Count? && (t.Sleep? ==> t.wait == t.left))
    && i >= 0 && (!t.ToManagers? ==> s.releases[i].managersAt.Some?)
    && (id in s.staggered ==> !t.ToManagers? && !t.Decide?)
    && (id in s.staggered && (t.Count? || t.Sleep? || t.ToPublic?) ==> t.total == s.staggered[id])
  }

  ghost predicate Inv(c: Config, s: State) {
    && Unique(s.releases)
    && (forall i :: 0 <= i < |s.releases| ==> RightOrder(s.releases[i], s.now))
    && (forall id :: id in s.tasks ==> TaskFine(c, s, id, s.tasks[id]))
    && s.staggered.Keys <= s.tasks.Keys <= Ids(s.releases)
    && SentFine(s.releases, s.sent)
  }

  /** What was sent: each item at most once to each feed, at the time the release log has. */
  ghost predicate SentFine(rs: seq<Release>, sent: seq<Sent>) {
    && (forall i, j :: 0 <= i < j < |sent| ==> !(sent[i].feed == sent[j].feed && sent[i].id == sent[j].id))
    && (forall i :: 0 <= i < |sent| ==> Logged(rs, sent[i]))
  }

  ghost predicate Logged(rs: seq<Release>, x: Sent) {
    exists k :: 0 <= k < |rs| && rs[k].item.id == x.id && AtFeed(rs[k], x.feed) == Some(x.at)
  }

  lemma FindUnique(rs: seq<Release>, k: nat)
    requires Unique(rs) && k < |rs|
    ensures Find(rs, rs[k].item.id) == k
  {
    FindIs(rs, rs[k].item.id);
  }

  /** A delivery stamps one release, keeps the order of the feeds, and is logged once. */
  lemma DeliveryKeeps(rs: seq<Release>, feed: Feed, id: string, at: int, now: int, sent: seq<Sent>)
    requires Unique(rs) && SentFine(rs, sent) && now <= at
    requires forall i :: 0 <= i < |rs| ==> RightOrder(rs[i], now)
    requires feed == Public ==> Find(rs, id) >= 0 ==> rs[Find(rs, id)].managersAt.Some?
    ensures var d := Delivered(rs, feed, id, at);
            && Unique(d.0) && Ids(d.0) == Ids(rs) && |d.0| == |rs|
            && (forall i :: 0 <= i < |d.0| ==> RightOrder(d.0[i], at))
            && (forall i :: 0 <= i < |d.0| ==> d.0[i].item == rs[i].item && (rs[i].managersAt.Some? ==> d.0[i].managersAt.Some?))
            && (feed == Managers && Find(rs, id) >= 0 ==> d.0[Find(rs, id)].managersAt.Some?)
            && SentFine(d.0, sent + d.1)
  {
    FindIs(rs, id);
    var d := Delivered(rs, feed, id, at);
    assert forall i :: 0 <= i < |d.0| ==> d.0[i].item == rs[i].item;
    assert Ids(d.0) == Ids(rs) by {
      forall x
        ensures x in Ids(d.0) <==> x in Ids(rs)
      {
        if x in Ids(rs) { var i :| 0 <= i < |rs| && rs[i].item.id == x; assert d.0[i].item.id == x; }
        if x in Ids(d.0) { var i :| 0 <= i < |d.0| && d.0[i].item.id == x; assert rs[i].item.id == x; }
      }
    }
    SentKeeps(rs, feed, id, at, sent);
  }

  lemma SentKeeps(rs: seq<Release>, feed: Feed, id: string, at: int, sent: seq<Sent>)
    requires Unique(rs) && SentFine(rs, sent)
    ensures SentFine(Delivered(rs, feed, id, at).0, sent + Delivered(rs, feed, id, at).1)
  {
    FindIs(rs, id);
    var d := Delivered(rs, feed, id, at);
    var all, k := sent + d.1, Find(rs, id);
    forall i | 0 <= i < |all|
      ensures Logged(d.0, all[i])
    {
      if i < |sent| {
        assert Logged(rs, sent[i]);
        var m :| 0 <= m < |rs| && rs[m].item.id == sent[i].id && AtFeed(rs[m], sent[i].feed) == Some(sent[i].at);
        assert d.0[m].item.id == sent[i].id && AtFeed(d.0[m], sent[i].feed) == Some(sent[i].at);
      } else {
        assert d.0[k].item.id == id && AtFeed(d.0[k], feed) == Some(at);
      }
    }
    if d.1 != [] {
      forall i | 0 <= i < |sent|
        ensures !(sent[i].feed == feed && sent[i].id == id)
      {
        assert Logged(rs, sent[i]);
        var m :| 0 <= m < |rs| && rs[m].item.id == sent[i].id && AtFeed(rs[m], sent[i].feed) == Some(sent[i].at);
      }
    }
  }

  lemma {:induction false} FindMore(rs: seq<Release>, more: seq<Release>, id: string)
    requires id !in Ids(more)
    ensures Find(rs + more, id) == Find(rs, id)
    decreases |more|
  {
    if more == [] {
      assert rs + more == rs;
    } else {
      var last := more[|more| - 1];
      assert last.item.id in Ids(more);
      assert (rs + more)[..|rs + more| - 1] == rs + more[..|more| - 1];
      forall x | x in Ids(more[..|more| - 1])
        ensures x in Ids(more)
      {
        var i :| 0 <= i < |more| - 1 && more[..|more| - 1][i].item.id == x;
        assert more[i].item.id == x;
      }
      FindMore(rs, more[..|more| - 1], id);
    }
  }

  lemma InIds(rs: seq<Release>, id: string)
    ensures id in Ids(rs) <==> Find(rs, id) >= 0
  {
    FindIs(rs, id);
  }

  /** New releases join the log. */
  lemma MoreReleases(c: Config, s: State, more: seq<Release>, now: int)
    requires Inv(c, s) && now >= s.now && Unique(more) && Ids(more) !! Ids(s.releases)
    requires forall i :: 0 <= i < |more| ==> RightOrder(more[i], now)
    ensures Inv(c, s.(now := now, releases := s.releases + more))
  {
    var n := s.(now := now, releases := s.releases + more);
    forall i, j | 0 <= i < j < |n.releases|
      ensures n.releases[i].item.id != n.releases[j].item.id
    {
      if i < |s.releases| && j >= |s.releases| {
        assert s.releases[i].item.id in Ids(s.releases) && more[j - |s.releases|].item.id in Ids(more);
      }
    }
    forall i | 0 <= i < |n.releases|
      ensures RightOrder(n.releases[i], now)
    {
      if i < |s.releases| { assert RightOrder(s.releases[i], s.now); }
    }
    forall id | id in n.tasks
      ensures TaskFine(c, n, id, n.tasks[id])
    {
      assert TaskFine(c, s, id, s.tasks[id]) && id in Ids(s.releases);
      FindMore(s.releases, more, id);
    }
    IdsGrow(s.releases, more);
    forall i | 0 <= i < |s.sent|
      ensures Logged(n.releases, s.sent[i])
    {
      assert Logged(s.releases, s.sent[i]);
      var k :| 0 <= k < |s.releases| && s.releases[k].item.id == s.sent[i].id && AtFeed(s.releases[k], s.sent[i].feed) == Some(s.sent[i].at);
      assert n.releases[k] == s.releases[k];
    }
  }

  lemma IdsGrow(a: seq<Release>, b: seq<Release>)
    ensures Ids(a + b) == Ids(a) + Ids(b)
  {
    forall x
      ensures x in Ids(a + b) <==> x in Ids(a) || x in Ids(b)
    {
      if x in Ids(a) { var i :| 0 <= i < |a| && a[i].item.id == x; assert (a + b)[i].item.id == x; }
      if x in Ids(b) { var i :| 0 <= i < |b| && b[i].item.id == x; assert (a + b)[|a| + i].item.id == x; }
      if x in Ids(a + b) {
        var i :| 0 <= i < |a + b| && (a + b)[i].item.id == x;
        if i < |a| { assert a[i].item.id == x; } else { assert b[i - |a|].item.id == x; }
      }
    }
  }

  /** One task moves on. */
  lemma TaskMoves(c: Config, s: State, id: string, t: Task, cancels: set<string>, staggered: map<string, int>)
    requires Inv(c, s) && id in Ids(s.releases) && staggered.Keys <= s.staggered.Keys + {id}
    requires forall x :: x in staggered && x != id ==> x in s.staggered && staggered[x] == s.staggered[x]
    requires forall x :: x in s.staggered && x != id ==> x in staggered
    requires TaskFine(c, s.(staggered := staggered), id, t)
    ensures Inv(c, s.(tasks := s.tasks[id := t], cancels := cancels, staggered := staggered))
  {
    var n := s.(tasks := s.tasks[id := t], cancels := cancels, staggered := staggered);
    forall x | x in n.tasks
      ensures TaskFine(c, n, x, n.tasks[x])
    {
      if x != id { assert TaskFine(c, s, x, s.tasks[x]); }
    }
  }

  lemma OnlyId(rs: seq<Release>)
    requires |rs| == 1
    ensures Ids(rs) == {rs[0].item.id}
  {
    assert rs[0].item.id in Ids(rs);
  }

  lemma PublishKeeps(c: Config, s: State, item: Item, now: int)
    requires Inv(c, s) && Can(s, Publish(item, now))
    ensures Inv(c, Step(c, s, Publish(item, now)))
  {
    var more := [Release(item, None, None)];
    OnlyId(more);
    MoreReleases(c, s, more, now);
    IdsGrow(s.releases, more);
    var n := s.(now := now, releases := s.releases + more);
    InIds(n.releases, item.id);
    TaskMoves(c, n, item.id, ToManagers(Publishing), s.cancels, s.staggered);
  }

  lemma {:induction false} RecoveriesAre(log: seq<Release>)
    requires Unique(log)
    ensures Recoveries(log).Keys == Ids(log)
    ensures forall i :: 0 <= i < |log| ==> log[i].item.id in Recoveries(log) && Recoveries(log)[log[i].item.id] == Recovery(log[i])
  {
    if log != [] {
      var past, last := log[..|log| - 1], log[|log| - 1];
      RecoveriesAre(past);
      assert past + [last] == log;
      IdsGrow(past, [last]);
      OnlyId([last]);
      forall i | 0 <= i < |log|
        ensures log[i].item.id in Recoveries(log) && Recoveries(log)[log[i].item.id] == Recovery(log[i])
      {
        if i < |past| { assert past[i] == log[i]; }
      }
    }
  }

  lemma RecoverKeeps(c: Config, s: State, log: seq<Release>, now: int)
    requires Inv(c, s) && Can(s, Recover(log, now))
    ensures Inv(c, Step(c, s, Recover(log, now)))
  {
    MoreReleases(c, s, log, now);
    RecoveriesAre(log);
    IdsGrow(s.releases, log);
    var m := s.(now := now, releases := s.releases + log);
    var n := Step(c, s, Recover(log, now));
    forall id | id in n.tasks
      ensures TaskFine(c, n, id, n.tasks[id])
    {
      if id in Ids(log) {
        RecoveredFine(c, s, log, now, id);
      } else {
        assert TaskFine(c, m, id, m.tasks[id]);
      }
    }
  }

  lemma RecoveredFine(c: Config, s: State, log: seq<Release>, now: int, id: string)
    requires Inv(c, s) && Can(s, Recover(log, now)) && id in Ids(log) && Unique(s.releases + log)
    ensures var n := Step(c, s, Recover(log, now)); id in n.tasks && TaskFine(c, n, id, n.tasks[id])
  {
    RecoveriesAre(log);
    var i :| 0 <= i < |log| && log[i].item.id == id;
    LaterFound(s.releases, log, i);
    NewTaskFine(c, Step(c, s, Recover(log, now)), |s.releases| + i);
  }

  lemma LaterFound(rs: seq<Release>, log: seq<Release>, i: nat)
    requires Unique(rs + log) && i < |log|
    ensures (rs + log)[|rs| + i] == log[i] && Find(rs + log, log[i].item.id) == |rs| + i
  {
    FindUnique(rs + log, |rs| + i);
  }

  /** A recovered item that nobody waits for is handled from where its release log stands. */
  lemma NewTaskFine(c: Config, n: State, k: nat)
    requires k < |n.releases| && Find(n.releases, n.releases[k].item.id) == k && n.releases[k].item.id !in n.staggered
    ensures TaskFine(c, n, n.releases[k].item.id, Recovery(n.releases[k]))
  {
  }

  lemma Delivering(c: Config, s: State, feed: Feed, id: string, at: int, t: Task)
    requires Inv(c, s) && id in s.tasks && at >= s.now
    requires feed == Public ==> !s.tasks[id].ToManagers?
    requires feed == Managers ==> s.tasks[id].ToManagers? && t == Decide(s.tasks[id].plan)
    requires feed == Public ==> t == Done
    ensures var d := Delivered(s.releases, feed, id, at);
            Inv(c, s.(now := at, releases := d.0, sent := s.sent + d.1, tasks := s.tasks[id := t]))
  {
    var d := Delivered(s.releases, feed, id, at);
    assert TaskFine(c, s, id, s.tasks[id]);
    DeliveryKeeps(s.releases, feed, id, at, s.now, s.sent);
    var n := s.(now := at, releases := d.0, sent := s.sent + d.1, tasks := s.tasks[id := t]);
    forall x | x in n.tasks
      ensures TaskFine(c, n, x, n.tasks[x])
    {
      TaskAfter(c, s, feed, id, at, x, n.tasks[x]);
    }
  }

  lemma TaskAfter(c: Config, s: State, feed: Feed, id: string, at: int, x: string, u: Task)
    requires Inv(c, s) && id in s.tasks && at >= s.now && x in s.tasks
    requires feed == Public ==> !s.tasks[id].ToManagers?
    requires if x != id then u == s.tasks[x] else if feed == Public then u == Done else s.tasks[id].ToManagers? && u == Decide(s.tasks[id].plan)
    ensures TaskFine(c, s.(releases := Delivered(s.releases, feed, id, at).0), x, u)
  {
    assert TaskFine(c, s, x, s.tasks[x]) && TaskFine(c, s, id, s.tasks[id]);
    DeliveryKeeps(s.releases, feed, id, at, s.now, s.sent);
    FindIs(s.releases, x);
    FindUnique(Delivered(s.releases, feed, id, at).0, Find(s.releases, x));
  }

  /** What the item owes once its handling is chosen, if it is staggered. */
  function Staggering(c: Config, s: State, id: string, tiered: bool, now: int): map<string, int>
    requires id in s.tasks && s.tasks[id].Decide?
  {
    var owed := Owed(c, s.tasks[id].plan, now);
    if tiered && owed.Some? then s.staggered[id := owed.value] else s.staggered
  }

  /** The counting of an item whose waiting begins. */
  predicate Begun(c: Config, t: Task) {
    && Counted(t) && !t.ToManagers? && !t.Decide?
    && (!c.knowsPauses ==> !t.Count? && (t.Sleep? ==> t.wait == t.left))
  }

  lemma ScheduleFine(c: Config, after: int, held: bool)
    ensures var t := Schedule(c, after, held); Begun(c, t) && !t.Done? && t.total == after
  {
  }

  lemma ChosenCounts(c: Config, plan: Plan, tiered: bool, held: bool, now: int)
    ensures var t := Chosen(c, plan, tiered, held, now);
            && Begun(c, t)
            && (tiered && Owed(c, plan, now).Some? ==> !t.Done? && t.total == Owed(c, plan, now).value)
  {
    match plan
    case Publishing => ScheduleFine(c, c.lead, held);
    case Recovering(was, out) => ScheduleFine(c, if was.None? || !tiered then 0 else was.value + c.lead - now, held);
  }

  lemma ChosenFine(c: Config, s: State, id: string, tiered: bool, held: bool, now: int)
    requires id in s.tasks && s.tasks[id].Decide? && TaskFine(c, s, id, s.tasks[id])
    ensures TaskFine(c, s.(now := now, staggered := Staggering(c, s, id, tiered, now)), id, Chosen(c, s.tasks[id].plan, tiered, held, now))
  {
    ChosenCounts(c, s.tasks[id].plan, tiered, held, now);
  }

  lemma ChooseKeeps(c: Config, s: State, id: string, tiered: bool, held: bool, now: int)
    requires Inv(c, s) && Can(s, Choose(id, tiered, held, now))
    ensures Inv(c, Step(c, s, Choose(id, tiered, held, now)))
  {
    assert TaskFine(c, s, id, s.tasks[id]);
    var m := s.(now := now);
    Later(c, s, now);
    ChosenFine(c, s, id, tiered, held, now);
    var t, staggered := Chosen(c, s.tasks[id].plan, tiered, held, now), Staggering(c, s, id, tiered, now);
    TaskMoves(c, m, id, t, if t.Sleep? then s.cancels + {id} else s.cancels, staggered);
  }

  lemma Later(c: Config, s: State, now: int)
    requires Inv(c, s) && now >= s.now
    ensures Inv(c, s.(now := now))
  {
    forall i | 0 <= i < |s.releases|
      ensures RightOrder(s.releases[i], now)
    {
      assert RightOrder(s.releases[i], s.now);
    }
    assert forall id :: id in s.tasks ==> TaskFine(c, s, id, s.tasks[id]);
  }

  lemma LookKeeps(c: Config, s: State, id: string, held: bool, stillHeld: bool)
    requires Inv(c, s) && Can(s, Look(id, held, stillHeld))
    ensures Inv(c, Step(c, s, Look(id, held, stillHeld)))
  {
    assert TaskFine(c, s, id, s.tasks[id]);
    var t := Looked(s.tasks[id], held, stillHeld);
    TaskMoves(c, s, id, t, if t.Sleep? then s.cancels + {id} else s.cancels - {id}, s.staggered);
  }

  lemma WakeKeeps(c: Config, s: State, id: string, held: bool)
    requires Inv(c, s) && Can(s, Wake(id, held))
    ensures Inv(c, Step(c, s, Wake(id, held)))
  {
    assert TaskFine(c, s, id, s.tasks[id]);
    var t := Woken(c, s.tasks[id], id in s.cancels, held);
    TaskMoves(c, s, id, t, if t.ToPublic? then s.cancels - {id} else s.cancels, s.staggered);
  }

  lemma StepKeeps(c: Config, s: State, e: Event)
    requires Inv(c, s) && Can(s, e)
    ensures Inv(c, Step(c, s, e))
  {
    match e
    case Publish(item, now) => PublishKeeps(c, s, item, now);
    case Recover(log, now) => RecoverKeeps(c, s, log, now);
    case SendManagers(id, now) => Delivering(c, s, Managers, id, now, Decide(s.tasks[id].plan));
    case Choose(id, tiered, held, now) => ChooseKeeps(c, s, id, tiered, held, now);
    case Look(id, held, stillHeld) => LookKeeps(c, s, id, held, stillHeld);
    case Wake(id, held) => WakeKeeps(c, s, id, held);
    case SendPublic(id, now) => Delivering(c, s, Public, id, now, Done);
    case Stop => assert forall id :: id in s.tasks ==> TaskFine(c, s, id, s.tasks[id]);
  }

  // ---- whole runs ----

  ghost predicate Behaviour(c: Config, run: seq<State>, events: seq<Event>) {
    && |run| == |events| + 1 && run[0] == State(run[0].now, [], map[], {}, [], map[])
    && forall i :: 0 <= i < |events| ==> Can(run[i], events[i]) && run[i + 1] == Step(c, run[i], events[i])
  }

  lemma {:induction false} AlwaysFine(c: Config, run: seq<State>, events: seq<Event>, i: nat)
    requires Behaviour(c, run, events) && i < |run|
    ensures Inv(c, run[i])
  {
    if i > 0 {
      AlwaysFine(c, run, events, i - 1);
      StepKeeps(c, run[i - 1], events[i - 1]);
    }
  }

  /** What a feed has been given, oldest first. */
  function History(rs: seq<Release>, feed: Feed): seq<Item> {
    if rs == [] then []
    else History(rs[..|rs| - 1], feed) + if AtFeed(rs[|rs| - 1], feed).Some? then [rs[|rs| - 1].item] else []
  }

  lemma {:induction false} HistoryHas(rs: seq<Release>, feed: Feed, item: Item)
    ensures item in History(rs, feed) <==> exists i :: 0 <= i < |rs| && rs[i].item == item && AtFeed(rs[i], feed).Some?
  {
    if rs != [] {
      var past := rs[..|rs| - 1];
      HistoryHas(past, feed, item);
      if item in History(rs, feed) {
        if item in History(past, feed) {
          var i :| 0 <= i < |past| && past[i].item == item && AtFeed(past[i], feed).Some?;
          assert rs[i] == past[i];
        }
      }
      forall i | 0 <= i < |rs| && rs[i].item == item && AtFeed(rs[i], feed).Some?
        ensures item in History(rs, feed)
      {
        if i < |past| { assert past[i] == rs[i]; }
      }
    }
  }

  /** In every interleaving of publishing, timers, recovery and stopping: no item is sent to a feed twice;
      everything the public has, the fund managers have, and had no later; and no send was invented. */
  lemma TwoTiers(c: Config, run: seq<State>, events: seq<Event>, i: nat, item: Item)
    requires Behaviour(c, run, events) && i < |run|
    ensures forall a, b :: 0 <= a < b < |run[i].sent| ==> !(run[i].sent[a].feed == run[i].sent[b].feed && run[i].sent[a].id == run[i].sent[b].id)
    ensures item in History(run[i].releases, Public) ==> item in History(run[i].releases, Managers)
    ensures forall k :: 0 <= k < |run[i].releases| && run[i].releases[k].publicAt.Some? ==>
              run[i].releases[k].managersAt.Some? && run[i].releases[k].managersAt.value <= run[i].releases[k].publicAt.value
  {
    AlwaysFine(c, run, events, i);
    HistoryHas(run[i].releases, Public, item);
    HistoryHas(run[i].releases, Managers, item);
    assert forall k :: 0 <= k < |run[i].releases| ==> RightOrder(run[i].releases[k], run[i].now);
    if item in History(run[i].releases, Public) {
      var k :| 0 <= k < |run[i].releases| && run[i].releases[k].item == item && AtFeed(run[i].releases[k], Public).Some?;
      assert AtFeed(run[i].releases[k], Managers).Some?;
    }
  }

  /** A staggered item is sent to the public only after the waits counted as running add up to the whole
      head start. */
  lemma LeadIsWaited(c: Config, run: seq<State>, events: seq<Event>, i: nat)
    requires Behaviour(c, run, events) && i < |events| && events[i].SendPublic? && events[i].id in run[i].staggered
    ensures run[i].tasks[events[i].id].ran >= run[i].staggered[events[i].id]
  {
    AlwaysFine(c, run, events, i);
    assert TaskFine(c, run[i], events[i].id, run[i].tasks[events[i].id]);
  }

  /** After a restart an item that the managers had before it gets to the public no sooner than the head start allows:
      what is left of it is waited for. `now` is when the waiting began, at k. */
  lemma RecoveredLead(c: Config, run: seq<State>, events: seq<Event>, k: nat, i: nat, id: string)
    requires Behaviour(c, run, events) && k < i < |events| && events[k].Choose? && events[k].id == id && events[k].tiered
    requires run[k].tasks[id].Decide? && run[k].tasks[id].plan.Recovering? && run[k].tasks[id].plan.was.Some? && !run[k].tasks[id].plan.out
    requires events[i].SendPublic? && events[i].id == id
    ensures run[k].tasks[id].plan.was.value + c.lead <= events[k].now + run[i].tasks[id].ran
  {
    assert Can(run[k], events[k]) && run[k + 1] == Step(c, run[k], events[k]);
    StaggerStays(c, run, events, k + 1, i, id);
    LeadIsWaited(c, run, events, i);
  }

  /** What an item owes is fixed once its waiting has begun. */
  lemma {:induction false} StaggerStays(c: Config, run: seq<State>, events: seq<Event>, k: nat, i: nat, id: string)
    requires Behaviour(c, run, events) && k <= i < |run| && id in run[k].staggered
    ensures id in run[i].staggered && run[i].staggered[id] == run[k].staggered[id]
    decreases i
  {
    if k < i {
      StaggerStays(c, run, events, k, i - 1, id);
      AlwaysFine(c, run, events, i - 1);
      assert Can(run[i - 1], events[i - 1]) && run[i] == Step(c, run[i - 1], events[i - 1]);
      assert TaskFine(c, run[i - 1], id, run[i - 1].tasks[id]);
    }
  }

  /** What an item without a head start owes: nothing; and after a restart one that the public has is done. Nothing
      counts as waited yet. */
  lemma ChosenMeans(c: Config, s: State, id: string, tiered: bool, held: bool, now: int)
    requires Can(s, Choose(id, tiered, held, now))
    ensures var plan, n := s.tasks[id].plan, Step(c, s, Choose(id, tiered, held, now));
            var t, owed := n.tasks[id], Owed(c, plan, now);
            && n.now == now && n.releases == s.releases && n.sent == s.sent
            && (t.Done? <==> plan.Recovering? && plan.out)
            && (!t.Done? ==> t.ran == 0)
            && (!tiered && plan.Publishing? ==> t.ToPublic?)
            && ((!tiered || owed.None?) && !t.Done? ==> t.total == 0 && (!(c.knowsPauses && held) ==> t.ToPublic?))
            && (tiered && owed.Some? ==> t.total == owed.value && (t.ToPublic? <==> t.total <= 0 && !(c.knowsPauses && held)))
  {
    ChosenIs(c, s.tasks[id].plan, tiered, held, now);
  }

  lemma ChosenIs(c: Config, plan: Plan, tiered: bool, held: bool, now: int)
    ensures var t := Chosen(c, plan, tiered, held, now);
            && (t.Done? <==> plan.Recovering? && plan.out)
            && (!t.Done? ==> t.ran == 0)
            && (!tiered && plan.Publishing? ==> t.ToPublic?)
            && ((!tiered || Owed(c, plan, now).None?) && !t.Done? ==> t.total == 0 && (!(c.knowsPauses && held) ==> t.ToPublic?))
            && (tiered && Owed(c, plan, now).Some? ==>
                  t.total == Owed(c, plan, now).value && (t.ToPublic? <==> t.total <= 0 && !(c.knowsPauses && held)))
  {
  }

  /** While the event runs, an item goes out as soon as nothing is left to wait for; a timer never runs past what is
      left, nor for longer than the clock is to be looked at; and while it is paused, once a second. */
  lemma LooksMean(c: Config, s: State, id: string, held: bool, stillHeld: bool)
    requires Can(s, Look(id, held, stillHeld))
    ensures var t, u := s.tasks[id], Step(c, s, Look(id, held, stillHeld)).tasks[id];
            && (u.ToPublic? <==> t.left <= 0 && !held)
            && (!u.ToPublic? ==> u == Sleep(t.left, u.wait, t.ran, t.total)
                                 && (if stillHeld then u.wait == SECOND else u.wait == (if t.left <= 0 then HOLD_STEP else Min(t.left, HOLD_STEP))))
  {
  }

  /** Every item of the recovered log is taken up where it was: what the managers or the public have is known. */
  lemma RecoveryMeans(r: Release)
    ensures var t := Recovery(r);
            && (t.ToManagers? <==> r.managersAt.None?) && (t.Decide? <==> r.managersAt.Some?)
            && t.plan == Recovering(r.managersAt, r.publicAt.Some?)
  {
  }

  /** Waiting is only counted by a timer that ends while the event is running, and then the whole wait. */
  lemma CountedWhileRunning(c: Config, s: State, id: string, held: bool)
    requires Inv(c, s) && c.knowsPauses && Can(s, Wake(id, held))
    ensures var t, u := s.tasks[id], Step(c, s, Wake(id, held)).tasks[id];
            u.Count? ==> u.ran == t.ran + (if held then 0 else t.wait) && u.left + u.ran == t.left + t.ran
  {
    assert TaskFine(c, s, id, s.tasks[id]);
  }

  // ---- nothing is lost ----

  ghost predicate PublicHas(rs: seq<Release>, id: string) { exists k :: 0 <= k < |rs| && rs[k].item.id == id && rs[k].publicAt.Some? }

  ghost predicate Kept(s: State, id: string, t: Task) {
    match t
    case ToManagers(plan) => plan.Recovering? && plan.out ==> PublicHas(s.releases, id)
    case Decide(plan) => plan.Recovering? && plan.out ==> PublicHas(s.releases, id)
    case Sleep(_, _, _, _) => id in s.cancels
    case Done => PublicHas(s.releases, id)
    case _ => true
  }

  /** Every item is on its way or with the public, and only a waiting one can be stopped. */
  ghost predicate Alive(s: State) {
    && (forall id :: id in s.tasks ==> Kept(s, id, s.tasks[id]))
    && forall id :: id in s.cancels ==> id in s.tasks && (s.tasks[id].Sleep? || s.tasks[id].Count?)
  }

  lemma StillPublic(rs: seq<Release>, feed: Feed, id: string, at: int, other: string)
    requires Unique(rs)
    ensures var d := Delivered(rs, feed, id, at);
            && (PublicHas(rs, other) ==> PublicHas(d.0, other))
            && (feed == Public && id in Ids(rs) ==> PublicHas(d.0, id))
  {
    FindIs(rs, id);
    InIds(rs, id);
    var d, i := Delivered(rs, feed, id, at).0, Find(rs, id);
    if PublicHas(rs, other) {
      var k :| 0 <= k < |rs| && rs[k].item.id == other && rs[k].publicAt.Some?;
      assert d[k].item.id == other && d[k].publicAt.Some?;
    }
    if feed == Public && i >= 0 { assert d[i].item.id == id && d[i].publicAt.Some?; }
  }

  lemma PublicGrows(rs: seq<Release>, more: seq<Release>, id: string)
    ensures PublicHas(rs, id) || PublicHas(more, id) ==> PublicHas(rs + more, id)
  {
    if PublicHas(rs, id) {
      var k :| 0 <= k < |rs| && rs[k].item.id == id && rs[k].publicAt.Some?;
      assert (rs + more)[k] == rs[k];
    } else if PublicHas(more, id) {
      var k :| 0 <= k < |more| && more[k].item.id == id && more[k].publicAt.Some?;
      assert (rs + more)[|rs| + k] == more[k];
    }
  }

  lemma RecoveredKept(c: Config, s: State, log: seq<Release>, now: int, id: string)
    requires Inv(c, s) && Alive(s) && Can(s, Recover(log, now)) && id in Step(c, s, Recover(log, now)).tasks
    ensures Kept(Step(c, s, Recover(log, now)), id, Step(c, s, Recover(log, now)).tasks[id])
  {
    RecoveriesAre(log);
    PublicGrows(s.releases, log, id);
    if id in Ids(log) {
      var i :| 0 <= i < |log| && log[i].item.id == id;
      assert log[i].publicAt.Some? ==> PublicHas(log, id);
    } else {
      assert Kept(s, id, s.tasks[id]);
    }
  }

  lemma SentKept(c: Config, s: State, e: Event, x: string)
    requires Inv(c, s) && Alive(s) && Can(s, e) && (e.SendManagers? || e.SendPublic?) && x in s.tasks
    ensures Kept(Step(c, s, e), x, Step(c, s, e).tasks[x])
  {
    assert Kept(s, x, s.tasks[x]) && x in Ids(s.releases);
    StillPublic(s.releases, if e.SendPublic? then Public else Managers, e.id, e.now, x);
  }

  lemma MovedKept(c: Config, s: State, e: Event, x: string)
    requires Inv(c, s) && Alive(s) && Can(s, e) && (e.Choose? || e.Look? || e.Wake?) && x in s.tasks
    ensures Kept(Step(c, s, e), x, Step(c, s, e).tasks[x])
  {
    assert Kept(s, x, s.tasks[x]);
    if e.Wake? { assert Kept(s, e.id, s.tasks[e.id]); }
  }

  lemma StaysKept(c: Config, s: State, e: Event, x: string)
    requires Inv(c, s) && Alive(s) && Can(s, e) && !e.Stop? && x in Step(c, s, e).tasks
    ensures Kept(Step(c, s, e), x, Step(c, s, e).tasks[x])
  {
    match e
    case Publish(item, now) =>
      PublicGrows(s.releases, [Release(item, None, None)], x);
      assert x in s.tasks ==> Kept(s, x, s.tasks[x]);
    case Recover(log, now) => RecoveredKept(c, s, log, now, x);
    case SendManagers(id, now) => SentKept(c, s, e, x);
    case SendPublic(id, now) => SentKept(c, s, e, x);
    case Choose(id, tiered, held, now) => MovedKept(c, s, e, x);
    case Look(id, held, stillHeld) => MovedKept(c, s, e, x);
    case Wake(id, held) => MovedKept(c, s, e, x);
  }

  lemma OnlyWaiting(c: Config, s: State, e: Event, x: string)
    requires Inv(c, s) && Alive(s) && Can(s, e) && x in Step(c, s, e).cancels
    ensures var n := Step(c, s, e); x in n.tasks && (n.tasks[x].Sleep? || n.tasks[x].Count?)
  {
    if e.Recover? { RecoveriesAre(e.log); }
  }

  lemma StaysAlive(c: Config, s: State, e: Event)
    requires Inv(c, s) && Alive(s) && Can(s, e) && !e.Stop?
    ensures Alive(Step(c, s, e))
  {
    var n := Step(c, s, e);
    forall x | x in n.tasks
      ensures Kept(n, x, n.tasks[x])
    {
      StaysKept(c, s, e, x);
    }
    forall x | x in n.cancels
      ensures x in n.tasks && (n.tasks[x].Sleep? || n.tasks[x].Count?)
    {
      OnlyWaiting(c, s, e, x);
    }
  }

  /** While the server is not stopped no item is dropped: every timer that runs will go on to the next look or to the
      public, and what is done the public has. */
  lemma {:induction false} NeverDropped(c: Config, run: seq<State>, events: seq<Event>, i: nat)
    requires Behaviour(c, run, events) && i < |run|
    requires forall j :: 0 <= j < i ==> !events[j].Stop?
    ensures Alive(run[i])
  {
    if i > 0 {
      NeverDropped(c, run, events, i - 1);
      AlwaysFine(c, run, events, i - 1);
      StaysAlive(c, run[i - 1], events[i - 1]);
    }
  }

  // ---- everything gets out ----

  ghost predicate Possible(c: Config, s: State, es: seq<Event>)
    decreases |es|
  {
    es == [] || (Can(s, es[0]) && Possible(c, Step(c, s, es[0]), es[1..]))
  }

  ghost function After(c: Config, s: State, es: seq<Event>): State
    requires Possible(c, s, es)
    decreases |es|
  {
    if es == [] then s else After(c, Step(c, s, es[0]), es[1..])
  }

  lemma Then(c: Config, s: State, e: Event, es: seq<Event>)
    requires Can(s, e) && Possible(c, Step(c, s, e), es)
    ensures Possible(c, s, [e] + es) && After(c, s, [e] + es) == After(c, Step(c, s, e), es)
  {
    assert ([e] + es)[1..] == es;
  }

  lemma NoMore(c: Config, s: State)
    ensures Possible(c, s, []) && After(c, s, []) == s
  {
  }

  /** Only this item has moved on. */
  ghost predicate SameBut(s: State, t: State, id: string) {
    && t.now == s.now && t.releases == s.releases && t.sent == s.sent && id in t.tasks
    && t.tasks.Keys == s.tasks.Keys && forall x :: x in s.tasks && x != id ==> t.tasks[x] == s.tasks[x]
  }

  /** While the event runs, looks and timers bring a waiting item to the public after exactly what is left of its wait. */
  lemma {:induction false} WaitEnds(c: Config, s: State, id: string) returns (es: seq<Event>)
    requires c.knowsPauses && id in s.tasks && s.tasks[id].Count?
    ensures Possible(c, s, es) && (forall e :: e in es ==> e in {Look(id, false, false), Wake(id, false)})
    ensures var t := s.tasks[id];
            SameBut(s, After(c, s, es), id) && After(c, s, es).tasks[id] == ToPublic(t.ran + Max(t.left, 0), t.total)
    decreases Max(s.tasks[id].left, 0)
  {
    var look := Look(id, false, false);
    var u := Step(c, s, look);
    if s.tasks[id].left <= 0 {
      NoMore(c, u);
      Then(c, s, look, []);
      es := [look] + [];
    } else {
      var v := Step(c, u, Wake(id, false));
      var rest := WaitEnds(c, v, id);
      Then(c, u, Wake(id, false), rest);
      Then(c, s, look, [Wake(id, false)] + rest);
      es := [look] + ([Wake(id, false)] + rest);
    }
  }

  /** An item chosen while the event runs gets to its public delivery, whatever it owes, by looks and timers alone. */
  lemma ChosenGoesOn(c: Config, s: State, id: string, tiered: bool, now: int) returns (es: seq<Event>)
    requires id in s.tasks && s.tasks[id] == Decide(Publishing) && now >= s.now
    ensures Possible(c, s, es)
    ensures After(c, s, es).now == now && After(c, s, es).releases == s.releases && id in After(c, s, es).tasks && After(c, s, es).tasks[id].ToPublic?
  {
    var choose := Choose(id, tiered, false, now);
    var t := Step(c, s, choose);
    var rest: seq<Event> := [];
    if t.tasks[id].Count? {
      rest := WaitEnds(c, t, id);
    } else if t.tasks[id].Sleep? {
      NoMore(c, Step(c, t, Wake(id, false)));
      Then(c, t, Wake(id, false), []);
      rest := [Wake(id, false)] + [];
    } else {
      NoMore(c, t);
    }
    Then(c, s, choose, rest);
    es := [choose] + rest;
  }

  /** A published item gets out to both feeds as long as the event runs: to the managers when it is published, and
      after its wait to the public. */
  lemma PublishedGetsOut(c: Config, s: State, item: Item, now: int, tiered: bool) returns (es: seq<Event>)
    requires Can(s, Publish(item, now))
    ensures es != [] && es[0] == Publish(item, now) && Possible(c, s, es)
    ensures After(c, s, es).releases == s.releases + [Release(item, Some(now), Some(now))]
  {
    var a := Step(c, s, Publish(item, now));
    var k := |s.releases|;
    var b := Step(c, a, SendManagers(item.id, now));
    assert b.releases == s.releases + [Release(item, Some(now), None)];
    es := ChosenGoesOn(c, b, item.id, tiered, now);
    var t := After(c, b, es);
    var out := SendPublic(item.id, now);
    assert Step(c, t, out).releases == s.releases + [Release(item, Some(now), Some(now))];
    NoMore(c, Step(c, t, out));
    Then(c, t, out, []);
    Joined(c, b, es, [out] + []);
    Then(c, a, SendManagers(item.id, now), es + ([out] + []));
    Then(c, s, Publish(item, now), [SendManagers(item.id, now)] + (es + ([out] + [])));
    es := [Publish(item, now)] + ([SendManagers(item.id, now)] + (es + ([out] + [])));
  }

  lemma {:induction false} Joined(c: Config, s: State, a: seq<Event>, b: seq<Event>)
    requires Possible(c, s, a) && Possible(c, After(c, s, a), b)
    ensures Possible(c, s, a + b) && After(c, s, a + b) == After(c, After(c, s, a), b)
    decreases |a|
  {
    if a == [] {
      assert a + b == b;
    } else {
      Joined(c, Step(c, s, a[0]), a[1..], b);
      assert a + b == [a[0]] + (a[1..] + b);
      Then(c, s, a[0], a[1..] + b);
    }
  }

  /** A stop is possible at any time and sends nothing; the timers that still run then end without a delivery. */
  lemma StopMeans(c: Config, s: State, id: string, held: bool)
    ensures Can(s, Stop) && Step(c, s, Stop) == s.(cancels := {})
    ensures var n := Step(c, s, Stop);
            id in n.tasks && n.tasks[id].Sleep? && c.knowsPauses ==> Can(n, Wake(id, held)) && Step(c, n, Wake(id, held)).tasks[id].Done?
  {
  }

  // ---- the dispatcher as an object ----

  lemma {:induction false} StampFinds(rs: seq<Release>, k: nat, r: Release, id: string)
    requires k < |rs| && r.item.id == rs[k].item.id
    ensures Find(rs[k := r], id) == Find(rs, id)
  {
    var n := |rs| - 1;
    if k < n {
      assert rs[k := r][..n] == rs[..n][k := r];
      StampFinds(rs[..n], k, r, id);
    } else {
      assert rs[k := r][..n] == rs[..n];
    }
  }

  class Dispatcher {
    var releases: seq<Release>
    var byId: map<string, nat>

    /** The index points at the newest release of every id. */
    ghost predicate Indexed()
      reads this
    {
      forall id :: (id in byId <==> Find(releases, id) >= 0) && (id in byId ==> byId[id] == Find(releases, id))
    }

    constructor ()
      ensures Indexed() && releases == []
    {
      releases, byId := [], map[];
    }

    method Insert(r: Release)
      requires Indexed()
      modifies this
      ensures Indexed() && releases == old(releases) + [r]
    {
      assert (releases + [r])[..|releases|] == releases;
      byId := byId[r.item.id := |releases|];
      releases := releases + [r];
    }

    method Reinstate(log: seq<Release>)
      requires Indexed()
      modifies this
      ensures Indexed() && releases == old(releases) + log
    {
      for i := 0 to |log|
        invariant Indexed() && releases == old(releases) + log[..i]
      {
        assert log[..i + 1] == log[..i] + [log[i]];
        Insert(log[i]);
      }
      assert log[..|log|] == log;
    }

    /** Stamps the release and says whether the feed's subscribers are to be told. */
    method Deliver(feed: Feed, id: string, at: int) returns (told: bool)
      requires Indexed()
      modifies this
      ensures Indexed()
      ensures (releases, if told then [Sent(feed, id, at)] else []) == Delivered(old(releases), feed, id, at)
    {
      FindIs(releases, id);
      if id !in byId { return false; }
      var r := releases[byId[id]];
      if feed == Managers {
        if r.managersAt.Some? { return false; }
        r := r.(managersAt := Some(at));
      } else {
        if r.publicAt.Some? { return false; }
        r := r.(publicAt := Some(at));
      }
      forall x
        ensures Find(releases[byId[id] := r], x) == Find(releases, x)
      {
        StampFinds(releases, byId[id], r, x);
      }
      releases := releases[byId[id] := r];
      told := true;
    }

    method HistoryOf(feed: Feed) returns (out: seq<Item>)
      ensures out == History(releases, feed)
    {
      out := [];
      for i := 0 to |releases|
        invariant out == History(releases[..i], feed)
      {
        assert releases[..i + 1][..i] == releases[..i];
        if AtFeed(releases[i], feed).Some? { out := out + [releases[i].item]; }
      }
      assert releases[..|releases|] == releases;
    }
  }
}

/** The database log: each server has one writer that stores batches of records, retries them over
    connections that may drop at any moment, and may only write while its session holds a lock. */
module PgWriter {
  import opened Options

  /** A record: which server's, and its number in that server's queue. */
  datatype Rid = Rid(server: nat, n: nat)

  datatype Answer = Stored | BadData | Trouble

  /** What a database session is doing: an insert of the records [from, to) of its server. */
  datatype Stmt = Free | Running(from: nat, to: nat) | Replied(answer: Answer)

  datatype Session = Session(owner: nat, stmt: Stmt)

  /** Where a writer stands. Its current records begin after those it has answered and end at `to`. */
  datatype Phase =
    | Idle
    | Ready(to: nat)    // about to insert the batch
    | Sent(to: nat)     // waits for the answer
    | Down(to: nat)     // has no connection and must make one
    | Asking(to: nat)   // connected, asks for the write lock
    | One(to: nat)      // stores the batch one by one
    | OneSent(to: nat)  // waits for the answer about the next record
    | Dead(end: nat, to: nat)  // the server is gone

  /** What an appender is told. */
  datatype Reply = Ok | Rejected | Unknown | Stopped

  /** Records are numbered in the order they were queued and answered in that order; `start` is the first
      record of the batch taken last. */
  datatype Writer = Writer(queued: nat, answers: seq<Reply>, start: nat, phase: Phase, conn: Option<nat>, broken: bool)

  datatype Sys = Sys(table: seq<Rid>, sessions: map<nat, Session>, lock: Option<nat>, sids: nat, writers: map<nat, Writer>)

  /** What a writer does. */
  datatype Act =
    | Open | Append | Kill
    | Take(count: nat) | Refuse
    | Send | SendFails | Hear | Drop
    | SendOne | HearOne | LoseOne
    | CheckFails | Connect | Lock | LockFails(taken: bool) | GiveUp

  /** What the database does with a session. */
  datatype DbAct = Store | Reject | Fail | Hangup

  datatype Event = By(w: nat, act: Act) | Db(sid: nat, what: DbAct)

  // ---- the database ----

  /** INSERT ... ON CONFLICT (rid) DO NOTHING, in order. */
  function Insert(table: seq<Rid>, w: nat, from: nat, to: nat): seq<Rid> {
    if from >= to then table
    else
      var t := Insert(table, w, from, to - 1);
      if Rid(w, to - 1) in t then t else t + [Rid(w, to - 1)]
  }

  predicate HasBad(bad: set<Rid>, w: nat, from: nat, to: nat) { exists n :: from <= n < to && Rid(w, n) in bad }

  // ---- a writer's own changes ----

  function Next(wr: Writer): nat { |wr.answers| }

  function Told(wr: Writer, to: nat, r: Reply): seq<Reply> {
    wr.answers + (if to >= Next(wr) then seq(to - Next(wr), _ => r) else [])
  }

  /** Where the current records, or the one being stored, end. */
  function End(wr: Writer): nat {
    match wr.phase
    case Idle => Next(wr)
    case OneSent(_) => Next(wr) + 1
    case Ready(to) => to
    case Sent(to) => to
    case Down(to) => to
    case Asking(to) => to
    case One(to) => to
    case Dead(end, _) => end
  }

  /** The end of the batch. */
  function Limit(wr: Writer): nat { if wr.phase.Idle? then Next(wr) else wr.phase.to }

  function Lost(wr: Writer, to: nat): Writer { wr.(phase := Down(to), conn := None) }

  /** All of the current batch is refused and the log stops. */
  function Stop(wr: Writer, to: nat): Writer {
    wr.(broken := true, answers := Told(wr, to, Stopped), phase := Idle, conn := None)
  }

  /** The next record has its answer; the one-by-one pass goes on, or ends. */
  function Pass(wr: Writer, to: nat, r: Reply): Writer {
    wr.(answers := wr.answers + [r], phase := if Next(wr) + 1 >= to then Idle else One(to))
  }

  function Heard(wr: Writer, answer: Answer): Writer
    requires wr.phase.Sent?
  {
    match answer
    case Stored => wr.(answers := Told(wr, wr.phase.to, Ok), phase := Idle)
    case BadData => wr.(phase := One(wr.phase.to))
    case Trouble => Lost(wr, wr.phase.to)
  }

  function HeardOne(wr: Writer, answer: Answer): Writer
    requires wr.phase.OneSent?
  {
    match answer
    case Stored => Pass(wr, wr.phase.to, Ok)
    case BadData => Pass(wr, wr.phase.to, Rejected)
    case Trouble => Pass(wr, wr.phase.to, Unknown)
  }

  // ---- steps ----

  /** The writer has a connection and the database still knows its session. */
  predicate Connected(s: Sys, w: nat) {
    w in s.writers && s.writers[w].conn.Some? && s.writers[w].conn.value in s.sessions
  }

  predicate HasReply(s: Sys, w: nat) { Connected(s, w) && s.sessions[s.writers[w].conn.value].stmt.Replied? }

  function ReplyOf(s: Sys, w: nat): Answer
    requires HasReply(s, w)
  {
    s.sessions[s.writers[w].conn.value].stmt.answer
  }

  predicate Can(s: Sys, e: Event, bad: set<Rid>) {
    match e
    case Db(sid, what) => sid in s.sessions && CanDb(s, sid, what, bad)
    case By(w, act) =>
      if act.Open? then w !in s.writers
      else w in s.writers && !s.writers[w].phase.Dead? && CanGo(s, w, s.writers[w], act)
  }

  predicate RunsBad(s: Sys, sid: nat, bad: set<Rid>)
    requires sid in s.sessions && s.sessions[sid].stmt.Running?
  {
    HasBad(bad, s.sessions[sid].owner, s.sessions[sid].stmt.from, s.sessions[sid].stmt.to)
  }

  predicate CanDb(s: Sys, sid: nat, what: DbAct, bad: set<Rid>)
    requires sid in s.sessions
  {
    match what
    case Store => s.sessions[sid].stmt.Running? && !RunsBad(s, sid, bad)
    case Reject => s.sessions[sid].stmt.Running? && RunsBad(s, sid, bad)
    case Fail => s.sessions[sid].stmt.Running?
    case Hangup => true
  }

  predicate CanGo(s: Sys, w: nat, wr: Writer, act: Act) {
    match act
    case Open => false
    case Append => true
    case Kill => true
    case Take(count) => wr.phase.Idle? && !wr.broken && 1 <= count <= 256 && Next(wr) + count <= wr.queued
    case Refuse => wr.phase.Idle? && wr.broken && Next(wr) < wr.queued
    case Send => wr.phase.Ready? && Connected(s, w)
    case SendFails => wr.phase.Ready?
    case Hear => wr.phase.Sent? && HasReply(s, w)
    case Drop => wr.phase.Sent?
    case SendOne => wr.phase.One? && Connected(s, w)
    case HearOne => wr.phase.OneSent? && HasReply(s, w)
    case LoseOne => wr.phase.One? || wr.phase.OneSent?
    case CheckFails => wr.phase.Idle? && !wr.broken
    case Connect => wr.phase.Down?
    case Lock => wr.phase.Asking? && Connected(s, w) && s.lock == None
    case LockFails(taken) => wr.phase.Asking? && (taken ==> Connected(s, w) && s.lock == None)
    case GiveUp => wr.phase.Down? || wr.phase.Asking?
  }

  function Put(s: Sys, w: nat, wr: Writer): Sys { s.(writers := s.writers[w := wr]) }

  function SetStmt(s: Sys, sid: nat, stmt: Stmt): Sys
    requires sid in s.sessions
  {
    s.(sessions := s.sessions[sid := s.sessions[sid].(stmt := stmt)])
  }

  function Do(s: Sys, e: Event, bad: set<Rid>): Sys
    requires Can(s, e, bad)
  {
    match e
    case Db(sid, what) => DoDb(s, sid, what)
    case By(w, act) => if act.Open? then Put(s, w, Writer(0, [], 0, Down(0), None, false)) else Go(s, w, s.writers[w], act)
  }

  function DoDb(s: Sys, sid: nat, what: DbAct): Sys
    requires sid in s.sessions && (what.Store? ==> s.sessions[sid].stmt.Running?)
  {
    match what
    case Store =>
      SetStmt(s, sid, Replied(Stored))
      .(table := Insert(s.table, s.sessions[sid].owner, s.sessions[sid].stmt.from, s.sessions[sid].stmt.to))
    case Reject => SetStmt(s, sid, Replied(BadData))
    case Fail => SetStmt(s, sid, Replied(Trouble))
    case Hangup => s.(sessions := s.sessions - {sid}, lock := if s.lock == Some(sid) then None else s.lock)
  }

  function Go(s: Sys, w: nat, wr: Writer, act: Act): Sys
    requires w in s.writers && s.writers[w] == wr && !act.Open? && CanGo(s, w, wr, act)
  {
    match act
    case Send => SetStmt(Put(s, w, wr.(phase := Sent(wr.phase.to))), wr.conn.value, Running(Next(wr), wr.phase.to))
    case SendOne => SetStmt(Put(s, w, wr.(phase := OneSent(wr.phase.to))), wr.conn.value, Running(Next(wr), Next(wr) + 1))
    case Hear => SetStmt(Put(s, w, Heard(wr, ReplyOf(s, w))), wr.conn.value, Free)
    case HearOne => SetStmt(Put(s, w, HeardOne(wr, ReplyOf(s, w))), wr.conn.value, Free)
    case Connect =>
      Put(s, w, wr.(phase := Asking(wr.phase.to), conn := Some(s.sids)))
      .(sessions := s.sessions[s.sids := Session(w, Free)], sids := s.sids + 1)
    case Lock =>
      Put(s, w, wr.(phase := if wr.phase.to == Next(wr) then Idle else Ready(wr.phase.to))).(lock := wr.conn)
    case LockFails(taken) => Put(s, w, Lost(wr, wr.phase.to)).(lock := if taken then wr.conn else s.lock)
    case _ => Put(s, w, Alone(wr, act))
  }

  /** The steps that touch neither a session nor the lock. */
  function Alone(wr: Writer, act: Act): Writer {
    match act
    case Append => wr.(queued := wr.queued + 1)
    case Kill => wr.(phase := Dead(End(wr), Limit(wr)), conn := None)
    case Take(count) => wr.(phase := Ready(Next(wr) + count), start := Next(wr))
    case Refuse => wr.(answers := wr.answers + [Stopped])
    case LoseOne => Pass(wr, if wr.phase.Idle? then 0 else wr.phase.to, Unknown).(conn := None)
    case GiveUp => Stop(wr, End(wr))
    case _ => Lost(wr, End(wr))
  }

  // ---- what always holds ----

  /** Of each server, the stored records are in the order of its queue; so none is stored twice. */
  predicate Ordered(table: seq<Rid>) {
    forall i, j :: 0 <= i < j < |table| && table[i].server == table[j].server ==> table[i].n < table[j].n
  }

  predicate Below(table: seq<Rid>, w: nat, n: nat) { forall r :: r in table && r.server == w ==> r.n < n }

  predicate AllIn(table: seq<Rid>, w: nat, from: nat, to: nat) { forall n :: from <= n < to ==> Rid(w, n) in table }

  /** The records [from, to) are stored already, or they and everything after them are not. */
  predicate Fits(table: seq<Rid>, w: nat, from: nat, to: nat) { AllIn(table, w, from, to) || Below(table, w, from) }

  ghost predicate SessionFine(s: Sys, sid: nat)
    requires sid in s.sessions
  {
    sid < s.sids && (s.sessions[sid].stmt.Running? ==> RunFine(s, sid, s.sessions[sid]))
  }

  /** An insert under way: its session holds the lock, its records are the writer's current ones, or older. */
  ghost predicate RunFine(s: Sys, sid: nat, ss: Session)
    requires ss.stmt.Running?
  {
    && s.lock == Some(sid) && ss.stmt.from < ss.stmt.to && ss.owner in s.writers
    && Fits(s.table, ss.owner, ss.stmt.from, ss.stmt.to)
    && Belongs(s.writers[ss.owner], ss.stmt.from, ss.stmt.to)
  }

  predicate Belongs(wr: Writer, from: nat, to: nat) {
    to <= Next(wr) || (from == Next(wr) && to == End(wr) && !wr.phase.One? && !wr.phase.Idle?)
  }

  ghost predicate ConnFine(s: Sys, w: nat, wr: Writer, bad: set<Rid>) {
    wr.conn.Some? ==>
      && wr.conn.value < s.sids && !wr.phase.Down? && !wr.phase.Dead?
      && (wr.conn.value in s.sessions ==>
            && s.sessions[wr.conn.value].owner == w
            && (!wr.phase.Asking? ==> s.lock == wr.conn)
            && TalkFine(s.table, w, wr, s.sessions[wr.conn.value].stmt, bad))
  }

  /** What the writer's session does fits what the writer waits for. */
  ghost predicate TalkFine(table: seq<Rid>, w: nat, wr: Writer, stmt: Stmt, bad: set<Rid>) {
    if wr.phase.Sent? || wr.phase.OneSent? then
      stmt == Running(Next(wr), End(wr)) || (stmt.Replied? && Truth(table, w, stmt.answer, Next(wr), End(wr), bad))
    else stmt == Free
  }

  ghost predicate Truth(table: seq<Rid>, w: nat, answer: Answer, from: nat, to: nat, bad: set<Rid>) {
    && (answer.Stored? ==> AllIn(table, w, from, to))
    && (answer.BadData? ==> HasBad(bad, w, from, to))
  }

  predicate Placed(table: seq<Rid>, w: nat, wr: Writer) {
    && Next(wr) <= End(wr) <= Limit(wr) <= wr.queued
    && (wr.phase.Ready? || wr.phase.Sent? || wr.phase.One? ==> Next(wr) < Limit(wr))
    && Below(table, w, Limit(wr)) && Fits(table, w, Next(wr), End(wr)) && Fits(table, w, End(wr), Limit(wr))
  }

  /** The answers given are right. */
  predicate Answered(table: seq<Rid>, w: nat, answers: seq<Reply>, broken: bool, bad: set<Rid>) {
    forall n :: 0 <= n < |answers| ==> Right(table, w, answers[n], broken, bad, n)
  }

  predicate Right(table: seq<Rid>, w: nat, reply: Reply, broken: bool, bad: set<Rid>, n: nat) {
    match reply
    case Ok => Rid(w, n) in table
    case Rejected => Rid(w, n) in bad
    case Stopped => broken
    case Unknown => true
  }

  ghost predicate WriterFine(s: Sys, w: nat, bad: set<Rid>)
    requires w in s.writers
  {
    ConnFine(s, w, s.writers[w], bad) && Placed(s.table, w, s.writers[w]) && Answered(s.table, w, s.writers[w].answers, s.writers[w].broken, bad)
  }

  ghost predicate TableFine(s: Sys, bad: set<Rid>) {
    Ordered(s.table) && forall r :: r in s.table ==> r.server in s.writers && r !in bad
  }

  ghost predicate Inv(s: Sys, bad: set<Rid>) {
    && TableFine(s, bad)
    && (forall sid :: sid in s.sessions ==> SessionFine(s, sid))
    && (forall w :: w in s.writers ==> WriterFine(s, w, bad))
  }

  // ---- every step keeps it ----

  /** A writer changes alone. */
  lemma PutKeeps(s: Sys, w: nat, wr: Writer, bad: set<Rid>)
    requires Inv(s, bad)
    requires ConnFine(s, w, wr, bad) && Placed(s.table, w, wr) && Answered(s.table, w, wr.answers, wr.broken, bad)
    requires w in s.writers ==> forall from, to :: Belongs(s.writers[w], from, to) ==> Belongs(wr, from, to)
    ensures Inv(Put(s, w, wr), bad)
  {
    var n := Put(s, w, wr);
    forall sid | sid in n.sessions
      ensures SessionFine(n, sid)
    {
      assert SessionFine(s, sid);
    }
    forall v | v in n.writers
      ensures WriterFine(n, v, bad)
    {
      if v != w { assert WriterFine(s, v, bad); }
    }
  }

  lemma OpenKeeps(s: Sys, w: nat, bad: set<Rid>)
    requires Inv(s, bad) && Can(s, By(w, Open), bad)
    ensures Inv(Do(s, By(w, Open), bad), bad)
  {
    PutKeeps(s, w, Writer(0, [], 0, Down(0), None, false), bad);
  }

  predicate IsAlone(e: Event) {
    e.By? && (e.act.Append? || e.act.Kill? || e.act.Take? || e.act.Refuse? || e.act.LoseOne? || e.act.GiveUp? || e.act.SendFails?
              || e.act.Drop? || e.act.CheckFails?)
  }

  lemma AloneKeeps(s: Sys, e: Event, bad: set<Rid>)
    requires Inv(s, bad) && IsAlone(e) && Can(s, e, bad)
    ensures Inv(Do(s, e, bad), bad)
  {
    var wr := s.writers[e.w];
    var wr' := Alone(wr, e.act);
    assert WriterFine(s, e.w, bad);
    AlonePlaced(s, e, bad);
    PutKeeps(s, e.w, wr', bad);
  }

  lemma AlonePlaced(s: Sys, e: Event, bad: set<Rid>)
    requires IsAlone(e) && Can(s, e, bad) && WriterFine(s, e.w, bad)
    ensures var wr, wr' := s.writers[e.w], Alone(s.writers[e.w], e.act);
            && Placed(s.table, e.w, wr') && ConnFine(s, e.w, wr', bad)
            && (forall from, to :: Belongs(wr, from, to) ==> Belongs(wr', from, to))
            && Answered(s.table, e.w, wr'.answers, wr'.broken, bad)
  {
  }

  /** A writer and the session it holds the lock with change together. */
  lemma TalkKeeps(s: Sys, w: nat, wr: Writer, stmt: Stmt, bad: set<Rid>)
    requires Inv(s, bad) && Connected(s, w) && s.lock == s.writers[w].conn && !stmt.Replied?
    requires Placed(s.table, w, wr) && Answered(s.table, w, wr.answers, wr.broken, bad)
    requires wr.conn == None || (wr.conn == s.lock && !wr.phase.Down? && !wr.phase.Dead? && TalkFine(s.table, w, wr, stmt, bad))
    requires stmt.Running? ==> stmt.from < stmt.to && Fits(s.table, w, stmt.from, stmt.to) && Belongs(wr, stmt.from, stmt.to)
    ensures Inv(SetStmt(Put(s, w, wr), s.writers[w].conn.value, stmt), bad)
  {
    var mine := s.writers[w].conn.value;
    var n := SetStmt(Put(s, w, wr), mine, stmt);
    assert WriterFine(s, w, bad);
    forall sid | sid in n.sessions
      ensures SessionFine(n, sid)
    {
      assert SessionFine(s, sid);
    }
    forall v | v in n.writers
      ensures WriterFine(n, v, bad)
    {
      assert WriterFine(s, v, bad);
    }
  }

  lemma SendKeeps(s: Sys, w: nat, bad: set<Rid>)
    requires Inv(s, bad) && Can(s, By(w, Send), bad)
    ensures Inv(Do(s, By(w, Send), bad), bad)
  {
    var wr := s.writers[w];
    assert WriterFine(s, w, bad);
    TalkKeeps(s, w, wr.(phase := Sent(wr.phase.to)), Running(Next(wr), wr.phase.to), bad);
  }

  lemma SendOneKeeps(s: Sys, w: nat, bad: set<Rid>)
    requires Inv(s, bad) && Can(s, By(w, SendOne), bad)
    ensures Inv(Do(s, By(w, SendOne), bad), bad)
  {
    var wr := s.writers[w];
    assert WriterFine(s, w, bad);
    TalkKeeps(s, w, wr.(phase := OneSent(wr.phase.to)), Running(Next(wr), Next(wr) + 1), bad);
  }

  lemma HeardRight(s: Sys, w: nat, bad: set<Rid>)
    requires Can(s, By(w, Hear), bad) && WriterFine(s, w, bad)
    ensures var wr := Heard(s.writers[w], ReplyOf(s, w)); Placed(s.table, w, wr) && Answered(s.table, w, wr.answers, wr.broken, bad)
  {
  }

  lemma HearKeeps(s: Sys, w: nat, bad: set<Rid>)
    requires Inv(s, bad) && Can(s, By(w, Hear), bad)
    ensures Inv(Do(s, By(w, Hear), bad), bad)
  {
    assert WriterFine(s, w, bad);
    HeardRight(s, w, bad);
    TalkKeeps(s, w, Heard(s.writers[w], ReplyOf(s, w)), Free, bad);
  }

  lemma HeardOneRight(s: Sys, w: nat, bad: set<Rid>)
    requires Can(s, By(w, HearOne), bad) && WriterFine(s, w, bad)
    ensures var wr := HeardOne(s.writers[w], ReplyOf(s, w)); Placed(s.table, w, wr) && Answered(s.table, w, wr.answers, wr.broken, bad)
  {
  }

  lemma HearOneKeeps(s: Sys, w: nat, bad: set<Rid>)
    requires Inv(s, bad) && Can(s, By(w, HearOne), bad)
    ensures Inv(Do(s, By(w, HearOne), bad), bad)
  {
    assert WriterFine(s, w, bad);
    HeardOneRight(s, w, bad);
    TalkKeeps(s, w, HeardOne(s.writers[w], ReplyOf(s, w)), Free, bad);
  }

  lemma ConnectKeeps(s: Sys, w: nat, bad: set<Rid>)
    requires Inv(s, bad) && Can(s, By(w, Connect), bad)
    ensures Inv(Do(s, By(w, Connect), bad), bad)
  {
    var n := Do(s, By(w, Connect), bad);
    assert forall sid :: sid in s.sessions ==> SessionFine(s, sid);
    forall sid | sid in n.sessions
      ensures SessionFine(n, sid)
    {
      if sid in s.sessions { assert SessionFine(s, sid); }
    }
    forall v | v in n.writers
      ensures WriterFine(n, v, bad)
    {
      assert WriterFine(s, v, bad);
    }
  }

  lemma LockKeeps(s: Sys, w: nat, bad: set<Rid>)
    requires Inv(s, bad) && Can(s, By(w, Lock), bad)
    ensures Inv(Do(s, By(w, Lock), bad), bad)
  {
    var n := Do(s, By(w, Lock), bad);
    forall sid | sid in n.sessions
      ensures SessionFine(n, sid)
    {
      assert SessionFine(s, sid);
    }
    forall v | v in n.writers
      ensures WriterFine(n, v, bad)
    {
      assert WriterFine(s, v, bad) && WriterFine(s, w, bad);
    }
  }

  lemma LockFailsKeeps(s: Sys, w: nat, taken: bool, bad: set<Rid>)
    requires Inv(s, bad) && Can(s, By(w, LockFails(taken)), bad)
    ensures Inv(Do(s, By(w, LockFails(taken)), bad), bad)
  {
    var n := Do(s, By(w, LockFails(taken)), bad);
    forall sid | sid in n.sessions
      ensures SessionFine(n, sid)
    {
      assert SessionFine(s, sid);
    }
    forall v | v in n.writers
      ensures WriterFine(n, v, bad)
    {
      assert WriterFine(s, v, bad) && WriterFine(s, w, bad);
    }
  }

  // ---- the database's steps ----

  lemma {:induction false} InsertHas(table: seq<Rid>, w: nat, from: nat, to: nat, r: Rid)
    ensures r in Insert(table, w, from, to) <==> r in table || (r.server == w && from <= r.n < to)
  {
    if from < to { InsertHas(table, w, from, to - 1, r); }
  }

  lemma OrderedMore(table: seq<Rid>, w: nat, n: nat)
    requires Ordered(table) && Below(table, w, n)
    ensures Ordered(table + [Rid(w, n)])
  {
  }

  lemma {:induction false} InsertNothing(table: seq<Rid>, w: nat, from: nat, to: nat)
    requires AllIn(table, w, from, to)
    ensures Insert(table, w, from, to) == table
  {
    if from < to { InsertNothing(table, w, from, to - 1); }
  }

  /** Whatever is already stored, a table in order stays in order. */
  lemma {:induction false} InsertOrdered(table: seq<Rid>, w: nat, from: nat, to: nat)
    requires Ordered(table) && Fits(table, w, from, to)
    ensures Ordered(Insert(table, w, from, to)) && table <= Insert(table, w, from, to)
  {
    if AllIn(table, w, from, to) {
      InsertNothing(table, w, from, to);
    } else if from < to {
      var t := Insert(table, w, from, to - 1);
      InsertOrdered(table, w, from, to - 1);
      forall r | r in t && r.server == w
        ensures r.n < to - 1
      {
        InsertHas(table, w, from, to - 1, r);
      }
      OrderedMore(t, w, to - 1);
    }
  }

  lemma StoredPlaced(s: Sys, sid: nat, v: nat, bad: set<Rid>)
    requires Inv(s, bad) && Can(s, Db(sid, Store), bad) && v in s.writers
    ensures Placed(Do(s, Db(sid, Store), bad).table, v, s.writers[v])
  {
    var stmt, w := s.sessions[sid].stmt, s.sessions[sid].owner;
    var table := Insert(s.table, w, stmt.from, stmt.to);
    assert SessionFine(s, sid) && WriterFine(s, v, bad);
    forall r: Rid
      ensures r in table <==> r in s.table || (r.server == w && stmt.from <= r.n < stmt.to)
    {
      InsertHas(s.table, w, stmt.from, stmt.to, r);
    }
  }

  lemma StoredAnswered(s: Sys, sid: nat, v: nat, bad: set<Rid>)
    requires Inv(s, bad) && Can(s, Db(sid, Store), bad) && v in s.writers
    ensures Answered(Do(s, Db(sid, Store), bad).table, v, s.writers[v].answers, s.writers[v].broken, bad)
    ensures ConnFine(Do(s, Db(sid, Store), bad), v, s.writers[v], bad)
  {
    var stmt, w := s.sessions[sid].stmt, s.sessions[sid].owner;
    var table := Insert(s.table, w, stmt.from, stmt.to);
    assert SessionFine(s, sid) && WriterFine(s, v, bad);
    InsertOrdered(s.table, w, stmt.from, stmt.to);
    forall r: Rid
      ensures r in table <==> r in s.table || (r.server == w && stmt.from <= r.n < stmt.to)
    {
      InsertHas(s.table, w, stmt.from, stmt.to, r);
    }
  }

  lemma StoreKeeps(s: Sys, sid: nat, bad: set<Rid>)
    requires Inv(s, bad) && Can(s, Db(sid, Store), bad)
    ensures Inv(Do(s, Db(sid, Store), bad), bad)
  {
    var n := Do(s, Db(sid, Store), bad);
    var stmt, w := s.sessions[sid].stmt, s.sessions[sid].owner;
    assert SessionFine(s, sid);
    InsertOrdered(s.table, w, stmt.from, stmt.to);
    forall r | r in n.table
      ensures r.server in n.writers && r !in bad
    {
      InsertHas(s.table, w, stmt.from, stmt.to, r);
    }
    forall t | t in n.sessions
      ensures SessionFine(n, t)
    {
      assert SessionFine(s, t);
    }
    forall v | v in n.writers
      ensures WriterFine(n, v, bad)
    {
      StoredPlaced(s, sid, v, bad);
      StoredAnswered(s, sid, v, bad);
    }
  }

  lemma FailKeeps(s: Sys, e: Event, bad: set<Rid>)
    requires Inv(s, bad) && e.Db? && !e.what.Store? && Can(s, e, bad)
    ensures Inv(Do(s, e, bad), bad)
  {
    var n := Do(s, e, bad);
    assert SessionFine(s, e.sid);
    forall t | t in n.sessions
      ensures SessionFine(n, t)
    {
      assert SessionFine(s, t);
    }
    forall v | v in n.writers
      ensures WriterFine(n, v, bad)
    {
      assert WriterFine(s, v, bad);
    }
  }

  lemma DbKeeps(s: Sys, e: Event, bad: set<Rid>)
    requires Inv(s, bad) && Can(s, e, bad) && e.Db?
    ensures Inv(Do(s, e, bad), bad)
  {
    if e.what.Store? { StoreKeeps(s, e.sid, bad); } else { FailKeeps(s, e, bad); }
  }

  lemma LinkKeeps(s: Sys, e: Event, bad: set<Rid>)
    requires Inv(s, bad) && Can(s, e, bad) && e.By? && (e.act.Connect? || e.act.Lock? || e.act.LockFails?)
    ensures Inv(Do(s, e, bad), bad)
  {
    if e.act.Connect? { ConnectKeeps(s, e.w, bad); }
    else if e.act.Lock? { LockKeeps(s, e.w, bad); }
    else { LockFailsKeeps(s, e.w, e.act.taken, bad); }
  }

  lemma InsertKeeps(s: Sys, e: Event, bad: set<Rid>)
    requires Inv(s, bad) && Can(s, e, bad) && e.By? && (e.act.Send? || e.act.SendOne? || e.act.Hear? || e.act.HearOne?)
    ensures Inv(Do(s, e, bad), bad)
  {
    if e.act.Send? { SendKeeps(s, e.w, bad); }
    else if e.act.SendOne? { SendOneKeeps(s, e.w, bad); }
    else if e.act.Hear? { HearKeeps(s, e.w, bad); }
    else { HearOneKeeps(s, e.w, bad); }
  }

  lemma StepKeeps(s: Sys, e: Event, bad: set<Rid>)
    requires Inv(s, bad) && Can(s, e, bad)
    ensures Inv(Do(s, e, bad), bad)
  {
    if e.Db? { DbKeeps(s, e, bad); }
    else if IsAlone(e) { AloneKeeps(s, e, bad); }
    else if e.act.Open? { OpenKeeps(s, e.w, bad); }
    else if e.act.Connect? || e.act.Lock? || e.act.LockFails? { LinkKeeps(s, e, bad); }
    else { InsertKeeps(s, e, bad); }
  }

  // ---- why a record is stored one by one ----

  /** The current batch has at most 256 records, is stored one by one only because of a record in it that
      cannot be stored, and a stopped writer has none. */
  predicate BatchFine(w: nat, wr: Writer, bad: set<Rid>) {
    && (wr.broken ==> wr.phase.Idle? || wr.phase.Dead?)
    && (match wr.phase
        case Ready(to) => Fresh(wr, to)
        case Sent(to) => Fresh(wr, to)
        case Down(to) => to == Next(wr) || Fresh(wr, to)
        case Asking(to) => to == Next(wr) || Fresh(wr, to)
        case One(to) => SpoiltBatch(w, wr, Next(wr), to, bad)
        case OneSent(to) => SpoiltBatch(w, wr, Next(wr), to, bad)
        case _ => true)
  }

  /** No record of the batch has its answer yet. */
  predicate Fresh(wr: Writer, to: nat) { wr.start == Next(wr) && to <= Next(wr) + 256 }

  /** Record n is in a batch with one that cannot be stored. */
  predicate SpoiltBatch(w: nat, wr: Writer, n: nat, to: nat, bad: set<Rid>) {
    wr.start <= n < to <= wr.start + 256 && HasBad(bad, w, wr.start, to)
  }

  ghost predicate Batches(s: Sys, bad: set<Rid>) {
    && (s.lock.Some? ==> s.lock.value in s.sessions)
    && forall w :: w in s.writers ==> BatchFine(w, s.writers[w], bad)
  }

  lemma AloneBatch(s: Sys, w: nat, wr: Writer, act: Act, bad: set<Rid>)
    requires IsAlone(By(w, act)) && CanGo(s, w, wr, act) && BatchFine(w, wr, bad) && wr.phase.Dead? == false
    ensures BatchFine(w, Alone(wr, act), bad)
  {
  }

  lemma HeardBatch(s: Sys, w: nat, wr: Writer, bad: set<Rid>)
    requires BatchFine(w, wr, bad)
    requires wr.phase.Sent? || wr.phase.OneSent?
    requires HasReply(s, w) && s.writers[w] == wr && Truth(s.table, w, ReplyOf(s, w), Next(wr), End(wr), bad)
    ensures wr.phase.Sent? ==> BatchFine(w, Heard(wr, ReplyOf(s, w)), bad)
    ensures wr.phase.OneSent? ==> BatchFine(w, HeardOne(wr, ReplyOf(s, w)), bad)
  {
  }

  /** How the writer itself comes out of one of its steps. */
  lemma OwnWriter(s: Sys, e: Event, bad: set<Rid>)
    requires e.By? && !e.act.Open? && Can(s, e, bad)
    ensures var wr, wr' := s.writers[e.w], Do(s, e, bad).writers[e.w];
            match e.act
            case Send => wr' == wr.(phase := Sent(wr.phase.to))
            case SendOne => wr' == wr.(phase := OneSent(wr.phase.to))
            case Hear => wr' == Heard(wr, ReplyOf(s, e.w))
            case HearOne => wr' == HeardOne(wr, ReplyOf(s, e.w))
            case Connect => wr' == wr.(phase := Asking(wr.phase.to), conn := Some(s.sids))
            case Lock => wr' == wr.(phase := if wr.phase.to == Next(wr) then Idle else Ready(wr.phase.to))
            case LockFails(taken) => wr' == Lost(wr, wr.phase.to)
            case _ => wr' == Alone(wr, e.act)
  {
  }

  lemma OwnBatch(s: Sys, e: Event, bad: set<Rid>)
    requires e.By? && !e.act.Open? && Can(s, e, bad) && BatchFine(e.w, s.writers[e.w], bad) && WriterFine(s, e.w, bad)
    ensures BatchFine(e.w, Do(s, e, bad).writers[e.w], bad)
  {
    OwnWriter(s, e, bad);
    if IsAlone(e) { AloneBatch(s, e.w, s.writers[e.w], e.act, bad); }
    else if e.act.Hear? || e.act.HearOne? { HeardBatch(s, e.w, s.writers[e.w], bad); }
  }

  lemma LockLives(s: Sys, e: Event, bad: set<Rid>)
    requires Can(s, e, bad) && (s.lock.Some? ==> s.lock.value in s.sessions)
    ensures Do(s, e, bad).lock.Some? ==> Do(s, e, bad).lock.value in Do(s, e, bad).sessions
  {
  }

  lemma OthersStay(s: Sys, e: Event, bad: set<Rid>, w: nat)
    requires Can(s, e, bad) && w in Do(s, e, bad).writers && !(e.By? && e.w == w)
    ensures w in s.writers && Do(s, e, bad).writers[w] == s.writers[w]
  {
  }

  lemma BatchesKept(s: Sys, e: Event, bad: set<Rid>)
    requires Inv(s, bad) && Batches(s, bad) && Can(s, e, bad)
    ensures Batches(Do(s, e, bad), bad)
  {
    LockLives(s, e, bad);
    forall w | w in Do(s, e, bad).writers
      ensures BatchFine(w, Do(s, e, bad).writers[w], bad)
    {
      BatchKept(s, e, bad, w);
    }
  }

  lemma BatchKept(s: Sys, e: Event, bad: set<Rid>, w: nat)
    requires Inv(s, bad) && Batches(s, bad) && Can(s, e, bad) && w in Do(s, e, bad).writers
    ensures BatchFine(w, Do(s, e, bad).writers[w], bad)
  {
    if e.By? && e.w == w {
      if !e.act.Open? {
        assert WriterFine(s, w, bad);
        OwnBatch(s, e, bad);
      }
    } else {
      OthersStay(s, e, bad, w);
    }
  }

  // ---- whole runs ----

  function Init(): Sys { Sys([], map[], None, 0, map[]) }

  ghost predicate Move(s: Sys, e: Event, t: Sys, bad: set<Rid>) { Can(s, e, bad) && Do(s, e, bad) == t }

  ghost predicate Path(run: seq<Sys>, events: seq<Event>, bad: set<Rid>) {
    && |run| == |events| + 1
    && forall i :: 0 <= i < |events| ==> Move(run[i], events[i], run[i + 1], bad)
  }

  ghost predicate Behaviour(run: seq<Sys>, events: seq<Event>, bad: set<Rid>) {
    Path(run, events, bad) && run[0] == Init()
  }

  lemma MoveKeeps(s: Sys, e: Event, t: Sys, bad: set<Rid>)
    requires Inv(s, bad) && Batches(s, bad) && Move(s, e, t, bad)
    ensures Inv(t, bad) && Batches(t, bad)
  {
    StepKeeps(s, e, bad);
    BatchesKept(s, e, bad);
  }

  lemma {:induction false} AlwaysFine(run: seq<Sys>, events: seq<Event>, bad: set<Rid>, i: nat)
    requires Behaviour(run, events, bad) && i < |run|
    ensures Inv(run[i], bad) && Batches(run[i], bad)
  {
    if i > 0 {
      AlwaysFine(run, events, bad, i - 1);
      MoveKeeps(run[i - 1], events[i - 1], run[i], bad);
    } else {
      assert run[0] == Init();
    }
  }

  /** The table only grows, and only a session that holds the write lock makes it grow. */
  lemma OnlyTheLockHolderWrites(s: Sys, e: Event, bad: set<Rid>)
    requires Inv(s, bad) && Can(s, e, bad)
    ensures s.table <= Do(s, e, bad).table
    ensures Do(s, e, bad).table != s.table ==> e.Db? && e.what.Store? && s.lock == Some(e.sid)
  {
    if e.Db? && e.what.Store? {
      assert SessionFine(s, e.sid);
      InsertOrdered(s.table, s.sessions[e.sid].owner, s.sessions[e.sid].stmt.from, s.sessions[e.sid].stmt.to);
    }
  }

  lemma GrowsOnce(s: Sys, e: Event, t: Sys, bad: set<Rid>)
    requires Inv(s, bad) && Move(s, e, t, bad)
    ensures s.table <= t.table
  {
    OnlyTheLockHolderWrites(s, e, bad);
  }

  lemma GrowsAt(run: seq<Sys>, events: seq<Event>, bad: set<Rid>, j: nat)
    requires Behaviour(run, events, bad) && 0 < j < |run|
    ensures run[j - 1].table <= run[j].table
  {
    AlwaysFine(run, events, bad, j - 1);
    GrowsOnce(run[j - 1], events[j - 1], run[j], bad);
  }

  lemma PrefixOf<T>(a: seq<T>, b: seq<T>, c: seq<T>)
    requires a <= b <= c
    ensures a <= c
  {
  }

  lemma {:induction false} TableGrows(run: seq<Sys>, events: seq<Event>, bad: set<Rid>, i: nat, j: nat)
    requires Behaviour(run, events, bad) && i <= j < |run|
    ensures run[i].table <= run[j].table
    decreases j
  {
    if i < j {
      TableGrows(run, events, bad, i, j - 1);
      GrowsAt(run, events, bad, j);
      PrefixOf(run[i].table, run[j - 1].table, run[j].table);
    }
  }

  /** Answers are final, and a writer stays a writer. */
  lemma AnswersStay(s: Sys, e: Event, bad: set<Rid>, w: nat)
    requires Can(s, e, bad) && w in s.writers
    ensures var wr := s.writers[w];
            w in Do(s, e, bad).writers
            && (var wr' := Do(s, e, bad).writers[w];
                wr.answers <= wr'.answers && (wr.broken ==> wr'.broken))
  {
    if e.By? && !e.act.Open? && e.w == w { OwnAnswersStay(s, e, bad); }
  }

  lemma OwnAnswersStay(s: Sys, e: Event, bad: set<Rid>)
    requires e.By? && !e.act.Open? && Can(s, e, bad)
    ensures var wr, wr' := s.writers[e.w], Do(s, e, bad).writers[e.w];
            wr.answers <= wr'.answers && (wr.broken ==> wr'.broken)
  {
  }

  /** Between these two states the writer has only given further answers, and has stayed stopped. */
  ghost predicate Later(s: Sys, t: Sys, w: nat) {
    w in s.writers && w in t.writers && s.writers[w].answers <= t.writers[w].answers && (s.writers[w].broken ==> t.writers[w].broken)
  }

  lemma LaterStill(s: Sys, t: Sys, u: Sys, w: nat)
    requires Later(s, t, w) && Later(t, u, w)
    ensures Later(s, u, w)
  {
  }

  lemma FinalOnce(s: Sys, e: Event, t: Sys, bad: set<Rid>, w: nat)
    requires Move(s, e, t, bad) && w in s.writers
    ensures Later(s, t, w)
  {
    AnswersStay(s, e, bad, w);
  }

  lemma FinalAt(run: seq<Sys>, events: seq<Event>, bad: set<Rid>, j: nat, w: nat)
    requires Behaviour(run, events, bad) && 0 < j < |run| && w in run[j - 1].writers
    ensures Later(run[j - 1], run[j], w)
  {
    FinalOnce(run[j - 1], events[j - 1], run[j], bad, w);
  }

  lemma {:induction false} AnswersFinal(run: seq<Sys>, events: seq<Event>, bad: set<Rid>, i: nat, j: nat, w: nat)
    requires Behaviour(run, events, bad) && i <= j < |run| && w in run[i].writers
    ensures Later(run[i], run[j], w)
    decreases j
  {
    if i < j {
      AnswersFinal(run, events, bad, i, j - 1, w);
      FinalAt(run, events, bad, j, w);
      LaterStill(run[i], run[j - 1], run[j], w);
    }
  }

  ghost predicate OnceIn(table: seq<Rid>, r: Rid) {
    exists k :: 0 <= k < |table| && table[k] == r && forall m :: 0 <= m < |table| && m != k ==> table[m] != r
  }

  lemma OrderedIsOnce(table: seq<Rid>, r: Rid)
    requires Ordered(table) && r in table
    ensures OnceIn(table, r)
  {
    var k :| 0 <= k < |table| && table[k] == r;
    assert forall m :: 0 <= m < |table| && m != k ==> table[m] != r;
  }

  /** Record n of w was in a batch with one that cannot be stored. */
  ghost predicate SpoiltAt(s: Sys, w: nat, n: nat, bad: set<Rid>) {
    w in s.writers && (s.writers[w].phase.One? || s.writers[w].phase.OneSent?)
    && SpoiltBatch(w, s.writers[w], n, s.writers[w].phase.to, bad)
  }

  ghost predicate Spoilt(run: seq<Sys>, i: nat, w: nat, n: nat, bad: set<Rid>) {
    exists k :: 0 <= k < i && k < |run| && SpoiltAt(run[k], w, n, bad)
  }

  /** Which steps give answers that leave a record's fate unknown. */
  lemma OwnUnknown(s: Sys, e: Event, bad: set<Rid>, n: nat)
    requires e.By? && !e.act.Open? && Can(s, e, bad)
    requires |s.writers[e.w].answers| <= n < |Do(s, e, bad).writers[e.w].answers|
    requires Do(s, e, bad).writers[e.w].answers[n].Unknown?
    ensures n == Next(s.writers[e.w]) && (s.writers[e.w].phase.One? || s.writers[e.w].phase.OneSent?)
  {
    OwnWriter(s, e, bad);
  }

  /** Only a record stored one by one can be left with its fate unknown. */
  lemma UnknownGiven(s: Sys, e: Event, t: Sys, bad: set<Rid>, w: nat, n: nat)
    requires Batches(s, bad) && Move(s, e, t, bad) && w in t.writers && n < |t.writers[w].answers|
    requires t.writers[w].answers[n].Unknown?
    ensures w in s.writers
    ensures n < |s.writers[w].answers| || SpoiltAt(s, w, n, bad)
  {
    if e.By? && e.w == w && !e.act.Open? && n >= |s.writers[w].answers| {
      assert BatchFine(w, s.writers[w], bad);
      OwnUnknown(s, e, bad, n);
    }
  }

  lemma UnknownAt(run: seq<Sys>, events: seq<Event>, bad: set<Rid>, i: nat, w: nat, n: nat)
    requires Behaviour(run, events, bad) && 0 < i < |run| && w in run[i].writers && n < |run[i].writers[w].answers|
    requires run[i].writers[w].answers[n].Unknown?
    ensures w in run[i - 1].writers
    ensures n < |run[i - 1].writers[w].answers| || SpoiltAt(run[i - 1], w, n, bad)
  {
    AlwaysFine(run, events, bad, i - 1);
    UnknownGiven(run[i - 1], events[i - 1], run[i], bad, w, n);
  }

  lemma {:induction false} UnknownWasSpoilt(run: seq<Sys>, events: seq<Event>, bad: set<Rid>, i: nat, w: nat, n: nat)
    requires Behaviour(run, events, bad) && i < |run| && w in run[i].writers && n < |run[i].writers[w].answers|
    requires run[i].writers[w].answers[n].Unknown?
    ensures Spoilt(run, i, w, n, bad)
  {
    if i > 0 {
      UnknownAt(run, events, bad, i, w, n);
      if n < |run[i - 1].writers[w].answers| {
        FinalAt(run, events, bad, i, w);
        UnknownWasSpoilt(run, events, bad, i - 1, w, n);
      }
    }
  }

  /** Whatever connections drop and whoever takes over: an acknowledged record is in the table from then
      on, exactly once; every server's records are in the order they were queued; a record refused for
      what it contains is never there; a record is refused otherwise only because the log has stopped, or
      because another record of its batch of at most 256 cannot be stored. */
  lemma ExactlyOnce(run: seq<Sys>, events: seq<Event>, bad: set<Rid>, i: nat, w: nat, n: nat, j: nat)
    requires Behaviour(run, events, bad) && i <= j < |run| && w in run[i].writers && n < |run[i].writers[w].answers|
    ensures Ordered(run[j].table)
    ensures run[i].writers[w].answers[n].Ok? ==> OnceIn(run[j].table, Rid(w, n))
    ensures run[i].writers[w].answers[n].Rejected? ==> Rid(w, n) !in run[j].table && Rid(w, n) in bad
    ensures run[i].writers[w].answers[n].Stopped? ==> run[i].writers[w].broken
    ensures run[i].writers[w].answers[n].Unknown? ==> Spoilt(run, i, w, n, bad)
  {
    AlwaysFine(run, events, bad, i);
    AlwaysFine(run, events, bad, j);
    TableGrows(run, events, bad, i, j);
    AnswerIsRight(run[i], w, n, bad);
    if run[i].writers[w].answers[n].Ok? { OrderedIsOnce(run[j].table, Rid(w, n)); }
    if run[i].writers[w].answers[n].Unknown? { UnknownWasSpoilt(run, events, bad, i, w, n); }
  }

  /** A server whose every record can be stored stores only in batches, and each of its records is
      acknowledged or refused because the log has stopped. */
  lemma GoodServer(run: seq<Sys>, events: seq<Event>, bad: set<Rid>, i: nat, w: nat)
    requires Behaviour(run, events, bad) && i < |run| && w in run[i].writers
    requires forall n: nat :: Rid(w, n) !in bad
    ensures !run[i].writers[w].phase.One? && !run[i].writers[w].phase.OneSent?
    ensures forall n :: 0 <= n < |run[i].writers[w].answers| ==> run[i].writers[w].answers[n] in [Ok, Stopped]
  {
    AlwaysFine(run, events, bad, i);
    assert BatchFine(w, run[i].writers[w], bad);
    forall n | 0 <= n < |run[i].writers[w].answers|
      ensures run[i].writers[w].answers[n] in [Ok, Stopped]
    {
      ExactlyOnce(run, events, bad, i, w, n, i);
    }
  }

  lemma AnswerIsRight(s: Sys, w: nat, n: nat, bad: set<Rid>)
    requires Inv(s, bad) && w in s.writers && n < |s.writers[w].answers|
    ensures Right(s.table, w, s.writers[w].answers[n], s.writers[w].broken, bad, n)
  {
    assert WriterFine(s, w, bad);
  }

  lemma StoppedStep(s: Sys, e: Event, t: Sys, bad: set<Rid>, w: nat)
    requires Batches(s, bad) && Move(s, e, t, bad) && w in s.writers && s.writers[w].broken
    ensures w in t.writers && AllStopped(s.writers[w].answers, t.writers[w].answers)
  {
    assert BatchFine(w, s.writers[w], bad);
    if e.By? && !e.act.Open? && e.w == w { OwnWriter(s, e, bad); } else { AnswersStay(s, e, bad, w); OthersStay(s, e, bad, w); }
  }

  /** Whatever was answered after `was` is a refusal because the log has stopped. */
  ghost predicate AllStopped(was: seq<Reply>, now: seq<Reply>) {
    was <= now && forall n :: |was| <= n < |now| ==> now[n] == Stopped
  }

  lemma StoppedOnward(a: seq<Reply>, b: seq<Reply>, c: seq<Reply>)
    requires AllStopped(a, b) && AllStopped(b, c)
    ensures AllStopped(a, c)
  {
  }

  lemma StoppedAt(run: seq<Sys>, events: seq<Event>, bad: set<Rid>, j: nat, w: nat)
    requires Behaviour(run, events, bad) && 0 < j < |run| && w in run[j - 1].writers && run[j - 1].writers[w].broken
    ensures w in run[j].writers && AllStopped(run[j - 1].writers[w].answers, run[j].writers[w].answers)
  {
    AlwaysFine(run, events, bad, j - 1);
    StoppedStep(run[j - 1], events[j - 1], run[j], bad, w);
  }

  /** A writer that has stopped acknowledges nothing more, however the run goes on. */
  lemma {:induction false} NothingAfterStop(run: seq<Sys>, events: seq<Event>, bad: set<Rid>, i: nat, j: nat, w: nat)
    requires Behaviour(run, events, bad) && i <= j < |run| && w in run[i].writers && run[i].writers[w].broken
    ensures w in run[j].writers && run[j].writers[w].broken
    ensures AllStopped(run[i].writers[w].answers, run[j].writers[w].answers)
    decreases j
  {
    if i < j {
      NothingAfterStop(run, events, bad, i, j - 1, w);
      FinalAt(run, events, bad, j, w);
      StoppedAt(run, events, bad, j, w);
      StoppedOnward(run[i].writers[w].answers, run[j - 1].writers[w].answers, run[j].writers[w].answers);
    }
  }
}

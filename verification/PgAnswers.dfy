/** Which answer of the database writer comes from what: every answer has its cause, and every outcome its answer. */
module PgAnswers {
  import opened Numeric
  import opened Options
  import opened PgWriter

  /** This step gives record n of w its answer, and that answer is the one the step calls for: acknowledged when
      the database said that the record is stored, alone or with its batch; refused for its content when the
      database said so of it alone; its fate unknown when its own insert failed or its answer was lost; stopped
      when the writer gave up, or had before. */
  ghost predicate Gives(s: Sys, e: Event, w: nat, n: nat, reply: Reply) {
    && e.By? && e.w == w && w in s.writers && n >= Next(s.writers[w])
    && match reply
       case Ok => (e.act.Hear? || e.act.HearOne?) && Says(s, w, Stored)
       case Rejected => e.act.HearOne? && Says(s, w, BadData)
       case Unknown => e.act.LoseOne? || (e.act.HearOne? && Says(s, w, Trouble))
       case Stopped => e.act.GiveUp? || e.act.Refuse?
  }

  predicate Says(s: Sys, w: nat, answer: Answer) { HasReply(s, w) && ReplyOf(s, w) == answer }

  /** How many records this step answers. */
  function Answers(s: Sys, e: Event, bad: set<Rid>): nat
    requires Can(s, e, bad) && e.By? && e.w in s.writers
  {
    var wr := s.writers[e.w];
    if e.act.HearOne? || e.act.LoseOne? || e.act.Refuse? then 1
    else if e.act.Hear? && Says(s, e.w, Stored) then Max(Limit(wr) - Next(wr), 0)
    else if e.act.GiveUp? then Max(End(wr) - Next(wr), 0)
    else 0
  }

  /** Every step answers the next so many records, each as the step calls for, and no others. */
  lemma StepAnswers(s: Sys, e: Event, bad: set<Rid>)
    requires Can(s, e, bad) && e.By? && e.w in s.writers
    ensures var was, now := s.writers[e.w].answers, Do(s, e, bad).writers[e.w].answers;
            && was <= now && |now| == |was| + Answers(s, e, bad)
            && forall n :: |was| <= n < |now| ==> Gives(s, e, e.w, n, now[n])
  {
    OwnWriter(s, e, bad);
  }

  ghost predicate GivenAt(run: seq<Sys>, events: seq<Event>, k: nat, w: nat, n: nat, reply: Reply) {
    k < |events| && k < |run| && Gives(run[k], events[k], w, n, reply)
  }

  lemma GivenNow(run: seq<Sys>, events: seq<Event>, bad: set<Rid>, i: nat, w: nat, n: nat)
    requires Behaviour(run, events, bad) && 0 < i < |run| && w in run[i].writers && n < |run[i].writers[w].answers|
    ensures GivenAt(run, events, i - 1, w, n, run[i].writers[w].answers[n])
         || (w in run[i - 1].writers && n < |run[i - 1].writers[w].answers| && run[i - 1].writers[w].answers[n] == run[i].writers[w].answers[n])
  {
    var s, e := run[i - 1], events[i - 1];
    assert Move(s, e, run[i], bad);
    if e.By? && e.w == w && w in s.writers {
      StepAnswers(s, e, bad);
    } else if !(e.By? && e.w == w) {
      OthersStay(s, e, bad, w);
    }
  }

  /** Over every run each answer was given by a step that calls for it, to a record whose turn it was. */
  lemma {:induction false} AnswerHasCause(run: seq<Sys>, events: seq<Event>, bad: set<Rid>, i: nat, w: nat, n: nat) returns (k: nat)
    requires Behaviour(run, events, bad) && i < |run| && w in run[i].writers && n < |run[i].writers[w].answers|
    ensures k < i && GivenAt(run, events, k, w, n, run[i].writers[w].answers[n])
  {
    assert run[0] == Init();
    GivenNow(run, events, bad, i, w, n);
    k := i - 1;
    if !GivenAt(run, events, i - 1, w, n, run[i].writers[w].answers[n]) { k := AnswerHasCause(run, events, bad, i - 1, w, n); }
  }

  // ---- when nothing is lost, a bad record harms no other ----

  /** The database never fails an insert for another reason than its records, no answer is lost, and no writer gives
      up. Connections may still drop, and servers die or take over. */
  ghost predicate NothingLost(events: seq<Event>, i: nat) {
    forall k :: 0 <= k < i && k < |events| ==> Harmless(events[k])
  }

  predicate Harmless(e: Event) {
    match e
    case By(_, act) => !act.LoseOne? && !act.GiveUp?
    case Db(_, what) => !what.Fail?
  }

  /** No session has failed for another reason, and no writer has stopped or left a fate unknown. */
  ghost predicate Clean(s: Sys) {
    && (forall sid :: sid in s.sessions ==> s.sessions[sid].stmt != Replied(Trouble))
    && (forall w :: w in s.writers ==> CleanWriter(s.writers[w]))
  }

  predicate CleanWriter(wr: Writer) {
    !wr.broken && forall n :: 0 <= n < |wr.answers| ==> wr.answers[n] in {Ok, Rejected}
  }

  lemma CleanKept(s: Sys, e: Event, bad: set<Rid>)
    requires Clean(s) && Can(s, e, bad) && Harmless(e)
    ensures Clean(Do(s, e, bad))
  {
    forall w | w in Do(s, e, bad).writers
      ensures CleanWriter(Do(s, e, bad).writers[w])
    {
      if w in s.writers && e.By? && e.w == w {
        OwnClean(s, e, bad);
      } else if w in s.writers {
        OthersStay(s, e, bad, w);
      }
    }
  }

  lemma OwnClean(s: Sys, e: Event, bad: set<Rid>)
    requires Clean(s) && Can(s, e, bad) && Harmless(e) && e.By? && e.w in s.writers
    ensures CleanWriter(Do(s, e, bad).writers[e.w])
  {
    StepAnswers(s, e, bad);
    OwnWriter(s, e, bad);
  }

  lemma {:induction false} StaysClean(run: seq<Sys>, events: seq<Event>, bad: set<Rid>, i: nat)
    requires Behaviour(run, events, bad) && i < |run| && NothingLost(events, i)
    ensures Clean(run[i])
  {
    if i > 0 {
      StaysClean(run, events, bad, i - 1);
      assert Move(run[i - 1], events[i - 1], run[i], bad);
      CleanKept(run[i - 1], events[i - 1], bad);
    } else {
      assert run[0] == Init();
    }
  }

  /** Then every answered record is acknowledged if and only if it can be stored, and refused for its content
      otherwise: a bad record is refused without affecting the others. */
  lemma BadAlone(run: seq<Sys>, events: seq<Event>, bad: set<Rid>, i: nat, w: nat, n: nat)
    requires Behaviour(run, events, bad) && i < |run| && NothingLost(events, i)
    requires w in run[i].writers && n < |run[i].writers[w].answers|
    ensures run[i].writers[w].answers[n] == if Rid(w, n) in bad then Rejected else Ok
  {
    StaysClean(run, events, bad, i);
    AlwaysFine(run, events, bad, i);
    assert CleanWriter(run[i].writers[w]);
    AnswerIsRight(run[i], w, n, bad);
  }

  // ---- nobody is stranded ----

  /** A step that brings the writer on: the next useful one while it has its connection, and the lock where it asks for
      it; otherwise noticing that it does not. */
  predicate Onward(s: Sys, w: nat, e: Event)
    requires w in s.writers
  {
    match e
    case Db(sid, what) => Connected(s, w) && s.writers[w].conn == Some(sid) && (what.Store? || what.Reject?)
    case By(v, act) =>
      v == w &&
      match act
      case Take(count) => count == Min(s.writers[w].queued - Next(s.writers[w]), 256)
      case LockFails(taken) => !taken && (!Connected(s, w) || s.lock.Some?)
      case _ => act in {Refuse, Send, Hear, SendOne, HearOne, Connect, Lock} || (act in {SendFails, Drop, LoseOne} && !Connected(s, w))
  }

  /** In every state a run can reach, a writer that is not gone and has records to answer can go on, and one without a
      connection or the lock may also give up. */
  lemma NobodyIsStranded(run: seq<Sys>, events: seq<Event>, bad: set<Rid>, i: nat, w: nat)
    requires Behaviour(run, events, bad) && i < |run|
    requires w in run[i].writers && !run[i].writers[w].phase.Dead? && Next(run[i].writers[w]) < run[i].writers[w].queued
    ensures exists e :: Onward(run[i], w, e) && Can(run[i], e, bad)
    ensures run[i].writers[w].phase.Down? || run[i].writers[w].phase.Asking? ==> Can(run[i], By(w, GiveUp), bad)
  {
    var s, wr := run[i], run[i].writers[w];
    AlwaysFine(run, events, bad, i);
    assert WriterFine(s, w, bad);
    if wr.phase.Idle? && !wr.broken {
      CanGoOn(s, w, By(w, Take(Min(wr.queued - Next(wr), 256))), bad);
    } else if wr.phase.Idle? {
      CanGoOn(s, w, By(w, Refuse), bad);
    } else if wr.phase.Ready? {
      CanGoOn(s, w, By(w, if Connected(s, w) then Send else SendFails), bad);
    } else if wr.phase.One? {
      CanGoOn(s, w, By(w, if Connected(s, w) then SendOne else LoseOne), bad);
    } else if wr.phase.Down? {
      CanGoOn(s, w, By(w, Connect), bad);
    } else if wr.phase.Asking? {
      CanGoOn(s, w, By(w, if Connected(s, w) && s.lock == None then Lock else LockFails(false)), bad);
    } else {
      CanAnswer(s, w, bad);
    }
  }

  lemma CanGoOn(s: Sys, w: nat, e: Event, bad: set<Rid>)
    requires w in s.writers && Onward(s, w, e) && Can(s, e, bad)
    ensures exists x :: Onward(s, w, x) && Can(s, x, bad)
  {
  }

  /** A writer that waits for an answer: it is there, the database can still give it, or the connection is gone. */
  lemma CanAnswer(s: Sys, w: nat, bad: set<Rid>)
    requires w in s.writers && (s.writers[w].phase.Sent? || s.writers[w].phase.OneSent?) && ConnFine(s, w, s.writers[w], bad)
    ensures exists e :: Onward(s, w, e) && Can(s, e, bad)
  {
    var wr := s.writers[w];
    if !Connected(s, w) {
      CanGoOn(s, w, By(w, if wr.phase.Sent? then Drop else LoseOne), bad);
    } else if HasReply(s, w) {
      CanGoOn(s, w, By(w, if wr.phase.Sent? then Hear else HearOne), bad);
    } else {
      CanGoOn(s, w, Db(wr.conn.value, if RunsBad(s, wr.conn.value, bad) then Reject else Store), bad);
    }
  }

  // ---- servers that are gone, and locks nobody knows of ----

  /** A server can go at any time; it then never takes another step, and what it has answered stays as it was. */
  lemma GoneForGood(run: seq<Sys>, events: seq<Event>, bad: set<Rid>, i: nat, w: nat)
    requires Behaviour(run, events, bad) && i < |run| && w in run[i].writers && !run[i].writers[w].phase.Dead?
    ensures Can(run[i], By(w, Kill), bad)
    ensures i + 1 < |run| && events[i] == By(w, Kill) ==>
              forall j :: i < j < |run| ==>
                && w in run[j].writers && run[j].writers[w].phase.Dead? && run[j].writers[w].answers == run[i].writers[w].answers
                && forall act :: !Can(run[j], By(w, act), bad)
  {
    if i + 1 < |run| && events[i] == By(w, Kill) {
      assert Move(run[i], events[i], run[i + 1], bad);
      forall j | i < j < |run|
        ensures w in run[j].writers && run[j].writers[w] == run[i + 1].writers[w]
      {
        StaysGone(run, events, bad, i + 1, j, w);
      }
    }
  }

  lemma {:induction false} StaysGone(run: seq<Sys>, events: seq<Event>, bad: set<Rid>, i: nat, j: nat, w: nat)
    requires Behaviour(run, events, bad) && i <= j < |run| && w in run[i].writers && run[i].writers[w].phase.Dead?
    ensures w in run[j].writers && run[j].writers[w] == run[i].writers[w]
    decreases j
  {
    if i < j {
      StaysGone(run, events, bad, i, j - 1, w);
      assert Move(run[j - 1], events[j - 1], run[j], bad);
      OthersStay(run[j - 1], events[j - 1], bad, w);
    }
  }

  /** A writer that asks for the lock may get it and not hear of it: nobody else can then take it before the database
      has noticed that the session is gone. */
  lemma LockedUnheard(s: Sys, w: nat, v: nat, bad: set<Rid>)
    requires Can(s, By(w, LockFails(true)), bad)
    ensures var n := Do(s, By(w, LockFails(true)), bad);
            && n.writers[w].conn == None && n.lock == s.writers[w].conn && n.lock.Some? && n.lock.value in n.sessions
            && !Can(n, By(v, Lock), bad)
            && Can(n, Db(n.lock.value, Hangup), bad) && Do(n, Db(n.lock.value, Hangup), bad).lock == None
  {
  }
}

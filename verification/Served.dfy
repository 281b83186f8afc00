/** What a live session does with a push, a `sync`, a close. */
module Served {
  import opened Datoms
  import opened SessionSync
  import opened LogWindow
  import opened Session
  import opened CatchUp

  // ---- one push ---------------------------------------------------------------------------------

  function Waiting(s: Cursor): Machine {
    Machine(s, Idle, [])
  }

  /** The session has accepted a frame: it left, and what the client was told moved on. */
  function SentOne(s: Cursor, frame: Frame, t: nat): Cursor
    requires s.credit > 0
  {
    s.(watermark := t, lastT := if t > s.lastT then t else s.lastT, credit := s.credit - 1,
       out := s.out + [Sent(frame)])
  }

  ghost predicate Ready(s: Cursor) {
    !s.dead && s.credit > 0
  }

  /**
   * A push that fits the cursor of a live session, after a write of its own
   * socket: what the sieve lets through is sent, with the writer's id on the
   * writer's `t`; a skip is silence that moves the cursor; a resync is a dump,
   * or the bare news of one; and a sieve that fails ends the session.
   */
  lemma PushIsServed(
      o: Options, s: Cursor, e: Entry, rootT: nat, wt: nat, id: string, d: Decision, t: nat, dump: seq<Datom>)
    requires o.sieves && Ready(s) && rootT <= s.watermark && e.t == s.watermark + 1
    ensures var run := [DoWrote(wt, id), DoApply(e, rootT), DoStart, DoJudge(d)];
      && IsRun(o, Waiting(s), run)
      && var g, s1 := After(o, Waiting(s), run), s.(writerEcho := Some(Echo(wt, id)));
         match d
         case Tx(ds) =>
           g == Waiting(
             if wt == e.t then SentOne(s1.(writerEcho := None), TxFrame(e.t, ds, Some(id)), e.t)
             else SentOne(s1, TxFrame(e.t, ds, None), e.t))
         case Skip => g == Waiting(s1.(watermark := e.t, out := s.out + [Silent(e.t)]))
         case Resync =>
           if o.dumps then
             && IsRun(o, g, [DoDump(t, dump)])
             && After(o, g, [DoDump(t, dump)]) == Waiting(SentOne(s1, ResyncFrame(t, Some(dump)), t))
           else g == Waiting(SentOne(s1, ResyncFrame(e.t, None), e.t))
         case Broken => g == Waiting(s1.(dead := true))
  {
    var run := [DoWrote(wt, id), DoApply(e, rootT), DoStart, DoJudge(d)];
    var s1 := s.(writerEcho := Some(Echo(wt, id)));
    var job := Job(Log(e.t, rootT, [e]), None);
    var m2, m3 := Machine(s1, Idle, [job]), Machine(s1, Sieving(job, [e], s.watermark), []);
    StartFits(o, s1, e, job);
    Unfold4(o, Waiting(s), Waiting(s1), m2, m3, run);
    OneJudged(o, s1, e, job, d);
    if d.Resync? && o.dumps {
      Unfold1(o, Machine(s1, Dumping(job), []), DoDump(t, dump));
    }
  }

  lemma StartFits(o: Options, s: Cursor, e: Entry, job: Job)
    requires o.sieves && Ready(s) && job == Job(Log(e.t, job.log.rootT, [e]), None)
    requires job.log.rootT <= s.watermark && e.t == s.watermark + 1
    ensures Start(o, Machine(s, Idle, [job])) == Machine(s, Sieving(job, [e], s.watermark), [])
  {
    OneNewer(e, s.watermark);
    assert [job][1..] == [];
  }

  /** The sieve's answer on the one entry of a job. */
  lemma OneJudged(o: Options, s: Cursor, e: Entry, job: Job, d: Decision)
    requires Ready(s) && job.log.t == e.t && job.reply.None?
    ensures Judge(o, Machine(s, Sieving(job, [e], s.watermark), []), d) ==
      match d
      case Tx(ds) =>
        var echo := EchoFor(s.writerEcho, e.t);
        Waiting(SentOne(s.(writerEcho := if echo.Some? then None else s.writerEcho), TxFrame(e.t, ds, echo), e.t))
      case Skip => Waiting(s.(watermark := e.t, out := s.out + [Silent(e.t)]))
      case Resync =>
        if o.dumps then Machine(s, Dumping(job), []) else Waiting(SentOne(s, ResyncFrame(e.t, None), e.t))
      case Broken => Waiting(s.(dead := true))
  {
    assert [e][1..] == [];
  }

  lemma OneNewer(e: Entry, from: nat)
    ensures SortByT(NewerThan([e], from)) == if e.t > from then [e] else []
  {
    assert [e][..0] == [] && NewerThan([], from) == [];
    if e.t > from {
      assert SortByT([e]) == Insert(e, SortByT([e][..0]));
    }
  }

  lemma Unfold1(o: Options, m: Machine, l: Label)
    requires Enabled(m, l)
    ensures IsRun(o, m, [l]) && After(o, m, [l]) == Step(o, m, l)
  {
    assert [l][1..] == [];
  }

  lemma Unfold2(o: Options, m: Machine, m1: Machine, run: seq<Label>)
    requires |run| == 2 && Enabled(m, run[0]) && m1 == Step(o, m, run[0]) && Enabled(m1, run[1])
    ensures IsRun(o, m, run) && After(o, m, run) == Step(o, m1, run[1])
  {
    Unfold1(o, m1, run[1]);
    assert run[1..] == [run[1]];
  }

  lemma Unfold4(o: Options, m: Machine, m1: Machine, m2: Machine, m3: Machine, run: seq<Label>)
    requires |run| == 4 && Enabled(m, run[0]) && m1 == Step(o, m, run[0]) && Enabled(m1, run[1])
    requires m2 == Step(o, m1, run[1]) && Enabled(m2, run[2]) && m3 == Step(o, m2, run[2]) && Enabled(m3, run[3])
    ensures IsRun(o, m, run) && After(o, m, run) == Step(o, m3, run[3])
  {
    Unfold2(o, m2, m3, run[2..]);
    assert run[1..][1..] == run[2..];
  }

  /** Without a sieve it goes out as it is. */
  lemma RawPushIsServed(o: Options, s: Cursor, e: Entry, rootT: nat)
    requires !o.sieves && Ready(s) && rootT <= s.watermark && e.t == s.watermark + 1
    ensures var run := [DoApply(e, rootT), DoStart];
      && IsRun(o, Waiting(s), run)
      && After(o, Waiting(s), run) == Waiting(SentOne(s, TxFrame(e.t, e.datoms, None), e.t))
  {
    var job := Job(Log(e.t, rootT, [e]), None);
    OneRaw(o, s, e, job);
    assert [job][1..] == [];
    Unfold2(o, Waiting(s), Machine(s, Idle, [job]), [DoApply(e, rootT), DoStart]);
  }

  lemma OneRaw(o: Options, s: Cursor, e: Entry, job: Job)
    requires job.reply.None? && job.log.entries == [e]
    ensures WalkRaw(o, s, job, [e], s.watermark, []) ==
      if e.t <= s.watermark then Waiting(s)
      else if e.t > s.watermark + 1 && e.t > job.log.rootT then Torn(o, s, job, [])
      else Waiting(SeenT(Send(s.(watermark := e.t), TxFrame(e.t, e.datoms, None)), e.t))
  {
    assert [e][1..] == [];
    var s1 := SeenT(Send(s.(watermark := e.t), TxFrame(e.t, e.datoms, None)), e.t);
    assert WalkRaw(o, s1, job, [], e.t, []) == Waiting(s1);
    assert WalkRaw(o, s, job, [], s.watermark, []) == Waiting(s);
  }

  /**
   * A push that does not fit. One at or below the cursor is not sent again;
   * one past a hole, or a cursor below the root, is answered with a dump where
   * there is one to give. Without one a hole holds the cursor, and a cursor
   * below the root is told of the loss.
   */
  lemma UnfitPushIsServed(o: Options, s: Cursor, e: Entry, rootT: nat, t: nat, dump: seq<Datom>)
    requires Ready(s) && rootT <= e.t && e.t != s.watermark + 1 && (e.t > rootT || s.watermark < rootT)
    ensures var run := [DoApply(e, rootT), DoStart];
      && IsRun(o, Waiting(s), run)
      && var g := After(o, Waiting(s), run);
         if rootT <= s.watermark && e.t <= s.watermark then g == Waiting(s)
         else if o.dumps then
           && IsRun(o, g, [DoDump(t, dump)])
           && After(o, g, [DoDump(t, dump)]) == Waiting(SentOne(s, ResyncFrame(t, Some(dump)), t))
         else if s.watermark < rootT then g == Waiting(SentOne(s, ResyncFrame(e.t, None), e.t))
         else g == Waiting(s)
  {
    var job := Job(Log(e.t, rootT, [e]), None);
    Unfold2(o, Waiting(s), Machine(s, Idle, [job]), [DoApply(e, rootT), DoStart]);
    StartUnfit(o, s, e, job);
    if o.dumps && (s.watermark < rootT || e.t > s.watermark) {
      Unfold1(o, Machine(s, Dumping(job), []), DoDump(t, dump));
    }
  }

  lemma StartUnfit(o: Options, s: Cursor, e: Entry, job: Job)
    requires Ready(s) && job == Job(Log(e.t, job.log.rootT, [e]), None)
    requires e.t != s.watermark + 1 && (e.t > job.log.rootT || s.watermark < job.log.rootT)
    ensures Start(o, Machine(s, Idle, [job])) ==
      if job.log.rootT <= s.watermark && e.t <= s.watermark then Waiting(s)
      else if o.dumps then Machine(s, Dumping(job), [])
      else if s.watermark < job.log.rootT then Waiting(SentOne(s, ResyncFrame(e.t, None), e.t))
      else Waiting(s)
  {
    OneNewer(e, s.watermark);
    OneRaw(o, s, e, job);
    assert [job][1..] == [];
  }

  // ---- the whole job ------------------------------------------------------------------------------

  /** The end of a sieved walk that may dump: at or past the log's own `t`, or the socket is dead. */
  lemma {:induction false} WalkReaches(o: Options, s: Cursor, job: Job, pending: seq<Entry>, cursor: nat, a: Answers)
    requires o.sieves && o.dumps && job.log.t <= a.t
    requires s.watermark >= cursor
    ensures var s1 := Drive(o, Settle(o, s, job, pending, cursor, []), a).s;
      !s1.dead ==> s1.watermark >= job.log.t || (exists i :: 0 <= i < |pending| && pending[i].t > job.log.t)
    decreases |pending|
  {
    if pending != [] && pending[0].t <= cursor + 1 {
      var t := pending[0].t;
      match a.sieve(pending[0])
      case Skip => WalkReaches(o, PushSkip(s, t), job, pending[1..], t, a);
      case Tx(datoms) => WalkReaches(o, PushTx(s, t, datoms), job, pending[1..], t, a);
      case Resync =>
      case Broken =>
    }
  }

  /**
   * A job never ends short: with a sieve, and dumps as new as its log, a
   * session that is still live after the job has a cursor at or past the
   * log's `t`, however torn the log was.
   */
  lemma JobCatchesUp(o: Options, s: Cursor, log: Log, a: Answers)
    requires o.sieves && o.dumps && log.t <= a.t && forall i :: 0 <= i < |log.entries| ==> log.entries[i].t <= log.t
    requires log.rootT <= log.t && DistinctT(log.entries)
    ensures var s1 := Consider(o, s, log, s.watermark, a); !s1.dead ==> s1.watermark >= log.t
  {
    var pending := SortByT(NewerThan(log.entries, s.watermark));
    PendingSorted(log.entries, s.watermark);
    forall i | 0 <= i < |pending| ensures pending[i].t <= log.t {
      assert pending[i] in pending;
    }
    if !s.dead && s.watermark >= log.rootT {
      WalkReaches(o, s, Job(log, None), pending, s.watermark, a);
    }
  }

  // ---- every `sync` is answered --------------------------------------------------------------------

  /** The cursors named by the client, in order. */
  function NamedIn(out: seq<Event>): seq<nat> {
    if out == [] then []
    else NamedIn(out[..|out| - 1]) + (match out[|out| - 1] case Named(from) => [from] case _ => [])
  }

  /** The cursors the replies answer to, in order. */
  function AnsweredIn(out: seq<Event>): seq<nat> {
    if out == [] then []
    else AnsweredIn(out[..|out| - 1]) + (match out[|out| - 1] case Sent(SyncReply(_, from)) => [from] case _ => [])
  }

  function Owed(job: Job): seq<nat> {
    if job.reply.Some? then [job.reply.value] else []
  }

  function OwedIn(queue: seq<Job>): seq<nat> {
    if queue == [] then [] else OwedIn(queue[..|queue| - 1]) + Owed(queue[|queue| - 1])
  }

  /** The cursors of the `sync`s still to be answered: the running job's, and then the queue's. */
  function OwedBy(m: Machine): seq<nat> {
    (match m.phase case Idle => [] case Sieving(job, _, _) => Owed(job) case Dumping(job) => Owed(job)) +
    OwedIn(m.queue)
  }

  /** On a live session the `sync`s answered and those still to be are the `sync`s there were, in their order. */
  ghost predicate AllAnswered(m: Machine) {
    !m.s.dead ==> NamedIn(m.s.out) == AnsweredIn(m.s.out) + OwedBy(m)
  }

  /** The same while a job is between two awaits. */
  ghost predicate Owing(s: Cursor, job: Job, queue: seq<Job>) {
    !s.dead ==> NamedIn(s.out) == AnsweredIn(s.out) + (Owed(job) + OwedIn(queue))
  }

  lemma SendNotes(s: Cursor, frame: Frame)
    ensures NamedIn(Send(s, frame).out) == NamedIn(s.out)
    ensures AnsweredIn(Send(s, frame).out) ==
      AnsweredIn(s.out) + if frame.SyncReply? && !s.dead && s.credit > 0 then [frame.from] else []
  {
    assert (s.out + [Sent(frame)])[..|s.out|] == s.out;
  }

  lemma FinishAnswers(s: Cursor, job: Job, queue: seq<Job>)
    requires Owing(s, job, queue)
    ensures AllAnswered(Finish(s, job, queue))
  {
    if job.reply.Some? {
      SendNotes(s, SyncReply(s.watermark, job.reply.value));
    }
  }

  lemma PushRawOwes(s: Cursor, e: Entry, job: Job, queue: seq<Job>)
    requires Owing(s, job, queue)
    ensures Owing(PushRaw(s, e), job, queue)
  {
    SendNotes(s.(watermark := e.t), TxFrame(e.t, e.datoms, None));
  }

  lemma {:induction false} WalkRawAnswers(
      o: Options, s: Cursor, job: Job, entries: seq<Entry>, from: nat, queue: seq<Job>)
    requires Owing(s, job, queue)
    ensures AllAnswered(WalkRaw(o, s, job, entries, from, queue))
    decreases |entries|
  {
    if entries == [] {
      FinishAnswers(s, job, queue);
    } else {
      var e := entries[0];
      if e.t <= from {
        WalkRawAnswers(o, s, job, entries[1..], from, queue);
      } else if e.t > from + 1 && e.t > job.log.rootT {
        FinishAnswers(s, job, queue);
      } else {
        PushRawOwes(s, e, job, queue);
        WalkRawAnswers(o, PushRaw(s, e), job, entries[1..], e.t, queue);
      }
    }
  }

  lemma ResyncAnswers(o: Options, s: Cursor, t: nat, job: Job, queue: seq<Job>)
    requires Owing(s, job, queue)
    ensures AllAnswered(StartResync(o, s, t, job, queue))
  {
    SendNotes(s, ResyncFrame(t, None));
    FinishAnswers(PushResync(s, t, None), job, queue);
  }

  lemma SettleAnswers(o: Options, s: Cursor, job: Job, pending: seq<Entry>, cursor: nat, queue: seq<Job>)
    requires Owing(s, job, queue)
    ensures AllAnswered(Settle(o, s, job, pending, cursor, queue))
  {
    FinishAnswers(s, job, queue);
  }

  lemma PushTxAnswers(s: Cursor, t: nat, datoms: seq<Datom>, job: Job, queue: seq<Job>)
    requires Owing(s, job, queue)
    ensures Owing(PushTx(s, t, datoms), job, queue)
  {
    var echo := EchoFor(s.writerEcho, t);
    SendNotes(s.(watermark := t, writerEcho := if echo.Some? then None else s.writerEcho), TxFrame(t, datoms, echo));
  }

  lemma JudgeAnswers(o: Options, m: Machine, d: Decision)
    requires AllAnswered(m) && m.phase.Sieving? && m.phase.pending != []
    ensures AllAnswered(Judge(o, m, d))
  {
    var Sieving(job, pending, _) := m.phase;
    var t := pending[0].t;
    match d
    case Skip =>
      assert (m.s.out + [Silent(t)])[..|m.s.out|] == m.s.out;
      SettleAnswers(o, PushSkip(m.s, t), job, pending[1..], t, m.queue);
    case Tx(datoms) =>
      PushTxAnswers(m.s, t, datoms, job, m.queue);
      SettleAnswers(o, PushTx(m.s, t, datoms), job, pending[1..], t, m.queue);
    case Resync => ResyncAnswers(o, m.s, t, job, m.queue);
    case Broken =>
  }

  lemma {:induction false} OwedFirst(queue: seq<Job>)
    requires queue != []
    ensures OwedIn(queue) == Owed(queue[0]) + OwedIn(queue[1..])
  {
    var n := |queue| - 1;
    if n > 0 {
      OwedFirst(queue[..n]);
      assert queue[..n][1..] == queue[1..][..n - 1];
    }
  }

  lemma EnqueueAnswers(m: Machine, job: Job, out: seq<Event>)
    requires AllAnswered(m) && NamedIn(out) == NamedIn(m.s.out) + Owed(job) && AnsweredIn(out) == AnsweredIn(m.s.out)
    ensures AllAnswered(Machine(m.s.(out := out), m.phase, m.queue + [job]))
  {
    assert (m.queue + [job])[..|m.queue|] == m.queue;
  }

  lemma BeginAnswers(o: Options, s: Cursor, job: Job, from: nat, queue: seq<Job>)
    requires Owing(s, job, queue)
    ensures AllAnswered(Begin(o, s, job, from, queue))
  {
    if s.dead {
      FinishAnswers(s, job, queue);
    } else if from < job.log.rootT {
      ResyncAnswers(o, s, job.log.t, job, queue);
    } else if o.sieves {
      SettleAnswers(o, s, job, SortByT(NewerThan(job.log.entries, from)), from, queue);
    } else {
      WalkRawAnswers(o, s, job, job.log.entries, from, queue);
    }
  }

  lemma StartAnswers(o: Options, m: Machine)
    requires AllAnswered(m) && m.phase.Idle? && m.queue != []
    ensures AllAnswered(Start(o, m))
  {
    OwedFirst(m.queue);
    assert Owing(m.s, m.queue[0], m.queue[1..]);
    BeginAnswers(o, m.s, m.queue[0], m.s.watermark, m.queue[1..]);
  }

  lemma DumpAnswers(m: Machine, t: nat, datoms: seq<Datom>)
    requires AllAnswered(m) && m.phase.Dumping?
    ensures AllAnswered(Session.Dump(m, t, datoms))
  {
    SendNotes(m.s, ResyncFrame(t, Some(datoms)));
    FinishAnswers(PushResync(m.s, t, Some(datoms)), m.phase.job, m.queue);
  }

  lemma SyncAnswers(m: Machine, log: Log, from: nat)
    requires AllAnswered(m)
    ensures AllAnswered(Sync(m, log, from))
  {
    assert (m.s.out + [Named(from)])[..|m.s.out|] == m.s.out;
    EnqueueAnswers(m, Job(log, Some(from)), m.s.out + [Named(from)]);
  }

  lemma StepAnswers(o: Options, m: Machine, l: Label)
    requires AllAnswered(m) && Enabled(m, l) && !l.DoHibernate?
    ensures AllAnswered(Step(o, m, l))
  {
    match l
    case DoApply(e, rootT) => EnqueueAnswers(m, Job(Log(e.t, rootT, [e]), None), m.s.out);
    case DoSync(log, from) => SyncAnswers(m, log, from);
    case DoStart => StartAnswers(o, m);
    case DoJudge(d) => JudgeAnswers(o, m, d);
    case DoDump(t, datoms) => DumpAnswers(m, t, datoms);
    case _ =>
  }

  /**
   * In every run that does not hibernate, the `sync`s a live session has
   * answered, and those it still will, are all the `sync`s it was sent, in
   * order and once each. A session with nothing left to do has answered all.
   */
  lemma {:induction false} SyncsAreAnswered(o: Options, m: Machine, run: seq<Label>)
    requires AllAnswered(m) && IsRun(o, m, run) && forall i :: 0 <= i < |run| ==> !run[i].DoHibernate?
    ensures var g := After(o, m, run);
      && AllAnswered(g)
      && (!g.s.dead && g.phase.Idle? && g.queue == [] ==> AnsweredIn(g.s.out) == NamedIn(g.s.out))
    decreases |run|
  {
    if run != [] {
      StepAnswers(o, m, run[0]);
      SyncsAreAnswered(o, Step(o, m, run[0]), run[1..]);
    }
  }

  // ---- a `sync`, a close, a hibernation ------------------------------------------------------------

  /**
   * A `sync` is heard at once, whatever the session is doing: the cursor is
   * what the client named, and its job waits its turn behind the others.
   */
  lemma SyncIsHeard(o: Options, m: Machine, log: Log, from: nat)
    ensures var g := Step(o, m, DoSync(log, from));
      && g.s == m.s.(watermark := from, out := m.s.out + [Named(from)]) && g.phase == m.phase
      && g.queue == m.queue + [Job(log, Some(from))]
  {
  }

  /** One that names the log's own end is answered with it, and nothing else is sent. */
  lemma CaughtUpIsAnswered(o: Options, s: Cursor, log: Log, from: nat)
    requires Ready(s) && log.rootT <= from == log.t && forall i :: 0 <= i < |log.entries| ==> log.entries[i].t <= from
    ensures var run := [DoSync(log, from), DoStart];
      && IsRun(o, Waiting(s), run)
      && After(o, Waiting(s), run) == Waiting(
           s.(watermark := from, credit := s.credit - 1, out := s.out + [Named(from)] + [Sent(SyncReply(from, from))]))
  {
    var job, s1 := Job(log, Some(from)), s.(watermark := from, out := s.out + [Named(from)]);
    Unfold2(o, Waiting(s), Machine(s1, Idle, [job]), [DoSync(log, from), DoStart]);
    assert [job][1..] == [];
    NoneNewer(log.entries, from);
    NothingRaw(o, s1, job, log.entries);
  }

  lemma {:induction false} NoneNewer(entries: seq<Entry>, from: nat)
    requires forall i :: 0 <= i < |entries| ==> entries[i].t <= from
    ensures NewerThan(entries, from) == []
  {
    if entries != [] {
      NoneNewer(entries[..|entries| - 1], from);
    }
  }

  lemma {:induction false} NothingRaw(o: Options, s: Cursor, job: Job, entries: seq<Entry>)
    requires forall i :: 0 <= i < |entries| ==> entries[i].t <= s.watermark
    ensures WalkRaw(o, s, job, entries, s.watermark, []) == Finish(s, job, [])
    decreases |entries|
  {
    if entries != [] {
      NothingRaw(o, s, job, entries[1..]);
    }
  }

  /** A sieve that fails under a `sync` tells the client so, and that is the last it hears. */
  lemma FailedSyncIsTold(o: Options, s: Cursor, job: Job, pending: seq<Entry>, cursor: nat, queue: seq<Job>)
    requires Ready(s) && pending != []
    ensures var g := Judge(o, Machine(s, Sieving(job, pending, cursor), queue), Broken);
      && g.s.dead && g.phase.Idle? && g.queue == queue
      && g.s.out == if job.reply.Some? then s.out + [Sent(SyncFailed)] else s.out
  {
  }

  /** A closed session sends nothing any more, and stays closed. */
  lemma ClosedIsSilent(o: Options, m: Machine, run: seq<Label>)
    requires IsRun(o, Step(o, m, DoClose), run)
    ensures var g := After(o, Step(o, m, DoClose), run); g.s.dead && CatchUp.Frames(g.s.out) == CatchUp.Frames(m.s.out)
  {
    DeadIsSilent(o, Step(o, m, DoClose), run);
  }

  lemma {:induction false} DeadIsSilent(o: Options, m: Machine, run: seq<Label>)
    requires m.s.dead && IsRun(o, m, run)
    ensures var g := After(o, m, run); g.s.dead && CatchUp.Frames(g.s.out) == CatchUp.Frames(m.s.out)
    decreases |run|
  {
    if run != [] {
      StepIsSilent(o, m, run[0]);
      DeadIsSilent(o, Step(o, m, run[0]), run[1..]);
    }
  }

  lemma StepIsSilent(o: Options, m: Machine, l: Label)
    requires m.s.dead && Enabled(m, l)
    ensures var g := Step(o, m, l); g.s.dead && CatchUp.Frames(g.s.out) == CatchUp.Frames(m.s.out)
  {
    match l
    case DoSync(log, from) => assert (m.s.out + [Named(from)])[..|m.s.out|] == m.s.out;
    case DoJudge(d) => JudgeIsSilent(o, m, d);
    case _ =>
  }

  lemma JudgeIsSilent(o: Options, m: Machine, d: Decision)
    requires m.s.dead && m.phase.Sieving? && m.phase.pending != []
    ensures var g := Judge(o, m, d); g.s.dead && CatchUp.Frames(g.s.out) == CatchUp.Frames(m.s.out)
  {
    var t := m.phase.pending[0].t;
    assert (m.s.out + [Silent(t)])[..|m.s.out|] == m.s.out;
  }

  /** What hibernation keeps and what it forgets. */
  lemma HibernateForgets(o: Options, m: Machine)
    ensures Step(o, m, DoHibernate) == Waiting(m.s)
  {
  }

  /** A fresh socket is live and serves the first commit. */
  lemma FirstPush(o: Options, credit: nat, e: Entry, id: string, ds: seq<Datom>)
    requires o.sieves && credit > 0 && e.t == 1
    ensures var run := [DoWrote(1, id), DoApply(e, 0), DoStart, DoJudge(Tx(ds))];
      && IsRun(o, Upgraded(credit), run)
      && var g := After(o, Upgraded(credit), run);
         !g.s.dead && g.s.out == [Sent(TxFrame(1, ds, Some(id)))] && g.s.watermark == 1 && g.s.lastT == 1
  {
    PushIsServed(o, Upgraded(credit).s, e, 0, 1, id, Tx(ds), 0, []);
  }
}

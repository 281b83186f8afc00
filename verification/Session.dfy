/** One socket's walk over the log, as the code between two awaits. */
module Session {
  import opened Datoms
  import opened SessionSync
  import opened LogWindow

  datatype Echo = Echo(t: nat, clientTxId: string)

  datatype Frame =
    | TxFrame(t: nat, datoms: seq<Datom>, clientTxId: Option<string>)
    | ResyncFrame(t: nat, dump: Option<seq<Datom>>)
    | SyncReply(t: nat, from: nat)
    | SyncFailed

  /** What happened on the socket: a frame left, an entry was judged invisible, a client named a cursor. */
  datatype Event = Sent(frame: Frame) | Silent(t: nat) | Named(from: nat)

  /** `credit` is how many more sends the runtime accepts before it refuses one. */
  datatype Cursor = Cursor(lastT: nat, watermark: nat, writerEcho: Option<Echo>, dead: bool, credit: nat,
    out: seq<Event>)

  /** Which of the optional seams this session was given. */
  datatype Options = Options(sieves: bool, dumps: bool)

  datatype Job = Job(log: Log, reply: Option<nat>)

  /**
   * A job reads the cursor when it runs and then keeps its own; the shared
   * `watermark` can be overwritten by a `sync` frame while a job is waiting
   * for the sieve or for a dump.
   */
  datatype Phase =
    | Idle
    | Sieving(job: Job, pending: seq<Entry>, cursor: nat)
    | Dumping(job: Job)

  datatype Machine = Machine(s: Cursor, phase: Phase, queue: seq<Job>)

  // ---- effects on the cursor --------------------------------------------------

  function Send(s: Cursor, frame: Frame): Cursor {
    if s.dead then s
    else if s.credit == 0 then s.(dead := true)
    else s.(credit := s.credit - 1, out := s.out + [Sent(frame)])
  }

  function SeenT(s: Cursor, t: nat): Cursor {
    if t > s.lastT then s.(lastT := t) else s
  }

  function PushResync(s: Cursor, t: nat, dump: Option<seq<Datom>>): Cursor {
    SeenT(Send(s, ResyncFrame(t, dump)), t).(watermark := t)
  }

  /** The writer's id, on its own `t`. */
  function EchoFor(echo: Option<Echo>, t: nat): Option<string> {
    if echo.Some? && echo.value.t == t then Some(echo.value.clientTxId) else None
  }

  function PushTx(s: Cursor, t: nat, datoms: seq<Datom>): Cursor {
    var echo := EchoFor(s.writerEcho, t);
    var s1 := s.(watermark := t, writerEcho := if echo.Some? then None else s.writerEcho);
    SeenT(Send(s1, TxFrame(t, datoms, echo)), t)
  }

  function PushSkip(s: Cursor, t: nat): Cursor {
    s.(watermark := t, out := s.out + [Silent(t)])
  }

  // ---- the job ------------------------------------------------------------------

  /** The job is over; a `sync` is answered with the walk cursor, whatever it is by now. */
  function Finish(s: Cursor, job: Job, queue: seq<Job>): Machine {
    Machine(if job.reply.Some? then Send(s, SyncReply(s.watermark, job.reply.value)) else s, Idle, queue)
  }

  /** A hole in the window: dump, or hold the cursor. */
  function Torn(o: Options, s: Cursor, job: Job, queue: seq<Job>): Machine {
    if o.dumps then Machine(s, Dumping(job), queue) else Finish(s, job, queue)
  }

  function StartResync(o: Options, s: Cursor, t: nat, job: Job, queue: seq<Job>): Machine {
    if o.dumps then Machine(s, Dumping(job), queue) else Finish(PushResync(s, t, None), job, queue)
  }

  /** Run on to the next await: the sieve, the dump, or the end of the job. */
  function Settle(o: Options, s: Cursor, job: Job, pending: seq<Entry>, cursor: nat, queue: seq<Job>): Machine {
    if pending == [] then
      if cursor < job.log.t then Torn(o, s, job, queue) else Finish(s, job, queue)
    else if pending[0].t > cursor + 1 then Torn(o, s, job, queue)
    else Machine(s, Sieving(job, pending, cursor), queue)
  }

  /** The walk of a session without a sieve never waits, except for a dump. */
  function WalkRaw(o: Options, s: Cursor, job: Job, entries: seq<Entry>, from: nat, queue: seq<Job>): Machine
    decreases |entries|
  {
    if entries == [] then Finish(s, job, queue)
    else
      var e := entries[0];
      if e.t <= from then WalkRaw(o, s, job, entries[1..], from, queue)
      else if e.t > from + 1 && e.t > job.log.rootT then Torn(o, s, job, queue)
      else WalkRaw(o, SeenT(Send(s.(watermark := e.t), TxFrame(e.t, e.datoms, None)), e.t), job, entries[1..], e.t,
        queue)
  }

  // ---- the steps ------------------------------------------------------------------

  /** The replica applied one frame, and this session is to walk it. */
  function ApplyEntry(m: Machine, e: Entry, rootT: nat): Machine {
    m.(queue := m.queue + [Job(Log(e.t, rootT, [e]), None)])
  }

  /** A `sync` frame's log has been read. It overwrites the cursor at once, queue or no queue. */
  function Sync(m: Machine, log: Log, from: nat): Machine {
    Machine(m.s.(watermark := from, out := m.s.out + [Named(from)]), m.phase, m.queue + [Job(log, Some(from))])
  }

  /** A job walks its log from `from`, up to the first await. */
  function Begin(o: Options, s: Cursor, job: Job, from: nat, queue: seq<Job>): Machine {
    if s.dead then Finish(s, job, queue)
    else if from < job.log.rootT then StartResync(o, s, job.log.t, job, queue)
    else if !o.sieves then WalkRaw(o, s, job, job.log.entries, from, queue)
    else Settle(o, s, job, SortByT(NewerThan(job.log.entries, from)), from, queue)
  }

  /** The next job runs, from the cursor as it is now. */
  function Start(o: Options, m: Machine): Machine
    requires m.phase.Idle? && m.queue != []
  {
    Begin(o, m.s, m.queue[0], m.s.watermark, m.queue[1..])
  }

  /** The sieve has judged the entry at the head of the walk. */
  function Judge(o: Options, m: Machine, d: Decision): Machine
    requires m.phase.Sieving? && m.phase.pending != []
  {
    var Sieving(job, pending, _) := m.phase;
    var t := pending[0].t;
    match d
    case Skip => Settle(o, PushSkip(m.s, t), job, pending[1..], t, m.queue)
    case Resync => StartResync(o, m.s, t, job, m.queue)
    case Tx(datoms) => Settle(o, PushTx(m.s, t, datoms), job, pending[1..], t, m.queue)
    case Broken =>
      Machine((if job.reply.Some? then Send(m.s, SyncFailed) else m.s).(dead := true), Idle, m.queue)
  }

  /** The dump asked for is in hand. */
  function Dump(m: Machine, t: nat, datoms: seq<Datom>): Machine
    requires m.phase.Dumping?
  {
    Finish(PushResync(m.s, t, Some(datoms)), m.phase.job, m.queue)
  }

  /** A write dispatched on this socket was acknowledged. */
  function Wrote(m: Machine, t: nat, clientTxId: string): Machine {
    m.(s := m.s.(writerEcho := Some(Echo(t, clientTxId))))
  }

  function Close(m: Machine): Machine {
    m.(s := m.s.(dead := true))
  }

  /** The session object is gone and rebuilt over the open socket: what it was doing is forgotten. */
  function Hibernate(m: Machine): Machine {
    m.(phase := Idle, queue := [])
  }

  datatype Label =
    | DoApply(entry: Entry, rootT: nat)
    | DoSync(log: Log, from: nat)
    | DoStart
    | DoJudge(decision: Decision)
    | DoDump(t: nat, datoms: seq<Datom>)
    | DoWrote(wt: nat, clientTxId: string)
    | DoClose
    | DoHibernate

  predicate Enabled(m: Machine, l: Label) {
    match l
    case DoStart => m.phase.Idle? && m.queue != []
    case DoJudge(_) => m.phase.Sieving? && m.phase.pending != []
    case DoDump(_, _) => m.phase.Dumping?
    case _ => true
  }

  function Step(o: Options, m: Machine, l: Label): Machine
    requires Enabled(m, l)
  {
    match l
    case DoApply(e, rootT) => ApplyEntry(m, e, rootT)
    case DoSync(log, from) => Sync(m, log, from)
    case DoStart => Start(o, m)
    case DoJudge(d) => Judge(o, m, d)
    case DoDump(t, datoms) => Dump(m, t, datoms)
    case DoWrote(t, id) => Wrote(m, t, id)
    case DoClose => Close(m)
    case DoHibernate => Hibernate(m)
  }

  /** A run from `m`: every label is enabled where it is taken. */
  predicate IsRun(o: Options, m: Machine, run: seq<Label>)
    decreases |run|
  {
    run == [] || (Enabled(m, run[0]) && IsRun(o, Step(o, m, run[0]), run[1..]))
  }

  function After(o: Options, m: Machine, run: seq<Label>): Machine
    requires IsRun(o, m, run)
    decreases |run|
  {
    if run == [] then m else After(o, Step(o, m, run[0]), run[1..])
  }

  /** A socket just upgraded. */
  function Upgraded(credit: nat): Machine {
    Machine(Cursor(0, 0, None, false, credit, []), Idle, [])
  }

  // ---- the honest cursor -------------------------------------------------------------

  /** Why the client needs nothing more about `t`. */
  predicate Covers(ev: Event, t: nat) {
    match ev
    case Sent(TxFrame(u, _, _)) => u == t
    case Sent(ResyncFrame(u, _)) => t <= u
    case Sent(_) => false
    case Silent(u) => u == t
    case Named(from) => t <= from
  }

  ghost predicate Accounted(out: seq<Event>, t: nat) {
    exists i :: 0 <= i < |out| && Covers(out[i], t)
  }

  ghost predicate Covered(out: seq<Event>, n: nat) {
    forall t :: 1 <= t <= n ==> Accounted(out, t)
  }

  /** The last `tx` since the last dump or named cursor; 0 if there is none. */
  function Tip(out: seq<Event>): nat {
    if out == [] then 0
    else
      match out[|out| - 1]
      case Sent(TxFrame(t, _, _)) => t
      case Sent(ResyncFrame(_, _)) => 0
      case Named(_) => 0
      case _ => Tip(out[..|out| - 1])
  }

  /** Every `tx` frame is past every earlier one of its stretch. */
  predicate Ascending(out: seq<Event>) {
    out == [] ||
    (Ascending(out[..|out| - 1]) &&
     (IsTx(out[|out| - 1]) ==> Tip(out[..|out| - 1]) < out[|out| - 1].frame.t))
  }

  predicate IsTx(ev: Event) {
    ev.Sent? && ev.frame.TxFrame?
  }

  /** Two `tx` frames of one stretch, in the order they left. */
  ghost predicate SameStretch(out: seq<Event>, i: nat, j: nat) {
    i < j < |out| && IsTx(out[i]) && IsTx(out[j]) && forall k :: i < k < j ==> !IsBreak(out[k])
  }

  predicate IsBreak(ev: Event) {
    ev.Named? || (ev.Sent? && ev.frame.ResyncFrame?)
  }

  ghost predicate Reached(s: Cursor, n: nat) {
    Covered(s.out, n) && Tip(s.out) <= n
  }

  ghost predicate Honest(m: Machine) {
    (forall i :: 0 <= i < |m.queue| ==> DistinctT(m.queue[i].log.entries)) &&
    Ascending(m.s.out) &&
    (m.phase.Sieving? ==> m.phase.pending != [] && SortedFrom(m.phase.pending, m.phase.cursor)) &&
    (m.phase.Sieving? && m.phase.pending != [] ==> m.phase.pending[0].t <= m.phase.cursor + 1) &&
    (!m.s.dead ==>
       Reached(m.s, m.s.watermark) && (m.phase.Sieving? ==> Reached(m.s, m.phase.cursor)))
  }

  ghost predicate WellFormedLabel(l: Label) {
    l.DoSync? ==> DistinctT(l.log.entries)
  }

  lemma CoveredGrows(out: seq<Event>, ev: Event, n: nat)
    requires Covered(out, n)
    ensures Covered(out + [ev], n)
  {
    forall t | 1 <= t <= n ensures Accounted(out + [ev], t) {
      assert Accounted(out, t);
      var i :| 0 <= i < |out| && Covers(out[i], t);
      assert (out + [ev])[i] == out[i];
    }
  }

  lemma CoveredBy(out: seq<Event>, ev: Event, n: nat)
    requires forall t :: 1 <= t <= n ==> Accounted(out, t) || Covers(ev, t)
    ensures Covered(out + [ev], n)
  {
    forall t | 1 <= t <= n ensures Accounted(out + [ev], t) {
      if Accounted(out, t) {
        var i :| 0 <= i < |out| && Covers(out[i], t);
        assert (out + [ev])[i] == out[i];
      } else {
        assert (out + [ev])[|out|] == ev;
      }
    }
  }

  /** `Reached` and `Ascending`, carried over one send. */
  lemma SendKeeps(s: Cursor, frame: Frame, n: nat)
    requires Ascending(s.out)
    requires !s.dead ==> Reached(s, n)
    requires frame.TxFrame? && !s.dead ==> Tip(s.out) < frame.t <= n + 1
    ensures Ascending(Send(s, frame).out)
    ensures !Send(s, frame).dead ==>
      !s.dead && Reached(Send(s, frame), if frame.TxFrame? then frame.t else if frame.ResyncFrame? then frame.t else n)
  {
    if !s.dead && s.credit > 0 {
      CoveredGrows(s.out, Sent(frame), n);
      if frame.TxFrame? || frame.ResyncFrame? {
        CoveredBy(s.out, Sent(frame), frame.t);
      }
    }
  }

  lemma FinishKeeps(s: Cursor, job: Job, queue: seq<Job>)
    requires forall i :: 0 <= i < |queue| ==> DistinctT(queue[i].log.entries)
    requires Ascending(s.out) && (!s.dead ==> Reached(s, s.watermark))
    ensures Honest(Finish(s, job, queue))
  {
    if job.reply.Some? {
      SendKeeps(s, SyncReply(s.watermark, job.reply.value), s.watermark);
    }
  }

  lemma SettleKeeps(o: Options, s: Cursor, job: Job, pending: seq<Entry>, cursor: nat, queue: seq<Job>)
    requires forall i :: 0 <= i < |queue| ==> DistinctT(queue[i].log.entries)
    requires Ascending(s.out) && SortedFrom(pending, cursor)
    requires !s.dead ==> Reached(s, s.watermark) && Reached(s, cursor)
    ensures Honest(Settle(o, s, job, pending, cursor, queue))
  {
    FinishKeeps(s, job, queue);
  }

  lemma {:induction false} WalkRawKeeps(o: Options, s: Cursor, job: Job, entries: seq<Entry>, from: nat,
      queue: seq<Job>)
    requires forall i :: 0 <= i < |queue| ==> DistinctT(queue[i].log.entries)
    requires from >= job.log.rootT && Ascending(s.out)
    requires !s.dead ==> s.watermark == from && Reached(s, from)
    ensures Honest(WalkRaw(o, s, job, entries, from, queue))
    decreases |entries|
  {
    if entries == [] {
      FinishKeeps(s, job, queue);
    } else {
      var e := entries[0];
      if e.t <= from {
        WalkRawKeeps(o, s, job, entries[1..], from, queue);
      } else if e.t > from + 1 && e.t > job.log.rootT {
        FinishKeeps(s, job, queue);
      } else {
        var s1 := s.(watermark := e.t);
        SendKeeps(s1, TxFrame(e.t, e.datoms, None), from);
        WalkRawKeeps(o, SeenT(Send(s1, TxFrame(e.t, e.datoms, None)), e.t), job, entries[1..], e.t, queue);
      }
    }
  }

  lemma PushTxKeeps(s: Cursor, t: nat, datoms: seq<Datom>, cursor: nat)
    requires Ascending(s.out) && cursor < t <= cursor + 1
    requires !s.dead ==> Reached(s, cursor)
    ensures var s1 := PushTx(s, t, datoms);
      s1.watermark == t && Ascending(s1.out) && (!s1.dead ==> Reached(s1, t))
  {
    var echo := EchoFor(s.writerEcho, t);
    var s1 := s.(watermark := t, writerEcho := if echo.Some? then None else s.writerEcho);
    SendKeeps(s1, TxFrame(t, datoms, echo), cursor);
  }

  lemma PushSkipKeeps(s: Cursor, t: nat, cursor: nat)
    requires Ascending(s.out) && cursor < t <= cursor + 1
    requires !s.dead ==> Reached(s, cursor)
    ensures var s1 := PushSkip(s, t);
      Ascending(s1.out) && (!s1.dead ==> Reached(s1, t))
  {
    if !s.dead {
      CoveredBy(s.out, Silent(t), t);
    }
  }

  lemma ResyncKeeps(o: Options, s: Cursor, t: nat, job: Job, queue: seq<Job>)
    requires forall i :: 0 <= i < |queue| ==> DistinctT(queue[i].log.entries)
    requires Ascending(s.out) && (!s.dead ==> Reached(s, s.watermark))
    ensures Honest(StartResync(o, s, t, job, queue))
  {
    FinishKeeps(PushResync(s, t, None), job, queue);
  }

  lemma JudgeKeeps(o: Options, m: Machine, d: Decision)
    requires Honest(m) && m.phase.Sieving?
    ensures Honest(Judge(o, m, d))
  {
    var Sieving(job, pending, cursor) := m.phase;
    var t := pending[0].t;
    match d
    case Skip =>
      PushSkipKeeps(m.s, t, cursor);
      SettleKeeps(o, PushSkip(m.s, t), job, pending[1..], t, m.queue);
    case Tx(datoms) =>
      PushTxKeeps(m.s, t, datoms, cursor);
      SettleKeeps(o, PushTx(m.s, t, datoms), job, pending[1..], t, m.queue);
    case Resync => ResyncKeeps(o, m.s, t, job, m.queue);
    case Broken =>
  }

  lemma StartKeeps(o: Options, m: Machine)
    requires Honest(m) && m.phase.Idle? && m.queue != []
    ensures Honest(Start(o, m))
  {
    var job, queue, from := m.queue[0], m.queue[1..], m.s.watermark;
    if m.s.dead {
      FinishKeeps(m.s, job, queue);
    } else if from < job.log.rootT {
      ResyncKeeps(o, m.s, job.log.t, job, queue);
    } else if !o.sieves {
      WalkRawKeeps(o, m.s, job, job.log.entries, from, queue);
    } else {
      PendingSorted(job.log.entries, from);
      SettleKeeps(o, m.s, job, SortByT(NewerThan(job.log.entries, from)), from, queue);
    }
  }

  lemma SyncKeeps(m: Machine, log: Log, from: nat)
    requires Honest(m) && DistinctT(log.entries)
    ensures Honest(Sync(m, log, from))
  {
    CoveredBy(m.s.out, Named(from), from);
    if !m.s.dead && m.phase.Sieving? {
      CoveredGrows(m.s.out, Named(from), m.phase.cursor);
    }
  }

  lemma StepKeeps(o: Options, m: Machine, l: Label)
    requires Honest(m) && Enabled(m, l) && WellFormedLabel(l)
    ensures Honest(Step(o, m, l))
  {
    match l
    case DoApply(e, rootT) =>
    case DoSync(log, from) => SyncKeeps(m, log, from);
    case DoStart => StartKeeps(o, m);
    case DoJudge(d) => JudgeKeeps(o, m, d);
    case DoDump(t, datoms) =>
      FinishKeeps(PushResync(m.s, t, Some(datoms)), m.phase.job, m.queue);
    case DoWrote(t, id) =>
    case DoClose =>
    case DoHibernate =>
  }

  lemma {:induction false} RunKeeps(o: Options, m: Machine, run: seq<Label>)
    requires Honest(m) && IsRun(o, m, run)
    requires forall i :: 0 <= i < |run| ==> WellFormedLabel(run[i])
    ensures Honest(After(o, m, run))
    decreases |run|
  {
    if run == [] {
    } else {
      StepKeeps(o, m, run[0]);
      RunKeeps(o, Step(o, m, run[0]), run[1..]);
    }
  }

  lemma {:induction false} TipBounds(out: seq<Event>, i: nat)
    requires i < |out| && IsTx(out[i]) && Ascending(out)
    requires forall k :: i < k < |out| ==> !IsBreak(out[k])
    ensures out[i].frame.t <= Tip(out)
  {
    if i < |out| - 1 {
      TipBounds(out[..|out| - 1], i);
    }
  }

  lemma {:induction false} AscendingPairs(out: seq<Event>, i: nat, j: nat)
    requires Ascending(out) && SameStretch(out, i, j)
    ensures out[i].frame.t < out[j].frame.t
  {
    if j == |out| - 1 {
      TipBounds(out[..j], i);
    } else {
      AscendingPairs(out[..|out| - 1], i, j);
    }
  }

  /**
   * In every run of a socket — pushes, `sync` frames landing in the middle of
   * a job, resyncs, refused sends, hibernations — a live session's cursor claims no `t` it
   * cannot account for, and between two dumps or named cursors its `tx` frames
   * strictly ascend.
   */
  lemma CursorIsHonest(o: Options, credit: nat, run: seq<Label>)
    requires IsRun(o, Upgraded(credit), run)
    requires forall i :: 0 <= i < |run| ==> WellFormedLabel(run[i])
    ensures var s := After(o, Upgraded(credit), run).s;
      && (!s.dead ==> forall t :: 1 <= t <= s.watermark ==> Accounted(s.out, t))
      && forall i: nat, j: nat :: SameStretch(s.out, i, j) ==> s.out[i].frame.t < s.out[j].frame.t
  {
    RunKeeps(o, Upgraded(credit), run);
    var s := After(o, Upgraded(credit), run).s;
    forall i: nat, j: nat | SameStretch(s.out, i, j)
      ensures s.out[i].frame.t < s.out[j].frame.t
    {
      AscendingPairs(s.out, i, j);
    }
  }

  // ---- one job, start to end --------------------------------------------------------

  /** What the sieve and the dump answer while nothing else runs. */
  datatype Answers = Answers(sieve: Entry -> Decision, t: nat, datoms: seq<Datom>)

  function Left(phase: Phase): nat {
    match phase
    case Idle => 0
    case Dumping(_) => 1
    case Sieving(_, pending, _) => 2 + |pending|
  }

  /** Take the steps of the running job until it is over. */
  function Drive(o: Options, m: Machine, a: Answers): Machine
    decreases Left(m.phase)
  {
    match m.phase
    case Idle => m
    case Dumping(_) => Dump(m, a.t, a.datoms)
    case Sieving(_, pending, _) =>
      if pending == [] then m else Drive(o, Judge(o, m, a.sieve(pending[0])), a)
  }

  /** One job, with nothing landing in between. */
  function Consider(o: Options, s: Cursor, log: Log, from: nat, a: Answers): Cursor {
    Drive(o, Begin(o, s, Job(log, None), from, []), a).s
  }

  /** The sieved walk, with nothing landing in between. */
  function Walked(o: Options, s: Cursor, log: Log, start: nat, a: Answers): Cursor {
    Drive(o, Settle(o, s, Job(log, None), SortByT(NewerThan(log.entries, start)), start, []), a).s
  }

  class ServerSession {
    const o: Options
    var lastT: nat
    var watermark: nat
    var writerEcho: Option<Echo>
    var dead: bool
    var credit: nat
    var out: seq<Event>

    function State(): Cursor
      reads this
    {
      Cursor(lastT, watermark, writerEcho, dead, credit, out)
    }

    constructor (o: Options, lastT: nat, watermark: nat, writerEcho: Option<Echo>, credit: nat)
      ensures this.o == o && State() == Cursor(lastT, watermark, writerEcho, false, credit, [])
    {
      this.o := o;
      this.lastT, this.watermark, this.writerEcho := lastT, watermark, writerEcho;
      this.dead, this.credit, this.out := false, credit, [];
    }

    method SendFrame(frame: Frame)
      modifies this
      ensures State() == Send(old(State()), frame)
      ensures old(dead) || old(credit) == 0 ==> dead && out == old(out)
    {
      if dead {
        return;
      }
      if credit == 0 {
        dead := true;
        return;
      }
      credit := credit - 1;
      out := out + [Sent(frame)];
    }

    method SeeT(t: nat)
      modifies this
      ensures State() == SeenT(old(State()), t)
      ensures lastT >= old(lastT) && lastT >= t && lastT in {old(lastT), t}
    {
      if t > lastT {
        lastT := t;
      }
    }

    method SendResync(t: nat, dump: Option<seq<Datom>>)
      modifies this
      ensures State() == PushResync(old(State()), t, dump)
      ensures watermark == t <= lastT && (!dead ==> out == old(out) + [Sent(ResyncFrame(t, dump))])
    {
      SendFrame(ResyncFrame(t, dump));
      SeeT(t);
      watermark := t;
    }

    /** A hole in the window at `t`: dump if there is a dump to give, otherwise hold the cursor. */
    method HandleTorn(a: Answers)
      modifies this
      ensures State() == if o.dumps then PushResync(old(State()), a.t, Some(a.datoms)) else old(State())
    {
      if o.dumps {
        SendResync(a.t, Some(a.datoms));
      }
    }

    method Resynchronize(t: nat, a: Answers)
      modifies this
      ensures State() ==
        if o.dumps then PushResync(old(State()), a.t, Some(a.datoms)) else PushResync(old(State()), t, None)
    {
      if o.dumps {
        SendResync(a.t, Some(a.datoms));
      } else {
        SendResync(t, None);
      }
    }

    method SendTx(t: nat, datoms: seq<Datom>)
      modifies this
      ensures State() == PushTx(old(State()), t, datoms)
      ensures writerEcho.Some? ==> writerEcho == old(writerEcho) && writerEcho.value.t != t
      ensures !dead ==> out == old(out) + [Sent(TxFrame(t, datoms, EchoFor(old(writerEcho), t)))]
    {
      watermark := t;
      var echo: Option<string> := None;
      if writerEcho.Some? && writerEcho.value.t == t {
        echo := Some(writerEcho.value.clientTxId);
      }
      if echo.Some? {
        writerEcho := None;
      }
      SendFrame(TxFrame(t, datoms, echo));
      SeeT(t);
    }

    method WalkUnsieved(log: Log, start: nat, a: Answers)
      requires !o.sieves
      modifies this
      ensures State() == Drive(o, WalkRaw(o, old(State()), Job(log, None), log.entries, start, []), a).s
    {
      var from: nat, i: nat := start, 0;
      while i < |log.entries|
        invariant i <= |log.entries|
        invariant Drive(o, WalkRaw(o, State(), Job(log, None), log.entries[i..], from, []), a).s ==
                  Drive(o, WalkRaw(o, old(State()), Job(log, None), log.entries, start, []), a).s
      {
        var e := log.entries[i];
        assert log.entries[i..][1..] == log.entries[i + 1..];
        if e.t > from {
          if e.t > from + 1 && e.t > log.rootT {
            HandleTorn(a);
            return;
          }
          watermark := e.t;
          SendFrame(TxFrame(e.t, e.datoms, None));
          SeeT(e.t);
          from := e.t;
        }
        i := i + 1;
      }
    }

    method WalkSieved(log: Log, start: nat, a: Answers)
      requires o.sieves
      modifies this
      ensures State() == Walked(o, old(State()), log, start, a)
    {
      var pending := SortByT(NewerThan(log.entries, start));
      var cursor: nat, i: nat := start, 0;
      while i < |pending|
        invariant i <= |pending|
        invariant Drive(o, Settle(o, State(), Job(log, None), pending[i..], cursor, []), a).s ==
                  Drive(o, Settle(o, old(State()), Job(log, None), pending, start, []), a).s
      {
        var e := pending[i];
        assert pending[i..][1..] == pending[i + 1..];
        if e.t > cursor + 1 {
          HandleTorn(a);
          return;
        }
        match a.sieve(e) {
          case Skip =>
            watermark := e.t;
            out := out + [Silent(e.t)];
          case Resync =>
            Resynchronize(e.t, a);
            return;
          case Broken =>
            dead := true;
            return;
          case Tx(datoms) =>
            SendTx(e.t, datoms);
        }
        cursor := e.t;
        i := i + 1;
      }
      if cursor < log.t {
        HandleTorn(a);
      }
    }

    /** The whole job, as the source writes it; the step functions above are its pieces. */
    method ConsiderLog(log: Log, from: nat, a: Answers)
      modifies this
      ensures State() == Consider(o, old(State()), log, from, a)
    {
      if dead {
        return;
      }
      if from < log.rootT {
        Resynchronize(log.t, a);
      } else if !o.sieves {
        WalkUnsieved(log, from, a);
      } else {
        WalkSieved(log, from, a);
      }
    }
  }
}

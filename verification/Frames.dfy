/** What the frames of a socket say: whose write it was, and how far its reader has been told. */
module Frames {
  import opened Datoms
  import opened SessionSync
  import opened Session

  /** Frames that tell the client about a `t`. */
  predicate Tells(ev: Event) {
    ev.Sent? && (ev.frame.TxFrame? || ev.frame.ResyncFrame?)
  }

  function ToldT(ev: Event): nat
    requires Tells(ev)
  {
    ev.frame.t
  }

  ghost predicate Highest(out: seq<Event>, n: nat) {
    (forall i :: 0 <= i < |out| && Tells(out[i]) ==> ToldT(out[i]) <= n) &&
    (n == 0 || exists i :: 0 <= i < |out| && Tells(out[i]) && ToldT(out[i]) == n)
  }

  predicate OwnEcho(ev: Event, wrote: set<(nat, string)>) {
    Tells(ev) && ev.frame.TxFrame? && ev.frame.clientTxId.Some? ==> (ev.frame.t, ev.frame.clientTxId.value) in wrote
  }

  ghost predicate Truthful(s: Cursor, wrote: set<(nat, string)>) {
    && (forall i :: 0 <= i < |s.out| ==> OwnEcho(s.out[i], wrote))
    && (s.writerEcho.Some? ==> (s.writerEcho.value.t, s.writerEcho.value.clientTxId) in wrote)
    && (!s.dead ==> Highest(s.out, s.lastT))
  }

  lemma HighestMore(out: seq<Event>, ev: Event, n: nat)
    requires Highest(out, n)
    ensures Highest(out + [ev], if Tells(ev) && ToldT(ev) > n then ToldT(ev) else n)
  {
    var more := out + [ev];
    assert more[|out|] == ev;
    if n > 0 {
      var i :| 0 <= i < |out| && Tells(out[i]) && ToldT(out[i]) == n;
      assert more[i] == out[i];
    }
  }

  lemma Told(s: Cursor, frame: Frame, wrote: set<(nat, string)>)
    requires Truthful(s, wrote) && OwnEcho(Sent(frame), wrote)
    ensures Tells(Sent(frame)) ==> Truthful(SeenT(Send(s, frame), frame.t), wrote)
    ensures !Tells(Sent(frame)) ==> Truthful(Send(s, frame), wrote)
  {
    if !s.dead && s.credit > 0 {
      HighestMore(s.out, Sent(frame), s.lastT);
    }
  }

  lemma FinishTold(s: Cursor, job: Job, queue: seq<Job>, wrote: set<(nat, string)>)
    requires Truthful(s, wrote)
    ensures Truthful(Finish(s, job, queue).s, wrote)
  {
    if job.reply.Some? {
      Told(s, SyncReply(s.watermark, job.reply.value), wrote);
    }
  }

  lemma ResyncTold(s: Cursor, t: nat, dump: Option<seq<Datom>>, wrote: set<(nat, string)>)
    requires Truthful(s, wrote)
    ensures Truthful(PushResync(s, t, dump), wrote)
  {
    Told(s, ResyncFrame(t, dump), wrote);
  }

  lemma TxTold(s: Cursor, t: nat, datoms: seq<Datom>, wrote: set<(nat, string)>)
    requires Truthful(s, wrote)
    ensures Truthful(PushTx(s, t, datoms), wrote)
  {
    var echo := EchoFor(s.writerEcho, t);
    var s1 := s.(watermark := t, writerEcho := if echo.Some? then None else s.writerEcho);
    Told(s1, TxFrame(t, datoms, echo), wrote);
  }

  lemma {:induction false} WalkRawTold(
      o: Options, s: Cursor, job: Job, entries: seq<Entry>, from: nat, queue: seq<Job>, wrote: set<(nat, string)>)
    requires Truthful(s, wrote)
    ensures Truthful(WalkRaw(o, s, job, entries, from, queue).s, wrote)
    decreases |entries|
  {
    FinishTold(s, job, queue, wrote);
    if entries != [] {
      var e := entries[0];
      if e.t <= from {
        WalkRawTold(o, s, job, entries[1..], from, queue, wrote);
      } else if e.t == from + 1 || e.t <= job.log.rootT {
        var frame := TxFrame(e.t, e.datoms, None);
        Told(s.(watermark := e.t), frame, wrote);
        WalkRawTold(o, SeenT(Send(s.(watermark := e.t), frame), e.t), job, entries[1..], e.t, queue, wrote);
      }
    }
  }

  function Writes(l: Label): set<(nat, string)> {
    if l.DoWrote? then {(l.wt, l.clientTxId)} else {}
  }

  lemma JudgeTold(o: Options, m: Machine, d: Decision, wrote: set<(nat, string)>)
    requires Truthful(m.s, wrote) && m.phase.Sieving? && m.phase.pending != []
    ensures Truthful(Judge(o, m, d).s, wrote)
  {
    var job, t := m.phase.job, m.phase.pending[0].t;
    match d
    case Skip =>
      HighestMoreIf(m.s, Silent(t));
      FinishTold(PushSkip(m.s, t), job, m.queue, wrote);
    case Resync =>
      ResyncTold(m.s, t, None, wrote);
      FinishTold(PushResync(m.s, t, None), job, m.queue, wrote);
    case Tx(datoms) =>
      TxTold(m.s, t, datoms, wrote);
      FinishTold(PushTx(m.s, t, datoms), job, m.queue, wrote);
    case Broken => Told(m.s, SyncFailed, wrote);
  }

  lemma BeginTold(o: Options, s: Cursor, job: Job, from: nat, queue: seq<Job>, wrote: set<(nat, string)>)
    requires Truthful(s, wrote)
    ensures Truthful(Begin(o, s, job, from, queue).s, wrote)
  {
    FinishTold(s, job, queue, wrote);
    ResyncTold(s, job.log.t, None, wrote);
    FinishTold(PushResync(s, job.log.t, None), job, queue, wrote);
    WalkRawTold(o, s, job, job.log.entries, from, queue, wrote);
  }

  lemma DumpTold(m: Machine, t: nat, datoms: seq<Datom>, wrote: set<(nat, string)>)
    requires Truthful(m.s, wrote) && m.phase.Dumping?
    ensures Truthful(Dump(m, t, datoms).s, wrote)
  {
    ResyncTold(m.s, t, Some(datoms), wrote);
    FinishTold(PushResync(m.s, t, Some(datoms)), m.phase.job, m.queue, wrote);
  }

  lemma HighestMoreIf(s: Cursor, ev: Event)
    requires !s.dead ==> Highest(s.out, s.lastT)
    ensures !s.dead && !Tells(ev) ==> Highest(s.out + [ev], s.lastT)
  {
    if !s.dead {
      HighestMore(s.out, ev, s.lastT);
    }
  }

  lemma StepTold(o: Options, m: Machine, l: Label, wrote: set<(nat, string)>)
    requires Truthful(m.s, wrote) && Enabled(m, l)
    ensures Truthful(Step(o, m, l).s, wrote + Writes(l))
  {
    match l
    case DoSync(log, from) => HighestMoreIf(m.s, Named(from));
    case DoStart => BeginTold(o, m.s, m.queue[0], m.s.watermark, m.queue[1..], wrote);
    case DoJudge(d) => JudgeTold(o, m, d, wrote);
    case DoDump(t, datoms) => DumpTold(m, t, datoms, wrote);
    case _ =>
  }

  lemma {:induction false} RunTold(o: Options, m: Machine, run: seq<Label>, wrote: set<(nat, string)>)
      returns (all: set<(nat, string)>)
    requires Truthful(m.s, wrote) && IsRun(o, m, run)
    ensures Truthful(After(o, m, run).s, all)
    ensures all == wrote + set i, w | 0 <= i < |run| && w in Writes(run[i]) :: w
    decreases |run|
  {
    all := wrote;
    if run != [] {
      StepTold(o, m, run[0], wrote);
      all := RunTold(o, Step(o, m, run[0]), run[1..], wrote + Writes(run[0]));
      forall w ensures w in all <==> w in wrote || exists i :: 0 <= i < |run| && w in Writes(run[i]) {
        if exists i :: 0 <= i < |run| && w in Writes(run[i]) {
          var i :| 0 <= i < |run| && w in Writes(run[i]);
          assert i > 0 ==> w in Writes(run[1..][i - 1]);
        }
      }
    }
  }

  /**
   * In every run of a socket: a frame carries a writer's id only on the `t` a
   * write of this very socket was acknowledged at under that id, and `lastT`
   * of a live session is the highest `t` a frame told the client about.
   */
  lemma FramesAreTruthful(o: Options, credit: nat, run: seq<Label>)
    requires IsRun(o, Upgraded(credit), run)
    ensures var s := After(o, Upgraded(credit), run).s;
      && (forall i, t: nat, datoms, id :: 0 <= i < |s.out| && s.out[i] == Sent(TxFrame(t, datoms, Some(id))) ==>
            DoWrote(t, id) in run)
      && (!s.dead ==> Highest(s.out, s.lastT))
  {
    var all := RunTold(o, Upgraded(credit), run, {});
    var s := After(o, Upgraded(credit), run).s;
    forall i, t: nat, datoms, id | 0 <= i < |s.out| && s.out[i] == Sent(TxFrame(t, datoms, Some(id)))
      ensures DoWrote(t, id) in run
    {
      assert OwnEcho(s.out[i], all);
      var k :| 0 <= k < |run| && (t, id) in Writes(run[k]);
      assert run[k] == DoWrote(t, id);
    }
  }
}

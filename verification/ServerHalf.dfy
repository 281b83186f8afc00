/**
 * The server's half of a replicated session.
 *
 * Everything the session sends was owed to the client, and whatever it leaves
 * out is covered by something it sent or by a later dump.
 */
module ServerHalf {
  import opened Datoms
  import opened SessionSync
  import opened LogWindow
  import opened Session
  import opened ReplicatedLog
  import opened Pipeline

  /** The replica gives its sessions both a sieve and a dump. */
  const SEAMS := Options(true, true)

  ghost predicate TrueEntries(w: World, basis: nat, entries: seq<Entry>) {
    basis <= |w.log| &&
    forall i :: 0 <= i < |entries| ==> 1 <= entries[i].t <= basis && entries[i] == w.log[entries[i].t - 1]
  }

  ghost predicate TrueLog(w: World, basis: nat, log: Log) {
    log.rootT <= log.t <= basis && TrueEntries(w, basis, log.entries) && DistinctT(log.entries)
  }

  ghost predicate TrueQueue(w: World, basis: nat, queue: seq<Job>) {
    forall i :: 0 <= i < |queue| ==> TrueLog(w, basis, queue[i].log)
  }

  /** Where the client will be once everything sent after event `k` has arrived. */
  function Ahead(z: Pos, k: nat, out: seq<Event>): Pos
    requires k <= |out|
  {
    End(z, Wire(out)[k..])
  }

  ghost predicate WireOk(w: World, basis: nat, z: Pos, k: nat, out: seq<Event>) {
    k <= |out| && AllFit(w, z, Wire(out)[k..]) && Ahead(z, k, out).told <= basis <= |w.log|
  }

  ghost predicate Reaches(w: World, basis: nat, z: Pos, k: nat, s: Cursor, n: nat) {
    WireOk(w, basis, z, k, s.out) && (!s.dead ==> Acc(w, Ahead(z, k, s.out), n) && n <= basis)
  }

  ghost predicate ServerOk(w: World, basis: nat, dumpT: nat, z: Pos, k: nat, m: Machine) {
    TrueQueue(w, basis, m.queue) &&
    Reaches(w, basis, z, k, m.s, m.s.watermark) &&
    (m.phase.Sieving? ==>
       TrueLog(w, basis, m.phase.job.log) && TrueEntries(w, basis, m.phase.pending) &&
       Reaches(w, basis, z, k, m.s, m.phase.cursor)) &&
    (m.phase.Dumping? ==> Ahead(z, k, m.s.out).told <= dumpT <= basis)
  }

  /** A dump is no older than the basis the replica has when it is asked for. */
  function DumpT(m: Machine, basis: nat, dumpT: nat): nat {
    if m.phase.Dumping? then basis else dumpT
  }

  lemma Appended(w: World, z: Pos, k: nat, out: seq<Event>, ev: Event)
    requires k <= |out|
    ensures Ahead(z, k, out + [ev]) == Advance(Ahead(z, k, out), ToItem(ev))
    ensures AllFit(w, z, Wire(out + [ev])[k..]) <==>
      AllFit(w, z, Wire(out)[k..]) && Fits(w, Ahead(z, k, out), ToItem(ev))
  {
    assert Wire(out + [ev])[k..] == Wire(out)[k..] + [ToItem(ev)];
  }

  lemma QuietEvent(w: World, basis: nat, z: Pos, k: nat, out: seq<Event>, ev: Event)
    requires WireOk(w, basis, z, k, out) && ToItem(ev).Quiet?
    ensures WireOk(w, basis, z, k, out + [ev]) && Ahead(z, k, out + [ev]) == Ahead(z, k, out)
  {
    Appended(w, z, k, out, ev);
  }

  lemma SendTxOk(w: World, basis: nat, z: Pos, k: nat, s: Cursor, frame: Frame, n: nat)
    requires frame.TxFrame? && Reaches(w, basis, z, k, s, n)
    requires frame.t == n + 1 <= basis && Sieve(w, frame.t) == Tx(frame.datoms)
    ensures Reaches(w, basis, z, k, Send(s, frame), frame.t)
  {
    var p := Ahead(z, k, s.out);
    if !s.dead && s.credit > 0 {
      Appended(w, z, k, s.out, Sent(frame));
      var q := Paints(p, frame.t);
      forall t | q.base < t <= frame.t ensures Settled(w, q, t) {
        if t <= n {
          assert Settled(w, p, t);
        }
      }
    }
  }

  lemma SendDumpOk(w: World, basis: nat, z: Pos, k: nat, s: Cursor, frame: Frame)
    requires frame.ResyncFrame? && frame.dump.Some? && WireOk(w, basis, z, k, s.out)
    requires Ahead(z, k, s.out).told <= frame.t <= basis && ToSet(frame.dump.value) == DumpSet(w, frame.t)
    ensures Reaches(w, basis, z, k, Send(s, frame), frame.t)
  {
    Appended(w, z, k, s.out, Sent(frame));
  }

  lemma SendReplyOk(w: World, basis: nat, z: Pos, k: nat, s: Cursor, frame: Frame)
    requires frame.SyncReply? && Reaches(w, basis, z, k, s, frame.t)
    ensures Reaches(w, basis, z, k, Send(s, frame), frame.t)
  {
    var p := Ahead(z, k, s.out);
    if !s.dead && s.credit > 0 {
      Appended(w, z, k, s.out, Sent(frame));
      forall t | p.base < t <= frame.t ensures Settled(w, p.(told := Max(p.told, frame.t)), t) {
        assert Settled(w, p, t);
      }
    }
  }

  lemma FinishOk(w: World, basis: nat, dumpT: nat, z: Pos, k: nat, s: Cursor, job: Job, queue: seq<Job>)
    requires Reaches(w, basis, z, k, s, s.watermark) && TrueQueue(w, basis, queue)
    ensures ServerOk(w, basis, dumpT, z, k, Finish(s, job, queue))
  {
    if job.reply.Some? {
      SendReplyOk(w, basis, z, k, s, SyncReply(s.watermark, job.reply.value));
    }
  }

  lemma SettleOk(w: World, basis: nat, dumpT: nat, z: Pos, k: nat, s: Cursor, job: Job, pending: seq<Entry>,
      cursor: nat, queue: seq<Job>)
    requires Reaches(w, basis, z, k, s, s.watermark) && Reaches(w, basis, z, k, s, cursor)
    requires TrueLog(w, basis, job.log) && TrueEntries(w, basis, pending) && TrueQueue(w, basis, queue)
    ensures var m := Settle(SEAMS, s, job, pending, cursor, queue); ServerOk(w, basis, DumpT(m, basis, dumpT), z, k, m)
  {
    FinishOk(w, basis, dumpT, z, k, s, job, queue);
  }

  lemma BeginOk(w: World, basis: nat, dumpT: nat, z: Pos, k: nat, s: Cursor, job: Job, from: nat, queue: seq<Job>)
    requires Reaches(w, basis, z, k, s, s.watermark) && from == s.watermark
    requires TrueLog(w, basis, job.log) && TrueQueue(w, basis, queue)
    ensures var m := Begin(SEAMS, s, job, from, queue); ServerOk(w, basis, DumpT(m, basis, dumpT), z, k, m)
  {
    FinishOk(w, basis, dumpT, z, k, s, job, queue);
    PendingSorted(job.log.entries, from);
    var pending := SortByT(NewerThan(job.log.entries, from));
    forall i | 0 <= i < |pending|
      ensures 1 <= pending[i].t <= basis && pending[i] == w.log[pending[i].t - 1]
    {
      assert pending[i] in pending;
    }
    SettleOk(w, basis, dumpT, z, k, s, job, pending, from, queue);
  }

  lemma SkipOk(w: World, basis: nat, z: Pos, k: nat, s: Cursor, t: nat)
    requires t >= 1 && Reaches(w, basis, z, k, s, t - 1) && t <= basis && Sieve(w, t).Skip?
    ensures Reaches(w, basis, z, k, PushSkip(s, t), t)
  {
    QuietEvent(w, basis, z, k, s.out, Silent(t));
    var p := Ahead(z, k, s.out);
    if !s.dead {
      forall u | p.base < u <= t ensures Settled(w, p, u) {
      }
    }
  }

  lemma PushTxOk(w: World, basis: nat, z: Pos, k: nat, s: Cursor, t: nat, datoms: seq<Datom>)
    requires t >= 1 && Reaches(w, basis, z, k, s, t - 1) && t <= basis && Sieve(w, t) == Tx(datoms)
    ensures Reaches(w, basis, z, k, PushTx(s, t, datoms), t) && PushTx(s, t, datoms).watermark == t
  {
    var echo := EchoFor(s.writerEcho, t);
    var s1 := s.(watermark := t, writerEcho := if echo.Some? then None else s.writerEcho);
    SendTxOk(w, basis, z, k, s1, TxFrame(t, datoms, echo), t - 1);
  }

  lemma JudgeOk(w: World, basis: nat, dumpT: nat, z: Pos, k: nat, m: Machine)
    requires ServerOk(w, basis, dumpT, z, k, m) && Honest(m) && m.phase.Sieving?
    ensures var m1 := Judge(SEAMS, m, Sieve(w, m.phase.pending[0].t));
      ServerOk(w, basis, DumpT(m1, basis, dumpT), z, k, m1)
  {
    var Sieving(job, pending, cursor) := m.phase;
    var t := pending[0].t;
    match Sieve(w, t)
    case Skip =>
      SkipOk(w, basis, z, k, m.s, t);
      SettleOk(w, basis, dumpT, z, k, PushSkip(m.s, t), job, pending[1..], t, m.queue);
    case Tx(datoms) =>
      PushTxOk(w, basis, z, k, m.s, t, datoms);
      SettleOk(w, basis, dumpT, z, k, PushTx(m.s, t, datoms), job, pending[1..], t, m.queue);
    case Resync =>
  }

  /** What was sent stays sent. */
  lemma JudgeOnlySends(o: Options, m: Machine, d: Decision)
    requires m.phase.Sieving? && m.phase.pending != []
    ensures m.s.out <= Judge(o, m, d).s.out
  {
  }

  /** A dump may be taken at any basis between the one at which it was asked for and the present one. */
  lemma DumpOk(w: World, basis: nat, dumpT: nat, z: Pos, k: nat, m: Machine, t: nat, datoms: seq<Datom>)
    requires ServerOk(w, basis, dumpT, z, k, m) && m.phase.Dumping?
    requires dumpT <= t <= basis && ToSet(datoms) == DumpSet(w, t)
    ensures ServerOk(w, basis, dumpT, z, k, Session.Dump(m, t, datoms))
  {
    SendDumpOk(w, basis, z, k, m.s, ResyncFrame(t, Some(datoms)));
    FinishOk(w, basis, dumpT, z, k, PushResync(m.s, t, Some(datoms)), m.phase.job, m.queue);
  }

  /** A `sync` may land while a job waits: what it names is accounted for, and the dump under way is not older. */
  lemma LandOk(w: World, basis: nat, dumpT: nat, z: Pos, k: nat, m: Machine, log: Log, from: nat)
    requires ServerOk(w, basis, dumpT, z, k, m) && TrueLog(w, basis, log)
    requires Held(w, Ahead(z, k, m.s.out), from)
    ensures ServerOk(w, basis, dumpT, z, k, Sync(m, log, from))
    ensures Ahead(z, k, Sync(m, log, from).s.out) == Ahead(z, k, m.s.out)
  {
    QuietEvent(w, basis, z, k, m.s.out, Named(from));
  }

  /** Having more painted by the time the wire is read changes nothing for the server. */
  lemma StartsLater(w: World, basis: nat, dumpT: nat, z: Pos, y: Pos, k: nat, m: Machine)
    requires ServerOk(w, basis, dumpT, z, k, m) && Below(z, y)
    ensures ServerOk(w, basis, dumpT, y, k, m)
    ensures Below(Ahead(z, k, m.s.out), Ahead(y, k, m.s.out))
  {
    MorePainted(w, z, y, Wire(m.s.out)[k..]);
    var p, q := Ahead(z, k, m.s.out), Ahead(y, k, m.s.out);
    if !m.s.dead {
      AccMore(w, p, q, m.s.watermark);
      if m.phase.Sieving? {
        AccMore(w, p, q, m.phase.cursor);
      }
    }
  }

  /** One event of the wire has arrived. */
  lemma OneArrived(w: World, basis: nat, dumpT: nat, z: Pos, k: nat, m: Machine)
    requires ServerOk(w, basis, dumpT, z, k, m) && k < |m.s.out|
    ensures var x := ToItem(m.s.out[k]);
      && Fits(w, z, x)
      && ServerOk(w, basis, dumpT, Advance(z, x), k + 1, m)
      && Ahead(Advance(z, x), k + 1, m.s.out) == Ahead(z, k, m.s.out)
  {
    var items := Wire(m.s.out);
    assert items[k..] == [items[k]] + items[k + 1..];
    EndCons(w, z, items[k], items[k + 1..]);
  }
}

/** How a commit, a `sync`, a dump and an ack reach the follower. */
module Arrival {
  import opened Datoms
  import opened SessionSync
  import opened LogWindow
  import opened Session
  import opened Follower
  import opened ReplicatedLog
  import opened Pipeline
  import opened ServerHalf
  import opened ClientHalf
  import opened Served
  import opened Replication

  /** The run goes through, and ends in `h`. */
  ghost predicate Leads(w: World, g: State, run: seq<Replication.Label>, h: State) {
    Replication.IsRun(w, g, run) && Replication.After(w, g, run) == h
  }

  lemma Stays(w: World, g: State)
    requires Bounds(w, g)
    ensures Leads(w, g, [], g)
  {
  }

  lemma Goes(w: World, g: State, l: Replication.Label, rest: seq<Replication.Label>, h: State)
    requires Bounds(w, g) && Replication.Enabled(w, g, l) && Leads(w, Replication.Step(w, g, l), rest, h)
    ensures Leads(w, g, [l] + rest, h)
  {
    assert ([l] + rest)[1..] == rest;
  }

  /** A live session with nothing to do, and a replica that has given it every push. */
  ghost predicate Quiet(w: World, g: State) {
    && Bounds(w, g) && g.pushes == [] && g.m == Waiting(g.m.s) && Ready(g.m.s)
    && g.rootT <= g.m.s.watermark && g.m.s.watermark <= g.basis
  }

  /** One sieve answer, as the session's cursor shows it. */
  ghost function Heard(w: World, s: Cursor, t: nat): Cursor
    requires Committed(w, t) && s.credit > 0
  {
    match Sieve(w, t)
    case Tx(ds) =>
      var echo := EchoFor(s.writerEcho, t);
      SentOne(s.(writerEcho := if echo.Some? then None else s.writerEcho), TxFrame(t, ds, echo), t)
    case _ => s.(watermark := t, out := s.out + [Silent(t)])
  }

  lemma {:induction false} GoesOn(w: World, g: State, run: seq<Replication.Label>, h: State,
      more: seq<Replication.Label>, k: State)
    requires Leads(w, g, run, h) && Leads(w, h, more, k)
    ensures Leads(w, g, run + more, k)
    decreases |run|
  {
    if run == [] {
      assert run + more == more;
    } else {
      GoesOn(w, Replication.Step(w, g, run[0]), run[1..], h, more, k);
      Goes(w, g, run[0], run[1..] + more, k);
      assert [run[0]] + (run[1..] + more) == run + more;
    }
  }

  /** One step, said as a run. */
  lemma Once(w: World, g: State, l: Replication.Label, h: State)
    requires Bounds(w, g) && Replication.Enabled(w, g, l) && h == Replication.Step(w, g, l) && Bounds(w, h)
    ensures Leads(w, g, [l], h)
  {
    Stays(w, h);
    Goes(w, g, l, [], h);
    assert [l] + [] == [l];
  }

  lemma Twice(w: World, g: State, a: Replication.Label, h: State, b: Replication.Label, k: State)
    requires Leads(w, g, [a], h) && Leads(w, h, [b], k)
    ensures Leads(w, g, [a, b], k)
  {
    GoesOn(w, g, [a], h, [b], k);
    assert [a] + [b] == [a, b];
  }

  lemma Thrice(w: World, g: State, a: Replication.Label, h: State, b: Replication.Label, i: State,
      c: Replication.Label, k: State)
    requires Leads(w, g, [a], h) && Leads(w, h, [b], i) && Leads(w, i, [c], k)
    ensures Leads(w, g, [a, b, c], k)
  {
    Twice(w, h, b, i, c, k);
    GoesOn(w, g, [a], h, [b, c], k);
    assert [a] + [b, c] == [a, b, c];
  }

  /** A commit reaches the replica, and from there the socket's queue. */
  lemma CommitIsPushed(w: World, g: State)
    requires LogOk(w) && Bounds(w, g) && g.pushes == [] && g.basis == g.committed < |w.log|
    ensures var t, e := g.basis + 1, w.log[g.basis];
      Leads(w, g, [Commit, Replicate, Push(0)],
        g.(committed := t, basis := t, m := g.m.(queue := g.m.queue + [Job(Log(t, g.rootT, [e]), None)])))
  {
    var t, e := g.basis + 1, w.log[g.basis];
    var g1 := g.(committed := t);
    var g2 := g1.(basis := t, pushes := [(e, g.rootT)]);
    var g3 := g1.(basis := t, m := g.m.(queue := g.m.queue + [Job(Log(t, g.rootT, [e]), None)]));
    assert e.t == t;
    Once(w, g, Commit, g1);
    Once(w, g1, Replicate, g2);
    Once(w, g2, Push(0), g3);
    Thrice(w, g, Commit, g1, Replicate, g2, Push(0), g3);
  }

  lemma BeginsTo(w: World, g: State, m: Machine)
    requires Bounds(w, g) && g.m.phase.Idle? && g.m.queue != [] && Start(SEAMS, g.m) == m && !m.phase.Dumping?
    requires g.m.s.out <= m.s.out
    ensures Leads(w, g, [Begins], g.(m := m))
  {
    Once(w, g, Begins, g.(m := m));
  }

  lemma JudgesTo(w: World, g: State, m: Machine)
    requires Bounds(w, g) && g.m.phase.Sieving? && g.m.phase.pending != [] && Committed(w, g.m.phase.pending[0].t)
    requires Judge(SEAMS, g.m, Sieve(w, g.m.phase.pending[0].t)) == m && !m.phase.Dumping?
    requires g.m.s.out <= m.s.out
    ensures Leads(w, g, [Judges], g.(m := m))
  {
    Once(w, g, Judges, g.(m := m));
  }

  /** A pushed entry that fits is judged by the sieve and sent or passed over. */
  lemma PushIsJudged(w: World, g: State, s: Cursor, rootT: nat, t: nat)
    requires Bounds(w, g) && Ready(s) && rootT <= s.watermark && t == s.watermark + 1 && Committed(w, t)
    requires LogOk(w) && g.m == Machine(s, Idle, [Job(Log(t, rootT, [w.log[t - 1]]), None)])
    requires !Sieve(w, t).Resync?
    ensures Leads(w, g, [Begins, Judges], g.(m := Waiting(Heard(w, s, t))))
  {
    var e := w.log[t - 1];
    var job := Job(Log(t, rootT, [e]), None);
    var g1, g2 := g.(m := Machine(s, Sieving(job, [e], s.watermark), [])), g.(m := Waiting(Heard(w, s, t)));
    StartFits(SEAMS, s, e, job);
    OneJudged(SEAMS, s, e, job, Sieve(w, t));
    BeginsTo(w, g, g1.m);
    JudgesTo(w, g1, g2.m);
    Twice(w, g, Begins, g1, Judges, g2);
  }

  /** A commit is replicated, pushed, sieved, and sent or passed over. */
  lemma CommitIsServed(w: World, g: State)
    requires LogOk(w) && Quiet(w, g) && g.m.s.watermark == g.basis == g.committed < |w.log|
    requires !Sieve(w, g.basis + 1).Resync?
    ensures var t := g.basis + 1;
      Leads(w, g, [Commit, Replicate, Push(0), Begins, Judges],
        g.(committed := t, basis := t, m := Waiting(Heard(w, g.m.s, t))))
  {
    var t, job := g.basis + 1, Job(Log(g.basis + 1, g.rootT, [w.log[g.basis]]), None);
    var h := g.(committed := t, basis := t, m := g.m.(queue := g.m.queue + [job]));
    var k := g.(committed := t, basis := t, m := Waiting(Heard(w, g.m.s, t)));
    CommitIsPushed(w, g);
    PushIsJudged(w, h, g.m.s, g.rootT, t);
    GoesOn(w, g, [Commit, Replicate, Push(0)], h, [Begins, Judges], k);
    assert [Commit, Replicate, Push(0)] + [Begins, Judges] == [Commit, Replicate, Push(0), Begins, Judges];
  }

  /** What is next on the wire is read, and what it asks for is done to the follower. */
  lemma NextArrives(w: World, g: State, ev: Event)
    requires Bounds(w, g) && g.queue == [] && g.delivered < |g.m.s.out| && g.m.s.out[g.delivered] == ev
    ensures match ev
      case Sent(TxFrame(t, ds, _)) =>
        Leads(w, g, [Deliver, ApplyHead], g.(view := Paint(g.view, ds), delivered := g.delivered + 1))
      case Sent(ResyncFrame(t, Some(ds))) =>
        Leads(w, g, [Deliver, ApplyHead], g.(view := Replace(ds, t), base := t, delivered := g.delivered + 1))
      case Sent(SyncReply(t, _)) =>
        Leads(w, g, [Deliver, ApplyHead], g.(view := Stamp(g.view, t), delivered := g.delivered + 1))
      case Silent(_) => Leads(w, g, [Deliver], g.(delivered := g.delivered + 1))
      case Named(_) => Leads(w, g, [Deliver], g.(delivered := g.delivered + 1))
      case _ => true
  {
    var x := ToItem(ev);
    var g1 := Replication.Step(w, g, Deliver);
    Once(w, g, Deliver, g1);
    if !x.Quiet? {
      assert [] + [x] == [x] && [x][1..] == [];
      var g2 := Replication.Step(w, g1, ApplyHead);
      Once(w, g1, ApplyHead, g2);
      Twice(w, g, Deliver, g1, ApplyHead, g2);
    }
  }

  /** An ack is painted, whatever the socket does. */
  lemma AckArrives(w: World, g: State, t: nat)
    requires Bounds(w, g) && g.queue == [] && 1 <= t <= g.committed && w.ack(t) != []
    ensures Leads(w, g, [Acked(t), ApplyHead], g.(view := Paint(g.view, w.ack(t))))
  {
    var x := IAck(t, w.ack(t));
    var g1 := g.(queue := [x]);
    assert [] + [x] == [x] && [x][1..] == [];
    Once(w, g, Acked(t), g1);
    Once(w, g1, ApplyHead, g.(view := Paint(g.view, w.ack(t))));
    Twice(w, g, Acked(t), g1, ApplyHead, g.(view := Paint(g.view, w.ack(t))));
  }

  /** The dump a session waits for leaves as a frame. */
  lemma DumpIsSent(w: World, g: State, job: Job, t: nat, datoms: seq<Datom>)
    requires Bounds(w, g) && Ready(g.m.s) && g.m.phase == Dumping(job) && job.reply.None?
    requires g.dumpT <= t <= g.basis && ToSet(datoms) == DumpSet(w, t)
    ensures Leads(w, g, [Dumps(t, datoms)],
      g.(m := Machine(SentOne(g.m.s, ResyncFrame(t, Some(datoms)), t), Idle, g.m.queue)))
  {
    Once(w, g, Dumps(t, datoms), g.(m := Machine(SentOne(g.m.s, ResyncFrame(t, Some(datoms)), t), Idle, g.m.queue)));
  }

  lemma Asked(w: World, g: State)
    requires Bounds(w, g) && g.requests == []
    ensures Leads(w, g, [Ask], g.(requests := [g.view.confirmedT]))
  {
    Once(w, g, Ask, g.(requests := [g.view.confirmedT]));
  }

  lemma LogRead(w: World, g: State, c: nat)
    requires Bounds(w, g) && g.requests == [c] && g.landings == []
    ensures Leads(w, g, [ReadLog], g.(requests := [], landings := [(SessionLog(w, g), c)]))
  {
    Once(w, g, ReadLog, g.(requests := [], landings := [(SessionLog(w, g), c)]));
  }

  lemma Landed(w: World, g: State, log: Log, c: nat)
    requires Bounds(w, g) && g.landings == [(log, c)]
    ensures Leads(w, g, [Land(0)], g.(m := Sync(g.m, log, c), landings := []))
  {
    Once(w, g, Land(0), g.(m := Sync(g.m, log, c), landings := []));
  }

  /** A `sync` asked from the follower's cursor is read against the log, and lands as a job. */
  lemma SyncLands(w: World, g: State)
    requires Bounds(w, g) && g.requests == [] && g.landings == []
    ensures var c, log := g.view.confirmedT, SessionLog(w, g);
      Leads(w, g, [Ask, ReadLog, Land(0)], g.(m := Sync(g.m, log, c)))
  {
    var c, log := g.view.confirmedT, SessionLog(w, g);
    var g1, g2 := g.(requests := [c]), g.(landings := [(log, c)]);
    Asked(w, g);
    LogRead(w, g1, c);
    Landed(w, g2, log, c);
    Thrice(w, g, Ask, g1, ReadLog, g2, Land(0), g.(m := Sync(g.m, log, c)));
  }

  lemma SyncStarts(o: Options, s: Cursor, job: Job, e: Entry)
    requires o.sieves && Ready(s) && job.log.rootT <= s.watermark && e.t == s.watermark + 1
    requires SortByT(NewerThan(job.log.entries, s.watermark)) == [e]
    ensures Start(o, Machine(s, Idle, [job])) == Machine(s, Sieving(job, [e], s.watermark), [])
  {
    assert [job][1..] == [];
  }

  /** The last entry of a `sync`'s walk goes out, and the answer behind it. */
  lemma LastSynced(o: Options, s: Cursor, e: Entry, job: Job, ds: seq<Datom>)
    requires Ready(s) && s.credit > 1 && job.log.t == e.t && job.reply.Some?
    ensures var echo := EchoFor(s.writerEcho, e.t);
      var told := SentOne(s.(writerEcho := if echo.Some? then None else s.writerEcho), TxFrame(e.t, ds, echo), e.t);
      Judge(o, Machine(s, Sieving(job, [e], s.watermark), []), Tx(ds)) ==
        Waiting(told.(credit := told.credit - 1, out := told.out + [Sent(SyncReply(e.t, job.reply.value))]))
  {
    assert [e][1..] == [];
  }

  /** A `sync` that lacks one entry: it is sent, and the answer is where that leads. */
  lemma SyncIsWalked(w: World, g: State, s: Cursor, log: Log, e: Entry)
    requires Bounds(w, g) && Ready(s) && s.credit > 1 && g.m == Machine(s, Idle, [Job(log, Some(s.watermark))])
    requires log.rootT <= s.watermark && log.t == e.t == s.watermark + 1
    requires SortByT(NewerThan(log.entries, s.watermark)) == [e]
    requires Committed(w, e.t) && Sieve(w, e.t).Tx?
    ensures Leads(w, g, [Begins, Judges], g.(m := Waiting(Replied(Heard(w, s, e.t), e.t, s.watermark))))
  {
    var job := Job(log, Some(s.watermark));
    var g1 := g.(m := Machine(s, Sieving(job, [e], s.watermark), []));
    SyncStarts(SEAMS, s, job, e);
    LastSynced(SEAMS, s, e, job, Sieve(w, e.t).datoms);
    BeginsTo(w, g, g1.m);
    JudgesTo(w, g1, Waiting(Replied(Heard(w, s, e.t), e.t, s.watermark)));
    Twice(w, g, Begins, g1, Judges, g.(m := Waiting(Replied(Heard(w, s, e.t), e.t, s.watermark))));
  }

  function Replied(s: Cursor, t: nat, from: nat): Cursor
    requires s.credit > 0
  {
    s.(credit := s.credit - 1, out := s.out + [Sent(SyncReply(t, from))])
  }

  /**
   * So a client one commit behind that asks is sent that commit, and told the
   * cursor that takes it there.
   */
  lemma SyncIsServed(w: World, g: State)
    requires LogOk(w) && Quiet(w, g) && g.m.s.credit > 1 && g.requests == [] && g.landings == []
    requires g.rootT <= g.view.confirmedT && g.basis == g.view.confirmedT + 1 && Sieve(w, g.basis).Tx?
    ensures var c, t := g.view.confirmedT, g.basis;
      var asked := g.m.s.(watermark := c, out := g.m.s.out + [Named(c)]);
      Leads(w, g, [Ask, ReadLog, Land(0), Begins, Judges], g.(m := Waiting(Replied(Heard(w, asked, t), t, c))))
  {
    var c, t := g.view.confirmedT, g.basis;
    var asked, log := g.m.s.(watermark := c, out := g.m.s.out + [Named(c)]), SessionLog(w, g);
    var h, k := g.(m := Machine(asked, Idle, [Job(log, Some(c))])), g.(m := Waiting(Replied(Heard(w, asked, t), t, c)));
    SyncLands(w, g);
    LastIsNewer(w, g.rootT, t);
    SyncIsWalked(w, h, asked, log, w.log[t - 1]);
    GoesOn(w, g, [Ask, ReadLog, Land(0)], h, [Begins, Judges], k);
    assert [Ask, ReadLog, Land(0)] + [Begins, Judges] == [Ask, ReadLog, Land(0), Begins, Judges];
  }

  lemma LastIsNewer(w: World, rootT: nat, t: nat)
    requires LogOk(w) && rootT < t <= |w.log|
    ensures SortByT(NewerThan(w.log[rootT..t], t - 1)) == [w.log[t - 1]]
  {
    var entries := w.log[rootT..t];
    var init := entries[..|entries| - 1];
    forall i | 0 <= i < |init| ensures init[i].t <= t - 1 {
      assert init[i] == w.log[rootT + i];
    }
    NoneNewer(init, t - 1);
    assert entries[|entries| - 1] == w.log[t - 1];
    assert [] + [w.log[t - 1]] == [w.log[t - 1]];
    assert [w.log[t - 1]][..0] == [];
    assert SortByT([w.log[t - 1]]) == Insert(w.log[t - 1], SortByT([]));
  }

  /** What a write, a close and a hibernation do to the socket's session. */
  lemma SessionSteps(w: World, g: State, t: nat, id: string)
    requires Bounds(w, g)
    ensures Leads(w, g, [Writes(t, id)], g.(m := g.m.(s := g.m.s.(writerEcho := Some(Echo(t, id))))))
    ensures Leads(w, g, [Closes], g.(m := g.m.(s := g.m.s.(dead := true))))
    ensures Leads(w, g, [Hibernates], g.(m := Waiting(g.m.s), pushes := []))
  {
    Once(w, g, Writes(t, id), g.(m := g.m.(s := g.m.s.(writerEcho := Some(Echo(t, id))))));
    Once(w, g, Closes, g.(m := g.m.(s := g.m.s.(dead := true))));
    Once(w, g, Hibernates, g.(m := Waiting(g.m.s), pushes := []));
  }

  /** An index root moves the basis up, never down; a lost socket is followed by a fresh one; a stamp may wait. */
  lemma WorldSteps(w: World, g: State, r: nat, credit: nat)
    requires Bounds(w, g)
    ensures g.rootT < r <= g.committed ==>
      Leads(w, g, [AdoptRoot(r)], g.(rootT := r, basis := if r > g.basis then r else g.basis))
    ensures Leads(w, g, [Replication.Label.Drop(credit)],
      g.(m := Upgraded(credit), pushes := [], delivered := 0, requests := [], landings := []))
    ensures |g.queue| >= 2 && g.queue[0].IStamp? ==>
      Leads(w, g, [Defer], g.(queue := [g.queue[1], g.queue[0]] + g.queue[2..]))
  {
    if g.rootT < r <= g.committed {
      Once(w, g, AdoptRoot(r), g.(rootT := r, basis := if r > g.basis then r else g.basis));
    }
    Once(w, g, Replication.Label.Drop(credit),
      g.(m := Upgraded(credit), pushes := [], delivered := 0, requests := [], landings := []));
    if |g.queue| >= 2 && g.queue[0].IStamp? {
      Once(w, g, Defer, g.(queue := [g.queue[1], g.queue[0]] + g.queue[2..]));
    }
  }

  /** A resync is dumped for at a basis no older than the one it was decided at. */
  lemma ResyncIsAsked(w: World, g: State, s: Cursor, job: Job, e: Entry)
    requires Bounds(w, g) && Committed(w, e.t) && Sieve(w, e.t).Resync?
    requires g.m == Machine(s, Sieving(job, [e], s.watermark), [])
    ensures Leads(w, g, [Judges], g.(m := Machine(s, Dumping(job), []), dumpT := g.basis))
  {
    Once(w, g, Judges, g.(m := Machine(s, Dumping(job), []), dumpT := g.basis));
  }

  // ---- all the way -------------------------------------------------------------------------------------

  /** Everything that was sent has been read and applied. */
  predicate Drained(g: State) {
    g.delivered == |g.m.s.out| && g.queue == []
  }

  /** From the log to the follower: a commit the reader may hear of is painted there as the sieve left it. */
  lemma CommitArrives(w: World, g: State)
    requires LogOk(w) && Quiet(w, g) && Drained(g) && g.m.s.watermark == g.basis == g.committed < |w.log|
    requires Sieve(w, g.basis + 1).Tx?
    ensures var t := g.basis + 1;
      Leads(w, g, [Commit, Replicate, Push(0), Begins, Judges, Deliver, ApplyHead],
        g.(committed := t, basis := t, m := Waiting(Heard(w, g.m.s, t)), delivered := g.delivered + 1,
           view := Paint(g.view, Sieve(w, t).datoms)))
  {
    var t := g.basis + 1;
    var h := g.(committed := t, basis := t, m := Waiting(Heard(w, g.m.s, t)));
    CommitIsServed(w, g);
    SentArrives(w, h, g.m.s, t);
    var k := h.(delivered := h.delivered + 1, view := Paint(h.view, Sieve(w, t).datoms));
    GoesOn(w, g, [Commit, Replicate, Push(0), Begins, Judges], h, [Deliver, ApplyHead], k);
    assert [Commit, Replicate, Push(0), Begins, Judges] + [Deliver, ApplyHead] ==
      [Commit, Replicate, Push(0), Begins, Judges, Deliver, ApplyHead];
  }

  /** The frame a session has just sent is read and painted. */
  lemma SentArrives(w: World, g: State, s: Cursor, t: nat)
    requires Bounds(w, g) && Committed(w, t) && Sieve(w, t).Tx? && s.credit > 0
    requires g.m.s == Heard(w, s, t) && g.delivered == |s.out| && g.queue == []
    ensures Leads(w, g, [Deliver, ApplyHead],
      g.(delivered := g.delivered + 1, view := Paint(g.view, Sieve(w, t).datoms)))
  {
    NextArrives(w, g, Sent(TxFrame(t, Sieve(w, t).datoms, EchoFor(s.writerEcho, t))));
  }

  /** What a `sync` sent back is read: the news of the cursor, the missed commit, and the answer. */
  lemma SyncIsRead(w: World, g: State, out: seq<Event>, c: nat, t: nat, ds: seq<Datom>, echo: Option<string>)
    requires Bounds(w, g) && g.queue == [] && g.delivered == |out|
    requires g.m.s.out == out + [Named(c)] + [Sent(TxFrame(t, ds, echo))] + [Sent(SyncReply(t, c))]
    ensures Leads(w, g, [Deliver] + [Deliver, ApplyHead] + [Deliver, ApplyHead],
      g.(delivered := |g.m.s.out|, view := Stamp(Paint(g.view, ds), t)))
  {
    var n := |out|;
    var g1 := g.(delivered := n + 1);
    var g2 := g1.(delivered := n + 2, view := Paint(g.view, ds));
    var g3 := g2.(delivered := n + 3, view := Stamp(g2.view, t));
    NextArrives(w, g, Named(c));
    NextArrives(w, g1, Sent(TxFrame(t, ds, echo)));
    NextArrives(w, g2, Sent(SyncReply(t, c)));
    GoesOn(w, g, [Deliver], g1, [Deliver, ApplyHead], g2);
    GoesOn(w, g, [Deliver] + [Deliver, ApplyHead], g2, [Deliver, ApplyHead], g3);
  }

  /** A follower one commit behind asks, and ends with that commit painted and its cursor at the log's end. */
  lemma SyncArrives(w: World, g: State)
    requires LogOk(w) && Quiet(w, g) && Drained(g) && g.m.s.credit > 1 && g.requests == [] && g.landings == []
    requires g.rootT <= g.view.confirmedT && g.basis == g.view.confirmedT + 1 && Sieve(w, g.basis).Tx?
    ensures exists run, h ::
      && Leads(w, g, run, h) && Drained(h) && h.view.confirmedT == g.basis
      && h.view == Stamp(Paint(g.view, Sieve(w, g.basis).datoms), g.basis)
  {
    var c, t := g.view.confirmedT, g.basis;
    var asked := g.m.s.(watermark := c, out := g.m.s.out + [Named(c)]);
    var h := g.(m := Waiting(Replied(Heard(w, asked, t), t, c)));
    var ds, echo := Sieve(w, t).datoms, EchoFor(asked.writerEcho, t);
    SyncIsServed(w, g);
    SyncIsRead(w, h, g.m.s.out, c, t, ds, echo);
    var run := [Deliver] + [Deliver, ApplyHead] + [Deliver, ApplyHead];
    var k := h.(delivered := |h.m.s.out|, view := Stamp(Paint(g.view, ds), t));
    GoesOn(w, g, [Ask, ReadLog, Land(0), Begins, Judges], h, run, k);
    assert Leads(w, g, [Ask, ReadLog, Land(0), Begins, Judges] + run, k);
  }

  // ---- such a world is ------------------------------------------------------------------------------------

  const STAMP := Datom(TX_BASE + 1, DB_TX_INSTANT, Num(0), 1, true)
  const FACT := Datom(1000, 2001, Str("x"), 1, true)

  /** One commit, with a fact its reader may see, and its ack. */
  function OneCommit(): World {
    World([Entry(1, [STAMP, FACT])], false, {}, _ => (_, _) => true, _ => [STAMP, FACT])
  }

  lemma OneCommitIsLogged()
    ensures var w := OneCommit(); |w.log| == 1 && At(w, 1) == [STAMP, FACT] && LogOk(w)
  {
    var w := OneCommit();
    assert At(w, 1) == [STAMP, FACT];
    assert STAMP in At(w, 1) && Stamps(w, 1, STAMP);
    forall t, d | Committed(w, t) && d in At(w, t) ensures d == STAMP || d == FACT {
    }
  }

  lemma {:induction false} AllKept(rule: ReadRule, datoms: seq<Datom>)
    requires forall d :: d in datoms ==> Visible(rule, d)
    ensures Kept(rule, datoms) == datoms
  {
    if datoms != [] {
      AllKept(rule, datoms[..|datoms| - 1]);
    }
  }

  lemma OneCommitIsHeard()
    ensures Sieve(OneCommit(), 1) == Tx([STAMP, FACT])
  {
    var w := OneCommit();
    OneCommitIsLogged();
    assert FACT in At(w, 1) && !IsSystemAttr(FACT.a) && Visible(w.rule(1), FACT);
    AllKept(w.rule(1), At(w, 1));
  }

  /** What the theorems take for granted is not asked in vain. */
  lemma SuchAWorldIs()
    ensures WorldOk(OneCommit()) && Quiet(OneCommit(), Init(2)) && Drained(Init(2))
  {
    OneCommitIsLogged();
  }
}

/** One batch, one push per entry, or pushes cut by hibernation: the same session. */
module CatchUp {
  import opened Datoms
  import opened SessionSync
  import opened LogWindow
  import opened Session

  /** What survives hibernation. */
  datatype SessionState = SessionState(lastT: nat, watermark: nat, writerEcho: Option<Echo>)

  function StateOf(s: Cursor): SessionState {
    SessionState(s.lastT, s.watermark, s.writerEcho)
  }

  /** A session object rebuilt over a socket that is still open. */
  function Seed(state: SessionState, credit: nat, out: seq<Event>): Cursor {
    Cursor(state.lastT, state.watermark, state.writerEcho, false, credit, out)
  }

  function Resume(s: Cursor): Cursor {
    if s.dead then s else Seed(StateOf(s), s.credit, s.out)
  }

  ghost predicate Dense(entries: seq<Entry>, first: nat) {
    forall i :: 0 <= i < |entries| ==> entries[i].t == first + i
  }

  ghost predicate NeverResyncs(sieve: Entry -> Decision) {
    forall e :: sieve(e) != Resync
  }

  /** One job over one stretch of the log. */
  function Deliver(o: Options, s: Cursor, chunk: seq<Entry>, rootT: nat, a: Answers): Cursor {
    if chunk == [] then s
    else Consider(o, s, Log(chunk[|chunk| - 1].t, rootT, chunk), s.watermark, a)
  }

  /** Each stretch meets a session rebuilt from what hibernation kept. */
  function DeliverAll(o: Options, s: Cursor, chunks: seq<seq<Entry>>, rootT: nat, a: Answers): Cursor
    decreases |chunks|
  {
    if chunks == [] then s
    else DeliverAll(o, Deliver(o, Resume(s), chunks[0], rootT, a), chunks[1..], rootT, a)
  }

  function Flatten(chunks: seq<seq<Entry>>): seq<Entry> {
    if chunks == [] then [] else chunks[0] + Flatten(chunks[1..])
  }

  /** Without a sieve the entry goes out as it is, and without the writer's id. */
  function PushRaw(s: Cursor, e: Entry): Cursor {
    SeenT(Send(s.(watermark := e.t), TxFrame(e.t, e.datoms, None)), e.t)
  }

  /** The simple thing all of them stand for: judge and send one entry at a time. */
  function FeedOne(o: Options, s: Cursor, e: Entry, sieve: Entry -> Decision): Cursor {
    if s.dead || e.t <= s.watermark then s
    else if !o.sieves then PushRaw(s, e)
    else
      match sieve(e)
      case Tx(datoms) => PushTx(s, e.t, datoms)
      case Broken => s.(dead := true)
      case _ => PushSkip(s, e.t)
  }

  function Feed(o: Options, s: Cursor, entries: seq<Entry>, sieve: Entry -> Decision): Cursor
    decreases |entries|
  {
    if entries == [] then s else Feed(o, FeedOne(o, s, entries[0], sieve), entries[1..], sieve)
  }

  function Frames(out: seq<Event>): seq<Frame> {
    if out == [] then []
    else
      var rest := Frames(out[..|out| - 1]);
      if out[|out| - 1].Sent? then rest + [out[|out| - 1].frame] else rest
  }

  /** The frames, in the order they left, and nothing else. */
  lemma FramesSnoc(out: seq<Event>, ev: Event)
    ensures Frames(out + [ev]) == if ev.Sent? then Frames(out) + [ev.frame] else Frames(out)
    ensures Frames([]) == []
  {
    assert (out + [ev])[..|out|] == out;
  }

  /** The same session — or both sockets died after sending the same frames. */
  ghost predicate Agree(x: Cursor, y: Cursor) {
    x == y || (x.dead && y.dead && Frames(x.out) == Frames(y.out))
  }

  // ---- a dead socket hears nothing more ------------------------------------------

  lemma {:induction false} DeadFeed(o: Options, s: Cursor, entries: seq<Entry>, sieve: Entry -> Decision)
    requires s.dead
    ensures Feed(o, s, entries, sieve) == s
  {
    if entries != [] {
      DeadFeed(o, s, entries[1..], sieve);
    }
  }

  lemma {:induction false} DeadWalk(o: Options, s: Cursor, job: Job, pending: seq<Entry>, cursor: nat, a: Answers)
    requires s.dead && job.reply.None? && NeverResyncs(a.sieve) && Dense(pending, cursor + 1)
    requires job.log.t == cursor + |pending|
    ensures var s1 := Drive(o, Settle(o, s, job, pending, cursor, []), a).s;
      s1.dead && Frames(s1.out) == Frames(s.out)
    decreases |pending|
  {
    if pending != [] {
      var e := pending[0];
      assert pending[0].t == cursor + 1;
      assert Dense(pending[1..], e.t + 1);
      match a.sieve(e)
      case Skip =>
        assert (s.out + [Silent(e.t)])[..|s.out|] == s.out;
        DeadWalk(o, PushSkip(s, e.t), job, pending[1..], e.t, a);
      case Tx(datoms) =>
        DeadWalk(o, PushTx(s, e.t, datoms), job, pending[1..], e.t, a);
      case Broken =>
    }
  }

  // ---- a batch is the feed ----------------------------------------------------------

  lemma {:induction false} WalkIsFeed(o: Options, s: Cursor, job: Job, pending: seq<Entry>, a: Answers)
    requires o.sieves && !s.dead && job.reply.None? && NeverResyncs(a.sieve) && Dense(pending, s.watermark + 1)
    requires job.log.t == s.watermark + |pending|
    ensures Agree(Drive(o, Settle(o, s, job, pending, s.watermark, []), a).s, Feed(o, s, pending, a.sieve))
    decreases |pending|
  {
    if pending != [] {
      var e := pending[0];
      assert pending[0].t == s.watermark + 1;
      var s1 := FeedOne(o, s, e, a.sieve);
      assert Dense(pending[1..], e.t + 1);
      match a.sieve(e)
      case Skip =>
        WalkIsFeed(o, s1, job, pending[1..], a);
      case Tx(datoms) =>
        if s1.dead {
          DeadWalk(o, s1, job, pending[1..], e.t, a);
          DeadFeed(o, s1, pending[1..], a.sieve);
        } else {
          WalkIsFeed(o, s1, job, pending[1..], a);
        }
      case Broken =>
        DeadFeed(o, s1, pending[1..], a.sieve);
    }
  }

  lemma {:induction false} DeadRaw(o: Options, s: Cursor, job: Job, entries: seq<Entry>, from: nat, a: Answers)
    requires s.dead && job.reply.None? && Dense(entries, from + 1)
    ensures var s1 := Drive(o, WalkRaw(o, s, job, entries, from, []), a).s; s1.dead && s1.out == s.out
    decreases |entries|
  {
    if entries != [] {
      assert entries[0].t == from + 1;
      DeadRaw(o, PushRaw(s, entries[0]), job, entries[1..], entries[0].t, a);
    }
  }

  lemma {:induction false} RawWalkIsFeed(o: Options, s: Cursor, job: Job, entries: seq<Entry>, first: nat, a: Answers)
    requires !o.sieves && !s.dead && job.reply.None? && Dense(entries, first) && first <= s.watermark + 1
    ensures Agree(Drive(o, WalkRaw(o, s, job, entries, s.watermark, []), a).s, Feed(o, s, entries, a.sieve))
    decreases |entries|
  {
    if entries != [] {
      var e, s1 := entries[0], FeedOne(o, s, entries[0], a.sieve);
      assert e.t == first && Dense(entries[1..], first + 1);
      if s1.dead {
        DeadRaw(o, s1, job, entries[1..], e.t, a);
        DeadFeed(o, s1, entries[1..], a.sieve);
      } else {
        RawWalkIsFeed(o, s1, job, entries[1..], first + 1, a);
      }
    }
  }

  lemma {:induction false} NewerIsSuffix(entries: seq<Entry>, first: nat, from: nat)
    requires Dense(entries, first) && first <= from + 1
    ensures NewerThan(entries, from) == if from + 1 - first <= |entries| then entries[from + 1 - first..] else []
  {
    if entries != [] {
      var n, k := |entries| - 1, from + 1 - first;
      NewerIsSuffix(entries[..n], first, from);
      if k <= n {
        assert entries[k..] == entries[..n][k..] + [entries[n]];
      } else {
        assert NewerThan(entries[..n], from) == [];
      }
    }
  }

  lemma {:induction false} DenseIsSorted(entries: seq<Entry>, first: nat)
    requires Dense(entries, first)
    ensures SortByT(entries) == entries
  {
    if entries != [] {
      var init, last := entries[..|entries| - 1], entries[|entries| - 1];
      DenseIsSorted(init, first);
      InsertLast(last, init);
      assert entries == init + [last];
    }
  }

  lemma {:induction false} InsertLast(e: Entry, sorted: seq<Entry>)
    requires forall i :: 0 <= i < |sorted| ==> sorted[i].t <= e.t
    ensures Insert(e, sorted) == sorted + [e]
  {
    if sorted != [] {
      InsertLast(e, sorted[1..]);
      assert sorted == [sorted[0]] + sorted[1..];
    }
  }

  /** Entries at or below the cursor are fed to no effect. */
  lemma {:induction false} FeedSkipsOld(o: Options, s: Cursor, entries: seq<Entry>, k: nat, sieve: Entry -> Decision)
    requires k <= |entries| && forall i :: 0 <= i < k ==> entries[i].t <= s.watermark
    ensures Feed(o, s, entries, sieve) == Feed(o, s, entries[k..], sieve)
  {
    if k > 0 {
      FeedSkipsOld(o, s, entries[1..], k - 1, sieve);
      assert entries[1..][k - 1..] == entries[k..];
    }
  }

  lemma DeliverIsFeed(o: Options, s: Cursor, chunk: seq<Entry>, first: nat, rootT: nat, a: Answers)
    requires (o.sieves ==> NeverResyncs(a.sieve)) && rootT <= s.watermark
    requires Dense(chunk, first) && first <= s.watermark + 1
    ensures Agree(Deliver(o, s, chunk, rootT, a), Feed(o, s, chunk, a.sieve))
  {
    if s.dead {
      DeadFeed(o, s, chunk, a.sieve);
    } else if chunk != [] && !o.sieves {
      RawWalkIsFeed(o, s, Job(Log(chunk[|chunk| - 1].t, rootT, chunk), None), chunk, first, a);
    } else if chunk != [] {
      var from := s.watermark;
      var job := Job(Log(chunk[|chunk| - 1].t, rootT, chunk), None);
      NewerIsSuffix(chunk, first, from);
      var k := if from + 1 - first <= |chunk| then from + 1 - first else |chunk|;
      var pending := chunk[k..];
      FeedSkipsOld(o, s, chunk, k, a.sieve);
      DenseIsSorted(pending, first + k);
      if pending != [] {
        assert Dense(pending, from + 1);
        WalkIsFeed(o, s, job, pending, a);
      }
    }
  }

  lemma {:induction false} FeedReaches(o: Options, s: Cursor, entries: seq<Entry>, first: nat, sieve: Entry -> Decision)
    requires Dense(entries, first) && first <= s.watermark + 1 && (o.sieves ==> NeverResyncs(sieve))
    ensures var s1 := Feed(o, s, entries, sieve);
      s1.watermark >= s.watermark && (!s1.dead ==> s1.watermark + 1 >= first + |entries|)
    decreases |entries|
  {
    if entries != [] {
      var s1 := FeedOne(o, s, entries[0], sieve);
      assert entries[0].t == first;
      if s1.dead {
        DeadFeed(o, s1, entries[1..], sieve);
      } else {
        FeedReaches(o, s1, entries[1..], first + 1, sieve);
      }
    }
  }

  lemma {:induction false} FeedConcat(o: Options, s: Cursor, xs: seq<Entry>, ys: seq<Entry>, sieve: Entry -> Decision)
    ensures Feed(o, s, xs + ys, sieve) == Feed(o, Feed(o, s, xs, sieve), ys, sieve)
    decreases |xs|
  {
    if xs == [] {
      assert xs + ys == ys;
    } else {
      FeedConcat(o, FeedOne(o, s, xs[0], sieve), xs[1..], ys, sieve);
      assert (xs + ys)[1..] == xs[1..] + ys;
    }
  }

  lemma {:induction false} DeadDeliverAll(o: Options, s: Cursor, chunks: seq<seq<Entry>>, rootT: nat, a: Answers)
    requires s.dead
    ensures DeliverAll(o, s, chunks, rootT, a) == s
    decreases |chunks|
  {
    if chunks != [] {
      DeadDeliverAll(o, s, chunks[1..], rootT, a);
    }
  }

  lemma {:induction false} DeliverAllIsFeed(o: Options, s: Cursor, chunks: seq<seq<Entry>>, first: nat, rootT: nat,
      a: Answers)
    requires (o.sieves ==> NeverResyncs(a.sieve)) && rootT <= s.watermark
    requires Dense(Flatten(chunks), first) && first <= s.watermark + 1
    ensures Agree(DeliverAll(o, s, chunks, rootT, a), Feed(o, s, Flatten(chunks), a.sieve))
    decreases |chunks|
  {
    if chunks != [] {
      var all, rest := Flatten(chunks), Flatten(chunks[1..]);
      assert all[..|chunks[0]|] == chunks[0] && all[|chunks[0]|..] == rest;
      assert Dense(chunks[0], first);
      assert Dense(rest, first + |chunks[0]|);
      var s1 := Deliver(o, Resume(s), chunks[0], rootT, a);
      DeliverIsFeed(o, s, chunks[0], first, rootT, a);
      FeedConcat(o, s, chunks[0], rest, a.sieve);
      FeedReaches(o, s, chunks[0], first, a.sieve);
      if s1.dead {
        DeadDeliverAll(o, s1, chunks[1..], rootT, a);
        DeadFeed(o, Feed(o, s, chunks[0], a.sieve), rest, a.sieve);
      } else {
        DeliverAllIsFeed(o, s1, chunks[1..], first + |chunks[0]|, rootT, a);
      }
    }
  }

  /**
   * However a dense log is cut into jobs, with a hibernation before each of
   * them, without a sieve or with one that does not resync: the same frames
   * leave, and a socket that is still open ends with the same `lastT`, `watermark` and `writerEcho`.
   * One chunk is a catch-up; singletons are pushes.
   */
  lemma CatchUpIsPushIsResume(o: Options, s: Cursor, cut1: seq<seq<Entry>>, cut2: seq<seq<Entry>>, first: nat,
      rootT: nat, a: Answers)
    requires (o.sieves ==> NeverResyncs(a.sieve)) && rootT <= s.watermark
    requires Flatten(cut1) == Flatten(cut2)
    requires Dense(Flatten(cut1), first) && first <= s.watermark + 1
    ensures var x, y := DeliverAll(o, s, cut1, rootT, a), DeliverAll(o, s, cut2, rootT, a);
      && x.dead == y.dead
      && Frames(x.out) == Frames(y.out)
      && (!x.dead ==> StateOf(x) == StateOf(y) && x.out == y.out)
  {
    DeliverAllIsFeed(o, s, cut1, first, rootT, a);
    DeliverAllIsFeed(o, s, cut2, first, rootT, a);
  }

  // ---- overlapping pushes -------------------------------------------------------------

  /** Run every queued job to its end, in order. */
  function Drain(o: Options, m: Machine, a: Answers): Machine
    requires m.phase.Idle?
    decreases |m.queue|
  {
    if m.queue == [] then m
    else
      QueueStays(o, m, a);
      Drain(o, Drive(o, Start(o, m), a), a)
  }

  lemma {:induction false} WalkRawQueue(o: Options, s: Cursor, job: Job, entries: seq<Entry>, from: nat,
      queue: seq<Job>)
    ensures WalkRaw(o, s, job, entries, from, queue).queue == queue
    ensures !WalkRaw(o, s, job, entries, from, queue).phase.Sieving?
    decreases |entries|
  {
    if entries != [] {
      var e := entries[0];
      WalkRawQueue(o, s, job, entries[1..], from, queue);
      WalkRawQueue(o, SeenT(Send(s.(watermark := e.t), TxFrame(e.t, e.datoms, None)), e.t), job, entries[1..], e.t,
        queue);
    }
  }

  lemma {:induction false} DriveQueue(o: Options, m: Machine, a: Answers)
    requires m.phase.Sieving? ==> m.phase.pending != []
    ensures Drive(o, m, a).queue == m.queue && Drive(o, m, a).phase.Idle?
    decreases Left(m.phase)
  {
    if m.phase.Sieving? {
      DriveQueue(o, Judge(o, m, a.sieve(m.phase.pending[0])), a);
    }
  }

  lemma QueueStays(o: Options, m: Machine, a: Answers)
    requires m.phase.Idle? && m.queue != []
    ensures var m1 := Drive(o, Start(o, m), a); m1.phase.Idle? && m1.queue == m.queue[1..]
  {
    WalkRawQueue(o, m.s, m.queue[0], m.queue[0].log.entries, m.s.watermark, m.queue[1..]);
    DriveQueue(o, Start(o, m), a);
  }

  /** A job does not look at what is queued behind it. */
  lemma {:induction false} DriveIgnoresQueue(o: Options, m: Machine, queue: seq<Job>, a: Answers)
    requires m.phase.Sieving? ==> m.phase.pending != []
    ensures Drive(o, m, a).s == Drive(o, m.(queue := queue), a).s
    decreases Left(m.phase)
  {
    if m.phase.Sieving? {
      var d := a.sieve(m.phase.pending[0]);
      var m1 := Judge(o, m, d);
      assert Judge(o, m.(queue := queue), d) == m1.(queue := queue);
      DriveIgnoresQueue(o, m1, queue, a);
    }
  }

  /** One push per entry, all of them before the session's next turn. */
  function Pushes(entries: seq<Entry>, rootT: nat): (run: seq<Label>)
    ensures |run| == |entries|
  {
    seq(|entries|, i requires 0 <= i < |entries| => DoApply(entries[i], rootT))
  }

  /** The jobs that pushing `entries` one by one leaves on the queue. */
  function PushJobs(entries: seq<Entry>, rootT: nat): seq<Job> {
    if entries == [] then []
    else [Job(Log(entries[0].t, rootT, [entries[0]]), None)] + PushJobs(entries[1..], rootT)
  }

  lemma {:induction false} PushesQueueJobs(o: Options, m: Machine, entries: seq<Entry>, rootT: nat)
    ensures IsRun(o, m, Pushes(entries, rootT))
    ensures After(o, m, Pushes(entries, rootT)) == m.(queue := m.queue + PushJobs(entries, rootT))
    decreases |entries|
  {
    var run := Pushes(entries, rootT);
    if entries != [] {
      assert run[1..] == Pushes(entries[1..], rootT);
      var m1 := Step(o, m, run[0]);
      PushesQueueJobs(o, m1, entries[1..], rootT);
      assert m1.queue + PushJobs(entries[1..], rootT) == m.queue + PushJobs(entries, rootT);
    }
  }

  function Singletons(entries: seq<Entry>): seq<seq<Entry>> {
    if entries == [] then [] else [[entries[0]]] + Singletons(entries[1..])
  }

  lemma {:induction false} FlattenSingletons(entries: seq<Entry>)
    ensures Flatten(Singletons(entries)) == entries
  {
    if entries != [] {
      FlattenSingletons(entries[1..]);
    }
  }

  lemma {:induction false} DrainedJobs(o: Options, s: Cursor, entries: seq<Entry>, rootT: nat, a: Answers)
    ensures Drain(o, Machine(s, Idle, PushJobs(entries, rootT)), a).s == DeliverAll(o, s, Singletons(entries), rootT, a)
    decreases |entries|
  {
    if entries != [] {
      var m := Machine(s, Idle, PushJobs(entries, rootT));
      var job, queue := m.queue[0], m.queue[1..];
      assert queue == PushJobs(entries[1..], rootT);
      QueueStays(o, m, a);
      WalkRawQueue(o, s, job, job.log.entries, s.watermark, queue);
      WalkRawQueue(o, s, job, job.log.entries, s.watermark, []);
      assert Begin(o, s, job, s.watermark, queue).(queue := []) == Begin(o, s, job, s.watermark, []);
      DriveIgnoresQueue(o, Start(o, m), [], a);
      var s1 := Drive(o, Start(o, m), a).s;
      assert s1 == Deliver(o, Resume(s), [entries[0]], rootT, a);
      DrainedJobs(o, s1, entries[1..], rootT, a);
      assert Singletons(entries)[1..] == Singletons(entries[1..]);
    }
  }

  /**
   * Pushes that pile up behind a busy queue are walked as if each had
   * arrived alone: every job starts from the cursor its predecessor left. Over
   * a dense log with a sieve that does not resync, that is to feed the session
   * the entries one by one.
   */
  lemma OverlappingPushes(o: Options, s: Cursor, entries: seq<Entry>, rootT: nat, a: Answers)
    ensures IsRun(o, Machine(s, Idle, []), Pushes(entries, rootT))
    ensures var piled := After(o, Machine(s, Idle, []), Pushes(entries, rootT));
      && piled.s == s && piled.phase.Idle? && |piled.queue| == |entries|
      && Drain(o, piled, a).s == DeliverAll(o, s, Singletons(entries), rootT, a)
      && ((o.sieves ==> NeverResyncs(a.sieve)) && rootT <= s.watermark && entries != [] &&
          Dense(entries, entries[0].t) && entries[0].t <= s.watermark + 1 ==>
            Agree(Drain(o, piled, a).s, Feed(o, s, entries, a.sieve)))
  {
    PushesQueueJobs(o, Machine(s, Idle, []), entries, rootT);
    assert [] + PushJobs(entries, rootT) == PushJobs(entries, rootT);
    JobPerEntry(entries, rootT);
    DrainedJobs(o, s, entries, rootT, a);
    FlattenSingletons(entries);
    if (o.sieves ==> NeverResyncs(a.sieve)) && rootT <= s.watermark && entries != [] &&
       Dense(entries, entries[0].t) && entries[0].t <= s.watermark + 1
    {
      DeliverAllIsFeed(o, s, Singletons(entries), entries[0].t, rootT, a);
    }
  }

  lemma {:induction false} JobPerEntry(entries: seq<Entry>, rootT: nat)
    ensures |PushJobs(entries, rootT)| == |entries|
  {
    if entries != [] {
      JobPerEntry(entries[1..], rootT);
    }
  }

  /** In particular: one catch-up over the window, or a pile of pushes on the job queue. */
  lemma CatchUpIsPush(o: Options, s: Cursor, entries: seq<Entry>, rootT: nat, a: Answers)
    requires (o.sieves ==> NeverResyncs(a.sieve)) && rootT <= s.watermark
    requires entries != [] && Dense(entries, entries[0].t) && entries[0].t <= s.watermark + 1
    ensures IsRun(o, Machine(s, Idle, []), Pushes(entries, rootT))
    ensures var x := Consider(o, s, Log(entries[|entries| - 1].t, rootT, entries), s.watermark, a);
      var piled := After(o, Machine(s, Idle, []), Pushes(entries, rootT));
      piled.phase.Idle? &&
      var y := Drain(o, piled, a).s;
      && x.dead == y.dead
      && Frames(x.out) == Frames(y.out)
      && (!x.dead ==> x == y)
  {
    OverlappingPushes(o, s, entries, rootT, a);
    DeliverIsFeed(o, s, entries, entries[0].t, rootT, a);
  }
}

/** The apply queue: a job runs on the spot, or behind the last promise. */
module ApplyQueue {
  import opened Datoms

  /** `after` is the job whose end starts this one; `None` is a promise already resolved. */
  datatype Status = Waiting(after: Option<nat>) | Running | Done

  /**
   * Jobs are numbered in the order they were enqueued. `applied` is the job
   * the tail promise stands for. `inside` is a job started on the spot that
   * has not returned yet: until it does, nothing else on this thread runs but
   * what it calls.
   */
  datatype Queue = Queue(jobs: seq<Status>, applied: Option<nat>, queued: nat, inside: Option<nat>, started: seq<nat>)

  datatype Label = Enqueue | Returns | ReturnsPromise | Starts(j: nat) | Ends(j: nat)

  predicate Resolved(q: Queue, p: Option<nat>) {
    p.None? || (p.value < |q.jobs| && q.jobs[p.value].Done?)
  }

  predicate Enabled(q: Queue, l: Label) {
    match l
    case Enqueue => true
    case Returns => q.inside.Some? && q.inside.value < |q.jobs| && q.queued > 0
    case ReturnsPromise => q.inside.Some? && q.inside.value < |q.jobs|
    case Starts(j) => q.inside.None? && j < |q.jobs| && q.jobs[j].Waiting? && Resolved(q, q.jobs[j].after)
    case Ends(j) => q.inside.None? && j < |q.jobs| && q.jobs[j].Running? && q.queued > 0
  }

  function Step(q: Queue, l: Label): Queue
    requires Enabled(q, l)
  {
    var n := |q.jobs|;
    match l
    case Enqueue =>
      if q.queued == 0 then
        q.(jobs := q.jobs + [Running], queued := 1, inside := Some(n), started := q.started + [n])
      else
        q.(jobs := q.jobs + [Waiting(q.applied)], applied := Some(n), queued := q.queued + 1)
    // it returned nothing, or threw
    case Returns => q.(jobs := q.jobs[q.inside.value := Done], queued := q.queued - 1, inside := None)
    // the tail becomes this job, whatever was chained meanwhile
    case ReturnsPromise => q.(applied := q.inside, inside := None)
    case Starts(j) => q.(jobs := q.jobs[j := Running], started := q.started + [j])
    // a failed job ends like any other
    case Ends(j) => q.(jobs := q.jobs[j := Done], queued := q.queued - 1)
  }

  class Applies {
    var jobs: seq<Status>
    var applied: Option<nat>
    var applyQueued: nat
    var inside: Option<nat>
    var started: seq<nat>

    function Abs(): Queue
      reads this
    {
      Queue(jobs, applied, applyQueued, inside, started)
    }

    constructor ()
      ensures Abs() == Queue([], None, 0, None, [])
    {
      jobs, applied, applyQueued, inside, started := [], None, 0, None, [];
    }

    /** Up to the call of the job, or all of it when the job has to wait. */
    method EnqueueApply()
      modifies this
      ensures Abs() == Step(old(Abs()), Enqueue)
      ensures |jobs| == |old(jobs)| + 1 && jobs[..|old(jobs)|] == old(jobs)
    {
      var id := |jobs|;
      if applyQueued == 0 {
        applyQueued := 1;
        jobs := jobs + [Running];
        inside := Some(id);
        started := started + [id];
        return;
      }
      applyQueued := applyQueued + 1;
      jobs := jobs + [Waiting(applied)];
      applied := Some(id);
    }

    /** The rest of it, once a job run on the spot returns; `promised` is whether it returned a promise. */
    method JobReturned(promised: bool)
      requires Enabled(Abs(), if promised then ReturnsPromise else Returns)
      modifies this
      ensures Abs() == Step(old(Abs()), if promised then ReturnsPromise else Returns)
    {
      if !promised {
        jobs := jobs[inside.value := Done];
        applyQueued := applyQueued - 1;
      } else {
        applied := inside;
      }
      inside := None;
    }

    /** A promise's continuation: the next job of the chain begins. */
    method JobStarts(j: nat)
      requires Enabled(Abs(), Starts(j))
      modifies this
      ensures Abs() == Step(old(Abs()), Starts(j))
    {
      jobs := jobs[j := Running];
      started := started + [j];
    }

    method JobEnds(j: nat)
      requires Enabled(Abs(), Ends(j))
      modifies this
      ensures Abs() == Step(old(Abs()), Ends(j))
    {
      jobs := jobs[j := Done];
      applyQueued := applyQueued - 1;
    }
  }

  // ---- first in, first out, one at a time ------------------------------------------------------

  function Unfinished(jobs: seq<Status>): nat {
    if jobs == [] then 0 else (if jobs[|jobs| - 1].Done? then 0 else 1) + Unfinished(jobs[..|jobs| - 1])
  }

  /** `k` jobs have started, in order; only the last of them may be running; the rest wait in a chain. */
  ghost predicate Orderly(q: Queue, k: nat) {
    && |q.started| == k <= |q.jobs|
    && (forall i :: 0 <= i < k ==> q.started[i] == i)
    && (forall i :: 0 <= i < k ==> !q.jobs[i].Waiting?)
    && (forall i :: 0 <= i < k - 1 ==> q.jobs[i].Done?)
    && (forall i :: k <= i < |q.jobs| ==> q.jobs[i].Waiting?)
    && (forall i :: k < i < |q.jobs| ==> q.jobs[i].after == Some(i - 1))
    && (q.inside.Some? ==> k > 0 && q.inside == Some(k - 1) && q.jobs[k - 1].Running?)
    && (q.inside.None? && k > 0 && q.jobs[k - 1].Running? ==>
          if k < |q.jobs| then q.jobs[k].after == Some(k - 1) else q.applied == Some(k - 1))
    && (k < |q.jobs| ==> q.applied == Some(|q.jobs| - 1) && (q.jobs[k].after.Some? ==> q.jobs[k].after.value < k))
    && (q.inside.Some? ==> Resolved(q, if k < |q.jobs| then q.jobs[k].after else q.applied))
    && (q.applied.Some? ==> q.applied.value < |q.jobs|)
    && q.queued == Unfinished(q.jobs)
  }

  /** What the code never does: enqueue from inside a job that goes on to return a promise. */
  predicate Reentered(q: Queue) {
    q.inside.Some? && |q.jobs| > q.inside.value + 1
  }

  lemma {:induction false} UnfinishedWith(jobs: seq<Status>, j: nat, s: Status)
    requires j < |jobs|
    ensures Unfinished(jobs[j := s]) ==
      Unfinished(jobs) - (if jobs[j].Done? then 0 else 1) + (if s.Done? then 0 else 1)
  {
    var last := |jobs| - 1;
    if j < last {
      assert jobs[j := s][..last] == jobs[..last][j := s];
      UnfinishedWith(jobs[..last], j, s);
    } else {
      assert jobs[j := s][..last] == jobs[..last];
    }
  }

  lemma OneMore(jobs: seq<Status>, s: Status)
    ensures Unfinished(jobs + [s]) == Unfinished(jobs) + (if s.Done? then 0 else 1)
  {
    assert (jobs + [s])[..|jobs|] == jobs;
  }

  lemma {:induction false} AllDone(jobs: seq<Status>)
    requires Unfinished(jobs) == 0
    ensures forall i :: 0 <= i < |jobs| ==> jobs[i].Done?
  {
    if jobs != [] {
      AllDone(jobs[..|jobs| - 1]);
    }
  }

  lemma IdleEnqueue(q: Queue, k: nat)
    requires Orderly(q, k) && q.queued == 0
    ensures Orderly(Step(q, Enqueue), k + 1)
  {
    AllDone(q.jobs);
    OneMore(q.jobs, Running);
    assert k == |q.jobs|;
  }

  lemma BusyEnqueue(q: Queue, k: nat)
    requires Orderly(q, k) && q.queued > 0
    ensures Orderly(Step(q, Enqueue), k)
  {
    OneMore(q.jobs, Waiting(q.applied));
    if k == |q.jobs| {
      assert k > 0 && q.jobs[k - 1].Running? by {
        if k == 0 || q.jobs[k - 1].Done? {
          NoneUnfinished(q.jobs);
        }
      }
    }
  }

  lemma EnqueueIsOrderly(q: Queue, k: nat)
    requires Orderly(q, k)
    ensures Orderly(Step(q, Enqueue), if q.queued == 0 then k + 1 else k)
  {
    if q.queued == 0 {
      IdleEnqueue(q, k);
    } else {
      BusyEnqueue(q, k);
    }
  }

  lemma {:induction false} NoneUnfinished(jobs: seq<Status>)
    requires forall i :: 0 <= i < |jobs| ==> jobs[i].Done?
    ensures Unfinished(jobs) == 0
  {
    if jobs != [] {
      NoneUnfinished(jobs[..|jobs| - 1]);
    }
  }

  lemma ReturnIsOrderly(q: Queue, k: nat, l: Label)
    requires Orderly(q, k) && Enabled(q, l) && (l.Returns? || (l.ReturnsPromise? && !Reentered(q)))
    ensures Orderly(Step(q, l), k)
  {
    UnfinishedWith(q.jobs, q.inside.value, Done);
  }

  lemma StartIsOrderly(q: Queue, k: nat, j: nat)
    requires Orderly(q, k) && Enabled(q, Starts(j))
    ensures j == k && (forall i :: 0 <= i < k ==> q.jobs[i].Done?) && Orderly(Step(q, Starts(j)), k + 1)
  {
    assert j == k;
    UnfinishedWith(q.jobs, j, Running);
  }

  lemma EndIsOrderly(q: Queue, k: nat, j: nat)
    requires Orderly(q, k) && Enabled(q, Ends(j))
    ensures Orderly(Step(q, Ends(j)), k)
  {
    UnfinishedWith(q.jobs, j, Done);
  }

  function StartedAfter(q: Queue, k: nat, l: Label): nat {
    if l.Starts? || (l.Enqueue? && q.queued == 0) then k + 1 else k
  }

  lemma StepIsOrderly(q: Queue, k: nat, l: Label)
    requires Orderly(q, k) && Enabled(q, l) && (l.ReturnsPromise? ==> !Reentered(q))
    ensures Orderly(Step(q, l), StartedAfter(q, k, l))
  {
    match l
    case Enqueue => EnqueueIsOrderly(q, k);
    case Starts(j) => StartIsOrderly(q, k, j);
    case Ends(j) => EndIsOrderly(q, k, j);
    case _ => ReturnIsOrderly(q, k, l);
  }

  // ---- every run ---------------------------------------------------------------------------------

  const EMPTY := Queue([], None, 0, None, [])

  predicate IsRun(q: Queue, run: seq<Label>)
    decreases |run|
  {
    run == [] || (Enabled(q, run[0]) && IsRun(Step(q, run[0]), run[1..]))
  }

  function After(q: Queue, run: seq<Label>): Queue
    requires IsRun(q, run)
    decreases |run|
  {
    if run == [] then q else After(Step(q, run[0]), run[1..])
  }

  /** No job enqueues another and then returns a promise of its own. */
  predicate NeverReenters(q: Queue, run: seq<Label>)
    requires IsRun(q, run)
    decreases |run|
  {
    run == [] || ((run[0].ReturnsPromise? ==> !Reentered(q)) && NeverReenters(Step(q, run[0]), run[1..]))
  }

  lemma {:induction false} RunIsOrderly(q: Queue, k: nat, run: seq<Label>) returns (m: nat)
    requires Orderly(q, k) && IsRun(q, run) && NeverReenters(q, run)
    ensures Orderly(After(q, run), m)
    decreases |run|
  {
    m := k;
    if run != [] {
      StepIsOrderly(q, k, run[0]);
      m := RunIsOrderly(Step(q, run[0]), StartedAfter(q, k, run[0]), run[1..]);
    }
  }

  /**
   * In every run mixing jobs that return, throw, promise and enqueue: jobs
   * start in the order they were enqueued, at most one runs at a time, and
   * the counter is the number of unfinished ones.
   */
  lemma FirstInFirstOut(run: seq<Label>)
    requires IsRun(EMPTY, run) && NeverReenters(EMPTY, run)
    ensures var q := After(EMPTY, run);
      && (forall i :: 0 <= i < |q.started| ==> q.started[i] == i)
      && (forall i, j :: 0 <= i < |q.jobs| && 0 <= j < |q.jobs| && q.jobs[i].Running? && q.jobs[j].Running? ==> i == j)
      && q.queued == Unfinished(q.jobs)
  {
    var k := RunIsOrderly(EMPTY, 0, run);
  }

  /** The fast path overtakes no one: a job runs on the spot only when every earlier one is done. */
  lemma FastPathWaitsForAll(run: seq<Label>)
    requires IsRun(EMPTY, run) && NeverReenters(EMPTY, run)
    ensures var q := After(EMPTY, run);
      Step(q, Enqueue).started != q.started ==> forall i :: 0 <= i < |q.jobs| ==> q.jobs[i].Done?
  {
    var k := RunIsOrderly(EMPTY, 0, run);
  }

  // ---- nothing enqueued is lost ------------------------------------------------------------------

  function Enqueued(run: seq<Label>): nat
    decreases |run|
  {
    if run == [] then 0 else (if run[0].Enqueue? then 1 else 0) + Enqueued(run[1..])
  }

  /** In every run whatever, overlapping ones included, there are as many jobs as were enqueued. */
  lemma {:induction false} EveryJobIsThere(q: Queue, run: seq<Label>)
    requires IsRun(q, run)
    ensures |After(q, run).jobs| == |q.jobs| + Enqueued(run)
    decreases |run|
  {
    if run != [] {
      EveryJobIsThere(Step(q, run[0]), run[1..]);
    }
  }

  /** What happens next when nothing more is enqueued: a job returns, ends, or its successor starts. */
  function Next(q: Queue, k: nat): Label {
    if q.inside.Some? then Returns
    else if 0 < k <= |q.jobs| && q.jobs[k - 1].Running? then Ends(k - 1)
    else Starts(k)
  }

  /** A queue with an unfinished job is never stuck: the one whose turn it is can move. */
  lemma NeverStuck(q: Queue, k: nat)
    requires Orderly(q, k) && exists i :: 0 <= i < |q.jobs| && !q.jobs[i].Done?
    ensures Enabled(q, Next(q, k))
    ensures q.inside.None? && (forall i :: 0 <= i < |q.jobs| ==> !q.jobs[i].Running?) ==> Enabled(q, Starts(k))
  {
    var i :| 0 <= i < |q.jobs| && !q.jobs[i].Done?;
    SomeUnfinished(q.jobs, i);
  }

  lemma {:induction false} SomeUnfinished(jobs: seq<Status>, i: nat)
    requires i < |jobs| && !jobs[i].Done?
    ensures Unfinished(jobs) > 0
  {
    if i < |jobs| - 1 {
      SomeUnfinished(jobs[..|jobs| - 1], i);
    }
  }

  /** How many turns are left: a waiting job has two, a running one has one. */
  function TurnsLeft(jobs: seq<Status>): nat {
    if jobs == [] then 0
    else TurnsLeft(jobs[..|jobs| - 1]) + (match jobs[|jobs| - 1] case Waiting(_) => 2 case Running => 1 case Done => 0)
  }

  lemma {:induction false} TurnTaken(jobs: seq<Status>, j: nat, s: Status)
    requires j < |jobs| && (if jobs[j].Waiting? then s.Running? else jobs[j].Running? && s.Done?)
    ensures TurnsLeft(jobs[j := s]) == TurnsLeft(jobs) - 1
  {
    var last := |jobs| - 1;
    if j < last {
      assert jobs[j := s][..last] == jobs[..last][j := s];
      TurnTaken(jobs[..last], j, s);
    } else {
      assert jobs[j := s][..last] == jobs[..last];
    }
  }

  /** So from any point of such a run every job that was enqueued does start, in its turn, and finishes. */
  lemma {:induction false} EveryJobFinishes(q: Queue, k: nat) returns (run: seq<Label>)
    requires Orderly(q, k)
    ensures IsRun(q, run) && Enqueued(run) == 0
    ensures var g := After(q, run);
      |g.jobs| == |q.jobs| == |g.started| && forall i :: 0 <= i < |g.jobs| ==> g.jobs[i].Done? && g.started[i] == i
    decreases TurnsLeft(q.jobs)
  {
    run := [];
    if i :| 0 <= i < |q.jobs| && !q.jobs[i].Done? {
      var l := Next(q, k);
      NeverStuck(q, k);
      StepIsOrderly(q, k, l);
      match l {
        case Returns => TurnTaken(q.jobs, q.inside.value, Done);
        case Ends(j) => TurnTaken(q.jobs, j, Done);
        case Starts(j) => TurnTaken(q.jobs, j, Running);
        case _ =>
      }
      var rest := EveryJobFinishes(Step(q, l), StartedAfter(q, k, l));
      run := [l] + rest;
    }
  }

  /**
   * The exception, whole: whenever a job started on the spot enqueues another
   * and then returns a promise, the tail forgets the other, which is free to
   * start while the first still runs.
   */
  lemma ReentrantPromiseOverlaps(q: Queue, k: nat)
    requires Orderly(q, k) && Reentered(q)
    ensures Enabled(q, ReturnsPromise)
    ensures var q1 := Step(q, ReturnsPromise);
      && Enabled(q1, Starts(k))
      && Step(q1, Starts(k)).jobs[k - 1].Running? && Step(q1, Starts(k)).jobs[k].Running?
  {
  }
}

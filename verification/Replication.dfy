/** Both ends of a replicated session, and the frames under way, over one state. */
module Replication {
  import opened Datoms
  import opened SessionSync
  import opened Session
  import opened Follower
  import opened ReplicatedLog
  import opened Pipeline
  import opened ServerHalf
  import opened ClientHalf

  /**
   * The committed log's length, the replica's basis and root, the socket's
   * session, the frames under way, the HTTP acks, and the client's follower.
   * `pushes` are the applied entries whose turn on this socket has not come,
   * each with the root of its time; `dumpT` is the basis the running dump was
   * asked for at, `delivered` how many of the socket's events the client has
   * read, `base` the last dump its follower was rebuilt from.
   */
  datatype State = State(
    committed: nat, basis: nat, rootT: nat, pushes: seq<(Entry, nat)>,
    m: Machine, dumpT: nat, delivered: nat,
    requests: seq<nat>, landings: seq<(Log, nat)>,
    queue: seq<Item>, view: View, base: nat)

  datatype Label =
    | Commit
    | Replicate
    | Push(i: nat)
    | AdoptRoot(r: nat)
    | Ask
    | ReadLog
    | Land(i: nat)
    | Begins
    | Judges
    | Dumps(t: nat, datoms: seq<Datom>)
    | Writes(t: nat, clientTxId: string)
    | Closes
    | Hibernates
    | Deliver
    | Acked(at: nat)
    | ApplyHead
    | Defer
    | Drop(credit: nat)

  predicate Bounds(w: World, g: State) {
    g.rootT <= g.basis <= g.committed <= |w.log| && g.delivered <= |g.m.s.out|
  }

  /** The replica's novelty since its root. */
  function SessionLog(w: World, g: State): Log
    requires Bounds(w, g)
  {
    Log(g.basis, g.rootT, w.log[g.rootT..g.basis])
  }

  function Serve(g: State, m: Machine): State {
    g.(m := m, dumpT := DumpT(m, g.basis, g.dumpT))
  }

  ghost predicate Enabled(w: World, g: State, l: Label)
    requires Bounds(w, g)
  {
    match l
    case Commit => g.committed < |w.log|
    case Replicate => g.basis < g.committed
    case Push(i) => i < |g.pushes|
    case AdoptRoot(r) => g.rootT < r <= g.committed
    case ReadLog => g.requests != []
    case Land(i) => i < |g.landings|
    case Begins => g.m.phase.Idle? && g.m.queue != []
    case Judges => g.m.phase.Sieving? && g.m.phase.pending != [] && Committed(w, g.m.phase.pending[0].t)
    case Dumps(t, datoms) =>
      g.m.phase.Dumping? && g.dumpT <= t <= g.basis && ToSet(datoms) == DumpSet(w, t)
    case Deliver => g.delivered < |g.m.s.out|
    case Acked(t) => Committed(w, t) && t <= g.committed && w.ack(t) != []
    case ApplyHead => g.queue != []
    case Defer => |g.queue| >= 2 && g.queue[0].IStamp?
    case _ => true
  }

  ghost function Step(w: World, g: State, l: Label): State
    requires Bounds(w, g) && Enabled(w, g, l)
  {
    match l
    case Commit => g.(committed := g.committed + 1)
    // the replica applies one dense frame, and its sockets are walked one by one
    case Replicate => g.(basis := g.basis + 1, pushes := g.pushes + [(w.log[g.basis], g.rootT)])
    case Push(i) =>
      g.(m := ApplyEntry(g.m, g.pushes[i].0, g.pushes[i].1), pushes := g.pushes[..i] + g.pushes[i + 1..])
    // an index root arrives; it may be past what was applied frame by frame
    case AdoptRoot(r) => g.(rootT := r, basis := Max(g.basis, r))
    case Ask => g.(requests := g.requests + [g.view.confirmedT])
    case ReadLog => g.(requests := g.requests[1..], landings := g.landings + [(SessionLog(w, g), g.requests[0])])
    case Land(i) =>
      g.(m := Sync(g.m, g.landings[i].0, g.landings[i].1), landings := g.landings[..i] + g.landings[i + 1..])
    case Begins => Serve(g, Start(SEAMS, g.m))
    case Judges => Serve(g, Judge(SEAMS, g.m, Sieve(w, g.m.phase.pending[0].t)))
    case Dumps(t, datoms) => Serve(g, Session.Dump(g.m, t, datoms))
    case Writes(t, id) => g.(m := Wrote(g.m, t, id))
    case Closes => g.(m := Close(g.m))
    case Hibernates => g.(m := Hibernate(g.m), pushes := [])
    case Deliver =>
      var x := ToItem(g.m.s.out[g.delivered]);
      g.(queue := if x.Quiet? then g.queue else g.queue + [x], delivered := g.delivered + 1)
    case Acked(t) => g.(queue := g.queue + [IAck(t, w.ack(t))])
    case ApplyHead =>
      var x := g.queue[0];
      g.(view := ApplyItem(g.view, x), base := if x.IDump? then x.t else g.base, queue := g.queue[1..])
    // the stamp's continuation may run later than the queue would have it
    case Defer => g.(queue := [g.queue[1], g.queue[0]] + g.queue[2..])
    // the socket is gone with whatever it carried; the next one starts afresh
    case Drop(credit) => g.(m := Upgraded(credit), pushes := [], delivered := 0, requests := [], landings := [])
  }

  // ---- the invariant ---------------------------------------------------------------

  /** Where the follower will be once its queue is empty. */
  function Arrived(g: State): Pos {
    End(PosOf(g.base, g.view), g.queue)
  }

  /** And once the wire is empty too. */
  function Horizon(g: State): Pos
    requires g.delivered <= |g.m.s.out|
  {
    Ahead(Arrived(g), g.delivered, g.m.s.out)
  }

  ghost predicate AsksOk(w: World, basis: nat, horizon: Pos, requests: seq<nat>, landings: seq<(Log, nat)>) {
    (forall i :: 0 <= i < |requests| ==> Held(w, horizon, requests[i])) &&
    (forall i :: 0 <= i < |landings| ==> TrueLog(w, basis, landings[i].0) && Held(w, horizon, landings[i].1))
  }

  ghost predicate PushesOk(w: World, basis: nat, pushes: seq<(Entry, nat)>) {
    forall i :: 0 <= i < |pushes| ==> TrueLog(w, basis, Log(pushes[i].0.t, pushes[i].1, [pushes[i].0]))
  }

  ghost predicate Inv(w: World, g: State) {
    Bounds(w, g) && Honest(g.m) && PushesOk(w, g.basis, g.pushes) &&
    FollowsTo(w, g.base, g.view) &&
    AllFit(w, PosOf(g.base, g.view), g.queue) &&
    ServerOk(w, g.basis, g.dumpT, Arrived(g), g.delivered, g.m) &&
    AsksOk(w, g.basis, Horizon(g), g.requests, g.landings)
  }

  lemma AsksGrow(w: World, basis: nat, larger: nat, p: Pos, q: Pos, requests: seq<nat>, landings: seq<(Log, nat)>)
    requires AsksOk(w, basis, p, requests, landings) && basis <= larger <= |w.log|
    requires forall n :: Held(w, p, n) ==> Held(w, q, n)
    ensures AsksOk(w, larger, q, requests, landings)
  {
  }

  lemma ReplicateKeeps(w: World, g: State)
    requires WorldOk(w) && Inv(w, g) && g.basis < g.committed
    ensures Inv(w, Step(w, g, Replicate))
  {
    var basis := g.basis + 1;
    AsksGrow(w, g.basis, basis, Horizon(g), Horizon(g), g.requests, g.landings);
    assert w.log[g.basis].t == basis;
    var h := Step(w, g, Replicate);
    assert Arrived(h) == Arrived(g) && Horizon(h) == Horizon(g);
  }

  lemma PushKeeps(w: World, g: State, i: nat)
    requires WorldOk(w) && Inv(w, g) && i < |g.pushes|
    ensures Inv(w, Step(w, g, Push(i)))
  {
    StepKeeps(SEAMS, g.m, DoApply(g.pushes[i].0, g.pushes[i].1));
    var h := Step(w, g, Push(i));
    assert Arrived(h) == Arrived(g) && Horizon(h) == Horizon(g);
  }

  lemma AdoptKeeps(w: World, g: State, r: nat)
    requires WorldOk(w) && Inv(w, g) && g.rootT < r <= g.committed
    ensures Inv(w, Step(w, g, AdoptRoot(r)))
  {
    var h := Step(w, g, AdoptRoot(r));
    AsksGrow(w, g.basis, h.basis, Horizon(g), Horizon(g), g.requests, g.landings);
    assert Arrived(h) == Arrived(g) && Horizon(h) == Horizon(g);
  }

  lemma AskKeeps(w: World, g: State)
    requires WorldOk(w) && Inv(w, g)
    ensures Inv(w, Step(w, g, Ask))
  {
    var p := PosOf(g.base, g.view);
    HeldAlong(w, p, g.queue, g.view.confirmedT);
    HeldAlong(w, Arrived(g), Wire(g.m.s.out)[g.delivered..], g.view.confirmedT);
    var h := Step(w, g, Ask);
    assert Arrived(h) == Arrived(g) && Horizon(h) == Horizon(g);
  }

  lemma ReadLogKeeps(w: World, g: State)
    requires WorldOk(w) && Inv(w, g) && g.requests != []
    ensures Inv(w, Step(w, g, ReadLog))
  {
    var h := Step(w, g, ReadLog);
    assert Arrived(h) == Arrived(g) && Horizon(h) == Horizon(g);
  }

  lemma LandKeeps(w: World, g: State, i: nat)
    requires WorldOk(w) && Inv(w, g) && i < |g.landings|
    ensures Inv(w, Step(w, g, Land(i)))
  {
    var (log, from) := g.landings[i];
    StepKeeps(SEAMS, g.m, DoSync(log, from));
    LandOk(w, g.basis, g.dumpT, Arrived(g), g.delivered, g.m, log, from);
    var h := Step(w, g, Land(i));
    assert Arrived(h) == Arrived(g) && Horizon(h) == Horizon(g);
  }

  /** A server step: whatever it sends, requests on their way stay accounted for. */
  lemma ServeKeeps(w: World, g: State, m: Machine)
    requires WorldOk(w) && Inv(w, g) && Honest(m) && g.m.s.out <= m.s.out
    requires ServerOk(w, g.basis, Serve(g, m).dumpT, Arrived(g), g.delivered, m)
    ensures Inv(w, Serve(g, m))
  {
    var h := Serve(g, m);
    assert Arrived(h) == Arrived(g);
    var k, old_, new_ := g.delivered, Wire(g.m.s.out), Wire(m.s.out);
    var more := new_[|old_|..];
    assert new_[k..] == old_[k..] + more;
    EndConcat(w, Arrived(g), old_[k..], more);
    forall n | Held(w, Horizon(g), n) ensures Held(w, Horizon(h), n) {
      HeldAlong(w, Horizon(g), more, n);
    }
    AsksGrow(w, g.basis, g.basis, Horizon(g), Horizon(h), g.requests, g.landings);
  }

  lemma BeginsOk(w: World, g: State, m: Machine)
    requires WorldOk(w) && Inv(w, g) && Enabled(w, g, Begins)
    requires m == Start(SEAMS, g.m)
    ensures Honest(m) && g.m.s.out <= m.s.out
    ensures ServerOk(w, g.basis, Serve(g, m).dumpT, Arrived(g), g.delivered, m)
  {
    StartKeeps(SEAMS, g.m);
    BeginOk(w, g.basis, g.dumpT, Arrived(g), g.delivered, g.m.s, g.m.queue[0], g.m.s.watermark, g.m.queue[1..]);
  }

  lemma JudgesKeeps(w: World, g: State, m: Machine)
    requires WorldOk(w) && Inv(w, g) && Enabled(w, g, Judges)
    requires m == Judge(SEAMS, g.m, Sieve(w, g.m.phase.pending[0].t))
    ensures Inv(w, Serve(g, m))
  {
    var d := Sieve(w, g.m.phase.pending[0].t);
    JudgeKeeps(SEAMS, g.m, d);
    JudgeOk(w, g.basis, g.dumpT, Arrived(g), g.delivered, g.m);
    JudgeOnlySends(SEAMS, g.m, d);
    ServeKeeps(w, g, m);
  }

  lemma DumpsKeeps(w: World, g: State, t: nat, datoms: seq<Datom>, m: Machine)
    requires WorldOk(w) && Inv(w, g) && Enabled(w, g, Dumps(t, datoms))
    requires m == Session.Dump(g.m, t, datoms)
    ensures Inv(w, Serve(g, m))
  {
    StepKeeps(SEAMS, g.m, DoDump(t, datoms));
    DumpOk(w, g.basis, g.dumpT, Arrived(g), g.delivered, g.m, t, datoms);
    ServeKeeps(w, g, m);
  }

  /** Delivery moves an item from the wire to the queue; the end of the line stays where it was. */
  lemma DeliverKeeps(w: World, g: State)
    requires WorldOk(w) && Inv(w, g) && Enabled(w, g, Deliver)
    ensures Inv(w, Step(w, g, Deliver))
  {
    var x := ToItem(g.m.s.out[g.delivered]);
    OneArrived(w, g.basis, g.dumpT, Arrived(g), g.delivered, g.m);
    var h := Step(w, g, Deliver);
    assert Arrived(h) == Advance(Arrived(g), x);
  }

  lemma AckedKeeps(w: World, g: State, t: nat)
    requires WorldOk(w) && Inv(w, g) && Enabled(w, g, Acked(t))
    ensures Inv(w, Step(w, g, Acked(t)))
  {
    var x := IAck(t, w.ack(t));
    var h := Step(w, g, Acked(t));
    StartsLater(w, g.basis, g.dumpT, Arrived(g), Arrived(h), g.delivered, g.m);
    forall n | Held(w, Horizon(g), n) ensures Held(w, Horizon(h), n) {
      AccMore(w, Horizon(g), Horizon(h), n);
    }
    AsksGrow(w, g.basis, g.basis, Horizon(g), Horizon(h), g.requests, g.landings);
  }

  lemma ApplyHeadKeeps(w: World, g: State)
    requires WorldOk(w) && Inv(w, g) && Enabled(w, g, ApplyHead)
    ensures Inv(w, Step(w, g, ApplyHead))
  {
    var x := g.queue[0];
    assert g.queue == [x] + g.queue[1..];
    EndCons(w, PosOf(g.base, g.view), x, g.queue[1..]);
    ApplyOk(w, g.base, g.view, x);
    var h := Step(w, g, ApplyHead);
    assert Arrived(h) == Arrived(g) && Horizon(h) == Horizon(g);
  }

  /** A stamp and the item behind it may be applied in either order. */
  lemma Swapped(w: World, p: Pos, stamp: Item, x: Item, rest: seq<Item>)
    requires stamp.IStamp? && AllFit(w, p, [stamp] + ([x] + rest))
    ensures AllFit(w, p, [x] + ([stamp] + rest))
    ensures End(p, [x] + ([stamp] + rest)) == End(p, [stamp] + ([x] + rest))
  {
    EndCons(w, p, stamp, [x] + rest);
    EndCons(w, Advance(p, stamp), x, rest);
    StampWaits(w, p, stamp.t, x);
    EndCons(w, p, x, [stamp] + rest);
    EndCons(w, Advance(p, x), stamp, rest);
  }

  lemma DeferKeeps(w: World, g: State)
    requires WorldOk(w) && Inv(w, g) && Enabled(w, g, Defer)
    ensures Inv(w, Step(w, g, Defer))
  {
    var stamp, x, rest := g.queue[0], g.queue[1], g.queue[2..];
    assert g.queue == [stamp] + ([x] + rest);
    assert [x, stamp] + rest == [x] + ([stamp] + rest);
    Swapped(w, PosOf(g.base, g.view), stamp, x, rest);
  }

  lemma DropKeeps(w: World, g: State, credit: nat)
    requires WorldOk(w) && Inv(w, g)
    ensures Inv(w, Step(w, g, Drop(credit)))
  {
    ToldGrows(Arrived(g), Wire(g.m.s.out)[g.delivered..]);
    var h := Step(w, g, Drop(credit));
    assert Arrived(h) == Arrived(g);
    assert Wire(h.m.s.out)[0..] == [];
  }

  lemma StepKeepsInv(w: World, g: State, l: Label)
    requires WorldOk(w) && Inv(w, g) && Enabled(w, g, l)
    ensures Inv(w, Step(w, g, l))
  {
    match l
    case Replicate => ReplicateKeeps(w, g);
    case Push(i) => PushKeeps(w, g, i);
    case AdoptRoot(r) => AdoptKeeps(w, g, r);
    case Ask => AskKeeps(w, g);
    case ReadLog => ReadLogKeeps(w, g);
    case Land(i) => LandKeeps(w, g, i);
    case Begins =>
      BeginsOk(w, g, Start(SEAMS, g.m));
      ServeKeeps(w, g, Start(SEAMS, g.m));
    case Judges => JudgesKeeps(w, g, Judge(SEAMS, g.m, Sieve(w, g.m.phase.pending[0].t)));
    case Dumps(t, datoms) => DumpsKeeps(w, g, t, datoms, Session.Dump(g.m, t, datoms));
    case Deliver => DeliverKeeps(w, g);
    case Acked(t) => AckedKeeps(w, g, t);
    case ApplyHead => ApplyHeadKeeps(w, g);
    case Defer => DeferKeeps(w, g);
    case Drop(credit) => DropKeeps(w, g, credit);
    case _ =>
      var h := Step(w, g, l);
      assert Arrived(h) == Arrived(g) && Horizon(h) == Horizon(g);
  }

  // ---- every run -------------------------------------------------------------------

  function Init(credit: nat): State {
    State(0, 0, 0, [], Upgraded(credit), 0, 0, [], [], [], View({}, {}, 0), 0)
  }

  ghost predicate IsRun(w: World, g: State, run: seq<Label>)
    decreases |run|
  {
    Bounds(w, g) &&
    (run == [] || (Enabled(w, g, run[0]) && IsRun(w, Step(w, g, run[0]), run[1..])))
  }

  ghost function After(w: World, g: State, run: seq<Label>): State
    requires IsRun(w, g, run)
    decreases |run|
  {
    if run == [] then g else After(w, Step(w, g, run[0]), run[1..])
  }

  lemma {:induction false} RunKeepsInv(w: World, g: State, run: seq<Label>)
    requires WorldOk(w) && Inv(w, g) && IsRun(w, g, run)
    ensures Inv(w, After(w, g, run))
    decreases |run|
  {
    if run != [] {
      StepKeepsInv(w, g, run[0]);
      RunKeepsInv(w, Step(w, g, run[0]), run[1..]);
    }
  }

  /**
   * In every reachable state, for any interleaving of commits, pushes, index
   * roots, `sync` walks, resyncs, acks and dropped sockets: up to the client's
   * cursor, on every user attribute its reader may see, the follower's current
   * view is the log's; and whatever else it holds there came in the caller's
   * own acks.
   */
  lemma FollowerAgreesWithLog(w: World, credit: nat, run: seq<Label>)
    requires WorldOk(w) && IsRun(w, Init(credit), run)
    ensures var v := After(w, Init(credit), run).view;
      var c := v.confirmedT;
      && c <= |w.log|
      && (forall e: nat, a: nat, x :: !IsSystemAttr(a) && w.rule(c)(e, a) ==>
            (Current(v.facts, c, e, a, x) <==> Current(History(w, c), c, e, a, x)))
      && (forall d :: d in v.facts && d.t <= c && !IsSystemAttr(d.a) && !w.rule(c)(d.e, d.a) ==> d in w.ack(d.t))
  {
    RunKeepsInv(w, Init(credit), run);
    var g := After(w, Init(credit), run);
    var v, c := g.view, g.view.confirmedT;
    forall e: nat, a: nat, x | !IsSystemAttr(a) && w.rule(c)(e, a)
      ensures Current(v.facts, c, e, a, x) <==> Current(History(w, c), c, e, a, x)
    {
      CurrentAgrees(w, g.base, v, e, a, x);
    }
    forall d | d in v.facts && d.t <= c && !IsSystemAttr(d.a) && !w.rule(c)(d.e, d.a)
      ensures d in w.ack(d.t)
    {
      OnlyOwnExtras(w, g.base, v, d);
    }
  }

  /**
   * What is left out there: on bootstrap attributes the follower has the log
   * less the commits since its last dump that it heard nothing of; each of
   * those was kept silent by the sieve, and is one it had no ack of or has not
   * applied that ack yet.
   */
  lemma BootstrapFactsAreThoseHeard(w: World, credit: nat, run: seq<Label>)
    requires WorldOk(w) && IsRun(w, Init(credit), run)
    ensures var g := After(w, Init(credit), run);
      var v, c := g.view, g.view.confirmedT;
      && g.base <= c <= |w.log|
      && (forall e: nat, a: nat, x :: IsSystemAttr(a) ==>
            (Current(v.facts, c, e, a, x) <==> Current(Heard(w, g.base, v), c, e, a, x)))
      && (forall t :: g.base < t <= c && t !in v.factTs ==> Sieve(w, t).Skip?)
      && (forall t :: g.base < t <= c && t in v.factTs && Sieve(w, t).Skip? ==> w.ack(t) != [])
  {
    RunKeepsInv(w, Init(credit), run);
    var g := After(w, Init(credit), run);
    var v, c := g.view, g.view.confirmedT;
    forall e: nat, a: nat, x | IsSystemAttr(a)
      ensures Current(v.facts, c, e, a, x) <==> Current(Heard(w, g.base, v), c, e, a, x)
    {
      BootstrapAgrees(w, g.base, v, e, a, x);
    }
    forall t | g.base < t <= c
      ensures (t !in v.factTs ==> Sieve(w, t).Skip?) && (t in v.factTs && Sieve(w, t).Skip? ==> w.ack(t) != [])
    {
      SilentCommits(w, g.base, v, t);
    }
  }
}

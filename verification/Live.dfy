/** Live queries over the overlay: run, emit what moved, and sleep until the overlay does. */
module Live {
  import opened Datoms
  import opened Follower
  import opened Overlay
  import Rewrite

  /** What a query can see: the painted facts, and every pending layer's. */
  datatype Content = Content(confirmed: set<Datom>, extra: seq<Datom>)

  function PendingDatoms(pending: seq<Layer>): seq<Datom> {
    if pending == [] then [] else PendingDatoms(pending[..|pending| - 1]) + pending[|pending| - 1].datoms
  }

  function Seen(s: State): Content {
    Content(s.view.facts, PendingDatoms(s.pending))
  }

  /**
   * A pass captures the generation before it runs and the epoch in the step
   * that takes its view; `Parked` has its listeners registered.
   */
  datatype Phase =
    | Top
    | Running(generation: nat)
    | Viewed(generation: nat, viewed: nat, digest: string)
    | Parked(generation: nat, viewed: nat)

  datatype Loop = Loop(phase: Phase, last: Option<string>, emitted: seq<string>)

  predicate News(phase: Phase, epoch: nat, generation: nat)
    requires phase.Viewed? || phase.Parked?
  {
    epoch != phase.viewed || generation != phase.generation
  }

  /** A listener ran: it settles only if there is news. */
  function Woken(loop: Loop, epoch: nat, generation: nat): Loop {
    if loop.phase.Parked? && News(loop.phase, epoch, generation) then loop.(phase := Top) else loop
  }

  /** The pass returned: emit it if it differs, then register, and look once more before sleeping. */
  function Returned(loop: Loop, epoch: nat, generation: nat): Loop
    requires loop.phase.Viewed?
  {
    var digest := loop.phase.digest;
    var news := News(loop.phase, epoch, generation);
    Loop(if news then Top else Parked(loop.phase.generation, loop.phase.viewed),
         Some(digest),
         if loop.last == Some(digest) then loop.emitted else loop.emitted + [digest])
  }

  class StandingLoop {
    var phase: Phase
    var last: Option<string>
    var emitted: seq<string>

    function Abs(): Loop
      reads this
    {
      Loop(phase, last, emitted)
    }

    constructor ()
      ensures Abs() == Loop(Top, None, [])
    {
      phase, last, emitted := Top, None, [];
    }

    method PassReturned(epoch: nat, generation: nat)
      requires phase.Viewed?
      modifies this
      ensures Abs() == Returned(old(Abs()), epoch, generation)
    {
      var digest := phase.digest;
      if last != Some(digest) {
        last := Some(digest);
        emitted := emitted + [digest];
      }
      AwaitOverlay(epoch, generation);
    }

    method AwaitOverlay(epoch: nat, generation: nat)
      requires phase.Viewed?
      modifies this`phase
      ensures phase ==
        if News(old(phase), epoch, generation) then Top else Parked(old(phase).generation, old(phase).viewed)
    {
      phase := Parked(phase.generation, phase.viewed);
      Listener(epoch, generation);
    }

    method Listener(epoch: nat, generation: nat)
      modifies this`phase
      ensures Abs() == Woken(old(Abs()), epoch, generation)
    {
      if phase.Parked? && (epoch != phase.viewed || generation != phase.generation) {
        phase := Top;
      }
    }
  }

  // ---- the loop, the overlay and the socket together --------------------------------------------

  /**
   * `applying`: a `resync` has cleared the layers and its dump is still being
   * built. `unsaid`: such a dump has failed, and the epoch has not moved since.
   */
  datatype World = World(overlay: State, applying: bool, unsaid: bool, generation: nat, loop: Loop)

  datatype Label =
    | Apply(l: Overlay.Label)
    | ResyncFails
    | Wakes
    | Drops
    | Reconnects
    | Begins
    | Views
    | Fails
    | Returns

  predicate Enabled(w: World, l: Label) {
    match l
    case Apply(ResyncBegins) => !w.applying
    case Apply(ResyncLands(_, _)) => w.applying
    case ResyncFails => w.applying
    case Begins => w.loop.phase.Top?
    case Views => w.loop.phase.Running?
    case Fails => w.loop.phase.Running? || w.loop.phase.Viewed?
    case Returns => w.loop.phase.Viewed?
    case _ => true
  }

  function Step(schema: Rewrite.Schema, query: Content -> string, w: World, l: Label): World
    requires Enabled(w, l)
  {
    match l
    case Apply(a) =>
      var s := Overlay.Step(schema, w.overlay, a);
      var applying := if a.ResyncBegins? then true else if a.ResyncLands? then false else w.applying;
      // clearing the layers notifies no one
      var loop := if a.ResyncBegins? then w.loop else Woken(w.loop, s.epoch, w.generation);
      w.(overlay := s, applying := applying, unsaid := w.unsaid && s.epoch == w.overlay.epoch, loop := loop)
    // the dump could not be built: nobody is told
    case ResyncFails => w.(applying := false, unsaid := true)
    // a basis bump: the listeners run and find nothing new
    case Wakes => w.(loop := Woken(w.loop, w.overlay.epoch, w.generation))
    case Drops => w.(generation := w.generation + 1, loop := Woken(w.loop, w.overlay.epoch, w.generation + 1))
    // opening a socket counts a generation and wakes nobody
    case Reconnects => w.(generation := w.generation + 1)
    case Begins => w.(loop := w.loop.(phase := Running(w.generation)))
    case Views => w.(loop := w.loop.(phase := Viewed(w.loop.phase.generation, w.overlay.epoch, query(Seen(w.overlay)))))
    // the pass is retried under the generation it began with
    case Fails => w.(loop := w.loop.(phase := Running(w.loop.phase.generation)))
    case Returns => w.(loop := Returned(w.loop, w.overlay.epoch, w.generation))
  }

  predicate IsRun(schema: Rewrite.Schema, query: Content -> string, w: World, run: seq<Label>)
    decreases |run|
  {
    run == [] || (Enabled(w, run[0]) && IsRun(schema, query, Step(schema, query, w, run[0]), run[1..]))
  }

  function After(schema: Rewrite.Schema, query: Content -> string, w: World, run: seq<Label>): World
    requires IsRun(schema, query, w, run)
    decreases |run|
  {
    if run == [] then w else After(schema, query, Step(schema, query, w, run[0]), run[1..])
  }

  /** Nothing has changed without a word: no dump is under way, and none has failed unsaid. */
  predicate Settled(w: World) {
    !w.applying && !w.unsaid
  }

  /** An epoch names one view, unless it was changed without a word. */
  ghost predicate Current(query: Content -> string, w: World) {
    && (w.loop.phase.Viewed? ==>
          w.loop.phase.viewed <= w.overlay.epoch &&
          (w.loop.phase.viewed == w.overlay.epoch && Settled(w) ==> w.loop.phase.digest == query(Seen(w.overlay))))
    && (w.loop.phase.Parked? ==>
          w.loop.phase.viewed == w.overlay.epoch &&
          (Settled(w) ==> w.loop.last == Some(query(Seen(w.overlay)))))
  }

  function Opened(overlay: State, generation: nat): World {
    World(overlay, false, false, generation, Loop(Top, None, []))
  }

  lemma {:induction false} RunIsCurrent(schema: Rewrite.Schema, query: Content -> string, w: World, run: seq<Label>)
    requires Current(query, w) && IsRun(schema, query, w, run)
    ensures Current(query, After(schema, query, w, run))
    decreases |run|
  {
    if run != [] {
      RunIsCurrent(schema, query, Step(schema, query, w, run[0]), run[1..]);
    }
  }

  /**
   * No wake-up is lost: whenever the loop sleeps, what it last emitted is the
   * query's answer on the overlay as it is, except while a dump is under way
   * and between a dump that failed and the next move of the epoch.
   */
  lemma ParkedIsNeverStale(
      schema: Rewrite.Schema, query: Content -> string, overlay: State, generation: nat, run: seq<Label>)
    requires IsRun(schema, query, Opened(overlay, generation), run)
    ensures var w := After(schema, query, Opened(overlay, generation), run);
      w.loop.phase.Parked? && Settled(w) ==> w.loop.last == Some(query(Seen(w.overlay)))
  {
    RunIsCurrent(schema, query, Opened(overlay, generation), run);
  }

  /** The last of what it emitted is what it compares with, and each of them differs from the one before. */
  ghost predicate NeverRepeats(loop: Loop) {
    (loop.emitted == [] ==> loop.last.None?) &&
    (loop.emitted != [] ==> loop.last == Some(loop.emitted[|loop.emitted| - 1])) &&
    (forall i :: 0 < i < |loop.emitted| ==> loop.emitted[i] != loop.emitted[i - 1])
  }

  lemma {:induction false} RunNeverRepeats(
      schema: Rewrite.Schema, query: Content -> string, w: World, run: seq<Label>)
    requires NeverRepeats(w.loop) && IsRun(schema, query, w, run)
    ensures NeverRepeats(After(schema, query, w, run).loop)
    decreases |run|
  {
    if run != [] {
      RunNeverRepeats(schema, query, Step(schema, query, w, run[0]), run[1..]);
    }
  }

  /** No two consecutive emissions of a loop are the same. */
  lemma EmissionsDiffer(
      schema: Rewrite.Schema, query: Content -> string, overlay: State, generation: nat, run: seq<Label>)
    requires IsRun(schema, query, Opened(overlay, generation), run)
    ensures var emitted := After(schema, query, Opened(overlay, generation), run).loop.emitted;
      forall i :: 0 < i < |emitted| ==> emitted[i] != emitted[i - 1]
  {
    RunNeverRepeats(schema, query, Opened(overlay, generation), run);
  }

  /**
   * The exception: a dump that cannot be built leaves the layers cleared and
   * tells nobody. A loop that slept through it is stale exactly when the
   * cleared layers mattered to its query.
   */
  lemma FailedResyncIsSilent(schema: Rewrite.Schema, query: Content -> string, w: World)
    requires Current(query, w) && w.loop.phase.Parked? && Settled(w)
    ensures var began := Step(schema, query, w, Apply(ResyncBegins));
      && Enabled(began, ResyncFails)
      && var failed := Step(schema, query, began, ResyncFails);
         && failed.loop == w.loop && !failed.applying && failed.unsaid
         && (failed.loop.last == Some(query(Seen(failed.overlay))) <==>
               query(Seen(w.overlay)) == query(Seen(w.overlay).(extra := [])))
  {
    assert PendingDatoms([]) == [];
  }

  // ---- what wakes it, and what it does then ----------------------------------------------------

  /** The notices a sleeping loop's listeners are run by. */
  predicate Notifies(l: Label) {
    l.Wakes? || l.Drops? || (l.Apply? && !l.l.ResyncBegins?)
  }

  /**
   * A sleeping loop is woken by a notice exactly when there is something new:
   * the epoch has moved past its view, or a socket was opened or lost since
   * its pass began. Nothing else wakes it.
   */
  lemma WokenIff(schema: Rewrite.Schema, query: Content -> string, w: World, l: Label)
    requires w.loop.phase.Parked? && Enabled(w, l)
    ensures var after := Step(schema, query, w, l);
      && (after.loop.phase.Top? <==>
            Notifies(l) &&
            (after.overlay.epoch != w.loop.phase.viewed || after.generation != w.loop.phase.generation))
      && (!after.loop.phase.Top? ==> after.loop == w.loop)
      && after.loop.emitted == w.loop.emitted
  {
  }

  /** In particular a lost socket wakes it, as does every write, ack, rejection and frame. */
  lemma LossAndMovesWake(schema: Rewrite.Schema, query: Content -> string, w: World, l: Label)
    requires w.loop.phase.Parked? && Enabled(w, l)
    requires w.loop.phase.viewed == w.overlay.epoch && w.loop.phase.generation == w.generation
    requires l.Drops? || (l.Apply? && !l.l.ResyncBegins? && !l.l.Stamped?)
    ensures Step(schema, query, w, l).loop.phase.Top?
  {
  }

  /**
   * An undisturbed pass answers: it emits the query's answer on the overlay as
   * it is, once, if that is not what it last emitted, and goes to sleep.
   */
  lemma PassAnswers(schema: Rewrite.Schema, query: Content -> string, w: World)
    requires w.loop.phase.Top?
    ensures var run := [Begins, Views, Returns];
      && IsRun(schema, query, w, run)
      && var g, answer := After(schema, query, w, run), query(Seen(w.overlay));
         && g == w.(loop := g.loop) && g.loop.phase == Parked(w.generation, w.overlay.epoch)
         && g.loop.last == Some(answer)
         && g.loop.emitted == if w.loop.last == Some(answer) then w.loop.emitted else w.loop.emitted + [answer]
  {
    var run := [Begins, Views, Returns];
    var w1 := Step(schema, query, w, Begins);
    var w2 := Step(schema, query, w1, Views);
    assert run[1..] == [Views, Returns] && run[1..][1..] == [Returns] && run[1..][1..][1..] == [];
    assert IsRun(schema, query, Step(schema, query, w2, Returns), []);
    assert IsRun(schema, query, w2, [Returns]) && IsRun(schema, query, w1, [Views, Returns]);
    assert After(schema, query, w2, [Returns]) == Step(schema, query, w2, Returns);
    assert After(schema, query, w1, [Views, Returns]) == After(schema, query, w2, [Returns]);
  }

  /** A pass disturbed by a move or a lost socket does not sleep on it, and a failed one runs again. */
  lemma DisturbedPassRunsAgain(schema: Rewrite.Schema, query: Content -> string, w: World)
    requires w.loop.phase.Viewed?
    ensures Step(schema, query, w, Returns).loop.phase.Top? <==>
      w.loop.phase.viewed != w.overlay.epoch || w.loop.phase.generation != w.generation
    ensures Step(schema, query, w, Returns).loop.last == Some(w.loop.phase.digest)
    ensures Step(schema, query, w, Fails).loop == w.loop.(phase := Running(w.loop.phase.generation))
  {
  }

  // ---- what the world around it does ------------------------------------------------------------

  /** Every pending layer's datoms are what a query sees besides the painted facts, in the order of the queue. */
  lemma SubmittedIsSeen(schema: Rewrite.Schema, query: Content -> string, w: World, layer: Layer)
    ensures var after := Step(schema, query, w, Apply(Submit(layer)));
      Seen(after.overlay) == Content(w.overlay.view.facts, Seen(w.overlay).extra + layer.datoms)
    ensures forall i, d ::
      0 <= i < |w.overlay.pending| && d in w.overlay.pending[i].datoms ==> d in Seen(w.overlay).extra
    ensures forall d :: d in Seen(w.overlay).extra ==>
      exists i :: 0 <= i < |w.overlay.pending| && d in w.overlay.pending[i].datoms
  {
    var pending := w.overlay.pending;
    assert (pending + [layer])[..|pending|] == pending;
    AllSeen(pending);
  }

  lemma {:induction false} AllSeen(pending: seq<Layer>)
    ensures forall i, d :: 0 <= i < |pending| && d in pending[i].datoms ==> d in PendingDatoms(pending)
    ensures forall d :: d in PendingDatoms(pending) ==> exists i :: 0 <= i < |pending| && d in pending[i].datoms
  {
    if pending != [] {
      var n := |pending| - 1;
      AllSeen(pending[..n]);
      forall d | d in PendingDatoms(pending) ensures exists i :: 0 <= i < |pending| && d in pending[i].datoms {
        if d in PendingDatoms(pending[..n]) {
          var i :| 0 <= i < |pending[..n]| && d in pending[..n][i].datoms;
          assert d in pending[i].datoms;
        } else {
          assert d in pending[n].datoms;
        }
      }
    }
  }

  /**
   * A loop opens in a settled world. That ends when a dump begins, and comes
   * back when it lands, or when the epoch moves after it has failed. Opening
   * and losing a socket are a generation each.
   */
  lemma SettledAgain(schema: Rewrite.Schema, query: Content -> string, w: World, l: Label)
    ensures forall overlay, generation :: Settled(Opened(overlay, generation))
    ensures Enabled(w, l) ==>
      var after := Step(schema, query, w, l);
      && (after.applying <==> l == Apply(ResyncBegins) || (w.applying && !l.ResyncFails? && !Lands(l)))
      && (after.unsaid <==> l.ResyncFails? || (w.unsaid && after.overlay.epoch == w.overlay.epoch))
      && after.generation == w.generation + (if l.Drops? || l.Reconnects? then 1 else 0)
      && after.overlay == (if l.Apply? then Overlay.Step(schema, w.overlay, l.l) else w.overlay)
    ensures (l.Wakes? || l.Drops? || l.Reconnects?) ==> Enabled(w, l)
    ensures l.Apply? && !l.l.ResyncBegins? && !l.l.ResyncLands? ==> Enabled(w, l)
    ensures w.applying ==> Enabled(w, ResyncFails) && (Lands(l) ==> Enabled(w, l))
    ensures !w.applying ==> Enabled(w, Apply(ResyncBegins))
    ensures w.loop.phase.Running? || w.loop.phase.Viewed? ==> Enabled(w, Fails)
  {
  }

  predicate Lands(l: Label) {
    l.Apply? && l.l.ResyncLands?
  }
}

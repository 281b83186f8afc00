/** What becomes of a write, and of what points at it, over whole runs of the overlay. */
module PendingWrites {
  import opened Datoms
  import opened Follower
  import opened Rewrite
  import opened Overlay

  ghost predicate HasLayer(pending: seq<Layer>, id: string) {
    exists i :: 0 <= i < |pending| && pending[i].id == id
  }

  ghost predicate DistinctIds(pending: seq<Layer>) {
    forall i, j :: 0 <= i < j < |pending| ==> pending[i].id != pending[j].id
  }

  predicate Carries(datoms: seq<Datom>, t: nat) {
    exists d :: d in datoms && d.t == t
  }

  predicate Enabled(s: State, l: Label) {
    l.Submit? ==> IndexOf(s.pending, l.layer.id) == |s.pending|
  }

  predicate IsRun(schema: Schema, s: State, run: seq<Label>)
    decreases |run|
  {
    run == [] || (Enabled(s, run[0]) && IsRun(schema, Overlay.Step(schema, s, run[0]), run[1..]))
  }

  function After(schema: Schema, s: State, run: seq<Label>): State
    requires IsRun(schema, s, run)
    decreases |run|
  {
    if run == [] then s else After(schema, Overlay.Step(schema, s, run[0]), run[1..])
  }

  /** `factTs` knows exactly the `t` the follower has facts of. */
  ghost predicate Tidy(s: State) {
    DistinctIds(s.pending) && s.view.factTs == Ts(s.view.facts)
  }

  // ---- an acked write never vanishes -----------------------------------------------------------

  /** The facts `must` of one commit. */
  ghost predicate OfOne(must: set<Datom>, t: nat) {
    forall d :: d in must ==> d.t == t
  }

  /** The write submitted as `id` shows: as its layer, or with every one of its facts painted. */
  ghost predicate Shows(s: State, id: string, must: set<Datom>) {
    HasLayer(s.pending, id) || must <= s.view.facts
  }

  /** What a payload does for facts of `t`: it brings all of them, or they are there, or it comes too late. */
  predicate Brings(v: View, datoms: seq<Datom>, t: nat, must: set<Datom>) {
    if t in v.factTs then must <= v.facts else must <= ToSet(datoms)
  }

  /** Whether a step leaves the write showing, read off the step alone. */
  ghost predicate Spares(s: State, l: Label, id: string, t: nat, must: set<Datom>) {
    match l
    case Ack(i, raw, _) =>
      i == id ==> if raw.Some? then Brings(s.view, raw.value, t, must) else must <= s.view.facts
    case Frame(datoms, covers) => covers == Some(id) && id != "" ==> Brings(s.view, datoms, t, must)
    case Reject(i) => i == id ==> must <= s.view.facts
    case ResyncBegins => must <= s.view.facts
    case ResyncLands(datoms, _) => HasLayer(s.pending, id) || must <= ToSet(datoms)
    case _ => true
  }

  lemma WithoutIs(pending: seq<Layer>, id: string, other: string)
    requires DistinctIds(pending)
    ensures HasLayer(Without(pending, id), other) <==> other != id && HasLayer(pending, other)
    ensures DistinctIds(Without(pending, id))
  {
    var i, rest := IndexOf(pending, id), Without(pending, id);
    if i < |pending| {
      assert forall k :: 0 <= k < |rest| ==> rest[k] == pending[if k < i then k else k + 1];
      if HasLayer(pending, other) && other != id {
        var k :| 0 <= k < |pending| && pending[k].id == other;
        assert rest[if k < i then k else k - 1].id == other;
      }
    }
  }

  lemma DropAndIs(pending: seq<Layer>, id: string, echo: Option<seq<Datom>>, acked: Entries, schema: Schema,
      other: string)
    requires DistinctIds(pending)
    ensures HasLayer(DropAnd(pending, id, echo, acked, schema), other) <==> other != id && HasLayer(pending, other)
    ensures DistinctIds(DropAnd(pending, id, echo, acked, schema))
  {
    WithoutIs(pending, id, other);
  }

  lemma PaintTs(v: View, datoms: seq<Datom>, t: nat)
    ensures t in Paint(v, datoms).factTs <==> t in v.factTs || Carries(datoms, t)
    ensures v.factTs == Ts(v.facts) ==> Paint(v, datoms).factTs == Ts(Paint(v, datoms).facts)
  {
    if Carries(datoms, t) && t !in v.factTs {
      var d :| d in datoms && d.t == t;
      assert d in Fresh(v, datoms);
    }
  }

  /** A fact of an unpainted `t` is painted exactly when the payload has it; of a painted one, never. */
  lemma PaintBrings(v: View, datoms: seq<Datom>, t: nat, must: set<Datom>)
    requires v.factTs == Ts(v.facts) && OfOne(must, t)
    ensures must <= Paint(v, datoms).facts <==> Brings(v, datoms, t, must)
  {
    forall d | d in must ensures d in Paint(v, datoms).facts <==> if t in v.factTs then d in v.facts else d in datoms {
      assert d in v.facts ==> d.t in Ts(v.facts);
    }
    if !Brings(v, datoms, t, must) {
      var d :| d in must && !(if t in v.factTs then d in v.facts else d in ToSet(datoms));
      assert d !in Paint(v, datoms).facts;
    }
  }

  lemma StepIsTidy(schema: Schema, s: State, l: Label)
    requires Tidy(s) && Enabled(s, l)
    ensures Tidy(Overlay.Step(schema, s, l))
  {
    match l
    case Submit(layer) =>
    case Ack(id, raw, acked) =>
      DropAndIs(s.pending, id, None, acked, schema, id);
      if raw.Some? {
        PaintTs(s.view, raw.value, 0);
      }
    case Reject(id) => WithoutIs(s.pending, id, id);
    case Frame(datoms, covers) =>
      PaintTs(s.view, datoms, 0);
      if covers.Some? {
        DropAndIs(s.pending, covers.value, Some(datoms), [], schema, covers.value);
      }
    case _ =>
  }

  /** Exact, step by step: a write that shows still shows after a step if and only if the step spares it. */
  lemma StepSparesIff(schema: Schema, s: State, l: Label, id: string, t: nat, must: set<Datom>)
    requires Tidy(s) && Shows(s, id, must) && OfOne(must, t)
    ensures Shows(Overlay.Step(schema, s, l), id, must) <==> Spares(s, l, id, t, must)
  {
    match l
    case Submit(layer) => SubmitKeeps(s.pending, layer, id);
    case Ack(i, raw, acked) =>
      DropAndIs(s.pending, i, None, acked, schema, id);
      if raw.Some? {
        PaintBrings(s.view, raw.value, t, must);
      }
    case Reject(i) => WithoutIs(s.pending, i, id);
    case Frame(datoms, covers) => FrameSparesIff(schema, s, datoms, covers, id, t, must);
    case _ =>
  }

  lemma SubmitKeeps(pending: seq<Layer>, layer: Layer, id: string)
    ensures HasLayer(pending, id) ==> HasLayer(pending + [layer], id)
  {
    if HasLayer(pending, id) {
      var i :| 0 <= i < |pending| && pending[i].id == id;
      assert (pending + [layer])[i].id == id;
    }
  }

  lemma FrameSparesIff(
      schema: Schema, s: State, datoms: seq<Datom>, covers: Option<string>, id: string, t: nat, must: set<Datom>)
    requires Tidy(s) && Shows(s, id, must) && OfOne(must, t)
    ensures Shows(Overlay.Step(schema, s, Frame(datoms, covers)), id, must) <==>
      Spares(s, Frame(datoms, covers), id, t, must)
  {
    PaintBrings(s.view, datoms, t, must);
    if covers.Some? {
      DropAndIs(s.pending, covers.value, Some(datoms), [], schema, id);
    }
  }

  /** What a step paints. */
  function Payload(l: Label): seq<Datom> {
    match l
    case Ack(_, raw, _) => if raw.Some? then raw.value else []
    case Frame(datoms, _) => datoms
    case _ => []
  }

  predicate Drops(l: Label, id: string) {
    match l
    case Ack(i, _, _) => i == id
    case Frame(_, covers) => covers == Some(id)
    case _ => false
  }

  /** No rejection and no dump; whatever speaks of `t` brings `must`, and so does every ack and echo of the write. */
  predicate Benign(l: Label, id: string, t: nat, must: set<Datom>) {
    && (Carries(Payload(l), t) || Drops(l, id) ==> must <= ToSet(Payload(l)))
    && l != Reject(id) && !l.ResyncBegins? && !l.ResyncLands?
  }

  /** Whatever is painted of `t` has `must`. */
  ghost predicate Whole(s: State, t: nat, must: set<Datom>) {
    t in s.view.factTs ==> must <= s.view.facts
  }

  lemma {:induction false} RunShows(schema: Schema, s: State, run: seq<Label>, id: string, t: nat, must: set<Datom>)
    requires Tidy(s) && Shows(s, id, must) && Whole(s, t, must) && OfOne(must, t) && IsRun(schema, s, run)
    requires forall i :: 0 <= i < |run| ==> Benign(run[i], id, t, must)
    ensures Tidy(After(schema, s, run)) && Shows(After(schema, s, run), id, must)
    decreases |run|
  {
    if run != [] {
      StepIsTidy(schema, s, run[0]);
      StepSparesIff(schema, s, run[0], id, t, must);
      RunShows(schema, Overlay.Step(schema, s, run[0]), run[1..], id, t, must);
    }
  }

  /**
   * From the moment it is submitted until it is rejected or a dump replaces
   * the follower, whatever else happens and however often it is acked or
   * echoed: a write is in a pending layer, or every fact that all payloads of
   * its commit carry is painted.
   */
  lemma WriteNeverVanishes(schema: Schema, s: State, layer: Layer, t: nat, must: set<Datom>, run: seq<Label>)
    requires Tidy(s) && Enabled(s, Submit(layer)) && IsRun(schema, Overlay.Step(schema, s, Submit(layer)), run)
    requires t !in s.view.factTs && OfOne(must, t)
    requires forall i :: 0 <= i < |run| ==> Benign(run[i], layer.id, t, must)
    ensures var g := After(schema, Overlay.Step(schema, s, Submit(layer)), run);
      HasLayer(g.pending, layer.id) || must <= g.view.facts
  {
    var s1 := Overlay.Step(schema, s, Submit(layer));
    StepIsTidy(schema, s, Submit(layer));
    assert s1.pending[|s.pending|].id == layer.id;
    RunShows(schema, s1, run, layer.id, t, must);
  }

  /** The first payload of a run that speaks of `t`. */
  function FirstOf(run: seq<Label>, t: nat): seq<Datom>
    decreases |run|
  {
    if run == [] then []
    else if Carries(Payload(run[0]), t) then Payload(run[0])
    else FirstOf(run[1..], t)
  }

  lemma {:induction false} PaintedFactStays(schema: Schema, s: State, run: seq<Label>, d: Datom)
    requires Tidy(s) && IsRun(schema, s, run) && d.t in s.view.factTs
    requires forall i :: 0 <= i < |run| ==> !run[i].ResyncLands?
    ensures d in After(schema, s, run).view.facts <==> d in s.view.facts
    decreases |run|
  {
    if run != [] {
      StepIsTidy(schema, s, run[0]);
      PaintTs(s.view, Payload(run[0]), d.t);
      PaintedFactStays(schema, Overlay.Step(schema, s, run[0]), run[1..], d);
    }
  }

  /**
   * The rest, exactly: between two dumps a fact of a new commit is painted if
   * and only if the first payload that speaks of the commit has it. A wider
   * ack that comes after a narrower frame adds nothing.
   */
  lemma {:induction false} FirstPayloadDecides(schema: Schema, s: State, run: seq<Label>, d: Datom)
    requires Tidy(s) && IsRun(schema, s, run) && d.t !in s.view.factTs
    requires forall i :: 0 <= i < |run| ==> !run[i].ResyncLands?
    ensures d in After(schema, s, run).view.facts <==> d in FirstOf(run, d.t)
    decreases |run|
  {
    assert d !in s.view.facts;
    if run != [] {
      var s1 := Overlay.Step(schema, s, run[0]);
      StepIsTidy(schema, s, run[0]);
      PaintTs(s.view, Payload(run[0]), d.t);
      if Carries(Payload(run[0]), d.t) {
        PaintBrings(s.view, Payload(run[0]), d.t, {d});
        PaintedFactStays(schema, s1, run[1..], d);
      } else {
        FirstPayloadDecides(schema, s1, run[1..], d);
      }
    }
  }

  /**
   * A narrowed echo loses what it lacks: it takes the layer along, and the
   * ack that has the fact is not heard.
   */
  lemma NarrowEchoLosesAFact(
      schema: Schema, s: State, id: string, echo: seq<Datom>, raw: seq<Datom>, acked: Entries, mine: Datom)
    requires Tidy(s) && id != "" && mine.t !in s.view.factTs
    requires Carries(echo, mine.t) && mine !in echo && mine in raw
    ensures var s1 := Overlay.Step(schema, s, Frame(echo, Some(id)));
      !Shows(Overlay.Step(schema, s1, Ack(id, Some(raw), acked)), id, {mine})
  {
    var s1 := Overlay.Step(schema, s, Frame(echo, Some(id)));
    StepIsTidy(schema, s, Frame(echo, Some(id)));
    PaintTs(s.view, echo, mine.t);
    PaintBrings(s.view, echo, mine.t, {mine});
    PaintBrings(s1.view, raw, mine.t, {mine});
    DropAndIs(s1.pending, id, None, acked, schema, id);
  }

  /** A count in place of datoms loses the write: its layer goes and nothing is painted. */
  lemma CountOnlyAckLosesTheWrite(schema: Schema, s: State, id: string, t: nat, must: set<Datom>, acked: Entries)
    requires Tidy(s) && HasLayer(s.pending, id) && t !in s.view.factTs && OfOne(must, t) && must != {}
    ensures !Shows(Overlay.Step(schema, s, Ack(id, None, acked)), id, must)
  {
    StepSparesIff(schema, s, Ack(id, None, acked), id, t, must);
    var d :| d in must;
    assert d in s.view.facts ==> d.t in Ts(s.view.facts);
  }

  /** A stamp moves the follow cursor forward and nothing else; a dump sets it, wherever it was. */
  lemma StampMovesTheCursor(schema: Schema, s: State, t: nat, datoms: seq<Datom>)
    ensures var after := Overlay.Step(schema, s, Stamped(t));
      after == s.(view := s.view.(confirmedT := if t > s.view.confirmedT then t else s.view.confirmedT))
    ensures var after := Overlay.Step(schema, s, ResyncLands(datoms, t));
      after.view.confirmedT == t && after.view.facts == ToSet(datoms) && after.pending == s.pending &&
      after.epoch > s.epoch
  {
  }
}

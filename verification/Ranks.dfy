/** The `t` a pending write is given, and whether it still decides what is current. */
module Ranks {
  import opened Datoms
  import opened Follower
  import opened Rewrite
  import opened Overlay
  import opened PendingWrites

  /** The highest `t` the follower knows of. */
  ghost predicate IsTop(v: View, m: nat) {
    && (m == v.confirmedT || m in v.factTs) && v.confirmedT <= m
    && forall t :: t in v.factTs ==> t <= m
  }

  /** A submitted layer's datoms carry a `t` past that, by one more than the layers already queued. */
  ghost predicate MadeUp(s: State, layer: Layer) {
    exists m: nat :: IsTop(s.view, m) && forall d :: d in layer.datoms ==> d.t == m + |s.pending| + 1
  }

  function TsOf(layer: Layer): set<nat> {
    set d | d in layer.datoms :: d.t
  }

  /**
   * Every layer has one `t`, past all that is painted and past every layer's
   * before it.
   */
  ghost predicate Ranked(pending: seq<Layer>, painted: set<nat>) {
    && (forall i, t, u :: 0 <= i < |pending| && t in TsOf(pending[i]) && u in TsOf(pending[i]) ==> t == u)
    && (forall i, t, u :: 0 <= i < |pending| && t in TsOf(pending[i]) && u in painted ==> u < t)
    && (forall i, j, t, u :: 0 <= i < j < |pending| && t in TsOf(pending[i]) && u in TsOf(pending[j]) ==> t < u)
  }

  // ---- what it is good for ----------------------------------------------------------------------

  /** Everything a read of the overlay is answered from. */
  function Overlaid(s: State): set<Datom> {
    s.view.facts + set i, d | 0 <= i < |s.pending| && d in s.pending[i].datoms :: d
  }

  predicate Touches(layer: Layer, e: nat, a: nat, v: Value) {
    exists d :: d in layer.datoms && SameFact(d, e, a, v)
  }

  predicate Asserts(layer: Layer, e: nat, a: nat, v: Value) {
    exists d :: d in layer.datoms && SameFact(d, e, a, v) && d.op
  }

  /** Ranked writes decide: a fact is current exactly as the last pending write that touches it says. */
  lemma PendingDecides(s: State, upTo: nat, i: nat, e: nat, a: nat, v: Value)
    requires Tidy(s) && Ranked(s.pending, s.view.factTs)
    requires forall d :: d in Overlaid(s) ==> d.t <= upTo
    requires i < |s.pending| && Touches(s.pending[i], e, a, v)
    requires forall j :: i < j < |s.pending| ==> !Touches(s.pending[j], e, a, v)
    ensures Current(Overlaid(s), upTo, e, a, v) <==> Asserts(s.pending[i], e, a, v)
  {
    var all := Overlaid(s);
    var own :| own in s.pending[i].datoms && SameFact(own, e, a, v);
    assert own.t in TsOf(s.pending[i]) && own in all;
    forall d | d in all && SameFact(d, e, a, v) ensures d.t < own.t || d in s.pending[i].datoms {
      if d in s.view.facts {
        assert d.t in Ts(s.view.facts);
      } else {
        var j :| 0 <= j < |s.pending| && d in s.pending[j].datoms;
        assert Touches(s.pending[j], e, a, v) && d.t in TsOf(s.pending[j]);
      }
    }
    forall d | d in s.pending[i].datoms ensures d.t == own.t && d in all {
      assert d.t in TsOf(s.pending[i]);
    }
    if Asserts(s.pending[i], e, a, v) {
      var d :| d in s.pending[i].datoms && SameFact(d, e, a, v) && d.op;
      assert Newest(all, upTo, d);
    }
  }

  // ---- what keeps it ------------------------------------------------------------------------------

  lemma RemapKeepsTs(layer: Layer, names: Entries, eids: map<nat, nat>, schema: Schema)
    ensures TsOf(RemapLayer(layer, names, eids, schema)) == TsOf(layer)
  {
    var after := RewriteDatoms(layer.datoms, eids);
    forall t | t in TsOf(layer) ensures t in TsOf(RemapLayer(layer, names, eids, schema)) {
      var d :| d in layer.datoms && d.t == t;
      var k: nat :| k < |layer.datoms| && layer.datoms[k] == d;
      assert after[k] in after && after[k].t == t;
    }
    forall t | t in TsOf(RemapLayer(layer, names, eids, schema)) ensures t in TsOf(layer) {
      var d :| d in after && d.t == t;
      var k: nat :| k < |after| && after[k] == d;
      assert layer.datoms[k] in layer.datoms;
    }
  }

  /** A queue less one layer, with every layer's `t` as it was. */
  ghost predicate LessOne(before: seq<Layer>, after: seq<Layer>, k: nat) {
    && k <= |before| && |after| == (if k < |before| then |before| - 1 else |before|)
    && forall j :: 0 <= j < |after| ==> TsOf(after[j]) == TsOf(before[if j < k then j else j + 1])
  }

  lemma WithoutAt(pending: seq<Layer>, id: string, j: nat)
    requires j < |Without(pending, id)|
    ensures Without(pending, id)[j] == pending[if j < IndexOf(pending, id) then j else j + 1]
  {
  }

  lemma DropKeepsTs(pending: seq<Layer>, id: string, echo: Option<seq<Datom>>, acked: Entries, schema: Schema)
    ensures LessOne(pending, DropAnd(pending, id, echo, acked, schema), IndexOf(pending, id))
  {
    var k, after := IndexOf(pending, id), DropAnd(pending, id, echo, acked, schema);
    if k < |pending| {
      var names := if echo.Some? then EchoAck(pending[k], echo.value) else acked;
      forall j | 0 <= j < |after| ensures TsOf(after[j]) == TsOf(pending[if j < k then j else j + 1]) {
        WithoutAt(pending, id, j);
        RemapKeepsTs(Without(pending, id)[j], names, EidMap(names, pending[k].tempids), schema);
      }
    }
  }

  /** What is newly painted stays under every layer but the `k`-th. */
  ghost predicate Under(pending: seq<Layer>, k: nat, painted: set<nat>) {
    forall i, t, u :: 0 <= i < |pending| && i != k && t in TsOf(pending[i]) && u in painted ==> u < t
  }

  /** A queue that loses one layer while more is painted: it stays ranked exactly if what is painted stays under. */
  lemma LessOneRanked(before: seq<Layer>, after: seq<Layer>, k: nat, painted: set<nat>, more: set<nat>)
    requires Ranked(before, painted) && LessOne(before, after, k)
    ensures Ranked(after, painted + more) <==> Under(before, k, more)
  {
    if Ranked(after, painted + more) {
      forall i, t, u | 0 <= i < |before| && i != k && t in TsOf(before[i]) && u in more ensures u < t {
        assert TsOf(after[if i < k then i else i - 1]) == TsOf(before[i]);
      }
    }
    if Under(before, k, more) {
      forall i, j, t, u | 0 <= i < j < |after| && t in TsOf(after[i]) && u in TsOf(after[j]) ensures t < u {
        assert TsOf(after[i]) == TsOf(before[if i < k then i else i + 1]);
        assert TsOf(after[j]) == TsOf(before[if j < k then j else j + 1]);
      }
    }
  }

  /** No queued layer is past the `t` the next one is given. */
  ghost predicate Room(s: State) {
    forall m: nat, i, t :: IsTop(s.view, m) && 0 <= i < |s.pending| && t in TsOf(s.pending[i]) ==> t <= m + |s.pending|
  }

  /** The `t` a payload paints for the first time. */
  function NewTs(s: State, datoms: seq<Datom>): set<nat> {
    Ts(Fresh(s.view, datoms))
  }

  /** Whether a step keeps the queue ranked, read off the state before it. */
  ghost predicate RankSpares(s: State, l: Label) {
    match l
    case Submit(layer) => layer.datoms == [] || Room(s)
    case Ack(id, raw, _) => Under(s.pending, IndexOf(s.pending, id), if raw.Some? then NewTs(s, raw.value) else {})
    case Frame(datoms, covers) =>
      Under(s.pending, if covers.Some? && covers.value != "" then IndexOf(s.pending, covers.value) else |s.pending|,
        NewTs(s, datoms))
    case ResyncLands(datoms, _) => Under(s.pending, |s.pending|, Ts(ToSet(datoms)))
    case _ => true
  }

  lemma SubmitRanksIff(s: State, layer: Layer)
    requires Ranked(s.pending, s.view.factTs) && MadeUp(s, layer)
    ensures Ranked(s.pending + [layer], s.view.factTs) <==> layer.datoms == [] || Room(s)
  {
    var m: nat :| IsTop(s.view, m) && forall d :: d in layer.datoms ==> d.t == m + |s.pending| + 1;
    var after := s.pending + [layer];
    assert forall i :: 0 <= i < |s.pending| ==> after[i] == s.pending[i];
    assert after[|s.pending|] == layer;
    if layer.datoms != [] {
      assert layer.datoms[0] in layer.datoms;
      assert layer.datoms[0].t in TsOf(layer);
      assert TsOf(layer) == {m + |s.pending| + 1};
    }
    if Ranked(after, s.view.factTs) && layer.datoms != [] {
      forall n: nat, i, t | IsTop(s.view, n) && 0 <= i < |s.pending| && t in TsOf(s.pending[i])
        ensures t <= n + |s.pending|
      {
        assert t in TsOf(after[i]) && m + |s.pending| + 1 in TsOf(after[|s.pending|]);
      }
    }
  }

  lemma DropRanksIff(
      schema: Schema, pending: seq<Layer>, painted: set<nat>, id: string, echo: Option<seq<Datom>>, acked: Entries,
      more: set<nat>)
    requires Ranked(pending, painted)
    ensures Ranked(DropAnd(pending, id, echo, acked, schema), painted + more) <==>
      Under(pending, IndexOf(pending, id), more)
  {
    DropKeepsTs(pending, id, echo, acked, schema);
    LessOneRanked(pending, DropAnd(pending, id, echo, acked, schema), IndexOf(pending, id), painted, more);
  }

  /** Exact, step by step: the queue stays ranked if and only if the step spares it. */
  lemma StepRanksIff(schema: Schema, s: State, l: Label)
    requires Ranked(s.pending, s.view.factTs) && (l.Submit? ==> MadeUp(s, l.layer))
    ensures var after := Overlay.Step(schema, s, l);
      Ranked(after.pending, after.view.factTs) <==> RankSpares(s, l)
  {
    var painted := s.view.factTs;
    assert painted + {} == painted;
    match l
    case Submit(layer) => SubmitRanksIff(s, layer);
    case Ack(id, raw, acked) =>
      DropRanksIff(schema, s.pending, painted, id, None, acked, if raw.Some? then NewTs(s, raw.value) else {});
    case Reject(id) =>
      LessOneRanked(s.pending, Without(s.pending, id), IndexOf(s.pending, id), painted, {});
    case Frame(datoms, covers) =>
      if covers.Some? && covers.value != "" {
        DropRanksIff(schema, s.pending, painted, covers.value, Some(datoms), [], NewTs(s, datoms));
      } else {
        LessOneRanked(s.pending, s.pending, |s.pending|, painted, NewTs(s, datoms));
      }
    case _ =>
  }

  /** Every submitted layer of the run gets its `t` the way the client makes it up. */
  ghost predicate AllMadeUp(schema: Schema, s: State, run: seq<Label>)
    requires IsRun(schema, s, run)
    decreases |run|
  {
    run == [] ||
    ((run[0].Submit? ==> MadeUp(s, run[0].layer)) && AllMadeUp(schema, Overlay.Step(schema, s, run[0]), run[1..]))
  }

  ghost predicate AlwaysRanked(schema: Schema, s: State, run: seq<Label>)
    requires IsRun(schema, s, run)
    decreases |run|
  {
    && Ranked(s.pending, s.view.factTs)
    && (run == [] || AlwaysRanked(schema, Overlay.Step(schema, s, run[0]), run[1..]))
  }

  ghost predicate AllSpare(schema: Schema, s: State, run: seq<Label>)
    requires IsRun(schema, s, run)
    decreases |run|
  {
    run == [] || (RankSpares(s, run[0]) && AllSpare(schema, Overlay.Step(schema, s, run[0]), run[1..]))
  }

  /**
   * Over any run from an empty queue, pending writes decide at every point
   * exactly as long as a write is submitted only while no queued one is past
   * its `t`, and no commit is painted past a layer it leaves queued.
   */
  lemma {:induction false} RunRanksIff(schema: Schema, s: State, run: seq<Label>)
    requires Ranked(s.pending, s.view.factTs) && IsRun(schema, s, run) && AllMadeUp(schema, s, run)
    ensures AlwaysRanked(schema, s, run) <==> AllSpare(schema, s, run)
    decreases |run|
  {
    if run != [] {
      var s1 := Overlay.Step(schema, s, run[0]);
      StepRanksIff(schema, s, run[0]);
      if Ranked(s1.pending, s1.view.factTs) {
        RunRanksIff(schema, s1, run[1..]);
      }
    }
  }

  // ---- how it is lost ---------------------------------------------------------------------------------

  const NOWHERE := View({}, {}, 0)

  function Says(id: string, t: nat, op: bool): Layer {
    Layer(id, [], [Datom(1000, 2001, Value.Str("x"), t, op)], [], None)
  }

  /** At one `t` the assertion wins, though the retraction was written after it. */
  lemma TiedRetractionIsUnseen(s: State)
    requires s.pending == [Says("b", 2, true), Says("c", 2, false)] && s.view == NOWHERE
    ensures Current(Overlaid(s), 2, 1000, 2001, Value.Str("x")) && !Asserts(s.pending[1], 1000, 2001, Value.Str("x"))
  {
    var d := Datom(1000, 2001, Value.Str("x"), 2, true);
    assert d in s.pending[0].datoms && d in Overlaid(s);
    forall x | x in Overlaid(s) ensures x.t <= 2 {
      var i :| 0 <= i < |s.pending| && x in s.pending[i].datoms;
    }
    assert Newest(Overlaid(s), 2, d);
  }

  /**
   * A rejected write gives its place in the count back: the next write gets
   * the `t` of the one before it.
   */
  lemma RejectionTiesTwoWrites(schema: Schema)
    ensures var s := State([Says("a", 1, false), Says("b", 2, true)], NOWHERE, 0);
      var s1 := Overlay.Step(schema, s, Reject("a"));
      && Ranked(s.pending, {}) && MadeUp(s1, Says("c", 2, false))
      && Overlay.Step(schema, s1, Submit(Says("c", 2, false))).pending == [Says("b", 2, true), Says("c", 2, false)]
  {
    var x, y, z := Says("a", 1, false), Says("b", 2, true), Says("c", 2, false);
    TwoRanked(x, y, 1, 2);
    assert Without([x, y], "a") == [y] by {
      assert IndexOf([x, y], "a") == 0;
    }
    assert [y] + [z] == [y, z];
    assert IsTop(NOWHERE, 0);
  }

  lemma TwoRanked(x: Layer, y: Layer, t: nat, u: nat)
    requires TsOf(x) == {t} && TsOf(y) == {u} && t < u
    ensures Ranked([x, y], {})
  {
  }

  /** Someone else's commit, painted while a write waits, outranks it. */
  lemma LaterCommitOutranks(schema: Schema)
    ensures var s := State([Says("b", 1, true)], NOWHERE, 0);
      var s1 := Overlay.Step(schema, s, Frame([Datom(1000, 2001, Value.Str("x"), 2, false)], None));
      && MadeUp(State([], NOWHERE, 0), Says("b", 1, true)) && s1.pending == s.pending
      && !Current(Overlaid(s1), 2, 1000, 2001, Value.Str("x"))
  {
    var s := State([Says("b", 1, true)], NOWHERE, 0);
    var theirs := Datom(1000, 2001, Value.Str("x"), 2, false);
    var s1 := Overlay.Step(schema, s, Frame([theirs], None));
    assert IsTop(NOWHERE, 0);
    assert theirs in Fresh(NOWHERE, [theirs]) && theirs in Overlaid(s1);
    forall d | d in Overlaid(s1) && d.op ensures d.t == 1 {
      if d !in s1.view.facts {
        var i :| 0 <= i < |s1.pending| && d in s1.pending[i].datoms;
      }
    }
  }
}

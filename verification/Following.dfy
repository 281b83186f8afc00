/** Where a queued layer points over whole runs, before and after its maker is acked. */
module Following {
  import opened Datoms
  import opened Follower
  import opened Rewrite
  import opened Overlay
  import opened PendingWrites
  import opened Pointers

  // ---- one step, seen from a layer it leaves queued -------------------------------------------------------

  function Minted(s: State, id: string): Entries {
    var i := IndexOf(s.pending, id);
    if i < |s.pending| then s.pending[i].tempids else []
  }

  /** What a step announces to the layers it leaves queued: the acked ids, or what an echo makes of them. */
  function Announced(s: State, l: Label): Entries {
    match l
    case Ack(id, _, acked) => if IndexOf(s.pending, id) < |s.pending| then acked else []
    case Frame(datoms, covers) =>
      if covers.Some? && covers.value != "" && IndexOf(s.pending, covers.value) < |s.pending|
      then EchoAck(s.pending[IndexOf(s.pending, covers.value)], datoms) else []
    case _ => []
  }

  /** The names of the layer a step drops with an announcement. */
  function Dropped(s: State, l: Label): Entries {
    match l
    case Ack(id, _, _) => Minted(s, id)
    case Frame(_, covers) => if covers.Some? then Minted(s, covers.value) else []
    case _ => []
  }

  /** The ids a step renames in every layer it leaves queued. */
  function Renames(s: State, l: Label): map<nat, nat> {
    EidMap(Announced(s, l), Dropped(s, l))
  }

  /** The layer is neither acked, echoed, rejected nor cleared. */
  predicate Leaves(l: Label, id: string) {
    match l
    case Ack(i, _, _) => i != id
    case Frame(_, covers) => covers != Some(id)
    case Reject(i) => i != id
    case ResyncBegins => false
    case _ => true
  }

  function Queued(s: State, id: string): Layer
    requires IndexOf(s.pending, id) < |s.pending|
  {
    s.pending[IndexOf(s.pending, id)]
  }

  lemma NothingRenamed(b: Layer, schema: Schema)
    ensures RemapLayer(b, [], map[], schema) == b
  {
    assert RewriteDatoms(b.datoms, map[]) == b.datoms;
    assert RewriteEntries(b.tempids, map[]) == b.tempids;
  }

  lemma DropRenames(
      schema: Schema, pending: seq<Layer>, other: string, echo: Option<seq<Datom>>, acked: Entries, id: string)
    requires DistinctIds(pending) && other != id && IndexOf(pending, id) < |pending|
    ensures var k, after := IndexOf(pending, other), DropAnd(pending, other, echo, acked, schema);
      var names := if k == |pending| then [] else if echo.Some? then EchoAck(pending[k], echo.value) else acked;
      var local := if k == |pending| then [] else pending[k].tempids;
      && IndexOf(after, id) < |after|
      && after[IndexOf(after, id)] == RemapLayer(pending[IndexOf(pending, id)], names, EidMap(names, local), schema)
  {
    if IndexOf(pending, other) < |pending| {
      OthersRemapped(pending, other, echo, acked, schema, id);
    } else {
      NothingRenamed(pending[IndexOf(pending, id)], schema);
    }
  }

  /** Whatever a step is, a layer it leaves queued is renamed by what the step announces, and by nothing else. */
  lemma StepRenames(schema: Schema, s: State, l: Label, id: string)
    requires Tidy(s) && Enabled(s, l) && Leaves(l, id) && IndexOf(s.pending, id) < |s.pending|
    ensures var after := Overlay.Step(schema, s, l);
      && IndexOf(after.pending, id) < |after.pending|
      && Queued(after, id) == RemapLayer(Queued(s, id), Announced(s, l), Renames(s, l), schema)
  {
    match l
    case Ack(other, _, acked) => DropRenames(schema, s.pending, other, None, acked, id);
    case Frame(datoms, covers) =>
      if covers.Some? && covers.value != "" {
        DropRenames(schema, s.pending, covers.value, Some(datoms), [], id);
      } else {
        NothingRenamed(Queued(s, id), schema);
      }
    case Submit(layer) =>
      IndexInLonger(s.pending, layer, id);
      NothingRenamed(Queued(s, id), schema);
    case Reject(other) =>
      WithoutElsewhere(s.pending, other, id);
      NothingRenamed(Queued(s, id), schema);
    case ResyncBegins =>
    case _ => NothingRenamed(Queued(s, id), schema);
  }

  // ---- over whole runs ---------------------------------------------------------------------------------------

  /** Where a queued layer names an entity by its id: in a datom, or as what its operation is invoked on. */
  datatype Place = InDatom(i: nat, slot: Slot) | Invoked

  function At(b: Layer, p: Place): Option<nat> {
    match p
    case InDatom(i, slot) => if i < |b.datoms| then SlotEid(b.datoms[i], slot) else None
    case Invoked => if b.entity.Some? && b.entity.value.Eid? then Some(b.entity.value.eid) else None
  }

  lemma PlaceRenamed(b: Layer, names: Entries, eids: map<nat, nat>, schema: Schema, p: Place)
    requires At(b, p).Some?
    ensures At(RemapLayer(b, names, eids, schema), p) == Some(RewriteEid(At(b, p).value, eids))
  {
    if p.InDatom? {
      SlotRenamed(b.datoms[p.i], eids, p.slot);
    }
  }

  /** What the steps of a run make of an id, one rename after another. */
  function Moved(schema: Schema, s: State, run: seq<Label>, x: nat): nat
    requires IsRun(schema, s, run)
    decreases |run|
  {
    if run == [] then x
    else Moved(schema, Overlay.Step(schema, s, run[0]), run[1..], RewriteEid(x, Renames(s, run[0])))
  }

  /** And what they make of the entity an operation is queued on. */
  function MovedRef(schema: Schema, s: State, run: seq<Label>, entity: EntityRef): EntityRef
    requires IsRun(schema, s, run)
    decreases |run|
  {
    if run == [] then entity
    else
      MovedRef(schema, Overlay.Step(schema, s, run[0]), run[1..],
        RemapEntityRef(entity, Renames(s, run[0]), Announced(s, run[0])))
  }

  /**
   * While a layer is queued, every id in it, its own names' ids included, and
   * the entity of its operation are where the run's renames take them.
   */
  lemma {:induction false} LayerFollows(schema: Schema, s: State, run: seq<Label>, id: string)
    requires Tidy(s) && IsRun(schema, s, run) && IndexOf(s.pending, id) < |s.pending|
    requires forall k :: 0 <= k < |run| ==> Leaves(run[k], id)
    ensures var g := After(schema, s, run);
      && Tidy(g) && IndexOf(g.pending, id) < |g.pending|
      && var b, c := Queued(s, id), Queued(g, id);
         && (forall p :: At(b, p).Some? ==> At(c, p) == Some(Moved(schema, s, run, At(b, p).value)))
         && (forall n :: Get(b.tempids, n).Some? ==>
               Get(c.tempids, n) == Some(Moved(schema, s, run, Get(b.tempids, n).value)))
         && (b.entity.Some? ==> c.entity == Some(MovedRef(schema, s, run, b.entity.value)))
    decreases |run|
  {
    if run != [] {
      var b, s1 := Queued(s, id), Overlay.Step(schema, s, run[0]);
      StepIsTidy(schema, s, run[0]);
      StepRenames(schema, s, run[0], id);
      LayerFollows(schema, s1, run[1..], id);
      forall p | At(b, p).Some? ensures At(Queued(s1, id), p) == Some(RewriteEid(At(b, p).value, Renames(s, run[0]))) {
        PlaceRenamed(b, Announced(s, run[0]), Renames(s, run[0]), schema, p);
      }
      forall n | Get(b.tempids, n).Some?
        ensures Get(Queued(s1, id).tempids, n) == Some(RewriteEid(Get(b.tempids, n).value, Renames(s, run[0])))
      {
        RenamedGet(b.tempids, Renames(s, run[0]), n);
      }
    }
  }

  /**
   * And a queued layer's datoms are the same datoms but for those ids: as many,
   * in order, each with its attribute, its `t`, its direction, and its value
   * if that is no number; a number that is no id stays, and any other goes
   * where an entity of that number goes.
   */
  lemma {:induction false} DatomsStay(schema: Schema, s: State, run: seq<Label>, id: string)
    requires Tidy(s) && IsRun(schema, s, run) && IndexOf(s.pending, id) < |s.pending|
    requires forall k :: 0 <= k < |run| ==> Leaves(run[k], id)
    ensures var g := After(schema, s, run);
      && IndexOf(g.pending, id) < |g.pending|
      && var ds, es := Queued(s, id).datoms, Queued(g, id).datoms;
         && |es| == |ds|
         && (forall i :: 0 <= i < |ds| ==> es[i].a == ds[i].a && es[i].t == ds[i].t && es[i].op == ds[i].op)
         && (forall i :: 0 <= i < |ds| ==> es[i].e == Moved(schema, s, run, ds[i].e))
         && (forall i :: 0 <= i < |ds| ==>
               match ds[i].v
               case Str(x) => es[i].v == Value.Str(x)
               case Ref(x) => es[i].v == Ref(Moved(schema, s, run, x))
               case Num(n) => es[i].v == if n < 0 then Value.Num(n) else Value.Num(Moved(schema, s, run, n)))
    decreases |run|
  {
    if run != [] {
      StepIsTidy(schema, s, run[0]);
      StepRenames(schema, s, run[0], id);
      DatomsStay(schema, Overlay.Step(schema, s, run[0]), run[1..], id);
    }
  }

  /** The id the first step of a run to name `name` gives it. */
  function FirstNaming(schema: Schema, s: State, run: seq<Label>, name: string): Option<nat>
    requires IsRun(schema, s, run)
    decreases |run|
  {
    if run == [] then None
    else if Get(Announced(s, run[0]), name).Some? then Get(Announced(s, run[0]), name)
    else FirstNaming(schema, Overlay.Step(schema, s, run[0]), run[1..], name)
  }

  lemma {:induction false} UnnamedStays(schema: Schema, s: State, run: seq<Label>, name: string)
    requires IsRun(schema, s, run) && FirstNaming(schema, s, run, name).None?
    ensures MovedRef(schema, s, run, Name(name)) == Name(name)
    decreases |run|
  {
    if run != [] {
      UnnamedStays(schema, Overlay.Step(schema, s, run[0]), run[1..], name);
    }
  }

  // ---- the maker leaves, and what comes after --------------------------------------------------------------------

  /** Entry `k` is the last announced name of the local entity `e`. */
  predicate NamesLast(names: Entries, local: Entries, e: nat, k: nat) {
    && k < |names| && Get(local, names[k].0) == Some(e)
    && forall m :: k < m < |names| ==> Get(local, names[m].0) != Some(e)
  }

  /** The layer with the names `local` made no entity under the id `e`, or is given that very id for it. */
  ghost predicate KeepsEid(names: Entries, local: Entries, e: nat) {
    forall k: nat :: NamesLast(names, local, e, k) ==> names[k].1 == e
  }

  lemma {:induction false} KeepsEidIff(names: Entries, local: Entries, e: nat)
    ensures RewriteEid(e, EidMap(names, local)) == e <==> KeepsEid(names, local, e)
  {
    if names != [] {
      var n := |names| - 1;
      var init := names[..n];
      KeepsEidIff(init, local, e);
      if Get(local, names[n].0) == Some(e) {
        assert NamesLast(names, local, e, n);
      } else {
        forall k: nat ensures NamesLast(names, local, e, k) <==> NamesLast(init, local, e, k) {
        }
      }
    }
  }

  /** No step of the run is the ack or echo of a layer that made another entity under the local id `e`. */
  ghost predicate RunKeeps(schema: Schema, s: State, run: seq<Label>, e: nat)
    requires IsRun(schema, s, run)
    decreases |run|
  {
    run == [] ||
    (KeepsEid(Announced(s, run[0]), Dropped(s, run[0]), e) &&
     RunKeeps(schema, Overlay.Step(schema, s, run[0]), run[1..], e))
  }

  /** At every point of the run the place names `e`. */
  ghost predicate StaysAt(schema: Schema, s: State, run: seq<Label>, id: string, p: Place, e: nat)
    requires IsRun(schema, s, run)
    decreases |run|
  {
    && IndexOf(s.pending, id) < |s.pending| && At(Queued(s, id), p) == Some(e)
    && (run == [] || StaysAt(schema, Overlay.Step(schema, s, run[0]), run[1..], id, p, e))
  }

  /** An id stays where it is, at every point of a run, exactly when every step keeps it. */
  lemma {:induction false} StaysIff(schema: Schema, s: State, run: seq<Label>, id: string, p: Place, e: nat)
    requires Tidy(s) && IsRun(schema, s, run) && IndexOf(s.pending, id) < |s.pending|
    requires forall k :: 0 <= k < |run| ==> Leaves(run[k], id)
    requires At(Queued(s, id), p) == Some(e)
    ensures StaysAt(schema, s, run, id, p, e) <==> RunKeeps(schema, s, run, e)
    decreases |run|
  {
    if run != [] {
      var s1 := Overlay.Step(schema, s, run[0]);
      StepIsTidy(schema, s, run[0]);
      StepRenames(schema, s, run[0], id);
      PlaceRenamed(Queued(s, id), Announced(s, run[0]), Renames(s, run[0]), schema, p);
      KeepsEidIff(Announced(s, run[0]), Dropped(s, run[0]), e);
      if At(Queued(s1, id), p) == Some(e) {
        StaysIff(schema, s1, run[1..], id, p, e);
      }
    }
  }

  /** The maker leaves by an ack that names its entity, or by an echo that tells about it, at the server's id. */
  ghost predicate Resolves(s: State, l: Label, maker: string, tmp: string, serverEid: nat) {
    && IndexOf(s.pending, maker) < |s.pending|
    && var a := Queued(s, maker);
       match l
       case Ack(id, _, acked) => id == maker && AckResolves(a, acked, tmp, serverEid)
       case Frame(datoms, covers) =>
         && covers == Some(maker) && maker != "" && DistinctKeys(a.tempids) && Get(a.tempids, tmp).Some?
         && EchoSays(a.datoms, datoms, Get(a.tempids, tmp).value, serverEid)
       case _ => false
  }

  lemma ResolvedNames(s: State, l: Label, maker: string, tmp: string, serverEid: nat)
    requires Resolves(s, l, maker, tmp, serverEid)
    ensures AckResolves(Queued(s, maker), Announced(s, l), tmp, serverEid) && Dropped(s, l) == Queued(s, maker).tempids
  {
    if l.Frame? {
      EchoIsAck(Queued(s, maker), tmp, l.datoms);
      EchoAnnounces(Queued(s, maker), tmp, l.datoms, serverEid);
    }
  }

  /** The place means the maker's entity: by its local id, or, for an operation, by a name nothing has resolved. */
  predicate MeansEntity(layer: Layer, p: Place, maker: Layer, tmp: string, named: Option<nat>) {
    Get(maker.tempids, tmp).Some? &&
    (At(layer, p) == Get(maker.tempids, tmp) || (p.Invoked? && layer.entity == Some(Name(tmp)) && named.None?))
  }

  /** The step with which the maker leaves takes every place that means its entity to the server's. */
  lemma LeavingResolves(
      schema: Schema, s: State, before: seq<Label>, l: Label, maker: string, id: string, tmp: string, serverEid: nat,
      p: Place)
    requires Tidy(s) && IndexOf(s.pending, maker) < |s.pending| && IndexOf(s.pending, id) < |s.pending|
    requires IsRun(schema, s, before)
    requires forall k :: 0 <= k < |before| ==> Leaves(before[k], maker) && Leaves(before[k], id)
    requires MeansEntity(Queued(s, id), p, Queued(s, maker), tmp, FirstNaming(schema, s, before, tmp))
    requires var s1 := After(schema, s, before); Leaves(l, id) && Resolves(s1, l, maker, tmp, serverEid)
    ensures var s2 := Overlay.Step(schema, After(schema, s, before), l);
      Tidy(s2) && IndexOf(s2.pending, id) < |s2.pending| && At(Queued(s2, id), p) == Some(serverEid)
  {
    var s1 := After(schema, s, before);
    LayerFollows(schema, s, before, maker);
    LayerFollows(schema, s, before, id);
    StepIsTidy(schema, s1, l);
    StepRenames(schema, s1, l, id);
    ResolvedNames(s1, l, maker, tmp, serverEid);
    AckRenames(Queued(s1, maker), tmp, Announced(s1, l), serverEid);
    if At(Queued(s, id), p).Some? {
      PlaceRenamed(Queued(s1, id), Announced(s1, l), Renames(s1, l), schema, p);
    } else {
      UnnamedStays(schema, s, before, tmp);
    }
  }

  /**
   * Over any run, with other writes acked, echoed, rejected and submitted in
   * between. Once the maker has left by its ack or its echo, whatever place of
   * a queued layer meant its entity — a datom's subject or value, or what the
   * layer's operation is invoked on — is where the later renames take the
   * server's id; and it names the server's entity at every later point if and
   * only if no layer acked or echoed later had made another entity under that
   * number.
   */
  lemma PointersFollowTheServer(
      schema: Schema, s: State, before: seq<Label>, l: Label, run: seq<Label>, maker: string, id: string, tmp: string,
      serverEid: nat, p: Place)
    requires Tidy(s) && IndexOf(s.pending, maker) < |s.pending| && IndexOf(s.pending, id) < |s.pending|
    requires IsRun(schema, s, before)
    requires forall k :: 0 <= k < |before| ==> Leaves(before[k], maker) && Leaves(before[k], id)
    requires MeansEntity(Queued(s, id), p, Queued(s, maker), tmp, FirstNaming(schema, s, before, tmp))
    requires var s1 := After(schema, s, before); Leaves(l, id) && Resolves(s1, l, maker, tmp, serverEid)
    requires IsRun(schema, Overlay.Step(schema, After(schema, s, before), l), run)
    requires forall k :: 0 <= k < |run| ==> Leaves(run[k], id)
    ensures var s2 := Overlay.Step(schema, After(schema, s, before), l);
      var g := After(schema, s2, run);
      && IndexOf(g.pending, id) < |g.pending|
      && At(Queued(g, id), p) == Some(Moved(schema, s2, run, serverEid))
      && (StaysAt(schema, s2, run, id, p, serverEid) <==> RunKeeps(schema, s2, run, serverEid))
  {
    var s2 := Overlay.Step(schema, After(schema, s, before), l);
    LeavingResolves(schema, s, before, l, maker, id, tmp, serverEid, p);
    LayerFollows(schema, s2, run, id);
    StaysIff(schema, s2, run, id, p, serverEid);
  }

  // ---- when a server id is some layer's local id ------------------------------------------------------------------

  ghost predicate HeldBy(es: Entries, e: nat) {
    exists n :: Get(es, n) == Some(e)
  }

  /** No queued layer made an entity under the id. */
  ghost predicate Unheld(pending: seq<Layer>, e: nat) {
    forall i :: 0 <= i < |pending| ==> !HeldBy(pending[i].tempids, e)
  }

  predicate Misses(eids: map<nat, nat>, e: nat) {
    forall x :: x in eids ==> eids[x] != e
  }

  /** A step neither submits a layer with an entity of that id nor renames another entity to it. */
  ghost predicate Avoids(s: State, l: Label, e: nat) {
    && (l.Submit? ==> !HeldBy(l.layer.tempids, e))
    && Misses(Renames(s, l), e)
  }

  ghost predicate AllAvoid(schema: Schema, s: State, run: seq<Label>, e: nat)
    requires IsRun(schema, s, run)
    decreases |run|
  {
    run == [] || (Avoids(s, run[0], e) && AllAvoid(schema, Overlay.Step(schema, s, run[0]), run[1..], e))
  }

  lemma RenamedUnheld(es: Entries, eids: map<nat, nat>, e: nat)
    requires !HeldBy(es, e) && Misses(eids, e)
    ensures !HeldBy(RewriteEntries(es, eids), e)
  {
    forall n ensures Get(RewriteEntries(es, eids), n) != Some(e) {
      RenamedGet(es, eids, n);
    }
  }

  lemma DropUnheld(schema: Schema, pending: seq<Layer>, id: string, echo: Option<seq<Datom>>, acked: Entries, e: nat)
    requires Unheld(pending, e) && IndexOf(pending, id) < |pending|
    requires var a := pending[IndexOf(pending, id)];
      Misses(EidMap(if echo.Some? then EchoAck(a, echo.value) else acked, a.tempids), e)
    ensures Unheld(DropAnd(pending, id, echo, acked, schema), e)
  {
    var a, rest := pending[IndexOf(pending, id)], Without(pending, id);
    var eids := EidMap(if echo.Some? then EchoAck(a, echo.value) else acked, a.tempids);
    forall i | 0 <= i < |rest| ensures !HeldBy(RewriteEntries(rest[i].tempids, eids), e) {
      assert rest[i] in pending;
      RenamedUnheld(rest[i].tempids, eids, e);
    }
  }

  lemma StepUnheld(schema: Schema, s: State, l: Label, e: nat)
    requires Unheld(s.pending, e) && Avoids(s, l, e)
    ensures Unheld(Overlay.Step(schema, s, l).pending, e)
  {
    match l
    case Ack(id, _, acked) =>
      if IndexOf(s.pending, id) < |s.pending| {
        DropUnheld(schema, s.pending, id, None, acked, e);
      }
    case Frame(datoms, covers) =>
      if covers.Some? && covers.value != "" && IndexOf(s.pending, covers.value) < |s.pending| {
        DropUnheld(schema, s.pending, covers.value, Some(datoms), [], e);
      }
    case _ =>
  }

  /**
   * What a caller can look at: when the server's id comes in, no queued layer
   * has made an entity under it, and none is made or moved there later. Then
   * every step keeps it.
   */
  lemma {:induction false} UnheldIsKept(schema: Schema, s: State, run: seq<Label>, e: nat)
    requires IsRun(schema, s, run) && Unheld(s.pending, e) && AllAvoid(schema, s, run, e)
    ensures RunKeeps(schema, s, run, e)
    decreases |run|
  {
    if run != [] {
      StepUnheld(schema, s, run[0], e);
      UnheldIsKept(schema, Overlay.Step(schema, s, run[0]), run[1..], e);
      assert forall n :: Get(Dropped(s, run[0]), n) != Some(e);
    }
  }

  /** A write that made 1000, one that made 1001, and an operation queued on the first one's entity. */
  function Three(view: View, epoch: nat): State {
    State([
      Layer("a", [], [Datom(1000, 2001, Value.Str("x"), 1, true)], [("ta", 1000)], None),
      Layer("b", [], [Datom(1001, 2001, Value.Str("y"), 2, true)], [("tb", 1001)], None),
      Layer("c", [], [Datom(1000, 2002, Value.Str("z"), 3, true)], [], Some(Eid(1000)))], view, epoch)
  }

  predicate LastPointsAt(pending: seq<Layer>, e: nat) {
    && pending != []
    && At(pending[|pending| - 1], Invoked) == Some(e) && At(pending[|pending| - 1], InDatom(0, Subject)) == Some(e)
  }

  lemma HeadAckMoves(schema: Schema, first: Layer, rest: seq<Layer>, tmp: string, x: nat, y: nat)
    requires rest != [] && first.tempids == [(tmp, x)] && LastPointsAt(rest, x)
    ensures var after := DropAnd([first] + rest, first.id, None, [(tmp, y)], schema);
      after == Remap(rest, [(tmp, y)], [(tmp, x)], schema) && LastPointsAt(after, y)
  {
    DropHead(schema, first, rest, [(tmp, y)]);
    var n := |rest| - 1;
    var after := Remap(rest, [(tmp, y)], [(tmp, x)], schema);
    OneRename(rest[n], tmp, x, y, schema, Invoked);
    OneRename(rest[n], tmp, x, y, schema, InDatom(0, Subject));
    assert after[n] == RemapLayer(rest[n], [(tmp, y)], EidMap([(tmp, y)], [(tmp, x)]), schema);
  }

  /**
   * The number the first ack brings is the local id of the second layer: the
   * second ack takes the operation queued on the first one's entity, and what
   * it wrote there, to the second's.
   */
  lemma LaterAckStealsThePointer(schema: Schema, view: View, epoch: nat)
    ensures var s1 := Overlay.Step(schema, Three(view, epoch), Ack("a", None, [("ta", 1001)]));
      var s2 := Overlay.Step(schema, s1, Ack("b", None, [("tb", 1002)]));
      && LastPointsAt(Three(view, epoch).pending, 1000)
      && LastPointsAt(s1.pending, 1001) && |s2.pending| == 1 && LastPointsAt(s2.pending, 1002)
  {
    var s := Three(view, epoch);
    var a, rest := s.pending[0], s.pending[1..];
    assert [a] + rest == s.pending;
    HeadAckMoves(schema, a, rest, "ta", 1000, 1001);
    var s1 := Overlay.Step(schema, s, Ack("a", None, [("ta", 1001)]));
    var b1, rest1 := s1.pending[0], s1.pending[1..];
    assert [b1] + rest1 == s1.pending && LastPointsAt(rest1, 1001);
    OneName(rest[0], "ta", 1000, 1001, "tb", schema);
    HeadAckMoves(schema, b1, rest1, "tb", 1001, 1002);
  }

  lemma DropHead(schema: Schema, first: Layer, rest: seq<Layer>, acked: Entries)
    ensures DropAnd([first] + rest, first.id, None, acked, schema) == Remap(rest, acked, first.tempids, schema)
  {
    assert Without([first] + rest, first.id) == rest;
  }

  lemma OneRename(b: Layer, tmp: string, x: nat, y: nat, schema: Schema, p: Place)
    requires At(b, p) == Some(x)
    ensures At(RemapLayer(b, [(tmp, y)], EidMap([(tmp, y)], [(tmp, x)]), schema), p) == Some(y)
  {
    PlaceRenamed(b, [(tmp, y)], EidMap([(tmp, y)], [(tmp, x)]), schema, p);
  }

  lemma OneName(b: Layer, tmp: string, x: nat, y: nat, name: string, schema: Schema)
    requires b.tempids == [(name, y)] && x != y
    ensures RemapLayer(b, [(tmp, y)], EidMap([(tmp, y)], [(tmp, x)]), schema).tempids == [(name, y)]
  {
    assert EidMap([(tmp, y)], [(tmp, x)]) == map[x := y];
  }

  // ---- what a rename can spoil --------------------------------------------------------------------------------------

  /**
   * Any number equal to a renamed id is rewritten, a count or a price as much
   * as a reference: the plain numbers of a layer survive exactly when none of
   * them is an id the ack renames.
   */
  lemma NumbersSurviveIff(datoms: seq<Datom>, eids: map<nat, nat>)
    ensures (forall i :: 0 <= i < |datoms| && datoms[i].v.Num? ==> RewriteDatoms(datoms, eids)[i].v == datoms[i].v) <==>
      (forall i :: 0 <= i < |datoms| && datoms[i].v.Num? && datoms[i].v.n >= 0 && datoms[i].v.n in eids ==>
         eids[datoms[i].v.n] == datoms[i].v.n)
  {
    var after := RewriteDatoms(datoms, eids);
    forall i | 0 <= i < |datoms| && datoms[i].v.Num?
      ensures after[i].v == datoms[i].v <==>
        (datoms[i].v.n >= 0 && datoms[i].v.n in eids ==> eids[datoms[i].v.n] == datoms[i].v.n)
    {
    }
  }

  /** A count of 1000 becomes 5000 when the entity 1000 does. */
  lemma CountIsRenamed()
    ensures var d := Datom(1001, 2003, Value.Num(1000), 1, true);
      RewriteDatoms([d], EidMap([("a", 5000)], [("a", 1000)]))[0].v == Value.Num(5000)
  {
    assert EidMap([("a", 5000)], [("a", 1000)]) == map[1000 := 5000];
  }

  /**
   * Local ids and server ids are drawn from the same numbers. An ack keeps
   * apart the entities a queued layer names exactly when it gives no two of
   * them one id, and none of them the id of one it leaves alone.
   */
  lemma EntitiesStayApartIff(b: Layer, names: Entries, local: Entries, schema: Schema)
    ensures var eids := EidMap(names, local);
      var c := RemapLayer(b, names, eids, schema);
      (forall p, q :: At(b, p).Some? && At(b, q).Some? && At(b, p) != At(b, q) ==> At(c, p) != At(c, q)) <==>
      (forall p, q ::
         (At(b, p).Some? && At(b, q).Some? && At(b, p) != At(b, q) && At(b, p).value in eids) ==>
           eids[At(b, p).value] != if At(b, q).value in eids then eids[At(b, q).value] else At(b, q).value)
  {
    var eids := EidMap(names, local);
    var c := RemapLayer(b, names, eids, schema);
    forall p | At(b, p).Some? ensures At(c, p) == Some(RewriteEid(At(b, p).value, eids)) {
      PlaceRenamed(b, names, eids, schema, p);
    }
    forall p, q | At(b, p).Some? && At(b, q).Some? && At(b, p) != At(b, q)
      ensures At(c, p) != At(c, q) <==> RewriteEid(At(b, p).value, eids) != RewriteEid(At(b, q).value, eids)
    {
    }
  }
}

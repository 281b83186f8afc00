/** What points at a write that has not been acked, and where it points once it is. */
module Pointers {
  import opened Datoms
  import opened Follower
  import opened Rewrite
  import opened Overlay
  import opened PendingWrites

  // ---- names ---------------------------------------------------------------------------------------

  /** A layer's names never change hands: only names it did not mint are resolved in its transaction. */
  lemma {:induction false} ForeignIs(acked: Entries, minted: Entries, name: string)
    ensures name in Foreign(acked, minted) <==> Get(acked, name).Some? && Get(minted, name).None?
    ensures name in Foreign(acked, minted) ==> Foreign(acked, minted)[name] == Get(acked, name).value
  {
    if acked != [] {
      ForeignIs(acked[..|acked| - 1], minted, name);
    }
  }

  lemma OwnNamesStay(layer: Layer, acked: Entries, eids: map<nat, nat>, schema: Schema, name: string)
    ensures name in Names(RemapLayer(layer, acked, eids, schema).tx, schema) <==>
      name in Names(layer.tx, schema) && (Get(layer.tempids, name).Some? || Get(acked, name).None?)
  {
    ForeignIs(acked, layer.tempids, name);
    NamesLeft(layer.tx, Foreign(acked, layer.tempids), schema);
  }

  lemma {:induction false} RenamedGet(es: Entries, eids: map<nat, nat>, key: string)
    ensures Get(RewriteEntries(es, eids), key) ==
      match Get(es, key) { case Some(e) => Some(RewriteEid(e, eids)) case None => None }
  {
    if es != [] {
      RenamedGet(es[..|es| - 1], eids, key);
      assert RewriteEntries(es, eids)[..|es| - 1] == RewriteEntries(es[..|es| - 1], eids);
    }
  }

  // ---- where a layer's datoms point -------------------------------------------------------------------

  /** The two places where a datom names an entity. */
  datatype Slot = Subject | Object

  function SlotEid(d: Datom, slot: Slot): Option<nat> {
    match slot
    case Subject => Some(d.e)
    case Object => if d.v.Ref? then Some(d.v.eid) else None
  }

  /** Two layers agree on an entity one of them made: `b`'s datom `i` names the one `a` calls `tmp`. */
  predicate PointsAt(b: Layer, i: nat, slot: Slot, a: Layer, tmp: string) {
    i < |b.datoms| && Get(a.tempids, tmp).Some? && SlotEid(b.datoms[i], slot) == Get(a.tempids, tmp)
  }

  lemma SlotRenamed(d: Datom, eids: map<nat, nat>, slot: Slot)
    ensures SlotEid(RewriteDatom(d, eids), slot) ==
      match SlotEid(d, slot) { case Some(x) => Some(RewriteEid(x, eids)) case None => None }
  {
  }

  /** Tempids that name one local entity were given one server entity. */
  ghost predicate OneServerEach(acked: Entries, local: Entries) {
    forall x, y ::
      (Get(acked, x).Some? && Get(acked, y).Some? && Get(local, x).Some? && Get(local, x) == Get(local, y)) ==>
        Get(acked, x) == Get(acked, y)
  }

  ghost predicate DistinctKeys(es: Entries) {
    forall i, j :: 0 <= i < j < |es| ==> es[i].0 != es[j].0
  }

  lemma {:induction false} GetIs(es: Entries, key: string)
    requires DistinctKeys(es)
    ensures Get(es, key).Some? <==> exists i :: 0 <= i < |es| && es[i].0 == key
    ensures forall i :: 0 <= i < |es| && es[i].0 == key ==> Get(es, key) == Some(es[i].1)
  {
    if es != [] {
      GetIs(es[..|es| - 1], key);
      if exists i :: 0 <= i < |es| && es[i].0 == key {
        var i :| 0 <= i < |es| && es[i].0 == key;
        assert i < |es| - 1 ==> es[..|es| - 1][i].0 == key;
      }
    }
  }

  /** What a rename does to a local entity: the last acked tempid that names it decides. */
  lemma {:induction false} EidMapIs(acked: Entries, local: Entries, x: nat)
    ensures x in EidMap(acked, local) <==>
      exists k :: 0 <= k < |acked| && Get(local, acked[k].0) == Some(x)
    ensures x in EidMap(acked, local) ==>
      exists k :: 0 <= k < |acked| && Get(local, acked[k].0) == Some(x) && EidMap(acked, local)[x] == acked[k].1
  {
    if acked != [] {
      var init := acked[..|acked| - 1];
      EidMapIs(init, local, x);
      if x in EidMap(init, local) {
        var k :| 0 <= k < |init| && Get(local, init[k].0) == Some(x) && EidMap(init, local)[x] == init[k].1;
        assert acked[k] == init[k];
      }
      if exists k :: 0 <= k < |acked| && Get(local, acked[k].0) == Some(x) {
        var k :| 0 <= k < |acked| && Get(local, acked[k].0) == Some(x);
        assert k < |init| ==> init[k] == acked[k];
      }
      assert Get(local, acked[|acked| - 1].0) == Some(x) ==> EidMap(acked, local)[x] == acked[|acked| - 1].1;
    }
  }

  ghost predicate AckResolves(layer: Layer, acked: Entries, tmp: string, serverEid: nat) {
    DistinctKeys(acked) && OneServerEach(acked, layer.tempids) && Get(acked, tmp) == Some(serverEid)
  }

  /** The maker's ack renames its local entity to the server's, in one simultaneous step. */
  lemma AckRenames(a: Layer, tmp: string, acked: Entries, serverEid: nat)
    requires Get(a.tempids, tmp).Some? && AckResolves(a, acked, tmp, serverEid)
    ensures RewriteEid(Get(a.tempids, tmp).value, EidMap(acked, a.tempids)) == serverEid
  {
    var x, eids := Get(a.tempids, tmp).value, EidMap(acked, a.tempids);
    EidMapIs(acked, a.tempids, x);
    GetIs(acked, tmp);
    var k0 :| 0 <= k0 < |acked| && acked[k0].0 == tmp;
    var k :| 0 <= k < |acked| && Get(a.tempids, acked[k].0) == Some(x) && eids[x] == acked[k].1;
    GetIs(acked, acked[k].0);
  }

  lemma PointerResolves(
      b: Layer, i: nat, slot: Slot, a: Layer, tmp: string, acked: Entries, schema: Schema, serverEid: nat)
    requires PointsAt(b, i, slot, a, tmp) && AckResolves(a, acked, tmp, serverEid)
    ensures SlotEid(RemapLayer(b, acked, EidMap(acked, a.tempids), schema).datoms[i], slot) == Some(serverEid)
  {
    AckRenames(a, tmp, acked, serverEid);
    SlotRenamed(b.datoms[i], EidMap(acked, a.tempids), slot);
  }

  /** An operation queued on the entity, by its name or by its local id, is posted on the server's. */
  lemma InvocationResolves(b: Layer, a: Layer, tmp: string, acked: Entries, schema: Schema, serverEid: nat)
    requires AckResolves(a, acked, tmp, serverEid) && Get(a.tempids, tmp).Some?
    requires b.entity == Some(Name(tmp)) || b.entity == Some(Eid(Get(a.tempids, tmp).value))
    ensures RemapLayer(b, acked, EidMap(acked, a.tempids), schema).entity == Some(Eid(serverEid))
  {
    AckRenames(a, tmp, acked, serverEid);
  }

  // ---- the queue around one layer ------------------------------------------------------------------------

  lemma WithoutElsewhere(pending: seq<Layer>, id: string, other: string)
    requires DistinctIds(pending) && other != id
    ensures var rest := Without(pending, id);
      && (IndexOf(rest, other) < |rest| <==> IndexOf(pending, other) < |pending|)
      && (IndexOf(pending, other) < |pending| ==> rest[IndexOf(rest, other)] == pending[IndexOf(pending, other)])
  {
    WithoutIs(pending, id, other);
  }

  lemma {:induction false} RemapIndex(pending: seq<Layer>, acked: Entries, local: Entries, schema: Schema, id: string)
    ensures IndexOf(Remap(pending, acked, local, schema), id) == IndexOf(pending, id)
  {
    if pending != [] {
      RemapIndex(pending[1..], acked, local, schema, id);
      assert Remap(pending, acked, local, schema)[1..] == Remap(pending[1..], acked, local, schema);
    }
  }

  /** Dropping one layer leaves every other in the queue, renamed. */
  lemma OthersRemapped(pending: seq<Layer>, id: string, echo: Option<seq<Datom>>, acked: Entries, schema: Schema,
      other: string)
    requires DistinctIds(pending) && other != id && IndexOf(pending, id) < |pending|
    ensures var a := pending[IndexOf(pending, id)];
      var names := if echo.Some? then EchoAck(a, echo.value) else acked;
      var after := DropAnd(pending, id, echo, acked, schema);
      && (IndexOf(after, other) < |after| <==> IndexOf(pending, other) < |pending|)
      && (IndexOf(pending, other) < |pending| ==>
            after[IndexOf(after, other)] ==
              RemapLayer(pending[IndexOf(pending, other)], names, EidMap(names, a.tempids), schema))
  {
    var a := pending[IndexOf(pending, id)];
    WithoutElsewhere(pending, id, other);
    RemapIndex(Without(pending, id), if echo.Some? then EchoAck(a, echo.value) else acked, a.tempids, schema, other);
  }

  lemma {:induction false} IndexInLonger(pending: seq<Layer>, layer: Layer, id: string)
    ensures IndexOf(pending, id) < |pending| ==> IndexOf(pending + [layer], id) == IndexOf(pending, id)
    ensures IndexOf(pending, id) == |pending| && layer.id != id ==> IndexOf(pending + [layer], id) == |pending| + 1
  {
    if pending != [] {
      IndexInLonger(pending[1..], layer, id);
      assert (pending + [layer])[1..] == pending[1..] + [layer];
    }
  }

  // ---- an echo in place of the ack ---------------------------------------------------------------------------

  /** The last fact of the echo with this attribute, value and direction. */
  ghost predicate LastEchoed(incoming: seq<Datom>, key: FactKey, j: nat) {
    && j < |incoming| && KeyOf(incoming[j]) == key && incoming[j].e < TX_EID_CAP
    && forall k :: j < k < |incoming| && KeyOf(incoming[k]) == key ==> incoming[k].e >= TX_EID_CAP
  }

  /** The echo holds the layer's fact `k`, last on entity `e`, and that is another one. */
  ghost predicate Tells(datoms: seq<Datom>, incoming: seq<Datom>, k: nat, e: nat) {
    && k < |datoms| && datoms[k].e < TX_EID_CAP && datoms[k].e != e
    && exists j: nat :: LastEchoed(incoming, KeyOf(datoms[k]), j) && incoming[j].e == e
  }

  ghost predicate Told(datoms: seq<Datom>, incoming: seq<Datom>, k: nat) {
    exists e: nat :: Tells(datoms, incoming, k, e)
  }

  /** The last of the facts of `x` that the echo tells about, it tells about at `e`. */
  ghost predicate EchoSays(datoms: seq<Datom>, incoming: seq<Datom>, x: nat, e: nat) {
    exists k: nat :: SaysAt(datoms, incoming, x, e, k)
  }

  ghost predicate SaysAt(datoms: seq<Datom>, incoming: seq<Datom>, x: nat, e: nat, k: nat) {
    && Tells(datoms, incoming, k, e) && datoms[k].e == x
    && forall m: nat :: k < m < |datoms| && datoms[m].e == x ==> !Told(datoms, incoming, m)
  }

  lemma {:induction false} ServerEIs(incoming: seq<Datom>, key: FactKey, j: nat)
    requires LastEchoed(incoming, key, j)
    ensures key in ServerE(incoming) && ServerE(incoming)[key] == incoming[j].e
  {
    var n := |incoming| - 1;
    if j < n {
      assert LastEchoed(incoming[..n], key, j);
      ServerEIs(incoming[..n], key, j);
    }
  }

  lemma {:induction false} ServerEFrom(incoming: seq<Datom>, key: FactKey) returns (j: nat)
    requires key in ServerE(incoming)
    ensures LastEchoed(incoming, key, j)
  {
    var n := |incoming| - 1;
    if KeyOf(incoming[n]) == key && incoming[n].e < TX_EID_CAP {
      j := n;
    } else {
      j := ServerEFrom(incoming[..n], key);
    }
  }

  lemma TellsIs(datoms: seq<Datom>, incoming: seq<Datom>, k: nat, e: nat)
    requires k < |datoms|
    ensures var serverE, key := ServerE(incoming), KeyOf(datoms[k]);
      Tells(datoms, incoming, k, e) <==>
        datoms[k].e < TX_EID_CAP && key in serverE && serverE[key] != datoms[k].e && e == serverE[key]
  {
    var key := KeyOf(datoms[k]);
    if key in ServerE(incoming) {
      var j := ServerEFrom(incoming, key);
      ServerEIs(incoming, key, j);
    }
    if Tells(datoms, incoming, k, e) {
      var j: nat :| LastEchoed(incoming, key, j) && incoming[j].e == e;
      ServerEIs(incoming, key, j);
    }
  }

  /** Whether and where the echo tells about a layer's fact does not depend on the facts behind it. */
  lemma TellsInPrefix(datoms: seq<Datom>, incoming: seq<Datom>, k: nat)
    requires datoms != [] && k < |datoms| - 1
    ensures forall e: nat :: Tells(datoms, incoming, k, e) <==> Tells(datoms[..|datoms| - 1], incoming, k, e)
    ensures Told(datoms, incoming, k) <==> Told(datoms[..|datoms| - 1], incoming, k)
  {
    var init := datoms[..|datoms| - 1];
    if Told(init, incoming, k) {
      var e: nat :| Tells(init, incoming, k, e);
      assert Tells(datoms, incoming, k, e);
    }
    if Told(datoms, incoming, k) {
      var e: nat :| Tells(datoms, incoming, k, e);
      assert Tells(init, incoming, k, e);
    }
  }

  /** The renames an echo stands for, said without the two maps. */
  lemma {:induction false} EchoEidsIs(datoms: seq<Datom>, incoming: seq<Datom>, x: nat, e: nat)
    ensures var eids := EchoEids(datoms, ServerE(incoming));
      EchoSays(datoms, incoming, x, e) <==> x in eids && eids[x] == e
  {
    if datoms != [] {
      var n := |datoms| - 1;
      var eids := EchoEids(datoms, ServerE(incoming));
      EchoEidsIs(datoms[..n], incoming, x, e);
      forall k: nat | k < n ensures Told(datoms, incoming, k) <==> Told(datoms[..n], incoming, k) {
        TellsInPrefix(datoms, incoming, k);
      }
      if datoms[n].e == x && Told(datoms, incoming, n) {
        var e': nat :| Tells(datoms, incoming, n, e');
        TellsIs(datoms, incoming, n, e');
        TellsIs(datoms, incoming, n, e);
        assert eids[x] == e';
        if e == e' {
          assert SaysAt(datoms, incoming, x, e, n);
        }
        assert forall k: nat :: SaysAt(datoms, incoming, x, e, k) ==> k == n;
      } else {
        UntoldLast(datoms, incoming, x, e);
      }
    }
  }

  /** A last fact that is another entity's, or that the echo does not tell about, changes nothing. */
  lemma UntoldLast(datoms: seq<Datom>, incoming: seq<Datom>, x: nat, e: nat)
    requires datoms != []
    requires datoms[|datoms| - 1].e != x || !Told(datoms, incoming, |datoms| - 1)
    ensures var init := datoms[..|datoms| - 1];
      && (EchoSays(datoms, incoming, x, e) <==> EchoSays(init, incoming, x, e))
      && (x in EchoEids(datoms, ServerE(incoming)) <==> x in EchoEids(init, ServerE(incoming)))
      && (x in EchoEids(init, ServerE(incoming)) ==>
            EchoEids(datoms, ServerE(incoming))[x] == EchoEids(init, ServerE(incoming))[x])
  {
    var n := |datoms| - 1;
    var init, serverE := datoms[..n], ServerE(incoming);
    forall k: nat | k < n
      ensures (Told(datoms, incoming, k) <==> Told(init, incoming, k)) &&
              (Tells(datoms, incoming, k, e) <==> Tells(init, incoming, k, e))
    {
      TellsInPrefix(datoms, incoming, k);
    }
    if EchoSays(datoms, incoming, x, e) {
      var k: nat :| SaysAt(datoms, incoming, x, e, k);
      assert Told(datoms, incoming, k);
      assert SaysAt(init, incoming, x, e, k);
    }
    if EchoSays(init, incoming, x, e) {
      var k: nat :| SaysAt(init, incoming, x, e, k);
      assert SaysAt(datoms, incoming, x, e, k);
    }
    if datoms[n].e == x && x < TX_EID_CAP && KeyOf(datoms[n]) in serverE && serverE[KeyOf(datoms[n])] != x {
      TellsIs(datoms, incoming, n, serverE[KeyOf(datoms[n])]);
    }
  }

  /** What the echo announces for a tempid: the entity it tells about, or the local id again. */
  lemma EchoAnnounces(maker: Layer, tmp: string, incoming: seq<Datom>, e: nat)
    requires Get(maker.tempids, tmp).Some?
    ensures var x := Get(maker.tempids, tmp).value;
      Get(EchoAck(maker, incoming), tmp) == Some(e) <==>
        EchoSays(maker.datoms, incoming, x, e) || (e == x && forall y: nat :: !EchoSays(maker.datoms, incoming, x, y))
  {
    var x, eids := Get(maker.tempids, tmp).value, EchoEids(maker.datoms, ServerE(incoming));
    RenamedGet(maker.tempids, eids, tmp);
    EchoEidsIs(maker.datoms, incoming, x, e);
    forall y: nat ensures EchoSays(maker.datoms, incoming, x, y) <==> x in eids && eids[x] == y {
      EchoEidsIs(maker.datoms, incoming, x, y);
    }
    if x in eids {
      assert EchoSays(maker.datoms, incoming, x, eids[x]);
    }
  }

  /** An echo that tells about the entity is an ack that names it. */
  lemma EchoIsAck(maker: Layer, tmp: string, incoming: seq<Datom>)
    requires Get(maker.tempids, tmp).Some? && DistinctKeys(maker.tempids)
    ensures Get(EchoAck(maker, incoming), tmp).Some?
    ensures AckResolves(maker, EchoAck(maker, incoming), tmp, Get(EchoAck(maker, incoming), tmp).value)
  {
    var eids := EchoEids(maker.datoms, ServerE(incoming));
    forall y ensures Get(EchoAck(maker, incoming), y) ==
      match Get(maker.tempids, y) { case Some(e) => Some(RewriteEid(e, eids)) case None => None }
    {
      RenamedGet(maker.tempids, eids, y);
    }
  }

  /**
   * The writer's own frame may come before the ack and take the layer with it.
   * What pointed at its entity then points at the server's exactly when the
   * last of that entity's facts which the frame holds on another entity, it
   * holds last on the server's. The sieve may have left none of them, and
   * another entity of the write may share them.
   */
  lemma EchoFirst(
      schema: Schema, pending: seq<Layer>, maker: Layer, layer: Layer, i: nat, slot: Slot, tmp: string,
      incoming: seq<Datom>, serverEid: nat)
    requires DistinctIds(pending) && maker.id != layer.id && maker.id != ""
    requires IndexOf(pending, maker.id) < |pending| && pending[IndexOf(pending, maker.id)] == maker
    requires IndexOf(pending, layer.id) < |pending| && pending[IndexOf(pending, layer.id)] == layer
    requires PointsAt(layer, i, slot, maker, tmp) && DistinctKeys(maker.tempids)
    requires serverEid != Get(maker.tempids, tmp).value
    ensures var after := Covered(schema, pending, incoming, Some(maker.id));
      var j := IndexOf(after, layer.id);
      && j < |after| && i < |after[j].datoms|
      && (SlotEid(after[j].datoms[i], slot) == Some(serverEid) <==>
            EchoSays(maker.datoms, incoming, Get(maker.tempids, tmp).value, serverEid))
  {
    var names := EchoAck(maker, incoming);
    OthersRemapped(pending, maker.id, Some(incoming), [], schema, layer.id);
    EchoMoves(maker, layer, i, slot, tmp, incoming, schema, serverEid);
  }

  lemma EchoMoves(
      maker: Layer, layer: Layer, i: nat, slot: Slot, tmp: string, incoming: seq<Datom>, schema: Schema, serverEid: nat)
    requires PointsAt(layer, i, slot, maker, tmp) && DistinctKeys(maker.tempids)
    requires serverEid != Get(maker.tempids, tmp).value
    ensures var names := EchoAck(maker, incoming);
      var moved := RemapLayer(layer, names, EidMap(names, maker.tempids), schema);
      i < |moved.datoms| &&
      (SlotEid(moved.datoms[i], slot) == Some(serverEid) <==>
         EchoSays(maker.datoms, incoming, Get(maker.tempids, tmp).value, serverEid))
  {
    RenamedGet(maker.tempids, EchoEids(maker.datoms, ServerE(incoming)), tmp);
    var landed := Get(EchoAck(maker, incoming), tmp).value;
    EchoIsAck(maker, tmp, incoming);
    PointerResolves(layer, i, slot, maker, tmp, EchoAck(maker, incoming), schema, landed);
    EchoAnnounces(maker, tmp, incoming, serverEid);
  }

  /** And the ack that follows finds no layer, so it renames nothing. */
  lemma LateAckRenamesNothing(schema: Schema, pending: seq<Layer>, id: string, incoming: seq<Datom>, acked: Entries)
    requires DistinctIds(pending) && id != ""
    ensures var after := Covered(schema, pending, incoming, Some(id));
      DropAnd(after, id, None, acked, schema) == after
  {
    var after := Covered(schema, pending, incoming, Some(id));
    DropAndIs(pending, id, Some(incoming), [], schema, id);
  }

  lemma TwoQueued(x: Layer, y: Layer)
    requires x.id != y.id
    ensures DistinctIds([x, y]) && IndexOf([x, y], x.id) == 0 && IndexOf([x, y], y.id) == 1
    ensures Without([x, y], x.id) == [y]
  {
    assert [x, y][1..] == [y] && IndexOf([y], y.id) == 0;
  }

  /**
   * Two new entities that share a fact: the echo holds it twice, only the last
   * holder counts, and a pointer at the first lands on the second.
   */
  lemma EqualFactsCollide(schema: Schema)
    ensures var named := (e: nat, t: nat) => Datom(e, 2001, Value.Str("x"), t, true);
      var maker := Layer("m", [], [named(1000, 5), named(1001, 5)], [("a", 1000), ("b", 1001)], None);
      var layer := Layer("l", [], [Datom(1002, 2000, Ref(1000), 6, true)], [], None);
      var echo := [named(5000, 7), named(5001, 7)];
      var after := Covered(schema, [maker, layer], echo, Some("m"));
      |after| == 1 && |after[0].datoms| == 1 && after[0].datoms[0].v == Ref(5001)
  {
    var named := (e: nat, t: nat) => Datom(e, 2001, Value.Str("x"), t, true);
    var maker := Layer("m", [], [named(1000, 5), named(1001, 5)], [("a", 1000), ("b", 1001)], None);
    var layer := Layer("l", [], [Datom(1002, 2000, Ref(1000), 6, true)], [], None);
    var echo := [named(5000, 7), named(5001, 7)];
    TwoQueued(maker, layer);
    assert Get(maker.tempids[..1], "a") == Some(1000) && Get(maker.tempids, "a") == Some(1000);
    assert LastEchoed(echo, KeyOf(maker.datoms[0]), 1);
    assert Tells(maker.datoms, echo, 0, 5001);
    assert SaysAt(maker.datoms, echo, 1000, 5001, 0);
    EchoFirst(schema, [maker, layer], maker, layer, 0, Object, "a", echo, 5001);
  }
}

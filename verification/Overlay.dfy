/** Optimistic layers over the confirmed follower, and what moves them. */
module Overlay {
  import opened Datoms
  import opened Follower
  import opened Rewrite

  /** A JSON object of ids, in the order of its keys. */
  type Entries = seq<(string, nat)>

  datatype EntityRef = Eid(eid: nat) | Name(s: string) | Lookup(a: string, v: Value)

  /** `entity` is the entity an operation was invoked on, for layers that came from one. */
  datatype Layer = Layer(id: string, tx: seq<Form>, datoms: seq<Datom>, tempids: Entries, entity: Option<EntityRef>)

  datatype State = State(pending: seq<Layer>, view: View, epoch: nat)

  const TX_EID_CAP := TX_BASE

  // ---- renaming ---------------------------------------------------------------------------

  function Get(es: Entries, key: string): Option<nat> {
    if es == [] then None
    else if es[|es| - 1].0 == key then Some(es[|es| - 1].1)
    else Get(es[..|es| - 1], key)
  }

  /** Local entity to server entity, through the tempids both sides named. */
  function EidMap(acked: Entries, local: Entries): map<nat, nat> {
    if acked == [] then map[]
    else
      var (tmp, serverEid) := acked[|acked| - 1];
      var rest := EidMap(acked[..|acked| - 1], local);
      match Get(local, tmp)
      case Some(was) => rest[was := serverEid]
      case None => rest
  }

  function RewriteEid(e: nat, eids: map<nat, nat>): nat {
    if e in eids then eids[e] else e
  }

  /** Any number, whether or not it names an entity. */
  function RewriteValue(v: Value, eids: map<nat, nat>): Value {
    match v
    case Ref(e) => Ref(RewriteEid(e, eids))
    case Num(n) => if n >= 0 && n in eids then Value.Num(eids[n]) else v
    case Str(_) => v
  }

  function RewriteDatom(d: Datom, eids: map<nat, nat>): Datom {
    d.(e := RewriteEid(d.e, eids), v := RewriteValue(d.v, eids))
  }

  function RewriteDatoms(datoms: seq<Datom>, eids: map<nat, nat>): (r: seq<Datom>)
    ensures |r| == |datoms|
    ensures forall i :: 0 <= i < |r| ==> r[i] == RewriteDatom(datoms[i], eids)
  {
    seq(|datoms|, i requires 0 <= i < |datoms| => RewriteDatom(datoms[i], eids))
  }

  function RewriteEntries(es: Entries, eids: map<nat, nat>): (r: Entries)
    ensures |r| == |es|
    ensures forall i :: 0 <= i < |r| ==> r[i] == (es[i].0, RewriteEid(es[i].1, eids))
  {
    seq(|es|, i requires 0 <= i < |es| => (es[i].0, RewriteEid(es[i].1, eids)))
  }

  function RemapEntityRef(entity: EntityRef, eids: map<nat, nat>, acked: Entries): EntityRef {
    match entity
    case Eid(e) => Eid(RewriteEid(e, eids))
    case Name(s) => if Get(acked, s).Some? then Eid(Get(acked, s).value) else entity
    case Lookup(_, _) => entity
  }

  /** The acked names a layer did not mint itself. */
  function Foreign(acked: Entries, minted: Entries): map<string, nat> {
    if acked == [] then map[]
    else
      var (tmp, serverEid) := acked[|acked| - 1];
      var rest := Foreign(acked[..|acked| - 1], minted);
      if Get(minted, tmp).None? then rest[tmp := serverEid] else rest
  }

  function RemapLayer(layer: Layer, acked: Entries, eids: map<nat, nat>, schema: Schema): Layer {
    var foreign := Foreign(acked, layer.tempids);
    layer.(
      tx := if foreign == map[] then layer.tx else RewriteTx(layer.tx, foreign, schema),
      entity := if layer.entity.Some? then Some(RemapEntityRef(layer.entity.value, eids, acked)) else None,
      datoms := RewriteDatoms(layer.datoms, eids),
      tempids := RewriteEntries(layer.tempids, eids))
  }

  function Remap(pending: seq<Layer>, acked: Entries, local: Entries, schema: Schema): (r: seq<Layer>)
    ensures |r| == |pending|
    ensures forall i :: 0 <= i < |r| ==> r[i] == RemapLayer(pending[i], acked, EidMap(acked, local), schema)
  {
    seq(|pending|, i requires 0 <= i < |pending| => RemapLayer(pending[i], acked, EidMap(acked, local), schema))
  }

  /** What the writer's own echo says about its layer: same attribute, value and direction, other entity. */
  datatype FactKey = FactKey(a: nat, v: Value, op: bool)

  function KeyOf(d: Datom): FactKey {
    FactKey(d.a, d.v, d.op)
  }

  function ServerE(incoming: seq<Datom>): map<FactKey, nat> {
    if incoming == [] then map[]
    else
      var d := incoming[|incoming| - 1];
      var rest := ServerE(incoming[..|incoming| - 1]);
      if d.e < TX_EID_CAP then rest[KeyOf(d) := d.e] else rest
  }

  function EchoEids(datoms: seq<Datom>, serverE: map<FactKey, nat>): map<nat, nat> {
    if datoms == [] then map[]
    else
      var d := datoms[|datoms| - 1];
      var rest := EchoEids(datoms[..|datoms| - 1], serverE);
      if d.e < TX_EID_CAP && KeyOf(d) in serverE && serverE[KeyOf(d)] != d.e then rest[d.e := serverE[KeyOf(d)]]
      else rest
  }

  /** The tempids an echo stands in for an ack with. */
  function EchoAck(layer: Layer, incoming: seq<Datom>): Entries {
    RewriteEntries(layer.tempids, EchoEids(layer.datoms, ServerE(incoming)))
  }

  // ---- the steps ----------------------------------------------------------------------------

  function IndexOf(pending: seq<Layer>, id: string): (i: nat)
    ensures i <= |pending|
    ensures i < |pending| ==> pending[i].id == id
    ensures forall k :: 0 <= k < i ==> pending[k].id != id
  {
    if pending == [] then 0 else if pending[0].id == id then 0 else 1 + IndexOf(pending[1..], id)
  }

  function Without(pending: seq<Layer>, id: string): seq<Layer> {
    var i := IndexOf(pending, id);
    if i < |pending| then pending[..i] + pending[i + 1..] else pending
  }

  datatype Label =
    | Submit(layer: Layer)
    | Ack(id: string, raw: Option<seq<Datom>>, acked: Entries)
    | Reject(id: string)
    | Frame(datoms: seq<Datom>, covers: Option<string>)
    | ResyncBegins
    | ResyncLands(datoms: seq<Datom>, t: nat)
    | Stamped(t: nat)

  function Painted(v: View, raw: Option<seq<Datom>>): View {
    if raw.Some? then Paint(v, raw.value) else v
  }

  /** Drop a layer, and tell the layers behind it what its names became. */
  function DropAnd(pending: seq<Layer>, id: string, echo: Option<seq<Datom>>, acked: Entries,
      schema: Schema): seq<Layer> {
    var i := IndexOf(pending, id);
    if i == |pending| then pending
    else
      var names := if echo.Some? then EchoAck(pending[i], echo.value) else acked;
      Remap(Without(pending, id), names, pending[i].tempids, schema)
  }

  function Covered(schema: Schema, pending: seq<Layer>, datoms: seq<Datom>, covers: Option<string>): seq<Layer> {
    if covers.Some? && covers.value != "" then DropAnd(pending, covers.value, Some(datoms), [], schema) else pending
  }

  function Step(schema: Schema, s: State, l: Label): State {
    match l
    case Submit(layer) => s.(pending := s.pending + [layer], epoch := s.epoch + 1)
    case Ack(id, raw, acked) =>
      State(DropAnd(s.pending, id, None, acked, schema), Painted(s.view, raw), s.epoch + 1)
    case Reject(id) => s.(pending := Without(s.pending, id), epoch := s.epoch + 1)
    case Frame(datoms, covers) =>
      State(Covered(schema, s.pending, datoms, covers), Paint(s.view, datoms), s.epoch + 1)
    case ResyncBegins => s.(pending := [])
    case ResyncLands(datoms, t) => s.(view := Replace(datoms, t), epoch := s.epoch + 1)
    case Stamped(t) => s.(view := Stamp(s.view, t))
  }

  // ---- the client as it is written --------------------------------------------------------------

  class OverlayClient {
    var pending: seq<Layer>
    const conn: ConfirmedFollower
    const schema: Schema
    var epoch: nat

    ghost function Abs(): State
      reads this, conn
    {
      State(pending, conn.Abs(), epoch)
    }

    constructor (schema: Schema)
      ensures Abs() == State([], View({}, {}, 0), 0) && fresh(conn) && this.schema == schema
    {
      pending, epoch := [], 0;
      this.schema := schema;
      conn := new ConfirmedFollower();
    }

    method Notify()
      modifies this`epoch
      ensures epoch == old(epoch) + 1
    {
      epoch := epoch + 1;
    }

    method DropLayer(id: string) returns (dropped: Option<Layer>)
      modifies this`pending
      ensures pending == Without(old(pending), id)
      ensures var i := IndexOf(old(pending), id);
        dropped == if i < |old(pending)| then Some(old(pending)[i]) else None
    {
      var i: nat := 0;
      while i < |pending| && pending[i].id != id
        invariant i <= |pending| && pending == old(pending)
        invariant forall k :: 0 <= k < i ==> pending[k].id != id
      {
        i := i + 1;
      }
      if i == |pending| {
        return None;
      }
      dropped := Some(pending[i]);
      pending := pending[..i] + pending[i + 1..];
    }

    method EidsOf(acked: Entries, local: Entries) returns (eids: map<nat, nat>)
      ensures eids == EidMap(acked, local)
    {
      eids := map[];
      for i := 0 to |acked|
        invariant eids == EidMap(acked[..i], local)
      {
        assert acked[..i + 1][..i] == acked[..i];
        var was := Get(local, acked[i].0);
        if was.Some? {
          eids := eids[was.value := acked[i].1];
        }
      }
      assert acked[..|acked|] == acked;
    }

    method ForeignTo(acked: Entries, minted: Entries) returns (foreign: map<string, nat>)
      ensures foreign == Foreign(acked, minted)
    {
      foreign := map[];
      for i := 0 to |acked|
        invariant foreign == Foreign(acked[..i], minted)
      {
        assert acked[..i + 1][..i] == acked[..i];
        if Get(minted, acked[i].0).None? {
          foreign := foreign[acked[i].0 := acked[i].1];
        }
      }
      assert acked[..|acked|] == acked;
    }

    method RemapQueued(acked: Entries, local: Entries)
      modifies this`pending
      ensures pending == Remap(old(pending), acked, local, schema)
    {
      var eids := EidsOf(acked, local);
      for i := 0 to |pending|
        invariant |pending| == |old(pending)|
        invariant forall k :: 0 <= k < i ==> pending[k] == RemapLayer(old(pending)[k], acked, eids, schema)
        invariant forall k :: i <= k < |pending| ==> pending[k] == old(pending)[k]
      {
        var layer := pending[i];
        var foreign := ForeignTo(acked, layer.tempids);
        if foreign != map[] {
          layer := layer.(tx := RewriteTx(layer.tx, foreign, schema));
        }
        if layer.entity.Some? {
          layer := layer.(entity := Some(RemapEntityRef(layer.entity.value, eids, acked)));
        }
        layer := layer.(datoms := RewriteDatoms(layer.datoms, eids));
        layer := layer.(tempids := RewriteEntries(layer.tempids, eids));
        pending := pending[i := layer];
      }
    }

    method RemapDropped(layer: Layer, incoming: seq<Datom>)
      modifies this`pending
      ensures pending == Remap(old(pending), EchoAck(layer, incoming), layer.tempids, schema)
    {
      var serverE: map<FactKey, nat> := map[];
      for i := 0 to |incoming|
        invariant serverE == ServerE(incoming[..i])
        invariant pending == old(pending)
      {
        assert incoming[..i + 1][..i] == incoming[..i];
        if incoming[i].e < TX_EID_CAP {
          serverE := serverE[KeyOf(incoming[i]) := incoming[i].e];
        }
      }
      assert incoming[..|incoming|] == incoming;
      var eids: map<nat, nat> := map[];
      for i := 0 to |layer.datoms|
        invariant eids == EchoEids(layer.datoms[..i], serverE)
        invariant pending == old(pending)
      {
        var d := layer.datoms[i];
        assert layer.datoms[..i + 1][..i] == layer.datoms[..i];
        if d.e < TX_EID_CAP && KeyOf(d) in serverE && serverE[KeyOf(d)] != d.e {
          eids := eids[d.e := serverE[KeyOf(d)]];
        }
      }
      assert layer.datoms[..|layer.datoms|] == layer.datoms;
      RemapQueued(RewriteEntries(layer.tempids, eids), layer.tempids);
    }

    method PushLayer(layer: Layer)
      modifies this
      ensures Abs() == Step(schema, old(Abs()), Submit(layer))
      ensures layer in pending && epoch > old(epoch)
    {
      pending := pending + [layer];
      Notify();
    }

    method HandleAck(id: string, raw: Option<seq<Datom>>, acked: Entries)
      modifies this, conn
      ensures Abs() == Step(schema, old(Abs()), Ack(id, raw, acked))
    {
      var layer := DropLayer(id);
      if raw.Some? {
        conn.PaintFacts(raw.value);
      }
      if layer.Some? {
        RemapQueued(acked, layer.value.tempids);
      }
      Notify();
    }

    method HandleReject(id: string)
      modifies this
      ensures Abs() == Step(schema, old(Abs()), Reject(id))
      ensures forall layer :: layer in pending ==> layer in old(pending)
      ensures forall layer :: layer in old(pending) && layer.id != id ==> layer in pending
      ensures epoch > old(epoch)
    {
      var _ := DropLayer(id);
      Notify();
    }

    method DropCoveredPending(incoming: seq<Datom>, coveredId: Option<string>)
      modifies this`pending
      ensures pending == Covered(schema, old(pending), incoming, coveredId)
    {
      if coveredId.None? || coveredId.value == "" {
        return;
      }
      var layer := DropLayer(coveredId.value);
      if layer.Some? {
        RemapDropped(layer.value, incoming);
      }
    }

    method ApplyTx(datoms: seq<Datom>, covers: Option<string>)
      modifies this, conn
      ensures Abs() == Step(schema, old(Abs()), Frame(datoms, covers))
    {
      conn.PaintFacts(datoms);
      DropCoveredPending(datoms, covers);
      Notify();
    }

    /** A `resync` frame clears the layers at once; the dump replaces the follower when it is built. */
    method BeginResync()
      modifies this
      ensures Abs() == Step(schema, old(Abs()), ResyncBegins)
    {
      pending := [];
    }

    method LandResync(datoms: seq<Datom>, t: nat)
      modifies this, conn
      ensures Abs() == Step(schema, old(Abs()), ResyncLands(datoms, t))
    {
      conn.ReplaceConfirmed(datoms, t);
      Notify();
    }

    /** The first local entity id past the follower's and every layer's. */
    method NextEid(nextEntityId: nat) returns (n: nat)
      ensures n >= nextEntityId
      ensures forall i, d :: 0 <= i < |pending| && d in pending[i].datoms && d.e < TX_EID_CAP ==> d.e < n
    {
      n := nextEntityId;
      for i := 0 to |pending|
        invariant n >= nextEntityId
        invariant forall k, d :: 0 <= k < i && d in pending[k].datoms && d.e < TX_EID_CAP ==> d.e < n
      {
        var datoms := pending[i].datoms;
        for j := 0 to |datoms|
          invariant n >= nextEntityId
          invariant forall k, d :: 0 <= k < i && d in pending[k].datoms && d.e < TX_EID_CAP ==> d.e < n
          invariant forall k :: 0 <= k < j && datoms[k].e < TX_EID_CAP ==> datoms[k].e < n
        {
          if datoms[j].e < TX_EID_CAP && datoms[j].e >= n {
            n := datoms[j].e + 1;
          }
        }
      }
    }
  }
}

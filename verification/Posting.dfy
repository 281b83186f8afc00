/** What becomes of a queued transaction and operation by the time it is posted. */
module Posting {
  import opened Datoms
  import opened Follower
  import opened Rewrite
  import opened Overlay
  import opened PendingWrites
  import opened Pointers
  import opened Following

  // ---- the transaction that is posted ---------------------------------------------------------------------------

  /** What a position of a queued transaction holds once `given` was the id given to the name there. */
  function Posted(form: Datoms.Option<Form>, minted: Entries, given: Option<nat>): Datoms.Option<Form> {
    match form
    case Some(Str(n)) => if Get(minted, n).None? && given.Some? then Some(Form.Num(given.value)) else form
    case _ => form
  }

  function NameIn(form: Datoms.Option<Form>): string {
    match form
    case Some(Str(n)) => n
    case _ => ""
  }

  lemma RemapPosts(layer: Layer, names: Entries, eids: map<nat, nat>, schema: Schema, i: nat, w: Way)
    ensures var form := TxAt(layer.tx, i, w, schema);
      TxAt(RemapLayer(layer, names, eids, schema).tx, i, w, schema) ==
        Posted(form, layer.tempids, Get(names, NameIn(form)))
  {
    var form := TxAt(layer.tx, i, w, schema);
    ForeignIs(names, layer.tempids, NameIn(form));
    NamesBecomeTheirIds(layer.tx, Foreign(names, layer.tempids), schema, i, w);
  }

  lemma StepPosts(schema: Schema, s: State, l: Label, id: string, i: nat, w: Way)
    requires Tidy(s) && Enabled(s, l) && Leaves(l, id) && IndexOf(s.pending, id) < |s.pending|
    ensures var before, after := s.pending, Overlay.Step(schema, s, l).pending;
      && IndexOf(after, id) < |after|
      && var b, c := before[IndexOf(before, id)], after[IndexOf(after, id)];
         var form := TxAt(b.tx, i, w, schema);
         && TxAt(c.tx, i, w, schema) == Posted(form, b.tempids, Get(Announced(s, l), NameIn(form)))
         && forall n :: Get(c.tempids, n).None? <==> Get(b.tempids, n).None?
  {
    var b := Queued(s, id);
    StepRenames(schema, s, l, id);
    RemapPosts(b, Announced(s, l), Renames(s, l), schema, i, w);
    forall n ensures Get(RewriteEntries(b.tempids, Renames(s, l)), n).None? <==> Get(b.tempids, n).None? {
      RenamedGet(b.tempids, Renames(s, l), n);
    }
  }

  /**
   * What is posted, position by position, after any run in which the layer
   * stays queued: a name another layer minted is the id of the first ack or
   * echo that named it; a name of its own, a number, and a name nobody has
   * resolved are as they were.
   */
  lemma {:induction false} PostedNamesFollow(schema: Schema, s: State, run: seq<Label>, id: string, i: nat, w: Way)
    requires Tidy(s) && IsRun(schema, s, run) && IndexOf(s.pending, id) < |s.pending|
    requires forall k :: 0 <= k < |run| ==> Leaves(run[k], id)
    ensures var before, after := s.pending, After(schema, s, run).pending;
      && IndexOf(after, id) < |after|
      && var b, c := before[IndexOf(before, id)], after[IndexOf(after, id)];
         var form := TxAt(b.tx, i, w, schema);
         TxAt(c.tx, i, w, schema) == Posted(form, b.tempids, FirstNaming(schema, s, run, NameIn(form)))
    decreases |run|
  {
    if run != [] {
      var s1 := Overlay.Step(schema, s, run[0]);
      StepIsTidy(schema, s, run[0]);
      StepPosts(schema, s, run[0], id, i, w);
      PostedNamesFollow(schema, s1, run[1..], id, i, w);
    }
  }

  /** `ids` has what the run first called the foreign name `n`, if it called it anything. */
  predicate FirstGiven(schema: Schema, s: State, run: seq<Label>, minted: Entries, ids: Ids, n: string)
    requires IsRun(schema, s, run)
  {
    var given := if Get(minted, n).None? then FirstNaming(schema, s, run, n) else None;
    if n in ids then given == Some(ids[n]) else given.None?
  }

  /**
   * The same, form by form: what is posted is what was queued, rewritten once
   * with the first id each foreign name was given — or, if no step announced
   * a foreign name, the very transaction that was queued.
   */
  lemma {:induction false} PostedForms(schema: Schema, s: State, run: seq<Label>, id: string) returns (ids: Ids)
    requires Tidy(s) && IsRun(schema, s, run) && IndexOf(s.pending, id) < |s.pending|
    requires forall k :: 0 <= k < |run| ==> Leaves(run[k], id)
    ensures IndexOf(After(schema, s, run).pending, id) < |After(schema, s, run).pending|
    ensures forall n :: FirstGiven(schema, s, run, Queued(s, id).tempids, ids, n)
    ensures var tx, after := Queued(s, id).tx, Queued(After(schema, s, run), id).tx;
      if ids == map[] then after == tx
      else |after| == |tx| && forall i :: 0 <= i < |tx| ==> ItemTo(tx[i], after[i], ids, schema)
    decreases |run|
  {
    ids := map[];
    if run != [] {
      var s1 := Overlay.Step(schema, s, run[0]);
      StepIsTidy(schema, s, run[0]);
      var first := StepForms(schema, s, run[0], id);
      var rest := PostedForms(schema, s1, run[1..], id);
      ids := rest + first;
      forall n ensures FirstGiven(schema, s, run, Queued(s, id).tempids, ids, n) {
        assert FirstGiven(schema, s1, run[1..], Queued(s1, id).tempids, rest, n);
      }
      OnceMore(Queued(s, id).tx, Queued(s1, id).tx, Queued(After(schema, s1, run[1..]), id).tx, first, rest, schema);
    }
  }

  /** What one step resolves of a queued layer's names. */
  lemma StepForms(schema: Schema, s: State, l: Label, id: string) returns (first: Ids)
    requires Tidy(s) && Enabled(s, l) && Leaves(l, id) && IndexOf(s.pending, id) < |s.pending|
    ensures var b, after := Queued(s, id), Overlay.Step(schema, s, l);
      && IndexOf(after.pending, id) < |after.pending|
      && Queued(after, id).tx == (if first == map[] then b.tx else RewriteTx(b.tx, first, schema))
      && (forall n :: Get(Queued(after, id).tempids, n).None? <==> Get(b.tempids, n).None?)
      && forall n ::
           if Get(b.tempids, n).None? && Get(Announced(s, l), n).Some?
           then n in first && Some(first[n]) == Get(Announced(s, l), n) else n !in first
  {
    var b := Queued(s, id);
    first := Foreign(Announced(s, l), b.tempids);
    StepRenames(schema, s, l, id);
    forall n ensures Get(RewriteEntries(b.tempids, Renames(s, l)), n).None? <==> Get(b.tempids, n).None? {
      RenamedGet(b.tempids, Renames(s, l), n);
    }
    forall n ensures
      if Get(b.tempids, n).None? && Get(Announced(s, l), n).Some?
      then n in first && Some(first[n]) == Get(Announced(s, l), n) else n !in first
    {
      ForeignIs(Announced(s, l), b.tempids, n);
    }
  }

  /** Rewritten with some names and then with others is rewritten once. */
  lemma OnceMore(tx: seq<Form>, mid: seq<Form>, after: seq<Form>, first: Ids, rest: Ids, schema: Schema)
    requires mid == if first == map[] then tx else RewriteTx(tx, first, schema)
    requires if rest == map[] then after == mid
      else |after| == |mid| && forall i :: 0 <= i < |mid| ==> ItemTo(mid[i], after[i], rest, schema)
    ensures if rest + first == map[] then after == tx
      else |after| == |tx| && forall i :: 0 <= i < |tx| ==> ItemTo(tx[i], after[i], rest + first, schema)
  {
    RewriteComposes(tx, first, rest, schema);
    RewrittenIff(mid, after, rest, schema);
    RewrittenIff(tx, after, rest + first, schema);
    assert first == map[] ==> rest + first == rest;
    assert rest == map[] ==> rest + first == first;
    if n :| n in first {
      assert n in rest + first;
    }
    if n :| n in rest {
      assert n in rest + first;
    }
  }

  /** A position that means the entity `tmp`: by its name, or by its local number. */
  ghost predicate Means(tx: seq<Form>, i: nat, w: Way, schema: Schema, tmp: string, x: nat) {
    TxAt(tx, i, w, schema) == Some(Form.Str(tmp)) || TxAt(tx, i, w, schema) == Some(Form.Num(x))
  }

  /**
   * The transaction is posted on the server's entity wherever it means it if
   * and only if it never means it by the local number: numbers are not
   * rewritten.
   */
  lemma PostedOnTheServersEntityIff(
      schema: Schema, s: State, run: seq<Label>, id: string, tmp: string, x: nat, serverEid: nat)
    requires Tidy(s) && IsRun(schema, s, run) && IndexOf(s.pending, id) < |s.pending|
    requires forall k :: 0 <= k < |run| ==> Leaves(run[k], id)
    requires Get(s.pending[IndexOf(s.pending, id)].tempids, tmp).None?
    requires FirstNaming(schema, s, run, tmp) == Some(serverEid) && serverEid != x
    ensures var before, after := s.pending, After(schema, s, run).pending;
      && IndexOf(after, id) < |after|
      && var b, c := before[IndexOf(before, id)], after[IndexOf(after, id)];
         (forall i, w ::
            Means(b.tx, i, w, schema, tmp, x) ==> TxAt(c.tx, i, w, schema) == Some(Form.Num(serverEid))) <==>
         (forall i, w :: TxAt(b.tx, i, w, schema) != Some(Form.Num(x)))
  {
    PostedNamesFollow(schema, s, run, id, 0, Here);
    var before, after := s.pending, After(schema, s, run).pending;
    var b, c := before[IndexOf(before, id)], after[IndexOf(after, id)];
    forall i, w ensures TxAt(c.tx, i, w, schema) ==
      Posted(TxAt(b.tx, i, w, schema), b.tempids, FirstNaming(schema, s, run, NameIn(TxAt(b.tx, i, w, schema))))
    {
      PostedNamesFollow(schema, s, run, id, i, w);
    }
    if i, w :| TxAt(b.tx, i, w, schema) == Some(Form.Num(x)) {
      assert Means(b.tx, i, w, schema, tmp, x);
      assert TxAt(c.tx, i, w, schema) == Some(Form.Num(x));
    }
  }

  // ---- when the layer is gone before its turn to be posted ---------------------------------------------------------

  /** Posts wait for one another; a layer that is gone by its turn is posted as it was submitted. */
  function PostedTx(s: State, id: string, tx: seq<Form>): seq<Form> {
    if IndexOf(s.pending, id) < |s.pending| then Queued(s, id).tx else tx
  }

  function PostedEntity(s: State, id: string, entity: Option<EntityRef>): Option<EntityRef> {
    if IndexOf(s.pending, id) < |s.pending| then Queued(s, id).entity else entity
  }

  predicate Resubmits(l: Label, id: string) {
    l.Submit? && l.layer.id == id
  }

  lemma IndexIff(pending: seq<Layer>, id: string)
    ensures IndexOf(pending, id) < |pending| <==> HasLayer(pending, id)
  {
    if IndexOf(pending, id) < |pending| {
      assert pending[IndexOf(pending, id)].id == id;
    }
  }

  lemma GoneStays(schema: Schema, s: State, l: Label, id: string)
    requires Tidy(s) && !Resubmits(l, id) && id != ""
    requires !Leaves(l, id) || !HasLayer(s.pending, id)
    ensures !HasLayer(Overlay.Step(schema, s, l).pending, id)
  {
    match l
    case Ack(other, _, acked) => DropAndIs(s.pending, other, None, acked, schema, id);
    case Reject(other) => WithoutIs(s.pending, other, id);
    case Frame(datoms, covers) =>
      if covers.Some? {
        DropAndIs(s.pending, covers.value, Some(datoms), [], schema, id);
      }
    case Submit(layer) =>
    case _ =>
  }

  lemma {:induction false} StillQueuedLeft(schema: Schema, s: State, run: seq<Label>, id: string)
    requires Tidy(s) && IsRun(schema, s, run) && id != ""
    requires forall k :: 0 <= k < |run| ==> !Resubmits(run[k], id)
    ensures HasLayer(After(schema, s, run).pending, id) ==>
      HasLayer(s.pending, id) && forall k :: 0 <= k < |run| ==> Leaves(run[k], id)
    decreases |run|
  {
    if run != [] {
      StepIsTidy(schema, s, run[0]);
      StillQueuedLeft(schema, Overlay.Step(schema, s, run[0]), run[1..], id);
      if !Leaves(run[0], id) || !HasLayer(s.pending, id) {
        GoneStays(schema, s, run[0], id);
      }
    }
  }

  /**
   * Whatever happens before its turn, a foreign name that was acked is posted
   * as its id if and only if the layer is still queued. A dump in between
   * clears the queue, and the transaction goes out as it was submitted.
   */
  lemma PostedResolvedIff(
      schema: Schema, s: State, run: seq<Label>, id: string, i: nat, w: Way, name: string, given: nat)
    requires Tidy(s) && IsRun(schema, s, run) && IndexOf(s.pending, id) < |s.pending| && id != ""
    requires forall k :: 0 <= k < |run| ==> !Resubmits(run[k], id)
    requires var b := Queued(s, id); TxAt(b.tx, i, w, schema) == Some(Form.Str(name)) && Get(b.tempids, name).None?
    requires FirstNaming(schema, s, run, name) == Some(given)
    ensures var g := After(schema, s, run);
      TxAt(PostedTx(g, id, Queued(s, id).tx), i, w, schema) == Some(Form.Num(given)) <==> HasLayer(g.pending, id)
  {
    var g := After(schema, s, run);
    IndexIff(g.pending, id);
    if HasLayer(g.pending, id) {
      StillQueuedLeft(schema, s, run, id);
      PostedNamesFollow(schema, s, run, id, i, w);
    }
  }

  /** And an operation is posted on the entity the renames lead to, if they move it, exactly when it is still queued. */
  lemma PostedInvocationIff(schema: Schema, s: State, run: seq<Label>, id: string, entity: EntityRef)
    requires Tidy(s) && IsRun(schema, s, run) && IndexOf(s.pending, id) < |s.pending| && id != ""
    requires forall k :: 0 <= k < |run| ==> !Resubmits(run[k], id)
    requires Queued(s, id).entity == Some(entity) && MovedRef(schema, s, run, entity) != entity
    ensures var g := After(schema, s, run);
      PostedEntity(g, id, Some(entity)) == Some(MovedRef(schema, s, run, entity)) <==> HasLayer(g.pending, id)
  {
    var g := After(schema, s, run);
    IndexIff(g.pending, id);
    if HasLayer(g.pending, id) {
      StillQueuedLeft(schema, s, run, id);
      LayerFollows(schema, s, run, id);
    }
  }

  /** `[":db/add", 1000, a, v]` is posted as it was queued, whatever is acked. */
  lemma NumberedSubjectStays(x: nat, a: Form, v: Form, ids: Ids, schema: Schema)
    ensures TxAt(RewriteTx([Arr([Form.Str(ADD), Form.Num(x), a, v])], ids, schema), 0, Nth(1, Here), schema) ==
      Some(Form.Num(x))
  {
    var tx := [Arr([Form.Str(ADD), Form.Num(x), a, v])];
    assert TxAt(tx, 0, Nth(1, Here), schema) == Some(Form.Num(x));
    NamesBecomeTheirIds(tx, ids, schema, 0, Nth(1, Here));
  }

  /**
   * An echo that tells nothing of the entity announces its local id: what was
   * queued by name is from then on posted on the local number.
   */
  lemma SilentEchoPostsTheLocalId(maker: Layer, tmp: string, incoming: seq<Datom>)
    requires Get(maker.tempids, tmp).Some?
    ensures var x := Get(maker.tempids, tmp).value;
      Get(EchoAck(maker, incoming), tmp) == Some(x) <==> forall e: nat :: !EchoSays(maker.datoms, incoming, x, e)
  {
    var x := Get(maker.tempids, tmp).value;
    EchoAnnounces(maker, tmp, incoming, x);
    assert !EchoSays(maker.datoms, incoming, x, x);
  }
}

/** Replacing tempids in transaction forms, wherever a form names an entity. */
module Rewrite {
  import Datoms

  /** A transaction item as it arrives: plain JSON. */
  datatype Form =
    | Undefined
    | Num(n: int)
    | Str(s: string)
    | Other
    | Arr(items: seq<Form>)
    | Map(entries: map<string, Form>)

  type Ids = map<string, nat>

  /** Which attributes hold references, by id and by ident. Without a schema none does. */
  datatype Schema = NoSchema | Schema(refIds: set<int>, refIdents: set<string>)

  const DB_ID := ":db/id"
  const ADD := ":db/add"
  const RETRACT := ":db/retract"
  const RETRACT_ENTITY := ":db/retractEntity"

  predicate IsLookupRef(f: Form) {
    f.Arr? && |f.items| == 2 && f.items[0].Str? && |f.items[0].s| > 0 && f.items[0].s[0] == ':'
  }

  /** One past the last slash; 0 without one. */
  function AfterLastSlash(s: string): (i: nat)
    ensures i <= |s|
  {
    if s == [] then 0
    else if s[|s| - 1] == '/' then |s|
    else AfterLastSlash(s[..|s| - 1])
  }

  /** `:todo/_owner` reads the attribute `:todo/owner` backwards. */
  function ForwardIdent(ident: string): string {
    var i := AfterLastSlash(ident);
    if 0 < i < |ident| && ident[i] == '_' then ident[..i] + ident[i + 1..] else ident
  }

  predicate IsRefAttr(schema: Schema, a: Form) {
    schema.Schema? &&
    ((a.Num? && a.n in schema.refIds) || (a.Str? && ForwardIdent(a.s) in schema.refIdents))
  }

  /** What becomes of a form in an entity position that is neither a lookup nor a map. */
  type Leaf = Form -> Form

  function WalkEntity(f: Form, leaf: Leaf, schema: Schema): Form
    decreases f, 1
  {
    if IsLookupRef(f) then f else if f.Map? then WalkMap(f, leaf, schema) else leaf(f)
  }

  function WalkRefs(items: seq<Form>, leaf: Leaf, schema: Schema): (r: seq<Form>)
    ensures |r| == |items|
    decreases items
  {
    if items == [] then [] else [WalkEntity(items[0], leaf, schema)] + WalkRefs(items[1..], leaf, schema)
  }

  /** A value behind a reference attribute: one entity, or a list of them. */
  function WalkRefValue(v: Form, leaf: Leaf, schema: Schema): Form
    decreases v, 2
  {
    if v.Arr? && !IsLookupRef(v) then Arr(WalkRefs(v.items, leaf, schema)) else WalkEntity(v, leaf, schema)
  }

  function WalkEntry(k: string, v: Form, leaf: Leaf, schema: Schema): Form
    decreases v, 3
  {
    if k == DB_ID then WalkEntity(v, leaf, schema)
    else if IsRefAttr(schema, Str(k)) then WalkRefValue(v, leaf, schema)
    else v
  }

  function WalkMap(m: Form, leaf: Leaf, schema: Schema): Form
    requires m.Map?
    decreases m, 0
  {
    Map(map k | k in m.entries :: WalkEntry(k, m.entries[k], leaf, schema))
  }

  function ItemAt(items: seq<Form>, i: nat): Form {
    if i < |items| then items[i] else Undefined
  }

  function WalkItem(item: Form, leaf: Leaf, schema: Schema): Form {
    if item.Arr? then
      var op, e, a, v := ItemAt(item.items, 0), ItemAt(item.items, 1), ItemAt(item.items, 2), ItemAt(item.items, 3);
      if op == Str(RETRACT_ENTITY) then Arr([op, WalkEntity(e, leaf, schema)])
      else if op == Str(ADD) || op == Str(RETRACT) then
        if |item.items| < 4 then Arr([op, WalkEntity(e, leaf, schema), a])
        else Arr([op, WalkEntity(e, leaf, schema), a, if IsRefAttr(schema, a) then WalkEntity(v, leaf, schema) else v])
      else item
    else if item.Map? then WalkMap(item, leaf, schema)
    else item
  }

  function WalkTx(tx: seq<Form>, leaf: Leaf, schema: Schema): (r: seq<Form>)
    ensures |r| == |tx|
    decreases |tx|
  {
    if tx == [] then [] else [WalkItem(tx[0], leaf, schema)] + WalkTx(tx[1..], leaf, schema)
  }

  function RewriteTempid(f: Form, ids: Ids): Form {
    if f.Str? && f.s in ids then Num(ids[f.s]) else f
  }

  function RewriteTx(tx: seq<Form>, ids: Ids, schema: Schema): seq<Form> {
    WalkTx(tx, f => RewriteTempid(f, ids), schema)
  }

  // ---- walking twice ------------------------------------------------------------------------

  /** The leaf keeps atoms atoms, containers as they are, and makes no string. */
  ghost predicate Atomic(leaf: Leaf) {
    forall f: Form :: if f.Arr? || f.Map? then leaf(f) == f
                      else !leaf(f).Arr? && !leaf(f).Map? && (leaf(f).Str? ==> leaf(f) == f)
  }

  ghost predicate Composes(first: Leaf, second: Leaf, both: Leaf) {
    Atomic(first) && forall f: Form :: second(first(f)) == both(f)
  }

  lemma {:induction false} EntityTwice(f: Form, first: Leaf, second: Leaf, both: Leaf, schema: Schema)
    requires Composes(first, second, both)
    ensures WalkEntity(WalkEntity(f, first, schema), second, schema) == WalkEntity(f, both, schema)
    ensures IsLookupRef(WalkEntity(f, first, schema)) <==> IsLookupRef(f)
    ensures WalkEntity(f, first, schema).Arr? <==> f.Arr?
    decreases f, 1
  {
    if !IsLookupRef(f) && f.Map? {
      MapTwice(f, first, second, both, schema);
    }
  }

  lemma {:induction false} RefsTwice(items: seq<Form>, first: Leaf, second: Leaf, both: Leaf, schema: Schema)
    requires Composes(first, second, both)
    ensures WalkRefs(WalkRefs(items, first, schema), second, schema) == WalkRefs(items, both, schema)
    ensures forall i :: 0 <= i < |items| && WalkRefs(items, first, schema)[i].Str? ==>
      WalkRefs(items, first, schema)[i] == items[i]
    decreases items
  {
    if items != [] {
      EntityTwice(items[0], first, second, both, schema);
      RefsTwice(items[1..], first, second, both, schema);
      assert WalkRefs(items, first, schema)[1..] == WalkRefs(items[1..], first, schema);
    }
  }

  lemma {:induction false} RefValueTwice(v: Form, first: Leaf, second: Leaf, both: Leaf, schema: Schema)
    requires Composes(first, second, both)
    ensures WalkRefValue(WalkRefValue(v, first, schema), second, schema) == WalkRefValue(v, both, schema)
    decreases v, 2
  {
    if v.Arr? && !IsLookupRef(v) {
      RefsTwice(v.items, first, second, both, schema);
      assert !IsLookupRef(Arr(WalkRefs(v.items, first, schema)));
    } else {
      EntityTwice(v, first, second, both, schema);
    }
  }

  lemma {:induction false} MapTwice(m: Form, first: Leaf, second: Leaf, both: Leaf, schema: Schema)
    requires Composes(first, second, both) && m.Map?
    ensures WalkMap(WalkMap(m, first, schema), second, schema) == WalkMap(m, both, schema)
    decreases m, 0
  {
    forall k | k in m.entries
      ensures WalkEntry(k, WalkEntry(k, m.entries[k], first, schema), second, schema) ==
        WalkEntry(k, m.entries[k], both, schema)
    {
      if k == DB_ID {
        EntityTwice(m.entries[k], first, second, both, schema);
      } else if IsRefAttr(schema, Str(k)) {
        RefValueTwice(m.entries[k], first, second, both, schema);
      }
    }
    assert WalkMap(WalkMap(m, first, schema), second, schema).entries == WalkMap(m, both, schema).entries;
  }

  lemma ItemTwice(item: Form, first: Leaf, second: Leaf, both: Leaf, schema: Schema)
    requires Composes(first, second, both)
    ensures WalkItem(WalkItem(item, first, schema), second, schema) == WalkItem(item, both, schema)
  {
    if item.Arr? {
      EntityTwice(ItemAt(item.items, 1), first, second, both, schema);
      EntityTwice(ItemAt(item.items, 3), first, second, both, schema);
    } else if item.Map? {
      MapTwice(item, first, second, both, schema);
    }
  }

  lemma {:induction false} TxTwice(tx: seq<Form>, first: Leaf, second: Leaf, both: Leaf, schema: Schema)
    requires Composes(first, second, both)
    ensures WalkTx(WalkTx(tx, first, schema), second, schema) == WalkTx(tx, both, schema)
    decreases |tx|
  {
    if tx != [] {
      ItemTwice(tx[0], first, second, both, schema);
      TxTwice(tx[1..], first, second, both, schema);
      assert WalkTx(tx, first, schema)[1..] == WalkTx(tx[1..], first, schema);
    }
  }

  // ---- a hygienic substitution ----------------------------------------------------------------

  /**
   * Rewriting twice is rewriting once with both maps, the earlier one winning
   * where they disagree: so it is idempotent, and over disjoint maps the order
   * does not matter.
   */
  lemma RewriteComposes(tx: seq<Form>, first: Ids, second: Ids, schema: Schema)
    ensures RewriteTx(RewriteTx(tx, first, schema), second, schema) == RewriteTx(tx, second + first, schema)
  {
    TxTwice(tx, f => RewriteTempid(f, first), f => RewriteTempid(f, second), f => RewriteTempid(f, second + first),
      schema);
  }

  lemma RewriteIsIdempotent(tx: seq<Form>, ids: Ids, schema: Schema)
    ensures RewriteTx(RewriteTx(tx, ids, schema), ids, schema) == RewriteTx(tx, ids, schema)
  {
    RewriteComposes(tx, ids, ids, schema);
    assert ids + ids == ids;
  }

  lemma DisjointRewritesCommute(tx: seq<Form>, some: Ids, other: Ids, schema: Schema)
    requires some.Keys !! other.Keys
    ensures RewriteTx(RewriteTx(tx, some, schema), other, schema) ==
      RewriteTx(RewriteTx(tx, other, schema), some, schema)
  {
    RewriteComposes(tx, some, other, schema);
    RewriteComposes(tx, other, some, schema);
    assert some + other == other + some;
  }

  /** A form with every name of an entity blanked out: its scalars, its attributes, its lookup refs. */
  function Blank(f: Form): Form {
    if f.Str? || f.Num? then Other else f
  }

  /** Whatever the ids, everything but the names of entities stays what and where it was. */
  lemma RewriteTouchesOnlyNames(tx: seq<Form>, ids: Ids, schema: Schema)
    ensures WalkTx(RewriteTx(tx, ids, schema), Blank, schema) == WalkTx(tx, Blank, schema)
  {
    TxTwice(tx, f => RewriteTempid(f, ids), Blank, Blank, schema);
  }

  // ---- which names are left --------------------------------------------------------------------

  function EntityNames(f: Form, schema: Schema): set<string>
    decreases f, 1
  {
    if IsLookupRef(f) then {} else if f.Map? then MapNames(f, schema) else if f.Str? then {f.s} else {}
  }

  function RefNames(items: seq<Form>, schema: Schema): set<string>
    decreases items
  {
    if items == [] then {} else EntityNames(items[0], schema) + RefNames(items[1..], schema)
  }

  function EntryNames(k: string, v: Form, schema: Schema): set<string>
    decreases v, 3
  {
    if k == DB_ID then EntityNames(v, schema)
    else if !IsRefAttr(schema, Str(k)) then {}
    else if v.Arr? && !IsLookupRef(v) then RefNames(v.items, schema)
    else EntityNames(v, schema)
  }

  function MapNames(m: Form, schema: Schema): set<string>
    requires m.Map?
    decreases m, 0
  {
    set k, n | k in m.entries && n in EntryNames(k, m.entries[k], schema) :: n
  }

  function ItemNames(item: Form, schema: Schema): set<string> {
    if item.Arr? then
      var op, e, a, v := ItemAt(item.items, 0), ItemAt(item.items, 1), ItemAt(item.items, 2), ItemAt(item.items, 3);
      if op == Str(RETRACT_ENTITY) then EntityNames(e, schema)
      else if op == Str(ADD) || op == Str(RETRACT) then
        EntityNames(e, schema) + (if |item.items| >= 4 && IsRefAttr(schema, a) then EntityNames(v, schema) else {})
      else {}
    else if item.Map? then MapNames(item, schema)
    else {}
  }

  /** The tempids a transaction refers to. */
  function Names(tx: seq<Form>, schema: Schema): set<string> {
    set i, n | 0 <= i < |tx| && n in ItemNames(tx[i], schema) :: n
  }

  lemma {:induction false} EntityNamesLeft(f: Form, ids: Ids, schema: Schema)
    ensures EntityNames(WalkEntity(f, x => RewriteTempid(x, ids), schema), schema) == EntityNames(f, schema) - ids.Keys
    decreases f, 1
  {
    if !IsLookupRef(f) && f.Map? {
      MapNamesLeft(f, ids, schema);
    }
  }

  lemma {:induction false} RefNamesLeft(items: seq<Form>, ids: Ids, schema: Schema)
    ensures RefNames(WalkRefs(items, x => RewriteTempid(x, ids), schema), schema) == RefNames(items, schema) - ids.Keys
    decreases items
  {
    if items != [] {
      var leaf := x => RewriteTempid(x, ids);
      EntityNamesLeft(items[0], ids, schema);
      RefNamesLeft(items[1..], ids, schema);
      assert WalkRefs(items, leaf, schema)[1..] == WalkRefs(items[1..], leaf, schema);
    }
  }

  lemma {:induction false} EntryNamesLeft(k: string, v: Form, ids: Ids, schema: Schema)
    ensures EntryNames(k, WalkEntry(k, v, x => RewriteTempid(x, ids), schema), schema) ==
      EntryNames(k, v, schema) - ids.Keys
    decreases v, 3
  {
    var leaf := x => RewriteTempid(x, ids);
    if v.Arr? && !IsLookupRef(v) {
      RefNamesLeft(v.items, ids, schema);
      RefsTwice(v.items, leaf, leaf, leaf, schema);
      assert !IsLookupRef(Arr(WalkRefs(v.items, leaf, schema)));
    }
    EntityNamesLeft(v, ids, schema);
  }

  lemma {:induction false} MapNamesLeft(m: Form, ids: Ids, schema: Schema)
    requires m.Map?
    ensures MapNames(WalkMap(m, x => RewriteTempid(x, ids), schema), schema) == MapNames(m, schema) - ids.Keys
    decreases m, 0
  {
    var after := WalkMap(m, x => RewriteTempid(x, ids), schema);
    forall k | k in m.entries
      ensures EntryNames(k, after.entries[k], schema) == EntryNames(k, m.entries[k], schema) - ids.Keys
    {
      EntryNamesLeft(k, m.entries[k], ids, schema);
    }
    forall n ensures n in MapNames(after, schema) <==> n in MapNames(m, schema) && n !in ids {
      if n in MapNames(after, schema) {
        var k :| k in after.entries && n in EntryNames(k, after.entries[k], schema);
        assert n in EntryNames(k, m.entries[k], schema);
      }
      if n in MapNames(m, schema) && n !in ids {
        var k :| k in m.entries && n in EntryNames(k, m.entries[k], schema);
        assert n in EntryNames(k, after.entries[k], schema);
      }
    }
  }

  lemma ItemNamesLeft(item: Form, ids: Ids, schema: Schema)
    ensures ItemNames(WalkItem(item, x => RewriteTempid(x, ids), schema), schema) == ItemNames(item, schema) - ids.Keys
  {
    if item.Arr? {
      EntityNamesLeft(ItemAt(item.items, 1), ids, schema);
      EntityNamesLeft(ItemAt(item.items, 3), ids, schema);
    } else if item.Map? {
      MapNamesLeft(item, ids, schema);
    }
  }

  lemma {:induction false} ItemOfTx(tx: seq<Form>, leaf: Leaf, schema: Schema, i: nat)
    requires i < |tx|
    ensures WalkTx(tx, leaf, schema)[i] == WalkItem(tx[i], leaf, schema)
    decreases |tx|
  {
    if i > 0 {
      ItemOfTx(tx[1..], leaf, schema, i - 1);
    }
  }

  /** A rewrite resolves exactly the names it has ids for; every other name is still there. */
  lemma NamesLeft(tx: seq<Form>, ids: Ids, schema: Schema)
    ensures Names(RewriteTx(tx, ids, schema), schema) == Names(tx, schema) - ids.Keys
  {
    var after := RewriteTx(tx, ids, schema);
    forall i | 0 <= i < |tx| ensures ItemNames(after[i], schema) == ItemNames(tx[i], schema) - ids.Keys {
      ItemOfTx(tx, f => RewriteTempid(f, ids), schema, i);
      ItemNamesLeft(tx[i], ids, schema);
    }
    forall n ensures n in Names(after, schema) <==> n in Names(tx, schema) && n !in ids {
      if n in Names(after, schema) {
        var i :| 0 <= i < |after| && n in ItemNames(after[i], schema);
        assert n in ItemNames(tx[i], schema);
      }
      if n in Names(tx, schema) && n !in ids {
        var i :| 0 <= i < |tx| && n in ItemNames(tx[i], schema);
        assert n in ItemNames(after[i], schema);
      }
    }
  }

  // ---- what each name becomes -------------------------------------------------------------------

  /** The way from an item to one of its entity positions. */
  datatype Way = Here | Key(k: string, rest: Way) | Nth(i: nat, rest: Way)

  function EntityAt(f: Form, w: Way, schema: Schema): Datoms.Option<Form>
    decreases f, 1
  {
    if IsLookupRef(f) then Datoms.None
    else if f.Map? then
      (if w.Key? && w.k in f.entries then EntryAt(w.k, f.entries[w.k], w.rest, schema) else Datoms.None)
    else if w.Here? then Datoms.Some(f)
    else Datoms.None
  }

  function EntryAt(k: string, v: Form, w: Way, schema: Schema): Datoms.Option<Form>
    decreases v, 2
  {
    if k == DB_ID then EntityAt(v, w, schema)
    else if !IsRefAttr(schema, Str(k)) then Datoms.None
    else if v.Arr? && !IsLookupRef(v) then
      (if w.Nth? && w.i < |v.items| then EntityAt(v.items[w.i], w.rest, schema) else Datoms.None)
    else EntityAt(v, w, schema)
  }

  /** What stands at an entity position of an item: its subject, or the value of a reference. */
  function PlaceAt(item: Form, w: Way, schema: Schema): Datoms.Option<Form> {
    if item.Arr? then
      var op, a := ItemAt(item.items, 0), ItemAt(item.items, 2);
      if !w.Nth? then Datoms.None
      else if w.i == 1 && op in {Str(RETRACT_ENTITY), Str(ADD), Str(RETRACT)} then
        EntityAt(ItemAt(item.items, 1), w.rest, schema)
      else if w.i == 3 && op in {Str(ADD), Str(RETRACT)} && |item.items| >= 4 && IsRefAttr(schema, a) then
        EntityAt(item.items[3], w.rest, schema)
      else Datoms.None
    else if item.Map? then EntityAt(item, w, schema)
    else Datoms.None
  }

  function TxAt(tx: seq<Form>, i: nat, w: Way, schema: Schema): Datoms.Option<Form> {
    if i < |tx| then PlaceAt(tx[i], w, schema) else Datoms.None
  }

  function Become(f: Datoms.Option<Form>, leaf: Leaf): Datoms.Option<Form> {
    if f.Some? then Datoms.Some(leaf(f.value)) else Datoms.None
  }

  lemma {:induction false} EntityBecomes(f: Form, w: Way, leaf: Leaf, schema: Schema)
    requires Atomic(leaf)
    ensures EntityAt(WalkEntity(f, leaf, schema), w, schema) == Become(EntityAt(f, w, schema), leaf)
    decreases f, 1
  {
    if !IsLookupRef(f) && f.Map? {
      var after := WalkMap(f, leaf, schema);
      if w.Key? && w.k in f.entries {
        assert after.entries[w.k] == WalkEntry(w.k, f.entries[w.k], leaf, schema);
        EntryBecomes(w.k, f.entries[w.k], w.rest, leaf, schema);
      }
    }
  }

  lemma {:induction false} NthRef(items: seq<Form>, i: nat, leaf: Leaf, schema: Schema)
    requires i < |items|
    ensures WalkRefs(items, leaf, schema)[i] == WalkEntity(items[i], leaf, schema)
    decreases items
  {
    if i > 0 {
      NthRef(items[1..], i - 1, leaf, schema);
    }
  }

  lemma {:induction false} EntryBecomes(k: string, v: Form, w: Way, leaf: Leaf, schema: Schema)
    requires Atomic(leaf)
    ensures EntryAt(k, WalkEntry(k, v, leaf, schema), w, schema) == Become(EntryAt(k, v, w, schema), leaf)
    decreases v, 2
  {
    if k != DB_ID && IsRefAttr(schema, Str(k)) && v.Arr? && !IsLookupRef(v) {
      var after := WalkRefs(v.items, leaf, schema);
      forall i | 0 <= i < |v.items| && after[i].Str? ensures after[i] == v.items[i] {
        NthRef(v.items, i, leaf, schema);
      }
      assert !IsLookupRef(Arr(after));
      if w.Nth? && w.i < |v.items| {
        NthRef(v.items, w.i, leaf, schema);
        EntityBecomes(v.items[w.i], w.rest, leaf, schema);
      }
    } else {
      EntityBecomes(v, w, leaf, schema);
      assert !v.Arr? || IsLookupRef(v) || k == DB_ID || !IsRefAttr(schema, Str(k));
    }
  }

  lemma PlaceBecomes(item: Form, w: Way, leaf: Leaf, schema: Schema)
    requires Atomic(leaf)
    ensures PlaceAt(WalkItem(item, leaf, schema), w, schema) == Become(PlaceAt(item, w, schema), leaf)
  {
    if item.Arr? && w.Nth? {
      EntityBecomes(ItemAt(item.items, 1), w.rest, leaf, schema);
      EntityBecomes(ItemAt(item.items, 3), w.rest, leaf, schema);
    } else if item.Map? {
      EntityBecomes(item, w, leaf, schema);
    }
  }

  /**
   * Position by position: a name there is an id for becomes that id, and
   * everything else — another name, a number, a list — stays as it was.
   */
  lemma NamesBecomeTheirIds(tx: seq<Form>, ids: Ids, schema: Schema, i: nat, w: Way)
    ensures TxAt(RewriteTx(tx, ids, schema), i, w, schema) ==
      match TxAt(tx, i, w, schema)
      case Some(Str(s)) => Datoms.Some(if s in ids then Num(ids[s]) else Str(s))
      case other => other
  {
    if i < |tx| {
      var leaf := f => RewriteTempid(f, ids);
      ItemOfTx(tx, leaf, schema, i);
      PlaceBecomes(tx[i], w, leaf, schema);
    }
  }

  // ---- form by form ----------------------------------------------------------------------------------

  /** In an entity position: a lookup ref and any other list stay, a map is rewritten, a name with an id becomes it. */
  ghost predicate EntityTo(f: Form, g: Form, ids: Ids, schema: Schema)
    decreases f, 1
  {
    if IsLookupRef(f) then g == f
    else if f.Map? then MapTo(f, g, ids, schema)
    else if f.Str? && f.s in ids then g == Num(ids[f.s])
    else g == f
  }

  /** One map entry: the subject and references are entity positions, everything else is the very same form. */
  ghost predicate EntryTo(k: string, v: Form, w: Form, ids: Ids, schema: Schema)
    decreases v, 2
  {
    if k == DB_ID then EntityTo(v, w, ids, schema)
    else if !IsRefAttr(schema, Str(k)) then w == v
    else if v.Arr? && !IsLookupRef(v) then
      w.Arr? && |w.items| == |v.items| &&
      forall i :: 0 <= i < |v.items| ==> EntityTo(v.items[i], w.items[i], ids, schema)
    else EntityTo(v, w, ids, schema)
  }

  ghost predicate MapTo(m: Form, g: Form, ids: Ids, schema: Schema)
    requires m.Map?
    decreases m, 0
  {
    g.Map? && g.entries.Keys == m.entries.Keys &&
    forall k :: k in m.entries ==> EntryTo(k, m.entries[k], g.entries[k], ids, schema)
  }

  /** An item keeps its op, its attribute and a plain value; one of any other kind is unchanged. */
  ghost predicate ItemTo(item: Form, g: Form, ids: Ids, schema: Schema) {
    if item.Map? then MapTo(item, g, ids, schema)
    else if item.Arr? && item.items != [] && item.items[0] == Str(RETRACT_ENTITY) then
      && g.Arr? && |g.items| == 2 && g.items[0] == Str(RETRACT_ENTITY)
      && EntityTo(ItemAt(item.items, 1), g.items[1], ids, schema)
    else if item.Arr? && item.items != [] && item.items[0] in {Str(ADD), Str(RETRACT)} then
      && g.Arr? && |g.items| == (if |item.items| >= 4 then 4 else 3) && g.items[0] == item.items[0]
      && EntityTo(ItemAt(item.items, 1), g.items[1], ids, schema) && g.items[2] == ItemAt(item.items, 2)
      && (|item.items| >= 4 ==>
            if IsRefAttr(schema, item.items[2]) then EntityTo(item.items[3], g.items[3], ids, schema)
            else g.items[3] == item.items[3])
    else g == item
  }

  lemma {:induction false} EntityIs(f: Form, g: Form, ids: Ids, schema: Schema)
    ensures EntityTo(f, g, ids, schema) <==> g == WalkEntity(f, x => RewriteTempid(x, ids), schema)
    decreases f, 1
  {
    if !IsLookupRef(f) && f.Map? {
      MapIs(f, g, ids, schema);
    }
  }

  lemma {:induction false} EntryIs(k: string, v: Form, w: Form, ids: Ids, schema: Schema)
    ensures EntryTo(k, v, w, ids, schema) <==> w == WalkEntry(k, v, x => RewriteTempid(x, ids), schema)
    decreases v, 2
  {
    var leaf := x => RewriteTempid(x, ids);
    if k == DB_ID || !(v.Arr? && !IsLookupRef(v)) {
      EntityIs(v, w, ids, schema);
    } else if w.Arr? && |w.items| == |v.items| {
      forall i | 0 <= i < |v.items|
        ensures EntityTo(v.items[i], w.items[i], ids, schema) <==> w.items[i] == WalkRefs(v.items, leaf, schema)[i]
      {
        NthRef(v.items, i, leaf, schema);
        EntityIs(v.items[i], w.items[i], ids, schema);
      }
    }
  }

  lemma {:induction false} MapIs(m: Form, g: Form, ids: Ids, schema: Schema)
    requires m.Map?
    ensures MapTo(m, g, ids, schema) <==> g == WalkMap(m, x => RewriteTempid(x, ids), schema)
    decreases m, 0
  {
    var after := WalkMap(m, x => RewriteTempid(x, ids), schema);
    if g.Map? && g.entries.Keys == m.entries.Keys {
      forall k | k in m.entries
        ensures EntryTo(k, m.entries[k], g.entries[k], ids, schema) <==> g.entries[k] == after.entries[k]
      {
        EntryIs(k, m.entries[k], g.entries[k], ids, schema);
      }
      assert g == after <==> forall k :: k in m.entries ==> g.entries[k] == after.entries[k];
    }
  }

  lemma ItemIs(item: Form, g: Form, ids: Ids, schema: Schema)
    ensures ItemTo(item, g, ids, schema) <==> g == WalkItem(item, x => RewriteTempid(x, ids), schema)
  {
    if item.Map? {
      MapIs(item, g, ids, schema);
    } else if item.Arr? && g.Arr? && |g.items| >= 2 {
      EntityIs(ItemAt(item.items, 1), g.items[1], ids, schema);
      if |g.items| >= 4 {
        EntityIs(ItemAt(item.items, 3), g.items[3], ids, schema);
      }
    }
  }

  /** A transaction is rewritten item by item, in order, and each item exactly as said above. */
  lemma RewrittenIff(tx: seq<Form>, after: seq<Form>, ids: Ids, schema: Schema)
    ensures after == RewriteTx(tx, ids, schema) <==>
      |after| == |tx| && forall i :: 0 <= i < |tx| ==> ItemTo(tx[i], after[i], ids, schema)
  {
    if |after| == |tx| {
      forall i | 0 <= i < |tx|
        ensures ItemTo(tx[i], after[i], ids, schema) <==> after[i] == RewriteTx(tx, ids, schema)[i]
      {
        ItemOfTx(tx, x => RewriteTempid(x, ids), schema, i);
        ItemIs(tx[i], after[i], ids, schema);
      }
    }
  }

  // ---- what is a lookup, and what is a reference backwards ---------------------------------------------

  lemma {:induction false} LastSlashIs(before: string, after: string)
    requires '/' !in after
    ensures AfterLastSlash(before + ['/'] + after) == |before| + 1
    decreases |after|
  {
    var s := before + ['/'] + after;
    if after == [] {
      assert s == before + ['/'];
    } else {
      var init := after[..|after| - 1];
      assert s[..|s| - 1] == before + ['/'] + init && s[|s| - 1] == after[|after| - 1];
      LastSlashIs(before, init);
    }
  }

  lemma {:induction false} NoSlash(s: string)
    requires '/' !in s
    ensures AfterLastSlash(s) == 0
  {
    if s != [] {
      NoSlash(s[..|s| - 1]);
    }
  }

  /**
   * `ns/_name` reads `ns/name` backwards, whatever slashes `ns` has; without a
   * slash, or without an underscore right behind the last one, an ident is its
   * own.
   */
  lemma ForwardIdentIs(ns: string, name: string)
    requires '/' !in name
    ensures ForwardIdent(ns + ['/', '_'] + name) == ns + ['/'] + name
    ensures (name == [] || name[0] != '_') ==> ForwardIdent(ns + ['/'] + name) == ns + ['/'] + name
    ensures ForwardIdent(name) == name
  {
    LastSlashIs(ns, ['_'] + name);
    assert ns + ['/'] + (['_'] + name) == ns + ['/', '_'] + name;
    LastSlashIs(ns, name);
    NoSlash(name);
  }

  /** Behind a reference, a pair that begins with an attribute is one entity and stays; any other is a list of two. */
  lemma PairIsLookupOrList(a: string, v: Form, k: string, w: Form, ids: Ids, schema: Schema)
    requires k != DB_ID && IsRefAttr(schema, Str(k))
    ensures EntryTo(k, Arr([Str(a), v]), w, ids, schema) <==>
      if a != [] && a[0] == ':' then w == Arr([Str(a), v])
      else
        && w.Arr? && |w.items| == 2
        && w.items[0] == (if a in ids then Num(ids[a]) else Str(a)) && EntityTo(v, w.items[1], ids, schema)
  {
    var items := [Str(a), v];
    assert items[0] == Str(a) && items[1] == v;
  }

  /** Which attributes are references: by id, or by ident read forward; without a schema none. */
  lemma RefAttrIff(schema: Schema, n: int, ns: string, name: string)
    requires '/' !in name && (name == [] || name[0] != '_')
    ensures !IsRefAttr(NoSchema, Num(n)) && !IsRefAttr(NoSchema, Str(ns)) && !IsRefAttr(schema, Other)
    ensures schema.Schema? ==>
      && (IsRefAttr(schema, Num(n)) <==> n in schema.refIds)
      && (IsRefAttr(schema, Str(ns + ['/'] + name)) <==> ns + ['/'] + name in schema.refIdents)
      && (IsRefAttr(schema, Str(ns + ['/', '_'] + name)) <==> ns + ['/'] + name in schema.refIdents)
  {
    ForwardIdentIs(ns, name);
  }
}

/** The pull a peer answers a lowered shape with, over the facts current in one database. */
module Pull {
  import opened Datoms
  import opened Shapes

  datatype Fact = Fact(e: nat, a: nat, v: Value)

  /** In index order. */
  type Db = seq<Fact>

  /** Recursion answers with a row, or with a stub where it stops. */
  type Row = j: Json | j.Obj? witness Obj(map[])

  /**
   * What a pull depends on and no theorem here does: how a collection is
   * filtered, ordered and cut, what recursion finds, and a wildcard's row.
   */
  datatype Engine = Engine(
    choose: (nat, Field, seq<Value>) -> seq<Value>,
    again: (nat, Field, Value) -> Row,
    wildcard: nat -> map<string, Json>)

  predicate HasDatoms(db: Db, e: nat) {
    exists i :: 0 <= i < |db| && db[i].e == e
  }

  function ValuesOf(db: Db, e: nat, a: nat): seq<Value> {
    if db == [] then []
    else (if db[0].e == e && db[0].a == a then [db[0].v] else []) + ValuesOf(db[1..], e, a)
  }

  function Referrers(db: Db, e: nat, a: nat): seq<Value> {
    if db == [] then []
    else (if db[0].a == a && db[0].v == Ref(e) then [Ref(db[0].e)] else []) + Referrers(db[1..], e, a)
  }

  /** What the index holds for one field of one entity: values, or the entities that point at it. */
  function Elems(db: Db, e: nat, f: Field): seq<Value>
    requires f.attr.UserAttr?
  {
    if f.reverse then Referrers(db, e, f.attr.id) else ValuesOf(db, e, f.attr.id)
  }

  function Elem(o: Engine, db: Db, e: nat, f: Field, v: Value): Json
    decreases f, 0
  {
    if !v.Ref? then Lit(v)
    else
      match f.sub
      case Scalar => Stub(v.eid)
      case Wildcard => if HasDatoms(db, v.eid) then Obj(o.wildcard(v.eid)) else if f.reverse then Null else Stub(v.eid)
      case Again(_) => o.again(e, f, v)
      case Nested(s) =>
        match Pull(o, db, v.eid, s)
        case Some(row) => row
        case None => if f.reverse then Null else Stub(v.eid)
  }

  function EachElem(o: Engine, db: Db, e: nat, f: Field, vs: seq<Value>): seq<Json>
    decreases f, 1, |vs|
  {
    if vs == [] then []
    else
      var j := Elem(o, db, e, f, vs[0]);
      (if IsPresent(j) then [j] else []) + EachElem(o, db, e, f, vs[1..])
  }

  function Raw(o: Engine, db: Db, e: nat, f: Field): Json
    decreases f, 2
  {
    if f.attr.IdAttr? then Lit(Num(e))
    else
      var found := Elems(db, e, f);
      var vals := EachElem(o, db, e, f, if Many(f) then o.choose(e, f, found) else found);
      if vals == [] then (if f.mode.Defaulted? then f.mode.value else Undefined)
      else if Many(f) then Arr(vals)
      else vals[0]
  }

  function Record(o: Engine, db: Db, e: nat, s: Shape): map<string, Json>
    decreases s, 0
  {
    match s
    case Empty => map[]
    case With(key, f, rest) =>
      var r := Raw(o, db, e, f);
      if r.Undefined? then Record(o, db, e, rest) else map[key := r] + Record(o, db, e, rest)
  }

  /** The pull has something to answer with. An id alone counts on an entity that has datoms. */
  predicate Found(o: Engine, db: Db, e: nat, s: Shape)
    decreases s, 0
  {
    s.With? &&
    ((if s.field.attr.IdAttr? then HasDatoms(db, e) else !Raw(o, db, e, s.field).Undefined?) ||
     Found(o, db, e, s.rest))
  }

  function Pull(o: Engine, db: Db, e: nat, s: Shape): Option<Json>
    decreases s, 1
  {
    if Found(o, db, e, s) then Some(Obj(Record(o, db, e, s))) else None
  }

  // ---- the indexes say what the facts say ------------------------------------------

  lemma {:induction false} ValuesAreFacts(db: Db, e: nat, a: nat, v: Value)
    ensures v in ValuesOf(db, e, a) <==> Fact(e, a, v) in db
  {
    if db != [] {
      ValuesAreFacts(db[1..], e, a, v);
      assert db == [db[0]] + db[1..];
    }
  }

  lemma {:induction false} ReferrersAreFacts(db: Db, e: nat, a: nat, v: Value)
    ensures v in Referrers(db, e, a) <==> v.Ref? && Fact(v.eid, a, Ref(e)) in db
  {
    if db != [] {
      ReferrersAreFacts(db[1..], e, a, v);
      assert db == [db[0]] + db[1..];
    }
  }

  // ---- one value or an array of them -------------------------------------------------------------

  /** What a reference shows: what is found at the other end; of nothing, a stub forward and nothing backward. */
  lemma ReferenceShows(o: Engine, db: Db, e: nat, f: Field, t: nat)
    ensures f.sub.Nested? ==>
      Elem(o, db, e, f, Ref(t)) ==
        match Pull(o, db, t, f.sub.shape)
        case Some(row) => row
        case None => if f.reverse then Null else Stub(t)
    ensures f.sub.Wildcard? && HasDatoms(db, t) ==> Elem(o, db, e, f, Ref(t)) == Obj(o.wildcard(t))
    ensures f.sub.Wildcard? && !HasDatoms(db, t) ==> Elem(o, db, e, f, Ref(t)) == if f.reverse then Null else Stub(t)
    ensures f.sub.Scalar? ==> Elem(o, db, e, f, Ref(t)) == Stub(t)
  {
  }

  /** One of these values shows as `j`. */
  ghost predicate ShowsAs(o: Engine, db: Db, e: nat, f: Field, vs: seq<Value>, j: Json) {
    IsPresent(j) && exists i :: 0 <= i < |vs| && Elem(o, db, e, f, vs[i]) == j
  }

  lemma {:induction false} EachElemIff(o: Engine, db: Db, e: nat, f: Field, vs: seq<Value>, j: Json)
    ensures j in EachElem(o, db, e, f, vs) <==> ShowsAs(o, db, e, f, vs, j)
    decreases |vs|
  {
    if vs != [] {
      EachElemIff(o, db, e, f, vs[1..], j);
      if ShowsAs(o, db, e, f, vs, j) && Elem(o, db, e, f, vs[0]) != j {
        var i :| 0 <= i < |vs| && Elem(o, db, e, f, vs[i]) == j;
        assert vs[1..][i - 1] == vs[i];
      }
      if ShowsAs(o, db, e, f, vs[1..], j) {
        var i :| 0 <= i < |vs[1..]| && Elem(o, db, e, f, vs[1..][i]) == j;
        assert vs[i + 1] == vs[1..][i];
      }
    }
  }

  /**
   * A card-many field, or a backlink nobody owns, shows an array of those
   * chosen of its elements that show; any other field one element it has. With
   * nothing to show it is the default, if there is one, and else nothing.
   */
  lemma FieldShows(o: Engine, db: Db, e: nat, f: Field)
    requires f.attr.UserAttr?
    ensures var raw, found := Raw(o, db, e, f), Elems(db, e, f);
      if (if f.reverse then !f.attr.isComponent else f.attr.many) then
        if forall j :: !ShowsAs(o, db, e, f, o.choose(e, f, found), j) then raw == Standing(f)
        else raw.Arr? && forall j :: j in raw.items <==> ShowsAs(o, db, e, f, o.choose(e, f, found), j)
      else
        if forall j :: !ShowsAs(o, db, e, f, found, j) then raw == Standing(f) else ShowsAs(o, db, e, f, found, raw)
  {
    var vs := if Many(f) then o.choose(e, f, Elems(db, e, f)) else Elems(db, e, f);
    var vals := EachElem(o, db, e, f, vs);
    forall j ensures j in vals <==> ShowsAs(o, db, e, f, vs, j) {
      EachElemIff(o, db, e, f, vs, j);
    }
    if vals != [] {
      assert vals[0] in vals;
    }
  }

  /** What stands for a field with nothing to show. */
  function Standing(f: Field): Json {
    match f.mode
    case Defaulted(j) => j
    case _ => Undefined
  }
}

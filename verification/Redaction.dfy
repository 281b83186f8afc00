/** Masked attributes against required fields: what a policy's pull check is for. */
module Redaction {
  import opened Datoms
  import opened Shapes
  import opened Pull
  import opened FilterPull
  import opened Clauses
  import opened Agreement

  predicate IsMasked(masked: set<nat>, f: Field) {
    f.attr.UserAttr? && f.attr.id in masked
  }

  /** The deploy-time check passes this shape. `again` and a wildcard are not walked into. */
  predicate CheckPull(masked: set<nat>, s: Shape)
    decreases s
  {
    s.With? ==>
      (IsMasked(masked, s.field) ==> s.field.mode.Optional? || Many(s.field)) &&
      (s.field.sub.Nested? ==> CheckPull(masked, s.field.sub.shape)) &&
      CheckPull(masked, s.rest)
  }

  /** A field at any depth the check walks into. */
  predicate FieldIn(f: Field, s: Shape)
    decreases s
  {
    s.With? && (f == s.field || (s.field.sub.Nested? && FieldIn(f, s.field.sub.shape)) || FieldIn(f, s.rest))
  }

  /** A shape is accepted exactly when every masked field in it is optional or card-many; a default does not do. */
  lemma {:induction false} AcceptedIff(masked: set<nat>, s: Shape)
    ensures CheckPull(masked, s) <==>
      forall f :: FieldIn(f, s) && f.attr.UserAttr? && f.attr.id in masked ==> f.mode.Optional? || Many(f)
    decreases s
  {
    if s.With? {
      AcceptedIff(masked, s.rest);
      assert FieldIn(s.field, s);
      assert forall f :: FieldIn(f, s.rest) ==> FieldIn(f, s);
      if s.field.sub.Nested? {
        AcceptedIff(masked, s.field.sub.shape);
        assert forall f :: FieldIn(f, s.field.sub.shape) ==> FieldIn(f, s);
      }
    }
  }

  // ---- redacting a result -------------------------------------------------------------------

  /** Take the masked keys out of a result, at every depth the shape reaches. */
  function Strip(masked: set<nat>, s: Shape, j: Json): Json
    decreases j, 1
  {
    if !j.Obj? || IsStub(j) then j
    else
      Obj(map key | key in j.fields && !(FieldAt(s, key).Some? && IsMasked(masked, FieldAt(s, key).value)) ::
            StripKey(masked, s, FieldAt(s, key), j.fields[key]))
  }

  function StripKey(masked: set<nat>, enclosing: Shape, f: Option<Field>, j: Json): Json
    decreases j, 3
  {
    if f.None? || f.value.sub.Scalar? then j
    else if Many(f.value) && j.Arr? then Arr(StripItems(masked, enclosing, f.value.sub, j, 0))
    else StripSub(masked, enclosing, f.value.sub, j)
  }

  function StripSub(masked: set<nat>, enclosing: Shape, sub: Sub, j: Json): Json
    requires !sub.Scalar?
    decreases j, 2
  {
    match sub
    case Wildcard => j
    case Again(_) => Strip(masked, enclosing, j)
    case Nested(s) => Strip(masked, s, j)
  }

  function StripItems(masked: set<nat>, enclosing: Shape, sub: Sub, arr: Json, i: nat): seq<Json>
    requires !sub.Scalar? && arr.Arr? && i <= |arr.items|
    decreases arr, 2, |arr.items| - i
  {
    if i == |arr.items| then []
    else [StripSub(masked, enclosing, sub, arr.items[i])] + StripItems(masked, enclosing, sub, arr, i + 1)
  }

  /** `k` is `j` without its masked keys, at every depth the shape reaches, and otherwise as it was. */
  ghost predicate Without(masked: set<nat>, s: Shape, j: Json, k: Json)
    decreases j, 1
  {
    if j.Obj? && !IsStub(j) then
      && k.Obj?
      && (forall key :: key in k.fields <==>
            key in j.fields && (FieldAt(s, key).Some? ==> !IsMasked(masked, FieldAt(s, key).value)))
      && forall key :: key in k.fields && key in j.fields ==>
           WithoutIn(masked, s, FieldAt(s, key), j.fields[key], k.fields[key])
    else k == j
  }

  ghost predicate WithoutIn(masked: set<nat>, enclosing: Shape, f: Option<Field>, j: Json, k: Json)
    decreases j, 3
  {
    if f.None? || f.value.sub.Scalar? || f.value.sub.Wildcard? then k == j
    else if Many(f.value) && j.Arr? then
      k.Arr? && |k.items| == |j.items| &&
      forall i :: 0 <= i < |j.items| ==>
        Without(masked, Inner(enclosing, f.value.sub), j.items[i], k.items[i])
    else Without(masked, Inner(enclosing, f.value.sub), j, k)
  }

  lemma {:induction false} StripIff(masked: set<nat>, s: Shape, j: Json, k: Json)
    ensures k == Strip(masked, s, j) <==> Without(masked, s, j, k)
    decreases j, 1
  {
    if j.Obj? && !IsStub(j) && k.Obj? {
      var left := Strip(masked, s, j);
      forall key | key in left.fields && key in k.fields
        ensures k.fields[key] == left.fields[key] <==>
          WithoutIn(masked, s, FieldAt(s, key), j.fields[key], k.fields[key])
      {
        StripKeyIff(masked, s, FieldAt(s, key), j.fields[key], k.fields[key]);
      }
    }
  }

  lemma {:induction false} StripKeyIff(masked: set<nat>, enclosing: Shape, f: Option<Field>, j: Json, k: Json)
    ensures k == StripKey(masked, enclosing, f, j) <==> WithoutIn(masked, enclosing, f, j, k)
    decreases j, 3
  {
    if f.Some? && !f.value.sub.Scalar? {
      if Many(f.value) && j.Arr? {
        StripItemsIff(masked, enclosing, f.value.sub, j, k);
      } else if !f.value.sub.Wildcard? {
        StripIff(masked, Inner(enclosing, f.value.sub), j, k);
      }
    }
  }

  /** The shape a row at the other end is redacted by. */
  function Inner(enclosing: Shape, sub: Sub): Shape {
    if sub.Nested? then sub.shape else enclosing
  }

  lemma {:induction false} StripItemsIff(masked: set<nat>, enclosing: Shape, sub: Sub, arr: Json, k: Json)
    requires !sub.Scalar? && arr.Arr?
    ensures k == Arr(StripItems(masked, enclosing, sub, arr, 0)) <==>
      if sub.Wildcard? then k == arr
      else
        k.Arr? && |k.items| == |arr.items| &&
        forall i :: 0 <= i < |arr.items| ==> Without(masked, Inner(enclosing, sub), arr.items[i], k.items[i])
    decreases arr, 2
  {
    StripItemsAre(masked, enclosing, sub, arr, 0);
    if sub.Wildcard? {
      assert StripItems(masked, enclosing, sub, arr, 0) == arr.items;
    } else if k.Arr? && |k.items| == |arr.items| {
      forall i | 0 <= i < |arr.items|
        ensures k.items[i] == StripSub(masked, enclosing, sub, arr.items[i]) <==>
          Without(masked, Inner(enclosing, sub), arr.items[i], k.items[i])
      {
        StripIff(masked, Inner(enclosing, sub), arr.items[i], k.items[i]);
      }
    }
  }

  lemma {:induction false} StripItemsAre(masked: set<nat>, enclosing: Shape, sub: Sub, arr: Json, i: nat)
    requires !sub.Scalar? && arr.Arr? && i <= |arr.items|
    ensures var items := StripItems(masked, enclosing, sub, arr, i);
      |items| == |arr.items| - i &&
      forall n :: 0 <= n < |items| ==> items[n] == StripSub(masked, enclosing, sub, arr.items[i + n])
    decreases |arr.items| - i
  {
    if i < |arr.items| {
      StripItemsAre(masked, enclosing, sub, arr, i + 1);
    }
  }

  /**
   * Along the required rows, none is left with `:db/id` alone, to be taken for
   * a stub, unless its shape selects an id to name the stub by.
   */
  predicate Survives(masked: set<nat>, s: Shape, j: Json)
    decreases j, 1
  {
    j.Obj? && !IsStub(j) ==>
      if IsStub(Strip(masked, s, j)) then IdKey(s).Some? else FieldsSurvive(masked, s, j)
  }

  predicate FieldsSurvive(masked: set<nat>, fields: Shape, j: Json)
    requires j.Obj?
    decreases j, 0, fields
  {
    fields.With? ==>
      (Demanded(fields.field) && fields.field.sub.Nested? && fields.key in j.fields ==>
         Survives(masked, fields.field.sub.shape, j.fields[fields.key])) &&
      FieldsSurvive(masked, fields.rest, j)
  }

  /**
   * Redacting a result keeps its row, exactly: whatever an accepted shape's
   * filter keeps, it keeps with the masked attributes gone, at every depth and
   * under recursion, if and only if no required row is mistaken for a stub.
   */
  lemma {:induction false} RedactedResultKeptIff(masked: set<nat>, s: Shape, j: Json)
    requires ShapeOk(s) && CheckPull(masked, s) && Filter(s, j).Some?
    ensures Filter(s, Strip(masked, s, j)).Some? <==> Survives(masked, s, j)
    decreases j, 1
  {
    if j.Obj? && !IsStub(j) {
      SelfSuffix(s, s);
      RedactedFieldsKept(masked, s, s, j, Strip(masked, s, j));
    }
  }

  /** The shape's own fields are what its keys name. */
  predicate Names(s: Shape, fields: Shape)
    decreases fields
  {
    fields.With? ==> FieldAt(s, fields.key) == Some(fields.field) && Names(s, fields.rest)
  }

  lemma {:induction false} NamesWider(s: Shape, fields: Shape)
    requires s.With? && !HasKey(fields, s.key) && Names(s.rest, fields)
    ensures Names(s, fields)
    decreases fields
  {
    if fields.With? {
      NamesWider(s, fields.rest);
    }
  }

  lemma {:induction false} SelfSuffix(s: Shape, whole: Shape)
    requires FieldsOk(s) && s == whole
    ensures Names(s, s)
    decreases s
  {
    if s.With? {
      SelfSuffix(s.rest, whole.rest);
      NamesWider(s, s.rest);
    }
  }

  lemma {:induction false} RedactedFieldsKept(masked: set<nat>, s: Shape, fields: Shape, j: Json, k: Json)
    requires ShapeOk(s) && FieldsOk(fields) && CheckPull(masked, s) && CheckPull(masked, fields) && Names(s, fields)
    requires j.Obj? && !IsStub(j) && k == Strip(masked, s, j)
    requires FilterFields(s, fields, j).Some?
    ensures FilterFields(s, fields, k).Some? <==> FieldsSurvive(masked, fields, j)
    decreases j, 0, fields
  {
    if fields.With? {
      var key, f := fields.key, fields.field;
      RedactedFieldsKept(masked, s, fields.rest, j, k);
      if !IsMasked(masked, f) && key in j.fields {
        RedactedKeyKept(masked, s, f, j.fields[key]);
      }
    }
  }

  lemma {:induction false} RedactedKeyKept(masked: set<nat>, s: Shape, f: Field, j: Json)
    requires ShapeOk(s) && FieldOk(f) && CheckPull(masked, s) && (f.sub.Nested? ==> CheckPull(masked, f.sub.shape))
    requires (if IsPresent(j) then Present(s, f, j) else Absent(f)).Some?
    ensures var k := StripKey(masked, s, Some(f), j);
      (if IsPresent(k) then Present(s, f, k) else Absent(f)).Some? <==>
        (Demanded(f) && f.sub.Nested? ==> Survives(masked, f.sub.shape, j))
    decreases j, 3
  {
    if IsPresent(j) && f.sub.Nested? && !Many(f) && FilterSub(s, f.sub, j).Some? {
      assert ShapeOk(f.sub.shape);
      RedactedResultKeptIff(masked, f.sub.shape, j);
    }
  }

  /** Under the shape, the stub's key appears in stubs, and in rows that have an id to be named by. */
  predicate Plain(s: Shape, j: Json)
    decreases j, 1
  {
    j.Obj? && !IsStub(j) ==>
      (ID in j.fields ==> IdKey(s).Some?) &&
      forall key :: key in j.fields ==> PlainKey(s, FieldAt(s, key), j.fields[key])
  }

  predicate PlainKey(enclosing: Shape, f: Option<Field>, j: Json)
    decreases j, 3
  {
    f.Some? && !f.value.sub.Scalar? ==>
      if Many(f.value) && j.Arr? then forall i :: 0 <= i < |j.items| ==> PlainSub(enclosing, f.value.sub, j.items[i])
      else PlainSub(enclosing, f.value.sub, j)
  }

  predicate PlainSub(enclosing: Shape, sub: Sub, j: Json)
    requires !sub.Scalar?
    decreases j, 2
  {
    match sub
    case Wildcard => true
    case Again(_) => Plain(enclosing, j)
    case Nested(s) => Plain(s, j)
  }

  lemma {:induction false} PlainSurvives(masked: set<nat>, s: Shape, j: Json)
    requires FieldsOk(s) && Plain(s, j)
    ensures Survives(masked, s, j)
    decreases j, 1
  {
    if j.Obj? && !IsStub(j) {
      assert IsStub(Strip(masked, s, j)) ==> ID in j.fields;
      SelfSuffix(s, s);
      PlainFieldsSurvive(masked, s, s, j);
    }
  }

  lemma {:induction false} PlainFieldsSurvive(masked: set<nat>, s: Shape, fields: Shape, j: Json)
    requires FieldsOk(fields) && Names(s, fields) && j.Obj? && !IsStub(j) && Plain(s, j)
    ensures FieldsSurvive(masked, fields, j)
    decreases j, 0, fields
  {
    if fields.With? {
      var key, f := fields.key, fields.field;
      PlainFieldsSurvive(masked, s, fields.rest, j);
      if Demanded(f) && f.sub.Nested? && key in j.fields {
        assert PlainKey(s, Some(f), j.fields[key]);
        assert FieldOk(f) && ShapeOk(f.sub.shape);
        PlainSurvives(masked, f.sub.shape, j.fields[key]);
      }
    }
  }

  /** Redacting a plain result never deletes its row. */
  lemma RedactedResultIsKept(masked: set<nat>, s: Shape, j: Json)
    requires ShapeOk(s) && CheckPull(masked, s) && Plain(s, j) && Filter(s, j).Some?
    ensures Filter(s, Strip(masked, s, j)).Some?
  {
    PlainSurvives(masked, s, j);
    RedactedResultKeptIff(masked, s, j);
  }

  /** The family it deletes: a number keyed `:db/id`, no id, and everything else hidden. */
  lemma NamelessStubIsDropped()
    ensures var s := With(ID, Of(NAME, Required, Scalar), With("nick", Of(NICK, Optional, Scalar), Empty));
      var j := Obj(map[ID := Lit(Num(7)), "nick" := Lit(Str("Al"))]);
      ShapeOk(s) && CheckPull({2002}, s) && Filter(s, j).Some? && Filter(s, Strip({2002}, s, j)).None?
  {
    var rest := With("nick", Of(NICK, Optional, Scalar), Empty);
    var s := With(ID, Of(NAME, Required, Scalar), rest);
    var j := Obj(map[ID := Lit(Num(7)), "nick" := Lit(Str("Al"))]);
    assert !HasKey(rest, ID) && FieldsOk(rest);
    assert "nick" in j.fields && !IsStub(j);
    assert FilterFields(s, rest.rest, j).Some? && FilterFields(s, rest, j).Some? && FilterFields(s, s, j).Some?;
    var k := Strip({2002}, s, j);
    assert FieldAt(rest, "nick").Some? && FieldAt(s, "nick") == Some(rest.field);
    assert k.fields.Keys == {ID};
    assert FieldAt(s, ID) == Some(s.field);
    assert StripKey({2002}, s, FieldAt(s, ID), j.fields[ID]) == j.fields[ID];
    assert k.fields[ID] == StripKey({2002}, s, FieldAt(s, ID), j.fields[ID]);
    assert IdKey(rest.rest).None? && IdKey(rest).None?;
  }

  // ---- and exactly when a pulled row survives ------------------------------------------------------

  /** The field shows nothing of `e`, masked or empty. */
  predicate Gone(o: Engine, db: Db, masked: set<nat>, e: nat, f: Field) {
    IsMasked(masked, f) || Raw(o, db, e, f).Undefined?
  }

  /** Besides what is keyed `:db/id`, these fields show nothing of `e`. */
  predicate OnlyIdShows(o: Engine, db: Db, masked: set<nat>, e: nat, fields: Shape) {
    fields.With? ==>
      (fields.key == ID || Gone(o, db, masked, e, fields.field)) &&
      OnlyIdShows(o, db, masked, e, fields.rest)
  }

  /** And what is keyed `:db/id` is a number that stays. */
  predicate IdShowsNumber(o: Engine, db: Db, masked: set<nat>, e: nat, s: Shape) {
    FieldAt(s, ID).Some? && !IsMasked(masked, FieldAt(s, ID).value) &&
    Raw(o, db, e, FieldAt(s, ID).value).Lit? && Raw(o, db, e, FieldAt(s, ID).value).value.Num?
  }

  /** The data behind a row, along its required references: no row is left bare without an id to be named by. */
  predicate RowSurvives(o: Engine, db: Db, masked: set<nat>, e: nat, s: Shape)
    decreases s, 1
  {
    Reads(o, db, e, s) ==>
      if OnlyIdShows(o, db, masked, e, s) && IdShowsNumber(o, db, masked, e, s) then IdKey(s).Some?
      else ReferencesSurvive(o, db, masked, e, s)
  }

  predicate ReferencesSurvive(o: Engine, db: Db, masked: set<nat>, e: nat, fields: Shape)
    decreases fields, 0
  {
    fields.With? ==>
      (Demanded(fields.field) && fields.field.sub.Nested? ==>
         var es := Elems(db, e, fields.field);
         es != [] && es[0].Ref? ==> RowSurvives(o, db, masked, es[0].eid, fields.field.sub.shape)) &&
      ReferencesSurvive(o, db, masked, e, fields.rest)
  }

  lemma {:induction false} NoKeyNoField(s: Shape, key: string)
    ensures FieldAt(s, key).Some? <==> HasKey(s, key)
  {
    if s.With? {
      NoKeyNoField(s.rest, key);
    }
  }

  /** Key by key, a record holds what the index answers for the field of that key. */
  lemma {:induction false} RecordAt(o: Engine, db: Db, e: nat, s: Shape, key: string)
    requires FieldsOk(s)
    ensures var f := FieldAt(s, key);
      At(Obj(Record(o, db, e, s)), key) == if f.Some? then Raw(o, db, e, f.value) else Undefined
    ensures key in Record(o, db, e, s) ==> !Record(o, db, e, s)[key].Undefined?
  {
    if s.With? {
      RecordAt(o, db, e, s.rest, key);
      NoKeyNoField(s.rest, s.key);
      RecordKeys(o, db, e, s.rest);
    }
  }

  ghost predicate OthersGone(o: Engine, db: Db, masked: set<nat>, e: nat, s: Shape) {
    forall key :: FieldAt(s, key).Some? && key != ID ==> Gone(o, db, masked, e, FieldAt(s, key).value)
  }

  lemma {:induction false} OnlyIdIff(o: Engine, db: Db, masked: set<nat>, e: nat, s: Shape)
    requires FieldsOk(s)
    ensures OnlyIdShows(o, db, masked, e, s) <==> OthersGone(o, db, masked, e, s)
    decreases s
  {
    if s.With? {
      OnlyIdIff(o, db, masked, e, s.rest);
      NoKeyNoField(s.rest, s.key);
      assert FieldAt(s, s.key) == Some(s.field);
      if OthersGone(o, db, masked, e, s) {
        forall key | FieldAt(s.rest, key).Some? && key != ID
          ensures Gone(o, db, masked, e, FieldAt(s.rest, key).value)
        {
          assert FieldAt(s, key) == FieldAt(s.rest, key);
        }
      } else {
        var key :| FieldAt(s, key).Some? && key != ID && !Gone(o, db, masked, e, FieldAt(s, key).value);
        assert key != s.key ==> FieldAt(s.rest, key).Some?;
      }
    }
  }

  lemma StripLit(masked: set<nat>, s: Shape, f: Option<Field>, j: Json)
    ensures j.Lit? ==> StripKey(masked, s, f, j) == j
    ensures j.Obj? ==> StripKey(masked, s, f, j).Obj?
    ensures !j.Obj? && !j.Arr? ==> StripKey(masked, s, f, j) == j
    ensures j.Arr? ==> StripKey(masked, s, f, j).Arr?
  {
    if f.Some? && !f.value.sub.Scalar? {
      assert !j.Obj? ==> StripSub(masked, s, f.value.sub, j) == j;
      assert j.Obj? ==> StripSub(masked, s, f.value.sub, j).Obj?;
    }
  }

  /** What of a row's keys redaction leaves. */
  lemma LeftKeys(o: Engine, db: Db, masked: set<nat>, e: nat, s: Shape, key: string)
    requires FieldsOk(s) && !LooksLikeStub(o, db, e, s)
    ensures var k := Strip(masked, s, Obj(Record(o, db, e, s)));
      && k.Obj?
      && (key in k.fields <==> FieldAt(s, key).Some? && !Gone(o, db, masked, e, FieldAt(s, key).value))
      && (key in k.fields ==>
            k.fields[key] == StripKey(masked, s, FieldAt(s, key), Raw(o, db, e, FieldAt(s, key).value)))
  {
    RecordAt(o, db, e, s, key);
  }

  /** The redacted row is taken for a stub exactly when all it shows is a number keyed `:db/id`. */
  lemma BareIff(o: Engine, db: Db, masked: set<nat>, e: nat, s: Shape)
    requires FieldsOk(s) && !LooksLikeStub(o, db, e, s)
    ensures IsStub(Strip(masked, s, Obj(Record(o, db, e, s)))) <==>
      OnlyIdShows(o, db, masked, e, s) && IdShowsNumber(o, db, masked, e, s)
  {
    var k, f := Strip(masked, s, Obj(Record(o, db, e, s))), FieldAt(s, ID);
    OnlyIdIff(o, db, masked, e, s);
    LeftKeys(o, db, masked, e, s, ID);
    if f.Some? {
      StripLit(masked, s, f, Raw(o, db, e, f.value));
    }
    if IsStub(k) {
      forall key | FieldAt(s, key).Some? && key != ID ensures Gone(o, db, masked, e, FieldAt(s, key).value) {
        LeftKeys(o, db, masked, e, s, key);
        assert key !in k.fields.Keys;
      }
    } else if OthersGone(o, db, masked, e, s) && ID in k.fields {
      forall key ensures key in k.fields.Keys <==> key in {ID} {
        LeftKeys(o, db, masked, e, s, key);
      }
      assert k.fields.Keys == {ID};
    }
  }

  lemma {:induction false} ReferencesSurviveIff(
      o: Engine, db: Db, masked: set<nat>, e: nat, s: Shape, fields: Shape, row: Json)
    requires FieldsOk(fields) && DbFits(db, fields) && row.Obj? && Carries(o, db, e, fields, row)
    requires forall key :: key in row.fields ==> !row.fields[key].Undefined?
    ensures FieldsSurvive(masked, fields, row) <==> ReferencesSurvive(o, db, masked, e, fields)
    decreases fields, 0
  {
    if fields.With? {
      var key, f := fields.key, fields.field;
      ReferencesSurviveIff(o, db, masked, e, s, fields.rest, row);
      if Demanded(f) && f.sub.Nested? {
        OneElem(o, db, e, f);
        var es := Elems(db, e, f);
        if es != [] && es[0].Ref? {
          RowSurvivesIff(o, db, masked, es[0].eid, f.sub.shape);
          assert IsStub(Stub(es[0].eid));
        }
      }
    }
  }

  lemma {:induction false} RowSurvivesIff(o: Engine, db: Db, masked: set<nat>, e: nat, s: Shape)
    requires ShapeOk(s) && DbFits(db, s)
    ensures Found(o, db, e, s) ==>
      (Survives(masked, s, Obj(Record(o, db, e, s))) <==> RowSurvives(o, db, masked, e, s))
    decreases s, 1
  {
    if Reads(o, db, e, s) {
      var row := Obj(Record(o, db, e, s));
      BareIff(o, db, masked, e, s);
      RecordCarries(o, db, e, s, row);
      forall key | key in row.fields ensures !row.fields[key].Undefined? {
        RecordAt(o, db, e, s, key);
      }
      ReferencesSurviveIff(o, db, masked, e, s, s, row);
    }
  }

  /** A pulled row that is kept is kept redacted if and only if no required row of its data is left bare. */
  lemma RedactedPullKeptIff(o: Engine, db: Db, masked: set<nat>, e: nat, s: Shape)
    requires ShapeOk(s) && DbFits(db, s) && CheckPull(masked, s) && Kept(o, db, e, s)
    ensures Filter(s, Strip(masked, s, Pull.Pull(o, db, e, s).value)).Some? <==> RowSurvives(o, db, masked, e, s)
  {
    RedactedResultKeptIff(masked, s, Pull.Pull(o, db, e, s).value);
    RowSurvivesIff(o, db, masked, e, s);
  }

  // ---- redacting the database -----------------------------------------------------------------

  /** The facts a reader is left with: a masked attribute shows only where `may` lets it. */
  function Redact(db: Db, masked: set<nat>, may: (nat, nat) -> bool): Db {
    if db == [] then []
    else
      (if db[0].a in masked && !may(db[0].e, db[0].a) then [] else [db[0]]) + Redact(db[1..], masked, may)
  }

  lemma {:induction false} RedactKeeps(db: Db, masked: set<nat>, may: (nat, nat) -> bool, f: Fact)
    ensures f in Redact(db, masked, may) <==> f in db && (f.a in masked ==> may(f.e, f.a))
  {
    if db != [] {
      RedactKeeps(db[1..], masked, may, f);
      assert db == [db[0]] + db[1..];
    }
  }

  lemma {:induction false} RedactedElems(db: Db, masked: set<nat>, may: (nat, nat) -> bool, e: nat, f: Field)
    requires f.attr.UserAttr?
    ensures |Elems(Redact(db, masked, may), e, f)| <= |Elems(db, e, f)|
    ensures !IsMasked(masked, f) ==> Elems(Redact(db, masked, may), e, f) == Elems(db, e, f)
  {
    if db != [] {
      RedactedElems(db[1..], masked, may, e, f);
      var left := Redact(db[1..], masked, may);
      assert [] + left == left && ([db[0]] + left)[1..] == left;
    }
  }

  lemma {:induction false} RedactedFits(db: Db, masked: set<nat>, may: (nat, nat) -> bool, s: Shape)
    requires DbFits(db, s)
    ensures DbFits(Redact(db, masked, may), s)
    decreases s
  {
    if s.With? {
      var f, left := s.field, Redact(db, masked, may);
      if f.attr.UserAttr? {
        forall e: nat ensures |Elems(left, e, f)| <= |Elems(db, e, f)| {
          RedactedElems(db, masked, may, e, f);
        }
        forall e, v | Fact(e, f.attr.id, v) in left ensures Fact(e, f.attr.id, v) in db {
          RedactKeeps(db, masked, may, Fact(e, f.attr.id, v));
        }
      }
      if f.sub.Nested? {
        RedactedFits(db, masked, may, f.sub.shape);
      }
      RedactedFits(db, masked, may, s.rest);
    }
  }

  /** An accepted shape demands nothing masked, so redaction leaves its demands as they were. */
  lemma {:induction false} RedactedDemands(db: Db, masked: set<nat>, may: (nat, nat) -> bool, e: nat, s: Shape)
    requires FieldsOk(s) && DbFits(db, s) && CheckPull(masked, s)
    ensures Sat(Redact(db, masked, may), e, s) <==> Sat(db, e, s)
    decreases s
  {
    if s.With? {
      var f, left := s.field, Redact(db, masked, may);
      RedactedDemands(db, masked, may, e, s.rest);
      if Demanded(f) {
        RedactedElems(db, masked, may, e, f);
        if f.sub.Nested? {
          assert FieldOk(f) && ShapeOk(f.sub.shape);
          RedactedFits(db, masked, may, s);
          SatThroughElem(db, e, f);
          SatThroughElem(left, e, f);
          if Elems(db, e, f) != [] {
            RedactedDemands(db, masked, may, Elems(db, e, f)[0].eid, f.sub.shape);
          }
        } else {
          ValuesAreElems(db, e, f);
          ValuesAreElems(left, e, f);
        }
      }
    }
  }

  /**
   * Redacting the database instead of the result: the peer's rows stay exactly
   * the same, and the client keeps one of them exactly when its required
   * references are still anchored in what the reader is left with. An accepted
   * shape can lose that: a required reference whose shape is all optional
   * fields, every one of them redacted, takes its row along.
   */
  lemma RedactionKeepsRows(
      o: Engine, db: Db, masked: set<nat>, may: (nat, nat) -> bool, root: nat, e: nat, s: Shape, n: nat)
    requires ShapeOk(s) && DbFits(db, s) && CheckPull(masked, s) && root < n
    ensures var left, clauses := Redact(db, masked, may), RequiredClauses(root, s, n).0;
      && (Satisfies(left, clauses, root, e) <==> Satisfies(db, clauses, root, e))
      && (Satisfies(db, clauses, root, e) ==> (Kept(o, left, e, s) <==> AnchoredRow(o, left, e, s)))
  {
    var left := Redact(db, masked, may);
    RedactedFits(db, masked, may, s);
    RedactedDemands(db, masked, may, e, s);
    ClausesMeanDemands(db, root, e, s, n);
    ClausesMeanDemands(left, root, e, s, n);
    ClausesAndFilterAgree(o, left, root, e, s, n);
  }

  /** The family that loses it: an owner whose only selected field is optional, and hidden. */
  lemma RedactionCanDropARow(o: Engine)
    ensures var s := With("owner", Of(OWNER, Required, Nested(With("nick", Of(NICK, Optional, Scalar), Empty))), Empty);
      var db := [Fact(1001, 2000, Ref(1002)), Fact(1002, 2002, Str("Al"))];
      var left := Redact(db, {2002}, (_, _) => false);
      ShapeOk(s) && CheckPull({2002}, s) && Kept(o, db, 1001, s) && !Kept(o, left, 1001, s)
  {
    var inner := With("nick", Of(NICK, Optional, Scalar), Empty);
    var s := With("owner", Of(OWNER, Required, Nested(inner)), Empty);
    var db := [Fact(1001, 2000, Ref(1002)), Fact(1002, 2002, Str("Al"))];
    var left := Redact(db, {2002}, (_, _) => false);
    assert left == [db[0]];
    CellsFit(db, s.field);
    CellsFit(db, inner.field);
    assert ShapeOk(inner) && DbFits(db, inner) && DbFits(db, s);
    RedactedFits(db, {2002}, (_, _) => false, s);
    assert Elems(db, 1001, s.field) == [Ref(1002)] && Elems(left, 1001, s.field) == [Ref(1002)];
    assert Elems(db, 1002, inner.field) == [Str("Al")] && Elems(left, 1002, inner.field) == [];
    assert Found(o, db, 1002, inner) && !Found(o, left, 1002, inner);
    RowKept(o, db, 1001, s);
    RowKept(o, left, 1001, s);
  }
}

/** The peer's clauses and the client's filter: where they decide the same rows. */
module Agreement {
  import opened Datoms
  import opened Shapes
  import opened Pull
  import opened FilterPull
  import opened Clauses

  /** The row survives both halves of a pull: the peer answers, and the client's filter keeps the answer. */
  predicate Kept(o: Engine, db: Db, e: nat, s: Shape) {
    var row := Pull.Pull(o, db, e, s);
    row.Some? && Filter(s, row.value).Some?
  }

  // ---- what the filter asks of the data ---------------------------------------------------

  predicate PassesField(o: Engine, db: Db, e: nat, f: Field)
    decreases f, 1
  {
    Demanded(f) && !f.sub.Again? ==>
      var es := Elems(db, e, f);
      es != [] && (f.sub.Nested? ==> es[0].Ref? && Lands(o, db, es[0].eid, f))
  }

  /** The pulled row is the engine's stub to the filter: its one key is `:db/id`. */
  predicate LooksLikeStub(o: Engine, db: Db, e: nat, s: Shape) {
    IsStub(Obj(Record(o, db, e, s)))
  }

  /** The pull answers with a row, and the filter reads it as one. */
  predicate Reads(o: Engine, db: Db, e: nat, s: Shape) {
    Found(o, db, e, s) && !LooksLikeStub(o, db, e, s)
  }

  /** A stub, the engine's or a lookalike, is kept under the shape's id; a backlink to nothing leaves none. */
  predicate KeepsStub(o: Engine, db: Db, t: nat, f: Field)
    requires f.sub.Nested?
  {
    IdKey(f.sub.shape).Some? && (Found(o, db, t, f.sub.shape) || !f.reverse)
  }

  /** The row at the other end is kept, or its stub is. */
  predicate Lands(o: Engine, db: Db, t: nat, f: Field)
    requires f.sub.Nested?
    decreases f, 0
  {
    if Reads(o, db, t, f.sub.shape) then Passes(o, db, t, f.sub.shape) else KeepsStub(o, db, t, f)
  }

  predicate Passes(o: Engine, db: Db, e: nat, s: Shape)
    decreases s
  {
    s.With? ==> PassesField(o, db, e, s.field) && Passes(o, db, e, s.rest)
  }

  predicate RowPasses(o: Engine, db: Db, e: nat, s: Shape) {
    if LooksLikeStub(o, db, e, s) then IdKey(s).Some? else Passes(o, db, e, s)
  }

  predicate Carries(o: Engine, db: Db, e: nat, s: Shape, row: Json) {
    s.With? ==> At(row, s.key) == Raw(o, db, e, s.field) && Carries(o, db, e, s.rest, row)
  }

  lemma {:induction false} RecordKeys(o: Engine, db: Db, e: nat, s: Shape)
    ensures forall key :: key in Record(o, db, e, s) ==> HasKey(s, key)
  {
    if s.With? {
      RecordKeys(o, db, e, s.rest);
    }
  }

  lemma {:induction false} NoIdKeyNamed(s: Shape)
    requires NoIdKeyed(s)
    ensures !HasKey(s, ID)
  {
    if s.With? {
      NoIdKeyNamed(s.rest);
    }
  }

  lemma {:induction false} RecordCarries(o: Engine, db: Db, e: nat, s: Shape, row: Json)
    requires FieldsOk(s)
    requires forall key :: HasKey(s, key) ==> At(row, key) == At(Obj(Record(o, db, e, s)), key)
    ensures Carries(o, db, e, s, row)
  {
    if s.With? {
      RecordKeys(o, db, e, s.rest);
      assert HasKey(s, s.key);
      forall key | HasKey(s.rest, key) ensures At(row, key) == At(Obj(Record(o, db, e, s.rest)), key) {
        assert HasKey(s, key);
      }
      RecordCarries(o, db, e, s.rest, row);
    }
  }

  /** A referrer has a datom: the one it refers with. */
  lemma ReferrerHasDatoms(db: Db, e: nat, a: nat, v: Value)
    requires v in Referrers(db, e, a)
    ensures v.Ref? && HasDatoms(db, v.eid)
  {
    ReferrersAreFacts(db, e, a, v);
    var i :| 0 <= i < |db| && db[i] == Fact(v.eid, a, Ref(e));
  }

  lemma OneElem(o: Engine, db: Db, e: nat, f: Field)
    requires f.attr.UserAttr? && !Many(f) && |Elems(db, e, f)| <= 1 && !f.mode.Defaulted?
    ensures var es := Elems(db, e, f);
      Raw(o, db, e, f) ==
        if es == [] || !IsPresent(Elem(o, db, e, f, es[0])) then Undefined else Elem(o, db, e, f, es[0])
  {
    var es := Elems(db, e, f);
    if es != [] {
      assert es == [es[0]];
      assert EachElem(o, db, e, f, es[1..]) == [];
    }
  }

  lemma NestedKept(o: Engine, db: Db, e: nat, enclosing: Shape, f: Field, t: nat)
    requires f.sub.Nested?
    requires Filter(f.sub.shape, Obj(Record(o, db, t, f.sub.shape))).Some? <==> RowPasses(o, db, t, f.sub.shape)
    ensures var raw := Elem(o, db, e, f, Ref(t));
      (IsPresent(raw) && FilterSub(enclosing, f.sub, raw).Some?) <==> Lands(o, db, t, f)
  {
    if Found(o, db, t, f.sub.shape) {
    } else {
      assert IsStub(Stub(t));
    }
  }

  lemma {:induction false} FieldKept(o: Engine, db: Db, e: nat, enclosing: Shape, f: Field)
    requires FieldOk(f) && FieldFits(db, f)
    ensures var raw := Raw(o, db, e, f);
      (if IsPresent(raw) then Present(enclosing, f, raw) else Absent(f)).Some? <==> PassesField(o, db, e, f)
    decreases f
  {
    if Demanded(f) {
      OneElem(o, db, e, f);
      var es := Elems(db, e, f);
      if es != [] {
        assert es[0] in es;
        if f.reverse {
          ReferrerHasDatoms(db, e, f.attr.id, es[0]);
        } else {
          ValuesAreFacts(db, e, f.attr.id, es[0]);
        }
        if f.sub.Nested? {
          RowKept(o, db, es[0].eid, f.sub.shape);
          NestedKept(o, db, e, enclosing, f, es[0].eid);
        }
      }
    }
  }

  lemma {:induction false} FieldsKept(o: Engine, db: Db, e: nat, enclosing: Shape, s: Shape, row: Json)
    requires FieldsOk(s) && DbFits(db, s) && Carries(o, db, e, s, row)
    ensures FilterFields(enclosing, s, row).Some? <==> Passes(o, db, e, s)
    decreases s, 0
  {
    if s.With? {
      FieldKept(o, db, e, enclosing, s.field);
      FieldsKept(o, db, e, enclosing, s.rest, row);
    }
  }

  lemma {:induction false} RowKept(o: Engine, db: Db, e: nat, s: Shape)
    requires ShapeOk(s) && DbFits(db, s)
    ensures Filter(s, Obj(Record(o, db, e, s))).Some? <==> RowPasses(o, db, e, s)
    decreases s, 1
  {
    var row := Obj(Record(o, db, e, s));
    RecordCarries(o, db, e, s, row);
    FieldsKept(o, db, e, s, s, row);
  }

  // ---- the exact conditions ---------------------------------------------------------------

  /**
   * The pull answers and, along the required references, so does the pull of
   * every entity reached; one that does not still leaves a stub its shape has
   * an id for.
   */
  predicate AnchoredRow(o: Engine, db: Db, e: nat, s: Shape) {
    Found(o, db, e, s) && if LooksLikeStub(o, db, e, s) then IdKey(s).Some? else Anchored(o, db, e, s)
  }

  predicate Anchored(o: Engine, db: Db, e: nat, s: Shape)
    decreases s
  {
    s.With? ==> AnchoredField(o, db, e, s.field) && Anchored(o, db, e, s.rest)
  }

  predicate AnchoredField(o: Engine, db: Db, e: nat, f: Field)
    decreases f
  {
    Demanded(f) && f.sub.Nested? ==>
      forall v :: v in Elems(db, e, f) && v.Ref? ==>
        if Reads(o, db, v.eid, f.sub.shape) then Anchored(o, db, v.eid, f.sub.shape) else KeepsStub(o, db, v.eid, f)
  }

  /**
   * Along the required references, every entity reached answers the pull of
   * its shape or has a shape that asks nothing of it; and recursion required
   * by its cardinality goes at least one hop.
   */
  predicate RootedRow(o: Engine, db: Db, e: nat, s: Shape) {
    if LooksLikeStub(o, db, e, s) then AsksNothing(db, e, s) else Rooted(o, db, e, s)
  }

  predicate Rooted(o: Engine, db: Db, e: nat, s: Shape)
    decreases s
  {
    s.With? ==> RootedField(o, db, e, s.field) && Rooted(o, db, e, s.rest)
  }

  predicate RootedField(o: Engine, db: Db, e: nat, f: Field)
    decreases f
  {
    Demanded(f) ==>
      (f.sub.Again? ==> Elems(db, e, f) != []) &&
      (f.sub.Nested? ==>
         forall v :: v in Elems(db, e, f) && v.Ref? ==>
           if Reads(o, db, v.eid, f.sub.shape) then Rooted(o, db, v.eid, f.sub.shape)
           else AsksNothing(db, v.eid, f.sub.shape))
  }

  /** Nothing is required here but backlinks whose own shapes ask nothing. */
  predicate AsksNothing(db: Db, e: nat, s: Shape)
    decreases s
  {
    s.With? ==>
      (Demanded(s.field) ==>
         s.field.reverse && s.field.sub.Nested? &&
         exists v :: v in Elems(db, e, s.field) && v.Ref? && AsksNothing(db, v.eid, s.field.sub.shape)) &&
      AsksNothing(db, e, s.rest)
  }

  lemma EdgesAreElems(db: Db, e: nat, f: Field, t: nat)
    requires f.attr.UserAttr?
    ensures Edge(db, e, f, t) <==> Ref(t) in Elems(db, e, f)
  {
    ValuesAreFacts(db, e, f.attr.id, Ref(t));
    ReferrersAreFacts(db, e, f.attr.id, Ref(t));
  }

  lemma ValuesAreElems(db: Db, e: nat, f: Field)
    requires f.attr.UserAttr?
    ensures HasValue(db, e, f) <==> Elems(db, e, f) != []
  {
    if HasValue(db, e, f) {
      if f.reverse {
        var t: nat :| Edge(db, e, f, t);
        EdgesAreElems(db, e, f, t);
      } else {
        var v :| Fact(e, f.attr.id, v) in db;
        ValuesAreFacts(db, e, f.attr.id, v);
      }
    }
    if Elems(db, e, f) != [] {
      var v := Elems(db, e, f)[0];
      assert v in Elems(db, e, f);
      ValuesAreFacts(db, e, f.attr.id, v);
      ReferrersAreFacts(db, e, f.attr.id, v);
      if f.reverse {
        assert Edge(db, e, f, v.eid);
      }
    }
  }

  /** What a nested card-one field of a fitting database leads to is the one entity there is. */
  lemma SatThroughElem(db: Db, e: nat, f: Field)
    requires Demanded(f) && f.sub.Nested? && FieldOk(f) && FieldFits(db, f)
    ensures var es := Elems(db, e, f);
      && (es != [] ==> es == [es[0]] && es[0].Ref?)
      && (SatField(db, e, f) <==> es != [] && Sat(db, es[0].eid, f.sub.shape))
  {
    var es := Elems(db, e, f);
    if es != [] {
      assert es == [es[0]] && es[0] in es;
      ValuesAreFacts(db, e, f.attr.id, es[0]);
      ReferrersAreFacts(db, e, f.attr.id, es[0]);
      EdgesAreElems(db, e, f, es[0].eid);
    }
    if SatField(db, e, f) {
      var t: nat :| Edge(db, e, f, t) && Sat(db, t, f.sub.shape);
      EdgesAreElems(db, e, f, t);
    }
  }

  lemma {:induction false} PassesMeansAnchored(o: Engine, db: Db, e: nat, s: Shape)
    requires FieldsOk(s) && DbFits(db, s) && Passes(o, db, e, s)
    ensures Anchored(o, db, e, s)
    decreases s
  {
    if s.With? {
      var f := s.field;
      if Demanded(f) && f.sub.Nested? {
        SatThroughElem(db, e, f);
        assert FieldOk(f) && ShapeOk(f.sub.shape);
        var t := Elems(db, e, f)[0].eid;
        assert PassesField(o, db, e, f) && Lands(o, db, t, f);
        if Reads(o, db, t, f.sub.shape) {
          PassesMeansAnchored(o, db, t, f.sub.shape);
        }
      }
      PassesMeansAnchored(o, db, e, s.rest);
    }
  }

  lemma {:induction false} SatAnchoredPasses(o: Engine, db: Db, e: nat, s: Shape)
    requires FieldsOk(s) && DbFits(db, s) && Sat(db, e, s) && Anchored(o, db, e, s)
    ensures Passes(o, db, e, s)
    decreases s
  {
    if s.With? {
      var f := s.field;
      if Demanded(f) && !f.sub.Again? {
        ValuesAreElems(db, e, f);
        if f.sub.Nested? {
          SatThroughElem(db, e, f);
          assert FieldOk(f) && ShapeOk(f.sub.shape);
          var t := Elems(db, e, f)[0].eid;
          assert Ref(t) in Elems(db, e, f);
          if Reads(o, db, t, f.sub.shape) {
            SatAnchoredPasses(o, db, t, f.sub.shape);
          }
        }
      }
      SatAnchoredPasses(o, db, e, s.rest);
    }
  }

  /** No attribute the shape names is there. */
  predicate Silent(o: Engine, db: Db, e: nat, s: Shape) {
    s.With? ==> (s.field.attr.UserAttr? ==> Raw(o, db, e, s.field).Undefined?) && Silent(o, db, e, s.rest)
  }

  lemma {:induction false} NotFoundIsSilent(o: Engine, db: Db, e: nat, s: Shape)
    requires !Found(o, db, e, s)
    ensures Silent(o, db, e, s)
  {
    if s.With? {
      NotFoundIsSilent(o, db, e, s.rest);
    }
  }

  lemma {:induction false} NothingRecorded(o: Engine, db: Db, e: nat, s: Shape)
    requires FieldsOk(s) && forall key :: key in Record(o, db, e, s) && HasKey(s, key) ==> IdKey(s) == Some(key)
    ensures Silent(o, db, e, s)
  {
    if s.With? {
      RecordKeys(o, db, e, s.rest);
      IdKeyIsKey(s.rest);
      assert HasKey(s, s.key);
      assert !Raw(o, db, e, s.field).Undefined? ==> s.key in Record(o, db, e, s);
      forall key | key in Record(o, db, e, s.rest) && HasKey(s.rest, key) ensures IdKey(s.rest) == Some(key) {
        assert HasKey(s, key) && key in Record(o, db, e, s);
      }
      NothingRecorded(o, db, e, s.rest);
    }
  }

  lemma {:induction false} IdRecorded(o: Engine, db: Db, e: nat, s: Shape)
    requires FieldsOk(s) && IdKey(s).Some?
    ensures IdKey(s).value in Record(o, db, e, s)
  {
    if !s.field.attr.IdAttr? {
      IdRecorded(o, db, e, s.rest);
    }
  }

  /** A lookalike that has an id is nothing but that id. */
  lemma LookalikeIsSilent(o: Engine, db: Db, e: nat, s: Shape)
    requires FieldsOk(s) && LooksLikeStub(o, db, e, s) && IdKey(s).Some?
    ensures Silent(o, db, e, s)
  {
    IdRecorded(o, db, e, s);
    NothingRecorded(o, db, e, s);
  }

  lemma {:induction false} SilentFields(o: Engine, db: Db, e: nat, s: Shape)
    requires FieldsOk(s) && DbFits(db, s) && Silent(o, db, e, s)
    ensures Sat(db, e, s) <==> AsksNothing(db, e, s)
    decreases s
  {
    if s.With? {
      var f := s.field;
      SilentFields(o, db, e, s.rest);
      if Demanded(f) {
        OneElem(o, db, e, f);
        ValuesAreElems(db, e, f);
        var es := Elems(db, e, f);
        if f.sub.Nested? {
          SatThroughElem(db, e, f);
          assert FieldOk(f) && ShapeOk(f.sub.shape);
          if es != [] && f.reverse {
            assert es[0] in es;
            NotFoundIsSilent(o, db, es[0].eid, f.sub.shape);
            SilentFields(o, db, es[0].eid, f.sub.shape);
          }
        } else if es != [] {
          ElemPresent(o, db, e, f, es[0]);
        }
      }
    }
  }

  lemma ElemPresent(o: Engine, db: Db, e: nat, f: Field, v: Value)
    requires f.attr.UserAttr? && v in Elems(db, e, f) && !f.sub.Nested?
    ensures IsPresent(Elem(o, db, e, f, v))
  {
    if f.reverse {
      ReferrerHasDatoms(db, e, f.attr.id, v);
    }
  }

  lemma {:induction false} SatMeansRooted(o: Engine, db: Db, e: nat, s: Shape)
    requires FieldsOk(s) && DbFits(db, s) && Sat(db, e, s) && Passes(o, db, e, s)
    ensures Rooted(o, db, e, s)
    decreases s
  {
    if s.With? {
      var f := s.field;
      if Demanded(f) {
        ValuesAreElems(db, e, f);
        if f.sub.Nested? {
          SatThroughElem(db, e, f);
          assert FieldOk(f) && ShapeOk(f.sub.shape);
          var t := Elems(db, e, f)[0].eid;
          assert PassesField(o, db, e, f) && Lands(o, db, t, f);
          if Reads(o, db, t, f.sub.shape) {
            SatMeansRooted(o, db, t, f.sub.shape);
          } else {
            if Found(o, db, t, f.sub.shape) {
              LookalikeIsSilent(o, db, t, f.sub.shape);
            } else {
              NotFoundIsSilent(o, db, t, f.sub.shape);
            }
            SilentFields(o, db, t, f.sub.shape);
          }
        }
      }
      SatMeansRooted(o, db, e, s.rest);
    }
  }

  lemma {:induction false} AskingNothingIsSat(db: Db, e: nat, s: Shape)
    requires FieldsOk(s) && AsksNothing(db, e, s)
    ensures Sat(db, e, s)
    decreases s
  {
    if s.With? {
      var f := s.field;
      if Demanded(f) {
        var v :| v in Elems(db, e, f) && v.Ref? && AsksNothing(db, v.eid, f.sub.shape);
        EdgesAreElems(db, e, f, v.eid);
        assert FieldOk(f) && ShapeOk(f.sub.shape);
        AskingNothingIsSat(db, v.eid, f.sub.shape);
      }
      AskingNothingIsSat(db, e, s.rest);
    }
  }

  lemma {:induction false} PassesRootedSat(o: Engine, db: Db, e: nat, s: Shape)
    requires FieldsOk(s) && DbFits(db, s) && Passes(o, db, e, s) && Rooted(o, db, e, s)
    ensures Sat(db, e, s)
    decreases s
  {
    if s.With? {
      var f := s.field;
      if Demanded(f) {
        ValuesAreElems(db, e, f);
        if f.sub.Nested? {
          SatThroughElem(db, e, f);
          assert FieldOk(f) && ShapeOk(f.sub.shape);
          var t := Elems(db, e, f)[0].eid;
          assert Ref(t) in Elems(db, e, f);
          if Reads(o, db, t, f.sub.shape) {
            assert PassesField(o, db, e, f) && Lands(o, db, t, f);
            PassesRootedSat(o, db, t, f.sub.shape);
          } else {
            AskingNothingIsSat(db, t, f.sub.shape);
          }
        }
      }
      PassesRootedSat(o, db, e, s.rest);
    }
  }

  /**
   * The peer's row set and the client's, for every shape the builders accept,
   * recursion and odd keys included: a row the clauses keep is kept by the filter exactly
   * when its required references are anchored, and a row the filter keeps
   * satisfies the clauses exactly when they are rooted.
   */
  lemma ClausesAndFilterAgree(o: Engine, db: Db, root: nat, e: nat, s: Shape, n: nat)
    requires ShapeOk(s) && DbFits(db, s) && root < n
    ensures var queried, kept := Satisfies(db, RequiredClauses(root, s, n).0, root, e), Kept(o, db, e, s);
      && (queried ==> (kept <==> AnchoredRow(o, db, e, s)))
      && (kept ==> (queried <==> RootedRow(o, db, e, s)))
  {
    ClausesMeanDemands(db, root, e, s, n);
    RowKept(o, db, e, s);
    if LooksLikeStub(o, db, e, s) {
      if IdKey(s).Some? {
        LookalikeIsSilent(o, db, e, s);
        SilentFields(o, db, e, s);
      }
    } else {
      FieldsAgree(o, db, e, s);
    }
  }

  lemma FieldsAgree(o: Engine, db: Db, e: nat, s: Shape)
    requires FieldsOk(s) && DbFits(db, s)
    ensures Sat(db, e, s) ==> (Passes(o, db, e, s) <==> Anchored(o, db, e, s))
    ensures Passes(o, db, e, s) ==> (Sat(db, e, s) <==> Rooted(o, db, e, s))
  {
    if Passes(o, db, e, s) {
      PassesMeansAnchored(o, db, e, s);
      if Rooted(o, db, e, s) {
        PassesRootedSat(o, db, e, s);
      }
      if Sat(db, e, s) {
        SatMeansRooted(o, db, e, s);
      }
    }
    if Sat(db, e, s) && Anchored(o, db, e, s) {
      SatAnchoredPasses(o, db, e, s);
    }
  }

  // ---- where they simply agree --------------------------------------------------------------

  /** Every required shape selects an id. */
  predicate Identified(s: Shape) {
    IdKey(s).Some? && FieldsIdentified(s)
  }

  predicate FieldsIdentified(s: Shape)
    decreases s
  {
    s.With? ==>
      (Demanded(s.field) && s.field.sub.Nested? ==>
         IdKey(s.field.sub.shape).Some? && FieldsIdentified(s.field.sub.shape)) &&
      FieldsIdentified(s.rest)
  }

  /** A card-one recursion edge that is not optional. */
  predicate DemandsRecursion(s: Shape)
    decreases s
  {
    s.With? &&
    ((Demanded(s.field) &&
      (s.field.sub.Again? || (s.field.sub.Nested? && DemandsRecursion(s.field.sub.shape)))) ||
     DemandsRecursion(s.rest))
  }

  ghost predicate NothingDangles(db: Db) {
    forall f :: f in db && f.v.Ref? ==> HasDatoms(db, f.v.eid)
  }

  lemma ElemHasDatoms(db: Db, e: nat, f: Field, v: Value)
    requires f.attr.UserAttr? && v in Elems(db, e, f) && v.Ref? && NothingDangles(db)
    ensures HasDatoms(db, v.eid)
  {
    if f.reverse {
      ReferrerHasDatoms(db, e, f.attr.id, v);
    } else {
      ValuesAreFacts(db, e, f.attr.id, v);
    }
  }

  lemma NamedRowReads(o: Engine, db: Db, e: nat, s: Shape)
    requires IdKey(s).Some? && HasDatoms(db, e) && NoIdKeyed(s)
    ensures Reads(o, db, e, s)
  {
    RecordKeys(o, db, e, s);
    NoIdKeyNamed(s);
    assert ID !in Record(o, db, e, s);
  }

  lemma {:induction false} IdentifiedHolds(o: Engine, db: Db, e: nat, s: Shape)
    requires NothingDangles(db) && FieldsIdentified(s) && NoIdKeyed(s)
    ensures Anchored(o, db, e, s)
    ensures !DemandsRecursion(s) ==> Rooted(o, db, e, s)
    decreases s
  {
    if s.With? {
      var f := s.field;
      IdentifiedHolds(o, db, e, s.rest);
      if Demanded(f) && f.sub.Nested? {
        forall v | v in Elems(db, e, f) && v.Ref?
          ensures Reads(o, db, v.eid, f.sub.shape) && Anchored(o, db, v.eid, f.sub.shape)
          ensures !DemandsRecursion(s) ==> Rooted(o, db, v.eid, f.sub.shape)
        {
          ElemHasDatoms(db, e, f, v);
          NamedRowReads(o, db, v.eid, f.sub.shape);
          IdentifiedHolds(o, db, v.eid, f.sub.shape);
        }
      }
    }
  }

  /** Shapes that select ids, over data without dangling references, drop the same rows on both sides. */
  lemma IdentifiedShapesAgree(o: Engine, db: Db, root: nat, e: nat, s: Shape, n: nat)
    requires ShapeOk(s) && DbFits(db, s) && root < n
    requires Identified(s) && NoIdKeyed(s) && NothingDangles(db) && HasDatoms(db, e)
    ensures Satisfies(db, RequiredClauses(root, s, n).0, root, e) ==> Kept(o, db, e, s)
    ensures !DemandsRecursion(s) ==>
      (Satisfies(db, RequiredClauses(root, s, n).0, root, e) <==> Kept(o, db, e, s))
  {
    ClausesAndFilterAgree(o, db, root, e, s, n);
    NamedRowReads(o, db, e, s);
    IdentifiedHolds(o, db, e, s);
  }

  // ---- where they do not ----------------------------------------------------------------------

  lemma {:induction false} OneValuePerCell(db: Db, e: nat, a: nat)
    requires forall i, j :: 0 <= i < j < |db| ==> db[i].e != db[j].e || db[i].a != db[j].a
    ensures |ValuesOf(db, e, a)| <= 1
  {
    if db != [] {
      OneValuePerCell(db[1..], e, a);
      if ValuesOf(db[1..], e, a) != [] {
        var v := ValuesOf(db[1..], e, a)[0];
        ValuesAreFacts(db[1..], e, a, v);
      }
    }
  }

  lemma CellsFit(db: Db, f: Field)
    requires forall i, j :: 0 <= i < j < |db| ==> db[i].e != db[j].e || db[i].a != db[j].a
    requires f.attr.UserAttr? && !f.reverse
    ensures forall e: nat :: |Elems(db, e, f)| <= 1
  {
    forall e: nat ensures |Elems(db, e, f)| <= 1 {
      OneValuePerCell(db, e, f.attr.id);
    }
  }

  /**
   * `{ owner: Todo.owner.select({ nick: User.nick.optional }) }`, on an owner
   * with a name and no nick: the clauses ask only for the owner, the pull of
   * the owner finds nothing, and the todo is dropped.
   */
  lemma NothingToShowIsDropped(o: Engine)
    ensures var s := With("owner", Of(OWNER, Required, Nested(With("nick", Of(NICK, Optional, Scalar), Empty))), Empty);
      var db := [Fact(1001, 2000, Ref(1002)), Fact(1002, 2001, Str("Ann"))];
      ShapeOk(s) && DbFits(db, s) && Satisfies(db, RequiredClauses(0, s, 1).0, 0, 1001) && !Kept(o, db, 1001, s)
  {
    var inner := With("nick", Of(NICK, Optional, Scalar), Empty);
    var s := With("owner", Of(OWNER, Required, Nested(inner)), Empty);
    var db := [Fact(1001, 2000, Ref(1002)), Fact(1002, 2001, Str("Ann"))];
    CellsFit(db, s.field);
    CellsFit(db, inner.field);
    assert ShapeOk(inner) && DbFits(db, inner);
    assert Edge(db, 1001, s.field, 1002) && Sat(db, 1002, inner);
    assert Elems(db, 1002, inner.field) == [];
    assert !Found(o, db, 1002, inner);
    assert Elems(db, 1001, s.field) == [Ref(1002)];
    ClausesMeanDemands(db, 0, 1001, s, 1);
    RowKept(o, db, 1001, s);
  }

  /**
   * `{ owner: Todo.owner.select({ id: User.id, name: User.name }) }`, on an
   * owner that is gone: the clauses drop the todo, and the filter keeps it
   * with a stub for an owner.
   */
  lemma GhostOwnerIsKept(o: Engine)
    ensures var inner := With("id", Of(IdAttr, Required, Scalar), With("name", Of(NAME, Required, Scalar), Empty));
      var s := With("owner", Of(OWNER, Required, Nested(inner)), Empty);
      var db := [Fact(1001, 2000, Ref(1002))];
      ShapeOk(s) && DbFits(db, s) && !Satisfies(db, RequiredClauses(0, s, 1).0, 0, 1001) && Kept(o, db, 1001, s)
  {
    var inner := With("id", Of(IdAttr, Required, Scalar), With("name", Of(NAME, Required, Scalar), Empty));
    var s := With("owner", Of(OWNER, Required, Nested(inner)), Empty);
    var db := [Fact(1001, 2000, Ref(1002))];
    CellsFit(db, s.field);
    CellsFit(db, inner.rest.field);
    assert DbFits(db, inner.rest);
    assert ShapeOk(inner) && DbFits(db, inner);
    assert Elems(db, 1001, s.field) == [Ref(1002)];
    assert !HasDatoms(db, 1002);
    assert Elems(db, 1002, inner.rest.field) == [];
    assert !Found(o, db, 1002, inner);
    assert !Sat(db, 1002, inner) by {
      ValuesAreElems(db, 1002, inner.rest.field);
    }
    SatThroughElem(db, 1001, s.field);
    ClausesMeanDemands(db, 0, 1001, s, 1);
    RowKept(o, db, 1001, s);
  }

  /**
   * A field keyed `:db/id` is mistaken for the engine's stub: a row that lacks
   * its required name is kept.
   */
  lemma IdKeyedRowIsTakenForAStub(o: Engine)
    ensures var s := With(ID, Of(IdAttr, Required, Scalar), With("name", Of(NAME, Required, Scalar), Empty));
      var db := [Fact(1001, 2002, Str("Al"))];
      ShapeOk(s) && DbFits(db, s) && !Satisfies(db, RequiredClauses(0, s, 1).0, 0, 1001) && Kept(o, db, 1001, s)
  {
    var s := With(ID, Of(IdAttr, Required, Scalar), With("name", Of(NAME, Required, Scalar), Empty));
    var db := [Fact(1001, 2002, Str("Al"))];
    assert db[0].e == 1001;
    CellsFit(db, s.rest.field);
    assert DbFits(db, s.rest);
    assert Elems(db, 1001, s.rest.field) == [];
    ValuesAreElems(db, 1001, s.rest.field);
    assert Raw(o, db, 1001, s.field) == Lit(Num(1001));
    assert Raw(o, db, 1001, s.rest.field) == Undefined;
    assert Record(o, db, 1001, s.rest) == map[];
    assert IsStub(Obj(Record(o, db, 1001, s)));
    ClausesMeanDemands(db, 0, 1001, s, 1);
  }
}

/** What a filtered row is of a result, field by field, said without the walk. */
module Selected {
  import opened Datoms
  import opened Shapes
  import opened FilterPull

  /** The elements of a collection field: those of an array, or the one lone value. */
  function Elements(raw: Json): seq<Json> {
    if raw.Arr? then raw.items else [raw]
  }

  /** `row` is what `s` selects of `result`. */
  ghost predicate Selects(s: Shape, result: Json, row: Json)
    decreases result, 1
  {
    if IsStub(result) then
      IdKey(s).Some? && row == Obj(map[IdKey(s).value := result.fields[ID]])
    else
      && (result.Obj? || result.Arr?) && row.Obj?
      && (forall key :: key in row.fields <==> HasKey(s, key))
      && (forall key :: HasKey(s, key) ==>
            if IsPresent(At(result, key)) then Shows(s, FieldAt(s, key), At(result, key), row.fields[key])
            else Lacks(FieldAt(s, key), row.fields[key]))
  }

  /**
   * What stands for a field the result lacks: its default, nothing if it is
   * optional, no elements if it is card-many, nothing where recursion ends.
   * A required value or row has nothing to stand for it.
   */
  predicate Lacks(f: Option<Field>, j: Json) {
    f.Some? &&
    if f.value.mode.Defaulted? then j == f.value.mode.value
    else if f.value.mode.Optional? then j == Undefined
    else if Many(f.value) then j == Arr([])
    else f.value.sub.Again? && j == Undefined
  }

  /** And what shows of one it has. */
  ghost predicate Shows(enclosing: Shape, f: Option<Field>, raw: Json, j: Json)
    decreases raw, 6
  {
    f.Some? &&
    if f.value.sub.Scalar? then j == if Many(f.value) then Arr(Elements(raw)) else raw
    else if Many(f.value) then j.Arr? && Holds(enclosing, f.value.sub, raw, j.items)
    else
      || Fits(enclosing, f.value.sub, raw, j)
      || ((f.value.mode.Optional? || f.value.sub.Again?) && j == Undefined && Misfit(enclosing, f.value.sub, raw))
  }

  /** A wildcard shows everything; `again` selects by the enclosing shape. */
  ghost predicate Fits(enclosing: Shape, sub: Sub, raw: Json, j: Json)
    decreases raw, 2
  {
    match sub
    case Scalar => false
    case Wildcard => IsPresent(raw) && j == raw
    case Again(_) => Selects(enclosing, raw, j)
    case Nested(s) => Selects(s, raw, j)
  }

  ghost predicate Misfit(enclosing: Shape, sub: Sub, raw: Json)
    decreases raw, 3
  {
    forall j :: !Fits(enclosing, sub, raw, j)
  }

  /** `kept` are the elements from `i` on that fit, each as what fits it, in order. */
  ghost predicate Picks(enclosing: Shape, sub: Sub, arr: Json, i: nat, kept: seq<Json>)
    requires arr.Arr? && i <= |arr.items|
    decreases arr, 4, |arr.items| - i
  {
    if i == |arr.items| then kept == []
    else if Misfit(enclosing, sub, arr.items[i]) then Picks(enclosing, sub, arr, i + 1, kept)
    else
      kept != [] && Fits(enclosing, sub, arr.items[i], kept[0]) && Picks(enclosing, sub, arr, i + 1, kept[1..])
  }

  /** A lone value is a collection of one. */
  ghost predicate Holds(enclosing: Shape, sub: Sub, raw: Json, kept: seq<Json>)
    decreases raw, 5
  {
    if raw.Arr? then Picks(enclosing, sub, raw, 0, kept)
    else if Misfit(enclosing, sub, raw) then kept == []
    else |kept| == 1 && Fits(enclosing, sub, raw, kept[0])
  }

  // ---- the walk answers exactly that ------------------------------------------------------------

  lemma {:induction false} FilterIff(s: Shape, result: Json, row: Json)
    requires FieldsOk(s)
    ensures Filter(s, result) == Some(row) <==> Selects(s, result, row)
    decreases result, 1
  {
    if IsStub(result) {
    } else if (result.Obj? || result.Arr?) && row.Obj? {
      FieldsIff(s, s, result, row.fields);
    }
  }

  /** The fields of a suffix of the shape. */
  ghost predicate FieldsSelected(enclosing: Shape, fields: Shape, result: Json, out: map<string, Json>)
  {
    && (forall key :: key in out <==> HasKey(fields, key))
    && (forall key :: HasKey(fields, key) ==>
          if IsPresent(At(result, key)) then Shows(enclosing, FieldAt(fields, key), At(result, key), out[key])
          else Lacks(FieldAt(fields, key), out[key]))
  }

  lemma {:induction false} FieldsIff(enclosing: Shape, fields: Shape, result: Json, out: map<string, Json>)
    requires FieldsOk(enclosing) && FieldsOk(fields) && !IsStub(result)
    ensures FilterFields(enclosing, fields, result) == Some(out) <==> FieldsSelected(enclosing, fields, result, out)
    decreases result, 0, fields
  {
    if fields.With? {
      var key, f, raw := fields.key, fields.field, At(result, fields.key);
      var more := FilterFields(enclosing, fields.rest, result);
      if more.Some? {
        FieldsIff(enclosing, fields.rest, result, more.value);
      }
      OneFiltered(enclosing, fields, result, out);
      if key in out {
        FieldsIff(enclosing, fields.rest, result, out - {key});
        if IsPresent(raw) {
          ShowsIff(enclosing, f, raw, out[key]);
        }
        OneField(enclosing, fields, result, out);
      }
    }
  }

  /** The filtered fields, one of them and the rest. */
  lemma OneFiltered(enclosing: Shape, fields: Shape, result: Json, out: map<string, Json>)
    requires fields.With?
    requires var more := FilterFields(enclosing, fields.rest, result); more.Some? ==> fields.key !in more.value
    ensures FilterFields(enclosing, fields, result) == Some(out) <==>
      && fields.key in out
      && FilterFields(enclosing, fields.rest, result) == Some(out - {fields.key})
      && (if IsPresent(At(result, fields.key)) then Present(enclosing, fields.field, At(result, fields.key))
          else Absent(fields.field)) == Some(out[fields.key])
  {
    var key, more := fields.key, FilterFields(enclosing, fields.rest, result);
    if key in out && more.Some? {
      assert out - {key} == more.value <==> out == map[key := out[key]] + more.value;
    }
  }

  lemma OneField(enclosing: Shape, fields: Shape, result: Json, out: map<string, Json>)
    requires FieldsOk(fields) && fields.With? && fields.key in out
    ensures FieldsSelected(enclosing, fields, result, out) <==>
      && FieldsSelected(enclosing, fields.rest, result, out - {fields.key})
      && (if IsPresent(At(result, fields.key))
          then Shows(enclosing, Some(fields.field), At(result, fields.key), out[fields.key])
          else Lacks(Some(fields.field), out[fields.key]))
  {
    var rest := out - {fields.key};
    assert forall key :: HasKey(fields.rest, key) ==>
      key != fields.key && FieldAt(fields, key) == FieldAt(fields.rest, key);
    assert forall key :: key in rest <==> key in out && key != fields.key;
  }

  lemma {:induction false} ShowsIff(enclosing: Shape, f: Field, raw: Json, j: Json)
    requires FieldsOk(enclosing) && FieldOk(f) && IsPresent(raw)
    ensures Present(enclosing, f, raw) == Some(j) <==> Shows(enclosing, Some(f), raw, j)
    decreases raw, 5
  {
    if !f.sub.Scalar? {
      if !Many(f) {
        FitsIff(enclosing, f.sub, raw);
      } else if j.Arr? {
        HoldsIff(enclosing, f.sub, raw, j.items);
      }
    }
  }

  lemma {:induction false} FitsIff(enclosing: Shape, sub: Sub, raw: Json)
    requires !sub.Scalar? && FieldsOk(enclosing) && (sub.Nested? ==> FieldsOk(sub.shape))
    ensures forall j :: FilterSub(enclosing, sub, raw) == Some(j) <==> Fits(enclosing, sub, raw, j)
    ensures FilterSub(enclosing, sub, raw).None? <==> Misfit(enclosing, sub, raw)
    decreases raw, 2
  {
    forall j ensures FilterSub(enclosing, sub, raw) == Some(j) <==> Fits(enclosing, sub, raw, j) {
      match sub
      case Wildcard =>
      case Again(_) => FilterIff(enclosing, raw, j);
      case Nested(s) => FilterIff(s, raw, j);
    }
  }

  lemma {:induction false} PicksIff(enclosing: Shape, sub: Sub, arr: Json, i: nat, kept: seq<Json>)
    requires !sub.Scalar? && FieldsOk(enclosing) && (sub.Nested? ==> FieldsOk(sub.shape))
    requires arr.Arr? && i <= |arr.items|
    ensures Picks(enclosing, sub, arr, i, kept) <==> kept == FilterItems(enclosing, sub, arr, i)
    decreases arr, 3, |arr.items| - i
  {
    if i < |arr.items| {
      FitsIff(enclosing, sub, arr.items[i]);
      if Misfit(enclosing, sub, arr.items[i]) {
        PicksIff(enclosing, sub, arr, i + 1, kept);
      } else if kept != [] {
        PicksIff(enclosing, sub, arr, i + 1, kept[1..]);
        assert kept == [kept[0]] + kept[1..];
      }
    }
  }

  lemma {:induction false} HoldsIff(enclosing: Shape, sub: Sub, raw: Json, kept: seq<Json>)
    requires !sub.Scalar? && FieldsOk(enclosing) && (sub.Nested? ==> FieldsOk(sub.shape))
    ensures Holds(enclosing, sub, raw, kept) <==>
      kept == if raw.Arr? then FilterItems(enclosing, sub, raw, 0) else AsSeq(FilterSub(enclosing, sub, raw))
    decreases raw, 4
  {
    if raw.Arr? {
      PicksIff(enclosing, sub, raw, 0, kept);
    } else {
      FitsIff(enclosing, sub, raw);
      assert |kept| == 1 ==> kept == [kept[0]];
    }
  }
}

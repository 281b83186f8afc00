/** What a filtered row looks like, and when filtering it again changes nothing. */
module Conformity {
  import opened Datoms
  import opened Shapes
  import opened FilterPull

  /** A recursion or budget stub, under the name the shape gave its id. */
  predicate IsRemapped(s: Shape, j: Json) {
    j.Obj? && IdKey(s).Some? && j.fields.Keys == {IdKey(s).value} &&
    j.fields[IdKey(s).value].Lit? && j.fields[IdKey(s).value].value.Num?
  }

  predicate OnlyKeysOf(s: Shape, j: Json)
    requires j.Obj?
  {
    forall key :: key in j.fields ==> HasKey(s, key)
  }

  /** The type of a selected row, read off its shape. */
  predicate Conforms(s: Shape, j: Json)
    decreases j, 1
  {
    j.Obj? && OnlyKeysOf(s, j) && (IsRemapped(s, j) || FieldsConform(s, s, j))
  }

  predicate FieldsConform(enclosing: Shape, fields: Shape, j: Json)
    requires j.Obj?
    decreases j, 0, fields
  {
    fields.With? ==>
      fields.key in j.fields && FieldConforms(enclosing, fields.field, j.fields[fields.key]) &&
      FieldsConform(enclosing, fields.rest, j)
  }

  predicate FieldConforms(enclosing: Shape, f: Field, j: Json)
    decreases j, 3
  {
    if !IsPresent(j) then
      (f.mode.Defaulted? && f.sub.Scalar? && j == f.mode.value) ||
      (j.Undefined? && (f.mode.Optional? || (f.sub.Again? && !Many(f))))
    else if Many(f) then
      j.Arr? && (!f.sub.Scalar? ==> forall i :: 0 <= i < |j.items| ==> SubConforms(enclosing, f.sub, j.items[i]))
    else f.sub.Scalar? || SubConforms(enclosing, f.sub, j)
  }

  predicate SubConforms(enclosing: Shape, sub: Sub, j: Json)
    requires !sub.Scalar?
    decreases j, 2
  {
    match sub
    case Wildcard => IsPresent(j)
    case Again(_) => Conforms(enclosing, j)
    case Nested(s) => Conforms(s, j)
  }

  // ---- every result conforms --------------------------------------------------------------

  lemma {:induction false} FilterConforms(s: Shape, result: Json)
    requires FieldsOk(s)
    ensures Filter(s, result).Some? ==> Conforms(s, Filter(s, result).value)
    decreases result, 1
  {
    if Filter(s, result).Some? {
      if IsStub(result) {
        IdKeyIsKey(s);
      } else {
        FieldsFilteredConform(s, s, result);
      }
    }
  }

  lemma {:induction false} SubFilteredConforms(enclosing: Shape, sub: Sub, result: Json)
    requires !sub.Scalar? && FieldsOk(enclosing) && (sub.Nested? ==> FieldsOk(sub.shape))
    ensures FilterSub(enclosing, sub, result).Some? ==>
      SubConforms(enclosing, sub, FilterSub(enclosing, sub, result).value)
    decreases result, 2
  {
    match sub
    case Wildcard =>
    case Again(_) => FilterConforms(enclosing, result);
    case Nested(s) => FilterConforms(s, result);
  }

  lemma {:induction false} ItemsFilteredConform(enclosing: Shape, sub: Sub, arr: Json, i: nat)
    requires !sub.Scalar? && FieldsOk(enclosing) && (sub.Nested? ==> FieldsOk(sub.shape))
    requires arr.Arr? && i <= |arr.items|
    ensures forall j :: j in FilterItems(enclosing, sub, arr, i) ==> SubConforms(enclosing, sub, j)
    decreases arr, 3, |arr.items| - i
  {
    if i < |arr.items| {
      SubFilteredConforms(enclosing, sub, arr.items[i]);
      ItemsFilteredConform(enclosing, sub, arr, i + 1);
    }
  }

  lemma {:induction false} PresentConforms(enclosing: Shape, f: Field, raw: Json)
    requires IsPresent(raw) && FieldOk(f) && FieldsOk(enclosing)
    ensures Present(enclosing, f, raw).Some? ==> FieldConforms(enclosing, f, Present(enclosing, f, raw).value)
    decreases raw, 4
  {
    if !f.sub.Scalar? {
      if Many(f) && raw.Arr? {
        ItemsFilteredConform(enclosing, f.sub, raw, 0);
      } else {
        SubFilteredConforms(enclosing, f.sub, raw);
      }
    }
  }

  lemma {:induction false} FieldsFilteredConform(enclosing: Shape, fields: Shape, result: Json)
    requires FieldsOk(enclosing) && FieldsOk(fields)
    ensures var out := FilterFields(enclosing, fields, result);
      out.Some? ==> OnlyKeysOf(fields, Obj(out.value)) && FieldsConform(enclosing, fields, Obj(out.value))
    decreases result, 0, fields
  {
    var out := FilterFields(enclosing, fields, result);
    if fields.With? && out.Some? {
      var raw := At(result, fields.key);
      if IsPresent(raw) {
        PresentConforms(enclosing, fields.field, raw);
      }
      FieldsFilteredConform(enclosing, fields.rest, result);
      var rest := FilterFields(enclosing, fields.rest, result).value;
      assert fields.key !in rest;
      MoreKeysConform(enclosing, fields.rest, Obj(rest), Obj(out.value));
    }
  }

  lemma {:induction false} MoreKeysConform(enclosing: Shape, fields: Shape, j: Json, wider: Json)
    requires j.Obj? && wider.Obj? && FieldsConform(enclosing, fields, j)
    requires forall key :: key in j.fields ==> key in wider.fields && wider.fields[key] == j.fields[key]
    ensures FieldsConform(enclosing, fields, wider)
    decreases fields
  {
    if fields.With? {
      MoreKeysConform(enclosing, fields.rest, j, wider);
    }
  }

  // ---- and filtering it again ----------------------------------------------------------------

  /**
   * No remapped stub at any depth: every row under a shape has every key of
   * it. A row that looks like the engine's stub has to be one already.
   */
  predicate Full(s: Shape, j: Json)
    decreases j, 1
  {
    j.Obj? && if IsStub(j) then IdKey(s) == Some(ID) else FieldsFull(s, s, j)
  }

  predicate FieldsFull(enclosing: Shape, fields: Shape, j: Json)
    requires j.Obj?
    decreases j, 0, fields
  {
    fields.With? ==>
      fields.key in j.fields && FieldFull(enclosing, fields.field, j.fields[fields.key]) &&
      FieldsFull(enclosing, fields.rest, j)
  }

  predicate FieldFull(enclosing: Shape, f: Field, j: Json)
    decreases j, 3
  {
    IsPresent(j) && !f.sub.Scalar? ==>
      if Many(f) && j.Arr? then forall i :: 0 <= i < |j.items| ==> SubFull(enclosing, f.sub, j.items[i])
      else SubFull(enclosing, f.sub, j)
  }

  predicate SubFull(enclosing: Shape, sub: Sub, j: Json)
    requires !sub.Scalar?
    decreases j, 2
  {
    match sub
    case Wildcard => true
    case Again(_) => Full(enclosing, j)
    case Nested(s) => Full(s, j)
  }

  lemma {:induction false} FilterIsIdentity(s: Shape, j: Json)
    requires FieldsOk(s) && Conforms(s, j)
    ensures Filter(s, j) == Some(j) <==> Full(s, j)
    decreases j, 1
  {
    if IsStub(j) {
      assert j.fields == map[ID := j.fields[ID]];
    } else if Full(s, j) {
      FullConforms(s, j);
      FieldsAreIdentity(s, s, j);
      var out := FilterFields(s, s, j).value;
      assert out == j.fields;
    } else if Filter(s, j) == Some(j) {
      FixedIsFull(s, j);
    }
  }

  lemma {:induction false} FixedIsFull(s: Shape, j: Json)
    requires FieldsOk(s) && Filter(s, j) == Some(j)
    ensures Full(s, j)
    decreases j, 1
  {
    if IsStub(j) {
      assert IdKey(s).value in j.fields;
    } else {
      FixedFieldsFull(s, s, j);
    }
  }

  lemma {:induction false} FixedFieldsFull(enclosing: Shape, fields: Shape, j: Json)
    requires FieldsOk(enclosing) && FieldsOk(fields) && j.Obj?
    requires var out := FilterFields(enclosing, fields, j);
      out.Some? && forall key :: key in out.value ==> key in j.fields && j.fields[key] == out.value[key]
    ensures FieldsFull(enclosing, fields, j)
    decreases j, 0, fields
  {
    if fields.With? {
      var f, rest := fields.field, FilterFields(enclosing, fields.rest, j).value;
      FieldsFilteredConform(enclosing, fields.rest, j);
      var out := FilterFields(enclosing, fields, j).value;
      assert forall key :: key in rest ==> key in out && out[key] == rest[key];
      assert fields.key in out;
      var raw := j.fields[fields.key];
      assert FieldOk(f) && (f.sub.Nested? ==> ShapeOk(f.sub.shape));
      if IsPresent(raw) && !f.sub.Scalar? {
        if Many(f) {
          FixedItemsFull(enclosing, f.sub, raw, 0);
        } else {
          FixedSubFull(enclosing, f.sub, raw);
        }
      }
      FixedFieldsFull(enclosing, fields.rest, j);
    }
  }

  lemma {:induction false} FixedItemsFull(enclosing: Shape, sub: Sub, arr: Json, i: nat)
    requires !sub.Scalar? && FieldsOk(enclosing) && (sub.Nested? ==> FieldsOk(sub.shape))
    requires arr.Arr? && i <= |arr.items| && FilterItems(enclosing, sub, arr, i) == arr.items[i..]
    ensures forall k :: i <= k < |arr.items| ==> SubFull(enclosing, sub, arr.items[k])
    decreases arr, 3, |arr.items| - i
  {
    if i < |arr.items| {
      var head, tail := AsSeq(FilterSub(enclosing, sub, arr.items[i])), FilterItems(enclosing, sub, arr, i + 1);
      FewerItems(enclosing, sub, arr, i + 1);
      assert head == [arr.items[i]];
      assert tail == (head + tail)[1..] == arr.items[i + 1..];
      FixedSubFull(enclosing, sub, arr.items[i]);
      FixedItemsFull(enclosing, sub, arr, i + 1);
    }
  }

  lemma {:induction false} FewerItems(enclosing: Shape, sub: Sub, arr: Json, i: nat)
    requires !sub.Scalar? && arr.Arr? && i <= |arr.items|
    ensures |FilterItems(enclosing, sub, arr, i)| <= |arr.items| - i
    decreases |arr.items| - i
  {
    if i < |arr.items| {
      FewerItems(enclosing, sub, arr, i + 1);
    }
  }

  lemma {:induction false} FixedSubFull(enclosing: Shape, sub: Sub, j: Json)
    requires !sub.Scalar? && FieldsOk(enclosing) && (sub.Nested? ==> FieldsOk(sub.shape))
    requires FilterSub(enclosing, sub, j) == Some(j)
    ensures SubFull(enclosing, sub, j)
    decreases j, 2
  {
    match sub
    case Wildcard =>
    case Again(_) => FixedIsFull(enclosing, j);
    case Nested(s) => FixedIsFull(s, j);
  }

  /** A row with every key is not a remapped stub, unless the shape is nothing but an id. */
  lemma FullConforms(s: Shape, j: Json)
    requires FieldsOk(s) && Conforms(s, j) && Full(s, j) && !IsStub(j)
    ensures FieldsConform(s, s, j)
  {
    if IsRemapped(s, j) {
      OnlyId(s, j);
    }
  }

  lemma OnlyId(s: Shape, j: Json)
    requires FieldsOk(s) && IsRemapped(s, j) && FieldsFull(s, s, j)
    ensures FieldsConform(s, s, j)
  {
    var rest := s.rest;
    if rest.With? {
      assert rest.key in j.fields && s.key in j.fields && HasKey(rest, rest.key);
      assert false;
    }
    assert IdKey(rest).None?;
    assert FieldOk(s.field) && FieldConforms(s, s.field, j.fields[s.key]);
  }

  lemma {:induction false} FieldsAreIdentity(enclosing: Shape, fields: Shape, j: Json)
    requires FieldsOk(enclosing) && FieldsOk(fields) && j.Obj?
    requires FieldsConform(enclosing, fields, j) && FieldsFull(enclosing, fields, j)
    ensures var out := FilterFields(enclosing, fields, j);
      && out.Some?
      && (forall key :: key in out.value <==> HasKey(fields, key))
      && (forall key :: key in out.value ==> key in j.fields && out.value[key] == j.fields[key])
    decreases j, 0, fields
  {
    if fields.With? {
      FieldIsIdentity(enclosing, fields.field, j.fields[fields.key]);
      FieldsAreIdentity(enclosing, fields.rest, j);
    }
  }

  lemma {:induction false} FieldIsIdentity(enclosing: Shape, f: Field, j: Json)
    requires FieldsOk(enclosing) && FieldOk(f) && FieldConforms(enclosing, f, j) && FieldFull(enclosing, f, j)
    ensures (if IsPresent(j) then Present(enclosing, f, j) else Absent(f)) == Some(j)
    decreases j, 3
  {
    assert f.sub.Nested? ==> ShapeOk(f.sub.shape);
    if IsPresent(j) && !f.sub.Scalar? {
      if Many(f) {
        ItemsAreIdentity(enclosing, f.sub, j, 0);
        assert j.items[0..] == j.items;
      } else {
        SubIsIdentity(enclosing, f.sub, j);
      }
    }
  }

  lemma {:induction false} ItemsAreIdentity(enclosing: Shape, sub: Sub, arr: Json, i: nat)
    requires !sub.Scalar? && FieldsOk(enclosing) && (sub.Nested? ==> FieldsOk(sub.shape))
    requires arr.Arr? && i <= |arr.items|
    requires forall k :: i <= k < |arr.items| ==>
      SubConforms(enclosing, sub, arr.items[k]) && SubFull(enclosing, sub, arr.items[k])
    ensures FilterItems(enclosing, sub, arr, i) == arr.items[i..]
    decreases arr, 2, |arr.items| - i
  {
    if i < |arr.items| {
      SubIsIdentity(enclosing, sub, arr.items[i]);
      ItemsAreIdentity(enclosing, sub, arr, i + 1);
    }
  }

  lemma {:induction false} SubIsIdentity(enclosing: Shape, sub: Sub, j: Json)
    requires !sub.Scalar? && FieldsOk(enclosing) && (sub.Nested? ==> FieldsOk(sub.shape))
    requires SubConforms(enclosing, sub, j)
    ensures FilterSub(enclosing, sub, j) == Some(j) <==> SubFull(enclosing, sub, j)
    decreases j, 2
  {
    match sub
    case Wildcard =>
    case Again(_) => FilterIsIdentity(enclosing, j);
    case Nested(s) => FilterIsIdentity(s, j);
  }

  /**
   * Filtering a filtered row changes nothing exactly when no stub was kept in
   * it under its id alias; recursion makes no difference.
   */
  lemma FilterTwice(s: Shape, result: Json)
    requires ShapeOk(s) && Filter(s, result).Some?
    ensures var row := Filter(s, result).value;
      Conforms(s, row) && (Filter(s, row) == Some(row) <==> Full(s, row))
  {
    FilterConforms(s, result);
    FilterIsIdentity(s, Filter(s, result).value);
  }

  /** A stub is kept under its id alias once; the second time it lacks the required name. */
  lemma RenamedStubIsDropped()
    ensures var s := With("id", Of(IdAttr, Required, Scalar), With("name", Of(NAME, Required, Scalar), Empty));
      var row := Obj(map["id" := Lit(Num(7))]);
      ShapeOk(s) && Filter(s, Obj(map[ID := Lit(Num(7))])) == Some(row) && Filter(s, row).None?
  {
    var rest := With("name", Of(NAME, Required, Scalar), Empty);
    var s := With("id", Of(IdAttr, Required, Scalar), rest);
    var row := Obj(map["id" := Lit(Num(7))]);
    assert IdKey(s) == Some("id") && !HasKey(rest, "id") && FieldsOk(rest);
    assert FilterFields(s, rest, row).None?;
  }

  // ---- and what it holds -----------------------------------------------------------------------

  /** `kept` is `items[i..]` in order, less those that fail, each one filtered: `from` says which they were. */
  ghost predicate Survive(enclosing: Shape, sub: Sub, items: seq<Json>, i: nat, kept: seq<Json>, from: seq<nat>)
    requires !sub.Scalar?
  {
    && |from| == |kept|
    && (forall k :: 0 <= k < |from| ==>
          i <= from[k] < |items| && FilterSub(enclosing, sub, items[from[k]]) == Some(kept[k]))
    && (forall k, m :: 0 <= k < m < |from| ==> from[k] < from[m])
    && (forall j :: i <= j < |items| && j !in from ==> FilterSub(enclosing, sub, items[j]).None?)
  }

  ghost predicate Survivors(enclosing: Shape, sub: Sub, items: seq<Json>, kept: seq<Json>)
    requires !sub.Scalar?
  {
    exists from :: Survive(enclosing, sub, items, 0, kept, from)
  }

  /** What one present value becomes, said without the walk. */
  ghost predicate Carried(enclosing: Shape, f: Field, raw: Json, j: Json) {
    if f.sub.Scalar? then j == raw || (Many(f) && !raw.Arr? && j == Arr([raw]))
    else if Many(f) then j.Arr? && Survivors(enclosing, f.sub, if raw.Arr? then raw.items else [raw], j.items)
    else FilterSub(enclosing, f.sub, raw) == Some(j) || (FilterSub(enclosing, f.sub, raw).None? && j == Undefined)
  }

  lemma {:induction false} ItemsSurvive(enclosing: Shape, sub: Sub, arr: Json, i: nat) returns (from: seq<nat>)
    requires !sub.Scalar? && arr.Arr? && i <= |arr.items|
    ensures Survive(enclosing, sub, arr.items, i, FilterItems(enclosing, sub, arr, i), from)
    decreases |arr.items| - i
  {
    from := [];
    if i < |arr.items| {
      var later := ItemsSurvive(enclosing, sub, arr, i + 1);
      var child, rest := FilterSub(enclosing, sub, arr.items[i]), FilterItems(enclosing, sub, arr, i + 1);
      if child.Some? {
        OneAhead(enclosing, sub, arr.items, i, rest, later, child.value);
        from := [i] + later;
      } else {
        assert FilterItems(enclosing, sub, arr, i) == rest;
        from := later;
      }
    }
  }

  lemma OneAhead(
      enclosing: Shape, sub: Sub, items: seq<Json>, i: nat, kept: seq<Json>, later: seq<nat>, child: Json)
    requires !sub.Scalar? && i < |items| && Survive(enclosing, sub, items, i + 1, kept, later)
    requires FilterSub(enclosing, sub, items[i]) == Some(child)
    ensures Survive(enclosing, sub, items, i, [child] + kept, [i] + later)
  {
    var from, all := [i] + later, [child] + kept;
    forall k | 0 <= k < |from|
      ensures i <= from[k] < |items| && FilterSub(enclosing, sub, items[from[k]]) == Some(all[k])
    {
      assert k > 0 ==> from[k] == later[k - 1] && all[k] == kept[k - 1];
    }
    forall j | i <= j < |items| && j !in from ensures FilterSub(enclosing, sub, items[j]).None? {
      assert j in later ==> j in from;
    }
  }

  /** A lone value is a collection of one. */
  lemma OneSurvives(enclosing: Shape, sub: Sub, raw: Json)
    requires !sub.Scalar?
    ensures Survivors(enclosing, sub, [raw], AsSeq(FilterSub(enclosing, sub, raw)))
  {
    var from: seq<nat> := if FilterSub(enclosing, sub, raw).Some? then [0] else [];
    assert Survive(enclosing, sub, [raw], 0, AsSeq(FilterSub(enclosing, sub, raw)), from);
  }

  lemma PresentIsCarried(enclosing: Shape, f: Field, raw: Json)
    requires Present(enclosing, f, raw).Some?
    ensures Carried(enclosing, f, raw, Present(enclosing, f, raw).value)
  {
    if !f.sub.Scalar? && Many(f) {
      if raw.Arr? {
        var from := ItemsSurvive(enclosing, f.sub, raw, 0);
      } else {
        OneSurvives(enclosing, f.sub, raw);
      }
    }
  }

  /**
   * Key by key: a filtered row has the shape's keys and no other, a scalar is
   * the result's own, a nested row is the result's own, filtered, and of a
   * collection the rows that pass are left, in order.
   */
  lemma {:induction false} FieldsAreTheResults(enclosing: Shape, fields: Shape, result: Json)
    requires FieldsOk(fields) && FilterFields(enclosing, fields, result).Some?
    ensures var out := FilterFields(enclosing, fields, result).value;
      && (forall key :: key in out <==> HasKey(fields, key))
      && (forall key :: key in out ==> FieldAt(fields, key).Some?)
      && (forall key :: key in out && IsPresent(At(result, key)) ==>
            Carried(enclosing, FieldAt(fields, key).value, At(result, key), out[key]))
    decreases fields
  {
    if fields.With? {
      FieldsAreTheResults(enclosing, fields.rest, result);
      if IsPresent(At(result, fields.key)) {
        PresentIsCarried(enclosing, fields.field, At(result, fields.key));
      }
    }
  }
}

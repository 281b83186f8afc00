/** The client's filter: what a result must hold for its shape. */
module FilterPull {
  import opened Datoms
  import opened Shapes

  function At(j: Json, key: string): Json {
    if j.Obj? && key in j.fields then j.fields[key] else Undefined
  }

  function RemapStub(s: Shape, stub: Json): Option<Json>
    requires IsStub(stub)
  {
    match IdKey(s)
    case Some(key) => Some(Obj(map[key := stub.fields[ID]]))
    case None => None
  }

  /** `None` drops the entity: a required field is missing. */
  function Filter(s: Shape, result: Json): Option<Json>
    decreases result, 1
  {
    if !result.Obj? && !result.Arr? then None
    else if IsStub(result) then RemapStub(s, result)
    else
      match FilterFields(s, s, result)
      case Some(out) => Some(Obj(out))
      case None => None
  }

  /** `again` re-applies the enclosing shape. */
  function FilterSub(enclosing: Shape, sub: Sub, result: Json): Option<Json>
    requires !sub.Scalar?
    decreases result, 2
  {
    match sub
    case Wildcard => if IsPresent(result) then Some(result) else None
    case Again(_) => Filter(enclosing, result)
    case Nested(shape) => Filter(shape, result)
  }

  /** The elements from `i` on that survive. */
  function FilterItems(enclosing: Shape, sub: Sub, arr: Json, i: nat): seq<Json>
    requires !sub.Scalar? && arr.Arr? && i <= |arr.items|
    decreases arr, 3, |arr.items| - i
  {
    if i == |arr.items| then []
    else AsSeq(FilterSub(enclosing, sub, arr.items[i])) + FilterItems(enclosing, sub, arr, i + 1)
  }

  function AsSeq(child: Option<Json>): seq<Json> {
    if child.Some? then [child.value] else []
  }

  /** A field the result lacks. */
  function Absent(f: Field): Option<Json> {
    if f.mode.Defaulted? && f.sub.Scalar? then Some(f.mode.value)
    else if f.mode.Optional? then Some(Undefined)
    else if Many(f) then Some(Arr([]))
    else if f.sub.Again? then Some(Undefined)
    else None
  }

  function Present(enclosing: Shape, f: Field, raw: Json): Option<Json>
    decreases raw, 4
  {
    if f.sub.Scalar? then Some(if Many(f) && !raw.Arr? then Arr([raw]) else raw)
    else if Many(f) then
      Some(Arr(if raw.Arr? then FilterItems(enclosing, f.sub, raw, 0) else AsSeq(FilterSub(enclosing, f.sub, raw))))
    else
      var child := FilterSub(enclosing, f.sub, raw);
      if child.None? && (f.mode.Optional? || f.sub.Again?) then Some(Undefined) else child
  }

  function FilterFields(enclosing: Shape, fields: Shape, result: Json): Option<map<string, Json>>
    decreases result, 0, fields
  {
    match fields
    case Empty => Some(map[])
    case With(key, f, rest) =>
      var raw := At(result, key);
      match (if IsPresent(raw) then Present(enclosing, f, raw) else Absent(f))
      case None => None
      case Some(j) => Join(map[key := j], FilterFields(enclosing, rest, result))
  }

  function Join(out: map<string, Json>, more: Option<map<string, Json>>): Option<map<string, Json>> {
    if more.Some? then Some(out + more.value) else None
  }

  // ---- the walk as it is written -------------------------------------------------------

  method FilterPull(s: Shape, result: Json) returns (kept: Option<Json>)
    ensures kept == Filter(s, result)
    decreases result, 1
  {
    if !result.Obj? && !result.Arr? {
      return None;
    }
    if IsStub(result) {
      return RemapStub(s, result);
    }
    var out: map<string, Json> := map[];
    var fields := s;
    assert forall m: map<string, Json> :: out + m == m;
    while fields.With?
      invariant FilterFields(s, s, result) == Join(out, FilterFields(s, fields, result))
      decreases fields
    {
      var key, raw := fields.key, At(result, fields.key);
      var child := FilterAbsent(fields.field);
      if IsPresent(raw) {
        child := FilterPresent(s, fields.field, raw);
      }
      if child.None? {
        return None;
      }
      JoinOne(out, key, child.value, FilterFields(s, fields.rest, result));
      out := out[key := child.value];
      fields := fields.rest;
    }
    assert out + map[] == out;
    return Some(Obj(out));
  }

  lemma JoinOne(out: map<string, Json>, key: string, j: Json, more: Option<map<string, Json>>)
    ensures Join(out, Join(map[key := j], more)) == Join(out[key := j], more)
  {
    if more.Some? {
      assert out + (map[key := j] + more.value) == out[key := j] + more.value;
    }
  }

  method FilterAbsent(f: Field) returns (j: Option<Json>)
    ensures j == Absent(f)
  {
    if !f.sub.Scalar? {
      if Many(f) {
        return Some(if f.mode.Optional? then Undefined else Arr([]));
      }
      return if f.mode.Optional? || f.sub.Again? then Some(Undefined) else None;
    }
    if f.mode.Defaulted? {
      return Some(f.mode.value);
    }
    if f.mode.Optional? {
      return Some(Undefined);
    }
    return if Many(f) then Some(Arr([])) else None;
  }

  method FilterPresent(enclosing: Shape, f: Field, raw: Json) returns (j: Option<Json>)
    ensures j == Present(enclosing, f, raw)
    decreases raw, 4
  {
    if f.sub.Scalar? {
      return Some(if Many(f) && !raw.Arr? then Arr([raw]) else raw);
    }
    if Many(f) {
      var items := FilterEach(enclosing, f.sub, raw);
      return Some(Arr(items));
    }
    var child := FilterSubPull(enclosing, f.sub, raw);
    if child.None? && (f.mode.Optional? || f.sub.Again?) {
      return Some(Undefined);
    }
    return child;
  }

  method FilterSubPull(enclosing: Shape, sub: Sub, result: Json) returns (kept: Option<Json>)
    requires !sub.Scalar?
    ensures kept == FilterSub(enclosing, sub, result)
    decreases result, 2
  {
    match sub {
      case Wildcard => kept := if IsPresent(result) then Some(result) else None;
      case Again(_) => kept := FilterPull(enclosing, result);
      case Nested(shape) => kept := FilterPull(shape, result);
    }
  }

  lemma Appended(a: seq<Json>, b: seq<Json>, c: seq<Json>)
    ensures a + (b + c) == (a + b) + c
  {
  }

  /** A lone value of a collection is a collection of one. */
  method FilterEach(enclosing: Shape, sub: Sub, raw: Json) returns (kept: seq<Json>)
    requires !sub.Scalar?
    ensures kept == if raw.Arr? then FilterItems(enclosing, sub, raw, 0) else AsSeq(FilterSub(enclosing, sub, raw))
    decreases raw, 3
  {
    if !raw.Arr? {
      var child := FilterSubPull(enclosing, sub, raw);
      return AsSeq(child);
    }
    kept := [];
    for i := 0 to |raw.items|
      invariant FilterItems(enclosing, sub, raw, 0) == kept + FilterItems(enclosing, sub, raw, i)
    {
      var child := FilterSubPull(enclosing, sub, raw.items[i]);
      Appended(kept, AsSeq(child), FilterItems(enclosing, sub, raw, i + 1));
      kept := kept + AsSeq(child);
    }
  }
}

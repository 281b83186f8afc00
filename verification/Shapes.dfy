/** Select shapes: a pattern of fields over one entity, nested through references and backlinks. */
module Shapes {
  import opened Datoms

  /** A row of a pull. `Undefined` is a key that is there and holds nothing. */
  datatype Json =
    | Undefined
    | Null
    | Lit(value: Value)
    | Arr(items: seq<Json>)
    | Obj(fields: map<string, Json>)

  datatype Attr = IdAttr | UserAttr(id: nat, many: bool, isRef: bool, isComponent: bool)

  datatype Mode = Required | Optional | Defaulted(value: Json)

  /** What a field selects at the other end: a value, everything, the enclosing shape again, or a shape. */
  datatype Sub = Scalar | Wildcard | Again(depth: nat) | Nested(shape: Shape)

  datatype Field = Field(mode: Mode, attr: Attr, reverse: bool, sub: Sub)

  /** The fields in the order they were written. */
  datatype Shape = Empty | With(key: string, field: Field, rest: Shape)

  /** The pseudo-attribute's name, and the one key of the engine's stub. */
  const ID: string := ":db/id"

  /** A backlink of a component is cardinality one, any other backlink many. */
  predicate Many(f: Field) {
    f.attr.UserAttr? && (if f.reverse then !f.attr.isComponent else f.attr.many)
  }

  /** A field whose absence costs the row. */
  predicate Demanded(f: Field) {
    f.attr.UserAttr? && f.mode.Required? && !Many(f)
  }

  predicate IsPresent(j: Json) {
    !j.Undefined? && !j.Null?
  }

  function Stub(e: nat): Json {
    Obj(map[ID := Lit(Num(e))])
  }

  /** A one-key object `{":db/id": n}`. */
  predicate IsStub(j: Json) {
    j.Obj? && j.fields.Keys == {ID} && j.fields[ID].Lit? && j.fields[ID].value.Num?
  }

  function IdKey(s: Shape): Option<string> {
    match s
    case Empty => None
    case With(key, f, rest) => if f.attr.IdAttr? then Some(key) else IdKey(rest)
  }

  function FieldAt(s: Shape, key: string): Option<Field> {
    match s
    case Empty => None
    case With(k, f, rest) => if k == key then Some(f) else FieldAt(rest, key)
  }

  predicate HasKey(s: Shape, key: string) {
    s.With? && (s.key == key || HasKey(s.rest, key))
  }

  lemma {:induction false} IdKeyIsKey(s: Shape)
    ensures IdKey(s).Some? ==> HasKey(s, IdKey(s).value)
  {
    if s.With? {
      IdKeyIsKey(s.rest);
    }
  }

  predicate HasAgain(s: Shape) {
    s.With? && (s.field.sub.Again? || HasAgain(s.rest))
  }

  /**
   * What the builders and the lowering accept: a default only on a card-one
   * scalar, a shape only behind a reference, a backlink only with a shape, and
   * recursion only beside an id.
   */
  predicate FieldOk(f: Field)
    decreases f
  {
    (f.attr.IdAttr? ==> f.sub.Scalar? && !f.reverse) &&
    (f.attr.UserAttr? && !f.sub.Scalar? ==> f.attr.isRef) &&
    (f.attr.UserAttr? && f.reverse ==> f.attr.isRef && !f.sub.Scalar?) &&
    (f.mode.Defaulted? ==> f.sub.Scalar? && !Many(f)) &&
    (f.sub.Nested? ==> ShapeOk(f.sub.shape))
  }

  predicate FieldsOk(s: Shape)
    decreases s, 0
  {
    s.Empty? || (!HasKey(s.rest, s.key) && FieldOk(s.field) && FieldsOk(s.rest))
  }

  predicate ShapeOk(s: Shape)
    decreases s, 1
  {
    FieldsOk(s) && (HasAgain(s) ==> IdKey(s).Some?)
  }

  /** No field, at any depth, is keyed like the engine's stub. */
  predicate NoIdKeyed(s: Shape)
    decreases s
  {
    s.With? ==>
      s.key != ID && (s.field.sub.Nested? ==> NoIdKeyed(s.field.sub.shape)) && NoIdKeyed(s.rest)
  }

  // ---- for small examples ----------------------------------------------------------------------

  const OWNER: Attr := UserAttr(2000, false, true, false)
  const NAME: Attr := UserAttr(2001, false, false, false)
  const NICK: Attr := UserAttr(2002, false, false, false)

  function Of(attr: Attr, mode: Mode, sub: Sub): Field {
    Field(mode, attr, false, sub)
  }
}

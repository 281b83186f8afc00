/** Facts, and the present-tense view a history of facts denotes. */
module Datoms {
  datatype Option<+T> = None | Some(value: T)

  /** Attribute ids below this one are bootstrap attributes; entity ids from it on are user entities. */
  const FIRST_USER_EID: nat := 1000
  /** Transaction entities live above this id. */
  const TX_BASE: nat := 0x400_0000_0000
  const DB_TX_INSTANT: nat := 50

  /** A reference, a plain number, or anything that is not a number. */
  datatype Value = Ref(eid: nat) | Num(n: int) | Str(s: string)

  datatype Datom = Datom(e: nat, a: nat, v: Value, t: nat, op: bool)

  predicate IsSystemAttr(a: nat) {
    a < FIRST_USER_EID
  }

  predicate SameFact(d: Datom, e: nat, a: nat, v: Value) {
    d.e == e && d.a == a && d.v == v
  }

  /**
   * The index order puts `t` last and, at one `t`, an assertion after a
   * retraction; the last datom of a fact decides whether it is current.
   */
  ghost predicate Current(facts: set<Datom>, upTo: nat, e: nat, a: nat, v: Value) {
    exists d :: d in facts && d.op && Newest(facts, upTo, d) && SameFact(d, e, a, v)
  }

  ghost predicate Newest(facts: set<Datom>, upTo: nat, d: Datom) {
    d.t <= upTo &&
    forall d' :: d' in facts && d'.t <= upTo && SameFact(d', d.e, d.a, d.v) ==> d'.t <= d.t
  }

  function ToSet(datoms: seq<Datom>): set<Datom> {
    set d | d in datoms
  }
}

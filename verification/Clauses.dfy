/** A shape's required fields, as the flat conjunction of patterns the peer joins. */
module Clauses {
  import opened Datoms
  import opened Shapes
  import opened Pull

  /** `[?e a ?v]`, or `[?e a _]`. Variables are numbered in the order they are made. */
  datatype Clause = Clause(e: nat, a: nat, v: Option<nat>)

  function FieldClauses(e: nat, f: Field, n: nat): (seq<Clause>, nat)
    decreases f
  {
    if !Demanded(f) then ([], n)
    else
      var a := f.attr.id;
      if f.sub.Scalar? || f.sub.Again? then
        if f.reverse then ([Clause(n, a, Some(e))], n + 1) else ([Clause(e, a, None)], n)
      else
        var (sub, m) := if f.sub.Nested? then RequiredClauses(n, f.sub.shape, n + 1) else ([], n + 1);
        if f.reverse then ([Clause(n, a, Some(e))] + sub, m)
        else ([Clause(e, a, if |sub| > 0 then Some(n) else None)] + sub, m)
  }

  /** The clauses, and the next unused variable. */
  function RequiredClauses(e: nat, s: Shape, n: nat): (seq<Clause>, nat)
    decreases s
  {
    match s
    case Empty => ([], n)
    case With(_, f, rest) =>
      var (mine, m) := FieldClauses(e, f, n);
      var (others, k) := RequiredClauses(e, rest, m);
      (mine + others, k)
  }

  /** The pass as it is written: one counter, and a list filled field by field. */
  class Lowering {
    var unused: nat

    constructor ()
      ensures unused == 0
    {
      unused := 0;
    }

    method Gensym() returns (v: nat)
      modifies this
      ensures v == old(unused) && unused == v + 1
    {
      v := unused;
      unused := unused + 1;
    }

    method LowerRequired(e: nat, s: Shape) returns (out: seq<Clause>)
      modifies this
      ensures (out, unused) == RequiredClauses(e, s, old(unused))
      decreases s
    {
      out := [];
      var fields := s;
      assert out + RequiredClauses(e, s, unused).0 == RequiredClauses(e, s, unused).0;
      while fields.With?
        invariant RequiredClauses(e, s, old(unused)) ==
          var (more, k) := RequiredClauses(e, fields, unused); (out + more, k)
        decreases fields
      {
        var f := fields.field;
        ghost var before, m := out, unused;
        ghost var all := RequiredClauses(e, fields, unused);
        if Demanded(f) {
          var a := f.attr.id;
          if f.sub.Scalar? || f.sub.Again? {
            if f.reverse {
              var r := Gensym();
              out := out + [Clause(r, a, Some(e))];
            } else {
              out := out + [Clause(e, a, None)];
            }
          } else {
            var target := Gensym();
            var sub: seq<Clause> := [];
            if f.sub.Nested? {
              sub := LowerRequired(target, f.sub.shape);
            }
            if f.reverse {
              out := out + ([Clause(target, a, Some(e))] + sub);
            } else {
              out := out + ([Clause(e, a, if |sub| > 0 then Some(target) else None)] + sub);
            }
          }
        }
        Appended(before, FieldClauses(e, f, m).0, RequiredClauses(e, fields.rest, unused).0);
        fields := fields.rest;
      }
      assert out + [] == out;
    }
  }

  lemma Appended(a: seq<Clause>, b: seq<Clause>, c: seq<Clause>)
    ensures a + (b + c) == (a + b) + c
    ensures a + [] == a
  {
  }

  // ---- what the conjunction means ------------------------------------------------------

  type Env = map<nat, nat>

  ghost predicate Holds(db: Db, c: Clause, env: Env) {
    c.e in env &&
    match c.v
    case None => exists v :: Fact(env[c.e], c.a, v) in db
    case Some(x) => x in env && Fact(env[c.e], c.a, Ref(env[x])) in db
  }

  ghost predicate HoldAll(db: Db, clauses: seq<Clause>, env: Env) {
    forall i :: 0 <= i < |clauses| ==> Holds(db, clauses[i], env)
  }

  /** The engine's answer: some binding of the variables makes every clause a fact. */
  ghost predicate Satisfies(db: Db, clauses: seq<Clause>, root: nat, e: nat) {
    exists env: Env :: root in env && env[root] == e && HoldAll(db, clauses, env)
  }

  // ---- what a shape demands, said about the entity it is read at -----------------------

  predicate Edge(db: Db, e: nat, f: Field, t: nat)
    requires f.attr.UserAttr?
  {
    if f.reverse then Fact(t, f.attr.id, Ref(e)) in db else Fact(e, f.attr.id, Ref(t)) in db
  }

  ghost predicate HasValue(db: Db, e: nat, f: Field)
    requires f.attr.UserAttr?
  {
    if f.reverse then exists t :: Edge(db, e, f, t) else exists v :: Fact(e, f.attr.id, v) in db
  }

  /** Every required field is there, and what a required shape is read at has its own. */
  ghost predicate Sat(db: Db, e: nat, s: Shape)
    decreases s
  {
    s.With? ==> SatField(db, e, s.field) && Sat(db, e, s.rest)
  }

  ghost predicate SatField(db: Db, e: nat, f: Field)
    decreases f
  {
    Demanded(f) ==>
      if f.sub.Nested? then exists t :: Edge(db, e, f, t) && Sat(db, t, f.sub.shape)
      else HasValue(db, e, f)
  }

  /** A schema's promises to the shapes over it. */
  ghost predicate FieldFits(db: Db, f: Field)
    decreases f
  {
    (f.attr.UserAttr? ==>
       (f.attr.isRef ==> forall e, v :: Fact(e, f.attr.id, v) in db ==> v.Ref?) &&
       (!Many(f) ==> forall e: nat :: |Elems(db, e, f)| <= 1)) &&
    (f.sub.Nested? ==> DbFits(db, f.sub.shape))
  }

  ghost predicate DbFits(db: Db, s: Shape)
    decreases s
  {
    s.With? ==> FieldFits(db, s.field) && DbFits(db, s.rest)
  }

  // ---- the flat form means the nested one -----------------------------------------------

  lemma Widened(db: Db, clauses: seq<Clause>, env: Env, wider: Env)
    requires HoldAll(db, clauses, env)
    requires forall x :: x in env ==> x in wider && wider[x] == env[x]
    ensures HoldAll(db, clauses, wider)
  {
  }

  lemma Split(db: Db, a: seq<Clause>, b: seq<Clause>, env: Env)
    ensures HoldAll(db, a + b, env) <==> HoldAll(db, a, env) && HoldAll(db, b, env)
  {
    if HoldAll(db, a + b, env) {
      forall i | 0 <= i < |a| ensures Holds(db, a[i], env) {
        assert (a + b)[i] == a[i];
      }
      forall i | 0 <= i < |b| ensures Holds(db, b[i], env) {
        assert (a + b)[|a| + i] == b[i];
      }
    }
  }

  lemma {:induction false} FieldHoldsMeansSat(db: Db, root: nat, e: nat, f: Field, n: nat, env: Env)
    requires FieldOk(f) && FieldFits(db, f)
    requires root in env && env[root] == e && HoldAll(db, FieldClauses(root, f, n).0, env)
    ensures SatField(db, e, f)
    decreases f
  {
    if Demanded(f) {
      var clauses := FieldClauses(root, f, n).0;
      assert Holds(db, clauses[0], env);
      if f.sub.Nested? {
        var sub := RequiredClauses(n, f.sub.shape, n + 1).0;
        Split(db, [clauses[0]], sub, env);
        if sub == [] && !f.reverse {
          var v :| Fact(e, f.attr.id, v) in db;
          assert Edge(db, e, f, v.eid);
          HoldsMeansSat(db, n, v.eid, f.sub.shape, n + 1, map[n := v.eid]);
        } else {
          assert Edge(db, e, f, env[n]);
          HoldsMeansSat(db, n, env[n], f.sub.shape, n + 1, env);
        }
      } else if f.reverse {
        assert Edge(db, e, f, env[n]);
      }
    }
  }

  lemma {:induction false} HoldsMeansSat(db: Db, root: nat, e: nat, s: Shape, n: nat, env: Env)
    requires FieldsOk(s) && DbFits(db, s)
    requires root in env && env[root] == e && HoldAll(db, RequiredClauses(root, s, n).0, env)
    ensures Sat(db, e, s)
    decreases s
  {
    if s.With? {
      var (mine, m) := FieldClauses(root, s.field, n);
      Split(db, mine, RequiredClauses(root, s.rest, m).0, env);
      FieldHoldsMeansSat(db, root, e, s.field, n, env);
      HoldsMeansSat(db, root, e, s.rest, m, env);
    }
  }

  /** `env` binds the root and variables made between `n` and `m`, nothing else. */
  predicate Binds(env: Env, root: nat, e: nat, n: nat, m: nat) {
    root in env && env[root] == e && forall x :: x in env ==> x == root || n <= x < m
  }

  lemma {:induction false} FieldSatMeansHolds(db: Db, root: nat, e: nat, f: Field, n: nat) returns (env: Env)
    requires root < n && SatField(db, e, f)
    ensures var (clauses, m) := FieldClauses(root, f, n);
      n <= m && Binds(env, root, e, n, m) && HoldAll(db, clauses, env)
    decreases f
  {
    env := map[root := e];
    if Demanded(f) {
      var (clauses, m) := FieldClauses(root, f, n);
      if f.sub.Nested? {
        var t: nat :| Edge(db, e, f, t) && Sat(db, t, f.sub.shape);
        var inner := SatMeansHolds(db, n, t, f.sub.shape, n + 1);
        var sub := RequiredClauses(n, f.sub.shape, n + 1).0;
        env := inner[root := e];
        Widened(db, sub, inner, env);
        assert clauses == [clauses[0]] + sub;
        assert env[n] == t && env[root] == e;
        assert f.reverse || Fact(e, f.attr.id, Ref(t)) in db;
        assert Holds(db, clauses[0], env);
        Split(db, [clauses[0]], sub, env);
      } else if f.reverse {
        var t: nat :| Edge(db, e, f, t);
        env := map[root := e, n := t];
      }
    }
  }

  lemma {:induction false} SatMeansHolds(db: Db, root: nat, e: nat, s: Shape, n: nat) returns (env: Env)
    requires root < n && Sat(db, e, s)
    ensures var (clauses, m) := RequiredClauses(root, s, n);
      n <= m && Binds(env, root, e, n, m) && HoldAll(db, clauses, env)
    decreases s
  {
    env := map[root := e];
    if s.With? {
      var (mine, m) := FieldClauses(root, s.field, n);
      var env1 := FieldSatMeansHolds(db, root, e, s.field, n);
      var (others, _) := RequiredClauses(root, s.rest, m);
      var env2 := SatMeansHolds(db, root, e, s.rest, m);
      env := env1 + env2;
      Widened(db, mine, env1, env);
      Widened(db, others, env2, env);
      Split(db, mine, others, env);
    }
  }

  /**
   * The flat clauses, with every variable the pass made for itself, hold at an
   * entity exactly when the entity has what the shape demands.
   */
  lemma ClausesMeanDemands(db: Db, root: nat, e: nat, s: Shape, n: nat)
    requires ShapeOk(s) && DbFits(db, s) && root < n
    ensures Satisfies(db, RequiredClauses(root, s, n).0, root, e) <==> Sat(db, e, s)
  {
    var clauses := RequiredClauses(root, s, n).0;
    if Satisfies(db, clauses, root, e) {
      var env: Env :| root in env && env[root] == e && HoldAll(db, clauses, env);
      HoldsMeansSat(db, root, e, s, n, env);
    }
    if Sat(db, e, s) {
      var env := SatMeansHolds(db, root, e, s, n);
    }
  }
}

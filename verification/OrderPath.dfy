/** A sort key bound without dropping rows, in two branches. */
module OrderPath {
  import opened Datoms
  import opened Pull
  import opened Clauses

  datatype Hop = Hop(a: nat, reverse: bool)

  datatype Term = Var(n: nat) | Blank

  datatype Pattern = Pattern(e: Term, a: nat, v: Term)

  /** The path names the entity itself, or the two branches over it. */
  datatype SortKey =
    | Self(root: nat)
    | OrJoin(root: nat, bound: nat, walk: seq<Pattern>, absent: seq<Pattern>)

  function LastHop(e: nat, hop: Hop, value: Term): Pattern {
    if hop.reverse then Pattern(value, hop.a, Var(e)) else Pattern(Var(e), hop.a, value)
  }

  /** The chain a path walks, and the next unused variable. */
  function HopPatterns(e: nat, path: seq<Hop>, value: Term, n: nat): (seq<Pattern>, nat)
    requires path != []
    decreases |path|
  {
    if |path| == 1 then ([LastHop(e, path[0], value)], n)
    else
      var (more, m) := HopPatterns(n, path[1..], value, n + 1);
      ([LastHop(e, path[0], Var(n))] + more, m)
  }

  /** `path` is empty for the entity itself. */
  function LowerOrderPath(root: nat, path: seq<Hop>, n: nat): (SortKey, nat) {
    if path == [] then (Self(root), n)
    else
      var (walk, m) := HopPatterns(root, path, Var(n), n + 1);
      var (absent, k) := HopPatterns(root, path, Blank, m);
      (OrJoin(root, n, walk, absent), k)
  }

  method HopClauses(g: Lowering, root: nat, path: seq<Hop>, value: Term) returns (out: seq<Pattern>)
    requires path != []
    modifies g
    ensures (out, g.unused) == HopPatterns(root, path, value, old(g.unused))
  {
    out := [];
    var e := root;
    assert path[0..] == path;
    assert out + HopPatterns(root, path, value, g.unused).0 == HopPatterns(root, path, value, g.unused).0;
    for i := 0 to |path| - 1
      invariant HopPatterns(root, path, value, old(g.unused)) ==
        var (more, m) := HopPatterns(e, path[i..], value, g.unused); (out + more, m)
    {
      var next := g.Gensym();
      assert path[i..][1..] == path[i + 1..];
      ghost var more := HopPatterns(next, path[i + 1..], value, g.unused).0;
      assert out + ([LastHop(e, path[i], Var(next))] + more) == out + [LastHop(e, path[i], Var(next))] + more;
      out := out + [LastHop(e, path[i], Var(next))];
      e := next;
    }
    out := out + [LastHop(e, path[|path| - 1], value)];
  }

  method LowerOrder(g: Lowering, root: nat, path: seq<Hop>) returns (key: SortKey)
    modifies g
    ensures (key, g.unused) == LowerOrderPath(root, path, old(g.unused))
  {
    if path == [] {
      return Self(root);
    }
    var bound := g.Gensym();
    var walk := HopClauses(g, root, path, Var(bound));
    var absent := HopClauses(g, root, path, Blank);
    return OrJoin(root, bound, walk, absent);
  }

  // ---- what the branches mean --------------------------------------------------------------

  type Bindings = map<nat, Value>

  predicate Matches(t: Term, v: Value, env: Bindings) {
    t.Var? ==> t.n in env && env[t.n] == v
  }

  ghost predicate Finds(db: Db, p: Pattern, env: Bindings) {
    exists f :: f in db && f.a == p.a && Matches(p.e, Ref(f.e), env) && Matches(p.v, f.v, env)
  }

  ghost predicate FindAll(db: Db, ps: seq<Pattern>, env: Bindings) {
    forall i :: 0 <= i < |ps| ==> Finds(db, ps[i], env)
  }

  /** One step: the values of an entity's attribute, or the entities that point here. */
  function Reach1(db: Db, v: Value, hop: Hop): set<Value> {
    if hop.reverse then set f | f in db && f.a == hop.a && f.v == v :: Ref(f.e)
    else set f | f in db && f.a == hop.a && Ref(f.e) == v :: f.v
  }

  /** Everything the path leads to. */
  function Reach(db: Db, v: Value, path: seq<Hop>): set<Value>
    decreases |path|
  {
    if path == [] then {v}
    else set u, w | u in Reach1(db, v, path[0]) && w in Reach(db, u, path[1..]) :: w
  }

  /** The sort values of the row whose `root` is bound to `e`; `None` is the ground null. */
  ghost predicate Bound(db: Db, key: SortKey, root: nat, e: nat, v: Option<Value>) {
    match key
    case Self(x) => x == root && v == Some(Ref(e))
    case OrJoin(x, _, _, _) =>
      x == root && if v.Some? then Walks(db, key, e, v.value) else Lacks(db, key, e)
  }

  ghost predicate Walks(db: Db, key: SortKey, e: nat, x: Value)
    requires key.OrJoin?
  {
    exists env: Bindings ::
      && key.root in env && env[key.root] == Ref(e) && key.bound in env && env[key.bound] == x
      && FindAll(db, key.walk, env)
  }

  ghost predicate Lacks(db: Db, key: SortKey, e: nat)
    requires key.OrJoin?
  {
    !exists env: Bindings :: key.root in env && env[key.root] == Ref(e) && FindAll(db, key.absent, env)
  }

  lemma HopReached(db: Db, root: nat, hop: Hop, value: Term, env: Bindings) returns (u: Value)
    requires root in env && Finds(db, LastHop(root, hop, value), env)
    ensures u in Reach1(db, env[root], hop) && Matches(value, u, env)
  {
    var p := LastHop(root, hop, value);
    var f :| f in db && f.a == p.a && Matches(p.e, Ref(f.e), env) && Matches(p.v, f.v, env);
    u := if hop.reverse then Ref(f.e) else f.v;
  }

  lemma {:induction false} FoundIsReached(db: Db, root: nat, path: seq<Hop>, value: Term, n: nat, env: Bindings)
      returns (x: Value)
    requires path != [] && !path[|path| - 1].reverse
    requires root in env && FindAll(db, HopPatterns(root, path, value, n).0, env)
    ensures x in Reach(db, env[root], path) && Matches(value, x, env)
    decreases |path|
  {
    var ps := HopPatterns(root, path, value, n).0;
    assert Finds(db, ps[0], env);
    if |path| == 1 {
      x := HopReached(db, root, path[0], value, env);
      assert x in Reach(db, x, path[1..]);
    } else {
      var more := HopPatterns(n, path[1..], value, n + 1).0;
      assert forall i :: 0 <= i < |more| ==> more[i] == ps[i + 1];
      var u := HopReached(db, root, path[0], Var(n), env);
      x := FoundIsReached(db, n, path[1..], value, n + 1, env);
    }
  }

  lemma {:induction false} ReachedIsFound(db: Db, root: nat, v: Value, path: seq<Hop>, value: Term, n: nat, x: Value)
      returns (env: Bindings)
    requires path != [] && x in Reach(db, v, path) && !path[|path| - 1].reverse
    requires root < n && (value.Var? ==> value.n < n && value.n != root)
    ensures root in env && env[root] == v && Matches(value, x, env)
    ensures forall y :: y in env ==> y == root || y >= n || value == Var(y)
    ensures FindAll(db, HopPatterns(root, path, value, n).0, env)
    decreases |path|
  {
    var ps := HopPatterns(root, path, value, n).0;
    var u :| u in Reach1(db, v, path[0]) && x in Reach(db, u, path[1..]);
    if |path| == 1 {
      env := map[root := v];
      if value.Var? {
        env := env[value.n := x];
      }
      assert x == u;
    } else {
      var inner := ReachedIsFound(db, n, u, path[1..], value, n + 1, x);
      env := inner[root := v];
      var more := HopPatterns(n, path[1..], value, n + 1).0;
      Untouched(db, n, path[1..], value, n + 1, inner, root, v);
      forall i | 0 <= i < |ps| ensures Finds(db, ps[i], env) {
        if i > 0 {
          assert ps[i] == more[i - 1];
        }
      }
    }
  }

  /** The chain from `from` does not mention a variable made before it, other than its own ends. */
  lemma {:induction false} Untouched(
      db: Db, from: nat, path: seq<Hop>, value: Term, n: nat, env: Bindings, other: nat, v: Value)
    requires path != [] && other < n && other != from && value != Var(other)
    requires FindAll(db, HopPatterns(from, path, value, n).0, env)
    ensures FindAll(db, HopPatterns(from, path, value, n).0, env[other := v])
    decreases |path|
  {
    var ps := HopPatterns(from, path, value, n).0;
    forall i | 0 <= i < |ps| ensures Finds(db, ps[i], env[other := v]) {
      Mentions(from, path, value, n, i);
      assert Finds(db, ps[i], env);
    }
  }

  lemma {:induction false} Mentions(from: nat, path: seq<Hop>, value: Term, n: nat, i: nat)
    requires path != [] && i < |HopPatterns(from, path, value, n).0|
    ensures var p := HopPatterns(from, path, value, n).0[i];
      forall t: Term :: t == p.e || t == p.v ==> t == Var(from) || t == value || (t.Var? && t.n >= n)
    decreases |path|
  {
    if |path| > 1 && i > 0 {
      Mentions(n, path[1..], value, n + 1, i - 1);
    }
  }

  // ---- one row per root -------------------------------------------------------------------

  lemma WalkedIsReached(db: Db, root: nat, e: nat, path: seq<Hop>, n: nat, x: Value)
    requires path != [] && root < n && !path[|path| - 1].reverse
    ensures Walks(db, LowerOrderPath(root, path, n).0, e, x) <==> x in Reach(db, Ref(e), path)
  {
    var key := LowerOrderPath(root, path, n).0;
    if Walks(db, key, e, x) {
      var env: Bindings :| key.root in env && env[key.root] == Ref(e) && key.bound in env && env[key.bound] == x &&
        FindAll(db, key.walk, env);
      var y := FoundIsReached(db, root, path, Var(n), n + 1, env);
    }
    if x in Reach(db, Ref(e), path) {
      var env := ReachedIsFound(db, root, Ref(e), path, Var(n), n + 1, x);
    }
  }

  lemma LackedIsUnreached(db: Db, root: nat, e: nat, path: seq<Hop>, n: nat)
    requires path != [] && root < n && !path[|path| - 1].reverse
    ensures Lacks(db, LowerOrderPath(root, path, n).0, e) <==> Reach(db, Ref(e), path) == {}
  {
    var key := LowerOrderPath(root, path, n).0;
    var m := HopPatterns(root, path, Var(n), n + 1).1;
    VariablesGrow(root, path, Var(n), n + 1);
    if Reach(db, Ref(e), path) == {} && !Lacks(db, key, e) {
      var env: Bindings :| key.root in env && env[key.root] == Ref(e) && FindAll(db, key.absent, env);
      var x := FoundIsReached(db, root, path, Blank, m, env);
      assert false;
    }
    if x :| x in Reach(db, Ref(e), path) {
      var env := ReachedIsFound(db, root, Ref(e), path, Blank, m, x);
    }
  }

  lemma {:induction false} VariablesGrow(root: nat, path: seq<Hop>, value: Term, n: nat)
    requires path != []
    ensures HopPatterns(root, path, value, n).1 >= n
    decreases |path|
  {
    if |path| > 1 {
      VariablesGrow(n, path[1..], value, n + 1);
    }
  }

  ghost predicate OneRow(db: Db, key: SortKey, root: nat, e: nat) {
    exists v :: Bound(db, key, root, e, v) && forall u :: Bound(db, key, root, e, u) ==> u == v
  }

  ghost predicate AtMostOne(vs: set<Value>) {
    forall x, y :: x in vs && y in vs ==> x == y
  }

  /**
   * Ordering by a path, or by the entity itself, drops no root and, exactly
   * when the path leads to at most one value, repeats none: the branches of
   * the or-join are exclusive and exhaustive.
   */
  lemma OrderingKeepsTheRows(db: Db, root: nat, e: nat, path: seq<Hop>, n: nat)
    requires root < n && (path != [] ==> !path[|path| - 1].reverse)
    ensures var key, reached := LowerOrderPath(root, path, n).0, Reach(db, Ref(e), path);
      && (forall x :: Bound(db, key, root, e, Some(x)) <==> x in reached)
      && (Bound(db, key, root, e, None) <==> reached == {})
      && (OneRow(db, key, root, e) <==> AtMostOne(reached))
  {
    var key, reached := LowerOrderPath(root, path, n).0, Reach(db, Ref(e), path);
    if path != [] {
      forall x ensures Bound(db, key, root, e, Some(x)) <==> x in reached {
        WalkedIsReached(db, root, e, path, n, x);
      }
      LackedIsUnreached(db, root, e, path, n);
    }
    if OneRow(db, key, root, e) {
      forall x, y | x in reached && y in reached ensures x == y {
        assert Bound(db, key, root, e, Some(x)) && Bound(db, key, root, e, Some(y));
      }
    }
    if AtMostOne(reached) {
      if x :| x in reached {
        assert Bound(db, key, root, e, Some(x));
      } else {
        assert Bound(db, key, root, e, None);
      }
    }
  }

  /** What the builders check before they accept the path as a key: every hop is single-valued. */
  ghost predicate SingleValued(db: Db, path: seq<Hop>) {
    forall i, v :: 0 <= i < |path| ==> AtMostOne(Reach1(db, v, path[i]))
  }

  lemma {:induction false} SingleHopsReachOne(db: Db, v: Value, path: seq<Hop>)
    requires SingleValued(db, path)
    ensures AtMostOne(Reach(db, v, path))
    decreases |path|
  {
    if path != [] {
      assert SingleValued(db, path[1..]) by {
        forall i, u | 0 <= i < |path[1..]| ensures AtMostOne(Reach1(db, u, path[1..][i])) {
          assert path[1..][i] == path[i + 1];
        }
      }
      forall x, y | x in Reach(db, v, path) && y in Reach(db, v, path) ensures x == y {
        var u :| u in Reach1(db, v, path[0]) && x in Reach(db, u, path[1..]);
        var w :| w in Reach1(db, v, path[0]) && y in Reach(db, w, path[1..]);
        assert AtMostOne(Reach1(db, v, path[0]));
        SingleHopsReachOne(db, u, path[1..]);
      }
    }
  }

  /** A key of single-valued hops gives every root one row: the path's value, or null. */
  lemma SingleValuedKeysGiveOneRow(db: Db, root: nat, e: nat, path: seq<Hop>, n: nat)
    requires root < n && (path != [] ==> !path[|path| - 1].reverse) && SingleValued(db, path)
    ensures OneRow(db, LowerOrderPath(root, path, n).0, root, e)
  {
    OrderingKeepsTheRows(db, root, e, path, n);
    SingleHopsReachOne(db, Ref(e), path);
  }
}

/** The committed log, what its reader may see of it, and what the world promises about both. */
module ReplicatedLog {
  import opened Datoms
  import opened SessionSync

  /**
   * Everything a run cannot change: the log it will commit, the reader's
   * access after each commit, which entries the sieve answers with a dump,
   * and what HTTP answers the writer of `t` (nothing, when it is not ours).
   */
  datatype World = World(
    log: seq<Entry>,
    unrestricted: bool,
    flips: set<nat>,
    rule: nat -> ReadRule,
    ack: nat -> seq<Datom>)

  predicate Committed(w: World, t: nat) {
    1 <= t <= |w.log|
  }

  function At(w: World, t: nat): seq<Datom>
    requires Committed(w, t)
  {
    w.log[t - 1].datoms
  }

  /** Every fact committed at or before `n`. */
  ghost function History(w: World, n: nat): set<Datom>
    requires n <= |w.log|
  {
    set i, d | 0 <= i < n && d in w.log[i].datoms :: d
  }

  ghost function Sieve(w: World, t: nat): Decision
    requires Committed(w, t)
  {
    Decide(w.unrestricted, t in w.flips, w.rule(t), At(w, t))
  }

  /** The current-value facts a reader may see after commit `n`. */
  ghost function DumpSet(w: World, n: nat): set<Datom>
    requires n <= |w.log|
  {
    set d | d in History(w, n) && d.op && Newest(History(w, n), n, d) && Visible(w.rule(n), d)
  }

  ghost predicate HasFact(w: World, t: nat, e: nat, a: nat)
    requires Committed(w, t)
  {
    exists d :: d in At(w, t) && d.e == e && d.a == a
  }

  /** Every commit stamps an instant on an entity of its own. */
  ghost predicate Stamps(w: World, t: nat, d: Datom)
    requires Committed(w, t)
  {
    d in At(w, t) && d.op && d.e == TX_BASE + t && d.a == DB_TX_INSTANT
  }

  ghost predicate IsStamped(w: World, t: nat)
    requires Committed(w, t)
  {
    exists d :: Stamps(w, t, d)
  }

  ghost predicate LogOk(w: World) {
    (forall i :: 0 <= i < |w.log| ==> w.log[i].t == i + 1) &&
    (forall t, d :: Committed(w, t) && d in At(w, t) ==> d.t == t && (d.a == DB_TX_INSTANT ==> d.e == TX_BASE + t)) &&
    (forall t :: Committed(w, t) ==> IsStamped(w, t))
  }

  /** An ack carries facts of its own commit, and no fewer than its writer may read there. */
  ghost predicate AckOk(w: World, t: nat)
    requires Committed(w, t)
  {
    w.ack(t) == [] ||
    ((forall d :: d in w.ack(t) ==> d in At(w, t)) &&
     (forall d :: d in At(w, t) && Visible(w.rule(t), d) ==> d in w.ack(t)))
  }

  /** Commit `t` leaves the visibility of facts older than itself as it was. */
  ghost predicate Steady(w: World, t: nat)
    requires Committed(w, t)
  {
    forall s: nat, e: nat, a: nat :: 1 <= s < t && HasFact(w, s, e, a) ==> w.rule(t)(e, a) == w.rule(t - 1)(e, a)
  }

  /** What the sieve is trusted with: an entry it does not answer with a dump is steady. */
  ghost predicate StableSieve(w: World) {
    if w.unrestricted then forall t: nat, e: nat, a: nat :: w.rule(t)(e, a)
    else forall t :: Committed(w, t) && t !in w.flips ==> Steady(w, t)
  }

  ghost predicate WorldOk(w: World) {
    LogOk(w) && StableSieve(w) && forall t :: Committed(w, t) ==> AckOk(w, t)
  }

  lemma InHistory(w: World, n: nat, d: Datom)
    requires LogOk(w) && n <= |w.log|
    ensures d in History(w, n) <==> 1 <= d.t <= n && d in At(w, d.t)
  {
    if d in History(w, n) {
      var i :| 0 <= i < n && d in w.log[i].datoms;
      assert d in At(w, i + 1);
    }
    if 1 <= d.t <= n && d in At(w, d.t) {
      assert d in w.log[d.t - 1].datoms;
    }
  }

  ghost predicate Mentions(facts: set<Datom>, t: nat) {
    exists d :: d in facts && d.t == t
  }

  /** A dump of the view at `n` mentions every `t` up to `n`, by that commit's own stamp. */
  lemma DumpCovers(w: World, n: nat)
    requires LogOk(w) && n <= |w.log|
    ensures forall d :: d in DumpSet(w, n) ==> 1 <= d.t <= n && d in At(w, d.t)
    ensures forall t :: 1 <= t <= n ==> Mentions(DumpSet(w, n), t)
  {
    forall d | d in DumpSet(w, n) ensures 1 <= d.t <= n && d in At(w, d.t) {
      InHistory(w, n, d);
    }
    forall t | 1 <= t <= n ensures Mentions(DumpSet(w, n), t) {
      assert IsStamped(w, t);
      var d :| Stamps(w, t, d);
      InHistory(w, n, d);
      forall d' | d' in History(w, n) && d'.t <= n && SameFact(d', d.e, d.a, d.v) ensures d'.t <= d.t {
        InHistory(w, n, d');
      }
      assert d in DumpSet(w, n) && d.t == t;
    }
  }

  /** Over a stretch without dumps, what has a fact keeps its visibility. */
  lemma {:induction false} VisibilityHolds(w: World, s: nat, t: nat, n: nat, e: nat, a: nat)
    requires StableSieve(w) && 1 <= s <= t <= n <= |w.log| && HasFact(w, s, e, a)
    requires forall u :: t < u <= n ==> !Sieve(w, u).Resync?
    ensures w.rule(t)(e, a) == w.rule(n)(e, a)
    decreases n - t
  {
    if t < n && !w.unrestricted {
      VisibilityHolds(w, s, t, n - 1, e, a);
      assert !Sieve(w, n).Resync?;
      assert Steady(w, n);
    }
  }
}

/**
 * The client's half: what the follower holds once it has applied what was owed to it.
 *
 * Its painted `t` past the last dump hold every fact their reader may see, and
 * beside those only what the writer of that `t` was acked itself.
 */
module ClientHalf {
  import opened Datoms
  import opened SessionSync
  import opened Follower
  import opened ReplicatedLog
  import opened Pipeline

  function ApplyItem(v: View, x: Item): View {
    match x
    case ITx(_, datoms) => Paint(v, datoms)
    case IAck(_, datoms) => Paint(v, datoms)
    case IDump(t, datoms) => Replace(datoms, t)
    case IStamp(t) => Stamp(v, t)
    case Quiet => v
  }

  /** The follower's facts come from the log, and they know their `t`. */
  ghost predicate FactsOk(w: World, v: View) {
    (forall d :: d in v.facts ==> Committed(w, d.t) && d in At(w, d.t) && d.t in v.factTs) &&
    (forall t :: t in v.factTs ==> Mentions(v.facts, t))
  }

  /** At or below `base` the facts are the last dump, and no `t` there is open. */
  ghost predicate DumpedOk(w: World, base: nat, v: View) {
    base <= |w.log| &&
    (forall d: Datom :: d.t <= base ==> (d in v.facts <==> d in DumpSet(w, base))) &&
    (forall t :: 1 <= t <= base ==> t in v.factTs)
  }

  /** A painted `t` past the dump was told or acked: it holds all its reader may see, and at most its ack besides. */
  ghost predicate PaintedOk(w: World, v: View, t: nat)
    requires Committed(w, t)
  {
    (Sieve(w, t).Tx? || w.ack(t) != []) &&
    (forall d :: d in At(w, t) && Visible(w.rule(t), d) ==> d in v.facts) &&
    (forall d :: d in v.facts && d.t == t && !Visible(w.rule(t), d) ==> d in w.ack(t))
  }

  ghost predicate ViewOk(w: World, base: nat, v: View) {
    base <= v.confirmedT && FactsOk(w, v) && DumpedOk(w, base, v) &&
    (forall t :: t in v.factTs && base < t ==> Committed(w, t) && PaintedOk(w, v, t))
  }

  function PosOf(base: nat, v: View): Pos {
    Pos(base, (set t | t in v.factTs && t > base), v.confirmedT)
  }

  /** A payload for `t`: what the sieve let through, or what the writer was acked. */
  ghost predicate PayloadOk(w: World, t: nat, datoms: seq<Datom>) {
    Committed(w, t) &&
    (Sieve(w, t) == Tx(datoms) || (datoms == w.ack(t) && datoms != []))
  }

  lemma PaintShape(v: View, t: nat, datoms: seq<Datom>)
    requires datoms != [] && forall d :: d in datoms ==> d.t == t
    ensures Paint(v, datoms) ==
      if t in v.factTs then v else v.(facts := v.facts + ToSet(datoms), factTs := v.factTs + {t})
  {
    assert datoms[0] in datoms;
    if t in v.factTs {
      assert Fresh(v, datoms) == {};
    } else {
      assert Fresh(v, datoms) == ToSet(datoms);
      assert datoms[0] in ToSet(datoms);
      assert Ts(ToSet(datoms)) == {t};
    }
  }

  lemma PaintedFacts(w: World, base: nat, v: View, t: nat, datoms: seq<Datom>, p: View)
    requires WorldOk(w) && ViewOk(w, base, v) && PayloadOk(w, t, datoms) && t !in v.factTs
    requires p == v.(facts := v.facts + ToSet(datoms), factTs := v.factTs + {t})
    ensures FactsOk(w, p) && DumpedOk(w, base, p)
  {
    assert datoms[0] in datoms;
    assert datoms[0] in p.facts && datoms[0].t == t;
    forall u | u in p.factTs ensures Mentions(p.facts, u) {
      if u != t {
        assert Mentions(v.facts, u);
      }
    }
    assert t > base;
  }

  lemma PaintedUser(w: World, base: nat, v: View, t: nat, datoms: seq<Datom>, p: View, u: nat)
    requires WorldOk(w) && ViewOk(w, base, v) && PayloadOk(w, t, datoms) && t !in v.factTs
    requires p == v.(facts := v.facts + ToSet(datoms), factTs := v.factTs + {t}) && u in p.factTs && base < u
    ensures Committed(w, u) && PaintedOk(w, p, u)
  {
    if u != t {
      assert PaintedOk(w, v, u);
    } else {
      assert forall d :: d in v.facts ==> d.t != t;
    }
  }

  lemma PaintOk(w: World, base: nat, v: View, t: nat, datoms: seq<Datom>)
    requires WorldOk(w) && ViewOk(w, base, v) && PayloadOk(w, t, datoms)
    ensures ViewOk(w, base, Paint(v, datoms))
    ensures PosOf(base, Paint(v, datoms)) == Paints(PosOf(base, v), t)
  {
    PaintShape(v, t, datoms);
    var p := Paint(v, datoms);
    if t !in v.factTs {
      PaintedFacts(w, base, v, t, datoms, p);
      forall u | u in p.factTs && base < u ensures Committed(w, u) && PaintedOk(w, p, u) {
        PaintedUser(w, base, v, t, datoms, p, u);
      }
    }
  }

  lemma ReplaceOk(w: World, t: nat, datoms: seq<Datom>)
    requires WorldOk(w) && t <= |w.log| && ToSet(datoms) == DumpSet(w, t)
    ensures ViewOk(w, t, Replace(datoms, t))
    ensures PosOf(t, Replace(datoms, t)) == Pos(t, {}, t)
  {
    DumpCovers(w, t);
    var v := Replace(datoms, t);
    forall u | u in v.factTs ensures 1 <= u <= t && Mentions(v.facts, u) {
    }
    forall u | 1 <= u <= t ensures u in v.factTs {
      assert Mentions(DumpSet(w, t), u);
    }
  }

  lemma ApplyOk(w: World, base: nat, v: View, x: Item)
    requires WorldOk(w) && ViewOk(w, base, v) && Fits(w, PosOf(base, v), x)
    requires Acc(w, PosOf(base, v), v.confirmedT)
    ensures var base1 := if x.IDump? then x.t else base;
      var v1 := ApplyItem(v, x);
      ViewOk(w, base1, v1) && PosOf(base1, v1) == Advance(PosOf(base, v), x) && Acc(w, PosOf(base1, v1), v1.confirmedT)
  {
    match x
    case ITx(t, datoms) =>
      PaintOk(w, base, v, t, datoms);
      HeldOne(w, PosOf(base, v), x, v.confirmedT);
    case IAck(t, datoms) =>
      PaintOk(w, base, v, t, datoms);
      HeldOne(w, PosOf(base, v), x, v.confirmedT);
    case IDump(t, datoms) =>
      ReplaceOk(w, t, datoms);
    case IStamp(t) =>
      var v1 := Stamp(v, t);
      assert PosOf(base, v1) == Advance(PosOf(base, v), x);
      forall u | base < u <= v1.confirmedT ensures Settled(w, PosOf(base, v1), u) {
        assert Settled(w, PosOf(base, v), u);
      }
      forall u | u in v1.factTs && base < u ensures Committed(w, u) && PaintedOk(w, v1, u) {
        assert PaintedOk(w, v, u);
      }
    case Quiet =>
  }

  // ---- what it means ---------------------------------------------------------------

  ghost predicate FollowsTo(w: World, base: nat, v: View) {
    ViewOk(w, base, v) && Acc(w, PosOf(base, v), v.confirmedT)
  }

  lemma NoDumpSince(w: World, base: nat, v: View)
    requires FollowsTo(w, base, v)
    ensures forall u :: base < u <= v.confirmedT ==> !Sieve(w, u).Resync?
  {
    forall u | base < u <= v.confirmedT ensures !Sieve(w, u).Resync? {
      assert Settled(w, PosOf(base, v), u);
    }
  }

  /** Past the dump, on what the reader may see, the follower has the log. */
  lemma NothingMissing(w: World, base: nat, v: View, d: Datom)
    requires WorldOk(w) && FollowsTo(w, base, v)
    requires base < d.t <= v.confirmedT && !IsSystemAttr(d.a)
    requires d in At(w, d.t) && w.rule(v.confirmedT)(d.e, d.a)
    ensures d in v.facts
  {
    NoDumpSince(w, base, v);
    assert HasFact(w, d.t, d.e, d.a);
    VisibilityHolds(w, d.t, d.t, v.confirmedT, d.e, d.a);
    assert Visible(w.rule(d.t), d);
    assert SeesUserFact(w.rule(d.t), At(w, d.t));
    assert Settled(w, PosOf(base, v), d.t);
    assert PaintedOk(w, v, d.t);
  }

  lemma CurrentInLog(w: World, base: nat, v: View, d: Datom)
    requires WorldOk(w) && FollowsTo(w, base, v)
    requires d in History(w, v.confirmedT) && Newest(History(w, v.confirmedT), v.confirmedT, d) && d.op
    requires !IsSystemAttr(d.a) && w.rule(v.confirmedT)(d.e, d.a)
    ensures d in v.facts && Newest(v.facts, v.confirmedT, d)
  {
    var c := v.confirmedT;
    InHistory(w, c, d);
    if d.t > base {
      NothingMissing(w, base, v, d);
    } else {
      NoDumpSince(w, base, v);
      assert HasFact(w, d.t, d.e, d.a);
      VisibilityHolds(w, d.t, base, c, d.e, d.a);
      InHistory(w, base, d);
      forall x | x in History(w, base) && x.t <= base && SameFact(x, d.e, d.a, d.v) ensures x.t <= d.t {
        InHistory(w, base, x);
        InHistory(w, c, x);
      }
      assert d in DumpSet(w, base);
    }
    forall x | x in v.facts && x.t <= c && SameFact(x, d.e, d.a, d.v) ensures x.t <= d.t {
      InHistory(w, c, x);
    }
  }

  lemma CurrentInView(w: World, base: nat, v: View, d: Datom)
    requires WorldOk(w) && FollowsTo(w, base, v)
    requires d in v.facts && Newest(v.facts, v.confirmedT, d)
    requires !IsSystemAttr(d.a) && w.rule(v.confirmedT)(d.e, d.a)
    ensures d in History(w, v.confirmedT) && Newest(History(w, v.confirmedT), v.confirmedT, d)
  {
    var c := v.confirmedT;
    InHistory(w, c, d);
    forall x | x in History(w, c) && x.t <= c && SameFact(x, d.e, d.a, d.v) ensures x.t <= d.t {
      InHistory(w, c, x);
      if x.t > base {
        NothingMissing(w, base, v, x);
      } else if d.t <= base {
        InHistory(w, base, x);
        assert d in DumpSet(w, base);
      }
    }
  }

  lemma CurrentAgrees(w: World, base: nat, v: View, e: nat, a: nat, value: Value)
    requires WorldOk(w) && FollowsTo(w, base, v)
    requires !IsSystemAttr(a) && w.rule(v.confirmedT)(e, a)
    ensures Current(v.facts, v.confirmedT, e, a, value) <==>
      Current(History(w, v.confirmedT), v.confirmedT, e, a, value)
  {
    var c := v.confirmedT;
    if Current(History(w, c), c, e, a, value) {
      var d :| d in History(w, c) && d.op && Newest(History(w, c), c, d) && SameFact(d, e, a, value);
      CurrentInLog(w, base, v, d);
    }
    if Current(v.facts, c, e, a, value) {
      var d :| d in v.facts && d.op && Newest(v.facts, c, d) && SameFact(d, e, a, value);
      CurrentInView(w, base, v, d);
    }
  }

  lemma OnlyOwnExtras(w: World, base: nat, v: View, d: Datom)
    requires WorldOk(w) && FollowsTo(w, base, v)
    requires d in v.facts && d.t <= v.confirmedT && !IsSystemAttr(d.a) && !w.rule(v.confirmedT)(d.e, d.a)
    ensures d in w.ack(d.t)
  {
    NoDumpSince(w, base, v);
    assert HasFact(w, d.t, d.e, d.a);
    if d.t > base {
      VisibilityHolds(w, d.t, d.t, v.confirmedT, d.e, d.a);
      assert PaintedOk(w, v, d.t);
    } else {
      VisibilityHolds(w, d.t, base, v.confirmedT, d.e, d.a);
    }
  }

  // ---- the bootstrap facts ----------------------------------------------------------

  /** The log without the commits since the last dump that the follower holds nothing of. */
  ghost function Heard(w: World, base: nat, v: View): set<Datom>
    requires v.confirmedT <= |w.log|
  {
    set d | d in History(w, v.confirmedT) && (d.t <= base || d.t in v.factTs)
  }

  /** Since the last dump, a commit is either here with every bootstrap fact it has, or was kept silent. */
  lemma SilentCommits(w: World, base: nat, v: View, t: nat)
    requires WorldOk(w) && FollowsTo(w, base, v) && base < t <= v.confirmedT
    ensures t !in v.factTs ==> Sieve(w, t).Skip?
    ensures t in v.factTs ==> !Sieve(w, t).Skip? || w.ack(t) != []
    ensures forall d :: d in At(w, t) && IsSystemAttr(d.a) ==> (d in v.facts <==> t in v.factTs)
  {
    assert Settled(w, PosOf(base, v), t);
    assert t in v.factTs ==> PaintedOk(w, v, t);
  }

  lemma BootstrapIn(w: World, base: nat, v: View, d: Datom)
    requires WorldOk(w) && FollowsTo(w, base, v) && IsSystemAttr(d.a)
    requires d in Heard(w, base, v) && d.op && Newest(Heard(w, base, v), v.confirmedT, d)
    ensures d in v.facts && Newest(v.facts, v.confirmedT, d)
  {
    var c, heard := v.confirmedT, Heard(w, base, v);
    InHistory(w, c, d);
    if d.t > base {
      SilentCommits(w, base, v, d.t);
    } else {
      InHistory(w, base, d);
      forall x | x in History(w, base) && x.t <= base && SameFact(x, d.e, d.a, d.v) ensures x.t <= d.t {
        InHistory(w, base, x);
        InHistory(w, c, x);
        assert x in heard;
      }
      assert d in DumpSet(w, base);
    }
    forall x | x in v.facts && x.t <= c && SameFact(x, d.e, d.a, d.v) ensures x.t <= d.t {
      InHistory(w, c, x);
      assert x in heard;
    }
  }

  lemma BootstrapOut(w: World, base: nat, v: View, d: Datom)
    requires WorldOk(w) && FollowsTo(w, base, v) && IsSystemAttr(d.a)
    requires d in v.facts && Newest(v.facts, v.confirmedT, d)
    ensures d in Heard(w, base, v) && Newest(Heard(w, base, v), v.confirmedT, d)
  {
    var c := v.confirmedT;
    InHistory(w, c, d);
    forall x | x in Heard(w, base, v) && x.t <= c && SameFact(x, d.e, d.a, d.v) ensures x.t <= d.t {
      InHistory(w, c, x);
      if x.t > base {
        SilentCommits(w, base, v, x.t);
      } else if d.t <= base {
        InHistory(w, base, x);
        assert d in DumpSet(w, base);
      }
    }
  }

  /** On bootstrap attributes the follower's current view is that of the log less the silent commits. */
  lemma BootstrapAgrees(w: World, base: nat, v: View, e: nat, a: nat, value: Value)
    requires WorldOk(w) && FollowsTo(w, base, v) && IsSystemAttr(a)
    ensures Current(v.facts, v.confirmedT, e, a, value) <==>
      Current(Heard(w, base, v), v.confirmedT, e, a, value)
  {
    var c := v.confirmedT;
    if Current(Heard(w, base, v), c, e, a, value) {
      var d :| d in Heard(w, base, v) && d.op && Newest(Heard(w, base, v), c, d) && SameFact(d, e, a, value);
      BootstrapIn(w, base, v, d);
    }
    if Current(v.facts, c, e, a, value) {
      var d :| d in v.facts && d.op && Newest(v.facts, c, d) && SameFact(d, e, a, value);
      BootstrapOut(w, base, v, d);
    }
  }
}

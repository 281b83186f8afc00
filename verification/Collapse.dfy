/** The current view of an ordered run of datoms, in one pass. */
module Collapse {
  import opened Datoms

  predicate SameF(x: Datom, y: Datom) {
    SameFact(x, y.e, y.a, y.v)
  }

  /** Visible as of a `t`; without one everything is. */
  predicate Seen(d: Datom, asOf: Option<nat>) {
    asOf.None? || d.t <= asOf.value
  }

  /** Index order: one fact's datoms together, older first, and at one `t` the assertion last. */
  ghost predicate Ordered(ds: seq<Datom>) {
    && (forall i, j, k :: 0 <= i < j < k < |ds| && SameF(ds[i], ds[k]) ==> SameF(ds[i], ds[j]))
    && (forall i, j :: 0 <= i < j < |ds| && SameF(ds[i], ds[j]) ==>
          ds[i].t < ds[j].t || (ds[i].t == ds[j].t && (ds[i].op ==> ds[j].op)))
  }

  /** Of the first `n` datoms, `k` is the last visible one of its fact. */
  ghost predicate Final(ds: seq<Datom>, asOf: Option<nat>, n: nat, k: nat)
    requires n <= |ds|
  {
    && k < n && Seen(ds[k], asOf)
    && forall m :: k < m < n && Seen(ds[m], asOf) ==> !SameF(ds[k], ds[m])
  }

  ghost predicate OutAt(ds: seq<Datom>, asOf: Option<nat>, n: nat, pending: Option<nat>, d: Datom, k: nat)
    requires n <= |ds|
  {
    Final(ds, asOf, n, k) && Some(k) != pending && ds[k] == d && d.op
  }

  ghost predicate IsOut(ds: seq<Datom>, asOf: Option<nat>, n: nat, pending: Option<nat>, d: Datom)
    requires n <= |ds|
  {
    exists k: nat :: OutAt(ds, asOf, n, pending, d, k)
  }

  /** The asserted finals of the first `n`, but not the one at `pending`. */
  ghost predicate Collapsed(ds: seq<Datom>, asOf: Option<nat>, n: nat, pending: Option<nat>, out: seq<Datom>)
    requires n <= |ds|
  {
    && (forall d :: d in out <==> IsOut(ds, asOf, n, pending, d))
    && (forall i, j :: 0 <= i < j < |out| ==> !SameF(out[i], out[j]))
  }

  /** `p` is the last visible one of the first `n`. */
  ghost predicate LastSeen(ds: seq<Datom>, asOf: Option<nat>, n: nat, p: Option<nat>)
    requires n <= |ds|
  {
    match p
    case None => forall k :: 0 <= k < n ==> !Seen(ds[k], asOf)
    case Some(i) => i < n && Seen(ds[i], asOf) && forall k :: i < k < n ==> !Seen(ds[k], asOf)
  }

  /** All visible, all assertions, no two neighbours of one fact: nothing to collapse. */
  method IsPlainChunk(ds: seq<Datom>, asOf: Option<nat>) returns (plain: bool)
    requires ds != [] && Ordered(ds)
    ensures plain <==> forall i :: 0 <= i < |ds| ==>
      ds[i].op && Seen(ds[i], asOf) && (i > 0 ==> !SameF(ds[i - 1], ds[i]))
  {
    var prev := ds[0];
    if !prev.op || !Seen(prev, asOf) {
      return false;
    }
    for i := 1 to |ds|
      invariant prev == ds[i - 1]
      invariant forall k :: 0 <= k < i ==> ds[k].op && Seen(ds[k], asOf) && (k > 0 ==> !SameF(ds[k - 1], ds[k]))
    {
      var d := ds[i];
      if !d.op || !Seen(d, asOf) {
        return false;
      }
      if SameF(prev, d) {
        return false;
      }
      prev := d;
    }
    return true;
  }

  lemma PlainIsCollapsed(ds: seq<Datom>, asOf: Option<nat>)
    requires Ordered(ds)
    requires forall i :: 0 <= i < |ds| ==> ds[i].op && Seen(ds[i], asOf) && (i > 0 ==> !SameF(ds[i - 1], ds[i]))
    ensures Collapsed(ds, asOf, |ds|, None, ds)
  {
    forall i, j | 0 <= i < j < |ds| ensures !SameF(ds[i], ds[j]) {
      assert !SameF(ds[i], ds[i + 1]);
    }
    forall d | d in ds ensures IsOut(ds, asOf, |ds|, None, d) {
      var k: nat :| k < |ds| && ds[k] == d;
      assert OutAt(ds, asOf, |ds|, None, d, k);
    }
  }

  /** What a visible datom does to the finals before it: it only ends the pending one, if it is its fact's. */
  lemma FinalsStay(ds: seq<Datom>, asOf: Option<nat>, i: nat, p: nat, k: nat)
    requires Ordered(ds) && i < |ds| && Seen(ds[i], asOf) && LastSeen(ds, asOf, i, Some(p)) && k < i
    ensures Final(ds, asOf, i + 1, k) <==> Final(ds, asOf, i, k) && (k != p || !SameF(ds[p], ds[i]))
  {
    if Final(ds, asOf, i, k) && k != p {
      assert k < p && !SameF(ds[k], ds[p]);
      assert !SameF(ds[k], ds[i]);
    }
  }

  /** The next visible datom: it replaces the pending one of its own fact, or settles another's. */
  lemma NextSeen(ds: seq<Datom>, asOf: Option<nat>, i: nat, p: nat, out: seq<Datom>)
    requires Ordered(ds) && i < |ds| && Seen(ds[i], asOf) && LastSeen(ds, asOf, i, Some(p))
    requires Collapsed(ds, asOf, i, Some(p), out)
    ensures var settled := !SameF(ds[p], ds[i]) && ds[p].op;
      Collapsed(ds, asOf, i + 1, Some(i), if settled then out + [ds[p]] else out)
  {
    var settled := !SameF(ds[p], ds[i]) && ds[p].op;
    var next := if settled then out + [ds[p]] else out;
    forall d | d in out ensures !SameF(d, ds[p]) {
    }
    forall d ensures d in next <==> IsOut(ds, asOf, i + 1, Some(i), d) {
      if d in out {
        var k: nat :| OutAt(ds, asOf, i, Some(p), d, k);
        FinalsStay(ds, asOf, i, p, k);
        assert OutAt(ds, asOf, i + 1, Some(i), d, k);
      } else if settled && d == ds[p] {
        FinalsStay(ds, asOf, i, p, p);
        assert OutAt(ds, asOf, i + 1, Some(i), d, p);
      }
      if IsOut(ds, asOf, i + 1, Some(i), d) {
        var k: nat :| OutAt(ds, asOf, i + 1, Some(i), d, k);
        FinalsStay(ds, asOf, i, p, k);
        if k != p {
          assert OutAt(ds, asOf, i, Some(p), d, k);
        }
      }
    }
  }

  lemma Unseen(ds: seq<Datom>, asOf: Option<nat>, i: nat, p: Option<nat>, out: seq<Datom>)
    requires i < |ds| && !Seen(ds[i], asOf) && LastSeen(ds, asOf, i, p) && Collapsed(ds, asOf, i, p, out)
    ensures LastSeen(ds, asOf, i + 1, p) && Collapsed(ds, asOf, i + 1, p, out)
  {
    forall k: nat ensures Final(ds, asOf, i + 1, k) <==> Final(ds, asOf, i, k) {
    }
    forall d ensures IsOut(ds, asOf, i + 1, p, d) <==> IsOut(ds, asOf, i, p, d) {
      if IsOut(ds, asOf, i + 1, p, d) {
        var k: nat :| OutAt(ds, asOf, i + 1, p, d, k);
        assert OutAt(ds, asOf, i, p, d, k);
      }
      if IsOut(ds, asOf, i, p, d) {
        var k: nat :| OutAt(ds, asOf, i, p, d, k);
        assert OutAt(ds, asOf, i + 1, p, d, k);
      }
    }
  }

  lemma LastSettled(ds: seq<Datom>, asOf: Option<nat>, p: Option<nat>, out: seq<Datom>)
    requires LastSeen(ds, asOf, |ds|, p) && Collapsed(ds, asOf, |ds|, p, out)
    ensures Collapsed(ds, asOf, |ds|, None, if p.Some? && ds[p.value].op then out + [ds[p.value]] else out)
  {
    if p.Some? {
      forall d | d in out ensures !SameF(d, ds[p.value]) {
      }
      var next := if ds[p.value].op then out + [ds[p.value]] else out;
      forall d ensures d in next <==> IsOut(ds, asOf, |ds|, None, d) {
        if d in out {
          var k: nat :| OutAt(ds, asOf, |ds|, p, d, k);
          assert OutAt(ds, asOf, |ds|, None, d, k);
        } else if ds[p.value].op && d == ds[p.value] {
          assert OutAt(ds, asOf, |ds|, None, d, p.value);
        }
        if IsOut(ds, asOf, |ds|, None, d) {
          var k: nat :| OutAt(ds, asOf, |ds|, None, d, k);
          if k != p.value {
            assert OutAt(ds, asOf, |ds|, p, d, k);
          }
        }
      }
    }
  }

  datatype Acc = Acc(pending: Option<Datom>, out: seq<Datom>)

  function Settle(a: Acc): seq<Datom> {
    if a.pending.Some? && a.pending.value.op then a.out + [a.pending.value] else a.out
  }

  /** One turn of the loop. */
  function Feed(a: Acc, d: Datom, asOf: Option<nat>): Acc {
    if !Seen(d, asOf) then a
    else if a.pending.Some? && SameF(a.pending.value, d) then a.(pending := Some(d))
    else Acc(Some(d), Settle(a))
  }

  function FeedAll(ds: seq<Datom>, asOf: Option<nat>): Acc {
    if ds == [] then Acc(None, []) else Feed(FeedAll(ds[..|ds| - 1], asOf), ds[|ds| - 1], asOf)
  }

  /** After `n` turns the accumulator holds what is settled of the first `n`. */
  ghost predicate Holds(ds: seq<Datom>, asOf: Option<nat>, n: nat, p: Option<nat>, a: Acc)
    requires n <= |ds|
  {
    LastSeen(ds, asOf, n, p) && Collapsed(ds, asOf, n, p, a.out) &&
    a.pending == if p.Some? then Some(ds[p.value]) else None
  }

  lemma FeedHolds(ds: seq<Datom>, asOf: Option<nat>, i: nat, p: Option<nat>, a: Acc)
    requires Ordered(ds) && i < |ds| && Holds(ds, asOf, i, p, a)
    ensures Holds(ds, asOf, i + 1, if Seen(ds[i], asOf) then Some(i) else p, Feed(a, ds[i], asOf))
  {
    if !Seen(ds[i], asOf) {
      Unseen(ds, asOf, i, p, a.out);
    } else if p.Some? {
      NextSeen(ds, asOf, i, p.value, a.out);
    }
  }

  lemma {:induction false} FedHolds(ds: seq<Datom>, asOf: Option<nat>, n: nat) returns (p: Option<nat>)
    requires Ordered(ds) && n <= |ds|
    ensures Holds(ds, asOf, n, p, FeedAll(ds[..n], asOf))
    decreases n
  {
    p := None;
    if n > 0 {
      var q := FedHolds(ds, asOf, n - 1);
      FeedHolds(ds, asOf, n - 1, q, FeedAll(ds[..n - 1], asOf));
      p := if Seen(ds[n - 1], asOf) then Some(n - 1) else q;
      assert ds[..n][..n - 1] == ds[..n - 1];
    }
  }

  lemma FedIsCollapsed(ds: seq<Datom>, asOf: Option<nat>)
    requires Ordered(ds)
    ensures Collapsed(ds, asOf, |ds|, None, Settle(FeedAll(ds, asOf)))
  {
    var p := FedHolds(ds, asOf, |ds|);
    assert ds[..|ds|] == ds;
    LastSettled(ds, asOf, p, FeedAll(ds, asOf).out);
  }

  method CollapseCurrent(ds: seq<Datom>, asOf: Option<nat>) returns (out: seq<Datom>)
    requires Ordered(ds)
    ensures Collapsed(ds, asOf, |ds|, None, out)
  {
    if ds == [] {
      FedIsCollapsed(ds, asOf);
      return ds;
    }
    var plain := IsPlainChunk(ds, asOf);
    if plain {
      PlainIsCollapsed(ds, asOf);
      return ds;
    }
    out := [];
    var pending: Option<Datom> := None;
    for i := 0 to |ds|
      invariant FeedAll(ds[..i], asOf) == Acc(pending, out)
    {
      var d := ds[i];
      assert ds[..i + 1][..i] == ds[..i];
      if Seen(d, asOf) {
        if pending.Some? && SameF(pending.value, d) {
          pending := Some(d);
        } else {
          if pending.Some? && pending.value.op {
            out := out + [pending.value];
          }
          pending := Some(d);
        }
      }
    }
    assert ds[..|ds|] == ds;
    FedIsCollapsed(ds, asOf);
    if pending.Some? && pending.value.op {
      out := out + [pending.value];
    }
  }

  // ---- it is the current view -------------------------------------------------------------------

  lemma {:induction false} HasFinal(ds: seq<Datom>, asOf: Option<nat>, n: nat, i: nat) returns (k: nat)
    requires i < n <= |ds| && Seen(ds[i], asOf)
    ensures i <= k && Final(ds, asOf, n, k) && SameF(ds[i], ds[k])
    decreases n
  {
    if i == n - 1 {
      k := i;
    } else {
      k := HasFinal(ds, asOf, n - 1, i);
      if Seen(ds[n - 1], asOf) && SameF(ds[k], ds[n - 1]) {
        k := n - 1;
      }
    }
  }

  /** `upTo` is what the pass reads as of; without an `asOf`, any `t` that nothing in the run is past. */
  ghost predicate ReadsUpTo(ds: seq<Datom>, asOf: Option<nat>, upTo: nat) {
    match asOf
    case Some(t) => upTo == t
    case None => forall i :: 0 <= i < |ds| ==> ds[i].t <= upTo
  }

  lemma CurrentIsOut(ds: seq<Datom>, asOf: Option<nat>, upTo: nat, out: seq<Datom>, d: Datom) returns (x: Datom)
    requires Ordered(ds) && ReadsUpTo(ds, asOf, upTo) && Collapsed(ds, asOf, |ds|, None, out)
    requires d in ToSet(ds) && d.op && Newest(ToSet(ds), upTo, d)
    ensures x in out && SameF(x, d)
  {
    var i: nat :| i < |ds| && ds[i] == d;
    var k := HasFinal(ds, asOf, |ds|, i);
    x := ds[k];
    assert x in ToSet(ds) && x.t <= d.t;
    assert OutAt(ds, asOf, |ds|, None, x, k);
  }

  /**
   * The pass finds exactly the current facts: the op of the highest `t`, an
   * assertion winning a tie. Without an `asOf` that is of all there is.
   */
  lemma CollapsedIsCurrent(
      ds: seq<Datom>, asOf: Option<nat>, upTo: nat, out: seq<Datom>, e: nat, a: nat, v: Value)
    requires Ordered(ds) && ReadsUpTo(ds, asOf, upTo) && Collapsed(ds, asOf, |ds|, None, out)
    ensures (exists d :: d in out && SameFact(d, e, a, v)) <==> Current(ToSet(ds), upTo, e, a, v)
  {
    if Current(ToSet(ds), upTo, e, a, v) {
      var d :| d in ToSet(ds) && d.op && Newest(ToSet(ds), upTo, d) && SameFact(d, e, a, v);
      var x := CurrentIsOut(ds, asOf, upTo, out, d);
    }
  }

  /** A seek that brings all of one entity's datoms is enough for its facts. */
  lemma SeekIsEnough(
      all: set<Datom>, found: seq<Datom>, asOf: Option<nat>, upTo: nat, out: seq<Datom>, e: nat, a: nat, v: Value)
    requires Ordered(found) && ReadsUpTo(found, asOf, upTo) && Collapsed(found, asOf, |found|, None, out)
    requires forall d: Datom :: d.e == e ==> (d in found <==> d in all)
    ensures (exists d :: d in out && SameFact(d, e, a, v)) <==> Current(all, upTo, e, a, v)
  {
    CollapsedIsCurrent(found, asOf, upTo, out, e, a, v);
  }
}

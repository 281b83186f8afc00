/** The confirmed half of the client overlay: facts painted by their `t`, and a separate cursor. */
module Follower {
  import opened Datoms

  /** `factTs` remembers which `t` have facts here; it says nothing about a prefix. */
  datatype View = View(facts: set<Datom>, factTs: set<nat>, confirmedT: nat)

  function Ts(facts: set<Datom>): set<nat> {
    set d | d in facts :: d.t
  }

  function Fresh(v: View, datoms: seq<Datom>): set<Datom> {
    set d | d in datoms && d.t !in v.factTs
  }

  function Paint(v: View, datoms: seq<Datom>): View {
    v.(facts := v.facts + Fresh(v, datoms), factTs := v.factTs + Ts(Fresh(v, datoms)))
  }

  function Replace(datoms: seq<Datom>, t: nat): View {
    View(ToSet(datoms), Ts(ToSet(datoms)), t)
  }

  /** A walked `sync` reply moves the cursor forward, never back. */
  function Stamp(v: View, t: nat): View {
    if t > v.confirmedT then v.(confirmedT := t) else v
  }

  class ConfirmedFollower {
    var facts: set<Datom>
    var factTs: set<nat>
    var confirmedT: nat

    function Abs(): View
      reads this
    {
      View(facts, factTs, confirmedT)
    }

    constructor ()
      ensures Abs() == View({}, {}, 0)
    {
      facts, factTs, confirmedT := {}, {}, 0;
    }

    method PaintFacts(datoms: seq<Datom>)
      modifies this
      ensures Abs() == Paint(old(Abs()), datoms)
    {
      if datoms == [] {
        return;
      }
      var unseen: seq<Datom> := [];
      for i := 0 to |datoms|
        invariant ToSet(unseen) == Fresh(old(Abs()), datoms[..i])
        invariant facts == old(facts) && factTs == old(factTs) && confirmedT == old(confirmedT)
      {
        assert datoms[..i + 1] == datoms[..i] + [datoms[i]];
        if datoms[i].t !in factTs {
          assert ToSet(unseen + [datoms[i]]) == ToSet(unseen) + {datoms[i]};
          unseen := unseen + [datoms[i]];
        }
      }
      assert datoms[..|datoms|] == datoms;
      if unseen == [] {
        assert ToSet(unseen) == {};
        return;
      }
      facts := facts + ToSet(unseen);
      for i := 0 to |unseen|
        invariant factTs == old(factTs) + Ts(ToSet(unseen[..i]))
        invariant facts == old(facts) + ToSet(unseen) && confirmedT == old(confirmedT)
      {
        assert ToSet(unseen[..i + 1]) == ToSet(unseen[..i]) + {unseen[i]};
        factTs := factTs + {unseen[i].t};
      }
      assert unseen[..|unseen|] == unseen;
    }

    method ReplaceConfirmed(datoms: seq<Datom>, t: nat)
      modifies this
      ensures Abs() == Replace(datoms, t)
    {
      facts := ToSet(datoms);
      confirmedT := t;
      factTs := {};
      for i := 0 to |datoms|
        invariant factTs == Ts(ToSet(datoms[..i]))
        invariant facts == ToSet(datoms) && confirmedT == t
      {
        assert ToSet(datoms[..i + 1]) == ToSet(datoms[..i]) + {datoms[i]};
        factTs := factTs + {datoms[i].t};
      }
      assert datoms[..|datoms|] == datoms;
    }

    method StampSync(t: nat)
      modifies this
      ensures Abs() == Stamp(old(Abs()), t)
      ensures confirmedT >= old(confirmedT) && confirmedT >= t && confirmedT in {old(confirmedT), t}
    {
      if t > confirmedT {
        confirmedT := t;
      }
    }
  }

  // ---- any order, any repeats --------------------------------------------------------

  function PaintAll(v: View, deliveries: seq<seq<Datom>>): View
    decreases |deliveries|
  {
    if deliveries == [] then v else PaintAll(Paint(v, deliveries[0]), deliveries[1..])
  }

  /** Two deliveries that both speak about an unpainted `t` say the same about it. */
  ghost predicate SamePayload(v: View, x: seq<Datom>, y: seq<Datom>) {
    forall d, d' :: d in x && d' in y && d.t == d'.t && d.t !in v.factTs ==> d in y && d' in x
  }

  ghost predicate OnePayloadPerT(v: View, deliveries: seq<seq<Datom>>) {
    forall x, y :: x in deliveries && y in deliveries ==> SamePayload(v, x, y)
  }

  ghost predicate Delivered(v: View, deliveries: seq<seq<Datom>>, d: Datom) {
    d.t !in v.factTs && exists x :: x in deliveries && d in x
  }

  lemma {:induction false} PaintAllIsUnion(v: View, deliveries: seq<seq<Datom>>)
    requires OnePayloadPerT(v, deliveries)
    ensures var p := PaintAll(v, deliveries);
      && p.confirmedT == v.confirmedT
      && (forall d :: d in p.facts <==> d in v.facts || Delivered(v, deliveries, d))
      && (forall t :: t in p.factTs <==> t in v.factTs || exists d :: Delivered(v, deliveries, d) && d.t == t)
    decreases |deliveries|
  {
    if deliveries != [] {
      var x, rest := deliveries[0], deliveries[1..];
      var v1 := Paint(v, x);
      assert forall y :: y in deliveries <==> y == x || y in rest;
      PaintAllIsUnion(v1, rest);
      var p := PaintAll(v, deliveries);
      forall d ensures d in p.facts <==> d in v.facts || Delivered(v, deliveries, d) {
        if Delivered(v, deliveries, d) && d !in x {
          var y :| y in rest && d in y;
          assert SamePayload(v, x, y);
          assert Delivered(v1, rest, d);
        }
      }
      forall t ensures t in p.factTs <==> t in v.factTs || exists d :: Delivered(v, deliveries, d) && d.t == t {
        if t in Ts(Fresh(v, x)) {
          var d :| d in Fresh(v, x) && d.t == t;
          assert Delivered(v, deliveries, d);
        }
        if exists d :: Delivered(v, deliveries, d) && d.t == t {
          var d :| Delivered(v, deliveries, d) && d.t == t;
          if d.t !in v1.factTs {
            assert d !in x;
            assert Delivered(v1, rest, d);
          }
        }
      }
    }
  }

  /** Between two dumps the view depends on what arrived, not on when, nor on how often. */
  lemma PaintingIsOrderFree(v: View, xs: seq<seq<Datom>>, ys: seq<seq<Datom>>)
    requires OnePayloadPerT(v, xs)
    requires forall x :: x in xs <==> x in ys
    ensures PaintAll(v, xs) == PaintAll(v, ys)
  {
    PaintAllIsUnion(v, xs);
    PaintAllIsUnion(v, ys);
    var p, q := PaintAll(v, xs), PaintAll(v, ys);
    assert forall d :: Delivered(v, xs, d) <==> Delivered(v, ys, d);
    assert p.facts == q.facts;
    assert p.factTs == q.factTs;
  }

  /** A `t` is painted at most once: whatever says more about it later is not heard. */
  lemma {:induction false} PaintedOnce(v: View, deliveries: seq<seq<Datom>>, t: nat)
    requires t in v.factTs
    ensures forall d: Datom :: d.t == t ==> (d in PaintAll(v, deliveries).facts <==> d in v.facts)
    decreases |deliveries|
  {
    if deliveries != [] {
      PaintedOnce(Paint(v, deliveries[0]), deliveries[1..], t);
    }
  }

  /**
   * The hypothesis is exact: two deliveries commute on a follower if and only
   * if they say the same about every unpainted `t` they share. A frame the
   * sieve narrowed and a wider HTTP ack of the same `t` do not.
   */
  lemma CommuteIff(v: View, x: seq<Datom>, y: seq<Datom>)
    requires Ts(v.facts) <= v.factTs
    ensures Paint(Paint(v, x), y) == Paint(Paint(v, y), x) <==> SamePayload(v, x, y)
  {
    if !SamePayload(v, x, y) {
      var d, d' :| d in x && d' in y && d.t == d'.t && d.t !in v.factTs && !(d in y && d' in x);
      assert d in Fresh(v, x) && d' in Fresh(v, y);
    }
  }

  /** A frame without the write's private fact, and the ack that has it: only the first of them is heard. */
  lemma NarrowAndWideDoNotCommute()
    ensures var stamp, mine := Datom(TX_BASE + 7, DB_TX_INSTANT, Num(0), 7, true), Datom(1000, 2001, Str("x"), 7, true);
      var v, x, y := View({}, {}, 0), [stamp], [stamp, mine];
      mine !in Paint(Paint(v, x), y).facts && mine in Paint(Paint(v, y), x).facts
  {
    var stamp, mine := Datom(TX_BASE + 7, DB_TX_INSTANT, Num(0), 7, true), Datom(1000, 2001, Str("x"), 7, true);
    var v, x, y := View({}, {}, 0), [stamp], [stamp, mine];
    assert stamp in Fresh(v, x);
    assert stamp in y && mine in Fresh(v, y);
  }
}

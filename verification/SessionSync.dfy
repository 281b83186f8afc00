/** The sieve: what one principal may hear about one committed transaction. */
module SessionSync {
  import opened Datoms

  datatype Entry = Entry(t: nat, datoms: seq<Datom>)

  /** Novelty since a root, as a replica holds it. */
  datatype Log = Log(t: nat, rootT: nat, entries: seq<Entry>)

  /** `Broken` is a sieve that threw, or a `tx` decision that carried no datoms. */
  datatype Decision = Skip | Resync | Tx(datoms: seq<Datom>) | Broken

  /** May this principal read entity `e`'s attribute `a`? */
  type ReadRule = (nat, nat) -> bool

  /** Bootstrap facts are always visible; every other one is the policy's to decide. */
  predicate Visible(rule: ReadRule, d: Datom) {
    IsSystemAttr(d.a) || rule(d.e, d.a)
  }

  function Kept(rule: ReadRule, datoms: seq<Datom>): (kept: seq<Datom>)
    ensures forall d :: d in kept <==> d in datoms && Visible(rule, d)
  {
    if datoms == [] then []
    else
      var rest := Kept(rule, datoms[..|datoms| - 1]);
      var last := datoms[|datoms| - 1];
      if Visible(rule, last) then rest + [last] else rest
  }

  ghost predicate SeesUserFact(rule: ReadRule, datoms: seq<Datom>) {
    exists d :: d in datoms && !IsSystemAttr(d.a) && Visible(rule, d)
  }

  /** `unrestricted`: no policy, no principal, or an administrator. `flipped`: the entry moves access to older facts. */
  ghost function Decide(unrestricted: bool, flipped: bool, rule: ReadRule, datoms: seq<Datom>): Decision {
    if unrestricted then Tx(datoms)
    else if flipped then Resync
    else if SeesUserFact(rule, datoms) then Tx(Kept(rule, datoms))
    else Skip
  }

  /** The four answers and when each is given; silence exactly when nothing of the user's is readable. */
  lemma DecideIff(unrestricted: bool, flipped: bool, rule: ReadRule, datoms: seq<Datom>)
    ensures var d := Decide(unrestricted, flipped, rule, datoms);
      && d != Broken
      && (d.Resync? <==> !unrestricted && flipped)
      && (d.Skip? <==> !unrestricted && !flipped && forall x :: x in datoms ==> x.a < 1000 || !rule(x.e, x.a))
      && (d.Tx? && unrestricted ==> d.datoms == datoms)
      && (d.Tx? && !unrestricted ==> Sifted(rule, datoms, d.datoms))
  {
    KeptIsSifted(rule, datoms);
  }

  /** `kept` is what of `datoms` the rule shows, in order and as often. */
  ghost predicate Sifted(rule: ReadRule, datoms: seq<Datom>, kept: seq<Datom>)
    decreases |datoms|
  {
    if datoms == [] then kept == []
    else
      var d := datoms[|datoms| - 1];
      if d.a < 1000 || rule(d.e, d.a) then
        kept != [] && kept[|kept| - 1] == d && Sifted(rule, datoms[..|datoms| - 1], kept[..|kept| - 1])
      else Sifted(rule, datoms[..|datoms| - 1], kept)
  }

  lemma {:induction false} KeptIsSifted(rule: ReadRule, datoms: seq<Datom>)
    ensures Sifted(rule, datoms, Kept(rule, datoms))
    decreases |datoms|
  {
    if datoms != [] {
      KeptIsSifted(rule, datoms[..|datoms| - 1]);
      var rest := Kept(rule, datoms[..|datoms| - 1]);
      assert (rest + [datoms[|datoms| - 1]])[..|rest|] == rest;
    }
  }

  method DecideSessionTx(unrestricted: bool, flipped: bool, rule: ReadRule, datoms: seq<Datom>)
    returns (decision: Decision)
    ensures decision == Decide(unrestricted, flipped, rule, datoms)
  {
    if unrestricted {
      return Tx(datoms);
    }
    if flipped {
      return Resync;
    }
    var kept: seq<Datom> := [];
    var userKept: nat := 0;
    for i := 0 to |datoms|
      invariant kept == Kept(rule, datoms[..i])
      invariant userKept == 0 <==> !SeesUserFact(rule, datoms[..i])
    {
      var d := datoms[i];
      assert datoms[..i + 1][..i] == datoms[..i];
      assert datoms[..i + 1] == datoms[..i] + [d];
      if Visible(rule, d) {
        kept := kept + [d];
        if !IsSystemAttr(d.a) {
          userKept := userKept + 1;
        }
      }
    }
    assert datoms[..|datoms|] == datoms;
    if userKept == 0 {
      return Skip;
    }
    return Tx(kept);
  }
}

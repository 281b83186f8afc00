/**
 * What is on its way to the follower, and what the follower will know once it
 * is there: the last dump, the commits painted past it, and the follow cursor.
 */
module Pipeline {
  import opened Datoms
  import opened SessionSync
  import opened Session
  import opened ReplicatedLog

  /** A stamp waits behind the frames that came before its reply; `Quiet` events put nothing on the wire. */
  datatype Item =
    | ITx(t: nat, datoms: seq<Datom>)
    | IDump(t: nat, datoms: seq<Datom>)
    | IAck(t: nat, datoms: seq<Datom>)
    | IStamp(t: nat)
    | Quiet

  function ToItem(ev: Event): Item {
    match ev
    case Sent(TxFrame(t, datoms, _)) => ITx(t, datoms)
    case Sent(ResyncFrame(t, dump)) => IDump(t, if dump.Some? then dump.value else [])
    case Sent(SyncReply(t, _)) => IStamp(t)
    case _ => Quiet
  }

  function Wire(out: seq<Event>): (items: seq<Item>)
    ensures |items| == |out|
  {
    seq(|out|, i requires 0 <= i < |out| => ToItem(out[i]))
  }

  /** The last dump, the `t` painted past it, and the follow cursor. */
  datatype Pos = Pos(base: nat, painted: set<nat>, told: nat)

  function Max(x: nat, y: nat): nat {
    if x > y then x else y
  }

  function Paints(p: Pos, t: nat): Pos {
    if t > p.base then p.(painted := p.painted + {t}) else p
  }

  function Advance(p: Pos, x: Item): Pos {
    match x
    case ITx(t, _) => Paints(p, t)
    case IAck(t, _) => Paints(p, t)
    case IDump(t, _) => Pos(t, {}, Max(p.told, t))
    case IStamp(t) => p.(told := Max(p.told, t))
    case Quiet => p
  }

  function End(p: Pos, items: seq<Item>): Pos {
    if items == [] then p else Advance(End(p, items[..|items| - 1]), items[|items| - 1])
  }

  ghost predicate Settled(w: World, p: Pos, t: nat)
    requires Committed(w, t)
  {
    Sieve(w, t).Skip? || (Sieve(w, t).Tx? && t in p.painted)
  }

  /** Nothing past the last dump, up to `n`, is missing. */
  ghost predicate Acc(w: World, p: Pos, n: nat) {
    n <= |w.log| && forall t :: p.base < t <= n ==> Settled(w, p, t)
  }

  /** Accounted for now, and by every dump still to come. */
  ghost predicate Held(w: World, p: Pos, n: nat) {
    Acc(w, p, n) && n <= p.told
  }

  /** The item is what the server owed the client at this point. */
  ghost predicate Fits(w: World, p: Pos, x: Item) {
    match x
    case ITx(t, datoms) => Committed(w, t) && Sieve(w, t) == Tx(datoms)
    case IAck(t, datoms) => Committed(w, t) && datoms == w.ack(t) && datoms != []
    case IDump(t, datoms) => p.told <= t <= |w.log| && ToSet(datoms) == DumpSet(w, t)
    case IStamp(t) => Acc(w, p, t)
    case Quiet => true
  }

  ghost predicate AllFit(w: World, p: Pos, items: seq<Item>) {
    items == [] ||
    (AllFit(w, p, items[..|items| - 1]) && Fits(w, End(p, items[..|items| - 1]), items[|items| - 1]))
  }

  lemma {:induction false} EndConcat(w: World, p: Pos, xs: seq<Item>, ys: seq<Item>)
    ensures End(p, xs + ys) == End(End(p, xs), ys)
    ensures AllFit(w, p, xs + ys) <==> AllFit(w, p, xs) && AllFit(w, End(p, xs), ys)
  {
    if ys == [] {
      assert xs + ys == xs;
    } else {
      var init := ys[..|ys| - 1];
      assert (xs + ys)[..|xs + ys| - 1] == xs + init;
      EndConcat(w, p, xs, init);
    }
  }

  lemma EndCons(w: World, p: Pos, x: Item, xs: seq<Item>)
    ensures End(p, [x] + xs) == End(Advance(p, x), xs)
    ensures AllFit(w, p, [x] + xs) <==> Fits(w, p, x) && AllFit(w, Advance(p, x), xs)
  {
    EndConcat(w, p, [x], xs);
    assert [] + [x] == [x];
  }

  ghost predicate Below(p: Pos, q: Pos) {
    p.base == q.base && p.told == q.told && p.painted <= q.painted
  }

  lemma AccMore(w: World, p: Pos, q: Pos, n: nat)
    requires Below(p, q) && Acc(w, p, n)
    ensures Acc(w, q, n)
  {
    forall t | q.base < t <= n ensures Settled(w, q, t) {
      assert Settled(w, p, t);
    }
  }

  /** Having painted more only helps. */
  lemma {:induction false} MorePainted(w: World, p: Pos, q: Pos, items: seq<Item>)
    requires Below(p, q) && AllFit(w, p, items)
    ensures Below(End(p, items), End(q, items)) && AllFit(w, q, items)
  {
    if items != [] {
      var init, last := items[..|items| - 1], items[|items| - 1];
      MorePainted(w, p, q, init);
      if last.IStamp? {
        AccMore(w, End(p, init), End(q, init), last.t);
      }
    }
  }

  lemma HeldOne(w: World, p: Pos, x: Item, n: nat)
    requires Held(w, p, n) && Fits(w, p, x)
    ensures Held(w, Advance(p, x), n)
  {
    if !x.IDump? {
      var q := Advance(p, x);
      AccMore(w, p, q.(told := p.told), n);
      forall t | q.base < t <= n ensures Settled(w, q, t) {
        assert Settled(w, q.(told := p.told), t);
      }
    }
  }

  /** What is accounted for stays so as more arrives: later dumps are at least as new. */
  lemma {:induction false} HeldAlong(w: World, p: Pos, items: seq<Item>, n: nat)
    requires Held(w, p, n) && AllFit(w, p, items)
    ensures Held(w, End(p, items), n)
  {
    if items != [] {
      HeldAlong(w, p, items[..|items| - 1], n);
      HeldOne(w, End(p, items[..|items| - 1]), items[|items| - 1], n);
    }
  }

  lemma {:induction false} ToldGrows(p: Pos, items: seq<Item>)
    ensures p.told <= End(p, items).told
  {
    if items != [] {
      ToldGrows(p, items[..|items| - 1]);
    }
  }

  /** A stamp may trade places with the item behind it. */
  lemma StampWaits(w: World, p: Pos, t: nat, x: Item)
    requires Fits(w, p, IStamp(t)) && Fits(w, Advance(p, IStamp(t)), x)
    ensures Fits(w, p, x) && Fits(w, Advance(p, x), IStamp(t))
    ensures Advance(Advance(p, x), IStamp(t)) == Advance(Advance(p, IStamp(t)), x)
  {
    var q := p.(told := Max(p.told, t));
    assert forall u :: Committed(w, u) && Settled(w, p, u) ==> Settled(w, q, u);
    assert Held(w, q, t);
    HeldOne(w, q, x, t);
    var r := Advance(q, x);
    assert forall u :: Committed(w, u) && Settled(w, r, u) ==> Settled(w, Advance(p, x), u);
    if x.IStamp? {
      assert forall u :: Committed(w, u) && Settled(w, q, u) ==> Settled(w, p, u);
    }
  }
}

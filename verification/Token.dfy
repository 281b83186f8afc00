/** A refreshing token source: one cache and one mint at a time. */
module Token {
  import opened Datoms

  /** `mint` is the attempt it came from, `at` the epoch that attempt began in. Times are in milliseconds. */
  datatype Entry = Entry(value: string, exp: Option<real>, refreshAt: Option<real>, mintedAt: real, mint: nat, at: nat)

  /** `minting` holds the attempts that have not settled yet, with the epoch each began in. */
  datatype Source = Source(
    cached: Option<Entry>, inflight: Option<nat>, epoch: nat, now: real, begun: nat, minting: map<nat, nat>)

  /** What `current` answers: from the cache, or with the promise of an attempt. */
  datatype Answer = FromCache(entry: Entry) | FromMint(mint: nat)

  function RefreshAt(exp: Option<real>, mintedAt: real, margin: real): Option<real> {
    if exp.None? then None
    else
      var lifetime := exp.value - mintedAt;
      if lifetime <= margin then Some(mintedAt + (if lifetime > 0.0 then lifetime else 0.0) / 2.0)
      else Some(exp.value - margin)
  }

  predicate Usable(s: Source) {
    s.cached.Some? && (s.cached.value.refreshAt.None? || s.now < s.cached.value.refreshAt.value)
  }

  function MintNow(s: Source): Source {
    if s.inflight.Some? then s
    else s.(inflight := Some(s.begun), begun := s.begun + 1, minting := s.minting[s.begun := s.epoch])
  }

  function Answered(s: Source): (Source, Answer) {
    if Usable(s) then (s, FromCache(s.cached.value))
    else
      var s1 := MintNow(s);
      (s1, FromMint(if s.inflight.Some? then s.inflight.value else s.begun))
  }

  datatype Label =
    | Tick(now: real)
    | Read
    | Peek
    | Minted(mint: nat, value: string, exp: Option<real>)
    | Failed(mint: nat)
    | Settled(mint: nat)
    | Invalidate

  predicate Enabled(s: Source, l: Label) {
    match l
    case Tick(now) => s.now <= now
    case Minted(m, _, _) => m in s.minting
    case Failed(m) => m in s.minting
    case Settled(m) => m in s.minting
    case _ => true
  }

  function Step(margin: real, s: Source, l: Label): Source
    requires Enabled(s, l)
  {
    match l
    case Tick(now) => s.(now := now)
    case Read => Answered(s).0
    // the claims come from the cache as it is, due or not
    case Peek => if s.cached.Some? then s else MintNow(s)
    case Minted(m, value, exp) =>
      var entry := Entry(value, exp, RefreshAt(exp, s.now, margin), s.now, m, s.minting[m]);
      if s.epoch == s.minting[m] then s.(cached := Some(entry)) else s
    case Failed(m) => s
    case Settled(m) => s.(inflight := if s.inflight == Some(m) then None else s.inflight, minting := s.minting - {m})
    case Invalidate => s.(epoch := s.epoch + 1, cached := None, inflight := None)
  }

  class TokenSource {
    const margin: real
    var cached: Option<Entry>
    var inflight: Option<nat>
    var epoch: nat
    var now: real
    var begun: nat
    var minting: map<nat, nat>

    function Abs(): Source
      reads this
    {
      Source(cached, inflight, epoch, now, begun, minting)
    }

    constructor (margin: real, now: real)
      ensures Abs() == Source(None, None, 0, now, 0, map[]) && this.margin == margin
    {
      this.margin, this.now := margin, now;
      cached, inflight, epoch, begun, minting := None, None, 0, 0, map[];
    }

    method BeginMint() returns (m: nat)
      modifies this
      ensures Abs() == MintNow(old(Abs()))
      ensures m == if old(inflight).Some? then old(inflight).value else old(begun)
    {
      if inflight.Some? {
        return inflight.value;
      }
      m := begun;
      begun := begun + 1;
      minting := minting[m := epoch];
      inflight := Some(m);
    }

    method ReadCurrent() returns (a: Answer)
      modifies this
      ensures (Abs(), a) == Answered(old(Abs()))
    {
      if cached.Some? && (cached.value.refreshAt.None? || now < cached.value.refreshAt.value) {
        return FromCache(cached.value);
      }
      var m := BeginMint();
      return FromMint(m);
    }

    method MintResolved(m: nat, value: string, exp: Option<real>)
      requires m in minting
      modifies this
      ensures Abs() == Step(margin, old(Abs()), Minted(m, value, exp))
    {
      var entry := Entry(value, exp, RefreshAt(exp, now, margin), now, m, minting[m]);
      if epoch == minting[m] {
        cached := Some(entry);
      }
    }

    method MintSettled(m: nat)
      requires m in minting
      modifies this
      ensures Abs() == Step(margin, old(Abs()), Settled(m))
    {
      if inflight == Some(m) {
        inflight := None;
      }
      minting := minting - {m};
    }

    method InvalidateNow()
      modifies this
      ensures Abs() == Step(margin, old(Abs()), Invalidate)
    {
      epoch := epoch + 1;
      cached := None;
      inflight := None;
    }
  }

  // ---- every run -----------------------------------------------------------------------------

  ghost predicate Safe(margin: real, s: Source) {
    && (forall m :: m in s.minting ==> m < s.begun && s.minting[m] <= s.epoch)
    // one current attempt at a time: the one in flight
    && (forall m :: m in s.minting && s.minting[m] == s.epoch ==> s.inflight == Some(m))
    && (s.inflight.Some? ==> s.inflight.value in s.minting && s.minting[s.inflight.value] == s.epoch)
    // the cache holds nothing from before the last invalidate
    && (s.cached.Some? ==>
          s.cached.value.at == s.epoch && s.cached.value.mintedAt <= s.now &&
          s.cached.value.refreshAt == RefreshAt(s.cached.value.exp, s.cached.value.mintedAt, margin))
  }

  predicate IsRun(margin: real, s: Source, run: seq<Label>)
    decreases |run|
  {
    run == [] || (Enabled(s, run[0]) && IsRun(margin, Step(margin, s, run[0]), run[1..]))
  }

  function After(margin: real, s: Source, run: seq<Label>): Source
    requires IsRun(margin, s, run)
    decreases |run|
  {
    if run == [] then s else After(margin, Step(margin, s, run[0]), run[1..])
  }

  lemma {:induction false} RunIsSafe(margin: real, s: Source, run: seq<Label>)
    requires Safe(margin, s) && IsRun(margin, s, run)
    ensures Safe(margin, After(margin, s, run))
    decreases |run|
  {
    if run != [] {
      RunIsSafe(margin, Step(margin, s, run[0]), run[1..]);
    }
  }

  /**
   * No lifetime is too short to be cached: a token is usable the moment it is
   * minted exactly when it has not expired yet, it is given up no later than
   * its margin before `exp`, and under the margin it lives half its life.
   */
  lemma NoMintLoop(margin: real, exp: real, mintedAt: real)
    requires margin >= 0.0
    ensures var until := RefreshAt(Some(exp), mintedAt, margin).value;
      && (mintedAt < until <==> mintedAt < exp)
      && (exp <= mintedAt ==> until == mintedAt)
      && (exp - mintedAt > margin ==> exp - until == margin)
      && (0.0 < exp - mintedAt <= margin ==> until - mintedAt == exp - until)
  {
  }

  /**
   * In every run of reads, mints and invalidations under a clock that never
   * goes back: no two attempts of the current epoch are under way, the cache
   * was minted in the current epoch, and what `current` answers from it has
   * not reached its `exp`.
   */
  lemma TokensAreCurrent(margin: real, now: real, run: seq<Label>)
    requires margin >= 0.0 && IsRun(margin, Source(None, None, 0, now, 0, map[]), run)
    ensures var s := After(margin, Source(None, None, 0, now, 0, map[]), run);
      && (forall m, k :: m in s.minting && k in s.minting && s.minting[m] == s.epoch == s.minting[k] ==> m == k)
      && (s.cached.Some? ==> s.cached.value.at == s.epoch)
      && (Answered(s).1.FromCache? ==> Answered(s).1.entry.exp.Some? ==> s.now < Answered(s).1.entry.exp.value)
  {
    var s0 := Source(None, None, 0, now, 0, map[]);
    RunIsSafe(margin, s0, run);
    var s := After(margin, s0, run);
    if Usable(s) && s.cached.value.exp.Some? {
    }
  }

  /** An attempt that began before an `invalidate` never reaches the cache, however late it resolves. */
  lemma {:induction false} StaleMintsStayOut(margin: real, s: Source, m: nat, run: seq<Label>)
    requires Safe(margin, s) && m in s.minting
    requires IsRun(margin, Step(margin, s, Invalidate), run)
    ensures var s1 := After(margin, Step(margin, s, Invalidate), run); s1.cached.Some? ==> s1.cached.value.mint != m
  {
    StaleStaysOut(margin, Step(margin, s, Invalidate), m, run);
  }

  lemma {:induction false} StaleStaysOut(margin: real, s: Source, m: nat, run: seq<Label>)
    requires IsRun(margin, s, run) && m < s.begun && (m in s.minting ==> s.minting[m] < s.epoch)
    requires s.cached.Some? ==> s.cached.value.mint != m
    ensures var s1 := After(margin, s, run); s1.cached.Some? ==> s1.cached.value.mint != m
    decreases |run|
  {
    if run != [] {
      StaleStaysOut(margin, Step(margin, s, run[0]), m, run[1..]);
    }
  }

  // ---- and the cache is used ------------------------------------------------------------------------

  /**
   * What an attempt of the current epoch brings is what is cached, and until
   * its refresh instant that is what every read answers, with no new attempt.
   * What one from before an `invalidate` brings changes nothing.
   */
  lemma MintIsServed(margin: real, s: Source, m: nat, value: string, exp: Option<real>, now: real)
    requires Safe(margin, s) && m in s.minting && s.now <= now
    ensures var s1 := Step(margin, s, Minted(m, value, exp));
      if s.minting[m] != s.epoch then s1 == s
      else
        && s1 == s.(cached := s1.cached) && s1.cached.Some?
        && s1.cached.value.value == value && s1.cached.value.exp == exp && s1.cached.value.mintedAt == s.now
        && var s2 := Step(margin, s1, Tick(now));
           (Answered(s2) == (s2, FromCache(s1.cached.value)) <==>
              exp.None? || now < RefreshAt(exp, s.now, margin).value)
  {
  }

  /**
   * A read that finds nothing usable waits on the attempt of the current
   * epoch, or begins one; a look at the claims does so only with no cache at
   * all, however old that is.
   */
  lemma ReadBeginsOne(margin: real, s: Source)
    requires Safe(margin, s)
    ensures Usable(s) ==> Step(margin, s, Read) == s && Answered(s).1 == FromCache(s.cached.value)
    ensures !Usable(s) ==> Begun(s, Step(margin, s, Read)) && Step(margin, s, Read).inflight == Some(Mint(s))
    ensures s.cached.Some? ==> Step(margin, s, Peek) == s
    ensures s.cached.None? ==> Begun(s, Step(margin, s, Peek))
  {
  }

  /** The attempt a reader is given to wait on. */
  function Mint(s: Source): nat {
    match Answered(s).1
    case FromMint(m) => m
    case FromCache(_) => s.begun
  }

  /** From `s` on an attempt of the current epoch is under way, a new one only if there was none. */
  predicate Begun(s: Source, after: Source) {
    && after.inflight.Some? && after.inflight.value in after.minting
    && after.minting[after.inflight.value] == after.epoch
    && (if s.inflight.Some? then after == s else after.begun == s.begun + 1 && after.inflight == Some(s.begun))
    && after.cached == s.cached && after.epoch == s.epoch
  }

  /** An `invalidate` empties the cache and the next read begins anew; a settled attempt is not shared again. */
  lemma InvalidateBeginsAnew(margin: real, s: Source, m: nat)
    requires Safe(margin, s)
    ensures var s1 := Step(margin, s, Invalidate);
      && s1.cached.None? && s1.epoch > s.epoch && Answered(s1).1 == FromMint(s.begun)
      && (m in s.minting && s.inflight == Some(m) ==> Step(margin, s, Settled(m)).inflight.None?)
      && (m in s.minting && s.inflight != Some(m) ==> Step(margin, s, Settled(m)).inflight == s.inflight)
      && (m in s.minting ==> m !in Step(margin, s, Settled(m)).minting)
      && (m in s.minting ==> Step(margin, s, Failed(m)) == s)
  {
  }

  lemma Then(margin: real, s: Source, run: seq<Label>)
    requires run != [] && Enabled(s, run[0])
    ensures IsRun(margin, s, run) <==> IsRun(margin, Step(margin, s, run[0]), run[1..])
    ensures IsRun(margin, s, run) ==> After(margin, s, run) == After(margin, Step(margin, s, run[0]), run[1..])
  {
  }

  /** A source from the start: a read begins an attempt, and once that is minted and settled reads are served. */
  lemma FirstToken(margin: real, now: real, value: string)
    ensures var s0, run := Source(None, None, 0, now, 0, map[]), [Read, Minted(0, value, None), Settled(0)];
      && IsRun(margin, s0, run)
      && var s := After(margin, s0, run);
         && s.cached.Some? && s.cached.value.value == value && s.inflight.None? && s.minting == map[]
         && Answered(s).1 == FromCache(s.cached.value)
  {
    var s0, run := Source(None, None, 0, now, 0, map[]), [Read, Minted(0, value, None), Settled(0)];
    var s1 := Step(margin, s0, run[0]);
    var s2 := Step(margin, s1, run[1]);
    var s3 := Step(margin, s2, run[2]);
    var rest := run[1..][1..];
    assert run[1..][0] == run[1] && rest[0] == run[2] && rest[1..] == [];
    assert s1.minting == map[0 := 0] && s3.minting == map[];
    Then(margin, s2, rest);
    Then(margin, s1, run[1..]);
    Then(margin, s0, run);
    assert IsRun(margin, s3, []) && After(margin, s3, []) == s3;
  }
}

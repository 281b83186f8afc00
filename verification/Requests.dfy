/** The client's request table over a socket that comes and goes. */
module Requests {
  import opened Datoms

  /**
   * `via` remembers the socket each id went out on; `resolved` and `rejected`
   * what became of it. Sockets are numbered as they are opened.
   */
  datatype Table = Table(
    pending: set<nat>, nextId: nat, socket: Option<nat>, sockets: nat, closed: bool,
    basisT: nat, generation: nat,
    via: map<nat, nat>, resolved: set<nat>, rejected: set<nat>)

  datatype Label =
    | Opens
    | Dispatch(sent: bool)
    | Reply(socket: nat, id: nat, body: Option<nat>)
    | Push(t: nat)
    | Bump(t: nat)
    | Lost(socket: nat)
    | Close

  function Bumped(s: Table, t: Option<nat>): Table {
    if t.Some? && t.value > s.basisT then s.(basisT := t.value) else s
  }

  /** The socket is gone: everything waiting on it fails. */
  function Dropped(s: Table): Table {
    if s.socket.None? && s.pending == {} then s
    else s.(socket := None, pending := {}, rejected := s.rejected + s.pending, generation := s.generation + 1)
  }

  predicate Enabled(s: Table, l: Label) {
    match l
    case Opens => s.socket.None? && !s.closed
    case _ => true
  }

  function Step(s: Table, l: Label): Table
    requires Enabled(s, l)
  {
    match l
    case Opens => s.(socket := Some(s.sockets), sockets := s.sockets + 1, generation := s.generation + 1)
    case Dispatch(sent) =>
      if s.socket.None? then s
      else
        var s1 := s.(nextId := s.nextId + 1, via := s.via[s.nextId := s.socket.value]);
        if sent then s1.(pending := s1.pending + {s.nextId})
        else s1.(pending := s1.pending - {s.nextId}, rejected := s1.rejected + {s.nextId})
    // listeners of an old socket still run: only the table tells an old reply from a new one
    case Reply(_, id, t) =>
      if id in s.pending then Bumped(s.(pending := s.pending - {id}, resolved := s.resolved + {id}), t) else s
    case Push(t) => Bumped(s, Some(t))
    case Bump(t) => Bumped(s, Some(t))
    case Lost(k) => if s.socket == Some(k) then Dropped(s) else s
    case Close =>
      if s.closed then s
      else
        var s1 := Dropped(s.(closed := true));
        s1.(generation := s1.generation + 1)
  }

  class RequestTable {
    var pending: set<nat>
    var nextId: nat
    var socket: Option<nat>
    var sockets: nat
    var closed: bool
    var basisT: nat
    var generation: nat
    ghost var via: map<nat, nat>
    ghost var resolved: set<nat>
    ghost var rejected: set<nat>

    ghost function Abs(): Table
      reads this
    {
      Table(pending, nextId, socket, sockets, closed, basisT, generation, via, resolved, rejected)
    }

    constructor ()
      ensures Abs() == Fresh()
    {
      pending, nextId, socket, sockets, closed := {}, 1, None, 0, false;
      basisT, generation := 0, 0;
      via, resolved, rejected := map[], {}, {};
    }

    method BumpTo(t: Option<nat>)
      modifies this
      ensures Abs() == Bumped(old(Abs()), t)
    {
      if t.None? || t.value <= basisT {
        return;
      }
      basisT := t.value;
    }

    method Drop()
      modifies this
      ensures Abs() == Dropped(old(Abs()))
    {
      if socket.None? && pending == {} {
        return;
      }
      socket := None;
      var waiting := pending;
      pending := {};
      while waiting != {}
        invariant waiting + rejected == old(pending) + old(rejected)
        invariant Abs() == old(Abs()).(socket := None, pending := {}, rejected := rejected)
        decreases waiting
      {
        var id :| id in waiting;
        waiting := waiting - {id};
        rejected := rejected + {id};
      }
      assert rejected == old(rejected) + old(pending);
      generation := generation + 1;
    }

    method Open()
      requires socket.None? && !closed
      modifies this
      ensures Abs() == Step(old(Abs()), Opens)
    {
      socket := Some(sockets);
      sockets := sockets + 1;
      generation := generation + 1;
    }

    /** `sent` is whether the socket took the frame. */
    method DispatchFrame(sent: bool) returns (id: Option<nat>)
      modifies this
      ensures Abs() == Step(old(Abs()), Dispatch(sent))
      ensures id.Some? <==> old(socket).Some? && sent
      ensures id.Some? ==> id.value == old(nextId) && id.value in pending
    {
      if socket.None? {
        return None;
      }
      var mine := nextId;
      nextId := nextId + 1;
      via := via[mine := socket.value];
      pending := pending + {mine};
      if !sent {
        pending := pending - {mine};
        rejected := rejected + {mine};
        assert pending == old(pending) - {mine};
        return None;
      }
      return Some(mine);
    }

    method OnReply(ghost k: nat, id: nat, t: Option<nat>)
      modifies this
      ensures Abs() == Step(old(Abs()), Reply(k, id, t))
    {
      if id !in pending {
        return;
      }
      pending := pending - {id};
      BumpTo(t);
      resolved := resolved + {id};
    }

    method CloseForGood()
      modifies this
      ensures Abs() == Step(old(Abs()), Close)
    {
      if closed {
        return;
      }
      closed := true;
      Drop();
      generation := generation + 1;
    }
  }

  function Fresh(): Table {
    Table({}, 1, None, 0, false, 0, 0, map[], {}, {})
  }

  // ---- conservation -----------------------------------------------------------------------------

  /** Every id sent is waiting, resolved or rejected, and only one of them; what waits went out on the open socket. */
  ghost predicate Conserved(s: Table) {
    && 1 <= s.nextId && (forall id :: id in s.via <==> 1 <= id < s.nextId)
    && s.pending + s.resolved + s.rejected == s.via.Keys
    && s.pending !! s.resolved && s.pending !! s.rejected && s.resolved !! s.rejected
    && (forall id :: id in s.pending ==> s.socket == Some(s.via[id]))
    && (s.socket.Some? ==> s.socket.value < s.sockets)
  }

  /** Nothing goes back: no id is settled twice or given out again, and time and generation only grow. */
  ghost predicate Forward(s: Table, after: Table) {
    && s.resolved <= after.resolved && s.rejected <= after.rejected
    && s.nextId <= after.nextId && s.basisT <= after.basisT && s.generation <= after.generation
    && (forall id :: id in s.via ==> id in after.via && after.via[id] == s.via[id])
  }

  lemma StepConserves(s: Table, l: Label)
    requires Conserved(s) && Enabled(s, l)
    ensures Conserved(Step(s, l)) && Forward(s, Step(s, l))
    ensures l.Lost? && s.socket == Some(l.socket) ==> Step(s, l).pending == {}
  {
    var after := Step(s, l);
    match l
    case Dispatch(sent) =>
      assert s.nextId !in s.via;
      assert after.via.Keys == if s.socket.Some? then s.via.Keys + {s.nextId} else s.via.Keys;
    case Reply(_, id, t) =>
      assert after.pending + after.resolved == s.pending + s.resolved;
    case _ =>
  }

  predicate IsRun(s: Table, run: seq<Label>)
    decreases |run|
  {
    run == [] || (Enabled(s, run[0]) && IsRun(Step(s, run[0]), run[1..]))
  }

  function After(s: Table, run: seq<Label>): Table
    requires IsRun(s, run)
    decreases |run|
  {
    if run == [] then s else After(Step(s, run[0]), run[1..])
  }

  lemma {:induction false} RunConserves(s: Table, run: seq<Label>)
    requires Conserved(s) && IsRun(s, run)
    ensures Conserved(After(s, run)) && Forward(s, After(s, run))
    decreases |run|
  {
    if run != [] {
      StepConserves(s, run[0]);
      RunConserves(Step(s, run[0]), run[1..]);
    }
  }

  /**
   * In every run of connects, drops, replies and sends each id is in exactly
   * one place, stays where it is once settled, and is never given out again.
   */
  lemma RequestsAreConserved(run: seq<Label>, more: seq<Label>)
    requires IsRun(Fresh(), run) && IsRun(After(Fresh(), run), more)
    ensures Conserved(After(Fresh(), run)) && Forward(After(Fresh(), run), After(After(Fresh(), run), more))
  {
    RunConserves(Fresh(), run);
    RunConserves(After(Fresh(), run), more);
  }

  /**
   * A reply that arrives on a socket since replaced settles nothing, nor does
   * one to an id that was never sent: a peer answers an id on the socket it
   * was sent on.
   */
  lemma OldRepliesSettleNothing(run: seq<Label>, l: Label)
    requires IsRun(Fresh(), run) && l.Reply? && Enabled(After(Fresh(), run), l)
    requires l.id in After(Fresh(), run).via ==>
      After(Fresh(), run).via[l.id] == l.socket && After(Fresh(), run).socket != Some(l.socket)
    ensures Step(After(Fresh(), run), l) == After(Fresh(), run)
  {
    RunConserves(Fresh(), run);
  }

  /** Every `t` the session was told, by a push, a local write, or a reply that settled a request. */
  predicate Told(s: Table, l: Label, t: nat) {
    match l
    case Push(u) => u == t
    case Bump(u) => u == t
    case Reply(_, id, body) => id in s.pending && body == Some(t)
    case _ => false
  }

  ghost predicate ToldIn(s: Table, run: seq<Label>, t: nat)
    requires IsRun(s, run)
    decreases |run|
  {
    run != [] && (Told(s, run[0], t) || ToldIn(Step(s, run[0]), run[1..], t))
  }

  /** The basis is the highest `t` told so far, and nothing else moves it. */
  lemma {:induction false} BasisIsHighest(s: Table, run: seq<Label>)
    requires IsRun(s, run)
    ensures var b := After(s, run).basisT;
      && b >= s.basisT
      && (forall t: nat :: ToldIn(s, run, t) ==> t <= b)
      && (b == s.basisT || ToldIn(s, run, b))
    decreases |run|
  {
    if run != [] {
      BasisIsHighest(Step(s, run[0]), run[1..]);
    }
  }

  // ---- what settles a request ----------------------------------------------------------------------

  /** The socket in use goes, by itself or because the session is closed. */
  predicate Loses(s: Table, l: Label) {
    (l.Lost? && s.socket == Some(l.socket)) || (l.Close? && !s.closed)
  }

  /**
   * Exactly who settles whom: a request is resolved by the reply to its id and
   * by nothing else, and rejected when its socket goes, when the session is
   * closed, or when it could not be sent.
   */
  lemma SettledIff(s: Table, l: Label, id: nat)
    requires Conserved(s) && Enabled(s, l)
    ensures var after := Step(s, l);
      && (id in after.resolved && id !in s.resolved <==> l.Reply? && l.id == id && id in s.pending)
      && (id in after.rejected && id !in s.rejected <==>
            (Loses(s, l) && id in s.pending) || (l == Dispatch(false) && s.socket.Some? && id == s.nextId))
      && (id in after.pending <==>
            || (id in s.pending && !Loses(s, l) && !(l.Reply? && l.id == id))
            || (l == Dispatch(true) && s.socket.Some? && id == s.nextId))
  {
  }

  /**
   * The socket itself: opened afresh under a new number, gone when lost or
   * closed, and otherwise as it was; each opening and each loss is a
   * generation, and so is the close. Anything can happen at any time, but a
   * socket is opened only where there is none, and never after the close.
   */
  lemma SocketIff(s: Table, l: Label)
    requires Conserved(s)
    ensures Enabled(s, l) <==> (l.Opens? ==> s.socket.None? && !s.closed)
    ensures Enabled(s, l) ==>
      var after := Step(s, l);
      && after.socket == (if l.Opens? then Some(s.sockets) else if Loses(s, l) then None else s.socket)
      && after.sockets == (if l.Opens? then s.sockets + 1 else s.sockets)
      && after.generation == s.generation +
           (if l.Opens? then 1 else 0) + (if Loses(s, l) && s.socket.Some? then 1 else 0) +
           (if l.Close? && !s.closed then 1 else 0)
      && (after.closed <==> s.closed || l.Close?)
  {
    assert s.socket.None? ==> s.pending == {};
  }

  /** A request that is sent and answered on its socket before that goes is resolved, whatever else happens. */
  lemma {:induction false} AnsweredIsResolved(s: Table, run: seq<Label>, id: nat, k: nat)
    requires Conserved(s) && IsRun(s, run) && id in s.pending
    requires k < |run| && run[k].Reply? && run[k].id == id
    requires forall i :: 0 <= i < k ==> !run[i].Lost? && !run[i].Close?
    ensures id in After(s, run).resolved
    decreases |run|
  {
    StepConserves(s, run[0]);
    SettledIff(s, run[0], id);
    if k == 0 || id in Step(s, run[0]).resolved {
      RunConserves(Step(s, run[0]), run[1..]);
    } else {
      AnsweredIsResolved(Step(s, run[0]), run[1..], id, k - 1);
    }
  }

  /** A session from the start: it opens, sends its first request, hears of a commit, and is answered. */
  lemma FirstRequest(t: nat, u: nat)
    ensures var run := [Opens, Dispatch(true), Push(t), Reply(0, 1, Some(u))];
      && IsRun(Fresh(), run)
      && After(Fresh(), run) ==
           Table({}, 2, Some(0), 1, false, if u > t then u else t, 1, map[1 := 0], {1}, {})
  {
    var run := [Opens, Dispatch(true), Push(t), Reply(0, 1, Some(u))];
    var s1 := Step(Fresh(), Opens);
    var s2 := Step(s1, Dispatch(true));
    var s3 := Step(s2, Push(t));
    assert run[1..] == [Dispatch(true), Push(t), Reply(0, 1, Some(u))];
    assert run[1..][1..] == [Push(t), Reply(0, 1, Some(u))] && run[1..][1..][1..] == [Reply(0, 1, Some(u))];
    var s4 := Step(s3, run[3]);
    assert run[1..][1..][1..][1..] == [] && IsRun(s4, []) && After(s4, []) == s4;
    assert IsRun(s3, run[1..][1..][1..]) && After(s3, run[1..][1..][1..]) == s4;
    assert IsRun(s2, run[1..][1..]) && After(s2, run[1..][1..]) == s4;
    assert IsRun(s1, run[1..]) && After(s1, run[1..]) == s4;
    assert s2.pending == {1} && s4.pending == {} && s4.resolved == {1};
  }
}

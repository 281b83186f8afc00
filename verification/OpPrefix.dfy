/** One body, run on the client up to its first effect and on the server. */
module OpPrefix {
  import opened Datoms

  datatype TxOp =
    | Add(e: string, a: string, v: Value)
    | Retract(e: string, a: string, value: Option<Value>)
    | RetractEntity(e: string)

  /** What a body is handed back by what it yields; `made` is whether the builder made the handle's name. */
  datatype Answer = Unit | Handle(name: string, made: bool) | Rows(rows: string) | Outcome(value: string)

  datatype Action =
    | Push(op: TxOp)
    | NewEntity
    | NamedEntity(id: string)
    | Ask(query: string)
    | Perform(name: string)
    | Return
    | Fail

  /** A body is what it does next, given everything it has been answered. */
  type Body = seq<Answer> -> Action

  /** How one side answers reads over the ops collected so far, and (server only) effects. */
  datatype Host = Host(halts: bool, answers: (string, seq<TxOp>) -> string, effects: (string, nat) -> string)

  datatype Progress = Progress(ops: seq<TxOp>, next: nat, seen: seq<Answer>, ended: bool, halted: bool)

  function Decimal(n: nat): string {
    var digit := ('0' as int + n % 10) as char;
    if n < 10 then [digit] else Decimal(n / 10) + [digit]
  }

  function TempidOf(n: nat): string {
    "tmp-" + Decimal(n)
  }

  const START := Progress([], 0, [], false, false)

  function Step(h: Host, body: Body, p: Progress): Progress {
    if p.ended then p
    else
      match body(p.seen)
      case Push(op) => p.(ops := p.ops + [op], seen := p.seen + [Unit])
      case NewEntity => p.(next := p.next + 1, seen := p.seen + [Handle(TempidOf(p.next + 1), true)])
      case NamedEntity(id) => p.(seen := p.seen + [Handle(id, false)])
      case Ask(query) => p.(seen := p.seen + [Rows(h.answers(query, p.ops))])
      case Perform(name) =>
        if h.halts then p.(ended := true, halted := true) else p.(seen := p.seen + [Outcome(h.effects(name, |p.seen|))])
      case Return => p.(ended := true)
      case Fail => p.(ended := true)
  }

  /** The first `n` steps. */
  function Run(h: Host, body: Body, n: nat): Progress {
    if n == 0 then START else Step(h, body, Run(h, body, n - 1))
  }

  class TxBuilder {
    var ops: seq<TxOp>
    var next: nat

    constructor ()
      ensures ops == [] && next == 0
    {
      ops, next := [], 0;
    }

    method PushOp(op: TxOp)
      modifies this`ops
      ensures ops == old(ops) + [op]
    {
      ops := ops + [op];
    }

    /** A handle: under the name given, or under one made for it. */
    method Entity(id: Option<string>) returns (h: Answer)
      modifies this`next
      ensures id.None? ==> next == old(next) + 1 && h == Handle(TempidOf(next), true)
      ensures id.Some? ==> next == old(next) && h == Handle(id.value, false)
    {
      if id.Some? {
        return Handle(id.value, false);
      }
      next := next + 1;
      return Handle(TempidOf(next), true);
    }

    /** The body's first `n` steps against this builder. */
    method RunBody(h: Host, body: Body, n: nat) returns (halted: bool)
      requires ops == [] && next == 0
      modifies this
      ensures var p := Run(h, body, n); ops == p.ops && next == p.next && halted == p.halted
    {
      var seen: seq<Answer>, ended: bool := [], false;
      halted := false;
      for i := 0 to n
        invariant Run(h, body, i) == Progress(ops, next, seen, ended, halted)
      {
        if !ended {
          match body(seen) {
            case Push(op) =>
              PushOp(op);
              seen := seen + [Unit];
            case NewEntity =>
              var made := Entity(None);
              seen := seen + [made];
            case NamedEntity(id) =>
              var named := Entity(Some(id));
              seen := seen + [named];
            case Ask(query) =>
              seen := seen + [Rows(h.answers(query, ops))];
            case Perform(name) =>
              if h.halts {
                ended, halted := true, true;
              } else {
                seen := seen + [Outcome(h.effects(name, |seen|))];
              }
            case Return =>
              ended := true;
            case Fail =>
              ended := true;
          }
        }
      }
    }
  }

  // ---- a true prefix ---------------------------------------------------------------------------

  /** Every read the halting side makes in its first `n` steps, the other side answers alike. */
  predicate ReadsAlike(client: Host, server: Host, body: Body, n: nat) {
    n == 0 ||
    (ReadsAlike(client, server, body, n - 1) &&
     var p := Run(client, body, n - 1);
     (!p.ended && body(p.seen).Ask? ==>
        client.answers(body(p.seen).query, p.ops) == server.answers(body(p.seen).query, p.ops)))
  }

  /** Up to the first effect the two sides are in the same place. */
  lemma {:induction false} SideBySide(client: Host, server: Host, body: Body, n: nat)
    requires client.halts && !server.halts && ReadsAlike(client, server, body, n)
    ensures var c, s := Run(client, body, n), Run(server, body, n);
      if c.halted then c.ended && c.ops <= s.ops else c == s
    decreases n
  {
    if n > 0 {
      SideBySide(client, server, body, n - 1);
      OpsGrow(server, body, n - 1, n);
    }
  }

  lemma {:induction false} OpsGrow(h: Host, body: Body, n: nat, m: nat)
    requires n <= m
    ensures Run(h, body, n).ops <= Run(h, body, m).ops
    decreases m
  {
    if n < m {
      OpsGrow(h, body, n, m - 1);
    }
  }

  lemma {:induction false} EndedStays(h: Host, body: Body, n: nat, m: nat)
    requires n <= m && Run(h, body, n).ended
    ensures Run(h, body, m) == Run(h, body, n)
    decreases m
  {
    if n < m {
      EndedStays(h, body, n, m - 1);
    }
  }

  /** The ops a body has asked for, given what it has seen: one for each push, in order. */
  function Asked(body: Body, seen: seq<Answer>): seq<TxOp> {
    if seen == [] then []
    else
      var before := seen[..|seen| - 1];
      Asked(body, before) + (match body(before) case Push(op) => [op] case _ => [])
  }

  /** What is collected is what was asked for, each action was answered once, and only some actions end a body. */
  ghost predicate Faithful(h: Host, body: Body, p: Progress) {
    && p.ops == Asked(body, p.seen)
    && (p.ended ==> body(p.seen).Return? || body(p.seen).Fail? || (h.halts && body(p.seen).Perform?))
    && (p.halted <==> p.ended && body(p.seen).Perform?)
    && (forall i :: 0 <= i < |p.seen| ==> Answers(h, body, p.seen[..i], p.seen[i]))
  }

  lemma OneMoreAnswer(h: Host, body: Body, p: Progress, answer: Answer)
    requires forall i :: 0 <= i < |p.seen| ==> Answers(h, body, p.seen[..i], p.seen[i])
    requires Answers(h, body, p.seen, answer)
    ensures var seen := p.seen + [answer];
      && (forall i :: 0 <= i < |seen| ==> Answers(h, body, seen[..i], seen[i]))
      && Asked(body, seen) == Asked(body, p.seen) + (match body(p.seen) case Push(op) => [op] case _ => [])
  {
    var seen := p.seen + [answer];
    assert seen[..|p.seen|] == p.seen;
    forall i | 0 <= i < |seen| ensures Answers(h, body, seen[..i], seen[i]) {
      if i < |p.seen| {
        assert seen[..i] == p.seen[..i];
      }
    }
  }

  /** The step of a body that goes on: one more answer, and the op if it was a push. */
  lemma StepAnswers(h: Host, body: Body, p: Progress) returns (answer: Answer)
    requires !p.ended && p.ops == Asked(body, p.seen) && !Step(h, body, p).ended
    ensures var q := Step(h, body, p);
      && q.seen == p.seen + [answer] && Answers(h, body, p.seen, answer) && q.halted == p.halted
      && q.ops == p.ops + (match body(p.seen) case Push(op) => [op] case _ => [])
  {
    answer := Step(h, body, p).seen[|p.seen|];
  }

  lemma StepIsFaithful(h: Host, body: Body, p: Progress)
    requires Faithful(h, body, p)
    ensures Faithful(h, body, Step(h, body, p))
    ensures var q := Step(h, body, p); if q.ended then q.seen == p.seen else |q.seen| == |p.seen| + 1
  {
    if !p.ended && !Step(h, body, p).ended {
      var answer := StepAnswers(h, body, p);
      OneMoreAnswer(h, body, p, answer);
    }
  }

  /** Until it ends, a run takes one action of the body after the other, and collects exactly the ops it pushes. */
  lemma {:induction false} OpsAreThePushes(h: Host, body: Body, n: nat)
    ensures var p := Run(h, body, n); Faithful(h, body, p) && (if p.ended then |p.seen| < n else |p.seen| == n)
  {
    if n > 0 {
      OpsAreThePushes(h, body, n - 1);
      StepIsFaithful(h, body, Run(h, body, n - 1));
    }
  }

  /** What an action is answered with. */
  predicate Answers(h: Host, body: Body, before: seq<Answer>, answer: Answer) {
    match body(before)
    case Push(_) => answer == Unit
    case NewEntity => answer.Handle? && answer.made
    case NamedEntity(id) => answer == Handle(id, false)
    case Ask(query) => answer == Rows(h.answers(query, Asked(body, before)))
    case Perform(name) => !h.halts && answer == Outcome(h.effects(name, |before|))
    case Return => false
    case Fail => false
  }

  /**
   * What the client paints is a prefix of what the server commits, for every
   * body whose reads before its first effect answer alike on both sides; and
   * all of it when the body performs no effect.
   */
  lemma OptimisticPrefix(client: Host, server: Host, body: Body, n: nat, m: nat)
    requires client.halts && !server.halts
    requires Run(client, body, n).ended && Run(server, body, m).ended
    requires ReadsAlike(client, server, body, n)
    ensures Run(client, body, n).ops <= Run(server, body, m).ops
    ensures !Run(client, body, n).halted ==> Run(client, body, n) == Run(server, body, m)
  {
    SideBySide(client, server, body, n);
    if n <= m {
      OpsGrow(server, body, n, m);
    } else {
      EndedStays(server, body, m, n);
    }
    if !Run(client, body, n).halted {
      if n <= m {
        EndedStays(server, body, n, m);
      }
    }
  }

  lemma {:induction false} DecimalDiffers(n: nat, m: nat)
    requires n != m
    ensures Decimal(n) != Decimal(m)
  {
    if n % 10 == m % 10 && n >= 10 && m >= 10 {
      DecimalDiffers(n / 10, m / 10);
      assert Decimal(n)[..|Decimal(n)| - 1] == Decimal(n / 10) && Decimal(m)[..|Decimal(m)| - 1] == Decimal(m / 10);
    } else {
      DecimalLength(n);
      DecimalLength(m);
      assert Decimal(n)[|Decimal(n)| - 1] == ('0' as int + n % 10) as char;
      assert Decimal(m)[|Decimal(m)| - 1] == ('0' as int + m % 10) as char;
    }
  }

  lemma DecimalLength(n: nat)
    ensures |Decimal(n)| >= 1 && (|Decimal(n)| == 1 <==> n < 10)
  {
    if n >= 10 {
      DecimalLength(n / 10);
    }
  }

  lemma TempidsDiffer(n: nat, m: nat)
    requires n != m
    ensures TempidOf(n) != TempidOf(m)
  {
    DecimalDiffers(n, m);
    assert TempidOf(n)[4..] == Decimal(n) && TempidOf(m)[4..] == Decimal(m);
  }

  /** The handles the builder made are `tmp-1`, `tmp-2` and so on, once each. */
  ghost predicate MadeInOrder(p: Progress, at: seq<nat>) {
    && |at| == p.next
    && (forall k :: 0 <= k < |at| ==> at[k] < |p.seen| && p.seen[at[k]] == Handle(TempidOf(k + 1), true))
    && (forall i :: 0 <= i < |p.seen| && p.seen[i].Handle? && p.seen[i].made ==> i in at)
  }

  lemma {:induction false} MadeByRun(h: Host, body: Body, n: nat) returns (at: seq<nat>)
    ensures MadeInOrder(Run(h, body, n), at)
  {
    at := [];
    if n > 0 {
      var before := Run(h, body, n - 1);
      at := MadeByRun(h, body, n - 1);
      at := MadeByStep(h, body, before, at);
    }
  }

  lemma OneMoreMade(p: Progress, after: Progress, at: seq<nat>)
    requires MadeInOrder(p, at) && after.next == p.next + 1
    requires after.seen == p.seen + [Handle(TempidOf(p.next + 1), true)]
    ensures MadeInOrder(after, at + [|p.seen|])
  {
    var more := at + [|p.seen|];
    assert more[|at|] == |p.seen|;
    forall i | 0 <= i < |after.seen| && after.seen[i].Handle? && after.seen[i].made ensures i in more {
      assert i < |p.seen| ==> p.seen[i] == after.seen[i];
    }
  }

  lemma OneMoreOther(p: Progress, after: Progress, x: Answer, at: seq<nat>)
    requires MadeInOrder(p, at) && after.next == p.next
    requires after.seen == p.seen + [x] && !(x.Handle? && x.made)
    ensures MadeInOrder(after, at)
  {
    forall i | 0 <= i < |after.seen| && after.seen[i].Handle? && after.seen[i].made ensures i in at {
      assert i < |p.seen| && p.seen[i] == after.seen[i];
    }
  }

  lemma MadeByStep(h: Host, body: Body, p: Progress, at: seq<nat>) returns (more: seq<nat>)
    requires MadeInOrder(p, at)
    ensures MadeInOrder(Step(h, body, p), more)
  {
    var after := Step(h, body, p);
    more := at;
    if after.seen != p.seen {
      if body(p.seen).NewEntity? {
        more := at + [|p.seen|];
        OneMoreMade(p, after, at);
      } else {
        OneMoreOther(p, after, after.seen[|p.seen|], at);
      }
    }
  }

  /** A body never gets the same made name twice, on either side. */
  lemma TempidsAreFresh(h: Host, body: Body, n: nat)
    ensures var seen := Run(h, body, n).seen;
      forall i, j :: 0 <= i < j < |seen| && seen[i].Handle? && seen[j].Handle? && seen[i].made && seen[j].made ==>
        seen[i].name != seen[j].name
  {
    var at := MadeByRun(h, body, n);
    var seen := Run(h, body, n).seen;
    forall i, j | 0 <= i < j < |seen| && seen[i].Handle? && seen[j].Handle? && seen[i].made && seen[j].made
      ensures seen[i].name != seen[j].name
    {
      var k :| 0 <= k < |at| && at[k] == i;
      var m :| 0 <= m < |at| && at[m] == j;
      TempidsDiffer(k + 1, m + 1);
    }
  }

  /** A made name and a chosen one are the same. */
  predicate Clash(seen: seq<Answer>, i: nat, j: nat) {
    i < |seen| && j < |seen| && seen[i].Handle? && seen[j].Handle? && seen[i].made && !seen[j].made &&
    seen[i].name == seen[j].name
  }

  /** The body chose the name of the builder's `k`-th. */
  predicate Chose(seen: seq<Answer>, j: nat, k: nat) {
    j < |seen| && seen[j] == Handle(TempidOf(k), false)
  }

  /**
   * And it shares one with a name the body chose if and only if the body chose
   * `tmp-k` for a `k` the builder got to.
   */
  lemma ChosenNamesClashIff(h: Host, body: Body, n: nat)
    ensures var p := Run(h, body, n);
      (exists i: nat, j: nat :: Clash(p.seen, i, j)) <==>
      (exists j: nat, k: nat :: 1 <= k <= p.next && Chose(p.seen, j, k))
  {
    var at := MadeByRun(h, body, n);
    var p := Run(h, body, n);
    if i: nat, j: nat :| Clash(p.seen, i, j) {
      var k: nat :| k < |at| && at[k] == i;
      assert Chose(p.seen, j, k + 1);
    }
    if j: nat, k: nat :| 1 <= k <= p.next && Chose(p.seen, j, k) {
      assert p.seen[at[k - 1]] == Handle(TempidOf(k), true);
      assert Clash(p.seen, at[k - 1], j);
    }
  }

  /** A body that calls an entity `tmp-1` and then asks for a fresh one. */
  lemma ChosenNameClashes(h: Host)
    ensures var body: Body := seen => if seen == [] then NamedEntity("tmp-1") else NewEntity;
      Clash(Run(h, body, 2).seen, 1, 0)
  {
    var body: Body := seen => if seen == [] then NamedEntity("tmp-1") else NewEntity;
    assert Run(h, body, 1).seen == [Handle("tmp-1", false)];
    assert Decimal(1) == "1";
    assert Run(h, body, 2).seen == [Handle("tmp-1", false), Handle(TempidOf(1), true)];
  }
}

// Sending a command on behalf of an administrator: one command per node at a
// time, at most four in all, and another attempt only where the last one is known
// not to have entered a queue.
module Dispatch {
  import opened Basics
  import opened Links
  import opened LinkRuns

  /* Retrying a congested link */

  // What became of a command: it failed before a link was chosen for it, or it was
  // a call on that link.
  datatype Try = Unlinked(reason: Unchosen) | Made(call: Call)

  type Unchosen = f: Failure | f in {Unavailable, Invalid, Timeout} witness Unavailable

  // One attempt: whether its audit record was written, what became of its command,
  // and whether the caller gave up while pausing after it.
  datatype Attempt = Attempt(audited: bool, made: Try, givenUp: bool)

  datatype Reason = Blocked | Unaudited | Abandoned | Because(failure: Failure)

  datatype Outcome = Answered(reply: Reply) | Failed(reason: Reason, notSent: bool)

  const ATTEMPTS := 3

  // A finished call tells the truth about whether its request was queued.
  predicate Truthful(call: Call) {
    call.phase.Done? && call.writes <= call.enqueues <= 1 && OutcomeOk(call)
  }

  predicate Honest(t: Try) {
    t.Made? ==> Truthful(t.call)
  }

  function Enqueued(t: Try): nat {
    match t
    case Unlinked(_) => 0
    case Made(call) => call.enqueues
  }

  lemma FinishedCallsAreTruthful(steps: seq<Step>, id: Id)
    requires id in Run(Initial(), steps).calls && Run(Initial(), steps).calls[id].phase.Done?
    ensures Truthful(Run(Initial(), steps).calls[id])
  {
    Reachable(steps);
    hide Run, OutcomeOk;
    assert CallOk(Run(Initial(), steps), id);
  }

  function Enqueues(attempts: seq<Attempt>): nat
    decreases |attempts|
  {
    if attempts == [] then 0 else Enqueues(attempts[..|attempts| - 1]) + Enqueued(attempts[|attempts| - 1].made)
  }

  predicate Congests(t: Try) {
    t.Made? && t.call.phase.Done? && t.call.phase.outcome.Lost? && t.call.phase.outcome.failure == Congested
  }

  lemma {:induction false} CongestedNeverEnqueued(attempts: seq<Attempt>)
    requires forall a :: a in attempts ==> Honest(a.made) && Congests(a.made)
    ensures Enqueues(attempts) == 0
    decreases |attempts|
  {
    if attempts != [] {
      var last := attempts[|attempts| - 1];
      assert last in attempts && Enqueued(last.made) == 0;
      CongestedNeverEnqueued(attempts[..|attempts| - 1]);
    }
  }

  // The outcome of a finished command, passed on. Before a link is chosen nothing is sent.
  function Passed(t: Try): Outcome
    requires Honest(t)
  {
    match t
    case Unlinked(failure) => Failed(Because(failure), true)
    case Made(call) =>
      match call.phase.outcome
      case Got(reply) => Answered(reply)
      case Lost(failure, notSent) => Failed(Because(failure), notSent)
  }

  // How a command that took the first `used` attempts ends.
  predicate Ends(blocked: bool, attempts: seq<Attempt>, outcome: Outcome, used: nat)
    requires |attempts| == ATTEMPTS && used <= ATTEMPTS && forall i :: 0 <= i < |attempts| ==> Honest(attempts[i].made)
  {
    && (blocked ==> used == 0 && outcome == Failed(Blocked, true))
    && (!blocked && used < ATTEMPTS && (used == 0 || (Congests(attempts[used - 1].made) && !attempts[used - 1].givenUp)) ==>
        !attempts[used].audited && outcome == Failed(Unaudited, true))
    && (used > 0 && !(used < ATTEMPTS && Congests(attempts[used - 1].made)) ==> outcome == Passed(attempts[used - 1].made))
    && (0 < used < ATTEMPTS && Congests(attempts[used - 1].made) && attempts[used - 1].givenUp ==> outcome == Failed(Abandoned, false))
  }

  // All attempts together queue the command at most once. "Not sent" proves that
  // none of them did; without it one of them did, unless the caller gave up
  // during a pause, where the proof is not passed on.
  predicate Tells(attempts: seq<Attempt>, outcome: Outcome, used: nat)
    requires used <= |attempts|
  {
    && Enqueues(attempts[..used]) <= 1
    && (outcome.Failed? && outcome.notSent ==> Enqueues(attempts[..used]) == 0)
    && (outcome.Failed? && !outcome.notSent ==> (Enqueues(attempts[..used]) == 0 <==> outcome.reason == Abandoned))
    && (outcome.Answered? ==>
        && used > 0 && attempts[used - 1].made.Made? && Enqueues(attempts[..used]) == attempts[used - 1].made.call.enqueues == 1
        && attempts[used - 1].made.call.inbox == Some(outcome.reply))
  }

  method PacedCommand(blocked: bool, attempts: seq<Attempt>) returns (outcome: Outcome, used: nat)
    requires |attempts| == ATTEMPTS && forall i :: 0 <= i < |attempts| ==> Honest(attempts[i].made)
    ensures used <= ATTEMPTS && Ends(blocked, attempts, outcome, used) && Tells(attempts, outcome, used)
    ensures forall i :: 0 <= i < used ==> attempts[i].audited
    ensures forall i :: 0 <= i < used - 1 ==>
              && !attempts[i].givenUp && attempts[i].made.Made?
              && attempts[i].made.call.phase == Done(Lost(Congested, true))
    ensures used == 0 <==> blocked || !attempts[0].audited
    ensures 0 < used < 3 && attempts[used - 1].made.Made? && attempts[used - 1].made.call.phase == Done(Lost(Congested, true)) ==>
              attempts[used - 1].givenUp || !attempts[used].audited
  {
    used := 0;
    if blocked {
      return Failed(Blocked, true), used;
    }
    while used < ATTEMPTS
      invariant used <= ATTEMPTS && (used == ATTEMPTS ==> false)
      invariant forall i :: 0 <= i < used ==> attempts[i].audited && Congests(attempts[i].made) && !attempts[i].givenUp
    {
      CongestedNeverEnqueued(attempts[..used]);
      if !attempts[used].audited {
        return Failed(Unaudited, true), used;
      }
      var made := attempts[used].made;
      assert attempts[..used + 1][..used] == attempts[..used];
      assert Enqueues(attempts[..used + 1]) == Enqueued(made);
      if !Congests(made) || used == ATTEMPTS - 1 {
        return Passed(made), used + 1;
      }
      if attempts[used].givenUp {
        return Failed(Abandoned, false), used + 1;
      }
      used := used + 1;
    }
  }

  /* One command per node, four in all */

  const SLOTS := 4

  class Coordinator {
    var nodes: set<Id>
    var slots: nat

    predicate Valid()
      reads this
    {
      |nodes| == slots <= SLOTS
    }

    constructor ()
      ensures Valid() && nodes == {}
    {
      nodes, slots := {}, 0;
    }

    method Acquire(node: Id) returns (ok: bool)
      requires Valid()
      modifies this
      ensures Valid()
      ensures ok <==> node !in old(nodes) && |old(nodes)| < SLOTS
      ensures nodes == if ok then old(nodes) + {node} else old(nodes)
    {
      if node in nodes || slots == SLOTS {
        return false;
      }
      slots := slots + 1;
      nodes := nodes + {node};
      return true;
    }

    // Releasing takes a slot that is certainly there, so it never waits.
    method Release(node: Id)
      requires Valid() && node in nodes
      modifies this
      ensures Valid() && nodes == old(nodes) - {node} && old(slots) > 0
    {
      nodes := nodes - {node};
      slots := slots - 1;
    }
  }

  // Who holds which node, over any sequence of requests and releases.
  datatype Turn = Ask(holder: Id, node: Id) | Leave(holder: Id)

  function Serve(held: map<Id, Id>, turn: Turn): map<Id, Id> {
    match turn
    case Ask(holder, node) =>
      if holder in held || |held| >= SLOTS || exists h :: h in held && held[h] == node then held else held[holder := node]
    case Leave(holder) => held - {holder}
  }

  // A holder of none is granted a node exactly if nobody holds it and fewer than four
  // nodes are held; leaving gives up what one holds.
  lemma GrantedExactly(held: map<Id, Id>, holder: Id, node: Id)
    ensures Serve(held, Ask(holder, node)) ==
            if holder !in held && |held| < 4 && (forall h :: h in held ==> held[h] != node) then held[holder := node] else held
    ensures forall h :: h in Serve(held, Leave(holder)) <==> h in held && h != holder
    ensures forall h :: h in held && h != holder ==> Serve(held, Leave(holder))[h] == held[h]
  {
  }

  function ServeAll(held: map<Id, Id>, turns: seq<Turn>): map<Id, Id>
    decreases |turns|
  {
    if turns == [] then held else ServeAll(Serve(held, turns[0]), turns[1..])
  }

  ghost predicate Exclusive(held: map<Id, Id>) {
    && |held| <= SLOTS
    && forall i, j :: i in held && j in held && i != j ==> held[i] != held[j]
  }

  function Nodes(held: map<Id, Id>): set<Id> {
    set h | h in held :: held[h]
  }

  lemma {:induction false} AsManyNodes(held: map<Id, Id>)
    requires forall i, j :: i in held && j in held && i != j ==> held[i] != held[j]
    ensures |Nodes(held)| == |held|
    decreases |held|
  {
    if h :| h in held {
      var rest := held - {h};
      AsManyNodes(rest);
      forall n ensures n in Nodes(held) <==> n in Nodes(rest) + {held[h]} {
        if n in Nodes(held) && n != held[h] {
          var i :| i in held && held[i] == n;
          assert i in rest;
        }
      }
      SameMembers(Nodes(held), Nodes(rest) + {held[h]});
      assert held[h] !in Nodes(rest);
      SameMembers(held.Keys, rest.Keys + {h});
      assert |held.Keys| == |rest.Keys| + 1 && |held| == |held.Keys|;
    } else {
      SameMembers(Nodes(held), {});
      forall h ensures h !in held.Keys {
        assert h !in held;
      }
      SameMembers(held.Keys, {});
      assert |held| == |held.Keys|;
    }
  }

  // The coordinator behind these turns: a holder asks it once and releases what it
  // was granted. It grants exactly what the turns say.
  method ServeTurn(c: Coordinator, held: map<Id, Id>, turn: Turn) returns (next: map<Id, Id>)
    requires c.Valid() && Exclusive(held) && c.nodes == Nodes(held)
    modifies c
    ensures c.Valid() && next == Serve(held, turn) && Exclusive(next) && c.nodes == Nodes(next)
  {
    ServeExclusive(held, turn);
    AsManyNodes(held);
    hide Exclusive;
    next := held;
    match turn
    case Ask(holder, node) =>
      if holder in held {
        return;
      }
      NodeHeld(held, node);
      AskedNodes(held, holder, node);
      hide Nodes;
      var granted := c.Acquire(node);
      if granted {
        next := held[holder := node];
      }
    case Leave(holder) =>
      next := held - {holder};
      if holder in held {
        LeftNodes(held, holder);
        hide Nodes;
        c.Release(held[holder]);
      } else {
        assert next == held;
      }
  }

  lemma NodeHeld(held: map<Id, Id>, node: Id)
    ensures node in Nodes(held) <==> exists h :: h in held && held[h] == node
  {
  }

  lemma AskedNodes(held: map<Id, Id>, holder: Id, node: Id)
    requires holder !in held
    ensures Nodes(held[holder := node]) == Nodes(held) + {node}
  {
    var next := held[holder := node];
    forall n ensures n in Nodes(next) <==> n in Nodes(held) + {node} {
      if n in Nodes(held) {
        var i :| i in held && held[i] == n;
        assert i in next && next[i] == n;
      }
      assert holder in next && next[holder] == node;
    }
    SameMembers(Nodes(next), Nodes(held) + {node});
  }

  lemma LeftNodes(held: map<Id, Id>, holder: Id)
    requires Exclusive(held) && holder in held
    ensures held[holder] in Nodes(held) && Nodes(held - {holder}) == Nodes(held) - {held[holder]}
  {
    var next := held - {holder};
    forall n ensures n in Nodes(next) <==> n in Nodes(held) - {held[holder]} {
      if n in Nodes(held) && n != held[holder] {
        var i :| i in held && held[i] == n;
        assert i in next && next[i] == n;
      }
    }
    SameMembers(Nodes(next), Nodes(held) - {held[holder]});
  }

  method ServeTurns(turns: seq<Turn>) returns (c: Coordinator, held: map<Id, Id>)
    ensures fresh(c) && c.Valid() && held == ServeAll(map[], turns) && Exclusive(held) && c.nodes == Nodes(held)
  {
    c := new Coordinator();
    held := map[];
    for i := 0 to |turns|
      invariant fresh(c) && c.Valid() && Exclusive(held) && c.nodes == Nodes(held)
      invariant ServeAll(held, turns[i..]) == ServeAll(map[], turns)
    {
      hide Exclusive, Serve;
      assert turns[i..][1..] == turns[i + 1..];
      held := ServeTurn(c, held, turns[i]);
    }
    assert turns[|turns|..] == [];
  }

  // No two holders ever share a node, and no more than four hold one.
  lemma {:induction false} GateIsExclusive(held: map<Id, Id>, turns: seq<Turn>)
    requires Exclusive(held)
    ensures Exclusive(ServeAll(held, turns))
    decreases |turns|
  {
    if turns != [] {
      ServeExclusive(held, turns[0]);
      hide Exclusive, Serve;
      GateIsExclusive(Serve(held, turns[0]), turns[1..]);
    }
  }

  lemma ServeExclusive(held: map<Id, Id>, turn: Turn)
    requires Exclusive(held)
    ensures Exclusive(Serve(held, turn))
  {
    if turn.Leave? {
      var next := held - {turn.holder};
      assert held.Keys == next.Keys + (held.Keys - next.Keys);
    }
  }
}

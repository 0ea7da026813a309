// When the event log of an operation is a path of the state graph. Transitions only
// follow the graph; a restore takeover cancels whatever operation holds the lease,
// and from four of the active states the graph has no edge to cancelled.
module OperationLogs {
  import opened Basics
  import opened OperationState
  import opened OperationStore
  import C = ResultCodes

  // A log follows the graph if each event keeps the state or takes an edge.
  predicate Follows(log: seq<Event>) {
    forall i, j :: 0 <= i && j == i + 1 < |log| ==> log[i].state == log[j].state || Allowed(log[i].state, log[j].state)
  }

  // The states that the log runs through, without repeated observations.
  function Trace(log: seq<Event>): (states: seq<State>)
    ensures log != [] ==> states != [] && states[|states| - 1] == log[|log| - 1].state
  {
    if log == [] then []
    else
      var before := Trace(log[..|log| - 1]);
      var s := log[|log| - 1].state;
      if before != [] && before[|before| - 1] == s then before else before + [s]
  }

  lemma PathExtended(states: seq<State>, s: State)
    requires states != []
    ensures Path(states + [s]) <==> Path(states) && Allowed(states[|states| - 1], s)
  {
    hide Allowed;
    var all := states + [s];
    if Path(all) {
      forall i {:trigger states[i]} | 0 < i < |states| ensures Allowed(states[i - 1], states[i]) {
        assert all[i] == states[i] && all[i - 1] == states[i - 1];
      }
      assert Allowed(all[|states| - 1], all[|states|]);
    }
  }

  lemma FollowsExtended(log: seq<Event>, e: Event)
    requires log != []
    ensures Follows(log + [e]) <==> Follows(log) && (log[|log| - 1].state == e.state || Allowed(log[|log| - 1].state, e.state))
  {
    hide Allowed;
    var all := log + [e];
    if Follows(all) {
      forall i, j | 0 <= i && j == i + 1 < |log| ensures log[i].state == log[j].state || Allowed(log[i].state, log[j].state) {
        assert all[i] == log[i] && all[j] == log[j];
      }
      assert all[|log| - 1] == log[|log| - 1] && all[|log|] == e;
    }
  }

  // To follow the graph is to run along one of its paths.
  lemma {:induction false} FollowsExactlyPaths(log: seq<Event>)
    requires log != []
    ensures Follows(log) <==> Path(Trace(log))
  {
    hide Allowed;
    var before := log[..|log| - 1];
    if before != [] {
      FollowsExactlyPaths(before);
      assert before + [log[|log| - 1]] == log;
      FollowsExtended(before, log[|log| - 1]);
      PathExtended(Trace(before), log[|log| - 1].state);
      hide Follows, Path;
    }
  }

  // In a lawful log the only steps off the graph are those to cancelled from one of
  // the four states below.
  lemma FollowsExactlyWithoutCut(log: seq<Event>, o: Operation)
    requires LawfulLog(log, o)
    ensures Follows(log) <==> forall i, j :: 0 <= i && j == i + 1 < |log| ==> !(Uncancellable(log[i].state) && log[j].state == Cancelled)
  {
    forall i, j | 0 <= i && j == i + 1 < |log|
      ensures (log[i].state == log[j].state || Allowed(log[i].state, log[j].state)) <==> !(Uncancellable(log[i].state) && log[j].state == Cancelled)
    {
      assert LawfulStep(log[i], log[j]);
    }
    hide LawfulLog, Allowed, Uncancellable;
  }

  /* Takeover */

  // The leaseholders that can be superseded but not cancelled along an edge.
  predicate Uncancellable(s: State) {
    s in {Applying, Verifying, RollingBack, RollbackFailed}
  }

  lemma CancelledByEdgeExactlyWhen(s: State)
    requires Active(s)
    ensures Allowed(s, Cancelled) <==> !Uncancellable(s)
  {
  }

  // The claim finds the operation on its node and may supersede it: the node's
  // token is live, the claim is new, and it names the operation and its version.
  predicate Supersedes(l: Ledger, c: Claim, id: Id) {
    && c.nodeId in l.tokens && l.tokens[c.nodeId] == c.expectedToken && (c.nodeId, c.epoch) !in l.receipts
    && HoldsLease(l.rows, c.nodeId, id) && Supersedable(l.rows[id].operation, c)
  }

  lemma LoggedFollows(id: Id, row: Row, p: Operation, code: C.Code, now: int)
    requires LawfulRow(id, row)
    ensures Follows(Logged(row, p, code, now).log) <==>
            Follows(row.log) && (row.operation.state == p.state || Allowed(row.operation.state, p.state))
  {
    FollowsExtended(row.log, Event(p.version, p.state, code, now));
    hide Follows, Allowed, Consistent;
  }

  lemma ClaimTakesLeaseholder(l: Ledger, c: Claim, now: int, id: Id)
    requires Lawful(l) && Supersedes(l, c, id)
    ensures CommitClaim(l, c, now).0.rows == l.rows[id := Logged(l.rows[id], Superseded(l.rows[id].operation, now), C.RestoreSuperseded, now)]
  {
    hide LawfulRow, Active, Logged, Superseded;
    forall other | HoldsLease(l.rows, c.nodeId, other) ensures other == id {
      assert other != id ==> Compatible(l.rows[other].operation, l.rows[id].operation);
    }
    hide Lawful, HoldsLease, Supersedable;
  }

  // A claim appends the superseding event to exactly the row it supersedes, and the
  // log stays on the graph exactly if the operation was in none of the four states.
  lemma ClaimSupersedes(l: Ledger, c: Claim, now: int, id: Id)
    requires Lawful(l) && Supersedes(l, c, id)
    ensures var m := CommitClaim(l, c, now).0;
            var o := l.rows[id].operation;
            && m.rows == l.rows[id := Row(Superseded(o, now), l.rows[id].log + [Event(o.version + 1, Cancelled, C.RestoreSuperseded, now)])]
            && (Allowed(o.state, Cancelled) <==> !Uncancellable(o.state))
            && (Follows(m.rows[id].log) <==> Follows(l.rows[id].log) && !Uncancellable(o.state))
  {
    ClaimTakesLeaseholder(l, c, now, id);
    hide CommitClaim;
    var o := l.rows[id].operation;
    LawfulRows(l, id);
    LoggedFollows(id, l.rows[id], Superseded(o, now), C.RestoreSuperseded, now);
    CancelledByEdgeExactlyWhen(o.state);
    hide Lawful, LawfulRow, Follows, Allowed, Active;
  }

  // A claim changes no other row.
  lemma ClaimSparesOthers(l: Ledger, c: Claim, now: int, id: Id)
    requires !Supersedes(l, c, id) && id in l.rows
    ensures id in CommitClaim(l, c, now).0.rows && CommitClaim(l, c, now).0.rows[id] == l.rows[id]
  {
    hide Active, Logged, Superseded;
  }

  /* Whole runs */

  // The transaction cancels the operation where the graph has no edge for it.
  predicate Cuts(l: Ledger, t: Transaction, id: Id) {
    t.Take? && Supersedes(l, t.claim, id) && Uncancellable(l.rows[id].operation.state)
  }

  ghost predicate NeverCut(l: Ledger, ts: seq<(Transaction, int)>, id: Id)
    decreases |ts|
  {
    ts == [] || (!Cuts(l, ts[0].0, id) && NeverCut(Commit(l, ts[0].0, ts[0].1), ts[1..], id))
  }

  ghost predicate OnGraph(l: Ledger, id: Id) {
    id in l.rows ==> Follows(l.rows[id].log)
  }

  lemma MoveFollows(l: Ledger, target: Id, input: Transition, now: int, id: Id)
    requires Lawful(l)
    ensures OnGraph(CommitTransition(l, target, input, now).0, id) <==> OnGraph(l, id)
  {
    hide LawfulRow, Follows, Refusal, Moved, LeaseFree;
    if target in l.rows && Refusal(l.rows[target].operation, input, now).None? {
      assert LawfulRow(target, l.rows[target]);
      LoggedFollows(target, l.rows[target], Moved(l.rows[target].operation, input, now), input.code, now);
      MovedByEdge(target, l.rows[target], input, now);
    }
    hide Lawful, Logged, Allowed;
  }

  lemma MovedByEdge(id: Id, row: Row, input: Transition, now: int)
    requires LawfulRow(id, row) && Refusal(row.operation, input, now).None?
    ensures var s := Moved(row.operation, input, now).state; row.operation.state == s || Allowed(row.operation.state, s)
  {
    MovedEvolves(row.operation, input, now);
    hide LawfulLog, Refusal, Allowed, Consistent;
  }

  lemma CreateFollows(l: Ledger, r: NewOperation, now: int, id: Id)
    ensures OnGraph(CommitCreate(l, r, now).0, id) <==> OnGraph(l, id)
  {
    hide Allowed, LeaseFree, SameRequest;
  }

  lemma CommitFollows(l: Ledger, t: Transaction, now: int, id: Id)
    requires Lawful(l)
    ensures OnGraph(Commit(l, t, now), id) <==> OnGraph(l, id) && !Cuts(l, t, id)
  {
    match t
    case Create(request) => CreateFollows(l, request, now, id);
      hide Follows, CommitCreate, Lawful;
    case Move(target, input) => MoveFollows(l, target, input, now, id);
      hide Follows, CommitTransition, Lawful;
    case Take(claim) => TakeFollows(l, claim, now, id);
      hide Follows, CommitClaim, Lawful;
    case _ => hide Follows, Lawful;
  }

  lemma TakeFollows(l: Ledger, c: Claim, now: int, id: Id)
    requires Lawful(l)
    ensures OnGraph(CommitClaim(l, c, now).0, id) <==> OnGraph(l, id) && !Cuts(l, Take(c), id)
  {
    if Supersedes(l, c, id) {
      ClaimSupersedes(l, c, now, id);
      hide Follows, CommitClaim, Lawful, Uncancellable, Allowed;
    } else if id in l.rows {
      ClaimSparesOthers(l, c, now, id);
      hide Follows, CommitClaim, Lawful;
    } else {
      hide Follows, Lawful, Active, Logged, Supersedable, SameClaim;
    }
  }

  // Over every run the log of an operation is a path of the graph exactly if it was
  // one and no claim superseded the operation in one of the four states.
  lemma {:induction false} FollowsExactlyUnlessCut(l: Ledger, ts: seq<(Transaction, int)>, id: Id)
    requires Lawful(l)
    ensures OnGraph(Run(l, ts), id) <==> OnGraph(l, id) && NeverCut(l, ts, id)
    decreases |ts|
  {
    hide Lawful, OnGraph, Commit, Cuts;
    if ts != [] {
      CommitLawful(l, ts[0].0, ts[0].1);
      CommitFollows(l, ts[0].0, ts[0].1, id);
      FollowsExactlyUnlessCut(Commit(l, ts[0].0, ts[0].1), ts[1..], id);
    }
  }

  ghost function EmptyLedger(): Ledger {
    Ledger(map[], map[], map[])
  }

  // From the empty ledger: every log has a trace, and the trace is a path from
  // draft exactly if no claim cut it.
  lemma PathExactlyUnlessCut(ts: seq<(Transaction, int)>, id: Id)
    requires id in Run(EmptyLedger(), ts).rows
    ensures var log := Run(EmptyLedger(), ts).rows[id].log;
            && log != [] && Trace(log)[0] == Draft
            && (Path(Trace(log)) <==> NeverCut(EmptyLedger(), ts, id))
  {
    var l := EmptyLedger();
    EveryRunIsLawful(l, ts);
    FollowsExactlyUnlessCut(l, ts, id);
    var m := Run(l, ts);
    assert LawfulRow(id, m.rows[id]);
    FollowsExactlyPaths(m.rows[id].log);
    TraceBegins(m.rows[id].log);
    hide Run, Follows, Path, Trace, Extends, NeverCut, Consistent;
  }

  lemma {:induction false} TraceBegins(log: seq<Event>)
    requires log != []
    ensures Trace(log)[0] == log[0].state
  {
    if |log| > 1 {
      TraceBegins(log[..|log| - 1]);
    }
  }

  /* A log that is no path */

  // What the journal shows of operation 7 once it is prepared.
  function Seen(): View {
    View(Unstated, None, false, 7, 0, 0, 0, 9, Prepared, None, 1, 1, 1000, false, false, false, false, false)
  }

  // How operation 7 on node 1 comes to be applied.
  function Inputs(): seq<Transition> {
    [Transition(1, Validated, C.Validated, Some(Seen()), 1), Transition(2, Prepared, C.Prepared, Some(Seen()), 1),
     Transition(3, Applying, C.Applying, None, 0)]
  }

  function Request(): NewOperation {
    NewOperation(7, 1, 2, 0, 0, 1000, 0, 0)
  }

  function Applied(): seq<(Transaction, int)> {
    [(Rotate(1, Some(5)), 1), (Create(Request()), 1), (Move(7, Inputs()[0]), 2), (Move(7, Inputs()[1]), 3), (Move(7, Inputs()[2]), 4)]
  }

  // The restored service 3 takes the node over and names the operation it saw.
  function Overtaking(): Claim {
    Claim(20, 1, 3, 1, 2, None, 0, 0, 0, 5, Some((7, 4)))
  }

  function Single(row: Row): Ledger {
    Ledger(map[7 := row], map[], map[1 := 5])
  }

  function Taken(row: Row, input: Transition, now: int): Row {
    Logged(row, Moved(row.operation, input, now), input.code, now)
  }

  lemma CreatedSingle(ts: seq<(Transaction, int)>)
    requires |ts| >= 2 && ts[0] == (Rotate(1, Some(5)), 1) && ts[1] == (Create(Request()), 1)
    ensures Run(EmptyLedger(), ts) == Run(Single(Drafted(Request(), 1)), ts[2..])
  {
    var l := Ledger(map[], map[], map[1 := 5]);
    assert Commit(EmptyLedger(), Rotate(1, Some(5)), 1) == l;
    assert Commit(l, Create(Request()), 1) == Single(Drafted(Request(), 1)) by {
      assert forall id :: !KeyTaken(l.rows, 0, id);
    }
    assert ts[1..][1..] == ts[2..];
    hide Commit, Drafted;
  }

  lemma MovedSingle(row: Row, input: Transition, now: int, ts: seq<(Transaction, int)>)
    requires Refusal(row.operation, input, now).None?
    requires |ts| >= 1 && ts[0] == (Move(7, input), now)
    ensures Run(Single(row), ts) == Run(Single(Taken(row, input, now)), ts[1..])
  {
    hide Refusal, Moved, Logged;
    assert CommitTransition(Single(row), 7, input, now).0 == Single(Taken(row, input, now));
  }

  function Last(): Row {
    Taken(Taken(Taken(Drafted(Request(), 1), Inputs()[0], 2), Inputs()[1], 3), Inputs()[2], 4)
  }

  lemma Unrefused()
    ensures var a := Drafted(Request(), 1);
            var b := Taken(a, Inputs()[0], 2);
            var c := Taken(b, Inputs()[1], 3);
            && Refusal(a.operation, Inputs()[0], 2).None?
            && Refusal(b.operation, Inputs()[1], 3).None?
            && Refusal(c.operation, Inputs()[2], 4).None?
            && Last().operation.state == Applying && Last().operation.version == 4 && Last().operation.nodeId == 1
            && Last().operation.operationId == 7 && Last().operation.serviceId == 2
  {
  }

  lemma LastFollows()
    ensures Follows(Last().log)
  {
    var log := Last().log;
    assert |log| == 4 && log[0].state == Draft && log[1].state == Validated && log[2].state == Prepared && log[3].state == Applying;
  }

  lemma AppliedRun()
    ensures Run(EmptyLedger(), Applied()) == Single(Last())
  {
    Unrefused();
    hide Refusal, Single, Taken, Drafted, Run;
    var ts := Applied();
    CreatedSingle(ts);
    var a := Drafted(Request(), 1);
    var b := Taken(a, Inputs()[0], 2);
    MovedSingle(a, Inputs()[0], 2, ts[2..]);
    MovedSingle(b, Inputs()[1], 3, ts[3..]);
    MovedSingle(Taken(b, Inputs()[1], 3), Inputs()[2], 4, ts[4..]);
    assert ts[2..][1..] == ts[3..] && ts[3..][1..] == ts[4..] && ts[4..][1..] == [];
    RunNothing(Single(Last()));
  }

  lemma RunNothing(l: Ledger)
    ensures Run(l, []) == l
  {
  }

  // Such a run exists: the operation is being applied, its log a path; the claim
  // succeeds, and the log, still lawful, goes from applying to cancelled.
  lemma CutLogExists()
    ensures var l := Run(EmptyLedger(), Applied());
            var m := CommitClaim(l, Overtaking(), 5).0;
            && Lawful(l) && Lawful(m) && Cuts(l, Take(Overtaking()), 7)
            && l.rows[7].operation.state == Applying && Path(Trace(l.rows[7].log))
            && 7 in m.rows && m.rows[7].operation.state == Cancelled && m.rows[7].log != [] && !Path(Trace(m.rows[7].log))
  {
    EveryRunIsLawful(EmptyLedger(), Applied());
    AppliedRun();
    CutOnce(Single(Last()));
    hide Single, Last, Run, Lawful, Extends, Trace, Path, CommitClaim, Supersedes;
  }

  lemma CutOnce(l: Ledger)
    requires l == Single(Last()) && Lawful(l)
    ensures Cuts(l, Take(Overtaking()), 7) && l.rows[7].operation.state == Applying && Path(Trace(l.rows[7].log))
    ensures var m := CommitClaim(l, Overtaking(), 5).0;
            && Lawful(m) && 7 in m.rows && m.rows[7].operation.state == Cancelled && m.rows[7].log != [] && !Path(Trace(m.rows[7].log))
  {
    hide CommitClaim, Trace, Path, Follows, Lawful, Extends;
    Unrefused();
    LastFollows();
    hide Last;
    var o := l.rows[7].operation;
    assert Supersedes(l, Overtaking(), 7);
    hide Single, Supersedes;
    ClaimLawful(l, Overtaking(), 5);
    ClaimSupersedes(l, Overtaking(), 5, 7);
    assert LawfulRow(7, l.rows[7]) by { LawfulRows(l, 7); }
    FollowsExactlyPaths(l.rows[7].log);
    FollowsExactlyPaths(CommitClaim(l, Overtaking(), 5).0.rows[7].log);
  }

  lemma LawfulRows(l: Ledger, id: Id)
    requires Lawful(l) && id in l.rows
    ensures LawfulRow(id, l.rows[id])
  {
  }
}

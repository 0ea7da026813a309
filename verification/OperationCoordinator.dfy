// How the controller turns the Agent's journal into ledger transitions. A
// journal view may skip transient states; the coordinator records the
// transitions that lead to it, and never sends anything.
module OperationCoordinator {
  import opened Basics
  import opened OperationState
  import opened OperationStore
  import C = ResultCodes

  // An authenticated reply of the Agent to a command about one operation.
  datatype Answer = Answer(serviceId: Id, operationId: Id, code: C.Code, view: Option<View>)

  // The clock readings and submission fates of one round of recording.
  datatype Tick = Tick(checkAt: Millis, receivedAt: Millis, storeAt: Millis, fate: Fate, afterAt: Millis, againAt: Millis, again: Fate)

  datatype Obstacle = Mismatch | Exhausted | Store(error: StoreError)

  const ROUNDS := 5

  function AuditCode(code: C.Code): (audit: C.Code)
    ensures C.EventCode(audit)
  {
    if C.EventCode(code) then code
    else if C.IssueCode(code) then C.ValidationFailed
    else C.Failed
  }

  function Proposal(o: Operation, next: State, code: C.Code, agent: Option<View>, receivedAt: int): Transition {
    Transition(o.version, next, AuditCode(code), agent, receivedAt)
  }

  // An answer is evidence about this operation: same service, operation, base
  // revision, candidate, deadline and journal entry, and no older than what is known.
  predicate Matches(o: Operation, a: Answer) {
    && a.serviceId == o.serviceId && a.operationId == o.operationId
    && a.view.Some? && a.view.value.Valid()
    && var v := a.view.value;
    && (o.agent.Some? ==> MaterialsMayBecome(o.agent.value, v))
    && v.operationId == o.operationId && v.baseRevision == o.baseRevision
    && (o.candidate.Some? ==> o.candidate.value == v.candidate)
    && (o.agent.Some? ==> SameJournal(o.agent.value, v))
    && v.deadlineAtMs == o.deadlineAtMs
  }

  predicate AlreadyRecorded(o: Operation, v: View, now: int) {
    && o.agent == Some(v)
    && (o.state == v.state || (o.state == OutcomeUnknown && now >= o.deadlineAtMs && Timed(v.state)))
  }

  // The next local state on the way from the operation's state to the journal's.
  function Toward(from: State, target: State): State {
    if from == Draft && target == Prepared then Validated
    else if from == target || Allowed(from, target) then target
    else if from == Applying && target == Confirmed then Verifying
    else if from in {RollbackFailed, Confirmed} && target == RolledBack then RollingBack
    else OutcomeUnknown
  }

  function NextState(o: Operation, target: State, now: int): State {
    var next := Toward(o.state, target);
    if Timed(next) && o.state != next && now >= o.deadlineAtMs then OutcomeUnknown else next
  }

  function Attached(o: Operation, next: State, v: View): Option<View> {
    if next == OutcomeUnknown && o.candidate.None? && o.state != OutcomeUnknown then None else Some(v)
  }

  datatype Recorded = Recorded(ledger: Ledger, operation: Operation, obstacle: Option<Obstacle>)

  function Advance(o: Operation, v: View, t: Tick): Transition {
    var next := NextState(o, v.state, t.checkAt);
    Proposal(o, next, StateCode(next), Attached(o, next, v), t.receivedAt)
  }

  function Confirmation(o: Operation, v: View, t: Tick): Transition {
    Proposal(o, o.state, C.Recovered, Some(v), t.receivedAt)
  }

  // A timed target that is past its deadline is kept under outcome_unknown.
  predicate Late(p: Operation, v: View, t: Tick) {
    p.state == OutcomeUnknown && Timed(v.state) && t.afterAt >= p.deadlineAtMs
  }

  // One round of recording either finishes or leaves the operation one step on.
  datatype Progress = Finished(recorded: Recorded) | Underway(ledger: Ledger, operation: Operation)

  function Round(l: Ledger, o: Operation, v: View, t: Tick): Progress {
    var (m, answer) := Submit(l, o.operationId, Advance(o, v, t), t.storeAt, t.fate);
    if answer.Failure? then Finished(Recorded(m, o, Some(Store(answer.error))))
    else if answer.value.state == v.state then Finished(Recorded(m, answer.value, None))
    else if Late(answer.value, v, t) then Finished(RecordLate(m, answer.value, v, t))
    else Underway(m, answer.value)
  }

  function RecordLate(l: Ledger, o: Operation, v: View, t: Tick): Recorded {
    var (m, answer) := Submit(l, o.operationId, Confirmation(o, v, t), t.againAt, t.again);
    if answer.Failure? then Recorded(m, o, Some(Store(answer.error))) else Recorded(m, answer.value, None)
  }

  function RecordFrom(l: Ledger, o: Operation, v: View, ticks: seq<Tick>): Recorded
    decreases |ticks|
  {
    if ticks == [] then Recorded(l, o, Some(Exhausted))
    else match Round(l, o, v, ticks[0])
      case Finished(recorded) => recorded
      case Underway(m, p) => RecordFrom(m, p, v, ticks[1..])
  }

  function Record(l: Ledger, o: Operation, a: Answer, now: int, ticks: seq<Tick>): Recorded {
    if !Matches(o, a) then Recorded(l, o, Some(Mismatch))
    else if AlreadyRecorded(o, a.view.value, now) then Recorded(l, o, None)
    else RecordFrom(l, o, a.view.value, ticks)
  }

  method RecordResult(store: ControlStore, operation: Operation, a: Answer, now: int, ticks: seq<Tick>)
    returns (recorded: Operation, obstacle: Option<Obstacle>)
    requires store.Valid() && |ticks| == ROUNDS
    modifies store
    ensures store.Valid()
    ensures Recorded(store.Contents(), recorded, obstacle) == Record(old(store.Contents()), operation, a, now, ticks)
  {
    ghost var outcome := Record(store.Contents(), operation, a, now, ticks);
    var o := operation;
    if !Matches(o, a) {
      return o, Some(Mismatch);
    }
    var v := a.view.value;
    if AlreadyRecorded(o, v, now) {
      return o, None;
    }
    hide Round, Lawful, Matches, AlreadyRecorded;
    for round := 0 to ROUNDS
      invariant store.Valid()
      invariant outcome == RecordFrom(store.Contents(), o, v, ticks[round..])
    {
      var finished;
      finished, o, obstacle := RecordRound(store, o, v, ticks[round]);
      if finished {
        return o, obstacle;
      }
    }
    return o, Some(Exhausted);
  }

  method RecordRound(store: ControlStore, operation: Operation, v: View, t: Tick)
    returns (finished: bool, o: Operation, obstacle: Option<Obstacle>)
    requires store.Valid()
    modifies store
    ensures store.Valid()
    ensures match Round(old(store.Contents()), operation, v, t)
            case Finished(recorded) => finished && recorded == Recorded(store.Contents(), o, obstacle)
            case Underway(m, p) => !finished && m == store.Contents() && p == o
  {
    hide Lawful, Extends, Submit, Advance, Confirmation;
    o, obstacle, finished := operation, None, true;
    var updated := store.TransitionOperation(o.operationId, Advance(o, v, t), t.storeAt, t.fate);
    if updated.Failure? {
      return true, o, Some(Store(updated.error));
    }
    o := updated.value;
    if o.state == v.state {
      return;
    }
    if !Late(o, v, t) {
      return false, o, None;
    }
    updated := store.TransitionOperation(o.operationId, Confirmation(o, v, t), t.againAt, t.again);
    if updated.Failure? {
      return true, o, Some(Store(updated.error));
    }
    o := updated.value;
  }

  /* What recording can do to the ledger */

  // Only the operation's own row may change.
  predicate OnlyTouches(l: Ledger, m: Ledger, id: Id) {
    && m.receipts == l.receipts && m.tokens == l.tokens
    && m.rows.Keys == l.rows.Keys
    && forall other :: other in l.rows && other != id ==> m.rows[other] == l.rows[other]
  }

  // The operation changed at most as the view v justifies. It has not changed;
  // or it has reached exactly the state of the view and holds the view; or it
  // was active and still is; or it was confirmed and takes the lease back
  // because the view shows that the Agent rolled it back.
  predicate JustifiedBy(before: Operation, after: Operation, v: View) {
    || after == before
    || (after.state == v.state && after.agent == Some(v))
    || (Active(before.state) && Active(after.state) && !(before.state == RollingBack && v.state == RolledBack))
    || (before.state == Confirmed && v.state == RolledBack && after.state == RollingBack && after.agent == Some(v))
    || (v.state == OutcomeUnknown && after.state == OutcomeUnknown && Active(before.state))
  }

  // A submission for the caller's copy o of a row either leaves the row alone or
  // finds the copy current and moves it.
  lemma Submitted(l: Ledger, o: Operation, input: Transition, now: int, fate: Fate)
    requires o.operationId in l.rows && Evolves(o, l.rows[o.operationId].operation) && input.expectedVersion == o.version
    ensures OnlyTouches(l, Submit(l, o.operationId, input, now, fate).0, o.operationId)
    ensures var (m, answer) := Submit(l, o.operationId, input, now, fate);
            var p := m.rows[o.operationId].operation;
            && (p == l.rows[o.operationId].operation || (o == l.rows[o.operationId].operation && Refusal(o, input, now).None? && p == Moved(o, input, now)))
            && (answer.Success? ==> answer.value == p && o == l.rows[o.operationId].operation && Refusal(o, input, now).None? && p == Moved(o, input, now))
  {
  }

  // One round moves the operation at most one legal step toward the journal.
  lemma RoundJustified(o: Operation, v: View, t: Tick)
    requires Refusal(o, Advance(o, v, t), t.storeAt).None?
    ensures var p := Moved(o, Advance(o, v, t), t.storeAt);
            && p.state == NextState(o, v.state, t.checkAt)
            && JustifiedBy(o, p, v)
            && (p.state != v.state ==> Active(p.state) && (o.state == RollingBack && v.state == RolledBack ==> false))
            && (p.state != v.state && !Active(o.state) ==> o.state == Confirmed && v.state == RolledBack && p.state == RollingBack && p.agent == Some(v))
  {
  }

  // Recording justifies every change by the journal view, however the clock
  // runs, wherever an answer is lost, and also when the caller's copy of the
  // operation is older than the ledger's.
  lemma {:induction false} RecordJustified(l: Ledger, o: Operation, v: View, ticks: seq<Tick>)
    requires v.operationId == o.operationId && o.operationId in l.rows
    requires Evolves(o, l.rows[o.operationId].operation)
    ensures OnlyTouches(l, RecordFrom(l, o, v, ticks).ledger, o.operationId)
    ensures JustifiedBy(l.rows[o.operationId].operation, RecordFrom(l, o, v, ticks).ledger.rows[o.operationId].operation, v)
    decreases |ticks|
  {
    hide Submit, Refusal, Advances, Confirmation, RecordLate;
    if ticks != [] {
      var t := ticks[0];
      Submitted(l, o, Advance(o, v, t), t.storeAt, t.fate);
      var (m, answer) := Submit(l, o.operationId, Advance(o, v, t), t.storeAt, t.fate);
      if Refusal(o, Advance(o, v, t), t.storeAt).None? {
        RoundJustified(o, v, t);
      }
      hide Advance, NextState, Moved;
      if answer.Success? && answer.value.state != v.state {
        var p := answer.value;
        if Late(p, v, t) {
          LateJustified(m, p, v, t);
        } else {
          RecordJustified(m, p, v, ticks[1..]);
        }
      }
    }
  }

  lemma LateJustified(l: Ledger, o: Operation, v: View, t: Tick)
    requires o.operationId in l.rows && Evolves(o, l.rows[o.operationId].operation) && Late(o, v, t)
    ensures OnlyTouches(l, RecordLate(l, o, v, t).ledger, o.operationId)
    ensures var p := RecordLate(l, o, v, t).ledger.rows[o.operationId].operation;
            p == l.rows[o.operationId].operation || p.state == OutcomeUnknown
  {
    Submitted(l, o, Confirmation(o, v, t), t.againAt, t.again);
  }

  /* When recording succeeds */

  // The clock does not run backwards within a round.
  predicate Forward(t: Tick) {
    t.checkAt <= t.storeAt <= t.afterAt <= t.againAt
  }

  // Every answer arrives, and the deadline does not fall between the
  // coordinator's look at the clock and the ledger's.
  predicate Calm(t: Tick, deadlineAtMs: int) {
    && Forward(t) && t.fate == Answered && t.again == Answered
    && (t.checkAt < deadlineAtMs ==> t.storeAt < deadlineAtMs)
  }

  // The journal states that the ledger can follow from the operation's state. A
  // draft whose candidate is unknown cannot follow a refusal that the journal
  // already knows the candidate of: the ledger assigns a candidate only on the
  // way to prepared or from outcome_unknown.
  predicate Recordable(o: Operation, target: State) {
    if target == o.state then o.candidate.Some? || target == OutcomeUnknown
    else if o.state == OutcomeUnknown then target != Draft
    else if target == Draft then false
    else if o.candidate.None? then o.state == Draft && target !in {Rejected, Conflict, Failed, Cancelled}
    else if o.state in {Confirmed, RollbackFailed} then target in {RollingBack, RolledBack}
    else Active(o.state)
  }

  // A lease must be free for an observed rollback of a confirmed operation.
  predicate LeaseAvailable(l: Ledger, o: Operation, target: State) {
    o.state == Confirmed && target != Confirmed ==> LeaseFree(l.rows, o.nodeId, o.operationId)
  }

  // The coordinator's copy is the ledger's row, and v is evidence about it.
  ghost predicate Current(l: Ledger, o: Operation, v: View) {
    && o.operationId in l.rows && l.rows[o.operationId].operation == o && Consistent(o)
    && (Active(o.state) ==> LeaseFree(l.rows, o.nodeId, o.operationId))
    && Matches(o, Answer(o.serviceId, o.operationId, C.Ok, Some(v)))
  }

  predicate Fits(o: Operation, next: State, v: View) {
    && (next == o.state || Allowed(o.state, next))
    && (Attached(o, next, v).Some? && o.candidate.None? && o.state != OutcomeUnknown ==> next in {Validated, Prepared})
  }

  lemma CurrentRow(l: Ledger, o: Operation, v: View)
    requires Lawful(l) && o.operationId in l.rows && l.rows[o.operationId].operation == o
    requires Matches(o, Answer(o.serviceId, o.operationId, C.Ok, Some(v)))
    ensures Current(l, o, v)
  {
    hide Matches, LawfulLog, Active;
    assert LawfulRow(o.operationId, l.rows[o.operationId]);
    forall id | id in l.rows && id != o.operationId && l.rows[id].operation.nodeId == o.nodeId && Active(o.state)
      ensures !Active(l.rows[id].operation.state)
    {
      assert Compatible(o, l.rows[id].operation);
    }
  }

  lemma AdvanceAccepted(o: Operation, v: View, t: Tick)
    requires Consistent(o) && Matches(o, Answer(o.serviceId, o.operationId, C.Ok, Some(v)))
    requires Calm(t, o.deadlineAtMs) && o.version < MAX_VERSION
    ensures Refusal(o, Advance(o, v, t), t.storeAt).None? <==> Fits(o, NextState(o, v.state, t.checkAt), v)
  {
  }

  lemma ConfirmationAccepted(o: Operation, v: View, t: Tick)
    requires Consistent(o) && Matches(o, Answer(o.serviceId, o.operationId, C.Ok, Some(v)))
    requires o.version < MAX_VERSION && o.state == OutcomeUnknown
    ensures Refusal(o, Confirmation(o, v, t), t.againAt).None?
  {
  }

  // What remains evidence after one accepted round.
  lemma StillCurrent(l: Ledger, o: Operation, v: View, t: Tick)
    requires Current(l, o, v) && Calm(t, o.deadlineAtMs) && o.version < MAX_VERSION
    ensures var next := NextState(o, v.state, t.checkAt);
            var (m, answer) := Submit(l, o.operationId, Advance(o, v, t), t.storeAt, t.fate);
            if Fits(o, next, v) && (Active(next) ==> LeaseFree(l.rows, o.nodeId, o.operationId)) then
              && answer.Success? && answer.value == Moved(o, Advance(o, v, t), t.storeAt)
              && answer.value.state == next && answer.value.version == o.version + 1 && answer.value.deadlineAtMs == o.deadlineAtMs
              && answer.value.operationId == o.operationId
              && Current(m, answer.value, v)
            else answer.Failure?
  {
    AdvanceAccepted(o, v, t);
    var next := NextState(o, v.state, t.checkAt);
    if Fits(o, next, v) && (Active(next) ==> LeaseFree(l.rows, o.nodeId, o.operationId)) {
      MovedCurrent(o, v, Advance(o, v, t), t.storeAt);
    }
  }

  lemma MovedCurrent(o: Operation, v: View, input: Transition, now: int)
    requires Consistent(o) && Matches(o, Answer(o.serviceId, o.operationId, C.Ok, Some(v)))
    requires Refusal(o, input, now).None? && (input.agent == None || input.agent == Some(v))
    ensures Consistent(Moved(o, input, now))
    ensures Matches(Moved(o, input, now), Answer(o.serviceId, o.operationId, C.Ok, Some(v)))
  {
  }

  lemma LateAccepted(l: Ledger, o: Operation, v: View, t: Tick)
    requires Current(l, o, v) && o.state == OutcomeUnknown && o.version < MAX_VERSION && t.again == Answered
    ensures RecordLate(l, o, v, t).obstacle.None?
  {
    ConfirmationAccepted(o, v, t);
    hide Refusal, LeaseFree;
  }

  predicate OneStepAway(from: State, target: State) {
    from == OutcomeUnknown || (from, target) in {(Validated, Prepared), (Verifying, Confirmed), (RollingBack, RolledBack)}
  }

  // Once the operation is one step from its target, the next round finishes.
  lemma LastRound(l: Ledger, o: Operation, v: View, t: Tick)
    requires Current(l, o, v) && Calm(t, o.deadlineAtMs) && o.version < MAX_VERSION - 1
    requires v.state != o.state && v.state != Draft && OneStepAway(o.state, v.state)
    ensures Round(l, o, v, t).Finished? && Round(l, o, v, t).recorded.obstacle.None?
  {
    StillCurrent(l, o, v, t);
    var next := NextState(o, v.state, t.checkAt);
    var (m, answer) := Submit(l, o.operationId, Advance(o, v, t), t.storeAt, t.fate);
    assert Fits(o, next, v);
    assert answer.Success?;
    if next != v.state {
      LateAccepted(m, answer.value, v, t);
    }
  }

  // Under calm rounds recording succeeds exactly for matching answers whose state
  // the ledger can follow.
  lemma RecordedExactlyWhen(l: Ledger, o: Operation, a: Answer, now: int, ticks: seq<Tick>)
    requires Lawful(l) && o.operationId in l.rows && l.rows[o.operationId].operation == o
    requires |ticks| == ROUNDS && (forall i :: 0 <= i < |ticks| ==> Calm(ticks[i], o.deadlineAtMs)) && o.version < MAX_VERSION - 3
    ensures Record(l, o, a, now, ticks).obstacle.None?
       <==> Matches(o, a) && Recordable(o, a.view.value.state) && LeaseAvailable(l, o, a.view.value.state)
  {
    if Matches(o, a) {
      var v := a.view.value;
      CurrentRow(l, o, v);
      if AlreadyRecorded(o, v, now) {
        assert Recordable(o, v.state) && LeaseAvailable(l, o, v.state);
      } else {
        RecordedFromExactlyWhen(l, o, v, ticks);
      }
    }
  }

  lemma RecordedFromExactlyWhen(l: Ledger, o: Operation, v: View, ticks: seq<Tick>)
    requires Current(l, o, v)
    requires |ticks| == ROUNDS && (forall i :: 0 <= i < |ticks| ==> Calm(ticks[i], o.deadlineAtMs)) && o.version < MAX_VERSION - 3
    ensures RecordFrom(l, o, v, ticks).obstacle.None? <==> Recordable(o, v.state) && LeaseAvailable(l, o, v.state)
  {
    hide Round, Current, Recordable, LeaseAvailable, Calm;
    FirstRound(l, o, v, ticks[0]);
    if v.state == Draft && o.state != Draft {
      NeverDraft(l, o, v, ticks);
    } else if Round(l, o, v, ticks[0]).Underway? {
      var p := Round(l, o, v, ticks[0]).operation;
      assert ticks[1..][0] == ticks[1];
      LastRound(Round(l, o, v, ticks[0]).ledger, p, v, ticks[1]);
    }
  }

  // The first calm round fails exactly when the ledger cannot follow; otherwise
  // it finishes or leaves the operation one step from its target.
  lemma FirstRound(l: Ledger, o: Operation, v: View, t: Tick)
    requires Current(l, o, v) && Calm(t, o.deadlineAtMs) && o.version < MAX_VERSION - 3
    ensures v.state == Draft != o.state ==> !Recordable(o, v.state)
    ensures v.state != Draft || o.state == Draft ==>
              match Round(l, o, v, t)
              case Finished(recorded) =>
                recorded.obstacle.None? <==> Recordable(o, v.state) && LeaseAvailable(l, o, v.state)
              case Underway(m, p) =>
                && Recordable(o, v.state) && LeaseAvailable(l, o, v.state)
                && Current(m, p, v) && p.version == o.version + 1 && p.deadlineAtMs == o.deadlineAtMs && v.state != p.state
                && v.state != Draft && OneStepAway(p.state, v.state)
  {
    NextStateFits(o, v, t.checkAt, LeaseFree(l.rows, o.nodeId, o.operationId));
    hide Recordable, Fits;
    StillCurrent(l, o, v, t);
    hide NextState, Advance;
    var (m, answer) := Submit(l, o.operationId, Advance(o, v, t), t.storeAt, t.fate);
    if answer.Success? && answer.value.state != v.state && Late(answer.value, v, t) {
      LateAccepted(m, answer.value, v, t);
    }
  }

  lemma NextStateFits(o: Operation, v: View, now: int, free: bool)
    requires Consistent(o) && (Active(o.state) ==> free)
    ensures var next := NextState(o, v.state, now);
            && (v.state == Draft != o.state ==> !Recordable(o, v.state))
            && (v.state != Draft || o.state == Draft ==>
                (Fits(o, next, v) && (Active(next) ==> free) <==>
                 Recordable(o, v.state) && (o.state == Confirmed && v.state != Confirmed ==> free)))
            && (v.state == Draft == o.state ==> next == v.state)
            && (v.state != Draft && next != v.state ==> OneStepAway(next, v.state))
  {
  }

  // A view in the state draft is recorded only on a draft: any other active
  // operation is left unknown, and every round repeats the observation.
  lemma {:induction false} NeverDraft(l: Ledger, o: Operation, v: View, ticks: seq<Tick>)
    requires v.state == Draft && o.state != Draft
    ensures RecordFrom(l, o, v, ticks).obstacle.Some?
    decreases |ticks|
  {
    if ticks != [] && Round(l, o, v, ticks[0]).Underway? {
      NeverDraft(Round(l, o, v, ticks[0]).ledger, Round(l, o, v, ticks[0]).operation, v, ticks[1..]);
    }
  }

  // Two rounds are always enough, except for such a view: the limit of five is
  // never what stops the recording of any other view.
  lemma ExhaustedOnlyByDraft(l: Ledger, o: Operation, v: View, ticks: seq<Tick>)
    requires o.operationId in l.rows && l.rows[o.operationId].operation.operationId == o.operationId
    requires |ticks| == ROUNDS && forall i :: 0 <= i < |ticks| ==> Forward(ticks[i])
    requires RecordFrom(l, o, v, ticks).obstacle == Some(Exhausted)
    ensures v.state == Draft && o.state != Draft
  {
    if v.state != Draft || o.state == Draft {
      RoundLeadsOn(l, o, v, ticks[0]);
      hide Round;
      var first := Round(l, o, v, ticks[0]);
      assert first.Underway?;
      assert ticks[1..][0] == ticks[1];
      SecondRoundFinishes(first.ledger, first.operation, v, ticks[1]);
    }
  }

  // Under calm rounds the limit is reached exactly so: the journal says draft of an
  // operation that is active, no draft, and can be marked unknown. Each round then
  // repeats the observation, and the operation ends unknown.
  lemma ExhaustedExactlyWhen(l: Ledger, o: Operation, v: View, ticks: seq<Tick>)
    requires Current(l, o, v) && o.operationId in l.rows && |ticks| == ROUNDS && o.version < MAX_VERSION - ROUNDS
    requires forall i :: 0 <= i < |ticks| ==> Calm(ticks[i], o.deadlineAtMs)
    ensures var recorded := RecordFrom(l, o, v, ticks);
            && (recorded.obstacle == Some(Exhausted) <==>
                v.state == Draft && Active(o.state) && o.state != Draft && o.state != RollbackFailed)
            && (recorded.obstacle == Some(Exhausted) ==>
                recorded.operation.state == OutcomeUnknown && recorded.operation.version == o.version + ROUNDS)
  {
    if v.state != Draft || o.state == Draft {
      if RecordFrom(l, o, v, ticks).obstacle == Some(Exhausted) {
        ExhaustedOnlyByDraft(l, o, v, ticks);
      }
    } else if Active(o.state) && o.state != RollbackFailed {
      UnknownUntilExhausted(l, o, v, ticks);
    } else {
      DraftRefused(l, o, v, ticks[0]);
    }
    hide Current, Round, Calm;
  }

  lemma {:induction false} UnknownUntilExhausted(l: Ledger, o: Operation, v: View, ticks: seq<Tick>)
    requires Current(l, o, v) && o.version < MAX_VERSION - |ticks|
    requires forall i :: 0 <= i < |ticks| ==> Calm(ticks[i], o.deadlineAtMs)
    requires v.state == Draft && Active(o.state) && o.state != Draft && o.state != RollbackFailed
    ensures var recorded := RecordFrom(l, o, v, ticks);
            && recorded.obstacle == Some(Exhausted) && recorded.operation.version == o.version + |ticks|
            && (ticks != [] ==> recorded.operation.state == OutcomeUnknown)
    decreases |ticks|
  {
    if ticks != [] {
      DraftObserved(l, o, v, ticks[0]);
      hide Current, Round, Calm;
      UnknownUntilExhausted(Round(l, o, v, ticks[0]).ledger, Round(l, o, v, ticks[0]).operation, v, ticks[1..]);
    }
  }

  lemma DraftObserved(l: Ledger, o: Operation, v: View, t: Tick)
    requires Current(l, o, v) && Calm(t, o.deadlineAtMs) && o.version < MAX_VERSION
    requires v.state == Draft && Active(o.state) && o.state != Draft && o.state != RollbackFailed
    ensures match Round(l, o, v, t)
            case Finished(_) => false
            case Underway(m, p) =>
              && Current(m, p, v) && p.state == OutcomeUnknown && p.version == o.version + 1 && p.deadlineAtMs == o.deadlineAtMs
  {
    StillCurrent(l, o, v, t);
    assert NextState(o, v.state, t.checkAt) == OutcomeUnknown;
    assert Fits(o, OutcomeUnknown, v);
    hide Submit, Advance, Current, Moved;
  }

  lemma DraftRefused(l: Ledger, o: Operation, v: View, t: Tick)
    requires Current(l, o, v) && Calm(t, o.deadlineAtMs) && o.version < MAX_VERSION
    requires v.state == Draft && (!Active(o.state) || o.state == RollbackFailed)
    ensures Round(l, o, v, t).Finished? && Round(l, o, v, t).recorded.obstacle.Some? && Round(l, o, v, t).recorded.obstacle.value.Store?
  {
    StillCurrent(l, o, v, t);
    assert !Fits(o, NextState(o, v.state, t.checkAt), v);
    hide Submit, Advance, Current, Moved;
  }

  lemma RoundLeadsOn(l: Ledger, o: Operation, v: View, t: Tick)
    requires v.state != Draft || o.state == Draft
    requires o.operationId in l.rows && l.rows[o.operationId].operation.operationId == o.operationId
    ensures match Round(l, o, v, t)
            case Finished(recorded) => recorded.obstacle != Some(Exhausted)
            case Underway(m, p) =>
              && v.state != Draft && p.state != v.state && OneStepAway(p.state, v.state)
              && p.operationId in m.rows && m.rows[p.operationId].operation == p
  {
    hide Refusal;
  }

  lemma SecondRoundFinishes(l: Ledger, o: Operation, v: View, t: Tick)
    requires o.operationId in l.rows && l.rows[o.operationId].operation == o
    requires v.state != Draft && o.state != v.state && OneStepAway(o.state, v.state) && Forward(t)
    ensures Round(l, o, v, t).Finished? && Round(l, o, v, t).recorded.obstacle != Some(Exhausted)
  {
    hide Refusal;
  }

  // The one family of journal outcomes that a draft cannot follow: nothing is
  // written, and the draft keeps its lease until an action of the administrator or a
  // restore takeover ends it.
  lemma StuckDraft(l: Ledger, o: Operation, a: Answer, now: int, ticks: seq<Tick>)
    requires Lawful(l) && o.operationId in l.rows && l.rows[o.operationId].operation == o
    requires |ticks| == ROUNDS && (forall i :: 0 <= i < |ticks| ==> Calm(ticks[i], o.deadlineAtMs)) && o.version < MAX_VERSION - 3
    requires Matches(o, a) && o.state == Draft && o.candidate.None? && a.view.value.state in {Rejected, Conflict, Failed, Cancelled}
    ensures Record(l, o, a, now, ticks) == Recorded(l, o, Some(Store(Unacceptable)))
  {
    assert LawfulRow(o.operationId, l.rows[o.operationId]);
    assert ticks[0] in ticks;
    hide Lawful, LeaseFree, LawfulRow;
  }

  // Such a draft and such a journal entry exist.
  function ExampleDraft(): Operation {
    Operation(1, 2, 3, 4, None, 5, 2_000, 6, 7, Draft, 1, 1_000, 1_000, None, 0)
  }

  function ExampleJournal(): Answer {
    Answer(3, 1, C.Ok, Some(View(Unstated, None, false, 1, 4, 8, 9, 10, Cancelled, None, 1_100, 1_200, 2_000, false, false, false, false, false)))
  }

  lemma StuckDraftExists(now: int)
    ensures Matches(ExampleDraft(), ExampleJournal()) && Consistent(ExampleDraft())
    ensures forall t: Tick :: Refusal(ExampleDraft(), Advance(ExampleDraft(), ExampleJournal().view.value, t), now) == Some(Unacceptable)
  {
  }
}

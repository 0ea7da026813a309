// The administrative handlers and the reconcile loop, each run under the gate of
// its node. What the Agent answers comes from outside; every handler accounts for
// what it does to the ledger as a run of warranted acts.
module OperationHandlers {
  import opened Basics
  import opened OperationState
  import opened OperationStore
  import opened OperationCoordinator
  import opened OperationWarrants
  import RestoreLineage
  import C = ResultCodes

  // When a transition reaches the ledger, and whether its answer comes back.
  datatype Submission = Submission(at: Millis, fate: Fate)

  // The clock readings and submissions with which a delivered view is recorded.
  datatype Recording = Recording(now: Millis, ticks: seq<Tick>)

  predicate Complete(r: Recording) {
    |r.ticks| == ROUNDS
  }

  // The node's completed restores, if they could be read.
  type Restores = Option<seq<RestoreLineage.Restore>>

  // Reading a finished operation under the service identity that replaced its
  // own: the restores read before and after, and the reply in between.
  datatype History = History(before: Restores, reply: Reply, after: Restores, receivedAt: Millis, submission: Submission)

  // The restores confirm that one identity descends from the other.
  predicate Descends(restores: Restores, current: Id, ancestor: Id) {
    restores.Some? && RestoreLineage.Lineage(restores.value, current, ancestor) == Some(true)
  }

  // One journal query. The link may be bound to another service identity.
  datatype Query = Query(reply: Reply, linked: Option<Id>, recording: Recording, history: History)

  function Replies(q: Query): set<Reply> {
    {q.reply, q.history.reply}
  }

  // The ledger's row is this copy.
  ghost predicate InLedger(store: ControlStore, o: Operation)
    reads store
  {
    o.operationId in store.rows && store.rows[o.operationId].operation == o
  }

  method Issued(store: ControlStore, o: Operation, input: Transition, ghost w: Warrant, s: Submission)
    returns (r: Result<Operation, StoreError>, ghost acts: seq<Act>)
    requires store.Valid() && Copy(store.Contents(), o) && Warranted(o, input, w)
    modifies store
    ensures store.Valid() && Copy(store.Contents(), o)
    ensures (store.Contents(), r) == Submit(old(store.Contents()), o.operationId, input, s.at, s.fate)
    ensures acts == [Issue(o, input, w, s.at, s.fate)]
    ensures Handled(old(store.Contents()), store.Contents(), acts, Cited(w))
    ensures r.Success? ==>
      && Copy(store.Contents(), r.value) && r.value == Moved(o, input, s.at) && r.value == store.rows[o.operationId].operation
      && o == old(store.rows)[o.operationId].operation && Refusal(o, input, s.at).None?
  {
    ghost var l := store.Contents();
    ghost var act := Issue(o, input, w, s.at, s.fate);
    acts := [act];
    HandledOne(l, act);
    VersionExpected(o, input, w);
    Submitted(l, o, input, s.at, s.fate);
    r := store.TransitionOperation(o.operationId, input, s.at, s.fate);
    if Refusal(o, input, s.at).None? {
      MovedEvolves(o, input, s.at);
    }
    hide Submit, Refusal, Moved, Lawful, Handled, Warranted, Advances, Consistent, Cited;
  }

  // When the ledger certainly takes a transition of its current row.
  lemma Accepted(l: Ledger, o: Operation, input: Transition, now: int)
    requires Lawful(l) && o.operationId in l.rows && l.rows[o.operationId].operation == o
    requires input.expectedVersion == o.version < MAX_VERSION && C.EventCode(input.code) && input.agent.None?
    requires Allowed(o.state, input.nextState) && !Timed(input.nextState) && (Active(input.nextState) ==> Active(o.state))
    requires NeedsCandidate(input.nextState) ==> o.candidate.Some?
    ensures CommitTransition(l, o.operationId, input, now).1 == Success(Moved(o, input, now))
  {
    assert LawfulRow(o.operationId, l.rows[o.operationId]);
    if Active(input.nextState) {
      forall id | id in l.rows && id != o.operationId && l.rows[id].operation.nodeId == o.nodeId
        ensures !Active(l.rows[id].operation.state)
      {
        assert Compatible(o, l.rows[id].operation);
      }
    }
    hide Lawful, LawfulLog, Allowed, Active;
  }

  // Nothing is known about an active operation: keep its lease under
  // outcome_unknown. The one active state the ledger cannot leave this way is
  // rollback_failed, which stays as it is.
  method MarkUnknown(store: ControlStore, operation: Operation, code: C.Code, s: Submission)
    returns (o: Operation, ghost acts: seq<Act>)
    requires store.Valid() && Copy(store.Contents(), operation)
    modifies store
    ensures store.Valid() && Copy(store.Contents(), o) && o.operationId == operation.operationId
    ensures Handled(old(store.Contents()), store.Contents(), acts, {})
    ensures o == operation || (o.state == OutcomeUnknown && InLedger(store, o))
    ensures o == operation ==> store.Contents() == old(store.Contents()) || s.fate.Unseen?
    ensures s.fate.Answered? && old(store.rows)[operation.operationId].operation == operation && operation.version < MAX_VERSION
            && Active(operation.state) ==>
              o.state == if operation.state == RollbackFailed then RollbackFailed else OutcomeUnknown
  {
    hide Lawful, Handled, Evolves, Advances, Consistent, CommitTransition, Submit, Refusal, NeedsCandidate, Allowed, LawfulRow;
    o, acts := operation, [];
    HandledNothing(store.Contents(), {});
    if !Active(o.state) || o.state == OutcomeUnknown {
      return;
    }
    UnknownAccepted(store.Contents(), o, code, s);
    RefusedChangesNothing(store.Contents(), o.operationId, Proposal(o, OutcomeUnknown, code, None, 0), s);
    var updated;
    updated, acts := Issued(store, o, Proposal(o, OutcomeUnknown, code, None, 0), Silent(code), s);
    if updated.Success? {
      o := updated.value;
    }
  }

  lemma RefusedChangesNothing(l: Ledger, id: Id, input: Transition, s: Submission)
    ensures s.fate.Answered? && Submit(l, id, input, s.at, s.fate).1.Failure? ==> Submit(l, id, input, s.at, s.fate).0 == l
  {
    hide Refusal, Moved, Logged, LeaseFree;
  }

  lemma UnknownAccepted(l: Ledger, o: Operation, code: C.Code, s: Submission)
    requires Lawful(l) && Copy(l, o) && Active(o.state) && o.state != OutcomeUnknown
    ensures s.fate.Answered? && l.rows[o.operationId].operation == o && o.version < MAX_VERSION ==>
              Submit(l, o.operationId, Proposal(o, OutcomeUnknown, code, None, 0), s.at, s.fate).1.Success? == (o.state != RollbackFailed)
  {
    var input := Proposal(o, OutcomeUnknown, code, None, 0);
    if s.fate.Answered? && l.rows[o.operationId].operation == o && o.version < MAX_VERSION && o.state != RollbackFailed {
      Accepted(l, o, input, s.at);
    }
    hide Lawful, Evolves, Consistent, LeaseFree;
  }

  // What a reply under another identity must be to count as the history of a
  // finished operation: the same journal entry in every respect but the materials,
  // with the restore lineage confirmed before and after.
  predicate Readable(o: Operation, current: Id, h: History) {
    && !Active(o.state) && o.agent.Some? && h.reply.Delivered?
    && Descends(h.before, current, o.serviceId) && Descends(h.after, current, o.serviceId)
    && Matches(o.(serviceId := current), h.reply.answer)
    && h.reply.answer.view.value.state == o.state && OnlyMaterialsDiffer(o.agent.value, h.reply.answer.view.value)
  }

  function Remembered(o: Operation, h: History): Transition
    requires h.reply.Delivered?
  {
    Proposal(o, o.state, C.Recovered, h.reply.answer.view, h.receivedAt)
  }

  // Reading history leads from l to m: the materials of a readable entry are
  // recorded if they are new, and nothing else ever changes.
  ghost predicate HistoryRead(l: Ledger, m: Ledger, o: Operation, current: Id, h: History, p: Operation, code: C.Code) {
    if Readable(o, current, h) && o.agent != h.reply.answer.view then
      var (n, answer) := Submit(l, o.operationId, Remembered(o, h), h.submission.at, h.submission.fate);
      m == n && p == (if answer.Success? then answer.value else o) && (answer.Failure? ==> code == C.Conflict)
    else
      m == l && p == o && (!Readable(o, current, h) ==> code != C.Ok)
  }

  method ReadLineage(restores: Restores, current: Id, ancestor: Id) returns (allowed: bool)
    ensures allowed <==> Descends(restores, current, ancestor)
  {
    if restores.None? {
      return false;
    }
    var confirmed := RestoreLineage.ConfirmedLineage(restores.value, current, ancestor);
    allowed := confirmed == Some(true);
  }

  // A finished operation may be read under the identity its service was restored
  // to. That read changes at most the availability of its materials.
  method QueryHistory(store: ControlStore, operation: Operation, current: Id, h: History)
    returns (o: Operation, code: C.Code, ghost acts: seq<Act>)
    requires store.Valid() && Copy(store.Contents(), operation)
    modifies store
    ensures store.Valid() && Copy(store.Contents(), o) && o.operationId == operation.operationId
    ensures Handled(old(store.Contents()), store.Contents(), acts, {h.reply})
    ensures HistoryRead(old(store.Contents()), store.Contents(), operation, current, h, o, code)
    ensures o.(version := operation.version, updatedAtMs := operation.updatedAtMs, agent := operation.agent,
               agentReceivedAtMs := operation.agentReceivedAtMs) == operation
    ensures operation.agent.Some? ==> o.agent.Some? && OnlyMaterialsDiffer(operation.agent.value, o.agent.value)
    ensures code == C.Ok ==> o.agent.Some? && o.agent.value.materials in {ContextChanged, Expired}
  {
    o, acts := operation, [];
    HandledNothing(store.Contents(), {h.reply});
    hide Lawful, Handled, Submit, Refusal, Advances, SameJournal, MaterialsMayBecome, Consistent, RestoreLineage.Lineage;
    if Active(o.state) || o.agent.None? {
      return o, C.ServiceMismatch, acts;
    }
    var allowed := ReadLineage(h.before, current, o.serviceId);
    if !allowed {
      return o, C.ServiceMismatch, acts;
    }
    if h.reply.Undelivered? {
      return o, h.reply.code, acts;
    }
    var a := h.reply.answer;
    if !Matches(o.(serviceId := current), a) || a.view.value.state != o.state || !OnlyMaterialsDiffer(o.agent.value, a.view.value) {
      return o, C.Conflict, acts;
    }
    allowed := ReadLineage(h.after, current, o.serviceId);
    if !allowed {
      return o, C.ServiceMismatch, acts;
    }
    code := if a.view.value.materials in {ContextChanged, Expired} then a.code else C.ServiceMismatch;
    if o.agent == a.view {
      return;
    }
    var updated;
    updated, acts := Issued(store, o, Proposal(o, o.state, C.Recovered, a.view, h.receivedAt), Historical(a, h.receivedAt), h.submission);
    if updated.Failure? {
      return o, C.Conflict, acts;
    }
    o := updated.value;
  }

  // A delivered view is recorded under the rules of the coordinator.
  method RecordReply(store: ControlStore, operation: Operation, a: Answer, recording: Recording)
    returns (o: Operation, obstacle: Option<Obstacle>, ghost acts: seq<Act>)
    requires store.Valid() && Copy(store.Contents(), operation) && Complete(recording)
    modifies store
    ensures store.Valid() && Copy(store.Contents(), o)
    ensures Handled(old(store.Contents()), store.Contents(), acts, {Delivered(a)}) && OnlyIssues(acts)
    ensures Recorded(store.Contents(), o, obstacle) == Record(old(store.Contents()), operation, a, recording.now, recording.ticks)
  {
    hide Lawful, Handled, Record, Copy;
    acts := RecordHandled(store.Contents(), operation, a, recording.now, recording.ticks);
    o, obstacle := RecordResult(store, operation, a, recording.now, recording.ticks);
  }

  predicate Addressed(o: Operation, reply: Reply) {
    reply.Delivered? && reply.answer.serviceId == o.serviceId && reply.answer.operationId == o.operationId
  }

  // The reply proves that the journal never knew the operation.
  predicate ProvesAbsence(o: Operation, reply: Reply) {
    && Addressed(o, reply) && reply.answer.view.None? && reply.answer.code == C.OperationNotFound
    && o.candidate.None? && o.state in {Draft, OutcomeUnknown}
  }

  // Under which other identity the query is to be repeated.
  function AsksHistory(o: Operation, q: Query): Option<Id> {
    match q.reply
    case Undelivered(code, _) => if code == C.ServiceMismatch then q.linked else None
    case Delivered(a) => if a.serviceId != o.serviceId && a.code == C.ServiceMismatch then Some(a.serviceId) else None
  }

  // A journal query leads from l and the copy o to m and p. It changes nothing unless
  // the Agent answered it; a view is recorded; absence is cancelled; and a mismatch
  // of identity is read as history.
  ghost predicate Queried(l: Ledger, m: Ledger, o: Operation, q: Query, p: Operation, code: C.Code)
    requires o.operationId in l.rows
  {
    && (q.reply.Undelivered? && (q.reply.code == C.ServiceMismatch ==> q.linked.None?) ==> m == l && p == o && code == q.reply.code)
    && (Addressed(o, q.reply) && q.reply.answer.view.Some? ==>
        var recorded := Record(l, o, q.reply.answer, q.recording.now, q.recording.ticks);
        m == recorded.ledger && p == recorded.operation && code == if recorded.obstacle.None? then q.reply.answer.code else C.Conflict)
    && (Addressed(o, q.reply) && q.reply.answer.view.None? ==>
        && code == q.reply.answer.code
        && (m != l ==> code == C.OperationNotFound && o.candidate.None? && o.state in {Draft, OutcomeUnknown})
        && (p != o ==> p.state == Cancelled))
    && (ProvesAbsence(o, q.reply) && q.history.submission.fate.Answered? && l.rows[o.operationId].operation == o && o.version < MAX_VERSION ==>
        p.state == Cancelled)
    && (AsksHistory(o, q).Some? ==> HistoryRead(l, m, o, AsksHistory(o, q).value, q.history, p, code))
    && (q.reply.Delivered? && !Addressed(o, q.reply) && q.reply.answer.code != C.ServiceMismatch ==>
        m == l && p == o && code == C.ServiceMismatch)
  }

  method QueryOperation(store: ControlStore, operation: Operation, q: Query)
    returns (o: Operation, code: C.Code, ghost acts: seq<Act>)
    requires store.Valid() && Copy(store.Contents(), operation) && Complete(q.recording)
    modifies store
    ensures store.Valid() && Copy(store.Contents(), o)
    ensures Handled(old(store.Contents()), store.Contents(), acts, Replies(q))
    ensures Queried(old(store.Contents()), store.Contents(), operation, q, o, code)
  {
    hide Lawful, Handled, Submit, Refusal, Evolves, Consistent, Record, Warranted, HistoryRead, Moved;
    o, acts := operation, [];
    HandledNothing(store.Contents(), Replies(q));
    if q.reply.Undelivered? {
      if q.reply.code == C.ServiceMismatch && q.linked.Some? {
        o, code, acts := HistoryOf(store, o, q.linked.value, q);
        return;
      }
      return o, q.reply.code, acts;
    }
    var a := q.reply.answer;
    if a.serviceId != o.serviceId && a.code == C.ServiceMismatch {
      o, code, acts := HistoryOf(store, o, a.serviceId, q);
      return;
    }
    if !Addressed(o, q.reply) {
      return o, C.ServiceMismatch, acts;
    }
    if a.view.Some? {
      var obstacle;
      o, obstacle, acts := RecordReply(store, o, a, q.recording);
      HandledMore(old(store.Contents()), store.Contents(), acts, {q.reply}, Replies(q));
      return o, if obstacle.None? then a.code else C.Conflict, acts;
    }
    code := a.code;
    if a.code == C.OperationNotFound && o.state in {Draft, OutcomeUnknown} && o.candidate.None? {
      var updated;
      AbsentWarranted(o, q.reply);
      AbsenceAccepted(store.Contents(), o, q.history.submission);
      updated, acts := Issued(store, o, Proposal(o, Cancelled, C.OperationNotFound, None, 0), Absent(q.reply), q.history.submission);
      HandledMore(old(store.Contents()), store.Contents(), acts, {q.reply}, Replies(q));
      if updated.Success? {
        o := updated.value;
      }
    }
  }

  lemma AbsentWarranted(o: Operation, reply: Reply)
    requires Addressed(o, reply) && reply.answer.code == C.OperationNotFound && reply.answer.view.None?
    requires o.state in {Draft, OutcomeUnknown} && o.candidate.None?
    ensures Warranted(o, Proposal(o, Cancelled, C.OperationNotFound, None, 0), Absent(reply))
  {
  }

  lemma AbsenceAccepted(l: Ledger, o: Operation, s: Submission)
    requires Lawful(l) && Copy(l, o) && o.state in {Draft, OutcomeUnknown}
    ensures Moved(o, Proposal(o, Cancelled, C.OperationNotFound, None, 0), s.at).state == Cancelled
    ensures s.fate.Answered? && l.rows[o.operationId].operation == o && o.version < MAX_VERSION ==>
              Submit(l, o.operationId, Proposal(o, Cancelled, C.OperationNotFound, None, 0), s.at, s.fate).1.Success?
  {
    if s.fate.Answered? && l.rows[o.operationId].operation == o && o.version < MAX_VERSION {
      Accepted(l, o, Proposal(o, Cancelled, C.OperationNotFound, None, 0), s.at);
    }
    hide Lawful, Evolves, Consistent, CommitTransition;
  }

  method HistoryOf(store: ControlStore, operation: Operation, current: Id, q: Query)
    returns (o: Operation, code: C.Code, ghost acts: seq<Act>)
    requires store.Valid() && Copy(store.Contents(), operation)
    modifies store
    ensures store.Valid() && Copy(store.Contents(), o)
    ensures Handled(old(store.Contents()), store.Contents(), acts, Replies(q))
    ensures HistoryRead(old(store.Contents()), store.Contents(), operation, current, q.history, o, code)
  {
    hide Lawful, Handled, Copy, HistoryRead;
    o, code, acts := QueryHistory(store, operation, current, q.history);
    HandledMore(old(store.Contents()), store.Contents(), acts, {q.history.reply}, Replies(q));
  }
}

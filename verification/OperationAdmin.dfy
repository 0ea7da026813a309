// The administrative requests that write configuration: creating an operation
// and preparing it, acting on a prepared operation, and taking a node over after
// a restore.
module OperationAdmin {
  import opened Basics
  import opened OperationState
  import opened OperationStore
  import opened OperationCoordinator
  import opened OperationWarrants
  import opened OperationHandlers
  import C = ResultCodes

  /* Creating and preparing */

  datatype Upload = Upload(reply: Reply, submission: Submission)

  function UploadReplies(uploads: seq<Upload>): set<Reply> {
    set u | u in uploads :: u.reply
  }

  predicate Confirms(reply: Reply) {
    reply.Delivered? && reply.answer.code == C.Ok
  }

  predicate Uploaded(u: Upload) {
    Confirms(u.reply)
  }

  // Every secret was stored, and the ledger said so each time.
  predicate AllStored(uploads: seq<Upload>) {
    forall u :: u in uploads ==> Uploaded(u) && u.submission.fate.Answered?
  }

  // The operation is this copy in the ledger, not yet known to any journal.
  predicate Untouched(l: Ledger, o: Operation) {
    Copy(l, o) && Fresh(o) && l.rows[o.operationId].operation == o
  }

  lemma CreatedUntouched(l: Ledger, r: NewOperation, now: int)
    requires Lawful(l)
    ensures var (m, answer) := CommitCreate(l, r, now);
            answer.Success? ==>
              && Copy(m, answer.value.0)
              && (answer.value.1 ==> m == l)
              && (!answer.value.1 ==> Untouched(m, answer.value.0) && answer.value.0.version == 1 && answer.value.0.operationId == r.operationId)
  {
    var (m, answer) := CommitCreate(l, r, now);
    if answer.Success? && answer.value.1 {
      var id :| KeyTaken(l.rows, r.idempotencyKey, id) && answer.value.0 == l.rows[id].operation;
      assert LawfulRow(id, l.rows[id]);
    }
    hide Lawful, LeaseFree, SameRequest, KeyTaken;
  }

  // Secrets are uploaded one by one before the prepare. The first one that no answer
  // confirms stops the sequence, though the Agent may have stored it; a ledger failure
  // abandons the request.
  method UploadSecrets(store: ControlStore, operation: Operation, uploads: seq<Upload>)
    returns (o: Operation, failed: Option<Reply>, abandoned: bool, ghost acts: seq<Act>)
    requires store.Valid() && Untouched(store.Contents(), operation) && operation.version == 1 && |uploads| <= 2
    modifies store
    ensures store.Valid() && Copy(store.Contents(), o) && Fresh(o) && o.operationId == operation.operationId && o.version <= 3
    ensures !abandoned ==> Untouched(store.Contents(), o)
    ensures failed.Some? ==> failed.value in UploadReplies(uploads) && !Confirms(failed.value)
    ensures failed.None? && !abandoned ==> o.version == 1 + |uploads| && forall u :: u in uploads ==> Uploaded(u)
    ensures AllStored(uploads) ==> failed.None? && !abandoned
    ensures abandoned ==> exists u :: u in uploads && Uploaded(u) && u.submission.fate.Unseen?
    ensures Handled(old(store.Contents()), store.Contents(), acts, UploadReplies(uploads))
  {
    hide Lawful, Handled, Evolves, Consistent, Submit, Refusal, UploadReplies, Advances, Warranted;
    o, failed, abandoned, acts := operation, None, false, [];
    HandledNothing(store.Contents(), UploadReplies(uploads));
    for i := 0 to |uploads|
      invariant store.Valid() && Untouched(store.Contents(), o) && o.operationId == operation.operationId && o.version == i + 1
      invariant forall j :: 0 <= j < i ==> Uploaded(uploads[j])
      invariant Handled(old(store.Contents()), store.Contents(), acts, UploadReplies(uploads))
    {
      label before:
      var u := uploads[i];
      ReplyOf(uploads, u);
      if !Uploaded(u) {
        return o, Some(u.reply), false, acts;
      }
      SecretAccepted(store.Contents(), o, u);
      var updated;
      ghost var more;
      updated, more := Issued(store, o, Proposal(o, Draft, C.SecretStored, None, 0), Stored(u.reply), u.submission);
      HandledAlso(old(store.Contents()), old@before(store.Contents()), store.Contents(), acts, more, UploadReplies(uploads), {u.reply});
      acts := acts + more;
      if updated.Failure? {
        return o, None, true, acts;
      }
      o := updated.value;
    }
  }

  lemma ReplyOf(uploads: seq<Upload>, u: Upload)
    requires u in uploads
    ensures u.reply in UploadReplies(uploads)
  {
  }

  lemma SecretAccepted(l: Ledger, o: Operation, u: Upload)
    requires Lawful(l) && Untouched(l, o) && o.version < MAX_VERSION && Uploaded(u)
    ensures var input := Proposal(o, Draft, C.SecretStored, None, 0);
            && Warranted(o, input, Stored(u.reply))
            && (u.submission.fate.Answered? ==> Submit(l, o.operationId, input, u.submission.at, u.submission.fate).1.Success?)
  {
    DraftHoldsLease(l, o);
    SecretNotRefused(l, o, u, u.submission.at);
    hide Lawful, Evolves, LeaseFree, Refusal, Consistent, Warranted, Moved, Logged, Fresh, Allowed, NeedsCandidate;
  }

  lemma DraftHoldsLease(l: Ledger, o: Operation)
    requires Lawful(l) && Untouched(l, o)
    ensures LeaseFree(l.rows, o.nodeId, o.operationId)
  {
    forall id | id in l.rows && id != o.operationId && l.rows[id].operation.nodeId == o.nodeId
      ensures !Active(l.rows[id].operation.state)
    {
      assert Compatible(o, l.rows[id].operation);
    }
    hide LawfulRow, Active, Evolves, Consistent;
  }

  lemma SecretNotRefused(l: Ledger, o: Operation, u: Upload, now: int)
    requires Untouched(l, o) && o.version < MAX_VERSION && Uploaded(u)
    ensures Warranted(o, Proposal(o, Draft, C.SecretStored, None, 0), Stored(u.reply))
    ensures Refusal(o, Proposal(o, Draft, C.SecretStored, None, 0), now).None?
  {
  }

  // A transition that certainly succeeds when its answer comes back.
  lemma ResolutionAccepted(l: Ledger, o: Operation, next: State, code: C.Code, s: Submission)
    requires Lawful(l) && Untouched(l, o) && o.version < MAX_VERSION && next in {Rejected, Conflict, OutcomeUnknown}
    ensures s.fate.Answered? ==> Submit(l, o.operationId, Proposal(o, next, code, None, 0), s.at, s.fate).1.Success?
  {
    if s.fate.Answered? {
      Accepted(l, o, Proposal(o, next, code, None, 0), s.at);
    }
    hide Lawful, Evolves, Consistent, CommitTransition;
  }

  // The operation is moved on the given ground; if the ledger does not say that
  // it was, the operation is left unknown.
  method Resolve(store: ControlStore, operation: Operation, next: State, code: C.Code, ghost w: Warrant, resolution: Submission, unknown: Submission)
    returns (o: Operation, ghost acts: seq<Act>)
    requires store.Valid() && Untouched(store.Contents(), operation) && operation.version < MAX_VERSION
    requires next in {Rejected, Conflict, OutcomeUnknown} && Warranted(operation, Proposal(operation, next, code, None, 0), w)
    modifies store
    ensures store.Valid() && Copy(store.Contents(), o) && o.operationId == operation.operationId
    ensures Handled(old(store.Contents()), store.Contents(), acts, Cited(w))
    ensures resolution.fate.Answered? ==> o.state == next && InLedger(store, o)
    ensures o.state in {Draft, next, OutcomeUnknown}
  {
    hide Lawful, Handled, Warranted, Evolves, Consistent, Submit, Refusal, Cited;
    ResolutionAccepted(store.Contents(), operation, next, code, resolution);
    var updated;
    updated, acts := Issued(store, operation, Proposal(operation, next, code, None, 0), w, resolution);
    if updated.Success? {
      return updated.value, acts;
    }
    label issued:
    ghost var more;
    o, more := MarkUnknown(store, operation, code, unknown);
    HandledAlso(old(store.Contents()), old@issued(store.Contents()), store.Contents(), acts, more, Cited(w), {});
    acts := acts + more;
  }

  lemma PrepareWarranted(o: Operation, prepare: Reply)
    requires Fresh(o)
    ensures prepare.Undelivered? && prepare.notSent ==> Warranted(o, Proposal(o, Rejected, prepare.code, None, 0), Unsent(prepare))
    ensures prepare.Delivered? && prepare.answer.view.None? ==>
      Warranted(o, Proposal(o, PrepareFailureState(prepare.answer.code), prepare.answer.code, None, 0), Refused(prepare))
    ensures prepare.Delivered? ==> PrepareFailureState(prepare.answer.code) in {Rejected, Conflict, OutcomeUnknown}
  {
  }

  // What the reply to a prepare, or its absence, does to the operation.
  method SettlePrepare(store: ControlStore, operation: Operation, prepare: Reply, recording: Recording, resolution: Submission, unknown: Submission)
    returns (o: Operation, code: C.Code, ghost acts: seq<Act>)
    requires store.Valid() && Untouched(store.Contents(), operation) && operation.version < MAX_VERSION && Complete(recording)
    modifies store
    ensures store.Valid() && Copy(store.Contents(), o)
    ensures Handled(old(store.Contents()), store.Contents(), acts, {prepare})
    ensures prepare.Undelivered? ==> code == prepare.code
    ensures prepare.Undelivered? && prepare.notSent ==>
              o.state in {Draft, Rejected, OutcomeUnknown} && (resolution.fate.Answered? ==> o.state == Rejected && InLedger(store, o))
    ensures prepare.Undelivered? && !prepare.notSent ==>
              o.state in {Draft, OutcomeUnknown} && (unknown.fate.Answered? ==> o.state == OutcomeUnknown && InLedger(store, o))
    ensures prepare.Delivered? && prepare.answer.view.None? ==> code == prepare.answer.code
    ensures prepare.Delivered? && prepare.answer.view.None? && resolution.fate.Answered? ==>
              && InLedger(store, o)
              && (o.state == Conflict <==> Conflicting(prepare.answer.code))
              && (o.state == Rejected <==> Rejecting(prepare.answer.code))
              && (o.state == OutcomeUnknown <==> !Conflicting(prepare.answer.code) && !Rejecting(prepare.answer.code))
    ensures prepare.Delivered? && prepare.answer.view.Some? ==>
              var recorded := Record(old(store.Contents()), operation, prepare.answer, recording.now, recording.ticks);
              if recorded.obstacle.None? then store.Contents() == recorded.ledger && o == recorded.operation && code == prepare.answer.code
              else code == C.Conflict && (o == recorded.operation || o.state == OutcomeUnknown)
  {
    hide Lawful, Handled, Warranted, Evolves, Consistent, Record, Submit;
    PrepareWarranted(operation, prepare);
    if prepare.Delivered? {
      RefusalsByCode(prepare.answer.code);
    }
    hide PrepareFailureState, Conflicting, Rejecting;
    match prepare
    case Undelivered(failure, notSent) =>
      code := failure;
      if notSent {
        o, acts := Resolve(store, operation, Rejected, code, Unsent(prepare), resolution, unknown);
      } else {
        o, acts := MarkUnknown(store, operation, code, unknown);
        HandledMore(old(store.Contents()), store.Contents(), acts, {}, {prepare});
      }
    case Delivered(a) =>
      code := a.code;
      if a.view.None? {
        o, acts := Resolve(store, operation, PrepareFailureState(code), code, Refused(prepare), resolution, unknown);
      } else {
        o, code, acts := RecordOrUnknown(store, operation, a, recording, unknown);
      }
  }

  // The ledger holds the operation as the coordinator knows it, and can still
  // mark it unknown.
  predicate LeftOpen(r: Recorded) {
    && r.operation.operationId in r.ledger.rows && r.ledger.rows[r.operation.operationId].operation == r.operation
    && Active(r.operation.state) && r.operation.state != RollbackFailed && r.operation.version < MAX_VERSION
  }

  // A view that cannot be recorded leaves an active operation unknown.
  method RecordOrUnknown(store: ControlStore, operation: Operation, a: Answer, recording: Recording, unknown: Submission)
    returns (o: Operation, code: C.Code, ghost acts: seq<Act>)
    requires store.Valid() && Copy(store.Contents(), operation) && Complete(recording)
    modifies store
    ensures store.Valid() && Copy(store.Contents(), o)
    ensures Handled(old(store.Contents()), store.Contents(), acts, {Delivered(a)})
    ensures var recorded := Record(old(store.Contents()), operation, a, recording.now, recording.ticks);
            if recorded.obstacle.None? then store.Contents() == recorded.ledger && o == recorded.operation && code == a.code
            else
              && code == C.Conflict && (o == recorded.operation || o.state == OutcomeUnknown)
              && (LeftOpen(recorded) && unknown.fate.Answered? ==> o.state == OutcomeUnknown)
  {
    hide Lawful, Handled, Copy, Record;
    var obstacle;
    o, obstacle, acts := RecordReply(store, operation, a, recording);
    if obstacle.None? {
      return o, a.code, acts;
    }
    label recorded:
    ghost var more;
    o, more := MarkUnknown(store, o, C.Conflict, unknown);
    HandledAlso(old(store.Contents()), old@recorded(store.Contents()), store.Contents(), acts, more, {Delivered(a)}, {});
    acts := acts + more;
    code := C.Conflict;
  }

  datatype Preparation = Preparation(reply: Reply, recording: Recording, resolution: Submission, unknown: Submission)

  // The new operation ends where the outcome of its prepare puts it. The prepare
  // is sent only if every upload was confirmed; otherwise the operation is rejected,
  // also when an upload was merely not heard of.
  method CreateOperation(store: ControlStore, pending: bool, request: NewOperation, creation: Submission, uploads: seq<Upload>, prepare: Preparation)
    returns (r: Option<(Operation, C.Code)>, prepared: bool, ghost at: Ledger, ghost draft: Operation, ghost acts: seq<Act>)
    requires store.Valid() && |uploads| <= 2 && Complete(prepare.recording)
    modifies store
    ensures store.Valid() && (r.Some? ==> Copy(store.Contents(), r.value.0))
    ensures Handled(old(store.Contents()), store.Contents(), acts, UploadReplies(uploads) + if prepared then {prepare.reply} else {})
    ensures pending ==> r.None? && store.Contents() == old(store.Contents())
    ensures var (m, answer) := SubmitCreate(old(store.Contents()), request, creation.at, creation.fate);
            !pending && answer.Failure? ==> r.None? && !prepared && store.Contents() == m
    ensures prepared ==> !pending && forall u :: u in uploads ==> Uploaded(u)
    ensures CreatesAnew(old(store.Contents()), request, creation) && !pending && AllStored(uploads) ==> prepared
    ensures CreatesAnew(old(store.Contents()), request, creation) && !pending && (forall u :: u in uploads ==> u.submission.fate.Answered?) ==> r.Some?
    ensures CreatesAnew(old(store.Contents()), request, creation) && r.Some? && !prepared ==> r.value.1 != C.Ok
    ensures var answer := SubmitCreate(old(store.Contents()), request, creation.at, creation.fate).1;
            !pending && answer.Success? && answer.value.1 ==>
              r == Some((answer.value.0, C.Ok)) && !prepared && store.Contents() == old(store.Contents())
    ensures prepared ==> r.Some? && Untouched(at, draft) && draft.operationId == request.operationId && draft.version == 1 + |uploads|
    ensures prepared && prepare.reply.Delivered? && prepare.reply.answer.view.Some? ==>
              var recorded := Record(at, draft, prepare.reply.answer, prepare.recording.now, prepare.recording.ticks);
              recorded.obstacle.None? ==> store.Contents() == recorded.ledger && r == Some((recorded.operation, prepare.reply.answer.code))
    ensures prepared && prepare.reply.Undelivered? && prepare.reply.notSent && prepare.resolution.fate.Answered? ==>
              r.value.0.state == Rejected && InLedger(store, r.value.0)
    ensures prepared && prepare.reply.Undelivered? && !prepare.reply.notSent && prepare.unknown.fate.Answered? ==>
              r.value.0.state == OutcomeUnknown && InLedger(store, r.value.0)
    ensures prepared && prepare.reply.Delivered? && prepare.reply.answer.view.None? && prepare.resolution.fate.Answered? ==>
              && InLedger(store, r.value.0)
              && (r.value.0.state == Conflict <==> Conflicting(prepare.reply.answer.code))
              && (r.value.0.state == Rejected <==> Rejecting(prepare.reply.answer.code))
              && (r.value.0.state == OutcomeUnknown <==> !Conflicting(prepare.reply.answer.code) && !Rejecting(prepare.reply.answer.code))
    ensures prepared && prepare.reply.Delivered? && prepare.reply.answer.view.None? ==> r.value.1 == prepare.reply.answer.code
    ensures prepared && prepare.reply.Undelivered? ==> r.value.1 == prepare.reply.code
    ensures r.Some? && !prepared && r.value.1 != C.Ok && prepare.resolution.fate.Answered? ==>
              r.value.0.state == Rejected && InLedger(store, r.value.0)
    ensures CreatesAnew(old(store.Contents()), request, creation) && r.Some? && !prepared ==> r.value.0.operationId == request.operationId
  {
    hide Lawful, Handled, Warranted, Evolves, Consistent, CommitCreate, UploadReplies, Extends, PrepareFailureState, Conflicting, Rejecting;
    r, prepared, acts := None, false, [];
    ghost var l := store.Contents();
    at, draft := l, Drafted(request, creation.at).operation;
    HandledNothing(l, UploadReplies(uploads) + {});
    if pending {
      return;
    }
    CreatedUntouched(l, request, creation.at);
    var created := store.CreateOperation(request, creation.at, creation.fate);
    ghost var m := store.Contents();
    ghost var act := Other(Create(request), creation.at);
    HandledOne(l, act);
    if created.Failure? {
      FailedCreateChangesNothing(l, request, creation.at);
      if creation.fate == Unseen(true) {
        acts := [act];
        HandledMore(l, m, acts, {}, UploadReplies(uploads) + {});
      }
      return;
    }
    if created.value.1 {
      return Some((created.value.0, C.Ok)), false, at, draft, [];
    }
    var o, failed, abandoned;
    ghost var stored;
    o, failed, abandoned, stored := UploadSecrets(store, created.value.0, uploads);
    ghost var n := store.Contents();
    HandledThen(l, m, n, [act], stored, {}, UploadReplies(uploads));
    acts := [act] + stored;
    assert {} + UploadReplies(uploads) == UploadReplies(uploads) + {};
    if abandoned {
      return;
    }
    var code;
    ghost var more;
    if failed.Some? {
      o, code, more := RejectUnprepared(store, o, failed.value, prepare.resolution);
      HandledThen(l, n, store.Contents(), acts, more, UploadReplies(uploads) + {}, {failed.value});
      assert UploadReplies(uploads) + {} + {failed.value} == UploadReplies(uploads) + {};
    } else {
      prepared, at, draft := true, n, o;
      o, code, more := SettlePrepare(store, o, prepare.reply, prepare.recording, prepare.resolution, prepare.unknown);
      HandledThen(l, n, store.Contents(), acts, more, UploadReplies(uploads) + {}, {prepare.reply});
      assert UploadReplies(uploads) + {} + {prepare.reply} == UploadReplies(uploads) + {prepare.reply};
    }
    acts := acts + more;
    r := Some((o, code));
  }

  // The request is accepted, the handler learns it, and it names a new operation.
  ghost predicate CreatesAnew(l: Ledger, r: NewOperation, creation: Submission) {
    var answer := SubmitCreate(l, r, creation.at, creation.fate).1;
    answer.Success? && !answer.value.1
  }

  lemma FailedCreateChangesNothing(l: Ledger, r: NewOperation, now: int)
    ensures CommitCreate(l, r, now).1.Failure? ==> CommitCreate(l, r, now).0 == l
  {
  }

  // No prepare was sent: a secret reference that may be stored is not configuration.
  method RejectUnprepared(store: ControlStore, operation: Operation, failed: Reply, resolution: Submission)
    returns (o: Operation, code: C.Code, ghost acts: seq<Act>)
    requires store.Valid() && Untouched(store.Contents(), operation) && operation.version < MAX_VERSION && !Confirms(failed)
    modifies store
    ensures store.Valid() && Copy(store.Contents(), o)
    ensures Handled(old(store.Contents()), store.Contents(), acts, {failed})
    ensures o.operationId == operation.operationId && o.operationId in store.rows
    ensures resolution.fate.Answered? ==> o.state == Rejected && store.rows[o.operationId].operation == o
    ensures code != C.Ok
  {
    hide Lawful, Handled, Evolves, Consistent, Submit, Refusal;
    o := operation;
    code := if failed.Delivered? then failed.answer.code else failed.code;
    ResolutionAccepted(store.Contents(), o, Rejected, code, resolution);
    var updated;
    updated, acts := Issued(store, o, Proposal(o, Rejected, code, None, 0), Unuploaded(failed), resolution);
    if updated.Success? {
      o := updated.value;
    }
  }

  // An upload that may have reached the Agent but was not heard of: no prepare is
  // sent, and the new operation is rejected and without its lease.
  method CreateUnheard(store: ControlStore, request: NewOperation, creation: Submission, upload: Upload, prepare: Preparation)
    returns (o: Operation, prepared: bool, ghost acts: seq<Act>)
    requires store.Valid() && CreatesAnew(store.Contents(), request, creation) && Complete(prepare.recording)
    requires Unheard(upload.reply) && upload.submission.fate.Answered? && prepare.resolution.fate.Answered?
    modifies store
    ensures store.Valid() && Handled(old(store.Contents()), store.Contents(), acts, {upload.reply})
    ensures !prepared && o.operationId == request.operationId && o.state == Rejected
    ensures request.operationId in store.rows && store.rows[request.operationId].operation == o
  {
    hide Lawful, Handled, Evolves, Consistent, CreatesAnew, Extends, Record;
    assert UploadReplies([upload]) + {} == {upload.reply} by { ReplyOf([upload], upload); }
    var r;
    ghost var at, draft;
    r, prepared, at, draft, acts := CreateOperation(store, false, request, creation, [upload], prepare);
    assert upload in [upload] && !Uploaded(upload);
    o := r.value.0;
  }

  // Such a request exists: on an empty ledger with one node, whatever else happens.
  method CreateTimedOut() returns (store: ControlStore, o: Operation, prepared: bool)
    ensures fresh(store) && store.Valid() && !prepared
    ensures 7 in store.rows && store.rows[7].operation == o && o.state == Rejected
  {
    store := new ControlStore();
    store.Rotate(1, Some(5));
    var request := NewOperation(7, 1, 2, 0, 0, 1000, 0, 0);
    var now := Submission(1, Answered);
    CreatesOnEmptyNode(store.Contents(), request, now);
    var tick := Tick(1, 1, 1, Answered, 1, 1, Answered);
    var recording := Recording(1, [tick, tick, tick, tick, tick]);
    var timedOut := Undelivered(C.Timeout, false);
    hide Lawful, Extends, Handled, CreatesAnew;
    ghost var acts;
    o, prepared, acts := CreateUnheard(store, request, now, Upload(timedOut, now), Preparation(timedOut, recording, now, now));
  }

  lemma CreatesOnEmptyNode(l: Ledger, r: NewOperation, creation: Submission)
    requires l.rows == map[] && r.nodeId in l.tokens && creation.fate.Answered?
    requires creation.at < r.deadlineAtMs <= creation.at + MAX_OPERATION_DURATION
    ensures CreatesAnew(l, r, creation)
  {
    assert forall id :: !KeyTaken(l.rows, r.idempotencyKey, id);
  }

  /* Acting on an operation */

  datatype ActionRequest = ActionRequest(id: Id, action: Action, expectedVersion: int, candidate: Option<Digest>, context: Option<Digest>)

  datatype Execution = Execution(intent: Submission, reply: Reply, recording: Recording, unknown: Submission)

  // One preflight query before a rollback, and whether the caller gave up after it.
  datatype Preflight = Preflight(query: Query, givenUp: bool)

  predicate ActionBlocked(pending: bool, action: Action) {
    pending && action in {Apply, Rollback}
  }

  predicate AsExpected(o: Operation, r: ActionRequest) {
    && o.version == r.expectedVersion && o.candidate == r.candidate
    && (o.agent.Some? ==> r.context == Some(o.agent.value.contextRevision))
  }

  predicate MaterialsGone(o: Operation) {
    o.agent.Some? && o.agent.value.materials in {ContextChanged, Expired}
  }

  function PreflightReplies(preflight: seq<Preflight>): set<Reply> {
    set p, r | p in preflight && r in Replies(p.query) :: r
  }

  // One question of the preflight: where it found the ledger and the handler's copy,
  // and which code came back.
  datatype Question = Question(ledger: Ledger, operation: Operation, code: C.Code)

  // The questions were asked one after the other, each as its query says, and each
  // but the last met a busy link whose caller was still waiting.
  ghost predicate AskedInTurn(preflight: seq<Preflight>, asked: seq<Question>, m: Ledger, o: Operation) {
    && |asked| <= |preflight|
    && (forall i :: 0 <= i < |asked| ==> asked[i].operation.operationId in asked[i].ledger.rows)
    && (forall i, j :: 0 <= i && j == i + 1 < |asked| ==>
          && Queried(asked[i].ledger, asked[j].ledger, asked[i].operation, preflight[i].query, asked[j].operation, asked[i].code)
          && asked[i].code == C.Busy && !preflight[i].givenUp)
    && (asked != [] ==>
        var last := asked[|asked| - 1];
        Queried(last.ledger, m, last.operation, preflight[|asked| - 1].query, o, last.code))
  }

  // A busy link is asked again, three times at most, unless the caller gives up in
  // the pause. What the last question found is the answer.
  method QueryBeforeRollback(store: ControlStore, operation: Operation, preflight: seq<Preflight>)
    returns (o: Operation, code: C.Code, ghost asked: seq<Question>, ghost acts: seq<Act>)
    requires store.Valid() && Copy(store.Contents(), operation) && |preflight| == 3 && forall p :: p in preflight ==> Complete(p.query.recording)
    modifies store
    ensures store.Valid() && Copy(store.Contents(), o)
    ensures Handled(old(store.Contents()), store.Contents(), acts, PreflightReplies(preflight))
    ensures 1 <= |asked| <= 3 && asked[0].ledger == old(store.Contents()) && asked[0].operation == operation
    ensures AskedInTurn(preflight, asked, store.Contents(), o)
    ensures var last := asked[|asked| - 1];
            var abandoned := last.code == C.Busy && |asked| < 3;
            && (abandoned ==> preflight[|asked| - 1].givenUp)
            && code == if abandoned then C.Timeout else last.code
  {
    hide Lawful, Handled, Copy, PreflightReplies, Queried, Replies;
    o, code, asked, acts := operation, C.Busy, [], [];
    HandledNothing(store.Contents(), PreflightReplies(preflight));
    CopyHeld(store.Contents(), o);
    for attempt := 0 to 3
      invariant store.Valid() && Copy(store.Contents(), o) && |asked| == attempt && code == C.Busy
      invariant o.operationId in store.rows
      invariant Handled(old(store.Contents()), store.Contents(), acts, PreflightReplies(preflight))
      invariant AskedInTurn(preflight, asked, store.Contents(), o)
      invariant asked == [] ==> store.Contents() == old(store.Contents()) && o == operation
      invariant asked != [] ==> asked[0].ledger == old(store.Contents()) && asked[0].operation == operation
      invariant asked != [] ==> asked[attempt - 1].code == C.Busy && !preflight[attempt - 1].givenUp
    {
      label before:
      var p := preflight[attempt];
      ghost var more;
      ghost var l, copy := store.Contents(), o;
      o, code, more := QueryOperation(store, o, p.query);
      CopyHeld(store.Contents(), o);
      PreflightReply(preflight, p);
      HandledAlso(old(store.Contents()), l, store.Contents(), acts, more, PreflightReplies(preflight), Replies(p.query));
      acts := acts + more;
      asked := asked + [Question(l, copy, code)];
      if code != C.Busy || attempt == 2 {
        return;
      }
      if p.givenUp {
        return o, C.Timeout, asked, acts;
      }
    }
  }

  lemma CopyHeld(l: Ledger, o: Operation)
    requires Copy(l, o)
    ensures o.operationId in l.rows
  {
  }

  lemma PreflightReply(preflight: seq<Preflight>, p: Preflight)
    requires p in preflight
    ensures Replies(p.query) <= PreflightReplies(preflight)
  {
  }

  lemma IntentWarranted(o: Operation, action: Action)
    requires ActionFits(o, action)
    ensures Warranted(o, Proposal(o, Intent(action), StateCode(Intent(action)), None, 0), Intended(action))
    ensures Intent(action) != o.state || action == Cancel
  {
  }

  // A confirmed operation whose materials are thought to be there is asked about
  // before it is rolled back.
  predicate NeedsPreflight(o: Operation, action: Action) {
    action == Rollback && o.state == Confirmed && o.agent.Some? && !MaterialsGone(o)
  }

  // What the handler decides before it persists an intent.
  datatype Decision = Refuse | Report(code: C.Code) | Proceed

  // An action goes ahead only on the version that the administrator saw, in a
  // state that fits it, and a rollback only while its materials are there.
  method DecideAction(store: ControlStore, pending: bool, request: ActionRequest, preflight: seq<Preflight>)
    returns (decision: Decision, o: Operation, ghost asked: seq<Question>, ghost acts: seq<Act>)
    requires store.Valid() && |preflight| == 3 && forall p :: p in preflight ==> Complete(p.query.recording)
    requires request.id in store.rows
    modifies store
    ensures store.Valid() && Copy(store.Contents(), o)
    ensures Handled(old(store.Contents()), store.Contents(), acts, PreflightReplies(preflight))
    // what the administrator saw, and what the server allows
    ensures var row := old(store.rows)[request.id].operation;
            decision.Proceed? || asked != [] ==>
              && !(pending && request.action in {Apply, Rollback})
              && row.version == request.expectedVersion && row.candidate == request.candidate
              && (row.agent.Some? ==> request.context == Some(row.agent.value.contextRevision))
    // the state that the action fits
    ensures decision.Proceed? ==>
              match request.action
              case Apply => o.state == Prepared && o.agent.Some?
              case Rollback =>
                && o.state in {Confirmed, RollbackFailed, OutcomeUnknown} && o.agent.Some?
                && o.agent.value.materials !in {ContextChanged, Expired}
              case Cancel => o.state in {Prepared, Draft, OutcomeUnknown}
    // the journal is asked before a rollback, and only then
    ensures var row := old(store.rows)[request.id].operation;
            asked != [] <==>
              && !pending && request.action == Rollback
              && row.version == request.expectedVersion && row.candidate == request.candidate
              && row.state == Confirmed && row.agent.Some? && row.agent.value.materials !in {ContextChanged, Expired}
              && request.context == Some(row.agent.value.contextRevision)
    ensures asked != [] ==>
              && asked[0].ledger == old(store.Contents()) && asked[0].operation == old(store.rows)[request.id].operation
              && AskedInTurn(preflight, asked, store.Contents(), o)
              && (decision.Proceed? <==>
                  && asked[|asked| - 1].code == C.Ok && o.state == Confirmed
                  && o.agent.Some? && o.agent.value.materials !in {ContextChanged, Expired})
    ensures asked == [] ==>
              var row := old(store.rows)[request.id].operation;
              && store.Contents() == old(store.Contents()) && o == row
              && (decision.Proceed? <==>
                  && !(pending && request.action in {Apply, Rollback})
                  && row.version == request.expectedVersion && row.candidate == request.candidate
                  && (row.agent.Some? ==> request.context == Some(row.agent.value.contextRevision))
                  && match request.action
                     case Apply => row.state == Prepared && row.agent.Some?
                     case Rollback =>
                       && row.state in {RollbackFailed, OutcomeUnknown} && row.agent.Some?
                       && row.agent.value.materials !in {ContextChanged, Expired}
                     case Cancel => row.state in {Prepared, Draft, OutcomeUnknown})
    // what is reported instead
    ensures decision.Report? ==>
              || (request.action == Rollback && o.agent.Some? && o.agent.value.materials == ContextChanged && decision.code == C.ContextChanged)
              || (request.action == Rollback && o.agent.Some? && o.agent.value.materials == Expired && decision.code == C.OperationNotFound)
              || (asked != [] && decision.code == (if asked[|asked| - 1].code == C.Busy && |asked| < 3 then C.Timeout else asked[|asked| - 1].code))
  {
    hide Lawful, Handled, Copy, PreflightReplies, Record, AskedInTurn, Queried, Replies;
    decision, o, asked, acts := Refuse, store.rows[request.id].operation, [], [];
    HandledNothing(store.Contents(), PreflightReplies(preflight));
    RowCopy(store.Contents(), request.id);
    if ActionBlocked(pending, request.action) || !AsExpected(o, request) {
      return;
    }
    if NeedsPreflight(o, request.action) {
      var code;
      o, code, asked, acts := QueryBeforeRollback(store, o, preflight);
      if code != C.Ok || o.state != Confirmed {
        return Report(code), o, asked, acts;
      }
    }
    if request.action == Rollback && MaterialsGone(o) {
      return Report(if o.agent.value.materials == ContextChanged then C.ContextChanged else C.OperationNotFound), o, asked, acts;
    }
    decision := if ActionFits(o, request.action) then Proceed else Refuse;
  }

  // When the ledger takes an intent: its copy is current, the lease is the operation's
  // own or free, and an apply is in time.
  lemma IntentAccepted(l: Ledger, o: Operation, action: Action, s: Submission)
    requires Lawful(l) && Copy(l, o) && ActionFits(o, action)
    ensures var answer := Submit(l, o.operationId, Proposal(o, Intent(action), StateCode(Intent(action)), None, 0), s.at, s.fate).1;
            && (answer.Success? <==>
                && s.fate.Answered? && l.rows[o.operationId].operation == o && o.version < MAX_VERSION
                && (action == Apply ==> s.at < o.deadlineAtMs) && LeaseFree(l.rows, o.nodeId, o.operationId))
            && (answer.Success? ==>
                answer.value == o.(state := match action case Apply => Applying case Rollback => RollingBack case Cancel => OutcomeUnknown,
                                   version := o.version + 1, updatedAtMs := s.at))
  {
    var input := Proposal(o, Intent(action), StateCode(Intent(action)), None, 0);
    IntentUnrefused(o, action, s.at);
    if l.rows[o.operationId].operation != o {
      StaleRefused(l.rows[o.operationId].operation, input, s.at);
    }
    hide Lawful, Refusal, Evolves, LeaseFree, ActionFits, Consistent;
  }

  lemma StaleRefused(row: Operation, input: Transition, now: int)
    requires row.version != input.expectedVersion
    ensures Refusal(row, input, now).Some?
  {
  }

  lemma IntentUnrefused(o: Operation, action: Action, now: int)
    requires Consistent(o) && ActionFits(o, action)
    ensures Refusal(o, Proposal(o, Intent(action), StateCode(Intent(action)), None, 0), now).None? <==>
            o.version < MAX_VERSION && (action == Apply ==> now < o.deadlineAtMs)
  {
  }

  // An action is dispatched only once its intent is durable, and its outcome is
  // what the Agent's reply shows.
  method ExecuteAction(store: ControlStore, operation: Operation, action: Action, run: Execution)
    returns (dispatched: bool, o: Operation, code: C.Code, ghost intended: Operation, ghost acts: seq<Act>)
    requires store.Valid() && Copy(store.Contents(), operation) && operation.operationId in store.rows
    requires Complete(run.recording) && ActionFits(operation, action)
    modifies store
    ensures store.Valid() && Copy(store.Contents(), o)
    ensures Handled(old(store.Contents()), store.Contents(), acts, if dispatched then {run.reply} else {})
    ensures var input := Proposal(operation, Intent(action), StateCode(Intent(action)), None, 0);
            var (m, answer) := Submit(old(store.Contents()), operation.operationId, input, run.intent.at, run.intent.fate);
            && (dispatched <==> answer.Success?)
            && (dispatched ==> answer.value == intended)
            && (!dispatched ==> store.Contents() == m && o == operation)
            && (dispatched && run.reply.Delivered? && run.reply.answer.view.Some? ==>
                var recorded := Record(m, intended, run.reply.answer, run.recording.now, run.recording.ticks);
                if recorded.obstacle.None? then store.Contents() == recorded.ledger && o == recorded.operation && code == run.reply.answer.code
                else code == C.Conflict && (o == recorded.operation || o.state == OutcomeUnknown))
    ensures dispatched <==>
              && run.intent.fate.Answered? && old(store.rows)[operation.operationId].operation == operation && operation.version < MAX_VERSION
              && (action == Apply ==> run.intent.at < operation.deadlineAtMs)
              && LeaseFree(old(store.rows), operation.nodeId, operation.operationId)
    ensures dispatched ==>
              intended == operation.(state := match action case Apply => Applying case Rollback => RollingBack case Cancel => OutcomeUnknown,
                                     version := operation.version + 1, updatedAtMs := run.intent.at)
    ensures dispatched && (run.reply.Undelivered? || run.reply.answer.view.None?) ==>
              && code == (if run.reply.Undelivered? then run.reply.code else run.reply.answer.code)
              && (o == intended || o.state == OutcomeUnknown)
              && (run.unknown.fate.Answered? && intended.version < MAX_VERSION ==> o.state == OutcomeUnknown)
  {
    hide Lawful, Handled, Warranted, Consistent, Advances, Record, Submit, Refusal, ActionFits, LeaseFree;
    o, code, intended := operation, C.Conflict, operation;
    IntentWarranted(o, action);
    IntentAccepted(store.Contents(), o, action, run.intent);
    hide Intent;
    ghost var l := store.Contents();
    var updated;
    updated, acts := Issued(store, o, Proposal(o, Intent(action), StateCode(Intent(action)), None, 0), Intended(action), run.intent);
    dispatched := updated.Success?;
    if dispatched {
      ghost var m := store.Contents();
      intended := updated.value;
      ghost var more;
      o, code, more := SettleAction(store, updated.value, run);
      HandledThen(l, m, store.Contents(), acts, more, {}, {run.reply});
      acts := acts + more;
      assert {} + {run.reply} == {run.reply};
    }
  }

  // The whole request: decide, persist the intent, dispatch, settle.
  method ActOnOperation(store: ControlStore, pending: bool, request: ActionRequest, preflight: seq<Preflight>, run: Execution)
    returns (r: Option<(Operation, C.Code)>, dispatched: bool, ghost asked: seq<Question>, ghost acts: seq<Act>)
    requires store.Valid() && |preflight| == 3 && Complete(run.recording) && forall p :: p in preflight ==> Complete(p.query.recording)
    modifies store
    ensures store.Valid() && (r.Some? ==> Copy(store.Contents(), r.value.0))
    ensures Handled(old(store.Contents()), store.Contents(), acts, PreflightReplies(preflight) + if dispatched then {run.reply} else {})
    ensures dispatched ==>
              && r.Some? && request.id in old(store.rows) && !(pending && request.action in {Apply, Rollback})
              && var row := old(store.rows)[request.id].operation;
              && row.version == request.expectedVersion && row.candidate == request.candidate
              && (row.agent.Some? ==> request.context == Some(row.agent.value.contextRevision))
    ensures request.id in old(store.rows) ==>
              var row := old(store.rows)[request.id].operation;
              asked != [] <==>
                && !pending && request.action == Rollback
                && row.version == request.expectedVersion && row.candidate == request.candidate
                && row.state == Confirmed && row.agent.Some? && row.agent.value.materials !in {ContextChanged, Expired}
                && request.context == Some(row.agent.value.contextRevision)
    ensures asked != [] && dispatched ==> asked[|asked| - 1].code == C.Ok
    ensures request.id in old(store.rows) && asked == [] ==>
              var row := old(store.rows)[request.id].operation;
              dispatched <==>
                && !(pending && request.action in {Apply, Rollback})
                && row.version == request.expectedVersion && row.candidate == request.candidate
                && (row.agent.Some? ==> request.context == Some(row.agent.value.contextRevision))
                && (match request.action
                    case Apply => row.state == Prepared && row.agent.Some?
                    case Rollback =>
                      && row.state in {RollbackFailed, OutcomeUnknown} && row.agent.Some?
                      && row.agent.value.materials !in {ContextChanged, Expired}
                    case Cancel => row.state in {Prepared, Draft, OutcomeUnknown})
                && run.intent.fate.Answered? && row.version < MAX_VERSION
                && (request.action == Apply ==> run.intent.at < row.deadlineAtMs)
    ensures request.id !in old(store.rows) || (pending && request.action in {Apply, Rollback}) ==>
              !dispatched && asked == [] && store.Contents() == old(store.Contents())
  {
    hide Lawful, Handled, Copy, Record, Submit, PreflightReplies, LeaseFree;
    r, dispatched, asked, acts := None, false, [], [];
    ghost var l := store.Contents();
    if request.id !in store.rows {
      HandledNothing(l, PreflightReplies(preflight) + {});
      return;
    }
    var decision, o;
    RowHoldsLease(l, request.id);
    decision, o, asked, acts := DecideAction(store, pending, request, preflight);
    CopyHeld(store.Contents(), o);
    assert PreflightReplies(preflight) == PreflightReplies(preflight) + {};
    match decision
    case Refuse => return;
    case Report(code) => return Some((o, code)), false, asked, acts;
    case Proceed =>
      ghost var m := store.Contents();
      var code;
      ghost var more, intended;
      dispatched, o, code, intended, more := ExecuteAction(store, o, request.action, run);
      HandledThen(l, m, store.Contents(), acts, more, PreflightReplies(preflight), if dispatched then {run.reply} else {});
      acts := acts + more;
      if dispatched {
        r := Some((o, code));
      }
  }

  lemma RowHoldsLease(l: Ledger, id: Id)
    requires Lawful(l) && id in l.rows
    ensures l.rows[id].operation.operationId == id
    ensures Active(l.rows[id].operation.state) ==> LeaseFree(l.rows, l.rows[id].operation.nodeId, id)
  {
    assert LawfulRow(id, l.rows[id]);
    forall other | other in l.rows && other != id ensures Compatible(l.rows[id].operation, l.rows[other].operation) {
    }
    hide Lawful, LawfulLog, Consistent, Active;
  }

  lemma RowCopy(l: Ledger, id: Id)
    requires Lawful(l) && id in l.rows
    ensures Copy(l, l.rows[id].operation) && l.rows[id].operation.operationId == id
  {
    assert LawfulRow(id, l.rows[id]);
  }

  // A reply without an operation proves nothing about one that was dispatched.
  method SettleAction(store: ControlStore, operation: Operation, run: Execution)
    returns (o: Operation, code: C.Code, ghost acts: seq<Act>)
    requires store.Valid() && Copy(store.Contents(), operation) && store.rows[operation.operationId].operation == operation && Complete(run.recording)
    requires Active(operation.state) && operation.state != RollbackFailed
    modifies store
    ensures store.Valid() && Copy(store.Contents(), o)
    ensures Handled(old(store.Contents()), store.Contents(), acts, {run.reply})
    ensures run.reply.Undelivered? || run.reply.answer.view.None? ==>
              && code == (if run.reply.Undelivered? then run.reply.code else run.reply.answer.code)
              && (o == operation || o.state == OutcomeUnknown)
    ensures (run.reply.Undelivered? || run.reply.answer.view.None?) && run.unknown.fate.Answered? && operation.version < MAX_VERSION ==>
              o.state == OutcomeUnknown
    ensures run.reply.Delivered? && run.reply.answer.view.Some? ==>
              var recorded := Record(old(store.Contents()), operation, run.reply.answer, run.recording.now, run.recording.ticks);
              if recorded.obstacle.None? then store.Contents() == recorded.ledger && o == recorded.operation && code == run.reply.answer.code
              else code == C.Conflict && (o == recorded.operation || o.state == OutcomeUnknown)
  {
    hide Lawful, Handled, Copy, Record;
    if run.reply.Delivered? && run.reply.answer.view.Some? {
      o, code, acts := RecordOrUnknown(store, operation, run.reply.answer, run.recording, run.unknown);
    } else {
      code := if run.reply.Delivered? then run.reply.answer.code else run.reply.code;
      o, acts := MarkUnknown(store, operation, code, run.unknown);
      HandledMore(old(store.Contents()), store.Contents(), acts, {}, {run.reply});
    }
  }
}

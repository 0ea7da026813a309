// What the handlers decide by: when an answer of the Agent counts for an operation,
// where recording it leads, when a finished operation is read under another identity,
// and when a takeover goes on. Said of the fields of the operation and of the answer.
module HandlerRules {
  import opened Basics
  import opened OperationState
  import opened OperationStore
  import opened OperationCoordinator
  import opened OperationWarrants
  import opened OperationHandlers
  import opened OperationTakeover
  import opened LedgerRules
  import RestoreLineage
  import C = ResultCodes

  /* Recording */

  // An answer counts for an operation if it names its service and id and carries a
  // credible view of the same request, candidate and deadline that continues what is known.
  lemma EvidenceMeans(o: Operation, a: Answer)
    ensures Matches(o, a) <==>
            && a.serviceId == o.serviceId && a.operationId == o.operationId && a.view.Some?
            && var v := a.view.value;
            && Credible(v) && v.operationId == a.operationId && v.baseRevision == o.baseRevision && v.deadlineAtMs == o.deadlineAtMs
            && (o.candidate == None || o.candidate == Some(v.candidate))
            && (o.agent == None || Continues(o.agent.value, v))
  {
    if a.view.Some? {
      CredibleViews(a.view.value);
      if o.agent.Some? {
        ContinuedViews(o.agent.value, a.view.value);
      }
    }
    hide Credible, Continues, SameJournal, MaterialsMayBecome;
    hide View.Valid;
  }

  // The state that is proposed on the way to the journal's.
  lemma ProposedMeans(o: Operation, target: State, now: int)
    ensures var passed := match (o.state, target)
              case (Draft, Prepared) => Validated
              case (Applying, Confirmed) => Verifying
              case (Confirmed, RolledBack) => RollingBack
              case (RollbackFailed, RolledBack) => RollingBack
              case (from, _) => if from == target || Allowed(from, target) then target else OutcomeUnknown;
            var late := now >= o.deadlineAtMs && passed != o.state && (passed == Validated || passed == Prepared || passed == Applying);
            NextState(o, target, now) == if late then OutcomeUnknown else passed
  {
    hide Allowed;
    assert !Allowed(Draft, Prepared) && !Allowed(Applying, Confirmed) && !Allowed(Confirmed, RolledBack) && !Allowed(RollbackFailed, RolledBack) by {
      Detours();
    }
  }

  lemma Detours()
    ensures !Allowed(Draft, Prepared) && !Allowed(Applying, Confirmed) && !Allowed(Confirmed, RolledBack) && !Allowed(RollbackFailed, RolledBack)
  {
  }

  // What is proposed to the ledger: a move of the caller's own version under the code of
  // the new state, with the view, unless that would give an unknown outcome the candidate
  // of an operation that has none.
  lemma AdvanceMeans(o: Operation, v: View, t: Tick)
    ensures var input := Advance(o, v, t);
            && input == Transition(o.version, NextState(o, v.state, t.checkAt), input.code, input.agent, t.receivedAt)
            && (input.agent == Some(v) || input.agent == None)
            && (input.agent == None <==> input.nextState == OutcomeUnknown && o.state != OutcomeUnknown && o.candidate == None)
            && (input.code == if input.nextState == Draft then C.Failed else StateCode(input.nextState))
  {
    AuditedAs(StateCode(NextState(o, v.state, t.checkAt)));
    hide NextState, AuditCode;
  }

  // The row holds the view: in its state, or, if that state has passed its deadline
  // unrecorded, unknown with the view attached. Of an unknown outcome the state is enough.
  predicate Holds(o: Operation, v: View, late: bool) {
    || (o.state == v.state && (o.agent == Some(v) || v.state == OutcomeUnknown))
    || (late && o.state == OutcomeUnknown && o.agent == Some(v) && (v.state == Validated || v.state == Prepared || v.state == Applying))
  }

  // Some look at the clock found the deadline passed.
  predicate Passes(deadlineAtMs: int, now: int, ticks: seq<Tick>) {
    now >= deadlineAtMs || exists i :: 0 <= i < |ticks| && ticks[i].afterAt >= deadlineAtMs
  }

  // Recording reports success only of an answer that counts, and then the row holds it.
  lemma RecordedHolds(l: Ledger, o: Operation, a: Answer, now: int, ticks: seq<Tick>)
    requires o.operationId in l.rows && Evolves(o, l.rows[o.operationId].operation)
    requires Record(l, o, a, now, ticks).obstacle.None?
    ensures Matches(o, a) && Holds(Record(l, o, a, now, ticks).operation, a.view.value, Passes(o.deadlineAtMs, now, ticks))
  {
    if !AlreadyRecorded(o, a.view.value, now) {
      RecordedFromHolds(l, o, a.view.value, now, ticks);
    }
    hide Matches, RecordFrom;
  }

  lemma {:induction false} RecordedFromHolds(l: Ledger, o: Operation, v: View, now: int, ticks: seq<Tick>)
    requires o.operationId in l.rows && Evolves(o, l.rows[o.operationId].operation)
    requires RecordFrom(l, o, v, ticks).obstacle.None?
    ensures Holds(RecordFrom(l, o, v, ticks).operation, v, Passes(o.deadlineAtMs, now, ticks))
    decreases |ticks|
  {
    RoundHolds(l, o, v, ticks[0]);
    hide Round, Holds;
    if Round(l, o, v, ticks[0]).Underway? {
      var p := Round(l, o, v, ticks[0]).operation;
      RecordedFromHolds(Round(l, o, v, ticks[0]).ledger, p, v, now, ticks[1..]);
      if Passes(p.deadlineAtMs, now, ticks[1..]) && now < o.deadlineAtMs {
        var i :| 0 <= i < |ticks[1..]| && ticks[1..][i].afterAt >= p.deadlineAtMs;
        assert ticks[i + 1].afterAt >= o.deadlineAtMs;
      }
      HoldsLater(RecordFrom(l, o, v, ticks).operation, v, Passes(p.deadlineAtMs, now, ticks[1..]), Passes(o.deadlineAtMs, now, ticks));
    } else {
      HoldsLater(RecordFrom(l, o, v, ticks).operation, v, ticks[0].afterAt >= o.deadlineAtMs, Passes(o.deadlineAtMs, now, ticks));
    }
  }

  lemma HoldsLater(o: Operation, v: View, late: bool, later: bool)
    requires Holds(o, v, late) && (late ==> later)
    ensures Holds(o, v, later)
  {
  }

  lemma RoundHolds(l: Ledger, o: Operation, v: View, t: Tick)
    requires o.operationId in l.rows && Evolves(o, l.rows[o.operationId].operation)
    ensures match Round(l, o, v, t)
            case Finished(recorded) => recorded.obstacle.None? ==> Holds(recorded.operation, v, t.afterAt >= o.deadlineAtMs)
            case Underway(m, p) =>
              p.deadlineAtMs == o.deadlineAtMs && p.operationId in m.rows && m.rows[p.operationId].operation == p
  {
    Submitted(l, o, Advance(o, v, t), t.storeAt, t.fate);
    var (m, answer) := Submit(l, o.operationId, Advance(o, v, t), t.storeAt, t.fate);
    if answer.Success? {
      var p := answer.value;
      assert p == Moved(o, Advance(o, v, t), t.storeAt);
      if p.state != v.state && Late(p, v, t) {
        Submitted(m, p, Confirmation(p, v, t), t.againAt, t.again);
      }
    }
    hide Submit, Refusal, Advances;
  }

  // An answer that the row already holds is recorded without any change.
  lemma RepeatChangesNothing(l: Ledger, o: Operation, a: Answer, now: int, ticks: seq<Tick>)
    requires Matches(o, a) && o.agent == a.view && Holds(o, a.view.value, now >= o.deadlineAtMs)
    ensures Record(l, o, a, now, ticks) == Recorded(l, o, None)
  {
    assert a.view.Some?;
    hide Matches, RecordFrom;
  }

  // Codes that say nothing about the operation, and those of a faulty candidate.
  predicate Unspecific(code: C.Code) {
    match code
    case Ok | InvalidRequest | Unauthorized | Unavailable | InternalError | TooLarge | ServerRestorePending => true
    case _ => false
  }

  predicate Faulting(code: C.Code) {
    match code
    case LimitExceeded | UnsupportedDependency | InvalidTemplate | InvalidSource | UnsupportedSource => true
    case LegacyReadOnly | StoreUnavailable | DuplicateName | OwnershipConflict | SourceReadOnly => true
    case AdvancedReadOnly | NativeWarning | StartFiltered | InvalidMemory | InvalidChange => true
    case FieldReadOnly | InvalidSecret | InvalidSecretReference | SecretReferenceUnavailable => true
    case RuntimeCapabilityRequired | DependencyConflict | RevisionConflict | DuplicateChange => true
    case AlreadyExists | InvalidType | NotFound | InvalidField | DuplicateKey | InvalidKind => true
    case InvalidName | SourceChanged => true
    case _ => false
  }

  // The code under which anything is recorded.
  lemma AuditedAs(code: C.Code)
    ensures AuditCode(code) == if Unspecific(code) then C.Failed else if Faulting(code) then C.ValidationFailed else code
  {
    FaultCodes(code);
    hide Unspecific, Faulting, C.EventCode, C.IssueCode;
  }

  lemma FaultCodes(code: C.Code)
    ensures C.EventCode(code) <==> !Unspecific(code) && !Faulting(code)
    ensures Faulting(code) ==> C.IssueCode(code) && !Unspecific(code)
    ensures Unspecific(code) ==> !C.IssueCode(code)
  {
  }

  /* Queries */

  // Two views of one entry that differ at most in its recovery materials.
  predicate SameBusiness(v: View, w: View) {
    w == v.(materials := w.materials, expiredAtMs := w.expiredAtMs, ttlExpiry := w.ttlExpiry)
  }

  // History is readable of a finished operation whose entry is known, under an identity
  // that descends from its own before and after the reply, which must show that entry.
  lemma ReadableMeans(o: Operation, current: Id, h: History)
    ensures Readable(o, current, h) <==>
            && !Leasing(o.state) && o.agent.Some? && h.before.Some? && h.after.Some?
            && RestoreLineage.Lineage(h.before.value, current, o.serviceId) == Some(true)
            && RestoreLineage.Lineage(h.after.value, current, o.serviceId) == Some(true)
            && h.reply.Delivered? && h.reply.answer.serviceId == current && h.reply.answer.operationId == o.operationId
            && h.reply.answer.view.Some?
            && var v := h.reply.answer.view.value;
            && Credible(v) && v.operationId == o.operationId && v.deadlineAtMs == o.deadlineAtMs && v.baseRevision == o.baseRevision
            && (o.candidate == None || o.candidate == Some(v.candidate))
            && v.state == o.state && SameBusiness(o.agent.value, v) && Continues(o.agent.value, v)
  {
    LeasingStates(o.state);
    if h.reply.Delivered? {
      EvidenceMeans(o.(serviceId := current), h.reply.answer);
    }
    hide Active, Leasing, Credible, Continues, Matches, RestoreLineage.Lineage;
  }

  // The journal is asked again for history when the command found the link bound to
  // another identity, or when the Agent answered from another one with that very code.
  lemma AskedMeans(o: Operation, q: Query, current: Id)
    ensures AsksHistory(o, q) == Some(current) <==>
            || (q.reply.Undelivered? && q.reply.code == C.ServiceMismatch && q.linked == Some(current))
            || (q.reply.Delivered? && q.reply.answer.code == C.ServiceMismatch && q.reply.answer.serviceId == current != o.serviceId)
  {
  }

  // Only this answer shows that the Agent never wrote the operation down.
  lemma AbsenceMeans(o: Operation, reply: Reply)
    ensures ProvesAbsence(o, reply) <==>
            && (o.state == Draft || o.state == OutcomeUnknown) && o.candidate == None
            && reply.Delivered? && reply.answer == Answer(o.serviceId, o.operationId, C.OperationNotFound, None)
  {
  }

  /* Takeovers */

  // A takeover goes on if the Agent's own description, given in the requested service,
  // is of the requested restore, and that restore has been verified.
  lemma DescribesMeans(request: TakeoverRequest, a: RestoreAnswer)
    ensures DescribesRequest(request, a) <==>
            && a.code == C.Ok && a.serviceId == request.serviceId && a.info.Some?
            && a.info.value.stage != NotRestored && a.info.value.stage != Pending
            && (a.info.value.epoch, a.info.value.manifestDigest, a.info.value.contextRevision, a.info.value.storeDigest) ==
               (request.epoch, request.manifestDigest, request.contextRevision, request.storeDigest)
  {
  }

  // The receipt is acknowledged by an answer that describes the same restore, now
  // acknowledged or completed under this receipt.
  lemma AcceptsMeans(info: RestoreInfo, serviceId: Id, receipt: Id, a: RestoreAnswer)
    ensures Accepts(info, serviceId, receipt, a) <==>
            && a.code == C.Ok && a.serviceId == serviceId && a.info.Some?
            && a.info.value.acknowledgement == Some(receipt)
            && a.info.value.stage != NotRestored && a.info.value.stage != Pending && a.info.value.stage != Verified
            && (a.info.value.epoch, a.info.value.manifestDigest, a.info.value.contextRevision, a.info.value.storeDigest) ==
               (info.epoch, info.manifestDigest, info.contextRevision, info.storeDigest)
  {
  }

  // What the claim of a takeover asks for, and of which operation it may take the lease.
  lemma ClaimableMeans(l: Ledger, request: TakeoverRequest, info: RestoreInfo, query: Reply)
    requires Lawful(l)
    ensures Claimable(l, request, info, query) <==>
            && request.node in l.tokens && (request.node, info.epoch) !in l.receipts
            && match request.expectedActive
               case None => forall id :: !Leaseholder(l.rows, request.node, id)
               case Some((id, version)) =>
                 && Leaseholder(l.rows, request.node, id) && version == l.rows[id].operation.version < 0x7fff_ffff_ffff_ffff
                 && (l.rows[id].operation.serviceId == info.backupServiceId || info.replacedServiceId == Some(l.rows[id].operation.serviceId))
                 && query.Delivered? && query.answer == Answer(request.serviceId, query.answer.operationId, C.OperationNotFound, None)
  {
    OneLeaseholder(l, request.node);
    assert forall id :: Leaseholder(l.rows, request.node, id) ==> id in l.rows;
    hide Lawful, HoldsLease, Leaseholder;
  }
}

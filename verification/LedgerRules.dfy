// When each transaction of the ledger commits, and what it then leaves behind, said
// of the fields of the rows and of the request.
module LedgerRules {
  import opened Basics
  import opened OperationState
  import opened OperationStore
  import C = ResultCodes

  /* The states, seen from where an operation arrives */

  // An operation in such a state keeps its node from any other.
  predicate Leasing(s: State) {
    match s
    case Confirmed | Rejected | Conflict | Failed | Cancelled | RolledBack => false
    case Draft | Validated | Prepared | Applying | Verifying | OutcomeUnknown | RollingBack | RollbackFailed => true
  }

  lemma LeasingStates(s: State)
    ensures Active(s) <==> Leasing(s)
  {
  }

  // Where an operation comes from when it arrives in a state.
  lemma ComesFrom(from: State, to: State)
    ensures Allowed(from, to) <==>
            match to
            case Draft => false
            case Validated => from == Draft || from == OutcomeUnknown
            case Prepared => from == Validated || from == OutcomeUnknown
            case Applying => from == Prepared || from == OutcomeUnknown
            case Verifying => from == Applying || from == OutcomeUnknown
            case Confirmed => from == Verifying || from == OutcomeUnknown
            case Rejected => from == Draft || from == Validated || from == OutcomeUnknown
            case Conflict => from == Draft || from == Validated || from == Prepared || from == OutcomeUnknown
            case Failed => from == Draft || from == Validated || from == Prepared || from == Applying || from == OutcomeUnknown
            case Cancelled => from == Draft || from == Validated || from == Prepared || from == OutcomeUnknown
            case RollingBack => from == Applying || from == Verifying || from == Confirmed || from == RollbackFailed || from == OutcomeUnknown
            case RolledBack => from == RollingBack || from == OutcomeUnknown
            case RollbackFailed => from == RollingBack || from == OutcomeUnknown
            case OutcomeUnknown => Leasing(from) && from != OutcomeUnknown && from != RollbackFailed
  {
  }

  // A view that the Agent can have of an operation.
  predicate Credible(v: View) {
    && v.errorCode != Some(C.Ok)
    && 0 < v.createdAtMs <= v.updatedAtMs <= 253_402_300_799_999
    && v.createdAtMs < v.deadlineAtMs <= 253_402_300_799_999 && v.deadlineAtMs - v.createdAtMs <= 86_400_000
    && (match v.state
        case Confirmed => v.storePersisted && v.runtimeApplied && v.runtimeLoaded && v.resourcesReady
        case RolledBack => !v.storePersisted && !v.runtimeApplied && v.runtimeLoaded && v.resourcesReady
        case _ => !v.resourcesReady || v.runtimeLoaded)
    && match v.materials
       case Unrecognised => false
       case Expired => !Leasing(v.state) && v.ttlExpiry && v.expiredAtMs.Some? && v.createdAtMs <= v.expiredAtMs.value <= 253_402_300_799_999
       case ContextChanged => !Leasing(v.state) && !v.ttlExpiry && v.expiredAtMs == None
       case Unstated | Retained => !v.ttlExpiry && v.expiredAtMs == None
  }

  lemma CredibleViews(v: View)
    ensures v.Valid() <==> Credible(v)
  {
  }

  // A view that may follow the one last recorded: the same entry of the journal, not
  // older, and no recovery material regained.
  predicate Continues(prior: View, next: View) {
    && next.contextRevision == prior.contextRevision && next.oldDigest == prior.oldDigest
    && next.createdAtMs == prior.createdAtMs && next.updatedAtMs >= prior.updatedAtMs
    && match prior.materials
       case ContextChanged => next.materials == ContextChanged || next.materials == Expired
       case Expired => next.materials == Expired && next.expiredAtMs == prior.expiredAtMs != None && next.ttlExpiry == prior.ttlExpiry
       case _ => true
  }

  lemma ContinuedViews(prior: View, next: View)
    ensures Continues(prior, next) <==> SameJournal(prior, next) && MaterialsMayBecome(prior, next)
  {
  }

  /* Transitions */

  // The view belongs to the operation and to what is known of it.
  predicate ViewFits(o: Operation, input: Transition) {
    input.agent.Some? ==>
      && var v := input.agent.value;
      && Credible(v) && v.operationId == o.operationId && v.baseRevision == o.baseRevision && input.agentReceivedAtMs > 0
      && (o.candidate == None || o.candidate == Some(v.candidate))
      && (o.candidate == None ==> o.state == OutcomeUnknown || input.nextState == Validated || input.nextState == Prepared)
      && (o.agent.Some? ==> Continues(o.agent.value, v))
  }

  // The row can make the move: along the graph, in time, never from an old version,
  // and beyond a draft only with a candidate. Staying needs something to record.
  predicate MoveFits(o: Operation, input: Transition, now: int) {
    && C.EventCode(input.code)
    && 1 <= o.version == input.expectedVersion && o.version != 0x7fff_ffff_ffff_ffff
    && (if input.nextState == o.state then input.agent.Some? || input.code == C.SecretStored || input.code == C.OutcomeUnknown
        else
          && Allowed(o.state, input.nextState)
          && (input.nextState == Validated || input.nextState == Prepared || input.nextState == Applying ==> now < o.deadlineAtMs))
    && match input.nextState
       case Validated | Prepared | Applying | Verifying | Confirmed | RollingBack | RolledBack => o.candidate.Some? || input.agent.Some?
       case Draft | Rejected | Conflict | Failed | OutcomeUnknown | Cancelled | RollbackFailed => true
  }

  lemma MovesExactly(o: Operation, input: Transition, now: int)
    ensures Refusal(o, input, now).None? <==> MoveFits(o, input, now) && ViewFits(o, input)
  {
    if input.agent.Some? {
      CredibleViews(input.agent.value);
      if o.agent.Some? {
        ContinuedViews(o.agent.value, input.agent.value);
      }
    }
    hide Credible, Continues, SameJournal, MaterialsMayBecome, Allowed, C.EventCode;
    hide View.Valid;
  }

  // A row that has moved: only its state, version, time and what the view says are new.
  function After(row: Row, input: Transition, now: int): Row {
    var o := row.operation;
    var p := Operation(
      o.operationId, o.nodeId, o.serviceId, o.baseRevision,
      match input.agent case Some(v) => Some(v.candidate) case None => o.candidate,
      o.creator, o.deadlineAtMs, o.idempotencyKey, o.requestDigest, input.nextState, o.version + 1, o.createdAtMs, now,
      match input.agent case Some(v) => Some(v) case None => o.agent,
      match input.agent case Some(v) => input.agentReceivedAtMs case None => o.agentReceivedAtMs);
    Row(p, row.log + [Event(o.version + 1, input.nextState, input.code, now)])
  }

  // A transition is committed exactly if the row can make it and, where it takes or
  // keeps the lease, no other operation of the node has it. Else nothing changes: an
  // unknown operation is missing, and a caller that saw another version clashes.
  lemma TransitionCommits(l: Ledger, id: Id, input: Transition, now: int)
    ensures var (m, out) := CommitTransition(l, id, input, now);
            && (out.Success? <==>
                && id in l.rows && MoveFits(l.rows[id].operation, input, now) && ViewFits(l.rows[id].operation, input)
                && (Leasing(input.nextState) ==>
                    forall other :: other in l.rows && other != id && l.rows[other].operation.nodeId == l.rows[id].operation.nodeId ==>
                      !Leasing(l.rows[other].operation.state)))
            && (out.Success? ==>
                m == l.(rows := l.rows[id := After(l.rows[id], input, now)]) && out.value == After(l.rows[id], input, now).operation)
            && (out.Failure? ==> m == l && (out.error == Missing <==> id !in l.rows))
            && (out.Failure? && id in l.rows && l.rows[id].operation.version != input.expectedVersion
                && input.expectedVersion >= 1 && input.agent == None && C.EventCode(input.code) ==>
                out.error == Clash)
  {
    if id in l.rows {
      MovesExactly(l.rows[id].operation, input, now);
    }
    forall s: State ensures Active(s) <==> Leasing(s) {
      LeasingStates(s);
    }
    hide Active, Leasing, MoveFits, ViewFits, C.EventCode;
    hide View.Valid;
  }

  /* Creation */

  predicate SameKey(rows: map<Id, Row>, key: Id, id: Id) {
    id in rows && key == rows[id].operation.idempotencyKey
  }

  // The request under which an operation was created, but for the operation's own id.
  predicate Repeats(r: NewOperation, o: Operation) {
    r == NewOperation(r.operationId, o.nodeId, o.serviceId, o.baseRevision, o.creator, o.deadlineAtMs, o.idempotencyKey, o.requestDigest)
  }

  // An idempotency key that is in use answers for its operation. The same request gets
  // that operation again; any other is refused. Nothing changes.
  lemma KeyAnswersOnce(l: Ledger, r: NewOperation, now: int, id: Id)
    requires Lawful(l) && SameKey(l.rows, r.idempotencyKey, id)
    ensures var (m, out) := CommitCreate(l, r, now);
            && m == l
            && out == if Repeats(r, l.rows[id].operation) then Success((l.rows[id].operation, true)) else Failure(Clash)
  {
    assert KeyTaken(l.rows, r.idempotencyKey, id);
    forall other | KeyTaken(l.rows, r.idempotencyKey, other) ensures other == id {
      assert other != id ==> Compatible(l.rows[id].operation, l.rows[other].operation);
    }
    hide Lawful, LeaseFree;
  }

  // A request with a new key is granted exactly if its deadline lies within a day, its
  // node lives, its id is new, and no operation has the lease of the node.
  lemma CreationCommits(l: Ledger, r: NewOperation, now: int)
    requires forall id :: !SameKey(l.rows, r.idempotencyKey, id)
    ensures var (m, out) := CommitCreate(l, r, now);
            && (out.Success? <==>
                && now < r.deadlineAtMs <= now + 86_400_000 && r.nodeId in l.tokens && r.operationId !in l.rows
                && forall id :: id in l.rows && l.rows[id].operation.nodeId == r.nodeId ==> !Leasing(l.rows[id].operation.state))
            && (out.Success? ==>
                && out.value.1 == false && m == l.(rows := l.rows[r.operationId := Row(out.value.0, [Event(1, Draft, C.Created, now)])])
                && out.value.0 == Operation(r.operationId, r.nodeId, r.serviceId, r.baseRevision, None, r.creator, r.deadlineAtMs,
                                            r.idempotencyKey, r.requestDigest, Draft, 1, now, now, None, 0))
            && (out.Failure? ==>
                && m == l
                && out.error == if !(now < r.deadlineAtMs <= now + 86_400_000) then Unacceptable
                                else if r.nodeId !in l.tokens then Missing
                                else Clash)
  {
    forall id ensures !KeyTaken(l.rows, r.idempotencyKey, id) {
      assert !SameKey(l.rows, r.idempotencyKey, id);
    }
    forall s: State ensures Active(s) <==> Leasing(s) {
      LeasingStates(s);
    }
    hide Active, Leasing, SameKey, KeyTaken;
  }

  /* Restore takeovers */

  // The receipt of a claim, before it is acknowledged.
  function Written(c: Claim, at: int): Receipt {
    Receipt(c.id, c.serviceId, c.backupServiceId, c.replacedServiceId, c.manifestDigest, c.contextRevision, c.storeDigest,
            c.expectedToken, false, 1, at, at)
  }

  // A claim was recorded before: what the receipt says is what the claim asks.
  predicate Recorded(receipt: Receipt, c: Claim) {
    receipt == Written(c, 0).(id := receipt.id, acknowledged := receipt.acknowledged, version := receipt.version,
                              createdAtMs := receipt.createdAtMs, updatedAtMs := receipt.updatedAtMs)
  }

  predicate Leaseholder(rows: map<Id, Row>, node: Id, id: Id) {
    id in rows && rows[id].operation.nodeId == node && Leasing(rows[id].operation.state)
  }

  // The claim knows who has the lease of its node: nobody, or the operation it names at
  // the version it saw, on the service that was backed up or that was replaced.
  ghost predicate Foreseen(l: Ledger, c: Claim) {
    match c.expectedActive
    case None => forall id :: !Leaseholder(l.rows, c.nodeId, id)
    case Some((id, version)) =>
      && Leaseholder(l.rows, c.nodeId, id)
      && var o := l.rows[id].operation;
      o.version == version < 0x7fff_ffff_ffff_ffff && (o.serviceId == c.backupServiceId || c.replacedServiceId == Some(o.serviceId))
  }

  // Only for a live node under its present token; the second time the first receipt is
  // given again, to the same claim only. A claim of a new epoch is granted exactly if
  // it knows who has the lease, whose operation it then cancels.
  lemma ClaimCommits(l: Ledger, c: Claim, now: int)
    requires Lawful(l)
    ensures var (m, out) := CommitClaim(l, c, now);
            var key := (c.nodeId, c.epoch);
            && (out.Failure? ==> m == l && (out.error == Missing <==> c.nodeId !in l.tokens) && (out.error == Missing || out.error == Clash))
            && (out.Success? <==>
                && c.nodeId in l.tokens && l.tokens[c.nodeId] == c.expectedToken
                && if key in l.receipts then Recorded(l.receipts[key], c) else Foreseen(l, c))
            && (out.Success? && key in l.receipts ==> m == l && out.value == (l.receipts[key], true))
            && (out.Success? && key !in l.receipts ==> out.value == (Written(c, now), false) && m == Taken(l, c, now))
  {
    hide Lawful, Active, Leasing;
    OneLeaseholder(l, c.nodeId);
  }

  // At most one operation of a node has its lease.
  lemma OneLeaseholder(l: Ledger, node: Id)
    requires Lawful(l)
    ensures forall id :: id in l.rows ==> l.rows[id].operation.operationId == id
    ensures forall id :: HoldsLease(l.rows, node, id) <==> Leaseholder(l.rows, node, id)
    ensures forall id, other :: Leaseholder(l.rows, node, id) && Leaseholder(l.rows, node, other) ==> id == other
  {
    forall id | id in l.rows ensures l.rows[id].operation.operationId == id && (HoldsLease(l.rows, node, id) <==> Leaseholder(l.rows, node, id)) {
      assert LawfulRow(id, l.rows[id]);
      LeasingStates(l.rows[id].operation.state);
    }
    hide LawfulRow, Active, Leasing;
    forall id, other | HoldsLease(l.rows, node, id) && HoldsLease(l.rows, node, other) ensures id == other {
      assert id != other ==> Compatible(l.rows[id].operation, l.rows[other].operation);
    }
  }

  // The ledger after a claim that was granted.
  function Taken(l: Ledger, c: Claim, now: int): Ledger {
    var receipts := l.receipts[(c.nodeId, c.epoch) := Written(c, now)];
    if c.expectedActive.Some? && c.expectedActive.value.0 in l.rows then
      var id := c.expectedActive.value.0;
      var o := l.rows[id].operation;
      var p := o.(state := Cancelled, version := o.version + 1, updatedAtMs := if o.updatedAtMs > now then o.updatedAtMs else now);
      l.(receipts := receipts, rows := l.rows[id := Row(p, l.rows[id].log + [Event(o.version + 1, Cancelled, C.RestoreSuperseded, now)])])
    else l.(receipts := receipts)
  }

  /* Acknowledgements */

  // An acknowledgement is recorded once, at the version the caller saw; the caller that
  // recorded it may repeat it. The node must live under the token of the claim.
  lemma AcknowledgementCommits(l: Ledger, key: (Id, Id), seen: int, now: int)
    ensures var (m, out) := CommitAcknowledge(l, key, seen, now);
            && (out.Failure? ==> m == l && out.error == if key in l.receipts && key.0 in l.tokens then Clash else Missing)
            && (out.Success? <==>
                && key in l.receipts && key.0 in l.tokens && l.receipts[key].token == l.tokens[key.0]
                && var version := l.receipts[key].version;
                if l.receipts[key].acknowledged then version == seen || version == seen + 1
                else version == seen != 0x7fff_ffff_ffff_ffff)
            && (out.Success? && l.receipts[key].acknowledged ==> m == l && out.value == l.receipts[key])
            && (out.Success? && !l.receipts[key].acknowledged ==>
                && m == l.(receipts := l.receipts[key := out.value])
                && var r := l.receipts[key];
                && out.value.acknowledged && out.value.version == seen + 1
                && out.value.updatedAtMs == (if r.updatedAtMs > now then r.updatedAtMs else now)
                && out.value == Receipt(r.id, r.serviceId, r.backupServiceId, r.replacedServiceId, r.manifestDigest, r.contextRevision,
                                        r.storeDigest, r.token, true, r.version + 1, r.createdAtMs, out.value.updatedAtMs))
  {
  }
}

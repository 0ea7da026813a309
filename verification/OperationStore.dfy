// The durable ledger of configuration operations: one compare-and-swap row with
// its append-only event log per operation, one lease per node, and the receipts
// of restore takeovers. Every transaction either commits whole or changes nothing.
module OperationStore {
  import opened Basics
  import opened OperationState
  import C = ResultCodes

  const MAX_VERSION := 0x7fff_ffff_ffff_ffff

  datatype Operation = Operation(
    operationId: Id, nodeId: Id, serviceId: Id, baseRevision: Digest, candidate: Option<Digest>, creator: Id,
    deadlineAtMs: int, idempotencyKey: Id, requestDigest: Digest,
    state: State, version: int, createdAtMs: int, updatedAtMs: int,
    agent: Option<View>, agentReceivedAtMs: int)

  datatype Event = Event(version: int, state: State, code: C.Code, atMs: int)

  datatype Row = Row(operation: Operation, log: seq<Event>)

  datatype Receipt = Receipt(
    id: Id, serviceId: Id, backupServiceId: Id, replacedServiceId: Option<Id>,
    manifestDigest: Digest, contextRevision: Digest, storeDigest: Digest, token: Digest,
    acknowledged: bool, version: int, createdAtMs: int, updatedAtMs: int)

  // Receipts are unique by node and restore epoch; tokens are the live nodes.
  datatype Ledger = Ledger(rows: map<Id, Row>, receipts: map<(Id, Id), Receipt>, tokens: map<Id, Digest>)

  datatype StoreError = Missing | Clash | Unacceptable | Unavailable

  datatype Transition = Transition(
    expectedVersion: int, nextState: State, code: C.Code, agent: Option<View>, agentReceivedAtMs: int)

  datatype NewOperation = NewOperation(
    operationId: Id, nodeId: Id, serviceId: Id, baseRevision: Digest, creator: Id,
    deadlineAtMs: int, idempotencyKey: Id, requestDigest: Digest)

  datatype Claim = Claim(
    id: Id, nodeId: Id, serviceId: Id, epoch: Id, backupServiceId: Id, replacedServiceId: Option<Id>,
    manifestDigest: Digest, contextRevision: Digest, storeDigest: Digest, expectedToken: Digest,
    expectedActive: Option<(Id, int)>)

  /* One row */

  // The states that only an operation with a candidate may be in.
  predicate NeedsCandidate(s: State) {
    s in {Validated, Prepared, Applying, Verifying, Confirmed, RollingBack, RolledBack}
  }

  // The candidate digest travels with the Agent's view of the operation.
  function CandidateAfter(o: Operation, input: Transition): Option<Digest> {
    if input.agent.Some? then Some(input.agent.value.candidate) else o.candidate
  }

  // A later view of the same journal entry.
  predicate SameJournal(prior: View, next: View) {
    && prior.contextRevision == next.contextRevision
    && prior.oldDigest == next.oldDigest
    && prior.createdAtMs == next.createdAtMs
    && prior.updatedAtMs <= next.updatedAtMs
  }

  // Why the row refuses a transition, in the order in which the checks are made.
  function Refusal(o: Operation, input: Transition, now: int): Option<StoreError> {
    if input.expectedVersion < 1 || !C.EventCode(input.code) then Some(Unacceptable)
    else if input.agent.Some? && (!input.agent.value.Valid() || input.agent.value.operationId != o.operationId || input.agentReceivedAtMs <= 0) then
      Some(Unacceptable)
    else if o.state == input.nextState && input.agent.None? && input.code != C.SecretStored && input.code != C.OutcomeUnknown then
      Some(Clash)
    else if o.version != input.expectedVersion || o.version == MAX_VERSION then Some(Clash)
    else if o.state != input.nextState && !Allowed(o.state, input.nextState) then Some(Clash)
    else if o.state != input.nextState && Timed(input.nextState) && now >= o.deadlineAtMs then Some(Clash)
    else if input.agent.Some? && o.candidate.None? && o.state != OutcomeUnknown && input.nextState !in {Validated, Prepared} then
      Some(Unacceptable)
    else if input.agent.Some? && o.candidate.Some? && o.candidate != CandidateAfter(o, input) then Some(Clash)
    else if CandidateAfter(o, input).None? && NeedsCandidate(input.nextState) then Some(Unacceptable)
    else if input.agent.Some? && o.agent.Some? && !MaterialsMayBecome(o.agent.value, input.agent.value) then Some(Clash)
    else if input.agent.Some? && input.agent.value.baseRevision != o.baseRevision then Some(Clash)
    else if input.agent.Some? && o.agent.Some? && !SameJournal(o.agent.value, input.agent.value) then Some(Clash)
    else None
  }

  function Moved(o: Operation, input: Transition, now: int): Operation {
    o.(state := input.nextState, version := o.version + 1, updatedAtMs := now,
       candidate := CandidateAfter(o, input),
       agent := if input.agent.Some? then input.agent else o.agent,
       agentReceivedAtMs := if input.agent.Some? then input.agentReceivedAtMs else o.agentReceivedAtMs)
  }

  function Logged(row: Row, p: Operation, code: C.Code, now: int): Row {
    Row(p, row.log + [Event(p.version, p.state, code, now)])
  }

  /* Transactions on the whole ledger */

  predicate LeaseFree(rows: map<Id, Row>, node: Id, except: Id) {
    forall id :: id in rows && id != except && rows[id].operation.nodeId == node ==> !Active(rows[id].operation.state)
  }

  function CommitTransition(l: Ledger, id: Id, input: Transition, now: int): (Ledger, Result<Operation, StoreError>) {
    if id !in l.rows then (l, Failure(Missing))
    else
      var o := l.rows[id].operation;
      var refusal := Refusal(o, input, now);
      if refusal.Some? then (l, Failure(refusal.value))
      else if Active(input.nextState) && !LeaseFree(l.rows, o.nodeId, id) then (l, Failure(Clash)) // unique index
      else
        var p := Moved(o, input, now);
        (l.(rows := l.rows[id := Logged(l.rows[id], p, input.code, now)]), Success(p))
  }

  predicate SameRequest(o: Operation, r: NewOperation) {
    && o.requestDigest == r.requestDigest && o.nodeId == r.nodeId && o.serviceId == r.serviceId
    && o.baseRevision == r.baseRevision && o.creator == r.creator && o.deadlineAtMs == r.deadlineAtMs
  }

  function Drafted(r: NewOperation, now: int): Row {
    Row(Operation(r.operationId, r.nodeId, r.serviceId, r.baseRevision, None, r.creator, r.deadlineAtMs, r.idempotencyKey,
                  r.requestDigest, Draft, 1, now, now, None, 0),
        [Event(1, Draft, C.Created, now)])
  }

  // The operation an idempotency key already names.
  predicate KeyTaken(rows: map<Id, Row>, key: Id, id: Id) {
    id in rows && rows[id].operation.idempotencyKey == key
  }

  ghost function CommitCreate(l: Ledger, r: NewOperation, now: int): (Ledger, Result<(Operation, bool), StoreError>) {
    if exists id :: KeyTaken(l.rows, r.idempotencyKey, id) then
      var id :| KeyTaken(l.rows, r.idempotencyKey, id);
      var o := l.rows[id].operation;
      (l, if SameRequest(o, r) then Success((o, true)) else Failure(Clash))
    else if r.deadlineAtMs <= now || r.deadlineAtMs > now + MAX_OPERATION_DURATION then (l, Failure(Unacceptable))
    else if r.nodeId !in l.tokens then (l, Failure(Missing))
    else if r.operationId in l.rows || !LeaseFree(l.rows, r.nodeId, r.operationId) then (l, Failure(Clash))
    else
      var row := Drafted(r, now);
      (l.(rows := l.rows[r.operationId := row]), Success((row.operation, false)))
  }

  predicate SameClaim(receipt: Receipt, c: Claim) {
    && receipt.serviceId == c.serviceId && receipt.backupServiceId == c.backupServiceId
    && receipt.replacedServiceId == c.replacedServiceId && receipt.manifestDigest == c.manifestDigest
    && receipt.contextRevision == c.contextRevision && receipt.storeDigest == c.storeDigest && receipt.token == c.expectedToken
  }

  function Claimed(c: Claim, now: int): Receipt {
    Receipt(c.id, c.serviceId, c.backupServiceId, c.replacedServiceId, c.manifestDigest, c.contextRevision, c.storeDigest,
            c.expectedToken, false, 1, now, now)
  }

  predicate Supersedable(o: Operation, c: Claim) {
    && c.expectedActive == Some((o.operationId, o.version))
    && o.version < MAX_VERSION
    && (o.serviceId == c.backupServiceId || Some(o.serviceId) == c.replacedServiceId)
  }

  function Superseded(o: Operation, now: int): Operation {
    o.(state := Cancelled, version := o.version + 1, updatedAtMs := if now < o.updatedAtMs then o.updatedAtMs else now)
  }

  predicate HoldsLease(rows: map<Id, Row>, node: Id, id: Id) {
    id in rows && rows[id].operation.nodeId == node && Active(rows[id].operation.state)
  }

  ghost function CommitClaim(l: Ledger, c: Claim, now: int): (Ledger, Result<(Receipt, bool), StoreError>) {
    var key := (c.nodeId, c.epoch);
    if c.nodeId !in l.tokens then (l, Failure(Missing))
    else if l.tokens[c.nodeId] != c.expectedToken then (l, Failure(Clash))
    else if key in l.receipts then
      (l, if SameClaim(l.receipts[key], c) then Success((l.receipts[key], true)) else Failure(Clash))
    else
      var receipt := Claimed(c, now);
      if exists id :: HoldsLease(l.rows, c.nodeId, id) then
        var id :| HoldsLease(l.rows, c.nodeId, id);
        var o := l.rows[id].operation;
        if !Supersedable(o, c) then (l, Failure(Clash))
        else
          (l.(rows := l.rows[id := Logged(l.rows[id], Superseded(o, now), C.RestoreSuperseded, now)], receipts := l.receipts[key := receipt]),
           Success((receipt, false)))
      else if c.expectedActive.Some? then (l, Failure(Clash))
      else (l.(receipts := l.receipts[key := receipt]), Success((receipt, false)))
  }

  // The Agent accepted the takeover. Repeating the last acknowledgement is harmless.
  function CommitAcknowledge(l: Ledger, key: (Id, Id), expectedVersion: int, now: int): (Ledger, Result<Receipt, StoreError>) {
    if key !in l.receipts || key.0 !in l.tokens then (l, Failure(Missing))
    else
      var r := l.receipts[key];
      if l.tokens[key.0] != r.token then (l, Failure(Clash))
      else if r.acknowledged then
        (l, if expectedVersion == r.version || expectedVersion == r.version - 1 then Success(r) else Failure(Clash))
      else if r.version != expectedVersion || r.version == MAX_VERSION then (l, Failure(Clash))
      else
        var next := r.(acknowledged := true, version := r.version + 1, updatedAtMs := if now < r.updatedAtMs then r.updatedAtMs else now);
        (l.(receipts := l.receipts[key := next]), Success(next))
  }

  /* What every row keeps */

  // A persisted view belongs to its operation and carries its candidate.
  predicate Consistent(o: Operation) {
    && 1 <= o.version <= MAX_VERSION
    && (o.agent.Some? ==>
        && o.agent.value.Valid()
        && o.agent.value.operationId == o.operationId
        && o.agent.value.baseRevision == o.baseRevision
        && o.candidate == Some(o.agent.value.candidate))
    && (NeedsCandidate(o.state) ==> o.candidate.Some?)
  }

  // One step of a log: an edge of the graph, a repeated observation, or the
  // cancellation of a leaseholder that a restore takeover superseded.
  predicate LawfulStep(from: Event, to: Event) {
    || from.state == to.state
    || Allowed(from.state, to.state)
    || (to.code == C.RestoreSuperseded && Active(from.state) && to.state == Cancelled)
  }

  // Nothing is validated, prepared or applied once the deadline has passed.
  predicate InTime(from: Event, to: Event, deadlineAtMs: int) {
    Timed(to.state) && from.state != to.state ==> to.atMs < deadlineAtMs
  }

  ghost predicate LawfulLog(log: seq<Event>, o: Operation) {
    && |log| == o.version
    && log != []
    && log[0].state == Draft && log[0].code == C.Created
    && (forall i :: 0 <= i < |log| ==> log[i].version == i + 1)
    && (forall i, j :: 0 <= i && j == i + 1 < |log| ==> LawfulStep(log[i], log[j]) && InTime(log[i], log[j], o.deadlineAtMs))
    && log[|log| - 1].state == o.state
  }

  ghost predicate LawfulRow(id: Id, row: Row) {
    row.operation.operationId == id && Consistent(row.operation) && LawfulLog(row.log, row.operation)
  }

  // What no later transaction can undo about an operation.
  predicate Evolves(o: Operation, p: Operation) {
    o == p || Advances(o, p)
  }

  predicate Advances(o: Operation, p: Operation) {
    && o.version < p.version
    && p.operationId == o.operationId && p.nodeId == o.nodeId && p.serviceId == o.serviceId
    && p.baseRevision == o.baseRevision && p.creator == o.creator && p.deadlineAtMs == o.deadlineAtMs
    && p.idempotencyKey == o.idempotencyKey && p.requestDigest == o.requestDigest && p.createdAtMs == o.createdAtMs
    && (o.candidate.Some? ==> p.candidate == o.candidate)
    && (o.agent.Some? ==>
        && p.agent.Some?
        && SameJournal(o.agent.value, p.agent.value)
        && MaterialsMayBecome(o.agent.value, p.agent.value)
        && Decay(o.agent.value.materials) <= Decay(p.agent.value.materials))
  }

  predicate RowEvolves(row: Row, next: Row) {
    Evolves(row.operation, next.operation) && row.log <= next.log
  }

  // A receipt keeps its claim; only its acknowledgement is added, once.
  predicate ReceiptEvolves(r: Receipt, q: Receipt) {
    && q.(acknowledged := r.acknowledged, version := r.version, updatedAtMs := r.updatedAtMs) == r
    && (r.acknowledged ==> q == r)
    && r.updatedAtMs <= q.updatedAtMs
  }

  lemma Unchanged(row: Row)
    ensures RowEvolves(row, row)
  {
  }

  lemma RowEvolvesTransitive(a: Row, b: Row, c: Row)
    requires RowEvolves(a, b) && RowEvolves(b, c)
    ensures RowEvolves(a, c)
  {
  }

  lemma MovedEvolves(o: Operation, input: Transition, now: int)
    requires Consistent(o) && Refusal(o, input, now).None?
    ensures Consistent(Moved(o, input, now)) && Evolves(o, Moved(o, input, now))
    ensures o.state == input.nextState || Allowed(o.state, input.nextState)
    ensures Timed(input.nextState) && o.state != input.nextState ==> now < o.deadlineAtMs
  {
  }

  lemma SupersededEvolves(o: Operation, now: int)
    requires Consistent(o) && o.version < MAX_VERSION
    ensures Consistent(Superseded(o, now)) && Evolves(o, Superseded(o, now))
  {
  }

  lemma LoggedLawful(id: Id, row: Row, p: Operation, code: C.Code, now: int)
    requires LawfulRow(id, row) && Consistent(p) && Evolves(row.operation, p) && p.version == row.operation.version + 1
    requires || row.operation.state == p.state || Allowed(row.operation.state, p.state)
             || (code == C.RestoreSuperseded && Active(row.operation.state) && p.state == Cancelled)
    requires Timed(p.state) && row.operation.state != p.state ==> now < row.operation.deadlineAtMs
    ensures LawfulRow(id, Logged(row, p, code, now)) && RowEvolves(row, Logged(row, p, code, now))
  {
    hide Consistent, Allowed, Active, Timed;
    var log := Logged(row, p, code, now).log;
    assert log[|log| - 2] == row.log[|row.log| - 1];
  }

  /* What every ledger keeps */

  // One lease per node, and one operation per idempotency key.
  predicate Compatible(o: Operation, p: Operation) {
    && !(o.nodeId == p.nodeId && Active(o.state) && Active(p.state))
    && o.idempotencyKey != p.idempotencyKey
  }

  ghost predicate Lawful(l: Ledger) {
    && (forall id :: id in l.rows ==> LawfulRow(id, l.rows[id]))
    && (forall i, j :: i in l.rows && j in l.rows && i != j ==> Compatible(l.rows[i].operation, l.rows[j].operation))
  }

  // Later ledgers hold every earlier operation, evolved, with every earlier log
  // as a prefix, and every earlier receipt.
  ghost predicate Extends(l: Ledger, m: Ledger) {
    && (forall id :: id in l.rows ==> id in m.rows && RowEvolves(l.rows[id], m.rows[id]))
    && (forall key :: key in l.receipts ==> key in m.receipts && ReceiptEvolves(l.receipts[key], m.receipts[key]))
  }

  lemma ExtendsReflexive(l: Ledger)
    ensures Extends(l, l)
  {
    forall id | id in l.rows {
      Unchanged(l.rows[id]);
    }
  }

  lemma ExtendsTransitive(l: Ledger, m: Ledger, n: Ledger)
    requires Extends(l, m) && Extends(m, n)
    ensures Extends(l, n)
  {
    forall id | id in l.rows
      ensures id in n.rows && RowEvolves(l.rows[id], n.rows[id])
    {
      hide RowEvolves;
      assert id in m.rows && id in n.rows;
      RowEvolvesTransitive(l.rows[id], m.rows[id], n.rows[id]);
    }
  }

  // Replacing one row by a later one that takes no lease another row holds.
  lemma ReplacedLawful(l: Ledger, id: Id, row: Row, receipts: map<(Id, Id), Receipt>)
    requires Lawful(l) && id in l.rows && LawfulRow(id, row) && RowEvolves(l.rows[id], row)
    requires Active(row.operation.state) ==> LeaseFree(l.rows, row.operation.nodeId, id)
    requires forall key :: key in l.receipts ==> key in receipts && receipts[key] == l.receipts[key]
    ensures Lawful(l.(rows := l.rows[id := row], receipts := receipts)) && Extends(l, l.(rows := l.rows[id := row], receipts := receipts))
  {
    hide LawfulRow, Active;
    assert row.operation.nodeId == l.rows[id].operation.nodeId && row.operation.idempotencyKey == l.rows[id].operation.idempotencyKey;
    hide RowEvolves;
    forall other | other in l.rows {
      Unchanged(l.rows[other]);
    }
    forall other | other in l.rows && other != id
      ensures Compatible(row.operation, l.rows[other].operation) && Compatible(l.rows[other].operation, row.operation)
    {
      assert Compatible(l.rows[id].operation, l.rows[other].operation);
    }
  }

  lemma AddedLawful(l: Ledger, row: Row)
    requires Lawful(l) && row.operation.operationId !in l.rows && LawfulRow(row.operation.operationId, row)
    requires forall id :: !KeyTaken(l.rows, row.operation.idempotencyKey, id)
    requires LeaseFree(l.rows, row.operation.nodeId, row.operation.operationId)
    ensures Lawful(l.(rows := l.rows[row.operation.operationId := row]))
    ensures Extends(l, l.(rows := l.rows[row.operation.operationId := row]))
  {
    hide LawfulRow, Active, RowEvolves;
    ExtendsReflexive(l);
    forall other | other in l.rows
      ensures Compatible(row.operation, l.rows[other].operation) && Compatible(l.rows[other].operation, row.operation)
    {
      assert !KeyTaken(l.rows, row.operation.idempotencyKey, other);
    }
  }

  lemma TransitionLawful(l: Ledger, id: Id, input: Transition, now: int)
    requires Lawful(l)
    ensures Lawful(CommitTransition(l, id, input, now).0) && Extends(l, CommitTransition(l, id, input, now).0)
  {
    hide LawfulLog, Consistent, Refusal, Advances, Active;
    ExtendsReflexive(l);
    if id in l.rows && Refusal(l.rows[id].operation, input, now).None? {
      var o := l.rows[id].operation;
      if !Active(input.nextState) || LeaseFree(l.rows, o.nodeId, id) {
        var p := Moved(o, input, now);
        MovedEvolves(o, input, now);
        LoggedLawful(id, l.rows[id], p, input.code, now);
        ReplacedLawful(l, id, Logged(l.rows[id], p, input.code, now), l.receipts);
      }
    }
  }

  lemma CreateLawful(l: Ledger, r: NewOperation, now: int)
    requires Lawful(l)
    ensures Lawful(CommitCreate(l, r, now).0) && Extends(l, CommitCreate(l, r, now).0)
  {
    hide LawfulRow;
    ExtendsReflexive(l);
    var m := CommitCreate(l, r, now).0;
    if m != l {
      DraftedLawful(r, now);
      AddedLawful(l, Drafted(r, now));
    }
  }

  lemma DraftedLawful(r: NewOperation, now: int)
    ensures LawfulRow(r.operationId, Drafted(r, now))
  {
  }

  lemma ClaimLawful(l: Ledger, c: Claim, now: int)
    requires Lawful(l)
    ensures Lawful(CommitClaim(l, c, now).0) && Extends(l, CommitClaim(l, c, now).0)
  {
    hide LawfulLog, Consistent, Advances, Active;
    ExtendsReflexive(l);
    var m := CommitClaim(l, c, now).0;
    var key := (c.nodeId, c.epoch);
    if m != l && exists id :: HoldsLease(l.rows, c.nodeId, id) {
      var id :| HoldsLease(l.rows, c.nodeId, id) && Supersedable(l.rows[id].operation, c)
             && m.rows == l.rows[id := Logged(l.rows[id], Superseded(l.rows[id].operation, now), C.RestoreSuperseded, now)];
      var o := l.rows[id].operation;
      SupersededEvolves(o, now);
      CancelledIsFinal();
      LoggedLawful(id, l.rows[id], Superseded(o, now), C.RestoreSuperseded, now);
      ReplacedLawful(l, id, Logged(l.rows[id], Superseded(o, now), C.RestoreSuperseded, now), m.receipts);
    }
  }

  lemma CancelledIsFinal()
    ensures !Active(Cancelled) && !Timed(Cancelled) && forall to :: !Allowed(Cancelled, to)
  {
  }

  /* Whole runs */

  datatype Transaction =
    | Create(request: NewOperation)
    | Move(id: Id, input: Transition)
    | Take(claim: Claim)
    | Acknowledge(key: (Id, Id), expectedVersion: int)
    | Rotate(node: Id, token: Option<Digest>)

  ghost function Commit(l: Ledger, t: Transaction, now: int): Ledger {
    match t
    case Create(request) => CommitCreate(l, request, now).0
    case Move(id, input) => CommitTransition(l, id, input, now).0
    case Take(claim) => CommitClaim(l, claim, now).0
    case Acknowledge(key, expectedVersion) => CommitAcknowledge(l, key, expectedVersion, now).0
    case Rotate(node, token) =>
      l.(tokens := if token.Some? then l.tokens[node := token.value] else l.tokens - {node})
  }

  lemma CommitLawful(l: Ledger, t: Transaction, now: int)
    requires Lawful(l)
    ensures Lawful(Commit(l, t, now)) && Extends(l, Commit(l, t, now))
  {
    hide LawfulRow, RowEvolves, CommitCreate, CommitTransition, CommitClaim;
    match t
    case Create(request) => CreateLawful(l, request, now);
    case Move(id, input) => TransitionLawful(l, id, input, now);
    case Take(claim) => ClaimLawful(l, claim, now);
    case _ => ExtendsReflexive(l);
  }

  // The ledger after a sequence of transactions, whatever the clock reads at
  // each of them.
  ghost function Run(l: Ledger, ts: seq<(Transaction, int)>): Ledger
    decreases |ts|
  {
    if ts == [] then l else Run(Commit(l, ts[0].0, ts[0].1), ts[1..])
  }

  lemma {:induction false} EveryRunIsLawful(l: Ledger, ts: seq<(Transaction, int)>)
    requires Lawful(l)
    ensures Lawful(Run(l, ts)) && Extends(l, Run(l, ts))
    decreases |ts|
  {
    hide Lawful, Extends, Commit;
    if ts == [] {
      ExtendsReflexive(l);
    } else {
      var next := Commit(l, ts[0].0, ts[0].1);
      CommitLawful(l, ts[0].0, ts[0].1);
      EveryRunIsLawful(next, ts[1..]);
      ExtendsTransitive(l, next, Run(l, ts));
    }
  }

  /* Submissions whose answer may be lost */

  // A caller that stops waiting does not learn whether its transaction was
  // committed. The one worker takes transactions in order, so a transaction that
  // was committed unseen is committed before the caller's next one.
  datatype Fate = Answered | Unseen(committed: bool)

  function Fated<A>(l: Ledger, done: (Ledger, Result<A, StoreError>), fate: Fate): (Ledger, Result<A, StoreError>) {
    match fate
    case Answered => done
    case Unseen(committed) => (if committed then done.0 else l, Failure(Unavailable))
  }

  function Submit(l: Ledger, id: Id, input: Transition, now: int, fate: Fate): (Ledger, Result<Operation, StoreError>) {
    Fated(l, CommitTransition(l, id, input, now), fate)
  }

  ghost function SubmitCreate(l: Ledger, r: NewOperation, now: int, fate: Fate): (Ledger, Result<(Operation, bool), StoreError>) {
    Fated(l, CommitCreate(l, r, now), fate)
  }

  ghost function SubmitClaim(l: Ledger, c: Claim, now: int, fate: Fate): (Ledger, Result<(Receipt, bool), StoreError>) {
    Fated(l, CommitClaim(l, c, now), fate)
  }

  function SubmitAcknowledge(l: Ledger, key: (Id, Id), expectedVersion: int, now: int, fate: Fate): (Ledger, Result<Receipt, StoreError>) {
    Fated(l, CommitAcknowledge(l, key, expectedVersion, now), fate)
  }

  lemma SubmitLawful(l: Ledger, id: Id, input: Transition, now: int, fate: Fate)
    requires Lawful(l)
    ensures Lawful(Submit(l, id, input, now, fate).0) && Extends(l, Submit(l, id, input, now, fate).0)
  {
    hide Lawful, Extends, CommitTransition;
    TransitionLawful(l, id, input, now);
    ExtendsReflexive(l);
  }

  class ControlStore {
    var rows: map<Id, Row>
    var receipts: map<(Id, Id), Receipt>
    var tokens: map<Id, Digest>

    ghost function Contents(): Ledger
      reads this
    {
      Ledger(rows, receipts, tokens)
    }

    ghost predicate Valid()
      reads this
    {
      Lawful(Contents())
    }

    constructor ()
      ensures Valid() && Contents() == Ledger(map[], map[], map[])
    {
      rows, receipts, tokens := map[], map[], map[];
    }

    method TransitionOperation(id: Id, input: Transition, now: int, fate: Fate) returns (r: Result<Operation, StoreError>)
      requires Valid()
      modifies this
      ensures Valid() && Extends(old(Contents()), Contents())
      ensures (Contents(), r) == Submit(old(Contents()), id, input, now, fate)
    {
      hide Lawful, Extends, Refusal, Moved, Logged, Active;
      SubmitLawful(Contents(), id, input, now, fate);
      if fate == Unseen(false) {
        return Failure(Unavailable);
      }
      if id !in rows {
        return Failure(if fate.Answered? then Missing else Unavailable);
      }
      var o := rows[id].operation;
      var refusal := Refusal(o, input, now);
      if refusal.None? && Active(input.nextState) {
        var occupied := exists other :: other in rows && other != id && rows[other].operation.nodeId == o.nodeId && Active(rows[other].operation.state);
        if occupied {
          refusal := Some(Clash);
        }
      }
      if refusal.Some? {
        return Failure(if fate.Answered? then refusal.value else Unavailable);
      }
      var p := Moved(o, input, now);
      rows := rows[id := Logged(rows[id], p, input.code, now)];
      r := if fate.Answered? then Success(p) else Failure(Unavailable);
    }

    // The transactions as the worker runs them; below, as their callers see them.
    method InsertOperation(request: NewOperation, now: int) returns (r: Result<(Operation, bool), StoreError>)
      requires Valid()
      modifies this
      ensures Valid() && Extends(old(Contents()), Contents())
      ensures (Contents(), r) == CommitCreate(old(Contents()), request, now)
    {
      hide LawfulRow, Extends, Active;
      CreateLawful(Contents(), request, now);
      if id :| id in rows && rows[id].operation.idempotencyKey == request.idempotencyKey {
        assert KeyTaken(rows, request.idempotencyKey, id);
        assert forall other :: KeyTaken(rows, request.idempotencyKey, other) ==> other == id;
        var prior := rows[id].operation;
        return if SameRequest(prior, request) then Success((prior, true)) else Failure(Clash);
      }
      assert forall id :: !KeyTaken(rows, request.idempotencyKey, id);
      if request.deadlineAtMs <= now || request.deadlineAtMs > now + MAX_OPERATION_DURATION {
        return Failure(Unacceptable);
      }
      if request.nodeId !in tokens {
        return Failure(Missing);
      }
      if request.operationId in rows || !LeaseFree(rows, request.nodeId, request.operationId) {
        return Failure(Clash);
      }
      var row := Drafted(request, now);
      rows := rows[request.operationId := row];
      r := Success((row.operation, false));
    }

    method InsertClaim(claim: Claim, now: int) returns (r: Result<(Receipt, bool), StoreError>)
      requires Valid()
      modifies this
      ensures Valid() && Extends(old(Contents()), Contents())
      ensures (Contents(), r) == CommitClaim(old(Contents()), claim, now)
    {
      hide LawfulRow, Extends, Active, Logged, Superseded;
      ClaimLawful(Contents(), claim, now);
      var key := (claim.nodeId, claim.epoch);
      if claim.nodeId !in tokens {
        return Failure(Missing);
      }
      if tokens[claim.nodeId] != claim.expectedToken {
        return Failure(Clash);
      }
      if key in receipts {
        return if SameClaim(receipts[key], claim) then Success((receipts[key], true)) else Failure(Clash);
      }
      if id :| id in rows && rows[id].operation.nodeId == claim.nodeId && Active(rows[id].operation.state) {
        assert HoldsLease(rows, claim.nodeId, id);
        assert forall other :: HoldsLease(rows, claim.nodeId, other) ==> other == id;
        var o := rows[id].operation;
        if !Supersedable(o, claim) {
          return Failure(Clash);
        }
        rows := rows[id := Logged(rows[id], Superseded(o, now), C.RestoreSuperseded, now)];
      } else {
        assert forall id :: !HoldsLease(rows, claim.nodeId, id);
        if claim.expectedActive.Some? {
          return Failure(Clash);
        }
      }
      receipts := receipts[key := Claimed(claim, now)];
      r := Success((Claimed(claim, now), false));
    }

    method MarkAcknowledged(key: (Id, Id), expectedVersion: int, now: int) returns (r: Result<Receipt, StoreError>)
      requires Valid()
      modifies this
      ensures Valid() && Extends(old(Contents()), Contents())
      ensures (Contents(), r) == CommitAcknowledge(old(Contents()), key, expectedVersion, now)
    {
      hide LawfulRow, RowEvolves;
      ExtendsReflexive(Contents());
      if key !in receipts || key.0 !in tokens {
        return Failure(Missing);
      }
      var receipt := receipts[key];
      if tokens[key.0] != receipt.token {
        return Failure(Clash);
      }
      if receipt.acknowledged {
        return if expectedVersion == receipt.version || expectedVersion == receipt.version - 1 then Success(receipt) else Failure(Clash);
      }
      if receipt.version != expectedVersion || receipt.version == MAX_VERSION {
        return Failure(Clash);
      }
      receipt := receipt.(acknowledged := true, version := receipt.version + 1, updatedAtMs := if now < receipt.updatedAtMs then receipt.updatedAtMs else now);
      receipts := receipts[key := receipt];
      r := Success(receipt);
    }

    method CreateOperation(request: NewOperation, now: int, fate: Fate) returns (r: Result<(Operation, bool), StoreError>)
      requires Valid()
      modifies this
      ensures Valid() && Extends(old(Contents()), Contents())
      ensures (Contents(), r) == SubmitCreate(old(Contents()), request, now, fate)
    {
      hide Lawful, Extends, CommitCreate;
      ExtendsReflexive(Contents());
      if fate != Unseen(false) {
        r := InsertOperation(request, now);
      }
      if fate.Unseen? {
        r := Failure(Unavailable);
      }
    }

    method ClaimRestore(claim: Claim, now: int, fate: Fate) returns (r: Result<(Receipt, bool), StoreError>)
      requires Valid()
      modifies this
      ensures Valid() && Extends(old(Contents()), Contents())
      ensures (Contents(), r) == SubmitClaim(old(Contents()), claim, now, fate)
    {
      hide Lawful, Extends, CommitClaim;
      ExtendsReflexive(Contents());
      if fate != Unseen(false) {
        r := InsertClaim(claim, now);
      }
      if fate.Unseen? {
        r := Failure(Unavailable);
      }
    }

    method Acknowledge(key: (Id, Id), expectedVersion: int, now: int, fate: Fate) returns (r: Result<Receipt, StoreError>)
      requires Valid()
      modifies this
      ensures Valid() && Extends(old(Contents()), Contents())
      ensures (Contents(), r) == SubmitAcknowledge(old(Contents()), key, expectedVersion, now, fate)
    {
      hide Lawful, Extends, CommitAcknowledge;
      ExtendsReflexive(Contents());
      if fate != Unseen(false) {
        r := MarkAcknowledged(key, expectedVersion, now);
      }
      if fate.Unseen? {
        r := Failure(Unavailable);
      }
    }

    // The node's credential is replaced or withdrawn.
    method Rotate(node: Id, token: Option<Digest>)
      requires Valid()
      modifies this`tokens
      ensures Valid() && Extends(old(Contents()), Contents())
      ensures Contents() == Commit(old(Contents()), Transaction.Rotate(node, token), 0)
    {
      hide Lawful, Extends;
      CommitLawful(Contents(), Transaction.Rotate(node, token), 0);
      tokens := if token.Some? then tokens[node := token.value] else tokens - {node};
    }
  }
}

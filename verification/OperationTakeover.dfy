// Taking a node over after its service was restored under a new identity. Consent
// is made durable before the Agent is told, and an operation that still holds the
// node's lease is superseded only if the restored journal does not know it.
module OperationTakeover {
  import opened Basics
  import opened OperationState
  import opened OperationStore
  import opened OperationCoordinator
  import opened OperationWarrants
  import opened OperationHandlers
  import C = ResultCodes

  datatype Stage = NotRestored | Pending | Verified | Acknowledged | Completed

  datatype RestoreInfo = RestoreInfo(
    stage: Stage, epoch: Id, backupServiceId: Id, replacedServiceId: Option<Id>,
    manifestDigest: Digest, contextRevision: Digest, storeDigest: Digest, acknowledgement: Option<Id>)

  // An authenticated answer on the restore lane; invalid information is absent.
  datatype RestoreAnswer = RestoreAnswer(serviceId: Id, code: C.Code, info: Option<RestoreInfo>)

  datatype TakeoverRequest = TakeoverRequest(
    node: Id, serviceId: Id, epoch: Id, manifestDigest: Digest, contextRevision: Digest, storeDigest: Digest,
    expectedActive: Option<(Id, int)>)

  // What the environment contributes: the answers, the fresh receipt identity,
  // the clock, whether the ledger answers, and how the node's credential was
  // changed after the claim, if it was.
  datatype Surroundings = Surroundings(
    inspected: Option<RestoreAnswer>, query: Reply, recording: Recording,
    claimId: Id, claim: Submission, rotation: Option<Option<Digest>>,
    acknowledged: Option<RestoreAnswer>, acknowledgement: Submission)

  predicate DescribesRequest(request: TakeoverRequest, a: RestoreAnswer) {
    && a.code == C.Ok && a.serviceId == request.serviceId && a.info.Some?
    && var i := a.info.value;
    && i.epoch == request.epoch && i.manifestDigest == request.manifestDigest
    && i.contextRevision == request.contextRevision && i.storeDigest == request.storeDigest
    && i.stage in {Verified, Acknowledged, Completed}
  }

  predicate InLineage(o: Operation, info: RestoreInfo) {
    o.serviceId == info.backupServiceId || Some(o.serviceId) == info.replacedServiceId
  }

  predicate Expected(active: Option<Operation>, expected: Option<(Id, int)>) {
    expected == if active.Some? then Some((active.value.operationId, active.value.version)) else None
  }

  function ClaimOf(node: Id, serviceId: Id, info: RestoreInfo, s: Surroundings, token: Digest, active: Option<Operation>): Claim {
    Claim(s.claimId, node, serviceId, info.epoch, info.backupServiceId, info.replacedServiceId, info.manifestDigest,
          info.contextRevision, info.storeDigest, token,
          if active.Some? then Some((active.value.operationId, active.value.version)) else None)
  }

  predicate Accepts(info: RestoreInfo, serviceId: Id, receipt: Id, a: RestoreAnswer) {
    && a.code == C.Ok && a.serviceId == serviceId && a.info.Some?
    && var i := a.info.value;
    && i.epoch == info.epoch && i.manifestDigest == info.manifestDigest && i.contextRevision == info.contextRevision
    && i.storeDigest == info.storeDigest && i.acknowledgement == Some(receipt)
    && i.stage in {Acknowledged, Completed}
  }

  // The restored journal answered that it does not know the operation.
  predicate Unknown(query: Reply) {
    query.Delivered? && query.answer.view.None? && query.answer.code == C.OperationNotFound
  }

  // The answer to a read of the old journal under the new identity counts for the
  // operation's own service.
  function Relabelled(o: Operation, reply: Reply): set<Reply> {
    if reply.Delivered? then {Delivered(reply.answer.(serviceId := o.serviceId))} else {}
  }

  method ActiveOperation(store: ControlStore, node: Id) returns (active: Option<Operation>)
    requires store.Valid()
    ensures active.Some? ==> HoldsLease(store.rows, node, active.value.operationId)
                             && store.rows[active.value.operationId].operation == active.value
    ensures active.None? ==> forall id :: !HoldsLease(store.rows, node, id)
  {
    hide Lawful;
    if id :| id in store.rows && store.rows[id].operation.nodeId == node && Active(store.rows[id].operation.state) {
      RowIdentity(store.Contents(), id);
      return Some(store.rows[id].operation);
    }
    return None;
  }

  lemma RowIdentity(l: Ledger, id: Id)
    requires Lawful(l) && id in l.rows
    ensures l.rows[id].operation.operationId == id && Copy(l, l.rows[id].operation)
  {
    assert LawfulRow(id, l.rows[id]);
  }

  // Recording a finished view without obstacle finishes the operation.
  lemma {:induction false} FinishedViewFinishes(l: Ledger, o: Operation, v: View, ticks: seq<Tick>)
    requires !Active(v.state) && RecordFrom(l, o, v, ticks).obstacle.None?
    ensures RecordFrom(l, o, v, ticks).operation.state == v.state
    decreases |ticks|
  {
    hide Submit, Advance, RecordLate;
    if ticks != [] && Round(l, o, v, ticks[0]).Underway? {
      FinishedViewFinishes(Round(l, o, v, ticks[0]).ledger, Round(l, o, v, ticks[0]).operation, v, ticks[1..]);
    }
  }

  // Settles the leaseholder by its journal before the claim. What remains of it
  // is an operation that the journal does not know.
  method SettleLeaseholder(store: ControlStore, active: Operation, serviceId: Id, query: Reply, recording: Recording)
    returns (ok: bool, remaining: Option<Operation>, ghost acts: seq<Act>)
    requires store.Valid() && Copy(store.Contents(), active) && Active(active.state) && Complete(recording)
    modifies store
    ensures store.Valid()
    ensures Handled(old(store.Contents()), store.Contents(), acts, Relabelled(active, query)) && OnlyIssues(acts)
    ensures Unknown(query) && query.answer.serviceId == serviceId ==> ok && remaining.Some?
    ensures ok ==> query.Delivered? && query.answer.serviceId == serviceId
    ensures ok && remaining.Some? ==> Unknown(query) && remaining.value == active && store.Contents() == old(store.Contents())
    ensures query.Delivered? && query.answer.serviceId == serviceId && query.answer.view.Some? && Matches(active, query.answer.(serviceId := active.serviceId))
            && !Active(query.answer.view.value.state) ==>
              var recorded := Record(old(store.Contents()), active, query.answer.(serviceId := active.serviceId), recording.now, recording.ticks);
              store.Contents() == recorded.ledger && (ok <==> recorded.obstacle.None?)
    ensures ok && remaining.None? ==> query.Delivered? && query.answer.view.Some? && !Active(query.answer.view.value.state)
                                      && Matches(active, query.answer.(serviceId := active.serviceId))
  {
    hide Lawful, Handled, Evolves, Consistent, RecordFrom, Matches;
    ok, remaining, acts := false, None, [];
    HandledNothing(store.Contents(), Relabelled(active, query));
    if query.Undelivered? || query.answer.serviceId != serviceId {
      return;
    }
    if query.answer.view.None? {
      return query.answer.code == C.OperationNotFound, Some(active), acts;
    }
    var a := query.answer.(serviceId := active.serviceId);
    if !Matches(active, a) || Active(a.view.value.state) {
      return;
    }
    var o, obstacle;
    ghost var l := store.Contents();
    o, obstacle, acts := RecordReply(store, active, a, recording);
    if obstacle.Some? {
      return;
    }
    if !AlreadyRecorded(active, a.view.value, recording.now) {
      FinishedViewFinishes(l, active, a.view.value, recording.ticks);
    }
    remaining := if Active(o.state) then Some(o) else None;
    ok := true;
  }

  lemma ClaimFreesNode(l: Ledger, c: Claim, now: int)
    requires Lawful(l)
    ensures var (m, answer) := CommitClaim(l, c, now);
            answer.Success? ==>
              && (c.nodeId, c.epoch) in m.receipts && m.receipts[(c.nodeId, c.epoch)] == answer.value.0
              && SameClaim(answer.value.0, c) && c.nodeId in m.tokens && m.tokens[c.nodeId] == c.expectedToken
              && ((c.nodeId, c.epoch) !in l.receipts ==> !answer.value.0.acknowledged && forall id :: !HoldsLease(m.rows, c.nodeId, id))
  {
    forall holder | HoldsLease(l.rows, c.nodeId, holder)
      ensures forall id :: !HoldsLease(WithSuperseded(l, holder, now), c.nodeId, id)
    {
      SupersedingFrees(l, c.nodeId, holder, now);
    }
    hide Lawful, HoldsLease, Superseded, Logged;
  }

  function WithSuperseded(l: Ledger, holder: Id, now: int): map<Id, Row>
    requires holder in l.rows
  {
    l.rows[holder := Logged(l.rows[holder], Superseded(l.rows[holder].operation, now), C.RestoreSuperseded, now)]
  }

  lemma SupersedingFrees(l: Ledger, node: Id, holder: Id, now: int)
    requires Lawful(l) && HoldsLease(l.rows, node, holder)
    ensures forall id :: !HoldsLease(WithSuperseded(l, holder, now), node, id)
  {
    hide LawfulRow, Active;
    forall id ensures !HoldsLease(WithSuperseded(l, holder, now), node, id) {
      CancelledIsFinal();
      if id in l.rows && id != holder {
        assert Compatible(l.rows[holder].operation, l.rows[id].operation);
      }
    }
  }

  // The administrator saw who holds the lease of the node: nobody, or the operation
  // named in the request, at that version and of the restored lineage.
  ghost predicate AsSeen(rows: map<Id, Row>, request: TakeoverRequest, info: RestoreInfo) {
    match request.expectedActive
    case None => forall id :: !HoldsLease(rows, request.node, id)
    case Some((id, version)) =>
      && HoldsLease(rows, request.node, id) && rows[id].operation.version == version
      && (rows[id].operation.serviceId == info.backupServiceId || Some(rows[id].operation.serviceId) == info.replacedServiceId)
  }

  // The expected situation: nobody holds the lease; or the operation the request
  // names does, from the restored lineage, and the restored journal does not know it.
  ghost predicate Claimable(l: Ledger, request: TakeoverRequest, info: RestoreInfo, query: Reply) {
    && request.node in l.tokens && (request.node, info.epoch) !in l.receipts
    && (request.expectedActive.None? ==> forall id :: !HoldsLease(l.rows, request.node, id))
    && (request.expectedActive.Some? ==>
        && Unknown(query) && query.answer.serviceId == request.serviceId
        && HoldsLease(l.rows, request.node, request.expectedActive.value.0)
        && var o := l.rows[request.expectedActive.value.0].operation;
           o.version == request.expectedActive.value.1 && o.version < MAX_VERSION && InLineage(o, info))
  }

  // An earlier request made this claim durable, and nothing holds the lease since.
  ghost predicate Replayable(l: Ledger, request: TakeoverRequest, info: RestoreInfo, s: Surroundings, token: Digest) {
    && request.node in l.tokens && l.tokens[request.node] == token
    && (request.node, info.epoch) in l.receipts
    && SameClaim(l.receipts[(request.node, info.epoch)], ClaimOf(request.node, request.serviceId, info, s, token, None))
    && forall id :: !HoldsLease(l.rows, request.node, id)
  }

  lemma OneHolder(l: Ledger, node: Id, a: Id, b: Id)
    requires Lawful(l) && HoldsLease(l.rows, node, a) && HoldsLease(l.rows, node, b)
    ensures a == b
  {
    assert a != b ==> Compatible(l.rows[a].operation, l.rows[b].operation);
    hide LawfulRow;
  }

  // In the expected situation the claim succeeds.
  lemma ClaimSucceeds(l: Ledger, c: Claim, now: int)
    requires Lawful(l) && c.nodeId in l.tokens && l.tokens[c.nodeId] == c.expectedToken && (c.nodeId, c.epoch) !in l.receipts
    requires c.expectedActive.None? ==> forall id :: !HoldsLease(l.rows, c.nodeId, id)
    requires c.expectedActive.Some? ==>
      HoldsLease(l.rows, c.nodeId, c.expectedActive.value.0) && Supersedable(l.rows[c.expectedActive.value.0].operation, c)
    ensures CommitClaim(l, c, now).1.Success?
  {
    if exists id :: HoldsLease(l.rows, c.nodeId, id) {
      forall id | HoldsLease(l.rows, c.nodeId, id) ensures id == c.expectedActive.value.0 {
        OneHolder(l, c.nodeId, id, c.expectedActive.value.0);
      }
    }
    hide Lawful, HoldsLease, Superseded, Logged;
  }

  // A claim reaches the ledger, or is lost with its answer. A repeated claim gets the
  // receipt of the first.
  method SubmitTake(store: ControlStore, c: Claim, s: Submission) returns (claimed: Result<(Receipt, bool), StoreError>, ghost acts: seq<Act>)
    requires store.Valid()
    modifies store
    ensures store.Valid() && (store.Contents(), claimed) == SubmitClaim(old(store.Contents()), c, s.at, s.fate)
    ensures Handled(old(store.Contents()), store.Contents(), acts, {})
    ensures forall i :: 0 <= i < |acts| ==> acts[i] == Other(Take(c), s.at)
    ensures forall key :: key in old(store.receipts) ==> key in store.receipts && store.receipts[key] == old(store.receipts)[key]
    ensures var key := (c.nodeId, c.epoch);
            claimed.Success? ==>
              && key in store.receipts && store.receipts[key] == claimed.value.0
              && SameClaim(claimed.value.0, c) && c.nodeId in store.tokens && store.tokens[c.nodeId] == c.expectedToken
              && (key !in old(store.receipts) ==> !claimed.value.0.acknowledged && forall id :: !HoldsLease(store.rows, c.nodeId, id))
    ensures var key := (c.nodeId, c.epoch);
            c.nodeId in old(store.tokens) && old(store.tokens)[c.nodeId] == c.expectedToken && key in old(store.receipts) && s.fate.Answered? ==>
              && store.Contents() == old(store.Contents())
              && (SameClaim(old(store.receipts)[key], c) ==> claimed == Success((old(store.receipts)[key], true)))
  {
    hide Lawful, Handled, HoldsLease, Extends;
    ghost var l := store.Contents();
    ghost var act := Other(Take(c), s.at);
    ClaimFreesNode(l, c, s.at);
    ClaimKeepsReceipt(l, c, s.at);
    ClaimRepeated(l, c, s.at);
    hide CommitClaim;
    HandledOne(l, act);
    HandledNothing(l, {});
    claimed := store.ClaimRestore(c, s.at, s.fate);
    acts := if s.fate == Unseen(false) then [] else [act];
  }

  lemma ClaimRepeated(l: Ledger, c: Claim, now: int)
    ensures var key := (c.nodeId, c.epoch);
            c.nodeId in l.tokens && l.tokens[c.nodeId] == c.expectedToken && key in l.receipts ==>
              && CommitClaim(l, c, now).0 == l
              && (SameClaim(l.receipts[key], c) ==> CommitClaim(l, c, now).1 == Success((l.receipts[key], true)))
  {
    hide HoldsLease, Superseded, Logged;
  }

  // The agreed operation is settled and the claim made durable, or nothing is claimed.
  method ClaimNode(store: ControlStore, request: TakeoverRequest, info: RestoreInfo, token: Digest, s: Surroundings)
    returns (receipt: Option<Receipt>, ghost acts: seq<Act>, ghost replies: set<Reply>)
    requires store.Valid() && Complete(s.recording) && info.epoch == request.epoch
    modifies store
    ensures store.Valid() && Handled(old(store.Contents()), store.Contents(), acts, replies)
    ensures forall i :: 0 <= i < |acts| && acts[i].Other? ==>
              && acts[i].transaction.Take?
              && (acts[i].transaction.claim.expectedActive.Some? ==> Unknown(s.query))
    ensures receipt.Some? ==>
              var c := ClaimOf(request.node, request.serviceId, info, s, token, None);
              && (request.node, info.epoch) in store.receipts && store.receipts[(request.node, info.epoch)] == receipt.value
              && SameClaim(receipt.value, c) && request.node in store.tokens && store.tokens[request.node] == token
              && ((request.node, info.epoch) !in old(store.receipts) ==> !receipt.value.acknowledged && forall id :: !HoldsLease(store.rows, request.node, id))
    ensures (request.node, info.epoch) !in old(store.receipts) && !AsSeen(old(store.rows), request, info) ==>
              receipt.None? && store.Contents() == old(store.Contents())
    ensures Claimable(old(store.Contents()), request, info, s.query) && old(store.tokens)[request.node] == token && s.claim.fate.Answered? ==>
              receipt.Some?
    ensures Replayable(old(store.Contents()), request, info, s, token) && s.claim.fate.Answered? ==>
              receipt == Some(old(store.receipts)[(request.node, info.epoch)]) && store.Contents() == old(store.Contents())
    ensures (request.node, info.epoch) in old(store.receipts) ==>
              && (request.node, info.epoch) in store.receipts
              && store.receipts[(request.node, info.epoch)] == old(store.receipts)[(request.node, info.epoch)]
  {
    hide Lawful, Handled, Copy, Active, CommitClaim, HoldsLease, Extends, Matches, Relabelled, Unknown;
    receipt, acts, replies := None, [], {};
    ghost var l := store.Contents();
    HandledNothing(l, {});
    var active := ActiveOperation(store, request.node);
    if active.Some? && Claimable(l, request, info, s.query) {
      OneHolder(l, request.node, active.value.operationId, request.expectedActive.value.0);
    }
    if (request.node, info.epoch) !in store.receipts && !Expected(active, request.expectedActive) {
      return;
    }
    if active.Some? {
      if !InLineage(active.value, info) {
        return;
      }
      var ok;
      HolderCopy(l, request.node, active.value);
      replies := Relabelled(active.value, s.query);
      ok, active, acts := SettleLeaseholder(store, active.value, request.serviceId, s.query, s.recording);
      HandledReceipts(l, store.Contents(), acts, replies);
      if !ok {
        return;
      }
    }
    ghost var m := store.Contents();
    var claim := ClaimOf(request.node, request.serviceId, info, s, token, active);
    if Claimable(l, request, info, s.query) && l.tokens[request.node] == token {
      ClaimSucceeds(m, claim, s.claim.at);
    }
    var claimed;
    ghost var more;
    claimed, more := SubmitTake(store, claim, s.claim);
    HandledAlso(l, m, store.Contents(), acts, more, replies, {});
    acts := acts + more;
    if claimed.Success? {
      receipt := Some(claimed.value.0);
    }
  }

  lemma HolderCopy(l: Ledger, node: Id, o: Operation)
    requires Lawful(l) && HoldsLease(l.rows, node, o.operationId) && l.rows[o.operationId].operation == o
    ensures Copy(l, o) && Active(o.state)
  {
    RowIdentity(l, o.operationId);
  }

  lemma ClaimKeepsReceipt(l: Ledger, c: Claim, now: int)
    ensures forall key :: key in l.receipts ==> key in CommitClaim(l, c, now).0.receipts && CommitClaim(l, c, now).0.receipts[key] == l.receipts[key]
  {
  }

  // Submissions of transitions leave the receipts alone.
  lemma {:induction false} HandledReceipts(l: Ledger, m: Ledger, acts: seq<Act>, replies: set<Reply>)
    requires Handled(l, m, acts, replies) && OnlyIssues(acts)
    ensures m.receipts == l.receipts
    decreases |acts|
  {
    hide Permitted, Refusal, Moved, Logged, LeaseFree, Cited;
    if acts != [] {
      HandledReceipts(Perform(l, acts[0]), m, acts[1..], replies);
    }
  }

  // The node's credential is read again after the claim; meanwhile it may have been
  // replaced or withdrawn.
  method Recheck(store: ControlStore, node: Id, token: Digest, rotation: Option<Option<Digest>>) returns (live: bool, ghost acts: seq<Act>)
    requires store.Valid() && node in store.tokens && store.tokens[node] == token
    modifies store
    ensures store.Valid() && store.rows == old(store.rows) && store.receipts == old(store.receipts)
    ensures Handled(old(store.Contents()), store.Contents(), acts, {})
    ensures forall i :: 0 <= i < |acts| ==> acts[i].Other? && acts[i].transaction.Rotate?
    ensures live <==> rotation.None? || rotation == Some(Some(token))
    ensures live ==> node in store.tokens && store.tokens[node] == token
  {
    hide Lawful, Handled, Extends;
    acts := [];
    HandledNothing(store.Contents(), {});
    if rotation.Some? {
      ghost var act := Other(Transaction.Rotate(node, rotation.value), 0);
      HandledOne(store.Contents(), act);
      store.Rotate(node, rotation.value);
      acts := [act];
    }
    live := node in store.tokens && store.tokens[node] == token;
  }

  // The takeover request. The Agent is told of it only after the claim is durable,
  // and the receipt is acknowledged only on an answer that names this receipt.
  method TakeOver(store: ControlStore, request: TakeoverRequest, s: Surroundings)
    returns (code: Option<C.Code>, told: bool, ghost acts: seq<Act>, ghost replies: set<Reply>)
    requires store.Valid() && Complete(s.recording)
    modifies store
    ensures store.Valid() && Extends(old(store.Contents()), store.Contents())
    ensures Handled(old(store.Contents()), store.Contents(), acts, replies)
    ensures s.inspected.None? || !DescribesRequest(request, s.inspected.value) ==> !told && acts == []
    ensures forall i :: 0 <= i < |acts| && acts[i].Other? && acts[i].transaction.Take? && acts[i].transaction.claim.expectedActive.Some? ==>
              Unknown(s.query)
    ensures s.inspected.Some? && DescribesRequest(request, s.inspected.value) && s.claim.fate.Answered?
            && (Claimable(old(store.Contents()), request, s.inspected.value.info.value, s.query)
                || (request.node in old(store.tokens)
                    && Replayable(old(store.Contents()), request, s.inspected.value.info.value, s, old(store.tokens)[request.node]))) ==>
              (told <==> s.rotation.None? || s.rotation == Some(Some(old(store.tokens)[request.node])))
    ensures told && code.Some? && s.acknowledged.Some? ==>
              var key := (request.node, request.epoch);
              && key in store.receipts
              && (Accepts(s.inspected.value.info.value, request.serviceId, store.receipts[key].id, s.acknowledged.value) ==>
                  store.receipts[key].acknowledged)
    ensures s.inspected.Some? && DescribesRequest(request, s.inspected.value) && (request.node, request.epoch) !in old(store.receipts)
            && !AsSeen(old(store.rows), request, s.inspected.value.info.value) ==>
              !told && store.Contents() == old(store.Contents())
    ensures told ==>
              var key := (request.node, request.epoch);
              && key in store.receipts && request.node in store.tokens
              && SameClaim(store.receipts[key], ClaimOf(request.node, request.serviceId, s.inspected.value.info.value, s, store.tokens[request.node], None))
              && (key !in old(store.receipts) ==> forall id :: !HoldsLease(store.rows, request.node, id))
              && (store.receipts[key].acknowledged ==>
                  || (key in old(store.receipts) && old(store.receipts)[key].acknowledged)
                  || (s.acknowledged.Some? && Accepts(s.inspected.value.info.value, request.serviceId, store.receipts[key].id, s.acknowledged.value)))
  {
    hide Lawful, Handled, Extends, HoldsLease, Accepts;
    code, told, acts, replies := None, false, [], {};
    ghost var l := store.Contents();
    HandledNothing(l, {});
    PlayLawful(l, []);
    NoActs(l);
    if request.node !in store.tokens || s.inspected.None? || !DescribesRequest(request, s.inspected.value) {
      return;
    }
    var token := store.tokens[request.node];
    var info := s.inspected.value.info.value;
    var key := (request.node, request.epoch);
    var receipt;
    receipt, acts, replies := ClaimNode(store, request, info, token, s);
    HandledExtends(l, store.Contents(), acts, replies);
    if receipt.None? {
      return;
    }
    ghost var m := store.Contents();
    ghost var more;
    told, more := Recheck(store, request.node, token, s.rotation);
    HandledAlso(l, m, store.Contents(), acts, more, replies, {});
    acts := acts + more;
    HandledExtends(l, store.Contents(), acts, replies);
    m := store.Contents();
    if !told {
      return;
    }
    code, more := Conclude(store, request, info, receipt.value, s);
    HandledAlso(l, m, store.Contents(), acts, more, replies, {});
    acts := acts + more;
    HandledExtends(l, store.Contents(), acts, replies);
  }

  // The Agent was told; its answer, if it names the receipt, makes the receipt acknowledged.
  method Conclude(store: ControlStore, request: TakeoverRequest, info: RestoreInfo, receipt: Receipt, s: Surroundings)
    returns (code: Option<C.Code>, ghost acts: seq<Act>)
    requires store.Valid() && (request.node, request.epoch) in store.receipts && store.receipts[(request.node, request.epoch)] == receipt
    modifies store
    ensures store.Valid() && store.rows == old(store.rows) && store.tokens == old(store.tokens)
    ensures Handled(old(store.Contents()), store.Contents(), acts, {})
    ensures forall i :: 0 <= i < |acts| ==> acts[i].Other? && acts[i].transaction.Acknowledge?
    ensures (request.node, request.epoch) in store.receipts
    ensures var next := store.receipts[(request.node, request.epoch)];
            && next.(acknowledged := receipt.acknowledged, version := receipt.version, updatedAtMs := receipt.updatedAtMs) == receipt
            && (next != receipt ==> s.acknowledged.Some? && Accepts(info, request.serviceId, receipt.id, s.acknowledged.value))
            && (code.Some? && s.acknowledged.Some? && Accepts(info, request.serviceId, receipt.id, s.acknowledged.value) ==> next.acknowledged)
  {
    hide Lawful, Handled, Extends, Accepts;
    acts := [];
    HandledNothing(store.Contents(), {});
    if s.acknowledged.None? {
      return Some(C.Unavailable), acts;
    }
    code := Some(s.acknowledged.value.code);
    if Accepts(info, request.serviceId, receipt.id, s.acknowledged.value) {
      ghost var act := Other(Acknowledge((request.node, request.epoch), receipt.version), s.acknowledgement.at);
      HandledOne(store.Contents(), act);
      var done := store.Acknowledge((request.node, request.epoch), receipt.version, s.acknowledgement.at, s.acknowledgement.fate);
      if s.acknowledgement.fate != Unseen(false) {
        acts := [act];
      }
      if done.Failure? {
        code := None;
      }
    } else if s.acknowledged.value.code == C.Ok {
      code := Some(C.Conflict);
    }
  }

  // A claim that was committed while its answer was lost is found by the same
  // request made again, which then gets the receipt that is already there.
  lemma LostClaimReplayable(l: Ledger, request: TakeoverRequest, info: RestoreInfo, s: Surroundings, again: Surroundings, token: Digest, active: Option<Operation>)
    requires Lawful(l) && info.epoch == request.epoch && (request.node, info.epoch) !in l.receipts
    requires var c := ClaimOf(request.node, request.serviceId, info, s, token, active);
             s.claim.fate == Unseen(true) && CommitClaim(l, c, s.claim.at).1.Success?
    ensures var c := ClaimOf(request.node, request.serviceId, info, s, token, active);
            var (m, answer) := SubmitClaim(l, c, s.claim.at, s.claim.fate);
            && answer == Failure(Unavailable) && Lawful(m) && Replayable(m, request, info, again, token)
            && SubmitClaim(m, ClaimOf(request.node, request.serviceId, info, again, token, None), again.claim.at, Answered) ==
               (m, Success((Claimed(c, s.claim.at), true)))
  {
    var c := ClaimOf(request.node, request.serviceId, info, s, token, active);
    ClaimFreesNode(l, c, s.claim.at);
    ClaimLawful(l, c, s.claim.at);
    NewReceipt(l, c, s.claim.at);
    hide Lawful, HoldsLease, Extends;
    ClaimRepeated(CommitClaim(l, c, s.claim.at).0, ClaimOf(request.node, request.serviceId, info, again, token, None), again.claim.at);
    hide CommitClaim;
  }

  lemma NewReceipt(l: Ledger, c: Claim, now: int)
    requires (c.nodeId, c.epoch) !in l.receipts && CommitClaim(l, c, now).1.Success?
    ensures CommitClaim(l, c, now).1.value.0 == Claimed(c, now)
  {
    hide HoldsLease, Superseded, Logged;
  }

  lemma HandledExtends(l: Ledger, m: Ledger, acts: seq<Act>, replies: set<Reply>)
    requires Lawful(l) && Handled(l, m, acts, replies)
    ensures Extends(l, m)
  {
    PlayLawful(l, acts);
  }
}

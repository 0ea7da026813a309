// What warrants a change of the ledger. Every handler acts on its own copy of an
// operation and on what the Agent answered, or failed to answer; here are the
// grounds on which it may submit a transition, and what follows for every
// interleaving of such submissions, restore takeovers and credential changes. One
// of the grounds is silence: an upload that nobody answered rejects a fresh draft.
module OperationWarrants {
  import opened Basics
  import opened OperationState
  import opened OperationStore
  import opened OperationCoordinator
  import C = ResultCodes

  // The outcome of one command: an authenticated answer, or an error code with
  // or without the proof that the command never entered a queue.
  datatype Reply = Delivered(answer: Answer) | Undelivered(code: FailureCode, notSent: bool)

  type FailureCode = c: C.Code
    | c in {C.ServerRestorePending, C.Busy, C.ServiceMismatch, C.InvalidRequest, C.Timeout, C.Unavailable}
    witness C.Unavailable

  datatype Action = Apply | Rollback | Cancel

  datatype Warrant =
    | Observed(answer: Answer, tick: Tick)   // the journal shows the operation
    | Reobserved(answer: Answer, tick: Tick) // the same view, kept under outcome_unknown
    | Historical(answer: Answer, at: Millis) // a finished operation read through its restore lineage
    | Intended(action: Action)               // persisted before the command is sent
    | Stored(upload: Reply)                  // a secret was stored by the Agent
    | Unuploaded(upload: Reply)              // no answer confirms that a secret was stored, so no prepare is sent
    | Unsent(prepare: Reply)                 // the prepare never entered a queue
    | Refused(prepare: Reply)                // the Agent answered the prepare without a journal entry
    | Absent(query: Reply)                   // the journal does not know the operation
    | Silent(code: C.Code)                   // nothing is known

  // The codes with which the Agent refuses a prepare before it writes its journal.
  function PrepareFailureState(code: C.Code): State {
    if code in {C.Conflict, C.SourceConflict, C.SourceDrift, C.RevisionConflict, C.OwnershipConflict, C.DependencyConflict,
                C.SourceChanged, C.AlreadyExists} then Conflict
    else if code in {C.InvalidRequest, C.Unauthorized, C.Unsupported, C.Expired, C.InvalidConfig, C.ValidationFailed, C.ManagedCapacity} then
      Rejected
    else if C.IssueCode(code) && code != C.NativeWarning && code != C.StartFiltered then Rejected
    else OutcomeUnknown
  }

  // The refusals that leave no journal entry behind, by the state they lead to. After
  // any other code the journal may have been written.
  predicate Conflicting(code: C.Code) {
    match code
    case Conflict | SourceConflict | SourceDrift | RevisionConflict => true
    case OwnershipConflict | DependencyConflict | SourceChanged | AlreadyExists => true
    case _ => false
  }

  predicate Rejecting(code: C.Code) {
    match code
    case InvalidRequest | Unauthorized | Unsupported | Expired => true
    case InvalidConfig | ValidationFailed | ManagedCapacity => true
    case LimitExceeded | UnsupportedDependency | InvalidTemplate | InvalidSource => true
    case UnsupportedSource | LegacyReadOnly | StoreUnavailable | DuplicateName => true
    case SourceReadOnly | AdvancedReadOnly | InvalidMemory | InvalidChange => true
    case FieldReadOnly | InvalidSecret | InvalidSecretReference | SecretReferenceUnavailable => true
    case RuntimeCapabilityRequired | DuplicateChange | InvalidType | NotFound => true
    case InvalidField | DuplicateKey | InvalidKind | InvalidName => true
    case _ => false
  }

  lemma RefusalsByCode(code: C.Code)
    ensures PrepareFailureState(code) == Conflict <==> Conflicting(code)
    ensures PrepareFailureState(code) == Rejected <==> Rejecting(code)
    ensures PrepareFailureState(code) == OutcomeUnknown <==> !Conflicting(code) && !Rejecting(code)
  {
  }

  function Intent(action: Action): State {
    match action
    case Apply => Applying
    case Rollback => RollingBack
    case Cancel => OutcomeUnknown
  }

  predicate ActionFits(o: Operation, action: Action) {
    match action
    case Apply => o.state == Prepared && o.agent.Some?
    case Rollback => o.state in {Confirmed, RollbackFailed, OutcomeUnknown} && o.agent.Some?
    case Cancel => o.state in {Prepared, Draft, OutcomeUnknown}
  }

  predicate Fresh(o: Operation) {
    o.state == Draft && o.agent.None? && o.candidate.None?
  }

  predicate OnlyMaterialsDiffer(v: View, w: View) {
    v.Business() == w.Business()
  }

  predicate Warranted(o: Operation, input: Transition, w: Warrant) {
    match w
    case Observed(a, t) => Matches(o, a) && input == Advance(o, a.view.value, t)
    case Reobserved(a, t) => Matches(o, a) && Late(o, a.view.value, t) && input == Confirmation(o, a.view.value, t)
    case Historical(a, at) =>
      && !Active(o.state) && o.agent.Some? && a.view.Some?
      && Matches(o.(serviceId := a.serviceId), a)
      && a.view.value.state == o.state && OnlyMaterialsDiffer(o.agent.value, a.view.value)
      && input == Proposal(o, o.state, C.Recovered, a.view, at)
    case Intended(action) => ActionFits(o, action) && input == Proposal(o, Intent(action), StateCode(Intent(action)), None, 0)
    case Stored(upload) =>
      && Fresh(o) && upload.Delivered? && upload.answer.code == C.Ok
      && input == Proposal(o, Draft, C.SecretStored, None, 0)
    case Unuploaded(upload) =>
      && Fresh(o) && (upload.Delivered? ==> upload.answer.code != C.Ok)
      && input == Proposal(o, Rejected, if upload.Delivered? then upload.answer.code else upload.code, None, 0)
    case Unsent(prepare) =>
      Fresh(o) && prepare.Undelivered? && prepare.notSent && input == Proposal(o, Rejected, prepare.code, None, 0)
    case Refused(prepare) =>
      && Fresh(o) && prepare.Delivered? && prepare.answer.view.None?
      && input == Proposal(o, PrepareFailureState(prepare.answer.code), prepare.answer.code, None, 0)
    case Absent(query) =>
      && query.Delivered? && query.answer.serviceId == o.serviceId && query.answer.operationId == o.operationId
      && query.answer.code == C.OperationNotFound && query.answer.view.None?
      && o.state in {Draft, OutcomeUnknown} && o.candidate.None?
      && input == Proposal(o, Cancelled, C.OperationNotFound, None, 0)
    case Silent(code) => Active(o.state) && input == Proposal(o, OutcomeUnknown, code, None, 0)
  }

  /* Runs */

  // A submission by a handler, or any other transaction of the control plane.
  datatype Act =
    | Issue(operation: Operation, input: Transition, warrant: Warrant, at: int, fate: Fate)
    | Other(transaction: Transaction, when: int)

  // The handler's copy of an operation may be older than the ledger's row.
  predicate Copy(l: Ledger, o: Operation) {
    Consistent(o) && o.operationId in l.rows && Evolves(o, l.rows[o.operationId].operation)
  }

  predicate Permitted(l: Ledger, act: Act) {
    match act
    case Issue(o, input, w, _, _) => Copy(l, o) && Warranted(o, input, w)
    case Other(transaction, _) => !transaction.Move?
  }

  ghost function Perform(l: Ledger, act: Act): Ledger {
    match act
    case Issue(o, input, _, at, fate) => Submit(l, o.operationId, input, at, fate).0
    case Other(transaction, at) => Commit(l, transaction, at)
  }

  ghost function Play(l: Ledger, acts: seq<Act>): Ledger
    decreases |acts|
  {
    if acts == [] then l else Play(Perform(l, acts[0]), acts[1..])
  }

  ghost predicate PermittedRun(l: Ledger, acts: seq<Act>)
    decreases |acts|
  {
    acts == [] || (Permitted(l, acts[0]) && PermittedRun(Perform(l, acts[0]), acts[1..]))
  }

  lemma {:induction false} Concatenated(l: Ledger, before: seq<Act>, after: seq<Act>)
    ensures Play(l, before + after) == Play(Play(l, before), after)
    ensures PermittedRun(l, before + after) <==> PermittedRun(l, before) && PermittedRun(Play(l, before), after)
    decreases |before|
  {
    hide Perform, Permitted;
    if before == [] {
      assert before + after == after;
    } else {
      assert (before + after)[1..] == before[1..] + after;
      Concatenated(Perform(l, before[0]), before[1..], after);
    }
  }

  lemma PerformLawful(l: Ledger, act: Act)
    requires Lawful(l)
    ensures Lawful(Perform(l, act)) && Extends(l, Perform(l, act))
  {
    hide Lawful, Extends, Commit, Submit;
    match act
    case Issue(o, input, _, at, fate) => SubmitLawful(l, o.operationId, input, at, fate);
    case Other(transaction, at) => CommitLawful(l, transaction, at);
  }

  lemma {:induction false} PlayLawful(l: Ledger, acts: seq<Act>)
    requires Lawful(l)
    ensures Lawful(Play(l, acts)) && Extends(l, Play(l, acts))
    decreases |acts|
  {
    hide Lawful, Extends, Perform;
    if acts == [] {
      ExtendsReflexive(l);
    } else {
      PerformLawful(l, acts[0]);
      PlayLawful(Perform(l, acts[0]), acts[1..]);
      ExtendsTransitive(l, Perform(l, acts[0]), Play(l, acts));
    }
  }

  /* The lease */

  // The grounds on which an active operation o may end in the state s.
  predicate Releases(o: Operation, s: State, w: Warrant) {
    match w
    case Observed(a, _) => Matches(o, a) && a.view.value.state == s
    case Unuploaded(upload) => s == Rejected && Fresh(o) && (upload.Delivered? ==> upload.answer.code != C.Ok)
    case Unsent(prepare) => s == Rejected && Fresh(o) && prepare.Undelivered? && prepare.notSent
    case Refused(prepare) =>
      && Fresh(o) && prepare.Delivered? && prepare.answer.view.None?
      && ((s == Conflict && Conflicting(prepare.answer.code)) || (s == Rejected && Rejecting(prepare.answer.code)))
    case Absent(query) =>
      && s == Cancelled && o.candidate.None? && query.Delivered? && query.answer.code == C.OperationNotFound
      && query.answer.serviceId == o.serviceId && query.answer.operationId == o.operationId
    case _ => false
  }

  lemma OnlyGroundsRelease(o: Operation, input: Transition, w: Warrant, now: int)
    requires Warranted(o, input, w) && Refusal(o, input, now).None?
    requires Active(o.state) && !Active(input.nextState)
    ensures Releases(o, input.nextState, w)
  {
    if w.Refused? {
      RefusalsByCode(w.prepare.answer.code);
    }
    hide PrepareFailureState, Conflicting, Rejecting;
  }

  // An intent never releases, and history changes nothing but the materials.
  lemma IntentAndHistoryKeepLease(o: Operation, input: Transition, w: Warrant, now: int)
    requires Warranted(o, input, w) && Refusal(o, input, now).None?
    ensures w.Reobserved? ==> input.nextState == OutcomeUnknown
    ensures w.Intended? || w.Stored? ==> Active(input.nextState)
    ensures w.Historical? ==>
      var p := Moved(o, input, now);
      p.(version := o.version, updatedAtMs := o.updatedAtMs, agent := o.agent, agentReceivedAtMs := o.agentReceivedAtMs) == o
      && p.agent.value.Business() == o.agent.value.Business()
  {
  }

  // A command that may have reached the Agent, and to which nobody heard an answer.
  predicate Unheard(r: Reply) {
    r.Undelivered? && !r.notSent
  }

  // A submission on silence: nothing is known, or it cites a reply that was not heard.
  predicate OnSilence(w: Warrant) {
    w.Silent? || exists r :: r in Cited(w) && Unheard(r)
  }

  // Silence leaves an operation unknown, with one exception: an upload that was not
  // heard of rejects the draft that it was made for, and so releases its lease.
  lemma SilenceReleasesExactlyUploads(o: Operation, input: Transition, w: Warrant, now: int)
    requires Warranted(o, input, w) && Refusal(o, input, now).None? && Active(o.state) && OnSilence(w)
    ensures !Active(input.nextState) <==> w.Unuploaded?
    ensures w.Unuploaded? ==> Fresh(o) && input.nextState == Rejected
    ensures !w.Unuploaded? ==> input.nextState == OutcomeUnknown
  {
  }

  predicate Held(l: Ledger, id: Id) {
    id in l.rows && Active(l.rows[id].operation.state)
  }

  // The act takes the lease from the operation, on one of the listed grounds.
  predicate Frees(l: Ledger, m: Ledger, act: Act, id: Id) {
    && Held(l, id) && id in m.rows && !Active(m.rows[id].operation.state)
    && match act
       case Issue(o, _, w, _, _) =>
         o == l.rows[id].operation && Releases(o, m.rows[id].operation.state, w)
       case Other(transaction, _) =>
         && transaction.Take? && transaction.claim.nodeId == l.rows[id].operation.nodeId
         && m.rows[id].operation.state == Cancelled && Supersedable(l.rows[id].operation, transaction.claim)
  }

  lemma ActFrees(l: Ledger, act: Act, id: Id)
    requires Lawful(l) && Permitted(l, act)
    requires Held(l, id) && !Held(Perform(l, act), id)
    ensures Frees(l, Perform(l, act), act, id)
  {
    PerformLawful(l, act);
    match act
    case Issue(o, input, w, at, fate) =>
      assert LawfulRow(id, l.rows[id]);
      hide Lawful, LawfulRow, Extends, Warranted;
      IssueFrees(l, o, input, w, at, fate, id);
    case Other(transaction, at) =>
      hide LawfulLog, Consistent, RowEvolves, ReceiptEvolves, Compatible;
      OtherFrees(l, transaction, at, id);
  }

  lemma IssueFrees(l: Ledger, o: Operation, input: Transition, w: Warrant, at: int, fate: Fate, id: Id)
    requires Copy(l, o) && Warranted(o, input, w) && id in l.rows && l.rows[id].operation.operationId == id
    requires Active(l.rows[id].operation.state)
    requires var m := Submit(l, o.operationId, input, at, fate).0; id in m.rows && !Active(m.rows[id].operation.state)
    ensures o == l.rows[id].operation && Releases(o, Submit(l, o.operationId, input, at, fate).0.rows[id].operation.state, w)
  {
    VersionExpected(o, input, w);
    Submitted(l, o, input, at, fate);
    hide Warranted, Submit, Refusal, Active, Releases;
    assert id == o.operationId;
    OnlyGroundsRelease(o, input, w, at);
  }

  lemma VersionExpected(o: Operation, input: Transition, w: Warrant)
    requires Warranted(o, input, w)
    ensures input.expectedVersion == o.version
  {
  }

  lemma OtherFrees(l: Ledger, t: Transaction, at: int, id: Id)
    requires !t.Move? && Held(l, id) && !Held(Commit(l, t, at), id) && id in Commit(l, t, at).rows
    ensures t.Take? && t.claim.nodeId == l.rows[id].operation.nodeId
    ensures Commit(l, t, at).rows[id].operation.state == Cancelled && Supersedable(l.rows[id].operation, t.claim)
  {
    hide Supersedable, SameClaim, SameRequest;
  }

  // The lease is lost only on these grounds: whenever an operation that was active is
  // no longer active, one act of the run released it, and did so on one of the
  // listed grounds while the handler's copy was the ledger's row.
  lemma {:induction false} LeaseLostOnlyOnGrounds(l: Ledger, acts: seq<Act>, id: Id) returns (k: nat)
    requires Lawful(l) && PermittedRun(l, acts)
    requires Held(l, id) && !Held(Play(l, acts), id)
    ensures k < |acts|
    ensures Frees(Play(l, acts[..k]), Perform(Play(l, acts[..k]), acts[k]), acts[k], id)
    decreases |acts|
  {
    hide Lawful, Perform, Held, Frees, Permitted;
    var m := Perform(l, acts[0]);
    if !Held(m, id) {
      ActFrees(l, acts[0], id);
      k := 0;
      assert acts[..0] == [];
    } else {
      PerformLawful(l, acts[0]);
      var rest := LeaseLostOnlyOnGrounds(m, acts[1..], id);
      k := rest + 1;
      assert acts[..k][1..] == acts[1..][..rest];
      assert acts[..k] != [];
    }
  }

  /* Silence */

  // A submission on silence, by a handler, takes the lease of the operation.
  ghost predicate ReleasedOnSilence(l: Ledger, act: Act, id: Id) {
    act.Issue? && OnSilence(act.warrant) && Held(l, id) && !Held(Perform(l, act), id)
  }

  ghost predicate MayReleaseOnSilence(l: Ledger, id: Id) {
    exists act :: Permitted(l, act) && ReleasedOnSilence(l, act, id)
  }

  // What such an act is: an upload that was not heard of, on a fresh draft.
  lemma ReleasedOnSilenceIsUpload(l: Ledger, act: Act, id: Id)
    requires Lawful(l) && Permitted(l, act) && ReleasedOnSilence(l, act, id)
    ensures Fresh(l.rows[id].operation) && act.operation == l.rows[id].operation
    ensures act.warrant.Unuploaded? && Unheard(act.warrant.upload)
    ensures id in Perform(l, act).rows && Perform(l, act).rows[id].operation.state == Rejected
  {
    PerformLawful(l, act);
    ActFrees(l, act, id);
    hide Lawful, Extends, Perform, Permitted, Active;
    assert Releases(act.operation, Perform(l, act).rows[id].operation.state, act.warrant);
    ReleasesOnSilence(act.operation, Perform(l, act).rows[id].operation.state, act.warrant);
  }

  lemma ReleasesOnSilence(o: Operation, s: State, w: Warrant)
    requires Releases(o, s, w) && OnSilence(w)
    ensures w.Unuploaded? && Unheard(w.upload) && Fresh(o) && s == Rejected
  {
  }

  // The act of a handler that gives a fresh draft up after an upload it heard nothing of.
  function GivenUp(o: Operation, code: FailureCode, at: int): Act {
    Issue(o, Proposal(o, Rejected, code, None, 0), Unuploaded(Undelivered(code, false)), at, Answered)
  }

  lemma FreshDraftGivenUp(l: Ledger, id: Id, code: FailureCode, at: int)
    requires Lawful(l) && id in l.rows && Fresh(l.rows[id].operation) && l.rows[id].operation.version < MAX_VERSION
    ensures var act := GivenUp(l.rows[id].operation, code, at);
            Permitted(l, act) && ReleasedOnSilence(l, act, id)
  {
    var o := l.rows[id].operation;
    assert LawfulRow(id, l.rows[id]);
    GivenUpTaken(o, code, at);
    hide Lawful, LawfulLog, Refusal, LeaseFree, Warranted, Consistent, Moved, Fresh;
    assert Perform(l, GivenUp(o, code, at)) == CommitTransition(l, id, GivenUp(o, code, at).input, at).0;
  }

  lemma GivenUpTaken(o: Operation, code: FailureCode, at: int)
    requires Consistent(o) && Fresh(o) && o.version < MAX_VERSION
    ensures var act := GivenUp(o, code, at);
            && Warranted(o, act.input, act.warrant) && OnSilence(act.warrant)
            && Refusal(o, act.input, at).None? && Moved(o, act.input, at).state == Rejected
  {
    assert Undelivered(code, false) in Cited(GivenUp(o, code, at).warrant);
  }

  // Silence can take the lease of an operation exactly while the operation is a fresh
  // draft: one without a candidate and a journal view.
  lemma SilenceReleasesExactlyFreshDrafts(l: Ledger, id: Id)
    requires Lawful(l) && Held(l, id) && l.rows[id].operation.version < MAX_VERSION
    ensures MayReleaseOnSilence(l, id) <==> Fresh(l.rows[id].operation)
  {
    hide Lawful, Permitted, ReleasedOnSilence, Fresh;
    if Fresh(l.rows[id].operation) {
      FreshDraftGivenUp(l, id, C.Timeout, 0);
      assert Permitted(l, GivenUp(l.rows[id].operation, C.Timeout, 0));
    }
    forall act | Permitted(l, act) && ReleasedOnSilence(l, act, id) ensures Fresh(l.rows[id].operation) {
      ReleasedOnSilenceIsUpload(l, act, id);
    }
  }

  // An operation never becomes a fresh draft again.
  lemma NeverFreshAgain(l: Ledger, act: Act, id: Id)
    requires Lawful(l) && Permitted(l, act) && id in l.rows && !Fresh(l.rows[id].operation)
    ensures id in Perform(l, act).rows && !Fresh(Perform(l, act).rows[id].operation)
  {
    match act
    case Issue(o, input, w, at, fate) =>
      IssueNotFresh(l, o, input, w, at, fate, id);
      hide Lawful, Submit, Fresh, Warranted;
    case Other(transaction, at) =>
      OtherNotFresh(l, transaction, at, id);
      hide Lawful, Commit, Fresh;
  }

  lemma IssueNotFresh(l: Ledger, o: Operation, input: Transition, w: Warrant, at: int, fate: Fate, id: Id)
    requires Copy(l, o) && Warranted(o, input, w) && id in l.rows && !Fresh(l.rows[id].operation)
    ensures var m := Submit(l, o.operationId, input, at, fate).0; id in m.rows && !Fresh(m.rows[id].operation)
  {
    VersionExpected(o, input, w);
    Submitted(l, o, input, at, fate);
    hide Warranted, Submit, Refusal, Evolves, Consistent;
    var m := Submit(l, o.operationId, input, at, fate).0;
    assert id in m.rows.Keys;
    if id == o.operationId && o == l.rows[id].operation && Refusal(o, input, at).None? {
      NotMovedToFresh(o, input, at);
    }
    hide Fresh, Moved;
  }

  lemma NotMovedToFresh(o: Operation, input: Transition, now: int)
    requires Refusal(o, input, now).None? && !Fresh(o)
    ensures !Fresh(Moved(o, input, now))
  {
  }

  lemma OtherNotFresh(l: Ledger, t: Transaction, at: int, id: Id)
    requires !t.Move? && id in l.rows && !Fresh(l.rows[id].operation)
    ensures id in Commit(l, t, at).rows && !Fresh(Commit(l, t, at).rows[id].operation)
  {
    hide Supersedable, SameClaim, SameRequest, LeaseFree;
  }

  lemma {:induction false} NeverFreshLater(l: Ledger, acts: seq<Act>, id: Id)
    requires Lawful(l) && PermittedRun(l, acts) && id in l.rows && !Fresh(l.rows[id].operation)
    ensures id in Play(l, acts).rows && !Fresh(Play(l, acts).rows[id].operation)
    decreases |acts|
  {
    hide Lawful, Perform, Permitted, Fresh;
    if acts != [] {
      PerformLawful(l, acts[0]);
      NeverFreshAgain(l, acts[0], id);
      NeverFreshLater(Perform(l, acts[0]), acts[1..], id);
    }
  }

  // Over every run: an act that takes the lease on silence is an unheard upload on a
  // fresh draft, and no act does once the operation has left that state.
  lemma LeaseLostOnSilenceOnlyByUploads(l: Ledger, acts: seq<Act>, k: nat, id: Id)
    requires Lawful(l) && PermittedRun(l, acts) && k < |acts|
    ensures var m := Play(l, acts[..k]);
            ReleasedOnSilence(m, acts[k], id) ==>
              && id in m.rows && Fresh(m.rows[id].operation) && acts[k].operation == m.rows[id].operation
              && acts[k].warrant.Unuploaded? && Unheard(acts[k].warrant.upload)
    ensures id in l.rows && !Fresh(l.rows[id].operation) ==> !ReleasedOnSilence(Play(l, acts[..k]), acts[k], id)
  {
    assert acts == acts[..k] + acts[k..];
    Concatenated(l, acts[..k], acts[k..]);
    PlayLawful(l, acts[..k]);
    var m := Play(l, acts[..k]);
    assert Permitted(m, acts[k]);
    hide Lawful, Extends, Play, PermittedRun, Permitted, Fresh;
    if ReleasedOnSilence(m, acts[k], id) {
      ReleasedOnSilenceIsUpload(m, acts[k], id);
    }
    if id in l.rows && !Fresh(l.rows[id].operation) {
      NeverFreshLater(l, acts[..k], id);
    }
  }

  /* Evidence */

  // States that only the Agent's journal can establish.
  predicate NeedsEvidence(s: State) {
    s in {Confirmed, Failed, RolledBack, RollbackFailed}
  }

  // Such a state carries a view in that state, and every view has the deadline of
  // its operation.
  predicate Backed(o: Operation) {
    && (NeedsEvidence(o.state) ==> o.agent.Some? && o.agent.value.state == o.state)
    && (o.agent.Some? ==> o.agent.value.deadlineAtMs == o.deadlineAtMs)
  }

  ghost predicate AllBacked(l: Ledger) {
    forall id :: id in l.rows ==> Backed(l.rows[id].operation)
  }

  lemma MovedBacked(o: Operation, input: Transition, w: Warrant, now: int)
    requires Warranted(o, input, w) && Backed(o) && Refusal(o, input, now).None?
    ensures Backed(Moved(o, input, now))
  {
  }

  lemma PerformBacked(l: Ledger, act: Act)
    requires Lawful(l) && AllBacked(l) && Permitted(l, act)
    ensures AllBacked(Perform(l, act))
  {
    hide Lawful;
    match act
    case Issue(o, input, w, at, fate) => IssueBacked(l, o, input, w, at, fate);
    case Other(transaction, at) => OtherBacked(l, transaction, at);
  }

  lemma IssueBacked(l: Ledger, o: Operation, input: Transition, w: Warrant, at: int, fate: Fate)
    requires AllBacked(l) && Copy(l, o) && Warranted(o, input, w)
    ensures AllBacked(Submit(l, o.operationId, input, at, fate).0)
  {
    VersionExpected(o, input, w);
    Submitted(l, o, input, at, fate);
    if o == l.rows[o.operationId].operation && Refusal(o, input, at).None? {
      MovedBacked(o, input, w, at);
    }
    hide Submit, Refusal, Warranted, Backed, Evolves, Moved;
  }

  lemma OtherBacked(l: Ledger, t: Transaction, at: int)
    requires AllBacked(l) && !t.Move?
    ensures AllBacked(Commit(l, t, at))
  {
    hide SameClaim, SameRequest, Supersedable;
  }

  // Over every run, a state that needs evidence has it, and no view's deadline
  // differs from the one the operation was created with.
  lemma {:induction false} EveryRunIsBacked(l: Ledger, acts: seq<Act>)
    requires Lawful(l) && AllBacked(l) && PermittedRun(l, acts)
    ensures AllBacked(Play(l, acts))
    decreases |acts|
  {
    if acts != [] {
      hide Lawful, Perform, AllBacked, Permitted;
      PerformLawful(l, acts[0]);
      PerformBacked(l, acts[0]);
      EveryRunIsBacked(Perform(l, acts[0]), acts[1..]);
    }
  }

  // Over every run, a confirmed operation carries a confirmed journal view: it was
  // persisted, applied, loaded and ready.
  lemma ConfirmedHasFacts(l: Ledger, acts: seq<Act>, id: Id)
    requires Lawful(l) && AllBacked(l) && PermittedRun(l, acts)
    requires id in Play(l, acts).rows && Play(l, acts).rows[id].operation.state == Confirmed
    ensures var agent := Play(l, acts).rows[id].operation.agent;
            && agent.Some? && agent.value.state == Confirmed
            && agent.value.storePersisted && agent.value.runtimeApplied && agent.value.runtimeLoaded && agent.value.resourcesReady
  {
    EveryRunIsBacked(l, acts);
    PlayLawful(l, acts);
    hide Play, PermittedRun;
    assert LawfulRow(id, Play(l, acts).rows[id]) && Backed(Play(l, acts).rows[id].operation);
  }

  /* Recording is a permitted run */

  ghost function RecordActs(l: Ledger, o: Operation, a: Answer, ticks: seq<Tick>): seq<Act>
    requires a.view.Some?
    decreases |ticks|
  {
    if ticks == [] then []
    else
      var v, t := a.view.value, ticks[0];
      var first := Issue(o, Advance(o, v, t), Observed(a, t), t.storeAt, t.fate);
      var (m, answer) := Submit(l, o.operationId, Advance(o, v, t), t.storeAt, t.fate);
      if answer.Failure? || answer.value.state == v.state then [first]
      else if Late(answer.value, v, t) then
        [first, Issue(answer.value, Confirmation(answer.value, v, t), Reobserved(a, t), t.againAt, t.again)]
      else [first] + RecordActs(m, answer.value, a, ticks[1..])
  }

  lemma StillMatches(o: Operation, a: Answer, t: Tick, now: int)
    requires Matches(o, a) && Refusal(o, Advance(o, a.view.value, t), now).None?
    ensures Matches(Moved(o, Advance(o, a.view.value, t), now), a)
    ensures Moved(o, Advance(o, a.view.value, t), now).operationId == o.operationId
  {
  }

  lemma TwoActs(l: Ledger, first: Act, second: Act)
    ensures Play(l, [first]) == Perform(l, first) && (PermittedRun(l, [first]) <==> Permitted(l, first))
    ensures Play(l, [first, second]) == Perform(Perform(l, first), second)
    ensures PermittedRun(l, [first, second]) <==> Permitted(l, first) && Permitted(Perform(l, first), second)
  {
    hide Perform, Permitted;
    assert [first][1..] == [] && [first, second][1..] == [second];
    assert Play(Perform(l, first), [second]) == Perform(Perform(l, first), second) by {
      assert [second][1..] == [];
    }
    assert PermittedRun(Perform(l, first), [second]) <==> Permitted(Perform(l, first), second) by {
      assert [second][1..] == [];
    }
  }

  // One round of recording: the acts it consists of, and where it leads.
  lemma RoundPermitted(l: Ledger, o: Operation, a: Answer, t: Tick)
    requires Copy(l, o) && Matches(o, a)
    ensures var v := a.view.value;
            var (m, answer) := Submit(l, o.operationId, Advance(o, v, t), t.storeAt, t.fate);
            && Copy(m, o)
            && (answer.Success? ==> Copy(m, answer.value) && Matches(answer.value, a))
  {
    var v := a.view.value;
    Submitted(l, o, Advance(o, v, t), t.storeAt, t.fate);
    var (m, answer) := Submit(l, o.operationId, Advance(o, v, t), t.storeAt, t.fate);
    if Refusal(o, Advance(o, v, t), t.storeAt).None? {
      StillMatches(o, a, t, t.storeAt);
      MovedEvolves(o, Advance(o, v, t), t.storeAt);
    }
    hide Submit, Refusal, Advance, Matches, Moved, Advances;
  }

  lemma {:induction false} RecordPermitted(l: Ledger, o: Operation, a: Answer, ticks: seq<Tick>)
    requires Copy(l, o) && Matches(o, a)
    ensures PermittedRun(l, RecordActs(l, o, a, ticks))
    ensures Play(l, RecordActs(l, o, a, ticks)) == RecordFrom(l, o, a.view.value, ticks).ledger
    ensures Copy(RecordFrom(l, o, a.view.value, ticks).ledger, RecordFrom(l, o, a.view.value, ticks).operation)
    decreases |ticks|
  {
    assert a.view.Some?;
    hide Submit, Refusal, Advance, Matches, Moved, Evolves, Consistent, Late, Confirmation, Play, PermittedRun;
    if ticks == [] {
      NoActs(l);
    } else {
      var v, t := a.view.value, ticks[0];
      RoundPermitted(l, o, a, t);
      var (m, answer) := Submit(l, o.operationId, Advance(o, v, t), t.storeAt, t.fate);
      var first := Issue(o, Advance(o, v, t), Observed(a, t), t.storeAt, t.fate);
      assert Permitted(l, first) && Perform(l, first) == m;
      if answer.Success? && answer.value.state != v.state {
        var p := answer.value;
        if Late(p, v, t) {
          var second := Issue(p, Confirmation(p, v, t), Reobserved(a, t), t.againAt, t.again);
          TwoActs(l, first, second);
          ConfirmationKeepsCopy(m, p, v, t);
        } else {
          RecordPermitted(m, p, a, ticks[1..]);
          TwoActs(l, first, first);
          Concatenated(l, [first], RecordActs(m, p, a, ticks[1..]));
        }
      } else {
        TwoActs(l, first, first);
      }
    }
  }

  lemma NoActs(l: Ledger)
    ensures Play(l, []) == l && PermittedRun(l, [])
  {
  }

  lemma ConfirmationKeepsCopy(l: Ledger, o: Operation, v: View, t: Tick)
    requires Copy(l, o)
    ensures Copy(RecordLate(l, o, v, t).ledger, RecordLate(l, o, v, t).operation)
  {
    Submitted(l, o, Confirmation(o, v, t), t.againAt, t.again);
    if Refusal(o, Confirmation(o, v, t), t.againAt).None? {
      MovedEvolves(o, Confirmation(o, v, t), t.againAt);
    }
    hide Submit, Refusal, Moved, Confirmation, Advances;
  }

  /* What one handler does to the ledger */

  // The replies that an act rests on.
  function Cited(w: Warrant): set<Reply> {
    match w
    case Observed(a, _) => {Delivered(a)}
    case Reobserved(a, _) => {Delivered(a)}
    case Historical(a, _) => {Delivered(a)}
    case Stored(r) => {r}
    case Unuploaded(r) => {r}
    case Unsent(r) => {r}
    case Refused(r) => {r}
    case Absent(r) => {r}
    case _ => {}
  }

  predicate Cites(act: Act, replies: set<Reply>) {
    act.Issue? ==> Cited(act.warrant) <= replies
  }

  // The handler led from l to m by permitted acts that rest on these replies only.
  ghost predicate Handled(l: Ledger, m: Ledger, acts: seq<Act>, replies: set<Reply>) {
    PermittedRun(l, acts) && Play(l, acts) == m && forall i :: 0 <= i < |acts| ==> Cites(acts[i], replies)
  }

  // A handler that only submits transitions.
  predicate OnlyIssues(acts: seq<Act>) {
    forall i :: 0 <= i < |acts| ==> acts[i].Issue?
  }

  lemma HandledNothing(l: Ledger, replies: set<Reply>)
    ensures Handled(l, l, [], replies)
  {
  }

  lemma HandledThen(l: Ledger, m: Ledger, n: Ledger, before: seq<Act>, after: seq<Act>, some: set<Reply>, more: set<Reply>)
    requires Handled(l, m, before, some) && Handled(m, n, after, more)
    ensures Handled(l, n, before + after, some + more)
  {
    hide Play, PermittedRun;
    Concatenated(l, before, after);
  }

  lemma HandledAlso(l: Ledger, m: Ledger, n: Ledger, before: seq<Act>, after: seq<Act>, all: set<Reply>, some: set<Reply>)
    requires Handled(l, m, before, all) && Handled(m, n, after, some) && some <= all
    ensures Handled(l, n, before + after, all)
  {
    hide Handled;
    HandledThen(l, m, n, before, after, all, some);
    assert all + some == all;
  }

  lemma HandledMore(l: Ledger, m: Ledger, acts: seq<Act>, some: set<Reply>, more: set<Reply>)
    requires Handled(l, m, acts, some) && some <= more
    ensures Handled(l, m, acts, more)
  {
    hide Play, PermittedRun;
  }

  lemma HandledOne(l: Ledger, act: Act)
    requires Permitted(l, act)
    ensures Handled(l, Perform(l, act), [act], if act.Issue? then Cited(act.warrant) else {})
  {
    hide Permitted, Perform;
    TwoActs(l, act, act);
  }

  lemma RecordCites(l: Ledger, o: Operation, a: Answer, ticks: seq<Tick>)
    requires a.view.Some?
    ensures forall i :: 0 <= i < |RecordActs(l, o, a, ticks)| ==>
              RecordActs(l, o, a, ticks)[i].Issue? && Cites(RecordActs(l, o, a, ticks)[i], {Delivered(a)})
    decreases |ticks|
  {
    hide Submit, Advance, Late;
    if ticks != [] {
      var v, t := a.view.value, ticks[0];
      var (m, answer) := Submit(l, o.operationId, Advance(o, v, t), t.storeAt, t.fate);
      if answer.Success? {
        RecordCites(m, answer.value, a, ticks[1..]);
      }
    }
  }

  lemma RecordHandled(l: Ledger, o: Operation, a: Answer, now: int, ticks: seq<Tick>) returns (acts: seq<Act>)
    requires Copy(l, o)
    ensures Handled(l, Record(l, o, a, now, ticks).ledger, acts, {Delivered(a)}) && OnlyIssues(acts)
    ensures Copy(Record(l, o, a, now, ticks).ledger, Record(l, o, a, now, ticks).operation)
  {
    hide RecordFrom, RecordActs, AlreadyRecorded, Copy, SameJournal;
    acts := [];
    if Matches(o, a) {
      RecordPermitted(l, o, a, ticks);
      if !AlreadyRecorded(o, a.view.value, now) {
        acts := RecordActs(l, o, a, ticks);
        RecordCites(l, o, a, ticks);
      }
    }
  }
}

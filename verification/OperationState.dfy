// The vocabulary of a configuration operation: its fourteen states, the
// transitions between them, and the Agent's journal view of an operation.
module OperationState {
  import opened Basics
  import C = ResultCodes

  datatype State =
    | Draft | Validated | Prepared | Applying | Verifying | Confirmed | Rejected
    | Conflict | Failed | OutcomeUnknown | Cancelled | RollingBack | RolledBack
    | RollbackFailed

  // An active operation holds the lease of its node.
  predicate Active(s: State) {
    s in {Draft, Validated, Prepared, Applying, Verifying, OutcomeUnknown, RollingBack, RollbackFailed}
  }

  predicate Allowed(from: State, to: State) {
    match from
    case Draft => to in {Validated, Rejected, Conflict, Failed, Cancelled, OutcomeUnknown}
    case Validated => to in {Prepared, Rejected, Conflict, Failed, Cancelled, OutcomeUnknown}
    case Prepared => to in {Applying, Conflict, Failed, Cancelled, OutcomeUnknown}
    case Applying => to in {Verifying, RollingBack, Failed, OutcomeUnknown}
    case Verifying => to in {Confirmed, RollingBack, OutcomeUnknown}
    case Confirmed => to == RollingBack
    case RollbackFailed => to == RollingBack
    case RollingBack => to in {RolledBack, RollbackFailed, OutcomeUnknown}
    case OutcomeUnknown => to != Draft && to != OutcomeUnknown
    case _ => false
  }

  // The states whose entry is bounded by the operation's deadline.
  predicate Timed(s: State) {
    s in {Validated, Prepared, Applying}
  }

  function StateCode(s: State): C.Code {
    match s
    case Draft => C.Failed // "draft" is not an event code, so its audit code is "failed"
    case Validated => C.Validated
    case Prepared => C.Prepared
    case Applying => C.Applying
    case Verifying => C.Verifying
    case Confirmed => C.Confirmed
    case Rejected => C.Rejected
    case Conflict => C.Conflict
    case Failed => C.Failed
    case OutcomeUnknown => C.OutcomeUnknown
    case Cancelled => C.Cancelled
    case RollingBack => C.RollingBack
    case RolledBack => C.RolledBack
    case RollbackFailed => C.RollbackFailed
  }

  datatype Materials = Unstated | Retained | ContextChanged | Expired | Unrecognised

  // How far the recovery materials of an operation have decayed.
  function Decay(m: Materials): nat {
    match m
    case ContextChanged => 1
    case Expired => 2
    case _ => 0
  }

  // What the Agent's journal says about an operation.
  datatype View = View(
    materials: Materials, expiredAtMs: Option<int>, ttlExpiry: bool,
    operationId: Id, baseRevision: Digest, contextRevision: Digest, oldDigest: Digest, candidate: Digest,
    state: State, errorCode: Option<C.Code>,
    createdAtMs: int, updatedAtMs: int, deadlineAtMs: int,
    storePersisted: bool, runtimeApplied: bool, runtimeLoaded: bool, resourcesReady: bool, businessChecked: bool)
  {
    predicate Valid() {
      && errorCode != Some(C.Ok)
      && PlausibleMillis(createdAtMs) && PlausibleMillis(updatedAtMs) && PlausibleMillis(deadlineAtMs)
      && createdAtMs <= updatedAtMs
      && createdAtMs < deadlineAtMs <= createdAtMs + MAX_OPERATION_DURATION
      && (resourcesReady ==> runtimeLoaded)
      && (match materials
          case Unstated | Retained => expiredAtMs.None? && !ttlExpiry
          case ContextChanged => !Active(state) && expiredAtMs.None? && !ttlExpiry
          case Expired => !Active(state) && expiredAtMs.Some? && PlausibleMillis(expiredAtMs.value) && createdAtMs <= expiredAtMs.value && ttlExpiry
          case Unrecognised => false)
      && (state == Confirmed ==> storePersisted && runtimeApplied && runtimeLoaded && resourcesReady)
      && (state == RolledBack ==> !storePersisted && !runtimeApplied && runtimeLoaded && resourcesReady)
    }

    // The view without its independent material projection.
    function Business(): View {
      this.(materials := Unstated, expiredAtMs := None, ttlExpiry := false)
    }
  }

  const MAX_OPERATION_DURATION := 86_400_000

  predicate PlausibleMillis(at: int) {
    0 < at <= 253_402_300_799_999
  }

  // A later view may only decay the materials, and an expiry is final.
  predicate MaterialsMayBecome(prior: View, next: View) {
    && (prior.materials == ContextChanged ==> next.materials in {ContextChanged, Expired})
    && (prior.materials == Expired ==>
        && next.materials == Expired
        && next.expiredAtMs.Some? && prior.expiredAtMs.Some?
        && next.expiredAtMs == prior.expiredAtMs
        && next.ttlExpiry == prior.ttlExpiry)
  }

  /* The state graph */

  predicate Path(states: seq<State>) {
    && states != []
    && forall i {:trigger states[i]} :: 0 < i < |states| ==> Allowed(states[i - 1], states[i])
  }

  // The only edge that takes a lease for an operation that had none is the
  // rollback of a confirmed operation; every other inactive state is final.
  lemma LeaseReacquiredOnlyByRollback(from: State, to: State)
    ensures Allowed(from, to) && !Active(from) <==> from == Confirmed && to == RollingBack
  {
  }

  // No operation is confirmed without having been verifying or unknown, and
  // none is rolled back without having been rolling back or unknown.
  lemma {:induction false} NoShortcut(states: seq<State>, goal: State)
    requires Path(states) && states[0] == Draft
    requires goal in {Confirmed, RolledBack, RollbackFailed} && states[|states| - 1] == goal
    ensures |states| >= 3
    ensures states[|states| - 2] in (if goal == Confirmed then {Verifying, OutcomeUnknown}
                                     else {RollingBack, OutcomeUnknown})
  {
    assert Allowed(states[|states| - 2], states[|states| - 1]);
  }
}

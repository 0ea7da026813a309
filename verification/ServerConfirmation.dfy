// Confirming a restored server offline: a durable receipt that names the write
// gate by its digest, and only then the removal of the gate.
module ServerConfirmation {
  import opened Basics
  import S = OperationState
  import RestoreConfirmation

  // A gate document; what identifies it is its bytes.
  datatype Gate = Gate(checkpoint: Id, context: Digest, policy: Digest, createdAtMs: int, bytes: Digest)

  datatype Completion = Completion(checkpoint: Id, context: Digest, policy: Digest, gateDigest: Digest, confirmedAtMs: int)

  datatype Vault = Vault(gate: Option<Gate>, receipt: Option<Completion>)

  datatype Outcome = Refused | Interrupted | Confirmed

  // The ledger, and whether a second look found it and the context unchanged.
  datatype Evidence = Evidence(counts: seq<(Option<S.State>, int)>, receipts: seq<RestoreConfirmation.Receipt>, stable: bool)

  datatype Request = Request(checkpoint: Id, context: Digest, policy: Digest, now: Millis)

  predicate GateFits(g: Gate, r: Request) {
    g.checkpoint == r.checkpoint && g.context == r.context && g.policy == r.policy && g.createdAtMs > 0
  }

  predicate ReceiptFits(c: Completion, gate: Option<Gate>, r: Request) {
    && c.checkpoint == r.checkpoint && c.context == r.context && c.policy == r.policy && c.confirmedAtMs > 0
    && (gate.Some? ==> c.gateDigest == gate.value.bytes)
  }

  // What lies there belongs to this confirmation.
  predicate Consistent(v: Vault, r: Request) {
    && (v.gate.Some? ==> GateFits(v.gate.value, r))
    && (v.receipt.Some? ==> ReceiptFits(v.receipt.value, v.gate, r))
    && (v.gate.Some? || v.receipt.Some?)
  }

  ghost predicate Permitted(e: Evidence) {
    RestoreConfirmation.Confirmable(e.counts, e.receipts) && e.stable
  }

  function CompletionOf(r: Request, gate: Gate): Completion {
    Completion(r.checkpoint, r.context, r.policy, gate.bytes, r.now)
  }

  // Two durable steps: write the receipt if it is missing, remove the gate if it
  // is there.
  function Settled(v: Vault, r: Request, budget: nat): (Vault, Outcome)
    requires Consistent(v, r)
  {
    if v.receipt.None? && budget == 0 then (v, Interrupted)
    else
      var (w, left) := if v.receipt.None? then (v.(receipt := Some(CompletionOf(r, v.gate.value))), budget - 1) else (v, budget);
      if w.gate.None? then (w, Confirmed)
      else if left == 0 then (w, Interrupted)
      else (w.(gate := None), Confirmed)
  }

  ghost function Confirm(v: Vault, r: Request, e: Evidence, budget: nat): (Vault, Outcome) {
    if Consistent(v, r) && Permitted(e) then Settled(v, r, budget) else (v, Refused)
  }

  // What is found belongs to the request: a gate for its checkpoint, context and policy,
  // or a receipt for them, which names the gate by its digest; and there is one of them.
  predicate Belongs(v: Vault, r: Request) {
    match (v.gate, v.receipt)
    case (None, None) => false
    case (Some(g), None) => g == Gate(r.checkpoint, r.context, r.policy, g.createdAtMs, g.bytes) && g.createdAtMs > 0
    case (None, Some(c)) => c == Completion(r.checkpoint, r.context, r.policy, c.gateDigest, c.confirmedAtMs) && c.confirmedAtMs > 0
    case (Some(g), Some(c)) =>
      && g == Gate(r.checkpoint, r.context, r.policy, g.createdAtMs, g.bytes) && g.createdAtMs > 0
      && c == Completion(r.checkpoint, r.context, r.policy, g.bytes, c.confirmedAtMs) && c.confirmedAtMs > 0
  }

  // A confirmation is refused, and changes nothing, exactly if what it finds does not
  // belong to it, the ledger does not allow it, or a second look found a change. Else it
  // writes the receipt where it is missing and then removes the gate where it is there,
  // and is confirmed once both are done.
  lemma ConfirmsExactly(v: Vault, r: Request, e: Evidence, budget: nat)
    ensures var (w, outcome) := Confirm(v, r, e, budget);
            var steps := (if v.receipt == None then 1 else 0) + (if v.gate == None then 0 else 1);
            && (outcome == Refused <==> !(Belongs(v, r) && e.stable && RestoreConfirmation.Confirmable(e.counts, e.receipts)))
            && (outcome == Refused ==> w == v)
            && (outcome != Refused ==> (outcome == Confirmed <==> budget >= steps))
            && (outcome == Confirmed ==> w == Vault(None, Some(Written(v, r))))
            && (outcome == Interrupted ==> w == if budget == 0 then v else Vault(v.gate, Some(Written(v, r))))
  {
    hide RestoreConfirmation.Confirmable;
  }

  // The receipt that is there, or the one that will be written.
  function Written(v: Vault, r: Request): Completion {
    match (v.receipt, v.gate)
    case (Some(c), _) => c
    case (None, Some(g)) => Completion(r.checkpoint, r.context, r.policy, g.bytes, r.now)
    case (None, None) => Completion(r.checkpoint, r.context, r.policy, 0, r.now)
  }

  class ServerVault {
    var gate: Option<Gate>
    var receipt: Option<Completion>

    function Contents(): Vault
      reads this
    {
      Vault(gate, receipt)
    }

    method ConfirmOffline(r: Request, e: Evidence, budget: nat) returns (outcome: Outcome)
      modifies this
      ensures (Contents(), outcome) == Confirm(old(Contents()), r, e, budget)
    {
      var left := budget;
      if !Consistent(Contents(), r) {
        return Refused;
      }
      var verdict := RestoreConfirmation.Evaluate(e.counts, e.receipts);
      if !verdict.ready || !e.stable {
        return Refused;
      }
      if receipt.None? {
        if left == 0 {
          return Interrupted;
        }
        receipt, left := Some(CompletionOf(r, gate.value)), left - 1;
      }
      if gate.Some? {
        if left == 0 {
          return Interrupted;
        }
        gate := None;
      }
      outcome := Confirmed;
    }
  }

  /* Any number of attempts */

  datatype Attempt = Attempt(request: Request, evidence: Evidence, budget: nat)

  ghost function ConfirmAll(v: Vault, attempts: seq<Attempt>): Vault
    decreases |attempts|
  {
    if attempts == [] then v
    else ConfirmAll(Confirm(v, attempts[0].request, attempts[0].evidence, attempts[0].budget).0, attempts[1..])
  }

  // Some attempt found the ledger confirmable.
  ghost predicate SomePermitted(attempts: seq<Attempt>) {
    exists i :: 0 <= i < |attempts| && Permitted(attempts[i].evidence)
  }

  // The gate goes only after a receipt with its digest is durable, and only if
  // the ledger allowed it; a receipt never changes once it is written.
  lemma {:induction false} GateRemovedOnlyWithReceipt(v: Vault, attempts: seq<Attempt>)
    requires v.gate.Some?
    ensures var w := ConfirmAll(v, attempts);
            && (w.gate.None? ==> w.receipt.Some? && w.receipt.value.gateDigest == v.gate.value.bytes && SomePermitted(attempts))
            && (w.gate.Some? ==> w.gate == v.gate)
            && (v.receipt.Some? ==> w.receipt == v.receipt)
    decreases |attempts|
  {
    if attempts != [] {
      var a := attempts[0];
      var w := Confirm(v, a.request, a.evidence, a.budget).0;
      if w.gate.None? {
        assert Permitted(attempts[0].evidence);
        ReceiptIsFinal(w, attempts[1..]);
      } else {
        GateRemovedOnlyWithReceipt(w, attempts[1..]);
        if SomePermitted(attempts[1..]) {
          var i :| 0 <= i < |attempts[1..]| && Permitted(attempts[1..][i].evidence);
          assert attempts[i + 1] == attempts[1..][i];
        }
      }
    }
  }

  lemma {:induction false} ReceiptIsFinal(v: Vault, attempts: seq<Attempt>)
    requires v.gate.None? && v.receipt.Some?
    ensures ConfirmAll(v, attempts) == v
    decreases |attempts|
  {
    if attempts != [] {
      ReceiptIsFinal(v, attempts[1..]);
    }
  }

  // However often a confirmation was interrupted, the same request still fits what
  // it left behind, and an uninterrupted repetition completes it; repeating a
  // completed one changes nothing.
  lemma {:induction false} ConfirmationReruns(v: Vault, attempts: seq<Attempt>, last: Attempt)
    requires Consistent(v, last.request) && Permitted(last.evidence) && last.budget >= 2
    requires forall i :: 0 <= i < |attempts| ==> attempts[i].request.(now := last.request.now) == last.request
    ensures var w := ConfirmAll(v, attempts);
            var (x, outcome) := Confirm(w, last.request, last.evidence, last.budget);
            && Consistent(w, last.request)
            && outcome == Confirmed && x.gate.None? && x.receipt.Some?
            && Confirm(x, last.request, last.evidence, 0) == (x, Confirmed)
    decreases |attempts|
  {
    if attempts != [] {
      var a := attempts[0];
      assert Consistent(Confirm(v, a.request, a.evidence, a.budget).0, last.request);
      ConfirmationReruns(Confirm(v, a.request, a.evidence, a.budget).0, attempts[1..], last);
    }
  }
}

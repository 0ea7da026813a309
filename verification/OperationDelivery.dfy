// From the link to the ledger: what a handler learns of a command, and what follows
// for the operation that it releases on the proof that the command was not sent.
module OperationDelivery {
  import opened Basics
  import opened Links
  import opened LinkRuns
  import Dispatch
  import S = OperationStore
  import W = OperationWarrants
  import C = ResultCodes

  // The code under which a failure is reported. A failing audit has the code of its
  // own error.
  predicate Coded(reason: Dispatch.Reason, code: C.Code) {
    match reason
    case Blocked => code == C.ServerRestorePending
    case Unaudited => code in {C.Timeout, C.Unavailable}
    case Abandoned => code == C.Timeout
    case Because(failure) =>
      match failure
      case Congested => code == C.Busy
      case Mismatch => code == C.ServiceMismatch
      case Invalid => code == C.InvalidRequest
      case Timeout => code == C.Timeout
      case Unavailable => code == C.Unavailable
  }

  // The reply that a handler sees is what the paced command told it.
  predicate Reports(outcome: Dispatch.Outcome, reply: W.Reply) {
    match outcome
    case Answered(_) => reply.Delivered?
    case Failed(reason, notSent) => reply.Undelivered? && reply.notSent == notSent && Coded(reason, reply.code)
  }

  // The attempt failed before a link was chosen, or is a finished call of a run.
  predicate CallOf(t: Dispatch.Try, steps: seq<Step>) {
    t.Made? ==>
      var calls := Run(Initial(), steps).calls;
      t.call.request.id in calls && calls[t.call.request.id] == t.call && t.call.phase.Done?
  }

  lemma CallsAreHonest(t: Dispatch.Try, steps: seq<Step>)
    requires CallOf(t, steps)
    ensures Dispatch.Honest(t)
  {
    if t.Made? {
      Dispatch.FinishedCallsAreTruthful(steps, t.call.request.id);
    }
    hide Dispatch.Truthful, Run;
  }

  // A finished call that was never queued never is, and never is written.
  predicate Unsent(s: System, id: Id) {
    id in s.calls && s.calls[id].phase.Done? && s.calls[id].enqueues == 0 && s.calls[id].writes == 0
  }

  lemma UnsentStays(s: System, step: Step, id: Id)
    requires Sound(s) && Unsent(s, id)
    ensures Unsent(Next(s, step), id)
  {
    NextSound(s, step);
    assert CallOk(s, id);
    CallStays(s, step, id);
    hide Sound, Next, LinkOk, OutcomeOk;
  }

  lemma CallStays(s: System, step: Step, id: Id)
    requires Sound(s) && Unsent(s, id)
    ensures id in Next(s, step).calls
    ensures Next(s, step).calls[id].phase.Done? && Next(s, step).calls[id].enqueues == 0
    ensures CallOk(Next(s, step), id)
  {
    NextSound(s, step);
    hide Sound, CallOk, LinkOk;
  }

  lemma {:induction false} UnsentForever(s: System, steps: seq<Step>, id: Id)
    requires Sound(s) && Unsent(s, id)
    ensures Unsent(Run(s, steps), id)
    decreases |steps|
  {
    if steps != [] {
      hide Sound, Next, Unsent;
      UnsentStays(s, steps[0], id);
      NextSound(s, steps[0]);
      UnsentForever(Next(s, steps[0]), steps[1..], id);
    }
  }

  // The request is in no queue and in no writer's hand, and was never written.
  ghost predicate Nowhere(s: System, id: Id) {
    && Unsent(s, id)
    && (forall link :: link in s.links && s.links[link].queue.Some? ==> s.links[link].queue.value.id != id)
    && (forall link :: link in s.hands && !s.hands[link].Empty? ==> s.hands[link].request.id != id)
  }

  lemma UnsentIsNowhere(s: System, id: Id)
    requires Sound(s) && Unsent(s, id)
    ensures Nowhere(s, id)
  {
    hide CallOk, RecentOk, PendingOk;
    forall link | link in s.links
      ensures s.links[link].queue.Some? ==> s.links[link].queue.value.id != id
      ensures link in s.hands && (!s.hands[link].Empty? ==> s.hands[link].request.id != id)
    {
      assert LinkOk(s, link);
    }
    assert forall link :: link in s.hands.Keys ==> link in s.links.Keys;
  }

  // A paced command: its attempts, the runs in which their calls finished, and how it ended.
  datatype Command = Command(blocked: bool, attempts: seq<Dispatch.Attempt>, runs: seq<seq<Step>>, outcome: Dispatch.Outcome, used: nat)

  predicate Paced(c: Command) {
    && |c.attempts| == |c.runs| == Dispatch.ATTEMPTS && c.used <= Dispatch.ATTEMPTS
    && (forall i :: 0 <= i < |c.attempts| ==> Dispatch.Honest(c.attempts[i].made) && CallOf(c.attempts[i].made, c.runs[i]))
    && Dispatch.Ends(c.blocked, c.attempts, c.outcome, c.used) && Dispatch.Tells(c.attempts, c.outcome, c.used)
  }

  method Send(blocked: bool, attempts: seq<Dispatch.Attempt>, ghost runs: seq<seq<Step>>)
    returns (outcome: Dispatch.Outcome, used: nat)
    requires |attempts| == |runs| == Dispatch.ATTEMPTS && forall i :: 0 <= i < |attempts| ==> CallOf(attempts[i].made, runs[i])
    ensures Paced(Command(blocked, attempts, runs, outcome, used))
  {
    hide CallOf, Dispatch.Honest, Dispatch.Ends, Dispatch.Tells;
    forall i | 0 <= i < |attempts| ensures Dispatch.Honest(attempts[i].made) {
      CallsAreHonest(attempts[i].made, runs[i]);
    }
    outcome, used := Dispatch.PacedCommand(blocked, attempts);
  }

  // Whatever happens on the links after the command ended, none of its requests is
  // queued or written.
  ghost predicate NeverSent(c: Command)
    requires c.used <= |c.attempts| <= |c.runs|
  {
    forall i, later :: 0 <= i < c.used && c.attempts[i].made.Made? ==>
      Nowhere(Run(Run(Initial(), c.runs[i]), later), c.attempts[i].made.call.request.id)
  }

  lemma {:induction false} NoneEnqueued(attempts: seq<Dispatch.Attempt>, i: nat)
    requires Dispatch.Enqueues(attempts) == 0 && i < |attempts|
    ensures Dispatch.Enqueued(attempts[i].made) == 0
    decreases |attempts|
  {
    if i < |attempts| - 1 {
      NoneEnqueued(attempts[..|attempts| - 1], i);
    }
  }

  lemma NotSentIsNeverSent(c: Command)
    requires Paced(c) && c.outcome.Failed? && c.outcome.notSent
    ensures NeverSent(c)
  {
    forall i, later | 0 <= i < c.used && c.attempts[i].made.Made?
      ensures Nowhere(Run(Run(Initial(), c.runs[i]), later), c.attempts[i].made.call.request.id)
    {
      NoneEnqueued(c.attempts[..c.used], i);
      CallNeverSent(c.attempts[i].made, c.runs[i], later);
    }
    hide Run, Nowhere, Paced, CallOf;
  }

  lemma CallNeverSent(t: Dispatch.Try, steps: seq<Step>, later: seq<Step>)
    requires CallOf(t, steps) && t.Made? && Dispatch.Honest(t) && Dispatch.Enqueued(t) == 0
    ensures Nowhere(Run(Run(Initial(), steps), later), t.call.request.id)
  {
    hide Sound, Run, OutcomeOk;
    Reachable(steps);
    UnsentForever(Run(Initial(), steps), later, t.call.request.id);
    RunSound(Run(Initial(), steps), later);
    UnsentIsNowhere(Run(Run(Initial(), steps), later), t.call.request.id);
  }

  // An operation whose lease was released because its prepare was not sent: no
  // attempt at that prepare ever was in a queue or in a socket, and none will be.
  lemma ReleasedUnsentNeverSent(l: S.Ledger, acts: seq<W.Act>, id: Id, c: Command) returns (k: nat)
    requires S.Lawful(l) && W.PermittedRun(l, acts) && W.Held(l, id) && !W.Held(W.Play(l, acts), id)
    ensures k < |acts| && W.Frees(W.Play(l, acts[..k]), W.Perform(W.Play(l, acts[..k]), acts[k]), acts[k], id)
    ensures acts[k].Issue? && acts[k].warrant.Unsent? && Paced(c) && Reports(c.outcome, acts[k].warrant.prepare) ==> NeverSent(c)
  {
    k := W.LeaseLostOnlyOnGrounds(l, acts, id);
    if acts[k].Issue? && acts[k].warrant.Unsent? && Paced(c) && Reports(c.outcome, acts[k].warrant.prepare) {
      ReleasesUnsent(W.Play(l, acts[..k]), W.Perform(W.Play(l, acts[..k]), acts[k]), acts[k], id);
      NotSentIsNeverSent(c);
    }
    hide W.Play, W.Perform, W.Frees, NeverSent, Paced;
  }

  lemma ReleasesUnsent(l: S.Ledger, m: S.Ledger, act: W.Act, id: Id)
    requires W.Frees(l, m, act, id) && act.Issue? && act.warrant.Unsent?
    ensures act.warrant.prepare.Undelivered? && act.warrant.prepare.notSent
  {
  }
}

// One authenticated link to a node's Agent, shared by the configuration lane and
// the restore lane. A link carries at most one request at a time, in a queue of
// one place between the callers and the one writer of its connection.
module Links {
  import opened Basics
  import C = ResultCodes

  datatype Lane = Config | Restore

  datatype Action = Inspect | Secret | Prepare | Apply | Query | Rollback | Cancel | Acknowledge

  datatype Consent = Consent(epoch: Id, manifestDigest: Digest, contextRevision: Digest, storeDigest: Digest, acknowledgement: Option<Id>)

  datatype Request = Request(
    lane: Lane, id: Id, session: Id, action: Action, serviceId: Option<Id>,
    operationId: Option<Id>, baseRevision: Option<Digest>, contextRevision: Option<Digest>, candidate: Option<Digest>,
    secretReference: Option<Id>, consent: Option<Consent>)

  // The revisions of the journal entry that a reply may carry.
  datatype Journal = Journal(baseRevision: Digest, contextRevision: Digest, candidate: Digest)

  datatype Reply = Reply(
    lane: Lane, id: Id, session: Id, sequence: nat, action: Action, code: C.Code, serviceId: Id,
    operationId: Option<Id>, journal: Option<Journal>, secretReference: Option<Id>, consent: Option<Consent>)

  // A reply answers a request: same request, action and operation, and the same
  // service and revisions wherever the request named them. Only a reply that
  // reports another service may come from one, and then without an operation.
  predicate Answers(q: Request, r: Reply) {
    && r.lane == q.lane && r.id == q.id && r.action == q.action
    && match q.lane
       case Config =>
         && r.operationId == q.operationId
         && (q.serviceId.None? || q.serviceId == Some(r.serviceId) || (r.code == C.ServiceMismatch && r.journal.None?))
         && (r.journal.Some? ==>
             && q.baseRevision == Some(r.journal.value.baseRevision)
             && (q.contextRevision.Some? ==> q.contextRevision.value == r.journal.value.contextRevision)
             && (q.candidate.Some? ==> q.candidate.value == r.journal.value.candidate))
         && (r.code == C.Ok && r.action == Secret ==> r.secretReference == q.secretReference)
       case Restore =>
         && (q.serviceId.None? || q.serviceId == Some(r.serviceId) || r.code == C.ServiceMismatch)
         && (q.action == Acknowledge && r.code == C.Ok ==> r.consent == q.consent && r.consent.Some?)
  }

  // What the link remembers of a finished request.
  type Tag = (Lane, Id)

  const REMEMBERED := 16

  function Remembered(recent: seq<Tag>, tag: Tag): (r: seq<Tag>)
    ensures tag in r
    ensures |recent| <= REMEMBERED ==> |r| <= REMEMBERED
  {
    if tag in recent then recent
    else (if |recent| == REMEMBERED then recent[1..] else recent) + [tag]
  }

  datatype Link = Link(
    lanes: set<Lane>, session: Id, closed: bool, pending: Option<Request>, restorePending: Option<Request>,
    queue: Option<Request>, recent: seq<Tag>, serviceId: Option<Id>, tokens: real, replenished: real)
  {
    function Pending(lane: Lane): Option<Request> {
      match lane case Config => pending case Restore => restorePending
    }

    function WithPending(lane: Lane, q: Option<Request>): Link {
      match lane case Config => this.(pending := q) case Restore => this.(restorePending := q)
    }

    predicate Busy() {
      pending.Some? || restorePending.Some?
    }
  }

  function TagOf(q: Request): Tag {
    (q.lane, q.id)
  }

  const CAPACITY := 4.0

  function Fresh(lanes: set<Lane>, session: Id, now: real): Link {
    Link(lanes, session, false, None, None, None, [], None, CAPACITY, now)
  }

  function Refilled(l: Link, now: real): Link {
    var level := l.tokens + (now - l.replenished);
    l.(tokens := if level < CAPACITY then level else CAPACITY, replenished := now)
  }

  datatype Failure = Unavailable | Mismatch | Congested | Timeout | Invalid

  // A caller offers its request. Nothing but success puts it into the queue.
  function Offer(l: Link, q: Request, now: real): (Link, Option<Failure>) {
    if l.closed then (l, Some(Unavailable))
    else if l.serviceId.Some? && q.serviceId.Some? && l.serviceId != q.serviceId then (l, Some(Mismatch))
    else if l.Busy() then (l, Some(Congested))
    else
      var m := Refilled(l, now);
      if m.tokens < 1.0 || m.queue.Some? then (m, Some(Congested))
      else (m.WithPending(q.lane, Some(q)).(queue := Some(q), tokens := m.tokens - 1.0), None)
  }

  datatype Verdict = Refused | Absorbed | Handed(request: Request)

  // The reader of the link's connection receives a reply.
  function Receive(l: Link, r: Reply): (Link, Verdict) {
    var pending := l.Pending(r.lane);
    if r.lane !in l.lanes || r.session != l.session then (l, Refused)
    else if pending.None? || pending.value.id != r.id then (l, if (r.lane, r.id) in l.recent then Absorbed else Refused)
    else if !Answers(pending.value, r) then (l, Refused)
    else
      var m := l.WithPending(r.lane, None);
      (m.(serviceId := if r.code == C.Ok && r.action == Inspect then Some(r.serviceId) else l.serviceId,
          recent := Remembered(l.recent, (r.lane, r.id))),
       Handed(pending.value))
  }

  // A reply is handed over exactly if it comes in the link's session, on an enabled
  // lane, to the pending request of that lane, and repeats what the request named:
  // its identity, action and operation; its service, unless the reply reports another
  // one and carries no operation; the revisions of its journal entry; the secret it
  // stored; the consent it acknowledged.
  lemma HandedExactly(l: Link, r: Reply)
    ensures Receive(l, r).1.Handed? <==>
            && r.lane in l.lanes && r.session == l.session
            && match r.lane
               case Config =>
                 && l.pending.Some?
                 && var q := l.pending.value;
                 && q.lane == Config && q.id == r.id && q.action == r.action && q.operationId == r.operationId
                 && (q.serviceId == None || q.serviceId == Some(r.serviceId) || (r.code == C.ServiceMismatch && r.journal == None))
                 && (r.journal == None
                     || (&& q.baseRevision == Some(r.journal.value.baseRevision)
                         && (q.contextRevision == None || q.contextRevision == Some(r.journal.value.contextRevision))
                         && (q.candidate == None || q.candidate == Some(r.journal.value.candidate))))
                 && (r.code != C.Ok || r.action != Secret || r.secretReference == q.secretReference)
               case Restore =>
                 && l.restorePending.Some?
                 && var q := l.restorePending.value;
                 && q.lane == Restore && q.id == r.id && q.action == r.action
                 && (q.serviceId == None || q.serviceId == Some(r.serviceId) || r.code == C.ServiceMismatch)
                 && (r.code != C.Ok || r.action != Acknowledge || (r.consent == q.consent && r.consent != None))
    ensures Receive(l, r).1.Handed? ==> Some(Receive(l, r).1.request) == (if r.lane == Config then l.pending else l.restorePending)
  {
  }

  // What a handed reply leaves behind: its lane is free again, the request is remembered,
  // and a successful inspection tells which service the Agent serves. Of the other
  // replies only one to a remembered request is absorbed; neither changes the link.
  lemma HandedLeaves(l: Link, r: Reply)
    ensures var (m, verdict) := Receive(l, r);
            && (verdict.Handed? ==>
                && m.pending == (if r.lane == Config then None else l.pending)
                && m.restorePending == (if r.lane == Restore then None else l.restorePending)
                && (r.lane, r.id) in m.recent
                && m.serviceId == (if r.action == Inspect && r.code == C.Ok then Some(r.serviceId) else l.serviceId)
                && m.(pending := l.pending, restorePending := l.restorePending, recent := l.recent, serviceId := l.serviceId) == l)
            && (!verdict.Handed? ==> m == l)
            && (verdict.Absorbed? <==>
                && r.lane in l.lanes && r.session == l.session && (r.lane, r.id) in l.recent
                && match r.lane
                   case Config => l.pending == None || l.pending.value.id != r.id
                   case Restore => l.restorePending == None || l.restorePending.value.id != r.id)
  {
    hide Answers, Remembered;
  }

  // The tokens of a link at a later time, of which it saves up at most four.
  function Saved(l: Link, now: real): real {
    if l.tokens + (now - l.replenished) > 4.0 then 4.0 else l.tokens + (now - l.replenished)
  }

  // A request is admitted exactly if the link is open, not known to serve another
  // service, waits for no reply on either lane, has a whole token, and its queue is
  // empty. It is then pending on its lane and queued, for one token.
  lemma AdmittedExactly(l: Link, q: Request, now: real)
    ensures var (m, failure) := Offer(l, q, now);
            var apart := l.serviceId.Some? && q.serviceId.Some? && l.serviceId.value != q.serviceId.value;
            && (failure == None <==> !l.closed && !apart && l.pending == None && l.restorePending == None && l.queue == None && Saved(l, now) >= 1.0)
            && (failure == None ==>
                m == Link(l.lanes, l.session, false, if q.lane == Config then Some(q) else None, if q.lane == Restore then Some(q) else None,
                          Some(q), l.recent, l.serviceId, Saved(l, now) - 1.0, now))
            && (failure.Some? ==>
                && failure.value == (if l.closed then Unavailable else if apart then Mismatch else Congested)
                && m == if l.closed || apart || l.pending.Some? || l.restorePending.Some? then l
                        else l.(tokens := Saved(l, now), replenished := now))
  {
  }

  // The caller stops waiting, whatever it received.
  function Released(l: Link, q: Request): Link {
    var m := if l.Pending(q.lane) == Some(q) then l.WithPending(q.lane, None) else l;
    m.(recent := Remembered(l.recent, TagOf(q)))
  }

  // The link as the service holds it, updated in place under the service's lock.
  class ConfigLink {
    const lanes: set<Lane>
    const session: Id
    var closed: bool
    var pending: Option<Request>
    var restorePending: Option<Request>
    var queue: Option<Request>
    var recent: seq<Tag>
    var serviceId: Option<Id>
    var tokens: real
    var replenished: real

    function Contents(): Link
      reads this
    {
      Link(lanes, session, closed, pending, restorePending, queue, recent, serviceId, tokens, replenished)
    }

    constructor (lanes: set<Lane>, session: Id, now: real)
      ensures Contents() == Fresh(lanes, session, now)
    {
      this.lanes, this.session, closed := lanes, session, false;
      pending, restorePending, queue, recent, serviceId := None, None, None, [], None;
      tokens, replenished := CAPACITY, now;
    }

    method Stop()
      modifies this`closed
      ensures Contents() == old(Contents()).(closed := true)
    {
      closed := true;
    }

    method Remember(tag: Tag)
      modifies this`recent
      ensures recent == Remembered(old(recent), tag)
    {
      for i := 0 to |recent|
        invariant recent == old(recent) && tag !in recent[..i]
      {
        if recent[i] == tag {
          return;
        }
      }
      assert recent[..|recent|] == recent;
      if |recent| == REMEMBERED {
        recent := recent[1..];
      }
      recent := recent + [tag];
    }

    method SetPending(lane: Lane, q: Option<Request>)
      modifies this`pending, this`restorePending
      ensures Contents() == old(Contents()).WithPending(lane, q)
    {
      match lane
      case Config => pending := q;
      case Restore => restorePending := q;
    }

    method Admit(q: Request, now: real) returns (failure: Option<Failure>)
      modifies this
      ensures (Contents(), failure) == Offer(old(Contents()), q, now)
    {
      if closed {
        return Some(Unavailable);
      }
      if serviceId.Some? && q.serviceId.Some? && q.serviceId != serviceId {
        return Some(Mismatch);
      }
      if pending.Some? || restorePending.Some? {
        return Some(Congested);
      }
      tokens := if tokens + (now - replenished) < CAPACITY then tokens + (now - replenished) else CAPACITY;
      replenished := now;
      if tokens < 1.0 {
        return Some(Congested);
      }
      SetPending(q.lane, Some(q));
      if queue.Some? {
        SetPending(q.lane, None);
        return Some(Congested);
      }
      queue := Some(q);
      tokens := tokens - 1.0;
      return None;
    }

    method Accept(r: Reply) returns (verdict: Verdict)
      modifies this
      ensures (Contents(), verdict) == Receive(old(Contents()), r)
    {
      hide Answers, Remembered;
      if r.lane !in lanes || r.session != session {
        return Refused;
      }
      var waiting := Contents().Pending(r.lane);
      if waiting.None? || waiting.value.id != r.id {
        return if (r.lane, r.id) in recent then Absorbed else Refused;
      }
      if !Answers(waiting.value, r) {
        return Refused;
      }
      if r.code == C.Ok && r.action == Inspect {
        serviceId := Some(r.serviceId);
      }
      SetPending(r.lane, None);
      Remember((r.lane, r.id));
      return Handed(waiting.value);
    }

    method Finish(q: Request)
      modifies this
      ensures Contents() == Released(old(Contents()), q)
    {
      if Contents().Pending(q.lane) == Some(q) {
        SetPending(q.lane, None);
      }
      Remember(TagOf(q));
    }
  }
}

// Every interleaving of callers, writers, readers, time-outs and reconnections on
// the links of one node. A caller holds the service's lock only while it looks the
// link up, offers its request, and stops waiting; between these steps, and between
// the steps of the writer, anything may happen.
module LinkRuns {
  import opened Basics
  import opened Links
  import C = ResultCodes

  datatype Outcome = Got(reply: Reply) | Lost(failure: Failure, notSent: bool)

  datatype Phase = Chosen | Queued | Woken(outcome: Outcome) | Done(outcome: Outcome)

  // A call chose a link (named by its connection) and made its request for it.
  // Two counters record how often the request entered a queue and a socket.
  datatype Call = Call(link: Id, request: Request, phase: Phase, inbox: Option<Reply>, enqueues: nat, writes: nat)

  // What the writer of a connection holds: a request it took from the queue, or
  // one it found to be current and is about to write.
  datatype Hand = Empty | Holding(request: Request) | Cleared(request: Request)

  // The node's current connection and the last sequence number accepted on it.
  datatype Seat = Seat(link: Id, sequence: nat)

  datatype System = System(links: map<Id, Link>, hands: map<Id, Hand>, seat: Option<Seat>, calls: map<Id, Call>)

  datatype Step =
    | Connect(link: Id, lanes: set<Lane>, session: Id, at: real) // a new connection replaces the old one
    | Disconnect(link: Id)
    | Supplant                        // the node's object was replaced after its credential changed
    | Stop(link: Id)
    | Begin(request: Request)
    | Enqueue(id: Id, now: real, credentialError: bool)
    | Take(link: Id)                  // the writer takes the queued request
    | Check(link: Id, expired: bool)
    | Write(link: Id)
    | Receipt(link: Id, reply: Reply) // the reader of a connection received a reply
    | Wake(id: Id)                    // the caller receives its reply
    | GiveUp(id: Id, failure: Failure)
    | Finish(id: Id)

  function Initial(): System {
    System(map[], map[], None, map[])
  }

  predicate Seated(s: System, link: Id) {
    s.seat.Some? && s.seat.value.link == link && link in s.links
  }

  function Closed(s: System, link: Id): System {
    if link in s.links then s.(links := s.links[link := s.links[link].(closed := true)]) else s
  }

  function WithCall(s: System, id: Id, call: Call): System {
    s.(calls := s.calls[id := call])
  }

  predicate CanEnqueue(s: System, call: Call, credentialError: bool) {
    call.phase.Chosen? && Seated(s, call.link) && !credentialError
  }

  function Enqueued(s: System, id: Id, now: real, credentialError: bool): System
    requires id in s.calls
  {
    var call := s.calls[id];
    if !call.phase.Chosen? then s
    else if !CanEnqueue(s, call, credentialError) then WithCall(s, id, call.(phase := Done(Lost(Unavailable, true))))
    else
      var (link, failure) := Offer(s.links[call.link], call.request, now);
      var t := s.(links := s.links[call.link := link]);
      if failure.Some? then WithCall(t, id, call.(phase := Done(Lost(failure.value, true))))
      else WithCall(t, id, call.(phase := Queued, enqueues := call.enqueues + 1))
  }

  // The request is still the one its caller waits for on the node's connection.
  predicate StillCurrent(s: System, link: Id, q: Request) {
    && Seated(s, link) && s.links[link].session == q.session
    && s.links[link].Pending(q.lane).Some? && s.links[link].Pending(q.lane).value.id == q.id
  }

  function Received(s: System, link: Id, r: Reply): System {
    if !Seated(s, link) || r.sequence <= s.seat.value.sequence then s
    else
      var (l, verdict) := Receive(s.links[link], r);
      if verdict.Refused? then s
      else
        var t := s.(links := s.links[link := l], seat := Some(s.seat.value.(sequence := r.sequence)));
        match verdict
        case Handed(q) => if q.id in s.calls then WithCall(t, q.id, s.calls[q.id].(inbox := Some(r))) else t
        case _ => t
  }

  function Next(s: System, step: Step): System {
    match step
    case Connect(link, lanes, session, at) =>
      if link in s.links then s
      else
        var t := if s.seat.Some? then Closed(s, s.seat.value.link) else s;
        System(t.links[link := Fresh(lanes, session, at)], t.hands[link := Empty], Some(Seat(link, 1)), t.calls)
    case Disconnect(link) =>
      if Seated(s, link) then Closed(s, link).(seat := None) else Closed(s, link)
    case Supplant => s.(seat := None)
    case Stop(link) => Closed(s, link)
    case Begin(q) =>
      if q.id in s.calls || s.seat.None? || !Seated(s, s.seat.value.link) then s
      else
        var l := s.links[s.seat.value.link];
        if q.lane !in l.lanes || q.session != l.session then s
        else WithCall(s, q.id, Call(s.seat.value.link, q, Chosen, None, 0, 0))
    case Enqueue(id, now, credentialError) =>
      if id !in s.calls then s else Enqueued(s, id, now, credentialError)
    case Take(link) =>
      if link in s.links && link in s.hands && s.hands[link].Empty? && s.links[link].queue.Some? then
        s.(links := s.links[link := s.links[link].(queue := None)], hands := s.hands[link := Holding(s.links[link].queue.value)])
      else s
    case Check(link, expired) =>
      if link in s.hands && s.hands[link].Holding? then
        var q := s.hands[link].request;
        s.(hands := s.hands[link := if StillCurrent(s, link, q) && !expired then Cleared(q) else Empty])
      else s
    case Write(link) =>
      if link in s.hands && s.hands[link].Cleared? && s.hands[link].request.id in s.calls then
        var id := s.hands[link].request.id;
        WithCall(s.(hands := s.hands[link := Empty]), id, s.calls[id].(writes := s.calls[id].writes + 1))
      else s
    case Receipt(link, r) => Received(s, link, r)
    case Wake(id) =>
      if id in s.calls && s.calls[id].phase.Queued? && s.calls[id].inbox.Some? then
        WithCall(s, id, s.calls[id].(phase := Woken(Got(s.calls[id].inbox.value))))
      else s
    case GiveUp(id, failure) =>
      if id in s.calls && s.calls[id].phase.Queued? && failure in {Unavailable, Timeout} then
        WithCall(s, id, s.calls[id].(phase := Woken(Lost(failure, false))))
      else s
    case Finish(id) =>
      if id in s.calls && s.calls[id].phase.Woken? && s.calls[id].link in s.links then
        var call := s.calls[id];
        WithCall(s.(links := s.links[call.link := Released(s.links[call.link], call.request)]), id, call.(phase := Done(call.phase.outcome)))
      else s
  }

  function Run(s: System, steps: seq<Step>): System
    decreases |steps|
  {
    if steps == [] then s else Run(Next(s, steps[0]), steps[1..])
  }

  /* What every state keeps */

  predicate Waits(call: Call) {
    call.phase.Queued? || call.phase.Woken?
  }

  // The request is in the queue of its link, or in the hand of its writer.
  predicate Underway(s: System, link: Id, q: Request) {
    || (link in s.links && s.links[link].queue == Some(q))
    || (link in s.hands && (s.hands[link] == Holding(q) || s.hands[link] == Cleared(q)))
  }

  predicate CallOk(s: System, id: Id)
    requires id in s.calls
  {
    var call := s.calls[id];
    && call.request.id == id
    && call.link in s.links && call.link in s.hands
    && call.request.session == s.links[call.link].session
    && call.writes <= call.enqueues <= 1
    && (call.phase.Chosen? ==> call.enqueues == 0 && call.inbox.None?)
    && (Waits(call) ==> call.enqueues == 1)
    && (call.inbox.Some? ==> call.enqueues == 1 && Answers(call.request, call.inbox.value) && call.inbox.value.session == call.request.session)
    && (call.phase.Woken? || call.phase.Done? ==> OutcomeOk(call))
  }

  // "Not sent" is said exactly of requests that never entered a queue; a reply
  // that a caller got answers its request; and a congested link never queued.
  predicate OutcomeOk(call: Call)
    requires call.phase.Woken? || call.phase.Done?
  {
    match call.phase.outcome
    case Got(reply) => call.inbox == Some(reply) && call.enqueues == 1
    case Lost(failure, notSent) =>
      && (notSent <==> call.enqueues == 0)
      && (failure in {Congested, Mismatch, Invalid} ==> notSent)
  }

  // A request somewhere on a link belongs to a call that enqueued it there.
  predicate Owned(s: System, link: Id, q: Request) {
    q.id in s.calls && s.calls[q.id].request == q && s.calls[q.id].link == link && s.calls[q.id].enqueues == 1
  }

  predicate PendingOk(s: System, link: Id, q: Request) {
    && Owned(s, link, q) && Waits(s.calls[q.id]) && s.calls[q.id].inbox.None?
    && link in s.links && TagOf(q) !in s.links[link].recent
  }

  predicate RecentOk(s: System, recent: seq<Tag>) {
    && |recent| <= REMEMBERED
    && forall i :: 0 <= i < |recent| ==> recent[i].1 in s.calls && s.calls[recent[i].1].enqueues == 1
  }

  predicate LinkOk(s: System, link: Id)
    requires link in s.links
  {
    var l := s.links[link];
    && link in s.hands
    && (l.pending.None? || l.restorePending.None?)
    && (l.pending.Some? ==> l.pending.value.lane == Config && PendingOk(s, link, l.pending.value))
    && (l.restorePending.Some? ==> l.restorePending.value.lane == Restore && PendingOk(s, link, l.restorePending.value))
    && (l.queue.Some? ==> Owned(s, link, l.queue.value) && s.calls[l.queue.value.id].writes == 0)
    && (!s.hands[link].Empty? ==> Owned(s, link, s.hands[link].request) && s.calls[s.hands[link].request.id].writes == 0)
    && (l.queue.Some? && !s.hands[link].Empty? ==> l.queue.value.id != s.hands[link].request.id)
    && RecentOk(s, l.recent)
  }

  ghost predicate Sound(s: System) {
    && s.hands.Keys == s.links.Keys
    && (s.seat.Some? ==> s.seat.value.link in s.links)
    && (forall id :: id in s.calls ==> CallOk(s, id))
    && (forall link :: link in s.links ==> LinkOk(s, link))
  }

  lemma ConnectSound(s: System, link: Id, lanes: set<Lane>, session: Id, at: real)
    requires Sound(s)
    ensures Sound(Next(s, Connect(link, lanes, session, at)))
  {
    hide Answers, OutcomeOk;
  }

  lemma ClosedSound(s: System, link: Id)
    requires Sound(s)
    ensures Sound(Closed(s, link))
  {
    hide Answers, OutcomeOk;
  }

  lemma BeginSound(s: System, q: Request)
    requires Sound(s)
    ensures Sound(Next(s, Begin(q)))
  {
    hide Answers, OutcomeOk;
  }

  // Only one call and its own link changed.
  predicate Local(s: System, t: System, link: Id, id: Id) {
    && t.hands == s.hands && t.links.Keys == s.links.Keys && link in s.links && t.calls.Keys == s.calls.Keys && id in s.calls
    && t.links[link].session == s.links[link].session
    && (forall other :: other in s.links && other != link ==> t.links[other] == s.links[other])
    && (forall other :: other in s.calls && other != id ==> t.calls[other] == s.calls[other])
    && s.calls[id].link == link && t.calls[id].link == link && t.calls[id].request == s.calls[id].request
    && (s.calls[id].enqueues == 1 ==> t.calls[id].enqueues == 1)
    && (t.seat.Some? ==> t.seat.value.link in t.links)
  }

  lemma LocalSound(s: System, t: System, link: Id, id: Id)
    requires Sound(s) && Local(s, t, link, id) && CallOk(t, id) && LinkOk(t, link)
    ensures Sound(t)
  {
    hide OutcomeOk, Answers;
    forall other | other in t.links && other != link ensures LinkOk(t, other) {
      assert LinkOk(s, other) && t.links[other] == s.links[other];
      forall q | Owned(s, other, q) ensures q.id != id && Owned(t, other, q) && t.calls[q.id] == s.calls[q.id] {
      }
      var recent := s.links[other].recent;
      forall i | 0 <= i < |recent| ensures recent[i].1 in t.calls && t.calls[recent[i].1].enqueues == 1 {
        assert recent[i].1 == id || t.calls[recent[i].1] == s.calls[recent[i].1];
      }
    }
    forall other | other in t.calls && other != id ensures CallOk(t, other) {
      assert CallOk(s, other);
    }
    hide CallOk, LinkOk;
  }

  lemma EnqueueSound(s: System, id: Id, now: real, credentialError: bool)
    requires Sound(s) && id in s.calls
    ensures Sound(Enqueued(s, id, now, credentialError))
  {
    var call := s.calls[id];
    var t := Enqueued(s, id, now, credentialError);
    assert CallOk(s, id) && LinkOk(s, call.link);
    if call.phase.Chosen? {
      hide Answers;
      EnqueueLocal(s, id, now, credentialError);
      EnqueueCallOk(s, id, now, credentialError);
      EnqueueLinkOk(s, id, now, credentialError);
      LocalSound(s, t, call.link, id);
    }
    hide Sound, Offer, Local, Enqueued, CallOk, LinkOk;
  }

  lemma EnqueueLocal(s: System, id: Id, now: real, credentialError: bool)
    requires Sound(s) && id in s.calls && CallOk(s, id)
    ensures s.calls[id].phase.Chosen? ==> Local(s, Enqueued(s, id, now, credentialError), s.calls[id].link, id)
  {
    hide LinkOk, OutcomeOk, Answers;
  }

  lemma EnqueueCallOk(s: System, id: Id, now: real, credentialError: bool)
    requires id in s.calls && CallOk(s, id)
    ensures s.calls[id].phase.Chosen? ==> CallOk(Enqueued(s, id, now, credentialError), id)
  {
  }

  // An offer that is refused moves the tokens and nothing else.
  lemma OfferRefused(l: Link, q: Request, now: real)
    ensures var (m, failure) := Offer(l, q, now);
            failure.Some? ==> m == l.(tokens := m.tokens, replenished := m.replenished)
  {
  }

  // An offer that is accepted finds the link idle and makes the request both
  // pending and queued.
  lemma OfferAccepted(l: Link, q: Request, now: real)
    ensures var (m, failure) := Offer(l, q, now);
            failure.None? ==>
              && l.pending.None? && l.restorePending.None? && l.queue.None?
              && m == l.WithPending(q.lane, Some(q)).(queue := Some(q), tokens := m.tokens, replenished := m.replenished)
  {
  }

  // One call changed, without losing what others say of it.
  predicate Onward(s: System, t: System, id: Id) {
    && id in s.calls && t.calls.Keys == s.calls.Keys && t.calls[id].request == s.calls[id].request && t.calls[id].link == s.calls[id].link
    && (s.calls[id].enqueues == 1 ==> t.calls[id] == s.calls[id])
    && forall other :: other in s.calls && other != id ==> t.calls[other] == s.calls[other]
  }

  lemma RecentKept(s: System, t: System, id: Id, recent: seq<Tag>)
    requires RecentOk(s, recent) && Onward(s, t, id)
    ensures RecentOk(t, recent)
  {
    forall i | 0 <= i < |recent| ensures recent[i].1 in t.calls && t.calls[recent[i].1].enqueues == 1 {
      assert recent[i].1 in s.calls.Keys;
      assert recent[i].1 == id || t.calls[recent[i].1] == s.calls[recent[i].1];
    }
  }

  // What is owned stays owned, and was not written meanwhile.
  lemma OwnedKept(s: System, t: System, id: Id, link: Id, q: Request)
    requires Owned(s, link, q) && Onward(s, t, id)
    ensures Owned(t, link, q) && t.calls[q.id] == s.calls[q.id]
  {
  }

  lemma EnqueueLinkOk(s: System, id: Id, now: real, credentialError: bool)
    requires id in s.calls && CallOk(s, id) && s.calls[id].link in s.links && LinkOk(s, s.calls[id].link)
    ensures s.calls[id].phase.Chosen? ==> LinkOk(Enqueued(s, id, now, credentialError), s.calls[id].link)
  {
    if s.calls[id].phase.Chosen? {
      var call := s.calls[id];
      OfferRefused(s.links[call.link], call.request, now);
      OfferAccepted(s.links[call.link], call.request, now);
      if CanEnqueue(s, call, credentialError) && Offer(s.links[call.link], call.request, now).1.None? {
        AcceptedLinkOk(s, id, now, credentialError);
      } else {
        RefusedLinkOk(s, id, now, credentialError);
      }
    }
    hide LinkOk, Enqueued, Offer, OutcomeOk, Answers;
  }

  lemma EnqueuedOnward(s: System, id: Id, now: real, credentialError: bool)
    requires id in s.calls && CallOk(s, id) && s.calls[id].phase.Chosen?
    ensures Onward(s, Enqueued(s, id, now, credentialError), id) && Enqueued(s, id, now, credentialError).hands == s.hands
  {
    hide Offer, OutcomeOk, Answers;
  }

  lemma RefusedLinkOk(s: System, id: Id, now: real, credentialError: bool)
    requires id in s.calls && CallOk(s, id) && s.calls[id].phase.Chosen? && LinkOk(s, s.calls[id].link)
    requires var call := s.calls[id];
             !CanEnqueue(s, call, credentialError) || Offer(s.links[call.link], call.request, now).1.Some?
    ensures LinkOk(Enqueued(s, id, now, credentialError), s.calls[id].link)
  {
    var link := s.calls[id].link;
    var l := s.links[link];
    var t := Enqueued(s, id, now, credentialError);
    OfferRefused(l, s.calls[id].request, now);
    EnqueuedOnward(s, id, now, credentialError);
    assert t.links[link] == l.(tokens := t.links[link].tokens, replenished := t.links[link].replenished);
    hide Enqueued, Offer, CallOk, OutcomeOk, Answers, CanEnqueue;
    KeptLinkOk(s, t, id, link);
  }

  // A link of which only the tokens moved is as it was.
  lemma KeptLinkOk(s: System, t: System, id: Id, link: Id)
    requires link in s.links && LinkOk(s, link) && Onward(s, t, id) && t.hands == s.hands && link in t.links
    requires t.links[link] == s.links[link].(tokens := t.links[link].tokens, replenished := t.links[link].replenished)
    ensures LinkOk(t, link)
  {
    RecentKept(s, t, id, s.links[link].recent);
    hide RecentOk;
    forall q | Owned(s, link, q) ensures Owned(t, link, q) && t.calls[q.id] == s.calls[q.id] {
      OwnedKept(s, t, id, link, q);
    }
    hide Owned, Onward;
  }

  lemma AcceptedLinkOk(s: System, id: Id, now: real, credentialError: bool)
    requires id in s.calls && CallOk(s, id) && s.calls[id].phase.Chosen? && LinkOk(s, s.calls[id].link)
    requires var call := s.calls[id];
             CanEnqueue(s, call, credentialError) && Offer(s.links[call.link], call.request, now).1.None?
    ensures LinkOk(Enqueued(s, id, now, credentialError), s.calls[id].link)
  {
    var call := s.calls[id];
    var l := s.links[call.link];
    var t := Enqueued(s, id, now, credentialError);
    OfferAccepted(l, call.request, now);
    EnqueuedOnward(s, id, now, credentialError);
    assert t.calls[id] == call.(phase := Queued, enqueues := 1);
    assert Owned(t, call.link, call.request);
    hide Enqueued, Offer, OutcomeOk, Answers, CanEnqueue;
    RecentKept(s, t, id, l.recent);
    assert TagOf(call.request) !in l.recent by { assert RecentOk(s, l.recent); }
    hide RecentOk;
    if !s.hands[call.link].Empty? {
      OwnedKept(s, t, id, call.link, s.hands[call.link].request);
    }
    hide Onward;
  }

  lemma TakeSound(s: System, link: Id)
    requires Sound(s)
    ensures Sound(Next(s, Take(link)))
  {
    hide Answers, OutcomeOk;
  }

  lemma CheckSound(s: System, link: Id, expired: bool)
    requires Sound(s)
    ensures Sound(Next(s, Check(link, expired)))
  {
    hide Answers, OutcomeOk;
  }

  lemma WriteSound(s: System, link: Id)
    requires Sound(s)
    ensures Sound(Next(s, Write(link)))
  {
    hide Answers;
  }

  lemma ReceiptSound(s: System, link: Id, r: Reply)
    requires Sound(s)
    ensures Sound(Received(s, link, r))
  {
    if Seated(s, link) {
      assert LinkOk(s, link);
      var (l, verdict) := Receive(s.links[link], r);
      if verdict.Handed? {
        var q := verdict.request;
        ReceiptHanded(s, link, r);
        assert CallOk(s, q.id);
        ReceiptLinkOk(s, link, r);
        LocalSound(s, Received(s, link, r), link, q.id);
      }
    }
    hide Receive, LinkOk, CallOk, Local;
  }

  // A handed reply goes to the one call that waits for it, into an empty inbox.
  lemma ReceiptHanded(s: System, link: Id, r: Reply)
    requires Seated(s, link) && LinkOk(s, link) && Receive(s.links[link], r).1.Handed?
    ensures var q := Receive(s.links[link], r).1.request;
            && s.links[link].Pending(r.lane) == Some(q) && Answers(q, r) && r.session == s.links[link].session
            && q.lane == r.lane && PendingOk(s, link, q)
  {
    hide Answers, PendingOk, RecentOk;
  }

  lemma ReceiptLinkOk(s: System, link: Id, r: Reply)
    requires Seated(s, link) && LinkOk(s, link) && Receive(s.links[link], r).1.Handed?
    ensures LinkOk(Received(s, link, r), link)
  {
    hide Answers;
    ReceiptHanded(s, link, r);
  }

  lemma WakeSound(s: System, id: Id)
    requires Sound(s)
    ensures Sound(Next(s, Wake(id)))
  {
    hide Answers;
  }

  lemma GiveUpSound(s: System, id: Id, failure: Failure)
    requires Sound(s)
    ensures Sound(Next(s, GiveUp(id, failure)))
  {
    hide Answers;
  }

  lemma FinishSound(s: System, id: Id)
    requires Sound(s)
    ensures Sound(Next(s, Step.Finish(id)))
  {
    if id in s.calls && s.calls[id].phase.Woken? {
      var link := s.calls[id].link;
      assert CallOk(s, id) && LinkOk(s, link);
      FinishLinkOk(s, id);
      LocalSound(s, Next(s, Step.Finish(id)), link, id);
    }
    hide LinkOk, Answers, OutcomeOk, Released;
  }

  lemma FinishLinkOk(s: System, id: Id)
    requires id in s.calls && CallOk(s, id) && LinkOk(s, s.calls[id].link) && s.calls[id].phase.Woken?
    ensures LinkOk(Next(s, Step.Finish(id)), s.calls[id].link)
  {
    hide Answers, OutcomeOk;
  }

  lemma NextSound(s: System, step: Step)
    requires Sound(s)
    ensures Sound(Next(s, step))
  {
    match step
    case Connect(link, lanes, session, at) => ConnectSound(s, link, lanes, session, at);
    case Disconnect(link) => ClosedSound(s, link); SeatlessSound(Closed(s, link));
    case Supplant => SeatlessSound(s);
    case Stop(link) => ClosedSound(s, link);
    case Begin(q) => BeginSound(s, q);
    case Enqueue(id, now, credentialError) => if id in s.calls { EnqueueSound(s, id, now, credentialError); }
    case Take(link) => TakeSound(s, link);
    case Check(link, expired) => CheckSound(s, link, expired);
    case Write(link) => WriteSound(s, link);
    case Receipt(link, r) => ReceiptSound(s, link, r);
    case Wake(id) => WakeSound(s, id);
    case GiveUp(id, failure) => GiveUpSound(s, id, failure);
    case Finish(id) => FinishSound(s, id);
    hide Sound, Enqueued, Received, Closed;
  }

  lemma SeatlessSound(s: System)
    requires Sound(s)
    ensures Sound(s.(seat := None))
  {
    hide OutcomeOk, Answers;
    forall id | id in s.calls ensures CallOk(s.(seat := None), id) {
      assert CallOk(s, id);
    }
    forall link | link in s.links ensures LinkOk(s.(seat := None), link) {
      assert LinkOk(s, link);
    }
  }

  lemma {:induction false} RunSound(s: System, steps: seq<Step>)
    requires Sound(s)
    ensures Sound(Run(s, steps))
    decreases |steps|
  {
    if steps != [] {
      hide Sound, Next;
      NextSound(s, steps[0]);
      RunSound(Next(s, steps[0]), steps[1..]);
    }
  }

  /* What follows for every interleaving */

  lemma Reachable(steps: seq<Step>)
    ensures Sound(Run(Initial(), steps))
  {
    RunSound(Initial(), steps);
  }

  // A request enters a queue at most once and a socket at most once, and never a
  // socket without a queue. "Not sent" is a proof that it entered neither, and a
  // congested link, which alone is asked again, always gives that proof.
  lemma AtMostOnce(steps: seq<Step>, id: Id)
    requires id in Run(Initial(), steps).calls
    ensures var call := Run(Initial(), steps).calls[id];
            && call.writes <= call.enqueues <= 1
            && (call.phase.Done? && call.phase.outcome.Lost? ==>
                && (call.phase.outcome.notSent <==> call.enqueues == 0)
                && (call.phase.outcome.notSent ==> call.writes == 0)
                && (call.phase.outcome.failure == Congested ==> call.phase.outcome.notSent))
  {
    Reachable(steps);
    hide Run;
    assert CallOk(Run(Initial(), steps), id);
  }

  // What a caller gets answers its own request, on the link and in the session
  // for which the request was made.
  lemma DeliveredAnswers(steps: seq<Step>, id: Id)
    requires var s := Run(Initial(), steps);
             id in s.calls && s.calls[id].phase.Done? && s.calls[id].phase.outcome.Got?
    ensures var s := Run(Initial(), steps);
            var q, r := s.calls[id].request, s.calls[id].phase.outcome.reply;
            && q.id == id && r.id == id && r.lane == q.lane && r.action == q.action
            && s.calls[id].link in s.links && r.session == q.session == s.links[s.calls[id].link].session
            && match q.lane
               case Config =>
                 && r.operationId == q.operationId
                 && (q.serviceId == None || q.serviceId == Some(r.serviceId) || (r.code == C.ServiceMismatch && r.journal == None))
                 && (r.journal == None
                     || (&& q.baseRevision == Some(r.journal.value.baseRevision)
                         && (q.contextRevision == None || q.contextRevision == Some(r.journal.value.contextRevision))
                         && (q.candidate == None || q.candidate == Some(r.journal.value.candidate))))
                 && (r.code != C.Ok || r.action != Secret || r.secretReference == q.secretReference)
               case Restore =>
                 && (q.serviceId == None || q.serviceId == Some(r.serviceId) || r.code == C.ServiceMismatch)
                 && (r.code != C.Ok || r.action != Acknowledge || (r.consent == q.consent && r.consent != None))
  {
    Reachable(steps);
    hide Run;
    assert CallOk(Run(Initial(), steps), id);
    hide Sound, LinkOk;
  }

  // Both lanes together have at most one request pending; whoever hands over its
  // reply finds the caller's inbox empty, so the delivery never blocks or drops.
  lemma OnePending(steps: seq<Step>, link: Id, r: Reply)
    requires link in Run(Initial(), steps).links
    ensures var l := Run(Initial(), steps).links[link];
            && (l.pending.None? || l.restorePending.None?)
            && var verdict := Receive(l, r).1;
               verdict.Handed? ==>
                 && var calls := Run(Initial(), steps).calls;
                 && verdict.request.id in calls && calls[verdict.request.id].request == verdict.request
                 && calls[verdict.request.id].inbox.None? && Waits(calls[verdict.request.id])
  {
    Reachable(steps);
    hide Run, Answers;
    assert LinkOk(Run(Initial(), steps), link);
  }

  // A queued request whose caller has stopped waiting is dropped by the writer.
  lemma AbandonedNotWritten(steps: seq<Step>, link: Id, expired: bool)
    requires var s := Run(Initial(), steps);
             link in s.hands && s.hands[link].Holding? && s.hands[link].request.id in s.calls
             && s.calls[s.hands[link].request.id].phase.Done?
    ensures Next(Run(Initial(), steps), Check(link, expired)).hands[link].Empty?
  {
    Reachable(steps);
    hide Run, Answers;
    assert LinkOk(Run(Initial(), steps), link);
  }

  // A pending request is never among the remembered ones, so the first of its
  // reply and its caller's departure is what puts it there.
  lemma PendingNotRemembered(steps: seq<Step>, link: Id, lane: Lane)
    requires link in Run(Initial(), steps).links
    ensures var l := Run(Initial(), steps).links[link];
            l.Pending(lane).Some? ==> TagOf(l.Pending(lane).value) !in l.recent
  {
    Reachable(steps);
    hide Run, Answers;
    assert LinkOk(Run(Initial(), steps), link);
  }

  /* Connections that are over */

  // A connection that was closed, or is no longer the node's, gets nothing any more.
  predicate Over(s: System, link: Id) {
    link in s.links && (s.links[link].closed || s.seat.None? || s.seat.value.link != link)
  }

  // How often a call of this connection was queued.
  function Queuings(s: System, link: Id, id: Id): nat {
    if id in s.calls && s.calls[id].link == link then s.calls[id].enqueues else 0
  }

  // What ends a connection: a new one, its own end, the replacement of the node, a stop.
  lemma EndsConnection(s: System, link: Id, other: Id, lanes: set<Lane>, session: Id, at: real)
    requires link in s.links
    ensures other !in s.links ==> Over(Next(s, Connect(other, lanes, session, at)), link)
    ensures Over(Next(s, Disconnect(link)), link) && Over(Next(s, Supplant), link) && Over(Next(s, Stop(link)), link)
    ensures other !in s.links && s.seat.Some? && s.seat.value.link == link ==>
              Next(s, Connect(other, lanes, session, at)).links[link].closed
    ensures Next(s, Disconnect(link)).links[link].closed && Next(s, Stop(link)).links[link].closed
  {
  }

  lemma OverStep(s: System, step: Step, link: Id, id: Id)
    requires Over(s, link)
    ensures Over(Next(s, step), link) && Queuings(Next(s, step), link, id) == Queuings(s, link, id)
  {
    hide Answers, Remembered;
    if step.Enqueue? && step.id in s.calls {
      OverEnqueue(s, step.id, step.now, step.credentialError, link, id);
    }
    hide Enqueued, Released, Offer;
    if step.Receipt? {
      OverReceipt(s, step.link, step.reply, link, id);
    }
    hide Received;
  }

  lemma OverEnqueue(s: System, called: Id, now: real, credentialError: bool, link: Id, id: Id)
    requires Over(s, link) && called in s.calls
    ensures Over(Enqueued(s, called, now, credentialError), link)
    ensures Queuings(Enqueued(s, called, now, credentialError), link, id) == Queuings(s, link, id)
  {
    hide Refilled;
  }

  lemma OverReceipt(s: System, to: Id, r: Reply, link: Id, id: Id)
    requires Over(s, link)
    ensures Over(Received(s, to, r), link) && Queuings(Received(s, to, r), link, id) == Queuings(s, link, id)
  {
    hide Answers, Remembered;
  }

  // Once a connection is over it never queues another request, whatever comes.
  lemma {:induction false} OverForever(s: System, steps: seq<Step>, link: Id, id: Id)
    requires Over(s, link)
    ensures Over(Run(s, steps), link) && Queuings(Run(s, steps), link, id) == Queuings(s, link, id)
    decreases |steps|
  {
    hide Over, Queuings, Next;
    if steps != [] {
      OverStep(s, steps[0], link, id);
      OverForever(Next(s, steps[0]), steps[1..], link, id);
    }
  }

  // A request enters the queue exactly if its caller still has to offer it, the node
  // still has the connection that was chosen, the credential could be read, and the
  // link admits it. Whoever is refused learns at once that nothing was sent.
  lemma QueuedExactly(s: System, id: Id, now: real, credentialError: bool)
    requires id in s.calls && s.calls[id].phase.Chosen?
    ensures var t, call := Next(s, Enqueue(id, now, credentialError)), s.calls[id];
            && id in t.calls
            && (t.calls[id] == call.(phase := Queued, enqueues := call.enqueues + 1) <==>
                && !credentialError && call.link in s.links && s.seat.Some? && s.seat.value.link == call.link
                && Offer(s.links[call.link], call.request, now).1 == None)
            && (t.calls[id] == call.(phase := Queued, enqueues := call.enqueues + 1)
                || exists failure :: t.calls[id] == call.(phase := Done(Lost(failure, true))))
  {
    hide Offer;
    var call := s.calls[id];
    var t := Next(s, Enqueue(id, now, credentialError));
    assert t.calls[id].phase.Done? ==> t.calls[id] == call.(phase := Done(Lost(t.calls[id].phase.outcome.failure, true)));
  }

  // The writer sends the request in its hand only if it has not expired, the node still
  // has this connection in this session, and the request's caller still waits on it.
  lemma ClearedExactly(s: System, link: Id, expired: bool)
    requires link in s.hands && s.hands[link].Holding?
    ensures var hand, q := Next(s, Check(link, expired)).hands[link], s.hands[link].request;
            && (hand == Cleared(q) <==>
                && !expired && link in s.links && s.seat.Some? && s.seat.value.link == link && s.links[link].session == q.session
                && match q.lane
                   case Config => s.links[link].pending.Some? && s.links[link].pending.value.id == q.id
                   case Restore => s.links[link].restorePending.Some? && s.links[link].restorePending.value.id == q.id)
            && (hand != Cleared(q) ==> hand == Empty)
  {
  }

  /* A congested link whose queue is full */

  function GivingUp(first: Request, second: Request): seq<Step> {
    [Connect(1, {first.lane}, first.session, 0.0), Begin(first), Enqueue(first.id, 0.0, false),
     GiveUp(first.id, Timeout), Finish(first.id), Begin(second)]
  }

  // The queue can still hold a request nobody waits for: the next caller is told
  // that the link is congested although nothing is pending.
  lemma FullQueueWithoutPending(first: Request, second: Request)
    requires first.id != second.id && first.lane == second.lane && first.session == second.session && first.serviceId == second.serviceId
    ensures var s := Run(Initial(), GivingUp(first, second));
            var t := Next(s, Enqueue(second.id, 0.0, false));
            && 1 in s.links && !s.links[1].Busy()
            && second.id in t.calls && t.calls[second.id].phase == Done(Lost(Congested, true))
  {
    var s1 := Next(Initial(), Connect(1, {first.lane}, first.session, 0.0));
    var s2 := Next(s1, Begin(first));
    var s3 := Next(s2, Enqueue(first.id, 0.0, false));
    var s4 := Next(s3, GiveUp(first.id, Timeout));
    var s5 := Next(s4, Step.Finish(first.id));
    var s6 := Next(s5, Begin(second));
    RunUnrolled(Initial(), GivingUp(first, second), [s1, s2, s3, s4, s5, s6]);
  }

  lemma {:induction false} RunUnrolled(s: System, steps: seq<Step>, states: seq<System>)
    requires |steps| == |states| > 0
    requires states[0] == Next(s, steps[0]) && forall i, j :: 0 <= i && j == i + 1 < |steps| ==> states[j] == Next(states[i], steps[j])
    ensures Run(s, steps) == states[|states| - 1]
    decreases |steps|
  {
    hide Next;
    if |steps| > 1 {
      RunUnrolled(states[0], steps[1..], states[1..]);
    } else {
      assert steps[1..] == [];
    }
  }
}

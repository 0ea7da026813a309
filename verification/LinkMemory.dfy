// How long a link remembers a request that was answered or given up, over every
// interleaving. Within that time a late reply is taken note of and given to
// nobody; after it the reply is refused, which closes the connection.
module LinkMemory {
  import opened Basics
  import opened Links
  import opened LinkRuns
  import C = ResultCodes

  /* What one step does to the memory of a link */

  // The request that the step put into the memory of the link, if it put one there.
  function FirstRemembered(s: System, step: Step, link: Id): Option<Tag> {
    var t := Next(s, step);
    if link in s.links && link in t.links && t.links[link].recent != s.links[link].recent && t.links[link].recent != [] then
      Some(t.links[link].recent[|t.links[link].recent| - 1])
    else None
  }

  // The call has its reply, or its caller has left; neither is ever undone.
  predicate Settled(s: System, id: Id) {
    id in s.calls && s.calls[id].enqueues == 1 && (s.calls[id].inbox.Some? || s.calls[id].phase.Done?)
  }

  lemma ReceiptRemembers(s: System, link: Id, r: Reply)
    requires Sound(s) && Seated(s, link)
    ensures var t := Received(s, link, r);
            && t.links.Keys == s.links.Keys
            && (forall other :: other in s.links && other != link ==> t.links[other] == s.links[other])
            && (t.links[link].recent == s.links[link].recent
                || (t.links[link].recent == Remembered(s.links[link].recent, (r.lane, r.id)) && (r.lane, r.id) !in s.links[link].recent
                    && Settled(t, r.id)))
  {
    assert LinkOk(s, link);
    hide Remembered;
    if Receive(s.links[link], r).1.Handed? {
      ReceiptHanded(s, link, r);
    }
    hide LinkOk, Sound;
  }

  lemma UnseatedUnheard(s: System, link: Id, r: Reply)
    requires !Seated(s, link)
    ensures Received(s, link, r) == s
  {
  }

  lemma FinishRemembers(s: System, id: Id)
    requires Sound(s) && id in s.calls && s.calls[id].phase.Woken?
    ensures var t := Next(s, Step.Finish(id));
            var link := s.calls[id].link;
            var tag := TagOf(s.calls[id].request);
            && link in s.links && t.links.Keys == s.links.Keys
            && (forall other :: other in s.links && other != link ==> t.links[other] == s.links[other])
            && t.links[link].recent == Remembered(s.links[link].recent, tag) && tag.1 == id && Settled(t, id)
  {
    assert CallOk(s, id);
    hide Sound, Remembered, OutcomeOk, Answers;
  }

  lemma OtherStepsKeepMemory(s: System, step: Step, link: Id)
    requires Sound(s) && link in s.links && !step.Receipt? && !step.Finish?
    ensures link in Next(s, step).links && Next(s, step).links[link].recent == s.links[link].recent
  {
    if step.Enqueue? && step.id in s.calls {
      assert CallOk(s, step.id);
    }
    hide Sound, CallOk, LinkOk;
  }

  lemma RememberedLast(recent: seq<Tag>, tag: Tag)
    ensures tag in recent ==> Remembered(recent, tag) == recent
    ensures var next := Remembered(recent, tag);
            tag !in recent ==> next != recent && next != [] && next[|next| - 1] == tag
  {
  }

  // The memory changes only when a reply is handed over or a caller leaves, and
  // then by the one tag that was not in it.
  lemma StepRemembers(s: System, step: Step, link: Id)
    requires Sound(s) && link in s.links
    ensures link in Next(s, step).links
    ensures var recent := s.links[link].recent;
            match FirstRemembered(s, step, link)
            case None => Next(s, step).links[link].recent == recent
            case Some(tag) =>
              && Next(s, step).links[link].recent == Remembered(recent, tag) && tag !in recent
              && Settled(Next(s, step), tag.1) && (step.Receipt? || step == Step.Finish(tag.1))
  {
    match step
    case Receipt(at, r) =>
      hide Received, Settled, Remembered;
      if Seated(s, at) {
        ReceiptRemembers(s, at, r);
        RememberedLast(s.links[at].recent, (r.lane, r.id));
      } else {
        UnseatedUnheard(s, at, r);
      }
      hide Sound;
    case Finish(id) =>
      hide Released, Settled, Remembered;
      if id in s.calls && s.calls[id].phase.Woken? {
        FinishRemembers(s, id);
        RememberedLast(s.links[s.calls[id].link].recent, TagOf(s.calls[id].request));
      }
      hide Sound;
    case _ =>
      OtherStepsKeepMemory(s, step, link);
      hide Sound, Settled, Remembered, Next;
  }

  lemma SettledStays(s: System, step: Step, id: Id)
    requires Sound(s) && Settled(s, id)
    ensures Settled(Next(s, step), id)
  {
    assert CallOk(s, id);
    hide Sound, LinkOk, OutcomeOk, Answers, Offer, Released;
  }

  /* The memory over a run */

  // The requests that the run put into the memory of the link, in order.
  function News(s: System, steps: seq<Step>, link: Id): seq<Tag>
    decreases |steps|
  {
    if steps == [] then []
    else Listed(FirstRemembered(s, steps[0], link)) + News(Next(s, steps[0]), steps[1..], link)
  }

  function Newest(tags: seq<Tag>): seq<Tag> {
    if |tags| <= REMEMBERED then tags else tags[|tags| - REMEMBERED..]
  }

  // One more entry, and then the rest.
  lemma NewestStepwise(recent: seq<Tag>, tag: Option<Tag>, news: seq<Tag>, next: seq<Tag>)
    requires |recent| <= REMEMBERED
    requires next == match tag case None => recent case Some(value) => Remembered(recent, value)
    requires tag.Some? ==> tag.value !in recent
    ensures |next| <= REMEMBERED
    ensures Newest(next + news) == Newest(recent + (Listed(tag) + news))
  {
    var all := recent + (Listed(tag) + news);
    if tag.Some? && |recent| == REMEMBERED {
      assert next + news == all[1..];
    } else {
      assert next + news == all;
    }
  }

  function Listed(tag: Option<Tag>): seq<Tag> {
    match tag case None => [] case Some(value) => [value]
  }

  // In every run the memory is the last sixteen of what was remembered, each
  // counted when it was first put there.
  lemma {:induction false} MemoryIsNewest(s: System, steps: seq<Step>, link: Id)
    requires Sound(s) && link in s.links
    ensures link in Run(s, steps).links
    ensures Run(s, steps).links[link].recent == Newest(s.links[link].recent + News(s, steps, link))
    decreases |steps|
  {
    var recent := s.links[link].recent;
    assert |recent| <= REMEMBERED by { assert LinkOk(s, link); }
    hide Sound, Next, FirstRemembered, Remembered;
    if steps == [] {
      assert recent + [] == recent;
    } else {
      var t := Next(s, steps[0]);
      NextSound(s, steps[0]);
      StepRemembers(s, steps[0], link);
      NewestStepwise(recent, FirstRemembered(s, steps[0], link), News(t, steps[1..], link), t.links[link].recent);
      hide Newest, Listed;
      MemoryIsNewest(t, steps[1..], link);
    }
  }

  // An entry outlasts as many new ones as came before it and would fill the memory.
  lemma EntrySurvives(s: System, steps: seq<Step>, link: Id, k: nat)
    requires Sound(s) && link in s.links && k < |s.links[link].recent|
    requires |News(s, steps, link)| <= REMEMBERED - |s.links[link].recent| + k
    ensures link in Run(s, steps).links && s.links[link].recent[k] in Run(s, steps).links[link].recent
  {
    hide Sound, Run, News;
    MemoryIsNewest(s, steps, link);
    var all := s.links[link].recent + News(s, steps, link);
    assert all[k] == s.links[link].recent[k];
  }

  lemma {:induction false} SettledForever(s: System, steps: seq<Step>, id: Id)
    requires Sound(s) && Settled(s, id)
    ensures Sound(Run(s, steps)) && Settled(Run(s, steps), id)
    decreases |steps|
  {
    if steps != [] {
      hide Sound, Next, Settled;
      NextSound(s, steps[0]);
      SettledStays(s, steps[0], id);
      SettledForever(Next(s, steps[0]), steps[1..], id);
    }
  }

  predicate Fits(l: Link, r: Reply) {
    r.lane in l.lanes && r.session == l.session
  }

  // Nobody waits for a settled call, so a further reply to it is absorbed exactly
  // if the link still remembers it.
  lemma SettledReply(s: System, link: Id, r: Reply)
    requires Sound(s) && link in s.links && Settled(s, r.id)
    ensures Receive(s.links[link], r) ==
            (s.links[link], if Fits(s.links[link], r) && (r.lane, r.id) in s.links[link].recent then Absorbed else Refused)
  {
    assert LinkOk(s, link);
    hide Sound, Answers, RecentOk;
  }

  // A reply absorbed advances the sequence of the connection and nothing else.
  function Noted(s: System, link: Id, r: Reply): System {
    if Seated(s, link) && r.sequence > s.seat.value.sequence then s.(seat := Some(s.seat.value.(sequence := r.sequence))) else s
  }

  lemma AbsorbedIsNoted(s: System, link: Id, r: Reply)
    requires link in s.links && Receive(s.links[link], r).0 == s.links[link] && !Receive(s.links[link], r).1.Handed?
    ensures Received(s, link, r) == if Receive(s.links[link], r).1.Absorbed? then Noted(s, link, r) else s
  {
    hide Receive;
    assert s.links[link := s.links[link]] == s.links;
  }

  lemma NewestHolds(recent: seq<Tag>, tag: Tag, news: seq<Tag>)
    requires |recent| <= REMEMBERED && tag !in recent
    ensures |news| < REMEMBERED ==> tag in Newest(Remembered(recent, tag) + news)
    ensures tag !in news ==> (tag in Newest(Remembered(recent, tag) + news) <==> |news| < REMEMBERED)
  {
    var next := Remembered(recent, tag);
    var all := next + news;
    assert all[|next| - 1] == tag;
    assert forall i :: 0 <= i < |next| - 1 ==> next[i] in recent;
  }

  // The late-reply rule over every interleaving. The link first remembers a request
  // when its reply is handed over or its caller leaves. From then on a further reply
  // to it is absorbed while fewer than sixteen other requests were remembered since,
  // and until the request is remembered anew it is absorbed only then. It is never
  // handed to anybody.
  lemma LateReplyAbsorbed(before: seq<Step>, first: Step, later: seq<Step>, link: Id, r: Reply)
    requires link in Run(Initial(), before).links
    requires FirstRemembered(Run(Initial(), before), first, link) == Some((r.lane, r.id))
    ensures var s := Next(Run(Initial(), before), first);
            var t := Run(s, later);
            var news := News(s, later, link);
            && link in t.links && !Receive(t.links[link], r).1.Handed?
            && (Fits(t.links[link], r) && |news| < REMEMBERED ==>
                Receive(t.links[link], r).1.Absorbed? && Received(t, link, r) == Noted(t, link, r))
            && ((r.lane, r.id) !in news ==>
                && (Receive(t.links[link], r).1.Absorbed? <==> Fits(t.links[link], r) && |news| < REMEMBERED)
                && (|news| >= REMEMBERED ==> Received(t, link, r) == t))
  {
    Reachable(before);
    var u := Run(Initial(), before);
    var s := Next(u, first);
    NextSound(u, first);
    StepRemembers(u, first, link);
    assert |u.links[link].recent| <= REMEMBERED by { assert LinkOk(u, link); }
    hide Sound, Next, Run, News, FirstRemembered, Settled, Remembered;
    SettledForever(s, later, r.id);
    MemoryIsNewest(s, later, link);
    NewestHolds(u.links[link].recent, (r.lane, r.id), News(s, later, link));
    SettledReply(Run(s, later), link, r);
    AbsorbedIsNoted(Run(s, later), link, r);
  }

  /* Finishing again does not renew */

  // A caller that leaves after its reply was handed over finds its request in the
  // memory already, and the memory stays as it is.
  lemma SecondFinishKeepsMemory(s: System, id: Id)
    requires Sound(s) && id in s.calls && s.calls[id].phase.Woken? && s.calls[id].link in s.links
    requires TagOf(s.calls[id].request) in s.links[s.calls[id].link].recent
    ensures FirstRemembered(s, Step.Finish(id), s.calls[id].link).None?
  {
    StepRemembers(s, Step.Finish(id), s.calls[id].link);
    FinishRemembers(s, id);
    RememberedLast(s.links[s.calls[id].link].recent, TagOf(s.calls[id].request));
    hide Sound, Next, Remembered;
  }

  function Ask(id: Id): Request {
    Request(Config, id, 0, Query, None, None, None, None, None, None, None)
  }

  function Answer(sequence: nat): Reply {
    Reply(Config, 0, 0, sequence, Query, C.Ok, 0, None, None, None, None)
  }

  // The first request is asked and answered, but its caller does not look yet.
  function Opening(): seq<Step> {
    [Connect(1, {Config}, 0, 0.0)] + Asking(0) + (Writing() + [Receipt(1, Answer(2))])
  }

  function Writing(): seq<Step> {
    [Take(1), Check(1, false), Write(1)]
  }

  function Asking(n: nat): seq<Step> {
    [Begin(Ask(n)), Enqueue(n, n as real, false)]
  }

  // One more request, given up before it is written.
  function Round(n: nat): seq<Step> {
    Asking(n) + [GiveUp(n, Timeout), Step.Finish(n), Take(1), Check(1, false)]
  }

  function Rounds(n: nat): seq<Step>
    requires n <= REMEMBERED
    decreases REMEMBERED - n
  {
    if n == REMEMBERED then [] else Round(n) + Rounds(n + 1)
  }

  // The first caller looks only after fifteen other requests were finished.
  function LateCaller(): seq<Step> {
    Opening() + Rounds(1) + [Wake(0), Step.Finish(0)]
  }

  // The link is idle, and only requests below n were made.
  ghost predicate Idle(s: System, n: nat) {
    && s.seat == Some(Seat(1, 2)) && 1 in s.links && 1 in s.hands && s.hands[1].Empty? && 0 in s.calls
    && (forall id :: id in s.calls ==> id < n)
    && var l := s.links[1];
    && l.lanes == {Config} && l.session == 0 && !l.closed && l.serviceId.None?
    && l.pending.None? && l.restorePending.None? && l.queue.None?
    && l.tokens >= 0.0 && l.replenished <= (n as real) - 1.0
  }

  // Request n was put into the queue of the idle link.
  ghost predicate Asked(s: System, n: nat) {
    && s.seat.Some? && s.seat.value.link == 1 && 1 in s.links && 1 in s.hands && s.hands[1].Empty? && 0 in s.calls && n in s.calls
    && (forall id :: id in s.calls ==> id <= n)
    && s.calls[n] == Call(1, Ask(n), Queued, None, 1, 0)
    && var l := s.links[1];
    && l.lanes == {Config} && l.session == 0 && !l.closed && l.serviceId.None?
    && l.pending == Some(Ask(n)) && l.restorePending.None? && l.queue == Some(Ask(n))
    && l.tokens >= 0.0 && l.replenished <= n as real
  }

  lemma AskingRun(s: System, n: nat)
    requires Idle(s, n) || (s == Next(Initial(), Connect(1, {Config}, 0, 0.0)) && n == 0)
    ensures var t := Run(s, Asking(n));
            && Asked(t, n) && 1 in s.links && t.links[1].recent == s.links[1].recent && t.seat == s.seat
            && (0 in s.calls ==> t.calls[0] == s.calls[0])
  {
    var s1 := Next(s, Begin(Ask(n)));
    var s2 := Next(s1, Enqueue(n, n as real, false));
    RunUnrolled(s, Asking(n), [s1, s2]);
  }

  lemma OpeningRun()
    ensures var s := Run(Initial(), Opening());
            && Idle(s, 1) && s.links[1].recent == [(Config, 0)]
            && s.calls[0] == Call(1, Ask(0), Queued, Some(Answer(2)), 1, 1)
  {
    var s0 := Next(Initial(), Connect(1, {Config}, 0, 0.0));
    AskingRun(s0, 0);
    var s := Run(s0, Asking(0));
    AnsweredRun(s);
    AnsweredIdle(s);
    var rest := Writing() + [Receipt(1, Answer(2))];
    RunConcatenated(s0, Asking(0), rest);
    assert Opening()[1..] == Asking(0) + rest;
    hide Asked, Idle, Writing, Asking;
  }

  // The request was written, and its reply handed over to a caller who has yet to look.
  function Answered(s: System): System
    requires 1 in s.links && 0 in s.calls
  {
    System(s.links[1 := s.links[1].(queue := None, pending := None, recent := [(Config, 0)])], s.hands, Some(Seat(1, 2)),
           s.calls[0 := s.calls[0].(writes := 1, inbox := Some(Answer(2)))])
  }

  lemma AnsweredRun(s: System)
    requires Asked(s, 0) && s.links[1].recent == [] && s.seat.value.sequence == 1
    ensures Run(s, Writing() + [Receipt(1, Answer(2))]) == Answered(s)
  {
    WrittenRun(s);
    AnswerReceived(s);
    hide Run, Writing, Received, Written, Answered, Next, Asked;
    LastReceipt(s, Writing(), 1, Answer(2));
  }

  lemma AnsweredIdle(s: System)
    requires Asked(s, 0)
    ensures Idle(Answered(s), 1)
  {
  }

  function Written(s: System): System
    requires 1 in s.links && 0 in s.calls
  {
    s.(links := s.links[1 := s.links[1].(queue := None)], calls := s.calls[0 := s.calls[0].(writes := 1)])
  }

  lemma WrittenRun(s: System)
    requires Asked(s, 0)
    ensures Run(s, Writing()) == Written(s)
  {
    var s1 := s.(links := s.links[1 := s.links[1].(queue := None)], hands := s.hands[1 := Holding(Ask(0))]);
    var s2 := s1.(hands := s1.hands[1 := Cleared(Ask(0))]);
    var s3 := s2.(hands := s.hands, calls := s.calls[0 := s.calls[0].(writes := 1)]);
    assert Next(s, Take(1)) == s1;
    CurrentCleared(s1, Ask(0));
    ClearedWritten(s2, s.hands);
    RunUnrolled(s, Writing(), [s1, s2, s3]);
    hide Run, Next;
  }

  lemma CurrentCleared(s: System, q: Request)
    requires 1 in s.hands && s.hands[1] == Holding(q) && StillCurrent(s, 1, q)
    ensures Next(s, Check(1, false)) == s.(hands := s.hands[1 := Cleared(q)])
  {
  }

  lemma ClearedWritten(s: System, hands: map<Id, Hand>)
    requires 1 in s.hands && s.hands[1] == Cleared(Ask(0)) && 0 in s.calls && s.hands[1 := Empty] == hands
    ensures Next(s, Write(1)) == s.(hands := hands, calls := s.calls[0 := s.calls[0].(writes := s.calls[0].writes + 1)])
  {
  }

  lemma AnswerReceived(s: System)
    requires Asked(s, 0) && s.links[1].recent == [] && s.seat.value.sequence == 1
    ensures Received(Written(s), 1, Answer(2)) == Answered(s)
  {
    AnswerHanded(Written(s).links[1]);
    hide Receive, Answers;
    assert Received(Written(s), 1, Answer(2)).links == Answered(s).links;
  }

  lemma AnswerHanded(l: Link)
    requires l.lanes == {Config} && l.session == 0 && l.pending == Some(Ask(0)) && l.recent == []
    ensures Receive(l, Answer(2)) == (l.(pending := None, recent := [(Config, 0)]), Handed(Ask(0)))
  {
    FirstRemembrance((Config, 0));
    assert Answers(Ask(0), Answer(2));
    hide Answers, Remembered;
  }

  lemma FirstRemembrance(tag: Tag)
    ensures Remembered([], tag) == [tag]
  {
  }

  lemma LeavingRun(s: System, n: nat)
    requires Asked(s, n) && n > 0 && s.seat == Some(Seat(1, 2))
    ensures var t := Run(s, [GiveUp(n, Timeout), Step.Finish(n), Take(1), Check(1, false)]);
            && Idle(t, n + 1) && t.links[1].recent == Remembered(s.links[1].recent, (Config, n)) && t.calls[0] == s.calls[0]
  {
    var left := GaveUp(s, n);
    GivingUpRun(s, n);
    DroppedRun(left, n);
    GaveUpIdle(s, n);
    var t := left.(links := left.links[1 := left.links[1].(queue := None)]);
    RunConcatenated(s, [GiveUp(n, Timeout), Step.Finish(n)], [Take(1), Check(1, false)]);
    assert [GiveUp(n, Timeout), Step.Finish(n)] + [Take(1), Check(1, false)] == [GiveUp(n, Timeout), Step.Finish(n), Take(1), Check(1, false)];
    hide Run, Remembered, Idle;
  }

  // The caller gave up and left, and its request is still in the queue.
  function GaveUp(s: System, n: nat): System
    requires 1 in s.links && n in s.calls
  {
    var l := s.links[1].(pending := None, recent := Remembered(s.links[1].recent, (Config, n)));
    s.(links := s.links[1 := l], calls := s.calls[n := s.calls[n].(phase := Done(Lost(Timeout, false)))])
  }

  lemma GivingUpRun(s: System, n: nat)
    requires Asked(s, n)
    ensures Run(s, [GiveUp(n, Timeout), Step.Finish(n)]) == GaveUp(s, n)
  {
    var s1 := Next(s, GiveUp(n, Timeout));
    assert Next(s1, Step.Finish(n)).calls == GaveUp(s, n).calls;
    RunUnrolled(s, [GiveUp(n, Timeout), Step.Finish(n)], [s1, Next(s1, Step.Finish(n))]);
    hide Run, Remembered;
  }

  lemma DroppedRun(s: System, n: nat)
    requires 1 in s.links && 1 in s.hands && s.hands[1].Empty? && s.links[1].queue == Some(Ask(n)) && s.links[1].pending.None?
    ensures Run(s, [Take(1), Check(1, false)]) == s.(links := s.links[1 := s.links[1].(queue := None)])
  {
    var s1 := Next(s, Take(1));
    assert Next(s1, Check(1, false)).hands == s.hands;
    RunUnrolled(s, [Take(1), Check(1, false)], [s1, Next(s1, Check(1, false))]);
    hide Run;
  }

  lemma GaveUpIdle(s: System, n: nat)
    requires Asked(s, n) && n > 0 && s.seat == Some(Seat(1, 2))
    ensures var left := GaveUp(s, n); Idle(left.(links := left.links[1 := left.links[1].(queue := None)]), n + 1)
  {
    hide Remembered;
  }

  lemma RoundRun(s: System, n: nat)
    requires Idle(s, n) && n > 0
    ensures var t := Run(s, Round(n));
            && Idle(t, n + 1) && t.links[1].recent == Remembered(s.links[1].recent, (Config, n)) && t.calls[0] == s.calls[0]
  {
    AskingRun(s, n);
    LeavingRun(Run(s, Asking(n)), n);
    RunConcatenated(s, Asking(n), [GiveUp(n, Timeout), Step.Finish(n), Take(1), Check(1, false)]);
    hide Remembered, Run;
  }

  lemma {:induction false} RunConcatenated(s: System, before: seq<Step>, after: seq<Step>)
    ensures Run(s, before + after) == Run(Run(s, before), after)
    decreases |before|
  {
    hide Next;
    if before == [] {
      assert before + after == after;
    } else {
      assert (before + after)[1..] == before[1..] + after;
      RunConcatenated(Next(s, before[0]), before[1..], after);
    }
  }

  lemma LastReceipt(s: System, before: seq<Step>, link: Id, r: Reply)
    ensures Run(s, before + [Receipt(link, r)]) == Received(Run(s, before), link, r)
  {
    hide Received;
    RunConcatenated(s, before, [Receipt(link, r)]);
    RunUnrolled(Run(s, before), [Receipt(link, r)], [Received(Run(s, before), link, r)]);
  }

  function Numbered(n: nat): seq<Tag> {
    seq(n, i => (Config, i))
  }

  lemma {:induction false} RoundsRun(s: System, n: nat)
    requires Idle(s, n) && 0 < n <= REMEMBERED && s.links[1].recent == Numbered(n)
    ensures var t := Run(s, Rounds(n));
            Idle(t, REMEMBERED) && t.links[1].recent == Numbered(REMEMBERED) && t.calls[0] == s.calls[0]
    decreases REMEMBERED - n
  {
    hide Idle, Round;
    if n < REMEMBERED {
      RoundRun(s, n);
      RunConcatenated(s, Round(n), Rounds(n + 1));
      assert Numbered(n) + [(Config, n)] == Numbered(n + 1);
      RoundsRun(Run(s, Round(n)), n + 1);
    }
  }

  // A reachable link on which the first request was finished a moment ago and is
  // forgotten with the very next one: what counts is that its reply came earlier.
  lemma NotRenewed()
    ensures var s := Run(Initial(), LateCaller());
            var t := Run(s, Round(REMEMBERED));
            && 1 in s.links && 0 in s.calls && s.calls[0].phase == Done(Got(Answer(2)))
            && Receive(s.links[1], Answer(3)).1.Absorbed?
            && 1 in t.links && t.links[1].recent == s.links[1].recent[1..] + [(Config, REMEMBERED)]
            && Receive(t.links[1], Answer(3)).1.Refused?
  {
    LateCallerRun();
    OneMoreForgets(Run(Initial(), LateCaller()));
    hide Run, Receive, Idle, LateCaller, Round;
  }

  lemma OneMoreForgets(s: System)
    requires Idle(s, REMEMBERED) && s.links[1].recent == Numbered(REMEMBERED)
    ensures var t := Run(s, Round(REMEMBERED));
            && Receive(s.links[1], Answer(3)).1.Absorbed?
            && 1 in t.links && t.links[1].recent == s.links[1].recent[1..] + [(Config, REMEMBERED)]
            && Receive(t.links[1], Answer(3)).1.Refused?
  {
    RoundRun(s, REMEMBERED);
    Unpended(s, REMEMBERED);
    Unpended(Run(s, Round(REMEMBERED)), REMEMBERED + 1);
    hide Run, Receive, Idle, Round;
    var recent := s.links[1].recent;
    assert recent[0] == (Config, 0) && forall i :: 0 < i < REMEMBERED ==> recent[i] != (Config, 0);
    assert (Config, REMEMBERED) !in recent;
  }

  lemma LateCallerRun()
    ensures var s := Run(Initial(), LateCaller());
            Idle(s, REMEMBERED) && s.links[1].recent == Numbered(REMEMBERED) && s.calls[0].phase == Done(Got(Answer(2)))
  {
    hide Idle, Opening, Rounds;
    OpeningRun();
    assert [(Config, 0)] == Numbered(1);
    RoundsRun(Run(Initial(), Opening()), 1);
    var s := Run(Run(Initial(), Opening()), Rounds(1));
    LateFinish(s);
    RunConcatenated(Initial(), Opening(), Rounds(1));
    RunConcatenated(Initial(), Opening() + Rounds(1), [Wake(0), Step.Finish(0)]);
    hide Run;
  }

  lemma LateFinish(s: System)
    requires Idle(s, REMEMBERED) && s.links[1].recent == Numbered(REMEMBERED) && s.calls[0] == Call(1, Ask(0), Queued, Some(Answer(2)), 1, 1)
    ensures var t := Run(s, [Wake(0), Step.Finish(0)]);
            Idle(t, REMEMBERED) && t.links[1].recent == Numbered(REMEMBERED) && t.calls[0].phase == Done(Got(Answer(2)))
  {
    assert Numbered(REMEMBERED)[0] == (Config, 0);
    var s1 := Next(s, Wake(0));
    var s2 := Next(s1, Step.Finish(0));
    RunUnrolled(s, [Wake(0), Step.Finish(0)], [s1, s2]);
  }

  lemma Unpended(s: System, n: nat)
    requires Idle(s, n)
    ensures 1 in s.links && 0 in s.calls
    ensures Receive(s.links[1], Answer(3)).1 == if (Config, 0) in s.links[1].recent then Absorbed else Refused
  {
  }
}

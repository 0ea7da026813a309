// Token buckets, with floating point read as real arithmetic and clocks that do
// not run backwards: handshakes, frames of one connection, and the requests that
// enter the queue of one link.
module TokenBuckets {
  import opened Basics
  import opened Links
  import opened LinkRuns

  class TokenBucket {
    const rate: real
    const burst: real
    var tokens: real
    var last: real

    constructor (rate: real, burst: real, now: real)
      ensures Contents() == Bucket(rate, burst, burst, now)
    {
      this.rate, this.burst, tokens, last := rate, burst, burst, now;
    }

    function Contents(): Bucket
      reads this
    {
      Bucket(rate, burst, tokens, last)
    }

    method Spend(now: real) returns (ok: bool)
      modifies this`tokens, this`last
      ensures (Contents(), ok) == Spent(old(Contents()), now)
      ensures ok <==> old(tokens) + Gain(now - old(last), rate) >= 1.0 && burst >= 1.0
      ensures var level := old(tokens) + Gain(now - old(last), rate);
              last == now && tokens == (if level > burst then burst else level) - if ok then 1.0 else 0.0
    {
      hide Gain;
      tokens := tokens + Gain(now - last, rate);
      if tokens > burst {
        tokens := burst;
      }
      last := now;
      if tokens < 1.0 {
        return false;
      }
      tokens := tokens - 1.0;
      return true;
    }
  }

  datatype Bucket = Bucket(rate: real, burst: real, tokens: real, last: real)

  const HANDSHAKE_RATE := 20.0
  const HANDSHAKE_BURST := 40.0

  // The frames of a connection, by what its Agent offered.
  function FrameLimits(probes: bool, control: bool): (real, real) {
    if probes then (40.0, 80.0) else if control then (6.0, 16.0) else (2.0, 8.0)
  }

  // The tokens that some time adds.
  function Gain(elapsed: real, rate: real): real {
    elapsed * rate
  }

  lemma GainAdds(x: real, y: real, rate: real)
    ensures Gain(x + y, rate) == Gain(x, rate) + Gain(y, rate)
    ensures Gain(0.0, rate) == 0.0
    ensures rate >= 0.0 && x >= 0.0 ==> Gain(x, rate) >= 0.0
    ensures rate >= 0.0 && y >= 0.0 ==> Gain(y, rate) >= 0.0
  {
  }

  function Level(b: Bucket, now: real): real {
    var level := b.tokens + Gain(now - b.last, b.rate);
    if level > b.burst then b.burst else level
  }

  function Spent(b: Bucket, now: real): (Bucket, bool) {
    var level := Level(b, now);
    if level < 1.0 then (b.(tokens := level, last := now), false)
    else (b.(tokens := level - 1.0, last := now), true)
  }

  function After(b: Bucket, times: seq<real>): Bucket
    decreases |times|
  {
    if times == [] then b else After(Spent(b, times[0]).0, times[1..])
  }

  function Admitted(b: Bucket, times: seq<real>): nat
    decreases |times|
  {
    if times == [] then 0 else (if Spent(b, times[0]).1 then 1 else 0) + Admitted(Spent(b, times[0]).0, times[1..])
  }

  predicate Ordered(times: seq<real>, from: real, to: real) {
    && from <= to
    && (forall i :: 0 <= i < |times| ==> from <= times[i] <= to)
    && forall i, j :: 0 <= i < j < |times| ==> times[i] <= times[j]
  }

  predicate Sane(b: Bucket) {
    b.rate > 0.0 && b.burst >= 1.0 && b.tokens <= b.burst
  }

  lemma LevelGrows(b: Bucket, from: real, to: real)
    requires Sane(b) && b.last <= from <= to
    ensures b.tokens <= Level(b, from) <= Level(b, to) <= Level(b, from) + Gain(to - from, b.rate)
    ensures Level(b, b.last) == b.tokens
  {
    hide Gain;
    GainAdds(from - b.last, to - from, b.rate);
    assert from - b.last + (to - from) == to - b.last;
  }

  // One request: what it took, and what is left at a later time.
  lemma SpentLevel(b: Bucket, from: real, at: real, to: real)
    requires Sane(b) && b.last <= from <= at <= to
    ensures var (c, ok) := Spent(b, at);
            && Sane(c) && c.last == at && c.rate == b.rate && c.burst == b.burst
            && Level(c, at) == c.tokens
            && (if ok then 1.0 else 0.0) + c.tokens + Gain(to - at, b.rate) <= Level(b, from) + Gain(to - from, b.rate)
            && (b.tokens >= 0.0 ==> c.tokens >= 0.0)
  {
    hide Gain;
    LevelGrows(b, from, at);
    LevelGrows(b, from, from);
    LevelGrows(Spent(b, at).0, at, at);
    GainAdds(at - from, to - at, b.rate);
    assert at - from + (to - at) == to - from;
  }

  // What was admitted, and what is left, came out of what was there and what the
  // elapsed time added.
  lemma {:induction false} Accounted(b: Bucket, times: seq<real>, from: real, to: real)
    requires Sane(b) && b.last <= from && Ordered(times, from, to)
    ensures Admitted(b, times) as real + Level(After(b, times), to) <= Level(b, from) + Gain(to - from, b.rate)
    ensures Sane(After(b, times)) && After(b, times).last <= to && After(b, times).rate == b.rate && After(b, times).burst == b.burst
    ensures b.tokens >= 0.0 ==> After(b, times).tokens >= 0.0
    decreases |times|
  {
    hide Gain, Level;
    if times == [] {
      LevelGrows(b, from, to);
    } else {
      SpentLevel(b, from, times[0], to);
      hide Spent, Sane;
      Accounted(Spent(b, times[0]).0, times[1..], times[0], to);
    }
  }

  // Whatever happened before, and however the requests arrive, at most
  // burst + rate * T of them are admitted in any T seconds.
  lemma WindowBound(b: Bucket, before: seq<real>, times: seq<real>, start: real, from: real, to: real)
    requires Sane(b) && b.last <= start && b.tokens >= 0.0 && Ordered(before, start, from) && Ordered(times, from, to)
    ensures Admitted(After(b, before), times) as real <= b.burst + Gain(to - from, b.rate)
  {
    hide Ordered, Gain;
    Accounted(b, before, start, from);
    var c := After(b, before);
    Accounted(c, times, from, to);
    LevelGrows(After(c, times), to, to);
  }

  // At most 40 + 20 T handshakes in any T seconds, whoever asks for them.
  lemma HandshakeBound(before: seq<real>, times: seq<real>, start: real, from: real, to: real)
    requires Ordered(before, start, from) && Ordered(times, from, to)
    ensures var b := Bucket(HANDSHAKE_RATE, HANDSHAKE_BURST, HANDSHAKE_BURST, start);
            Admitted(After(b, before), times) as real <= 40.0 + 20.0 * (to - from)
  {
    hide Ordered, Admitted, After;
    WindowBound(Bucket(HANDSHAKE_RATE, HANDSHAKE_BURST, HANDSHAKE_BURST, start), before, times, start, from, to);
  }

  // At most burst + rate T frames of one connection, by what its Agent offered.
  lemma FrameBound(probes: bool, control: bool, before: seq<real>, times: seq<real>, start: real, from: real, to: real)
    requires Ordered(before, start, from) && Ordered(times, from, to)
    ensures var (rate, burst) := FrameLimits(probes, control);
            Admitted(After(Bucket(rate, burst, burst, start), before), times) as real <= burst + Gain(to - from, rate)
    ensures match (probes, control)
            case (true, _) => Admitted(After(Bucket(40.0, 80.0, 80.0, start), before), times) as real <= 80.0 + 40.0 * (to - from)
            case (false, true) => Admitted(After(Bucket(6.0, 16.0, 16.0, start), before), times) as real <= 16.0 + 6.0 * (to - from)
            case (false, false) => Admitted(After(Bucket(2.0, 8.0, 8.0, start), before), times) as real <= 8.0 + 2.0 * (to - from)
    ensures FrameLimits(false, false) == (2.0, 8.0) && FrameLimits(false, true) == (6.0, 16.0)
    ensures FrameLimits(true, false) == FrameLimits(true, true) == (40.0, 80.0)
  {
    assert forall rate, t :: Gain(t, rate) == t * rate;
    hide Ordered, Admitted, After, Gain;
    var (rate, burst) := FrameLimits(probes, control);
    WindowBound(Bucket(rate, burst, burst, start), before, times, start, from, to);
  }

  // Requests that keep the pace of the bucket are all admitted.
  lemma {:induction false} PacedAllAdmitted(b: Bucket, times: seq<real>)
    requires Sane(b) && b.tokens >= 0.0
    requires times != [] ==> Gain(times[0] - b.last, b.rate) >= 1.0
    requires forall i, j :: 0 <= i && j == i + 1 < |times| ==> Gain(times[j] - times[i], b.rate) >= 1.0
    ensures Admitted(b, times) == |times|
    decreases |times|
  {
    hide Gain;
    if times != [] {
      var next := Spent(b, times[0]).0;
      assert next.tokens >= 0.0 && Sane(next) && Spent(b, times[0]).1;
      if |times| > 1 {
        assert Gain(times[1] - times[0], b.rate) >= 1.0;
      }
      hide Spent;
      PacedAllAdmitted(next, times[1..]);
    }
  }

  /* The queue of one link */

  predicate EntersQueue(s: System, step: Step, link: Id) {
    && step.Enqueue? && step.id in s.calls && s.calls[step.id].link == link && s.calls[step.id].phase.Chosen?
    && Next(s, step).calls[step.id].phase.Queued?
  }

  function Entries(s: System, steps: seq<Step>, link: Id): nat
    decreases |steps|
  {
    if steps == [] then 0
    else (if EntersQueue(s, steps[0], link) then 1 else 0) + Entries(Next(s, steps[0]), steps[1..], link)
  }

  predicate Clocked(step: Step) {
    step.Connect? || step.Enqueue?
  }

  function At(step: Step): real
    requires Clocked(step)
  {
    if step.Connect? then step.at else step.now
  }

  // The clock that the steps read does not run backwards.
  predicate ClockForward(steps: seq<Step>, from: real, to: real) {
    && from <= to
    && (forall i :: 0 <= i < |steps| && Clocked(steps[i]) ==> from <= At(steps[i]) <= to)
    && forall i, j :: 0 <= i < j < |steps| && Clocked(steps[i]) && Clocked(steps[j]) ==> At(steps[i]) <= At(steps[j])
  }

  function LinkLevel(l: Link, now: real): real {
    Refilled(l, now).tokens
  }

  predicate Metered(l: Link, now: real) {
    0.0 <= l.tokens <= CAPACITY && l.replenished <= now
  }

  lemma StepSpends(s: System, step: Step, link: Id, from: real, at: real)
    requires link in s.links && Metered(s.links[link], from) && from <= at && (step.Enqueue? ==> step.now == at)
    ensures link in Next(s, step).links
    ensures var m := Next(s, step).links[link];
            && Metered(m, at)
            && LinkLevel(m, at) + (if EntersQueue(s, step, link) then 1.0 else 0.0) <= LinkLevel(s.links[link], from) + (at - from)
  {
    if step.Enqueue? {
      EnqueueSpends(s, step, link, from);
    } else {
      OthersSpendNothing(s, step, link);
    }
    hide Next;
  }

  lemma OthersSpendNothing(s: System, step: Step, link: Id)
    requires link in s.links && !step.Enqueue?
    ensures link in Next(s, step).links
    ensures Next(s, step).links[link].tokens == s.links[link].tokens && Next(s, step).links[link].replenished == s.links[link].replenished
  {
    hide Answers, StillCurrent, Remembered;
  }

  lemma EnqueueSpends(s: System, step: Step, link: Id, from: real)
    requires link in s.links && Metered(s.links[link], from) && step.Enqueue? && from <= step.now
    ensures link in Next(s, step).links
    ensures var m := Next(s, step).links[link];
            && Metered(m, step.now)
            && LinkLevel(m, step.now) + (if EntersQueue(s, step, link) then 1.0 else 0.0)
               <= LinkLevel(s.links[link], from) + (step.now - from)
  {
  }

  ghost predicate AllMetered(s: System, now: real) {
    forall link :: link in s.links ==> Metered(s.links[link], now)
  }

  lemma StepMetered(s: System, step: Step, from: real, at: real)
    requires AllMetered(s, from) && from <= at && (Clocked(step) ==> At(step) == at)
    ensures AllMetered(Next(s, step), at)
  {
    forall link | link in Next(s, step).links
      ensures Metered(Next(s, step).links[link], at)
    {
      if link in s.links {
        StepSpends(s, step, link, from, at);
      } else {
        NewLinkMetered(s, step, link);
      }
    }
    hide Next, EntersQueue;
  }

  lemma NewLinkMetered(s: System, step: Step, link: Id)
    requires link in Next(s, step).links && link !in s.links
    ensures step.Connect? && Metered(Next(s, step).links[link], At(step))
  {
    hide Answers, StillCurrent, Remembered;
  }

  function NextTime(steps: seq<Step>, from: real): real
    requires steps != []
  {
    if Clocked(steps[0]) then At(steps[0]) else from
  }

  lemma {:induction false} RunMetered(s: System, steps: seq<Step>, from: real, to: real)
    requires AllMetered(s, from) && ClockForward(steps, from, to)
    ensures AllMetered(Run(s, steps), to)
    decreases |steps|
  {
    if steps != [] {
      hide Next, AllMetered;
      var at := NextTime(steps, from);
      StepMetered(s, steps[0], from, at);
      RunMetered(Next(s, steps[0]), steps[1..], at, to);
    }
  }

  lemma {:induction false} EntriesAccounted(s: System, steps: seq<Step>, link: Id, from: real, to: real)
    requires link in s.links && Metered(s.links[link], from) && ClockForward(steps, from, to)
    ensures Entries(s, steps, link) as real <= LinkLevel(s.links[link], from) + (to - from)
    decreases |steps|
  {
    if steps != [] {
      hide Next, EntersQueue;
      var at := NextTime(steps, from);
      StepSpends(s, steps[0], link, from, at);
      EntriesAccounted(Next(s, steps[0]), steps[1..], link, at, to);
    }
  }

  // Over both lanes together, at most 4 + T requests enter a link's queue in any
  // T seconds of any run.
  lemma LinkRateBound(before: seq<Step>, steps: seq<Step>, link: Id, start: real, from: real, to: real)
    requires ClockForward(before, start, from) && ClockForward(steps, from, to)
    requires link in Run(Initial(), before).links
    ensures Entries(Run(Initial(), before), steps, link) as real <= 4.0 + (to - from)
  {
    RunMetered(Initial(), before, start, from);
    EntriesAccounted(Run(Initial(), before), steps, link, from, to);
  }
}

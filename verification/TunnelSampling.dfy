// Sampling the tunnels of many sources: sixteen sources a round, in rotation, and
// a bounded set of live instances.
module TunnelSampling {
  import opened Basics

  const BATCH := 16
  const MAX_LIVE := 1024

  // A source, its mapped instances, whether its report is usable at all, and
  // whether it is a coherent inventory.
  datatype Input = Input(key: Id, usable: bool, ready: bool, objects: seq<Id>, at: int)

  datatype Live = Live(source: Id, at: Option<int>)

  const LIFETIME := 60_000

  /* Rotation */

  // The sources of one round, and where the next one starts.
  function BatchOf<T>(inputs: seq<T>, offset: nat): (seq<T>, nat) {
    if |inputs| <= BATCH then (inputs, offset)
    else
      var start := offset % |inputs|;
      (seq(BATCH, i requires 0 <= i < BATCH => inputs[(start + i) % |inputs|]), (start + BATCH) % |inputs|)
  }

  ghost predicate Visited<T>(inputs: seq<T>, offset: nat, x: nat, rounds: nat)
    requires x < |inputs|
    decreases rounds
  {
    rounds > 0 && (inputs[x] in BatchOf(inputs, offset).0 || Visited(inputs, BatchOf(inputs, offset).1, x, rounds - 1))
  }

  // How far ahead of the start a source is, around the ring.
  function Ahead(start: nat, x: nat, n: nat): nat
    requires start < n && x < n
  {
    if x >= start then x - start else x - start + n
  }

  lemma {:induction false} VisitedWithin<T>(inputs: seq<T>, offset: nat, x: nat, rounds: nat)
    requires x < |inputs| && |inputs| > BATCH
    requires Ahead(offset % |inputs|, x, |inputs|) < BATCH * rounds
    ensures Visited(inputs, offset, x, rounds)
    decreases rounds
  {
    var (batch, next) := BatchOf(inputs, offset);
    BatchStep(inputs, offset, x);
    hide Ahead, BatchOf;
    if Ahead(offset % |inputs|, x, |inputs|) >= BATCH {
      VisitedWithin(inputs, next, x, rounds - 1);
    }
  }

  // A source is in the batch, or sixteen places nearer to the next one.
  lemma BatchStep<T>(inputs: seq<T>, offset: nat, x: nat)
    requires x < |inputs| && |inputs| > BATCH
    ensures var (batch, next) := BatchOf(inputs, offset);
            var d := Ahead(offset % |inputs|, x, |inputs|);
            if d < BATCH then inputs[x] in batch
            else next % |inputs| == next < |inputs| && Ahead(next, x, |inputs|) == d - BATCH
  {
    var n := |inputs|;
    var start := offset % n;
    var d := Ahead(start, x, n);
    Wraps(start, d, n);
    if d < BATCH {
      assert BatchOf(inputs, offset).0[d] == inputs[x];
    } else {
      Wraps(start, BATCH, n);
      var next := (start + BATCH) % n;
      assert next % n == next by {
        Wraps(next, 0, n);
      }
    }
  }

  lemma Wraps(a: nat, b: nat, n: nat)
    requires a < n && b < n
    ensures (a + b) % n == if a + b < n then a + b else a + b - n
  {
    if a + b >= n {
      assert (a + b) == 1 * n + (a + b - n);
    }
  }

  function Rounds(n: nat): nat {
    (n + BATCH - 1) / BATCH
  }

  // With a fixed set of more than sixteen sources every source is sampled within
  // as many rounds as it takes to go around once, wherever the rotation stands.
  lemma EverySourceVisited<T>(inputs: seq<T>, offset: nat, x: nat)
    requires x < |inputs| && |inputs| > BATCH
    ensures Visited(inputs, offset, x, Rounds(|inputs|))
  {
    VisitedWithin(inputs, offset, x, Rounds(|inputs|));
  }

  /* Live instances */

  type LiveSet = map<Id, Live>

  // One object of a coherent inventory: refreshed, or added while there is room.
  function Seen(live: LiveSet, id: Id, l: Live): LiveSet {
    if id in live || |live| < MAX_LIVE then live[id := l] else live
  }

  function SeenAll(live: LiveSet, objects: seq<Id>, l: Live): LiveSet {
    if objects == [] then live else Seen(SeenAll(live, objects[..|objects| - 1], l), objects[|objects| - 1], l)
  }

  // An incoherent inventory is no evidence of anything but staleness.
  function Staled(live: LiveSet, source: Id): LiveSet {
    map id | id in live :: if live[id].source == source then live[id].(at := None) else live[id]
  }

  function Absorbed(live: LiveSet, input: Input): LiveSet {
    if !input.usable then live
    else if input.ready then SeenAll(live, input.objects, Live(input.key, Some(input.at)))
    else Staled(live, input.key)
  }

  function AbsorbedAll(live: LiveSet, batch: seq<Input>): LiveSet {
    if batch == [] then live else Absorbed(AbsorbedAll(live, batch[..|batch| - 1]), batch[|batch| - 1])
  }

  predicate Recent(l: Live, now: int) {
    l.at.Some? && now - l.at.value <= LIFETIME
  }

  // Instances of vanished sources, and those not seen for a minute, go.
  function Pruned(live: LiveSet, current: set<Id>, now: int): LiveSet {
    map id | id in live && live[id].source in current && Recent(live[id], now) :: live[id]
  }

  function Keys(inputs: seq<Input>): set<Id> {
    set i | 0 <= i < |inputs| :: inputs[i].key
  }

  function Observed(live: LiveSet, offset: nat, inputs: seq<Input>, now: int): LiveSet {
    Pruned(AbsorbedAll(live, BatchOf(inputs, offset).0), Keys(inputs), now)
  }

  // After a round an instance is live exactly if the batch left it so, its source still
  // reports, and it was seen at a known time within the last minute.
  lemma ObservedExactly(live: LiveSet, offset: nat, inputs: seq<Input>, now: int, id: Id)
    ensures var before, after := AbsorbedAll(live, BatchOf(inputs, offset).0), Observed(live, offset, inputs, now);
            && (id in after <==>
                && id in before && (exists i :: 0 <= i < |inputs| && inputs[i].key == before[id].source)
                && before[id].at.Some? && before[id].at.value >= now - 60_000)
            && (id in after ==> after[id] == before[id])
  {
    hide AbsorbedAll, BatchOf;
  }

  // What a report does to one instance. An unusable report does nothing. A ready one
  // refreshes the instances it lists, whichever source they had, and leaves others; a
  // report that is not ready makes the times of its own instances unknown.
  lemma AbsorbedExactly(live: LiveSet, input: Input, id: Id)
    ensures var after := Absorbed(live, input);
            && (!input.usable ==> after == live)
            && (input.usable && !input.ready ==>
                && (id in after <==> id in live)
                && (id in live ==> after[id] == if live[id].source == input.key then Live(input.key, None) else live[id]))
            && (input.usable && input.ready ==>
                && (id in live ==> id in after && after[id] == if id in input.objects then Live(input.key, Some(input.at)) else live[id])
                && (id in after && id !in live ==> id in input.objects && after[id] == Live(input.key, Some(input.at)))
                && (id in input.objects && id !in after ==> |after| >= 1024))
  {
    if input.usable && input.ready {
      SeenAllExactly(live, input.objects, Live(input.key, Some(input.at)), id);
    }
    hide SeenAll;
  }

  lemma {:induction false} SeenAllExactly(live: LiveSet, objects: seq<Id>, l: Live, id: Id)
    ensures var after := SeenAll(live, objects, l);
            && (id in live ==> id in after && after[id] == if id in objects then l else live[id])
            && (id in after && id !in live ==> id in objects && after[id] == l)
            && (id in objects && id !in after ==> |after| >= MAX_LIVE)
    decreases |objects|
  {
    if objects != [] {
      var init, last := objects[..|objects| - 1], objects[|objects| - 1];
      assert objects == init + [last];
      SeenAllExactly(live, init, l, id);
    }
  }

  lemma {:induction false} SeenAllBounded(live: LiveSet, objects: seq<Id>, l: Live)
    requires |live| <= MAX_LIVE
    ensures |live| <= |SeenAll(live, objects, l)| <= MAX_LIVE
    decreases |objects|
  {
    if objects != [] {
      SeenAllBounded(live, objects[..|objects| - 1], l);
    }
  }

  // With room for all of them every object of a coherent inventory is live.
  lemma {:induction false} SeenAllLive(live: LiveSet, objects: seq<Id>, l: Live)
    requires |live| + |objects| <= MAX_LIVE
    ensures |SeenAll(live, objects, l)| <= |live| + |objects|
    ensures forall id :: id in SeenAll(live, objects, l) <==> id in live || id in objects
    ensures forall id :: id in objects ==> SeenAll(live, objects, l)[id] == l
    decreases |objects|
  {
    if objects != [] {
      var init := objects[..|objects| - 1];
      assert objects == init + [objects[|objects| - 1]];
      SeenAllLive(live, init, l);
    }
  }

  lemma StaledSize(live: LiveSet, source: Id)
    ensures |Staled(live, source)| <= |live|
  {
    forall id | id in Staled(live, source).Keys ensures id in live.Keys {
    }
    Included(Staled(live, source).Keys, live.Keys);
  }

  lemma {:induction false} AbsorbedAllBounded(live: LiveSet, batch: seq<Input>)
    requires |live| <= MAX_LIVE
    ensures |AbsorbedAll(live, batch)| <= MAX_LIVE
    decreases |batch|
  {
    if batch != [] {
      var before, input := AbsorbedAll(live, batch[..|batch| - 1]), batch[|batch| - 1];
      AbsorbedAllBounded(live, batch[..|batch| - 1]);
      SeenAllBounded(before, input.objects, Live(input.key, Some(input.at)));
      StaledSize(before, input.key);
    }
  }

  // However many sources report whatever, the live set stays within its bound.
  lemma ObservedBounded(live: LiveSet, offset: nat, inputs: seq<Input>, now: int)
    requires |live| <= MAX_LIVE
    ensures |Observed(live, offset, inputs, now)| <= MAX_LIVE
  {
    var all := AbsorbedAll(live, BatchOf(inputs, offset).0);
    AbsorbedAllBounded(live, BatchOf(inputs, offset).0);
    var pruned := Observed(live, offset, inputs, now);
    forall id | id in pruned.Keys ensures id in all.Keys {
    }
    Included(pruned.Keys, all.Keys);
  }

  /* The observer */

  class TunnelHistory {
    var offset: nat
    var live: LiveSet

    predicate Valid()
      reads this
    {
      |live| <= MAX_LIVE
    }

    constructor ()
      ensures Valid() && live == map[] && offset == 0
    {
      offset, live := 0, map[];
    }

    method Select(inputs: seq<Input>) returns (batch: seq<Input>)
      modifies this`offset
      ensures (batch, offset) == BatchOf(inputs, old(offset))
    {
      batch := inputs;
      if |inputs| > BATCH {
        var start := offset % |inputs|;
        batch := [];
        for i := 0 to BATCH
          invariant batch == BatchOf(inputs, old(offset)).0[..i]
        {
          batch := batch + [inputs[(start + i) % |inputs|]];
        }
        assert batch == BatchOf(inputs, old(offset)).0;
        offset := (start + BATCH) % |inputs|;
      }
    }

    method Absorb(input: Input)
      modifies this`live
      ensures live == Absorbed(old(live), input)
    {
      if !input.usable {
        return;
      }
      if !input.ready {
        live := Staled(live, input.key);
        return;
      }
      for i := 0 to |input.objects|
        invariant live == SeenAll(old(live), input.objects[..i], Live(input.key, Some(input.at)))
      {
        assert input.objects[..i + 1][..i] == input.objects[..i];
        var id := input.objects[i];
        if id in live || |live| < MAX_LIVE {
          live := live[id := Live(input.key, Some(input.at))];
        }
      }
      assert input.objects[..|input.objects|] == input.objects;
    }

    // One round: the next batch is absorbed, then what is gone or old is dropped.
    method Observe(inputs: seq<Input>, now: int)
      requires Valid()
      modifies this
      ensures Valid()
      ensures live == Observed(old(live), old(offset), inputs, now)
      ensures offset == BatchOf(inputs, old(offset)).1
    {
      ObservedBounded(live, offset, inputs, now);
      var batch := Select(inputs);
      for i := 0 to |batch|
        invariant live == AbsorbedAll(old(live), batch[..i]) && offset == BatchOf(inputs, old(offset)).1
      {
        assert batch[..i + 1][..i] == batch[..i];
        Absorb(batch[i]);
      }
      assert batch[..|batch|] == batch;
      live := Pruned(live, Keys(inputs), now);
    }
  }
}

// Two caches of encoded snapshots. The private one is tagged with a generation
// that every change of the configuration advances; the public one is written by
// one publisher at a time.
module Caches {
  import opened Basics

  /* The private snapshot */

  // Changes are numbered; applied are those whose effect is visible, bumped those
  // that have advanced the generation, in that order.
  datatype Encoded = Encoded(generation: nat, includes: set<Id>)

  // An encoder notes the generation, takes the snapshot, encodes it, looks at the
  // generation once more, and stores the bytes.
  datatype Encoder = Idle | Noted(generation: nat) | Taken(generation: nat, includes: set<Id>) | Checked(generation: nat, includes: set<Id>)

  // A reader loads the cached bytes first and the generation afterwards.
  datatype Reader = Waiting | Loaded(cached: Option<Encoded>) | Served(bytes: Encoded, required: set<Id>) | Unserved

  datatype State = State(applied: set<Id>, bumped: seq<Id>, cache: Option<Encoded>, encoder: Encoder, readers: map<Id, Reader>)

  datatype Step =
    | Change(change: Id)
    | Bump(change: Id)
    | Note
    | Take
    | Check(failed: bool)
    | Store
    | Load(reader: Id)
    | Compare(reader: Id)

  function Elements(s: seq<Id>): set<Id> {
    set x | x in s
  }

  function Next(s: State, step: Step): State {
    match step
    case Change(change) => s.(applied := s.applied + {change})
    case Bump(change) => if change in s.applied then s.(bumped := s.bumped + [change]) else s
    case Note => if s.encoder.Idle? then s.(encoder := Noted(|s.bumped|)) else s
    case Take => if s.encoder.Noted? then s.(encoder := Taken(s.encoder.generation, s.applied)) else s
    case Check(failed) =>
      if !s.encoder.Taken? then s
      else if failed || s.encoder.generation != |s.bumped| then s.(encoder := Idle)
      else s.(encoder := Checked(s.encoder.generation, s.encoder.includes))
    case Store =>
      if s.encoder.Checked? then s.(cache := Some(Encoded(s.encoder.generation, s.encoder.includes)), encoder := Idle) else s
    case Load(reader) =>
      if reader in s.readers then s else s.(readers := s.readers[reader := Loaded(s.cache)])
    case Compare(reader) =>
      if reader in s.readers && s.readers[reader].Loaded? then
        var cached := s.readers[reader].cached;
        s.(readers := s.readers[reader :=
             if cached.Some? && cached.value.generation == |s.bumped| then Served(cached.value, Elements(s.bumped)) else Unserved])
      else s
  }

  function Run(s: State, steps: seq<Step>): State
    decreases |steps|
  {
    if steps == [] then s else Run(Next(s, steps[0]), steps[1..])
  }

  // What is tagged with a generation includes every change that led up to it.
  predicate Covers(s: State, generation: nat, includes: set<Id>) {
    generation <= |s.bumped| && forall i :: 0 <= i < generation ==> s.bumped[i] in includes
  }

  predicate ReaderOk(s: State, r: Reader) {
    match r
    case Loaded(cached) => cached.Some? ==> Covers(s, cached.value.generation, cached.value.includes)
    case Served(bytes, required) => required <= bytes.includes
    case _ => true
  }

  predicate Sound(s: State) {
    && (forall x :: x in s.bumped ==> x in s.applied)
    && (s.cache.Some? ==> Covers(s, s.cache.value.generation, s.cache.value.includes))
    && (s.encoder.Noted? ==> s.encoder.generation <= |s.bumped|)
    && (s.encoder.Taken? || s.encoder.Checked? ==> Covers(s, s.encoder.generation, s.encoder.includes))
    && forall r :: r in s.readers ==> ReaderOk(s, s.readers[r])
  }

  lemma NextSound(s: State, step: Step)
    requires Sound(s)
    ensures Sound(Next(s, step))
  {
  }

  lemma {:induction false} RunSound(s: State, steps: seq<Step>)
    requires Sound(s)
    ensures Sound(Run(s, steps))
    decreases |steps|
  {
    if steps != [] {
      hide Sound, Next;
      NextSound(s, steps[0]);
      RunSound(Next(s, steps[0]), steps[1..]);
    }
  }

  // The bytes a reader is served include every change whose bump came before the
  // reader looked at the generation, whenever encoders started and finished.
  lemma ServedIncludesBumped(steps: seq<Step>, reader: Id)
    requires var s := Run(State({}, [], None, Idle, map[]), steps); reader in s.readers && s.readers[reader].Loaded?
    ensures var s := Run(State({}, [], None, Idle, map[]), steps);
            var t := Next(s, Compare(reader));
            t.readers[reader].Served? ==> forall x :: x in s.bumped ==> x in t.readers[reader].bytes.includes
  {
    RunSound(State({}, [], None, Idle, map[]), steps);
    var s := Run(State({}, [], None, Idle, map[]), steps);
    NextSound(s, Compare(reader));
    hide Run;
    var t := Next(s, Compare(reader));
    assert ReaderOk(t, t.readers[reader]);
  }

  // An encoder that nothing overtakes makes the cache current with every change that
  // was applied, and a reader that looks then is served exactly that.
  lemma UndisturbedServed(s: State, reader: Id)
    requires s.encoder.Idle? && reader !in s.readers
    ensures var t := Run(s, [Note, Take, Check(false), Store, Load(reader), Compare(reader)]);
            && t.applied == s.applied && t.bumped == s.bumped && t.encoder.Idle?
            && t.cache == Some(Encoded(|s.bumped|, s.applied))
            && t.readers == s.readers[reader := Served(t.cache.value, Elements(s.bumped))]
  {
    var s1 := Next(s, Note);
    var s2 := Next(s1, Take);
    var s3 := Next(s2, Check(false));
    var s4 := Next(s3, Store);
    var s5 := Next(s4, Load(reader));
    RunUnrolled(s, [Note, Take, Check(false), Store, Load(reader), Compare(reader)], [s1, s2, s3, s4, s5, Next(s5, Compare(reader))]);
    hide Run;
  }

  // A change that is bumped while the encoder works, or a failed encoding, leaves the
  // cache as it was, and the reader of an outdated cache is not served.
  lemma OvertakenUnserved(s: State, change: Id, failed: bool, reader: Id)
    requires Sound(s) && s.encoder.Taken? && reader !in s.readers
    ensures var t := Run(s, [Change(change), Bump(change), Check(failed), Store, Load(reader), Compare(reader)]);
            && t.applied == s.applied + {change} && t.bumped == s.bumped + [change]
            && t.cache == s.cache && t.encoder.Idle? && t.readers == s.readers[reader := Unserved]
    ensures var t := Run(s, [Check(true), Store]); t == s.(encoder := Idle)
  {
    var s1 := Next(s, Change(change));
    var s2 := Next(s1, Bump(change));
    var s3 := Next(s2, Check(failed));
    var s4 := Next(s3, Store);
    var s5 := Next(s4, Load(reader));
    RunUnrolled(s, [Change(change), Bump(change), Check(failed), Store, Load(reader), Compare(reader)], [s1, s2, s3, s4, s5, Next(s5, Compare(reader))]);
    RunUnrolled(s, [Check(true), Store], [s.(encoder := Idle), s.(encoder := Idle)]);
    hide Run;
  }

  lemma {:induction false} RunUnrolled(s: State, steps: seq<Step>, states: seq<State>)
    requires |steps| == |states| > 0
    requires states[0] == Next(s, steps[0]) && forall i, j :: 0 <= i && j == i + 1 < |steps| ==> states[j] == Next(states[i], steps[j])
    ensures Run(s, steps) == states[|states| - 1]
    decreases |steps|
  {
    hide Next;
    if |steps| > 1 {
      RunUnrolled(states[0], steps[1..], states[1..]);
    } else {
      assert steps[1..] == [];
    }
  }

  // One run of the encoder: what its snapshot includes, whether the encoding failed,
  // and how often the configuration changed while it ran and after its bytes were
  // stored, before the reader looked again.
  datatype Encoding = Encoding(includes: set<Id>, failed: bool, bumps: nat, late: nat)
  {
    predicate Stores() {
      bumps == 0 && !failed
    }

    predicate Counts() {
      Stores() && late == 0
    }
  }

  // The bytes themselves, under the service's pointers.
  class AdminCache {
    var generation: nat
    var cached: Option<Encoded>

    predicate Valid()
      reads this
    {
      cached.Some? ==> cached.value.generation <= generation
    }

    predicate Current()
      reads this
    {
      cached.Some? && cached.value.generation == generation
    }

    method Invalidate(times: nat)
      requires Valid()
      modifies this`generation
      ensures Valid() && generation == old(generation) + times
    {
      for i := 0 to times
        invariant Valid() && generation == old(generation) + i
      {
        generation := generation + 1;
      }
    }

    // A publisher forces the encoding; a reader's encoder leaves current bytes alone.
    method Encode(force: bool, e: Encoding)
      requires Valid()
      modifies this
      ensures Valid()
      ensures var idle := !force && old(cached).Some? && old(cached).value.generation == old(generation);
              && generation == old(generation) + (if idle then e.late else e.bumps + e.late)
              && cached == if !idle && e.bumps == 0 && !e.failed then Some(Encoded(old(generation), e.includes)) else old(cached)
    {
      if force || cached.None? || cached.value.generation != generation {
        var noted := generation;
        Invalidate(e.bumps);
        if !e.failed && noted == generation {
          cached := Some(Encoded(noted, e.includes));
        }
      }
      Invalidate(e.late);
    }

    // Bytes are served only for the present generation; otherwise the encoder runs,
    // twice at most, and its result counts only if nothing changed before the next look.
    method Bytes(encodings: seq<Encoding>) returns (bytes: Option<Encoded>)
      requires Valid() && |encodings| == 2
      modifies this
      ensures Valid() && generation >= old(generation)
      ensures bytes.Some? ==> bytes == cached && bytes.value.generation == generation
      ensures var current := old(cached).Some? && old(cached).value.generation == old(generation);
              var first := encodings[0].bumps == 0 && encodings[0].late == 0 && !encodings[0].failed;
              var second := encodings[1].bumps == 0 && encodings[1].late == 0 && !encodings[1].failed;
              bytes == if current then old(cached)
                       else if first then Some(Encoded(old(generation), encodings[0].includes))
                       else if second then Some(Encoded(old(generation) + encodings[0].bumps + encodings[0].late, encodings[1].includes))
                       else None
      ensures old(Current()) ==> generation == old(generation)
    {
      for attempt := 0 to 2
        invariant Valid() && generation >= old(generation)
        invariant attempt == 0 ==> generation == old(generation) && cached == old(cached)
        invariant attempt > 0 ==> !old(Current()) && (Current() <==> encodings[attempt - 1].Counts())
        invariant attempt == 1 ==> generation == old(generation) + encodings[0].bumps + encodings[0].late
        invariant attempt == 1 && Current() ==> cached == Some(Encoded(old(generation), encodings[0].includes))
        invariant attempt == 2 ==> !encodings[0].Counts()
        invariant attempt == 2 && Current() ==>
          cached == Some(Encoded(old(generation) + encodings[0].bumps + encodings[0].late, encodings[1].includes))
      {
        if cached.Some? && cached.value.generation == generation {
          return cached;
        }
        Encode(false, encodings[attempt]);
      }
      return if cached.Some? && cached.value.generation == generation then cached else None;
    }
  }

  /* The public snapshot */

  // A moment counts the changes made so far. Publishers take a lock, compute, and
  // store; the bytes carry the moment of their computation.
  datatype Public = Public(now: nat, stored: nat, computed: Option<nat>, locked: bool)

  datatype PublicStep = Mutate | Lock | Compute | Put(failed: bool)

  function NextPublic(p: Public, step: PublicStep): Public {
    match step
    case Mutate => p.(now := p.now + 1)
    case Lock => if p.locked then p else p.(locked := true, computed := None)
    case Compute => if p.locked && p.computed.None? then p.(computed := Some(p.now)) else p
    case Put(failed) =>
      if p.locked && p.computed.Some? then Public(p.now, if failed then p.stored else p.computed.value, None, false) else p
  }

  function RunPublic(p: Public, steps: seq<PublicStep>): Public
    decreases |steps|
  {
    if steps == [] then p else RunPublic(NextPublic(p, steps[0]), steps[1..])
  }

  predicate PublicSound(p: Public) {
    p.stored <= p.now && (p.computed.Some? ==> p.locked && p.stored <= p.computed.value <= p.now)
  }

  // The public snapshot never goes back, so none that is published after a change
  // of the credentials was published predates that change.
  lemma {:induction false} PublicNeverOlder(p: Public, steps: seq<PublicStep>)
    requires PublicSound(p)
    ensures PublicSound(RunPublic(p, steps)) && p.stored <= RunPublic(p, steps).stored
    decreases |steps|
  {
    if steps != [] {
      PublicNeverOlder(NextPublic(p, steps[0]), steps[1..]);
    }
  }

  // A publisher that computed after the first c changes stored its bytes.
  predicate StoresSince(p: Public, step: PublicStep, c: nat) {
    step == Put(false) && p.locked && p.computed.Some? && p.computed.value >= c
  }

  predicate StoredSince(p: Public, steps: seq<PublicStep>, c: nat)
    decreases |steps|
  {
    steps != [] && (StoresSince(p, steps[0], c) || StoredSince(NextPublic(p, steps[0]), steps[1..], c))
  }

  // The public snapshot includes the first c changes exactly if it did before or a
  // publisher that computed after them stored its bytes since. A failed encoding
  // leaves the older snapshot.
  lemma {:induction false} IncludesExactlyWhenStoredSince(p: Public, steps: seq<PublicStep>, c: nat)
    requires PublicSound(p)
    ensures RunPublic(p, steps).stored >= c <==> p.stored >= c || StoredSince(p, steps, c)
    decreases |steps|
  {
    if steps != [] {
      var q := NextPublic(p, steps[0]);
      IncludesExactlyWhenStoredSince(q, steps[1..], c);
      if StoresSince(p, steps[0], c) || p.stored >= c {
        PublicNeverOlder(q, steps[1..]);
      }
    }
  }

  // Publishers compute one at a time; whoever has not computed when the change is
  // made includes it.
  predicate Uncomputed(p: Public, c: nat) {
    p.computed.Some? ==> p.computed.value >= c
  }

  // Some publisher stored its bytes.
  predicate StoredOnce(p: Public, steps: seq<PublicStep>)
    decreases |steps|
  {
    steps != [] && ((steps[0] == Put(false) && p.locked && p.computed.Some?) || StoredOnce(NextPublic(p, steps[0]), steps[1..]))
  }

  lemma {:induction false} AnyStoreCounts(p: Public, steps: seq<PublicStep>, c: nat)
    requires PublicSound(p) && Uncomputed(p, c) && c <= p.now
    ensures StoredSince(p, steps, c) <==> StoredOnce(p, steps)
    decreases |steps|
  {
    if steps != [] {
      AnyStoreCounts(NextPublic(p, steps[0]), steps[1..], c);
    }
  }

  // A publisher that has the lock shows the present configuration, unless its encoding
  // fails; while it has the lock no other one gets it.
  lemma PublisherStores(p: Public, failed: bool)
    requires !p.locked
    ensures var q := RunPublic(p, [Lock, Compute, Put(failed)]);
            q == Public(p.now, if failed then p.stored else p.now, None, false)
    ensures var q := NextPublic(NextPublic(p, Lock), Compute);
            && q.locked && NextPublic(q, Lock) == q && NextPublic(q, Compute) == q
            && NextPublic(q, Mutate) == q.(now := p.now + 1)
            && NextPublic(NextPublic(q, Mutate), Compute) == NextPublic(q, Mutate)
            && NextPublic(NextPublic(q, Mutate), Put(failed)).stored == if failed then p.stored else p.now
    ensures NextPublic(p, Compute) == p && NextPublic(p, Put(failed)) == p
  {
    var p1 := NextPublic(p, Lock);
    var p2 := NextPublic(p1, Compute);
    var steps := [Lock, Compute, Put(failed)];
    assert steps[1..] == [Compute, Put(failed)] && steps[1..][1..] == [Put(failed)] && steps[1..][1..][1..] == [];
    assert RunPublic(p2, steps[1..][1..]) == RunPublic(NextPublic(p2, Put(failed)), []);
  }

  // Publishing after a change, as every change of the credentials does before it
  // returns: the public snapshot includes the change exactly from the first encoding
  // on that does not fail, in every later run.
  lemma PublishedIncludesChange(p: Public, steps: seq<PublicStep>)
    requires PublicSound(p) && p.locked && p.computed.None?
    ensures RunPublic(p, steps).stored >= p.now <==> p.stored >= p.now || StoredOnce(p, steps)
    ensures var q := NextPublic(NextPublic(p, Compute), Put(false)); RunPublic(q, steps).stored >= p.now
    ensures NextPublic(NextPublic(p, Compute), Put(true)).stored == p.stored
  {
    IncludesExactlyWhenStoredSince(p, steps, p.now);
    AnyStoreCounts(p, steps, p.now);
    PublicNeverOlder(NextPublic(NextPublic(p, Compute), Put(false)), steps);
  }
}

// Publishing what the control database says. Administrators change the database
// and publish under one lock; a background reader looks at the three published
// books, reads the database without the lock, and publishes what it read only if
// the books are still the ones it had looked at.
module Publication {
  import opened Basics

  // A published book. It is a new object whenever it is replaced; it holds what
  // the database contained at some moment, or nothing if it had to be withdrawn.
  datatype Book = Book(pointer: nat, moment: nat, withdrawn: bool)

  datatype Shelf = Credentials | Groups | Tasks

  // The moments of the database are counted by its commits. For each of them the
  // version of the tasks' document is known; it never decreases.
  datatype State = State(
    versions: seq<nat>, credentials: Book, groups: Book, tasks: Book, nextPointer: nat,
    mutation: Option<Mutation>, reading: Option<Reading>)
  {
    function Now(): int {
      |versions| - 1
    }

    function On(shelf: Shelf): Book {
      match shelf case Credentials => credentials case Groups => groups case Tasks => tasks
    }
  }

  // A mutation that holds the lock: when it committed, and the books it still has
  // to publish.
  datatype Mutation = Mutation(since: nat, todo: seq<Shelf>)

  // The background reader looks at three books, reads three tables, then applies.
  datatype Reading = Reading(stage: nat, credentials: Book, groups: Book, tasks: Book, nodesAt: nat, groupsAt: nat, tasksAt: nat)

  datatype Step =
    | Commit(todo: seq<Shelf>, version: nat) // takes the lock and commits
    | LateCommit(version: nat)               // a transaction whose caller stopped waiting
    | Publish(moment: nat, ok: bool)         // the mutation publishes its next book
    | Unlock
    | Look                                   // the reader looks at its next book
    | Fetch                                  // the reader reads its next table
    | Apply(nodesOk: bool, groupsOk: bool, tasksOk: bool)

  predicate Once(todo: seq<Shelf>) {
    forall i, j :: 0 <= i < j < |todo| ==> todo[i] != todo[j]
  }

  function WithCredentials(s: State, moment: nat, withdrawn: bool): State {
    s.(credentials := Book(s.nextPointer, moment, withdrawn), nextPointer := s.nextPointer + 1)
  }

  function WithGroups(s: State, moment: nat, withdrawn: bool): State {
    s.(groups := Book(s.nextPointer, moment, withdrawn), nextPointer := s.nextPointer + 1)
  }

  // A task book is replaced only by one with a greater version.
  function WithTasks(s: State, moment: nat): State
    requires moment < |s.versions| && s.tasks.moment < |s.versions|
  {
    if s.versions[moment] > s.versions[s.tasks.moment]
    then s.(tasks := Book(s.nextPointer, moment, false), nextPointer := s.nextPointer + 1) else s
  }

  function Put(s: State, shelf: Shelf, moment: nat, ok: bool): State
    requires moment < |s.versions| && s.tasks.moment < |s.versions|
  {
    match shelf
    case Credentials => WithCredentials(s, moment, !ok)
    case Groups => WithGroups(s, moment, !ok)
    case Tasks => if ok then WithTasks(s, moment) else s
  }

  predicate Unreplaced(s: State, r: Reading) {
    r.credentials.pointer == s.credentials.pointer && r.tasks.pointer == s.tasks.pointer && r.groups.pointer == s.groups.pointer
  }

  // Called with the lock: what the reader read is published or discarded whole.
  function Applied(s: State, r: Reading, nodesOk: bool, groupsOk: bool, tasksOk: bool): State
    requires r.tasksAt < |s.versions| && s.tasks.moment < |s.versions|
  {
    if !Unreplaced(s, r) then s
    else
      var t := WithGroups(s, r.groupsAt, !groupsOk);
      var u := if nodesOk then WithCredentials(t, r.nodesAt, false) else t;
      if tasksOk then WithTasks(u, r.tasksAt) else u
  }

  function Looked(s: State): Reading {
    match s.reading
    case None => Reading(1, s.credentials, s.groups, s.tasks, 0, 0, 0)
    case Some(r) => if r.stage == 1 then r.(stage := 2, tasks := s.tasks) else r.(stage := 3, groups := s.groups)
  }

  function Fetched(s: State, r: Reading): Reading
    requires s.versions != []
  {
    if r.stage == 3 then r.(stage := 4, nodesAt := s.Now())
    else if r.stage == 4 then r.(stage := 5, tasksAt := s.Now())
    else r.(stage := 6, groupsAt := s.Now())
  }

  function Next(s: State, step: Step): State
    requires Sound(s)
  {
    match step
    case Commit(todo, version) =>
      if s.mutation.Some? || version < s.versions[s.Now()] || !Once(todo) then s
      else s.(versions := s.versions + [version], mutation := Some(Mutation(|s.versions|, todo)))
    case LateCommit(version) =>
      if version < s.versions[s.Now()] then s else s.(versions := s.versions + [version])
    case Publish(moment, ok) =>
      if s.mutation.None? || s.mutation.value.todo == [] || !(s.mutation.value.since <= moment <= s.Now()) then s
      else Put(s, s.mutation.value.todo[0], moment, ok).(mutation := Some(s.mutation.value.(todo := s.mutation.value.todo[1..])))
    case Unlock =>
      if s.mutation.Some? && s.mutation.value.todo == [] then s.(mutation := None) else s
    case Look =>
      if s.reading.None? || s.reading.value.stage < 3 then s.(reading := Some(Looked(s))) else s
    case Fetch =>
      if s.reading.Some? && 3 <= s.reading.value.stage < 6 then s.(reading := Some(Fetched(s, s.reading.value))) else s
    case Apply(nodesOk, groupsOk, tasksOk) =>
      if s.mutation.Some? || s.reading.None? || s.reading.value.stage != 6 then s
      else Applied(s, s.reading.value, nodesOk, groupsOk, tasksOk).(reading := None)
  }

  function Run(s: State, steps: seq<Step>): State
    requires Sound(s)
    decreases |steps|
  {
    if steps == [] then s else (NextSound(s, steps[0]); Run(Next(s, steps[0]), steps[1..]))
  }

  /* What every state keeps */

  predicate NeverDecreasing(versions: seq<nat>) {
    forall i, j :: 0 <= i < j < |versions| ==> versions[i] <= versions[j]
  }

  predicate BookOk(s: State, b: Book) {
    b.pointer < s.nextPointer && b.moment < |s.versions|
  }

  // A book the reader looked at is old, or still the published one.
  predicate LookedAt(s: State, seen: Book, now: Book) {
    BookOk(s, seen) && (seen.pointer == now.pointer ==> seen == now)
  }

  predicate ReadingOk(s: State, r: Reading) {
    && 1 <= r.stage <= 6
    && LookedAt(s, r.credentials, s.credentials)
    && (r.stage >= 2 ==> LookedAt(s, r.tasks, s.tasks))
    && (r.stage >= 3 ==> LookedAt(s, r.groups, s.groups))
    && (r.stage >= 4 ==> After(s, r, r.nodesAt))
    && (r.stage >= 5 ==> After(s, r, r.tasksAt))
    && (r.stage >= 6 ==> After(s, r, r.groupsAt))
  }

  // What was read is no older than any of the three books looked at.
  predicate After(s: State, r: Reading, moment: nat) {
    && moment < |s.versions|
    && r.credentials.moment <= moment && r.tasks.moment <= moment && r.groups.moment <= moment
  }

  // The books that a mutation still has to publish are from before its commit.
  predicate MutationOk(s: State, m: Mutation) {
    m.since < |s.versions| && Once(m.todo) && forall shelf :: shelf in m.todo ==> s.On(shelf).moment <= m.since
  }

  predicate Sound(s: State) {
    && s.versions != [] && NeverDecreasing(s.versions)
    && BookOk(s, s.credentials) && BookOk(s, s.groups) && BookOk(s, s.tasks)
    && (s.mutation.Some? ==> MutationOk(s, s.mutation.value))
    && (s.reading.Some? ==> ReadingOk(s, s.reading.value))
  }

  // One more moment of the database leaves what was read and published as it was.
  lemma AppendedSound(s: State, version: nat)
    requires Sound(s) && version >= s.versions[s.Now()]
    ensures Sound(s.(versions := s.versions + [version]))
  {
    var t := s.(versions := s.versions + [version]);
    assert NeverDecreasing(t.versions);
    hide NeverDecreasing;
  }

  lemma CommittedSound(s: State, todo: seq<Shelf>, version: nat)
    requires Sound(s)
    ensures Sound(Next(s, Commit(todo, version))) && Sound(Next(s, LateCommit(version)))
  {
    if version >= s.versions[s.Now()] {
      AppendedSound(s, version);
      var t := s.(versions := s.versions + [version]);
      if s.mutation.None? && Once(todo) {
        assert MutationOk(t, Mutation(|s.versions|, todo)) && t.(mutation := None) == t;
        WithMutation(t, Mutation(|s.versions|, todo));
      }
    }
    hide NeverDecreasing, ReadingOk, MutationOk;
  }

  lemma PutSound(s: State, shelf: Shelf, moment: nat, ok: bool)
    requires Sound(s) && s.mutation.None? && moment < |s.versions|
    ensures Sound(Put(s, shelf, moment, ok))
  {
  }

  // Publishing the next book leaves the rest of the mutation in order.
  lemma PublishMutationOk(s: State, m: Mutation, moment: nat, ok: bool)
    requires MutationOk(s, m) && m.todo != [] && moment < |s.versions| && s.tasks.moment < |s.versions|
    ensures MutationOk(Put(s, m.todo[0], moment, ok), m.(todo := m.todo[1..]))
  {
    var t := Put(s, m.todo[0], moment, ok);
    forall shelf | shelf in m.todo[1..] ensures t.On(shelf).moment <= m.since {
      assert shelf in m.todo && shelf != m.todo[0];
    }
  }

  lemma PublishSound(s: State, moment: nat, ok: bool)
    requires Sound(s)
    ensures Sound(Next(s, Publish(moment, ok)))
  {
    hide NeverDecreasing;
    if s.mutation.Some? && s.mutation.value.todo != [] && s.mutation.value.since <= moment <= s.Now() {
      var m := s.mutation.value;
      PublishMutationOk(s, m, moment, ok);
      WithoutMutation(s);
      PutSound(s.(mutation := None), m.todo[0], moment, ok);
      hide ReadingOk, BookOk, MutationOk;
      assert Put(s, m.todo[0], moment, ok).(mutation := None) == Put(s.(mutation := None), m.todo[0], moment, ok);
      WithMutation(Put(s, m.todo[0], moment, ok), m.(todo := m.todo[1..]));
    }
  }

  lemma WithoutMutation(s: State)
    requires Sound(s)
    ensures Sound(s.(mutation := None))
  {
    hide NeverDecreasing;
  }

  lemma WithMutation(s: State, m: Mutation)
    requires Sound(s.(mutation := None)) && MutationOk(s, m)
    ensures Sound(s.(mutation := Some(m)))
  {
    hide NeverDecreasing;
  }

  lemma LookSound(s: State)
    requires Sound(s)
    ensures Sound(Next(s, Look))
  {
    hide NeverDecreasing;
    if s.reading.None? || s.reading.value.stage < 3 {
      assert ReadingOk(s, Looked(s));
      WithReading(s, Looked(s));
    }
  }

  lemma WithReading(s: State, r: Reading)
    requires Sound(s) && ReadingOk(s, r)
    ensures Sound(s.(reading := Some(r)))
  {
    hide NeverDecreasing;
  }

  lemma FetchSound(s: State)
    requires Sound(s)
    ensures Sound(Next(s, Fetch))
  {
    hide NeverDecreasing;
    if s.reading.Some? && 3 <= s.reading.value.stage < 6 {
      assert ReadingOk(s, Fetched(s, s.reading.value));
      WithReading(s, Fetched(s, s.reading.value));
    }
  }

  lemma ApplySound(s: State, nodesOk: bool, groupsOk: bool, tasksOk: bool)
    requires Sound(s)
    ensures Sound(Next(s, Apply(nodesOk, groupsOk, tasksOk)))
  {
  }

  lemma NextSound(s: State, step: Step)
    requires Sound(s)
    ensures Sound(Next(s, step))
  {
    match step
    case Commit(todo, version) => CommittedSound(s, todo, version);
    case LateCommit(version) => CommittedSound(s, [], version);
    case Publish(moment, ok) => PublishSound(s, moment, ok);
    case Apply(nodesOk, groupsOk, tasksOk) => ApplySound(s, nodesOk, groupsOk, tasksOk);
    case Unlock => WithoutMutation(s);
    case Look => LookSound(s);
    case Fetch => FetchSound(s);
    hide Sound, Next;
  }

  // No book ever goes back in time, and the version of the tasks never decreases.
  predicate Onward(s: State, t: State)
    requires Sound(s) && Sound(t)
  {
    && s.versions <= t.versions
    && (forall shelf: Shelf :: s.On(shelf).moment <= t.On(shelf).moment)
    && s.versions[s.tasks.moment] <= t.versions[t.tasks.moment]
  }

  lemma NextOnward(s: State, step: Step)
    requires Sound(s)
    ensures Sound(Next(s, step)) && Onward(s, Next(s, step))
  {
    NextSound(s, step);
    match step
    case Publish(moment, ok) => PublishOnward(s, moment, ok);
    case Apply(nodesOk, groupsOk, tasksOk) => ApplyOnward(s, nodesOk, groupsOk, tasksOk);
    case _ =>
  }

  lemma PublishOnward(s: State, moment: nat, ok: bool)
    requires Sound(s) && Sound(Next(s, Publish(moment, ok)))
    ensures Onward(s, Next(s, Publish(moment, ok)))
  {
  }

  lemma ApplyOnward(s: State, nodesOk: bool, groupsOk: bool, tasksOk: bool)
    requires Sound(s) && Sound(Next(s, Apply(nodesOk, groupsOk, tasksOk)))
    ensures Onward(s, Next(s, Apply(nodesOk, groupsOk, tasksOk)))
  {
  }

  lemma OnwardTransitive(s: State, t: State, u: State)
    requires Sound(s) && Sound(t) && Sound(u) && Onward(s, t) && Onward(t, u)
    ensures Onward(s, u)
  {
    hide Sound, NeverDecreasing;
  }

  // However reads and mutations interleave, what is published never goes back in
  // time and the version of the tasks never decreases.
  lemma {:induction false} NoResurrection(s: State, steps: seq<Step>)
    requires Sound(s)
    ensures Sound(Run(s, steps)) && Onward(s, Run(s, steps))
    decreases |steps|
  {
    if steps == [] {
    } else {
      NextOnward(s, steps[0]);
      hide Sound, Next, Onward;
      NoResurrection(Next(s, steps[0]), steps[1..]);
      OnwardTransitive(s, Next(s, steps[0]), Run(s, steps));
    }
  }

  // A background read that is published is no older than any of the three books
  // at that moment, not only the one that it replaces.
  lemma AppliedNotOlder(s: State, nodesOk: bool, groupsOk: bool, tasksOk: bool, shelf: Shelf, other: Shelf)
    requires Sound(s)
    ensures var t := Next(s, Apply(nodesOk, groupsOk, tasksOk));
            t.On(shelf) != s.On(shelf) ==> s.mutation.None? && t.On(shelf).moment >= s.On(other).moment
  {
    hide NeverDecreasing;
  }

  // What a mutation publishes is from after its commit, and stays so in every
  // later state, whatever the background reader had read before.
  lemma MutationStays(s: State, moment: nat, ok: bool, steps: seq<Step>)
    requires Sound(s) && s.mutation.Some? && s.mutation.value.todo != [] && s.mutation.value.since <= moment <= s.Now()
    ensures Sound(Next(s, Publish(moment, ok)))
    ensures var m := s.mutation.value;
            && Sound(Run(Next(s, Publish(moment, ok)), steps))
            && var t := Run(Next(s, Publish(moment, ok)), steps);
               match m.todo[0]
               case Tasks => ok ==> s.versions <= t.versions && t.versions[t.tasks.moment] >= t.versions[m.since]
               case shelf => t.On(shelf).moment >= m.since
  {
    NextOnward(s, Publish(moment, ok));
    NoResurrection(Next(s, Publish(moment, ok)), steps);
    PublishedAfter(s, moment, ok);
    var u := Next(s, Publish(moment, ok));
    hide Run, Next;
    assert s.versions <= u.versions;
    hide NeverDecreasing, BookOk;
  }

  lemma PublishedAfter(s: State, moment: nat, ok: bool)
    requires Sound(s) && s.mutation.Some? && s.mutation.value.todo != [] && s.mutation.value.since <= moment <= s.Now()
    ensures var m, t := s.mutation.value, Next(s, Publish(moment, ok));
            && t.versions == s.versions
            && match m.todo[0]
               case Tasks => ok ==> t.tasks.moment < |s.versions| && s.versions[t.tasks.moment] >= s.versions[m.since]
               case shelf => t.On(shelf).moment >= m.since
  {
  }

  // What a publication puts on the shelf: a new object with what was read, withdrawn
  // if the read failed; tasks only if the read succeeded and is newer.
  lemma PutMeans(s: State, shelf: Shelf, moment: nat, ok: bool)
    requires Sound(s) && moment < |s.versions|
    ensures var t := Put(s, shelf, moment, ok);
            && (forall other: Shelf :: other != shelf ==> t.On(other) == s.On(other))
            && t.versions == s.versions && t.mutation == s.mutation && t.reading == s.reading
            && match shelf
               case Tasks =>
                 t.tasks == if ok && s.versions[moment] > s.versions[s.tasks.moment] then Book(s.nextPointer, moment, false) else s.tasks
               case _ => t.On(shelf) == Book(s.nextPointer, moment, !ok)
  {
    hide Sound;
  }

  // What a background read publishes if none of the three books was replaced since it
  // looked at them: groups always, credentials and tasks only if they were read.
  lemma AppliedMeans(s: State, r: Reading, nodesOk: bool, groupsOk: bool, tasksOk: bool)
    requires Sound(s) && r.tasksAt < |s.versions|
    ensures var t := Applied(s, r, nodesOk, groupsOk, tasksOk);
            if r.credentials.pointer == s.credentials.pointer && r.groups.pointer == s.groups.pointer && r.tasks.pointer == s.tasks.pointer then
              && t.groups.pointer >= s.nextPointer && t.groups.moment == r.groupsAt && t.groups.withdrawn == !groupsOk
              && (if nodesOk then t.credentials.pointer >= s.nextPointer && t.credentials.moment == r.nodesAt && !t.credentials.withdrawn
                  else t.credentials == s.credentials)
              && (if tasksOk && s.versions[r.tasksAt] > s.versions[s.tasks.moment]
                  then t.tasks.pointer >= s.nextPointer && t.tasks.moment == r.tasksAt && !t.tasks.withdrawn
                  else t.tasks == s.tasks)
            else t == s
  {
    hide Sound;
  }

  lemma {:induction false} RunUnrolled(s: State, steps: seq<Step>, states: seq<State>)
    requires Sound(s) && |steps| == |states| > 0 && forall i :: 0 <= i < |states| ==> Sound(states[i])
    requires states[0] == Next(s, steps[0]) && forall i, j :: 0 <= i && j == i + 1 < |steps| ==> states[j] == Next(states[i], steps[j])
    ensures Run(s, steps) == states[|states| - 1]
    decreases |steps|
  {
    hide Next, Sound;
    if |steps| > 1 {
      RunUnrolled(states[0], steps[1..], states[1..]);
    } else {
      assert steps[1..] == [];
    }
  }

  // A background read of this very state that has come to a stage.
  function ReadTo(s: State, stage: nat): State
    requires s.versions != []
  {
    s.(reading := Some(Reading(stage, s.credentials, s.groups, s.tasks, if stage >= 4 then s.Now() else 0,
                               if stage >= 6 then s.Now() else 0, if stage >= 5 then s.Now() else 0)))
  }

  lemma ReadsOn(s: State, stage: nat)
    requires Sound(s) && s.mutation.None? && s.reading.None? && stage < 6 && (stage > 0 ==> Sound(ReadTo(s, stage)))
    ensures Sound(ReadTo(s, stage + 1))
    ensures Next(if stage == 0 then s else ReadTo(s, stage), if stage < 3 then Look else Fetch) == ReadTo(s, stage + 1)
  {
    NextSound(if stage == 0 then s else ReadTo(s, stage), if stage < 3 then Look else Fetch);
    hide NeverDecreasing, BookOk, MutationOk;
  }

  // A background read that nothing disturbs publishes what the database contains.
  lemma UndisturbedRead(s: State)
    requires Sound(s) && s.mutation.None? && s.reading.None?
    ensures var t := Run(s, [Look, Look, Look, Fetch, Fetch, Fetch, Apply(true, true, true)]);
            && t.versions == s.versions && t.reading.None?
            && t.credentials.moment == t.groups.moment == s.Now() && !t.credentials.withdrawn && !t.groups.withdrawn
            && t.tasks.moment < |s.versions| && s.versions[t.tasks.moment] == s.versions[s.Now()]
  {
    ReadsOn(s, 0);
    ReadOut(s, 1);
    hide Sound, Next, ReadTo, Run;
    RunFirst(s, Look, Remaining(1));
    assert [Look] + Remaining(1) == [Look, Look, Look, Fetch, Fetch, Fetch, Apply(true, true, true)];
  }

  function Remaining(stage: nat): seq<Step>
    requires stage <= 6
    decreases 6 - stage
  {
    if stage == 6 then [Apply(true, true, true)] else [if stage < 3 then Look else Fetch] + Remaining(stage + 1)
  }

  lemma RunFirst(s: State, step: Step, rest: seq<Step>)
    requires Sound(s)
    ensures Sound(Next(s, step)) && Run(s, [step] + rest) == Run(Next(s, step), rest)
  {
    NextSound(s, step);
    hide Sound, Next;
    assert ([step] + rest)[1..] == rest;
  }

  lemma {:induction false} ReadOut(s: State, stage: nat)
    requires Sound(s) && s.mutation.None? && s.reading.None? && 1 <= stage <= 6 && Sound(ReadTo(s, stage))
    ensures var t := Run(ReadTo(s, stage), Remaining(stage));
            && t.versions == s.versions && t.reading.None?
            && t.credentials.moment == t.groups.moment == s.Now() && !t.credentials.withdrawn && !t.groups.withdrawn
            && t.tasks.moment < |s.versions| && s.versions[t.tasks.moment] == s.versions[s.Now()]
    decreases 6 - stage
  {
    if stage == 6 {
      ReadApplied(s);
      hide Sound, Next, ReadTo;
      RunFirst(ReadTo(s, 6), Apply(true, true, true), []);
      assert [Apply(true, true, true)] + [] == Remaining(6);
    } else {
      ReadsOn(s, stage);
      hide Sound, Next, ReadTo;
      RunFirst(ReadTo(s, stage), if stage < 3 then Look else Fetch, Remaining(stage + 1));
      ReadOut(s, stage + 1);
    }
  }

  lemma ReadApplied(s: State)
    requires Sound(s) && s.mutation.None? && s.reading.None? && Sound(ReadTo(s, 6))
    ensures var t := Next(ReadTo(s, 6), Apply(true, true, true));
            && t.versions == s.versions && t.reading.None?
            && t.credentials.moment == t.groups.moment == s.Now() && !t.credentials.withdrawn && !t.groups.withdrawn
            && t.tasks.moment < |s.versions| && s.versions[t.tasks.moment] == s.versions[s.Now()]
  {
    var u := ReadTo(s, 6);
    AppliedMeans(u, u.reading.value, true, true, true);
    LatestVersion(s, s.tasks.moment);
    hide Applied, NeverDecreasing;
  }

  lemma LatestVersion(s: State, moment: nat)
    requires Sound(s) && moment < |s.versions|
    ensures s.versions[moment] <= s.versions[s.Now()]
  {
  }

  // While a mutation still has to publish, it keeps the lock: no other mutation begins
  // and no background read is published, though the database may move on.
  lemma LockHeld(s: State, todo: seq<Shelf>, version: nat, nodesOk: bool, groupsOk: bool, tasksOk: bool)
    requires Sound(s) && s.mutation.Some? && s.mutation.value.todo != []
    ensures Next(s, Unlock) == s && Next(s, Commit(todo, version)) == s && Next(s, Apply(nodesOk, groupsOk, tasksOk)) == s
    ensures version >= s.versions[s.Now()] ==> Next(s, LateCommit(version)) == s.(versions := s.versions + [version])
  {
  }

  // A mutation publishes what it committed, and then gives the lock back.
  lemma MutationPublishes(s: State, shelf: Shelf, version: nat)
    requires Sound(s) && s.mutation.None? && version >= s.versions[s.Now()]
    ensures var t := Run(s, [Commit([shelf], version), Publish(|s.versions|, true), Unlock]);
            && t.mutation.None? && t.reading == s.reading && t.versions == s.versions + [version]
            && (shelf != Tasks ==> t.On(shelf) == Book(s.nextPointer, |s.versions|, false))
            && (shelf == Tasks ==> t.tasks.moment < |t.versions| && t.versions[t.tasks.moment] == version)
  {
    var s1 := Next(s, Commit([shelf], version));
    NextSound(s, Commit([shelf], version));
    var s2 := Next(s1, Publish(|s.versions|, true));
    NextSound(s1, Publish(|s.versions|, true));
    var s3 := Next(s2, Unlock);
    NextSound(s2, Unlock);
    RunUnrolled(s, [Commit([shelf], version), Publish(|s.versions|, true), Unlock], [s1, s2, s3]);
    PutMeans(s1, shelf, |s.versions|, true);
    LatestVersion(s, s.tasks.moment);
    hide Run, Put;
  }

  // The published books as the service holds them, and the tasks' document that the
  // database contained at each of its moments.
  class Bookcase {
    var versions: seq<nat>
    var documents: seq<Digest>
    var taskError: bool
    var credentials: Book
    var groups: Book
    var tasks: Book
    var nextPointer: nat

    function Contents(): State
      reads this
    {
      State(versions, credentials, groups, tasks, nextPointer, None, None)
    }

    constructor (version: nat, document: Digest)
      ensures Sound(Contents()) && versions == [version] && documents == [document] && !taskError
    {
      versions, documents, taskError, nextPointer := [version], [document], false, 3;
      credentials, groups, tasks := Book(0, 0, true), Book(1, 0, true), Book(2, 0, false);
    }

    method ApplyGroups(moment: nat, ok: bool)
      modifies this`groups, this`nextPointer
      ensures Contents() == WithGroups(old(Contents()), moment, !ok)
    {
      groups, nextPointer := Book(nextPointer, moment, !ok), nextPointer + 1;
    }

    // The read is in error if it failed, went back, or kept its version but not its document.
    predicate TasksRefused(moment: Option<nat>)
      requires tasks.moment < |versions| == |documents| && (moment.Some? ==> moment.value < |versions|)
      reads this
    {
      || moment.None?
      || versions[moment.value] < versions[tasks.moment]
      || (versions[moment.value] == versions[tasks.moment] && documents[moment.value] != documents[tasks.moment])
    }

    method ApplyTasks(moment: Option<nat>)
      requires tasks.moment < |versions| == |documents| && (moment.Some? ==> moment.value < |versions|)
      modifies this`tasks, this`nextPointer, this`taskError
      ensures Contents() == if moment.None? then old(Contents()) else WithTasks(old(Contents()), moment.value)
      ensures taskError <==>
                || moment.None?
                || versions[moment.value] < versions[old(tasks).moment]
                || (versions[moment.value] == versions[old(tasks).moment] && documents[moment.value] != documents[old(tasks).moment])
      ensures taskError ==> tasks == old(tasks)
    {
      if moment.None? {
        taskError := true;
        return;
      }
      var next, previous := versions[moment.value], versions[tasks.moment];
      if next < previous || (next == previous && documents[moment.value] != documents[tasks.moment]) {
        taskError := true;
        return;
      }
      if next > previous {
        tasks, nextPointer := Book(nextPointer, moment.value, false), nextPointer + 1;
      }
      taskError := false;
    }

    method ApplyConfiguration(r: Reading, nodesOk: bool, groupsOk: bool, tasksOk: bool)
      requires Sound(Contents()) && r.tasksAt < |versions| == |documents|
      modifies this
      ensures Contents() == Applied(old(Contents()), r, nodesOk, groupsOk, tasksOk)
      ensures taskError <==> if Unreplaced(old(Contents()), r) then old(TasksRefused(if tasksOk then Some(r.tasksAt) else None)) else old(taskError)
    {
      hide NeverDecreasing;
      if r.credentials.pointer != credentials.pointer || r.tasks.pointer != tasks.pointer || r.groups.pointer != groups.pointer {
        return;
      }
      ApplyGroups(r.groupsAt, groupsOk);
      if nodesOk {
        credentials, nextPointer := Book(nextPointer, r.nodesAt, false), nextPointer + 1;
      }
      ApplyTasks(if tasksOk then Some(r.tasksAt) else None);
    }
  }
}

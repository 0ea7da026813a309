// Restoring a stopped server from a checkpoint. A durable plan comes first; then
// every file is published under a name that must not be taken, the write gate
// before everything else and the database last; then the installation directory
// is published as a whole. A run may be interrupted between any two publications
// and is simply run again.
module ServerRestore {
  import opened Basics

  // The bytes and the modification time of a file.
  datatype File = File(content: Digest, modifiedAt: int)

  // A place outside the installation, in the separate history, in the staged
  // installation or in the live one.
  datatype Place = Shared(path: Id) | InHistory(path: Id) | Staged(path: Id) | Live(path: Id)

  datatype Tree = Elsewhere | History | Installation

  datatype Kind = Gate | Context | Archive | Database

  datatype Entry = Entry(tree: Tree, path: Id, kind: Kind, file: File)

  datatype Plan = Plan(checkpoint: Id, manifest: Digest, context: Digest, policy: Digest, entries: seq<Entry>)

  // What is on the disk. The staged and the live installation may be missing.
  datatype Disk = Disk(files: map<Place, File>, staged: bool, live: bool, plan: Option<Plan>, published: bool)

  datatype Outcome = Refused | Interrupted | Installed

  /* The plan */

  function At(e: Entry, live: bool): Place {
    match e.tree
    case Elsewhere => Shared(e.path)
    case History => InHistory(e.path)
    case Installation => if live then Live(e.path) else Staged(e.path)
  }

  predicate WellPlanned(plan: Plan) {
    && (forall i, j :: 0 <= i < j < |plan.entries| ==> (plan.entries[i].tree, plan.entries[i].path) != (plan.entries[j].tree, plan.entries[j].path))
    && (forall e, f :: e in plan.entries && f in plan.entries && e.kind in {Gate, Database} && f.kind in {Gate, Database} ==>
          e.tree == f.tree && (e.kind == f.kind ==> e == f))
    && (forall e :: e in plan.entries ==> (e.kind == Archive ==> e.tree != Elsewhere) && (e.tree == History ==> e.kind == Archive))
  }

  function Only(entries: seq<Entry>, kinds: set<Kind>): (r: seq<Entry>)
    ensures |r| <= |entries|
    ensures forall e :: e in r <==> e in entries && e.kind in kinds
  {
    if entries == [] then []
    else (if entries[0].kind in kinds then [entries[0]] else []) + Only(entries[1..], kinds)
  }

  function Front(entries: seq<Entry>): (r: seq<Entry>)
    ensures forall e :: e in r <==> e in entries && e.kind != Database
    ensures forall i, j :: 0 <= i < j < |r| && r[j].kind == Gate ==> r[i].kind == Gate
  {
    var gate, rest := Only(entries, {Gate}), Only(entries, {Context, Archive});
    assert forall e :: e in gate + rest <==> e in gate || e in rest;
    assert forall i :: 0 <= i < |gate| ==> gate[i] in gate && gate[i].kind == Gate;
    assert forall i :: 0 <= i < |rest| ==> rest[i] in rest && rest[i].kind != Gate;
    assert forall e :: e in entries && e.kind != Database ==> e.kind in {Gate} || e.kind in {Context, Archive};
    gate + rest
  }

  // The gate is published first and the database last: nothing but gates comes before
  // a gate, and nothing but databases after a database.
  function Ordered(entries: seq<Entry>): (r: seq<Entry>)
    ensures forall e :: e in r <==> e in entries
    ensures forall i, j :: 0 <= i < j < |r| && r[j].kind == Gate ==> r[i].kind == Gate
    ensures forall i, j :: 0 <= i < j < |r| && r[i].kind == Database ==> r[j].kind == Database
  {
    var front, back := Front(entries), Only(entries, {Database});
    assert forall e :: e in front + back <==> e in front || e in back;
    assert forall i :: 0 <= i < |front| ==> front[i] in front && front[i].kind != Database;
    assert forall i :: 0 <= i < |back| ==> back[i] in back && back[i].kind == Database;
    front + back
  }

  predicate AsPlanned(entries: seq<Entry>, place: Place, file: File, live: bool) {
    exists e :: e in entries && At(e, live) == place && e.file == file
  }

  /* One run */

  // Nothing may be in the way of a first run: no installation, database, gate or
  // history; and a shared dependency that is already there must be the planned one.
  predicate Clear(d: Disk, plan: Plan) {
    && !d.live
    && (forall p :: p in d.files ==> !p.InHistory?)
    && (forall e :: e in plan.entries && e.kind in {Gate, Database} ==> At(e, false) !in d.files)
    && (forall e :: e in plan.entries && e.kind == Context && e.tree == Elsewhere && Shared(e.path) in d.files ==>
          d.files[Shared(e.path)] == e.file)
  }

  // The installation and the history hold nothing but planned files, unchanged.
  predicate TreesAsPlanned(d: Disk, plan: Plan) {
    forall p :: p in d.files && (p.InHistory? || (p.Staged? && !d.live) || (p.Live? && d.live)) ==> AsPlanned(plan.entries, p, d.files[p], d.live)
  }

  datatype Copying = Stuck(files: map<Place, File>) | Cut(files: map<Place, File>) | Copied(files: map<Place, File>, budget: nat)

  // Publishes what is missing, in order, while the budget lasts.
  function CopyAll(files: map<Place, File>, live: bool, entries: seq<Entry>, budget: nat): Copying
    decreases |entries|
  {
    if entries == [] then Copied(files, budget)
    else
      var e := entries[0];
      var place := At(e, live);
      if place in files then
        if files[place] != e.file then Stuck(files) else CopyAll(files, live, entries[1..], budget)
      else if budget == 0 then Cut(files)
      else CopyAll(files[place := e.file], live, entries[1..], budget - 1)
  }

  // The staged installation becomes the live one in one step.
  function Renamed(files: map<Place, File>): map<Place, File> {
    var kept := map p | p in files && !p.Staged? && !p.Live? :: files[p];
    var lives := set p | p in files && p.Staged? :: Live(p.path);
    kept + map q | q in lives :: files[Staged(q.path)]
  }

  function Finished(d: Disk, plan: Plan, budget: nat): (Disk, Outcome) {
    if !TreesAsPlanned(d, plan) then (d, Refused)
    else if d.live then
      if d.published then (d, Installed) else if budget == 0 then (d, Interrupted) else (d.(published := true), Installed)
    else if budget == 0 then (d, Interrupted)
    else
      var p := d.(files := Renamed(d.files), live := true, staged := false);
      if p.published then (p, Installed) else if budget == 1 then (p, Interrupted) else (p.(published := true), Installed)
  }

  function Filled(d: Disk, plan: Plan, budget: nat): (Disk, Outcome) {
    if !TreesAsPlanned(d, plan) then (d, Refused)
    else match CopyAll(d.files, d.live, Ordered(plan.entries), budget)
      case Stuck(files) => (d.(files := files), Refused)
      case Cut(files) => (d.(files := files), Interrupted)
      case Copied(files, left) => Finished(d.(files := files), plan, left)
  }

  // The plan is durable.
  function Resumed(d: Disk, plan: Plan, budget: nat): (Disk, Outcome) {
    if d.live || d.staged then Filled(d, plan, budget)
    else if budget == 0 then (d, Interrupted)
    else Filled(d.(staged := true), plan, budget - 1)
  }

  function Restored(d: Disk, plan: Plan, budget: nat): (Disk, Outcome) {
    if d.plan.Some? && d.plan.value != plan then (d, Refused)
    else if d.plan.None? && !Clear(d, plan) then (d, Refused)
    else if d.plan.None? && budget == 0 then (d, Interrupted)
    else if d.plan.None? then Resumed(d.(plan := Some(plan)), plan, budget - 1)
    else Resumed(d, plan, budget)
  }

  // The disk itself, changed in place by one publication after the other.
  class ServerDisk {
    var files: map<Place, File>
    var staged: bool
    var live: bool
    var plan: Option<Plan>
    var published: bool

    function Contents(): Disk
      reads this
    {
      Disk(files, staged, live, plan, published)
    }

    method CopyInOrder(entries: seq<Entry>, allowance: nat) returns (outcome: Outcome, left: nat)
      modifies this`files
      ensures match CopyAll(old(files), live, entries, allowance)
              case Stuck(after) => outcome == Refused && files == after
              case Cut(after) => outcome == Interrupted && files == after
              case Copied(after, budget) => outcome == Installed && files == after && left == budget
    {
      left := allowance;
      for i := 0 to |entries|
        invariant CopyAll(files, live, entries[i..], left) == CopyAll(old(files), live, entries, allowance)
      {
        assert entries[i..][1..] == entries[i + 1..];
        var place := At(entries[i], live);
        if place in files {
          if files[place] != entries[i].file {
            return Refused, left;
          }
        } else {
          if left == 0 {
            return Interrupted, left;
          }
          files := files[place := entries[i].file];
          left := left - 1;
        }
      }
      outcome := Installed;
    }

    method Restore(wanted: Plan, budget: nat) returns (outcome: Outcome)
      modifies this
      ensures (Contents(), outcome) == Restored(old(Contents()), wanted, budget)
    {
      hide Clear, TreesAsPlanned, CopyAll, Renamed, Ordered;
      var left := budget;
      if plan.Some? && plan.value != wanted {
        return Refused;
      }
      if plan.None? {
        if !Clear(Contents(), wanted) {
          return Refused;
        }
        if left == 0 {
          return Interrupted;
        }
        plan, left := Some(wanted), left - 1;
      }
      if !live && !staged {
        if left == 0 {
          return Interrupted;
        }
        staged, left := true, left - 1;
      }
      if !TreesAsPlanned(Contents(), wanted) {
        return Refused;
      }
      outcome, left := CopyInOrder(Ordered(wanted.entries), left);
      if outcome != Installed {
        return;
      }
      if !TreesAsPlanned(Contents(), wanted) {
        return Refused;
      }
      if !live {
        if left == 0 {
          return Interrupted;
        }
        files, live, staged, left := Renamed(files), true, false, left - 1;
      }
      if !published {
        if left == 0 {
          return Interrupted;
        }
        published := true;
      }
    }
  }

  /* What holds at every moment */

  predicate WellFormed(d: Disk) {
    && (forall p :: p in d.files && p.Staged? ==> d.staged)
    && (forall p :: p in d.files && p.Live? ==> d.live)
    && !(d.live && d.staged)
  }

  // A disk on which this checkpoint was not restored before.
  predicate Untouched(d: Disk) {
    WellFormed(d) && !d.staged && d.plan.None? && !d.published
  }

  // Nothing that was there before is changed or removed.
  predicate Kept(before: map<Place, File>, after: map<Place, File>) {
    forall p :: p in before ==> p in after && after[p] == before[p]
  }

  // Whatever is new is a planned file, exactly as planned.
  predicate OnlyPlannedAdded(before: map<Place, File>, after: map<Place, File>, entries: seq<Entry>, live: bool) {
    forall p :: p in after && p !in before ==> AsPlanned(entries, p, after[p], live)
  }

  // A planned file is absent or exactly as planned.
  predicate AbsentOrPlanned(files: map<Place, File>, entries: seq<Entry>, live: bool) {
    forall e :: e in entries && At(e, live) in files ==> files[At(e, live)] == e.file
  }

  predicate AllPresent(files: map<Place, File>, entries: seq<Entry>, live: bool) {
    forall e :: e in entries ==> At(e, live) in files
  }

  // The database is there only if everything else is.
  predicate DatabaseLast(files: map<Place, File>, entries: seq<Entry>, live: bool) {
    forall e, f :: e in entries && e.kind == Database && At(e, live) in files && f in entries && f.kind != Database ==> At(f, live) in files
  }

  predicate Faithful(start: Disk, d: Disk, plan: Plan) {
    && d.plan == Some(plan) && WellFormed(d)
    && Kept(start.files, d.files)
    && OnlyPlannedAdded(start.files, d.files, plan.entries, d.live)
    && AbsentOrPlanned(d.files, plan.entries, d.live)
    && DatabaseLast(d.files, plan.entries, d.live)
    && (d.live ==> AllPresent(d.files, plan.entries, true))
  }

  // Copying adds only planned files, keeps what is there, and stops only for lack
  // of budget.
  lemma {:induction false} CopyAdds(start: map<Place, File>, files: map<Place, File>, live: bool, entries: seq<Entry>, all: seq<Entry>, budget: nat)
    requires forall e :: e in entries ==> e in all
    requires Kept(start, files) && OnlyPlannedAdded(start, files, all, live) && AbsentOrPlanned(files, all, live)
    requires forall e, f :: e in all && f in all && e != f ==> At(e, live) != At(f, live)
    ensures var c := CopyAll(files, live, entries, budget);
            && !c.Stuck? && (c.Cut? ==> budget < |entries|) && (c.Copied? ==> budget <= c.budget + |entries|)
            && Kept(files, c.files)
            && Kept(start, c.files) && OnlyPlannedAdded(start, c.files, all, live) && AbsentOrPlanned(c.files, all, live)
            && (c.Copied? ==> AllPresent(c.files, entries, live))
    decreases |entries|
  {
    if entries != [] {
      var e := entries[0];
      if At(e, live) in files {
        CopyAdds(start, files, live, entries[1..], all, budget);
      } else if budget > 0 {
        CopyAdds(start, files[At(e, live) := e.file], live, entries[1..], all, budget - 1);
      }
    }
  }

  // What comes later is added only after everything that comes first is there.
  lemma {:induction false} FrontFirst(files: map<Place, File>, live: bool, front: seq<Entry>, back: seq<Entry>, budget: nat, p: Place)
    requires p !in files && forall e :: e in front ==> At(e, live) != p
    ensures var c := CopyAll(files, live, front + back, budget);
            p in c.files ==> AllPresent(c.files, front, live)
    decreases |front|
  {
    if front != [] {
      var e := front[0];
      assert (front + back)[1..] == front[1..] + back;
      CopyKeeps(files, live, front + back, budget);
      if At(e, live) in files {
        FrontFirst(files, live, front[1..], back, budget, p);
      } else if budget > 0 {
        var next := files[At(e, live) := e.file];
        CopyKeeps(next, live, front[1..] + back, budget - 1);
        FrontFirst(next, live, front[1..], back, budget - 1, p);
      }
    }
  }

  lemma {:induction false} CopyKeeps(files: map<Place, File>, live: bool, entries: seq<Entry>, budget: nat)
    ensures Kept(files, CopyAll(files, live, entries, budget).files)
    decreases |entries|
  {
    if entries != [] {
      var e := entries[0];
      if At(e, live) in files {
        CopyKeeps(files, live, entries[1..], budget);
      } else if budget > 0 {
        CopyKeeps(files[At(e, live) := e.file], live, entries[1..], budget - 1);
      }
    }
  }

  // Distinct planned files have distinct places.
  ghost predicate Apart(entries: seq<Entry>, live: bool) {
    forall e, f :: e in entries && f in entries && e != f ==> At(e, live) != At(f, live)
  }

  lemma CopyDatabaseLast(files: map<Place, File>, live: bool, entries: seq<Entry>, budget: nat)
    requires DatabaseLast(files, entries, live) && Apart(entries, live)
    ensures DatabaseLast(CopyAll(files, live, Ordered(entries), budget).files, entries, live)
  {
    var c := CopyAll(files, live, Ordered(entries), budget);
    CopyKeeps(files, live, Ordered(entries), budget);
    forall e, f | e in entries && e.kind == Database && At(e, live) in c.files && f in entries && f.kind != Database
      ensures At(f, live) in c.files
    {
      if At(e, live) !in files {
        FrontFirst(files, live, Front(entries), Only(entries, {Database}), budget, At(e, live));
      }
    }
    hide CopyAll;
  }

  lemma PlannedApart(plan: Plan, live: bool)
    requires WellPlanned(plan)
    ensures Apart(plan.entries, live)
  {
    forall e, f | e in plan.entries && f in plan.entries && e != f ensures At(e, live) != At(f, live) {
      var i :| 0 <= i < |plan.entries| && plan.entries[i] == e;
      var j :| 0 <= j < |plan.entries| && plan.entries[j] == f;
    }
  }

  lemma PlanFaithful(start: Disk, plan: Plan)
    requires Untouched(start) && WellPlanned(plan) && Clear(start, plan)
    ensures Faithful(start, start.(plan := Some(plan)), plan)
  {
  }

  lemma TreesFaithful(start: Disk, d: Disk, plan: Plan)
    requires Untouched(start) && Clear(start, plan) && Faithful(start, d, plan)
    ensures TreesAsPlanned(d, plan)
  {
    hide Kept, AbsentOrPlanned, DatabaseLast, AllPresent, AsPlanned;
  }

  lemma CopyFaithful(start: Disk, d: Disk, plan: Plan, budget: nat)
    requires WellPlanned(plan) && Faithful(start, d, plan) && (d.live || d.staged)
    ensures var c := CopyAll(d.files, d.live, Ordered(plan.entries), budget);
            && Faithful(start, d.(files := c.files), plan) && !c.Stuck?
            && (c.Cut? ==> budget < |Ordered(plan.entries)|)
            && (c.Copied? ==> budget <= c.budget + |Ordered(plan.entries)| && AllPresent(c.files, plan.entries, d.live))
  {
    PlannedApart(plan, d.live);
    CopyAdds(start.files, d.files, d.live, Ordered(plan.entries), plan.entries, budget);
    CopyDatabaseLast(d.files, d.live, plan.entries, budget);
    var c := CopyAll(d.files, d.live, Ordered(plan.entries), budget);
    CopyWellFormed(start, d, c.files, plan);
    hide CopyAll, OnlyPlannedAdded, AbsentOrPlanned, DatabaseLast, WellFormed, WellPlanned;
  }

  lemma CopyWellFormed(start: Disk, d: Disk, files: map<Place, File>, plan: Plan)
    requires Faithful(start, d, plan) && (d.live || d.staged) && OnlyPlannedAdded(start.files, files, plan.entries, d.live) && Kept(d.files, files)
    ensures WellFormed(d.(files := files))
  {
    hide AbsentOrPlanned, DatabaseLast, AllPresent;
    forall p | p in files && p !in d.files ensures (p.Staged? ==> d.staged) && (p.Live? ==> d.live) {
      assert p !in start.files;
    }
  }

  // Where a file of the live installation was before.
  function Before(p: Place): Place {
    match p case Live(path) => Staged(path) case _ => p
  }

  lemma RenamedIs(files: map<Place, File>, p: Place)
    requires forall q :: q in files ==> !q.Live?
    ensures p in Renamed(files) <==> !p.Staged? && Before(p) in files
    ensures p in Renamed(files) ==> Renamed(files)[p] == files[Before(p)]
  {
  }

  lemma RenameKept(start: Disk, d: Disk)
    requires WellFormed(start) && !start.staged && !start.live && WellFormed(d) && !d.live && Kept(start.files, d.files)
    ensures Kept(start.files, Renamed(d.files))
  {
    hide Renamed;
    forall p | p in start.files ensures p in Renamed(d.files) && Renamed(d.files)[p] == start.files[p] {
      RenamedIs(d.files, p);
    }
  }

  lemma RenameOnlyPlanned(start: Disk, d: Disk, plan: Plan)
    requires WellFormed(start) && !start.staged && WellFormed(d) && !d.live && OnlyPlannedAdded(start.files, d.files, plan.entries, false)
    ensures OnlyPlannedAdded(start.files, Renamed(d.files), plan.entries, true)
  {
    hide Renamed;
    forall p | p in Renamed(d.files) && p !in start.files ensures AsPlanned(plan.entries, p, Renamed(d.files)[p], true) {
      RenamedIs(d.files, p);
      var q := Before(p);
      assert q !in start.files;
      assert AsPlanned(plan.entries, q, d.files[q], false);
      var e :| e in plan.entries && At(e, false) == q && e.file == d.files[q];
      assert At(e, true) == p;
    }
  }

  lemma RenameComplete(d: Disk, plan: Plan)
    requires WellFormed(d) && !d.live && AllPresent(d.files, plan.entries, false) && AbsentOrPlanned(d.files, plan.entries, false)
    ensures AllPresent(Renamed(d.files), plan.entries, true) && AbsentOrPlanned(Renamed(d.files), plan.entries, true)
  {
    hide Renamed;
    forall e | e in plan.entries
      ensures At(e, true) in Renamed(d.files) && Renamed(d.files)[At(e, true)] == e.file
    {
      RenamedIs(d.files, At(e, true));
      assert Before(At(e, true)) == At(e, false);
    }
  }

  lemma RenameWellFormed(d: Disk)
    requires WellFormed(d) && !d.live
    ensures WellFormed(d.(files := Renamed(d.files), live := true, staged := false))
  {
    hide Renamed;
    forall p | p in Renamed(d.files) ensures !p.Staged? {
      RenamedIs(d.files, p);
    }
  }

  lemma RenameFaithful(start: Disk, d: Disk, plan: Plan)
    requires Untouched(start) && Faithful(start, d, plan) && !d.live && !start.live && AllPresent(d.files, plan.entries, false)
    ensures Faithful(start, d.(files := Renamed(d.files), live := true, staged := false), plan)
  {
    RenameKept(start, d);
    RenameOnlyPlanned(start, d, plan);
    RenameComplete(d, plan);
    RenameWellFormed(d);
    hide Renamed, Kept, OnlyPlannedAdded, WellFormed, AbsentOrPlanned;
  }

  /* Interrupted runs */

  // What a completed restoration leaves: the disk as it was and the plan.
  predicate Complete(start: Disk, d: Disk, plan: Plan) {
    && d.live && !d.staged && d.published && d.plan == Some(plan)
    && Kept(start.files, d.files)
    && (forall e :: e in plan.entries ==> At(e, true) in d.files && d.files[At(e, true)] == e.file)
    && OnlyPlannedAdded(start.files, d.files, plan.entries, true)
  }

  function Steps(plan: Plan): nat {
    |Ordered(plan.entries)| + 4
  }

  lemma FinishFaithful(start: Disk, d: Disk, plan: Plan, budget: nat)
    requires Untouched(start) && Clear(start, plan) && Faithful(start, d, plan) && AllPresent(d.files, plan.entries, d.live)
    ensures var (p, outcome) := Finished(d, plan, budget);
            && Faithful(start, p, plan) && outcome != Refused
            && (outcome == Interrupted ==> budget < 2)
            && (outcome == Installed ==> Complete(start, p, plan))
  {
    TreesFaithful(start, d, plan);
    if !d.live {
      RenameFaithful(start, d, plan);
    }
    hide Renamed, TreesAsPlanned, Clear;
    hide OnlyPlannedAdded, Kept, DatabaseLast;
  }

  lemma FillFaithful(start: Disk, d: Disk, plan: Plan, budget: nat)
    requires Untouched(start) && WellPlanned(plan) && Clear(start, plan) && Faithful(start, d, plan) && (d.live || d.staged)
    ensures var (p, outcome) := Filled(d, plan, budget);
            && Faithful(start, p, plan) && outcome != Refused
            && (outcome == Interrupted ==> budget < |Ordered(plan.entries)| + 2)
            && (outcome == Installed ==> Complete(start, p, plan))
  {
    TreesFaithful(start, d, plan);
    CopyFaithful(start, d, plan, budget);
    var c := CopyAll(d.files, d.live, Ordered(plan.entries), budget);
    if c.Copied? {
      FinishFaithful(start, d.(files := c.files), plan, c.budget);
    }
    hide CopyAll, TreesAsPlanned, Clear, Finished, Complete, WellPlanned, Untouched, AllPresent;
    hide Kept, OnlyPlannedAdded, WellFormed, AbsentOrPlanned, DatabaseLast;
  }

  // Either nothing has happened yet, or every moment since the plan is faithful.
  predicate Underway(start: Disk, d: Disk, plan: Plan) {
    d == start || Faithful(start, d, plan)
  }

  lemma ResumeFaithful(start: Disk, d: Disk, plan: Plan, budget: nat)
    requires Untouched(start) && WellPlanned(plan) && Clear(start, plan) && Faithful(start, d, plan)
    ensures var (p, outcome) := Resumed(d, plan, budget);
            && Faithful(start, p, plan) && outcome != Refused
            && (outcome == Interrupted ==> budget < |Ordered(plan.entries)| + 3)
            && (outcome == Installed ==> Complete(start, p, plan))
  {
    hide Filled, Clear, Complete, WellPlanned, Faithful, Ordered, Untouched;
    if d.live || d.staged {
      FillFaithful(start, d, plan, budget);
    } else if budget > 0 {
      StageFaithful(start, d, plan);
      FillFaithful(start, d.(staged := true), plan, budget - 1);
    }
  }

  lemma RunFaithful(start: Disk, d: Disk, plan: Plan, budget: nat)
    requires Untouched(start) && WellPlanned(plan) && Clear(start, plan) && Underway(start, d, plan)
    ensures var (p, outcome) := Restored(d, plan, budget);
            && Underway(start, p, plan) && outcome != Refused
            && (outcome == Interrupted ==> budget < Steps(plan))
            && (outcome == Installed ==> Complete(start, p, plan))
  {
    assert d == start || d.plan == Some(plan);
    assert start.plan.None?;
    hide Faithful, Untouched, Clear, Complete, WellPlanned, Resumed, Ordered;
    if d == start {
      PlanFaithful(start, plan);
      if budget > 0 {
        ResumeFaithful(start, start.(plan := Some(plan)), plan, budget - 1);
      }
    } else {
      ResumeFaithful(start, d, plan, budget);
    }
  }

  lemma StageFaithful(start: Disk, d: Disk, plan: Plan)
    requires Faithful(start, d, plan) && !d.live
    ensures Faithful(start, d.(staged := true), plan)
  {
  }

  /* Any disk */

  // Something is in the way of a first run: an installation, a history, the database or
  // its gate, or another file where a shared dependency is planned.
  predicate Blocked(d: Disk, plan: Plan) {
    || d.live
    || (exists p :: p in d.files && p.InHistory?)
    || exists e :: e in plan.entries && At(e, false) in d.files
                   && (e.kind == Gate || e.kind == Database
                       || (e.kind == Context && e.tree == Elsewhere && d.files[Shared(e.path)] != e.file))
  }

  // A file in a tree that is not planned there, or another file in a planned place.
  predicate Foreign(d: Disk, plan: Plan) {
    || (exists p :: p in d.files && (p.InHistory? || (if d.live then p.Live? else p.Staged?))
                    && forall e :: e in plan.entries ==> At(e, d.live) != p || e.file != d.files[p])
    || exists e :: e in plan.entries && At(e, d.live) in d.files && d.files[At(e, d.live)] != e.file
  }

  lemma BlockedExactly(d: Disk, plan: Plan)
    ensures Blocked(d, plan) <==> !Clear(d, plan)
  {
  }

  lemma ForeignExactly(d: Disk, plan: Plan)
    ensures Foreign(d, plan) <==> !TreesAsPlanned(d, plan) || !AbsentOrPlanned(d.files, plan.entries, d.live)
  {
    forall p | p in d.files
      ensures AsPlanned(plan.entries, p, d.files[p], d.live) <==> !forall e :: e in plan.entries ==> At(e, d.live) != p || e.file != d.files[p]
    {
    }
    hide AsPlanned, At;
  }

  // Another file in a planned place stops the copying.
  lemma {:induction false} CopyStuck(files: map<Place, File>, live: bool, entries: seq<Entry>, budget: nat, e: Entry)
    requires e in entries && At(e, live) in files && files[At(e, live)] != e.file && budget >= |entries|
    ensures CopyAll(files, live, entries, budget).Stuck?
    decreases |entries|
  {
    var first := entries[0];
    var place := At(first, live);
    if place !in files {
      CopyStuck(files[place := first.file], live, entries[1..], budget - 1, e);
    } else if files[place] == first.file {
      CopyStuck(files, live, entries[1..], budget, e);
    }
    hide At;
  }

  lemma TreesStay(d: Disk, files: map<Place, File>, plan: Plan)
    requires TreesAsPlanned(d, plan) && Kept(d.files, files) && OnlyPlannedAdded(d.files, files, plan.entries, d.live)
    ensures TreesAsPlanned(d.(files := files), plan)
  {
    forall p | p in files && (p.InHistory? || (p.Staged? && !d.live) || (p.Live? && d.live)) ensures AsPlanned(plan.entries, p, files[p], d.live) {
      assert p in d.files ==> files[p] == d.files[p];
    }
    hide AsPlanned;
  }

  // The installation is in place, with every planned file as planned.
  predicate InPlace(d: Disk, plan: Plan) {
    d.live && !d.staged && d.published && d.plan == Some(plan)
    && forall e :: e in plan.entries ==> At(e, true) in d.files && d.files[At(e, true)] == e.file
  }

  lemma FinishExactly(d: Disk, plan: Plan, budget: nat)
    requires WellFormed(d) && d.plan == Some(plan) && TreesAsPlanned(d, plan) && budget >= 2
    requires AllPresent(d.files, plan.entries, d.live) && AbsentOrPlanned(d.files, plan.entries, d.live)
    ensures var (p, outcome) := Finished(d, plan, budget);
            outcome == Installed && InPlace(p, plan)
  {
    if !d.live {
      RenameComplete(d, plan);
    }
    hide Renamed, At, TreesAsPlanned;
  }

  lemma FillExactly(d: Disk, plan: Plan, budget: nat)
    requires WellFormed(d) && (d.live || d.staged) && d.plan == Some(plan) && WellPlanned(plan) && Suffices(plan, budget, 2)
    ensures var (p, outcome) := Filled(d, plan, budget);
            && outcome == (if Foreign(d, plan) then Refused else Installed)
            && (outcome == Installed ==> InPlace(p, plan))
  {
    ForeignExactly(d, plan);
    hide Foreign;
    var order := Ordered(plan.entries);
    if TreesAsPlanned(d, plan) {
      if AbsentOrPlanned(d.files, plan.entries, d.live) {
        PlannedApart(plan, d.live);
        CopyAdds(d.files, d.files, d.live, order, plan.entries, budget);
        var c := CopyAll(d.files, d.live, order, budget);
        TreesStay(d, c.files, plan);
        CopiedWellFormed(d, c.files, plan);
        assert AllPresent(c.files, plan.entries, d.live);
        FinishExactly(d.(files := c.files), plan, c.budget);
      } else {
        var e :| e in plan.entries && At(e, d.live) in d.files && d.files[At(e, d.live)] != e.file;
        CopyStuck(d.files, d.live, order, budget, e);
      }
    }
    hide CopyAll, Finished, TreesAsPlanned, InPlace, WellFormed, OnlyPlannedAdded, Kept, Ordered;
  }

  lemma CopiedWellFormed(d: Disk, files: map<Place, File>, plan: Plan)
    requires WellFormed(d) && (d.live || d.staged) && OnlyPlannedAdded(d.files, files, plan.entries, d.live)
    ensures WellFormed(d.(files := files))
  {
  }

  // Enough for every publication of the plan and some steps more.
  predicate Suffices(plan: Plan, budget: nat, more: nat) {
    budget >= |Ordered(plan.entries)| + more
  }

  lemma OneStep(plan: Plan, budget: nat, more: nat)
    requires Suffices(plan, budget, more + 1)
    ensures budget > 0 && Suffices(plan, budget - 1, more) && Suffices(plan, budget, more)
  {
  }

  lemma StepsSuffice(plan: Plan, budget: nat)
    requires budget >= Steps(plan)
    ensures Suffices(plan, budget, 4)
  {
  }

  lemma ResumeExactly(d: Disk, plan: Plan, budget: nat)
    requires WellFormed(d) && d.plan == Some(plan) && WellPlanned(plan) && Suffices(plan, budget, 3)
    ensures var (p, outcome) := Resumed(d, plan, budget);
            && outcome == (if Foreign(d, plan) then Refused else Installed)
            && (outcome == Installed ==> InPlace(p, plan))
  {
    hide Filled, Suffices, Foreign, WellPlanned, InPlace, WellFormed;
    OneStep(plan, budget, 2);
    if d.live || d.staged {
      FillExactly(d, plan, budget);
    } else {
      StagedAlike(d, plan);
      FillExactly(d.(staged := true), plan, budget - 1);
    }
  }

  lemma StagedAlike(d: Disk, plan: Plan)
    requires WellFormed(d) && !d.live
    ensures WellFormed(d.(staged := true)) && Foreign(d.(staged := true), plan) == Foreign(d, plan)
  {
  }

  lemma PlanAlike(d: Disk, plan: Plan)
    ensures WellFormed(d.(plan := Some(plan))) == WellFormed(d) && Foreign(d.(plan := Some(plan)), plan) == Foreign(d, plan)
  {
  }

  // What one run does that is not interrupted, whatever it finds: it refuses another
  // restore's disk, a first run with something in the way, and foreign files; else the
  // installation is in place afterwards.
  lemma RunExactly(d: Disk, plan: Plan, budget: nat)
    requires WellFormed(d) && WellPlanned(plan) && budget >= Steps(plan)
    ensures var (p, outcome) := Restored(d, plan, budget);
            && (outcome == Refused <==> (d.plan.Some? && d.plan != Some(plan)) || (d.plan.None? && Blocked(d, plan)) || Foreign(d, plan))
            && (outcome != Refused ==> outcome == Installed && InPlace(p, plan))
  {
    hide Clear, Blocked, Foreign, WellFormed, WellPlanned, InPlace, Resumed, Suffices, Steps;
    BlockedExactly(d, plan);
    var q := d.(plan := Some(plan));
    PlanAlike(d, plan);
    StepsSuffice(plan, budget);
    OneStep(plan, budget, 3);
    if d.plan.None? {
      ResumeExactly(q, plan, budget - 1);
    } else if d.plan == Some(plan) {
      assert q == d;
      ResumeExactly(q, plan, budget);
    }
  }

  // From the files that were found, in a live installation or not, to the disk p:
  // everything is as it was, or at most moved with the installation into its place.
  predicate LeftAlone(files: map<Place, File>, live: bool, p: Disk) {
    if p.live == live then Kept(files, p.files)
    else p.live && forall q :: q in files ==> Moved(q) in p.files && p.files[Moved(q)] == files[q]
  }

  // However soon a run stops, it leaves alone what it finds.
  lemma RunKeeps(d: Disk, plan: Plan, budget: nat)
    requires WellFormed(d)
    ensures var p := Restored(d, plan, budget).0;
            && LeftAlone(d.files, d.live, p)
            && (p.plan == d.plan || (d.plan.None? && p.plan == Some(plan)))
  {
    hide Resumed, LeftAlone, WellFormed, Clear, Foreign;
    LeftAsIs(d);
    PlanAlike(d, plan);
    if d.plan == Some(plan) {
      ResumeKeeps(d, plan, budget);
    } else if d.plan.None? && budget > 0 {
      ResumeKeeps(d.(plan := Some(plan)), plan, budget - 1);
    }
  }

  lemma LeftAsIs(d: Disk)
    ensures forall p: Disk :: p.files == d.files && p.live == d.live ==> LeftAlone(d.files, d.live, p)
  {
  }

  lemma ResumeKeeps(d: Disk, plan: Plan, budget: nat)
    requires WellFormed(d)
    ensures LeftAlone(d.files, d.live, Resumed(d, plan, budget).0) && Resumed(d, plan, budget).0.plan == d.plan
  {
    hide Filled, LeftAlone;
    LeftAsIs(d);
    if d.live || d.staged {
      KeptWhenFilled(d, plan, budget);
    } else if budget > 0 {
      KeptWhenFilled(d.(staged := true), plan, budget - 1);
    }
  }

  // Where a file is once the installation is live.
  function Moved(p: Place): Place {
    match p case Staged(path) => Live(path) case _ => p
  }

  lemma KeptWhenFilled(d: Disk, plan: Plan, budget: nat)
    requires forall p :: p in d.files && p.Live? ==> d.live
    ensures LeftAlone(d.files, d.live, Filled(d, plan, budget).0) && Filled(d, plan, budget).0.plan == d.plan
  {
    hide CopyAll, Renamed, TreesAsPlanned, Ordered, At, Kept;
    LeftAsIs(d);
    CopyKeeps(d.files, d.live, Ordered(plan.entries), budget);
    var c := CopyAll(d.files, d.live, Ordered(plan.entries), budget);
    if !d.live {
      CopyStaysDark(d.files, Ordered(plan.entries), budget);
      RenameLeaves(d.files, c.files);
    }
  }

  lemma RenameLeaves(before: map<Place, File>, files: map<Place, File>)
    requires Kept(before, files) && forall q :: q in files ==> !q.Live?
    ensures forall q :: q in before ==> Moved(q) in Renamed(files) && Renamed(files)[Moved(q)] == before[q]
  {
    hide Renamed;
    forall q | q in before ensures Moved(q) in Renamed(files) && Renamed(files)[Moved(q)] == before[q] {
      RenamedIs(files, Moved(q));
      assert Before(Moved(q)) == q;
    }
  }

  // Nothing is live before the installation is.
  lemma {:induction false} CopyStaysDark(files: map<Place, File>, entries: seq<Entry>, budget: nat)
    requires forall p :: p in files ==> !p.Live?
    ensures forall p :: p in CopyAll(files, false, entries, budget).files ==> !p.Live?
    decreases |entries|
  {
    if entries != [] {
      var place := At(entries[0], false);
      if place in files {
        CopyStaysDark(files, entries[1..], budget);
      } else if budget > 0 {
        CopyStaysDark(files[place := entries[0].file], entries[1..], budget - 1);
      }
    }
  }

  /* Many runs */

  function RestoredAll(d: Disk, plan: Plan, budgets: seq<nat>): Disk
    decreases |budgets|
  {
    if budgets == [] then d else RestoredAll(Restored(d, plan, budgets[0]).0, plan, budgets[1..])
  }

  // However often the restoration is interrupted, and wherever: nothing that was
  // there is altered, every planned file is absent or exactly as planned, and the
  // next run is not refused; a run that is not interrupted completes it.
  lemma {:induction false} RestorationConverges(start: Disk, d: Disk, plan: Plan, budgets: seq<nat>, budget: nat)
    requires Untouched(start) && WellPlanned(plan) && Clear(start, plan) && Underway(start, d, plan)
    ensures var p := RestoredAll(d, plan, budgets);
            && Underway(start, p, plan) && Kept(start.files, p.files) && AbsentOrPlanned(p.files, plan.entries, p.live)
            && Restored(p, plan, budget).1 != Refused
            && (Restored(p, plan, budget).1 == Installed ==> Complete(start, Restored(p, plan, budget).0, plan))
            && (budget >= Steps(plan) ==> Restored(p, plan, budget).1 == Installed)
    decreases |budgets|
  {
    if budgets == [] {
      RunFaithful(start, d, plan, budget);
      StartAbsentOrPlanned(start, plan);
    } else {
      RunFaithful(start, d, plan, budgets[0]);
      RestorationConverges(start, Restored(d, plan, budgets[0]).0, plan, budgets[1..], budget);
    }
    hide Restored, Clear, WellPlanned, AbsentOrPlanned, Complete;
  }

  lemma StartAbsentOrPlanned(start: Disk, plan: Plan)
    requires WellFormed(start) && !start.staged && WellPlanned(plan) && Clear(start, plan)
    ensures AbsentOrPlanned(start.files, plan.entries, start.live)
  {
  }

  lemma FaithfulGated(start: Disk, d: Disk, plan: Plan, database: Entry, e: Entry)
    requires WellFormed(start) && Clear(start, plan) && WellPlanned(plan) && Underway(start, d, plan)
    requires database in plan.entries && database.kind == Database && e in plan.entries && (e.kind == Gate || e.tree != Installation)
    requires At(database, true) in d.files
    ensures At(e, true) in d.files && d.files[At(e, true)] == e.file
  {
    if d != start && d.live {
      assert At(e, d.live) in d.files;
    } else if d != start {
      assert At(database, d.live) == At(database, true);
      assert At(e, d.live) == At(e, true);
    }
    hide Kept, OnlyPlannedAdded;
  }

  // At every moment the live database is there only if its gate and every other
  // planned file outside the installation are there as well.
  lemma GatedDatabase(start: Disk, plan: Plan, budgets: seq<nat>, database: Entry, e: Entry)
    requires Untouched(start) && WellPlanned(plan) && Clear(start, plan)
    requires database in plan.entries && database.kind == Database && e in plan.entries && (e.kind == Gate || e.tree != Installation)
    ensures var p := RestoredAll(start, plan, budgets);
            At(database, true) in p.files ==> At(e, true) in p.files && p.files[At(e, true)] == e.file
  {
    RestorationConverges(start, start, plan, budgets, 0);
    hide RestoredAll, Restored, Clear, WellPlanned, Underway;
    var p := RestoredAll(start, plan, budgets);
    if At(database, true) in p.files {
      FaithfulGated(start, p, plan, database, e);
    }
  }

  // A disk in the way of a first run is refused as it is, every time.
  lemma {:induction false} RefusedUnchanged(start: Disk, plan: Plan, budgets: seq<nat>)
    requires start.plan.None? && !Clear(start, plan)
    ensures RestoredAll(start, plan, budgets) == start && forall budget :: Restored(start, plan, budget) == (start, Refused)
    decreases |budgets|
  {
    hide Clear;
    if budgets != [] {
      RefusedUnchanged(start, plan, budgets[1..]);
    }
  }

  // The place is inside the installation or the history, and the plan has no file there.
  predicate Stray(d: Disk, plan: Plan, place: Place) {
    && (place.InHistory? || (place.Staged? && !d.live) || (place.Live? && d.live))
    && forall e :: e in plan.entries ==> At(e, d.live) != place
  }

  // A file that a kill inside one publication left in a tree under a temporary name
  // stops every later run, which changes nothing; it has to be removed by hand.
  lemma {:induction false} StrayFileStopsRuns(d: Disk, plan: Plan, place: Place, file: File, budgets: seq<nat>, budget: nat)
    requires d.plan == Some(plan) && (d.live || d.staged) && Stray(d, plan, place)
    ensures var q := d.(files := d.files[place := file]);
            RestoredAll(q, plan, budgets) == q && Restored(q, plan, budget) == (q, Refused)
    decreases |budgets|
  {
    var q := d.(files := d.files[place := file]);
    assert !AsPlanned(plan.entries, place, file, d.live);
    assert !TreesAsPlanned(q, plan);
    hide TreesAsPlanned, Clear, Stray;
    if budgets != [] {
      StrayFileStopsRuns(d, plan, place, file, budgets[1..], budget);
    }
  }

  // The same disk with a file that was there from the start.
  lemma LeftoverFaithful(start: Disk, d: Disk, plan: Plan, place: Place, file: File)
    requires Untouched(start) && WellPlanned(plan) && Clear(start, plan) && Faithful(start, d, plan)
    requires place.Shared? && place !in d.files && forall e :: e in plan.entries ==> At(e, d.live) != place
    ensures var from, q := start.(files := start.files[place := file]), d.(files := d.files[place := file]);
            Untouched(from) && Clear(from, plan) && Faithful(from, q, plan)
  {
    forall e | e in plan.entries ensures At(e, true) != place && At(e, false) != place {
      assert At(e, d.live) != place;
    }
    var from, q := start.(files := start.files[place := file]), d.(files := d.files[place := file]);
    assert Kept(from.files, q.files);
    assert OnlyPlannedAdded(from.files, q.files, plan.entries, q.live) by {
      forall p | p in q.files && p !in from.files ensures AsPlanned(plan.entries, p, q.files[p], q.live) {
        assert p in d.files && p !in start.files;
      }
    }
  }

  // A kill inside one publication leaves a file at a place of its own. Later runs are
  // stopped by it exactly if that place is in a tree; otherwise they complete the
  // restoration, however often they are interrupted, and the file stays.
  lemma LeftoverStopsExactlyWhenStray(start: Disk, d: Disk, plan: Plan, place: Place, file: File, budgets: seq<nat>, budget: nat)
    requires Untouched(start) && WellPlanned(plan) && Clear(start, plan) && Faithful(start, d, plan) && (d.live || d.staged)
    requires place !in d.files && forall e :: e in plan.entries ==> At(e, d.live) != place
    requires WellFormed(d.(files := d.files[place := file]))
    ensures var q := RestoredAll(d.(files := d.files[place := file]), plan, budgets);
            && (Restored(q, plan, budget).1 == Refused <==> Stray(d, plan, place))
            && (Stray(d, plan, place) ==> q == d.(files := d.files[place := file]))
            && (!Stray(d, plan, place) ==>
                && place in q.files && q.files[place] == file
                && (budget >= Steps(plan) ==> Restored(q, plan, budget).1 == Installed))
  {
    if Stray(d, plan, place) {
      hide Stray;
      StrayFileStopsRuns(d, plan, place, file, budgets, budget);
    } else {
      assert place.Shared?;
      LeftoverFaithful(start, d, plan, place, file);
      hide Untouched, Clear, Faithful, WellPlanned, Restored, RestoredAll, AbsentOrPlanned, Complete, Stray;
      var from, q := start.(files := start.files[place := file]), d.(files := d.files[place := file]);
      RestorationConverges(from, q, plan, budgets, budget);
      assert place in from.files && from.files[place] == file;
    }
  }
}

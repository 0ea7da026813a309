// Whether one service identity descends from another through confirmed restores:
// only then may an old operation's journal be read under the new identity.
module RestoreLineage {
  import opened Basics

  const MAX_ROWS := 128
  const MAX_STEPS := 128

  // A confirmed restore: the new identity and the one that was backed up.
  datatype Restore = Restore(child: Id, parent: Id)

  // Each identity was restored once, so parents form a map.
  predicate OneParent(rows: seq<Restore>) {
    forall i, j :: 0 <= i < j < |rows| ==> rows[i].child != rows[j].child
  }

  function Parents(rows: seq<Restore>): map<Id, Id> {
    if rows == [] then map[] else Parents(rows[..|rows| - 1])[rows[|rows| - 1].child := rows[|rows| - 1].parent]
  }

  // Climbing from an identity to its parents; None is a conflict.
  function Climb(parents: map<Id, Id>, seen: seq<Id>, current: Id, ancestor: Id): Option<bool>
    decreases MAX_STEPS - |seen|
  {
    if |seen| >= MAX_STEPS then None
    else if current == ancestor then Some(|seen| > 0)
    else if current in seen then None
    else if current !in parents then Some(false)
    else Climb(parents, seen + [current], parents[current], ancestor)
  }

  // A line of descent that meets the ancestor only at its end.
  predicate Line(parents: map<Id, Id>, p: seq<Id>, current: Id, ancestor: Id) {
    && |p| >= 2 && p[0] == current && p[|p| - 1] == ancestor
    && (forall i :: 0 <= i < |p| - 1 ==> p[i] in parents && p[i] != ancestor)
    && forall i, j :: 0 <= i && j == i + 1 < |p| && p[i] in parents ==> parents[p[i]] == p[j]
  }

  lemma {:induction false} LineDistinct(parents: map<Id, Id>, p: seq<Id>, current: Id, ancestor: Id, i: nat, j: nat)
    requires Line(parents, p, current, ancestor) && i < j < |p|
    ensures p[i] != p[j]
    decreases |p| - j
  {
    if p[i] == p[j] {
      if j < |p| - 1 {
        assert parents[p[i]] == p[i + 1] && parents[p[j]] == p[j + 1];
        LineDistinct(parents, p, current, ancestor, i + 1, j + 1);
      } else {
        assert false;
      }
    }
  }

  lemma {:induction false} ClimbFollowsLine(parents: map<Id, Id>, p: seq<Id>, current: Id, ancestor: Id, k: nat)
    requires Line(parents, p, current, ancestor) && |p| <= MAX_STEPS && k < |p|
    ensures Climb(parents, p[..k], p[k], ancestor) == Some(true)
    decreases |p| - k
  {
    if k < |p| - 1 {
      forall i | 0 <= i < k ensures p[i] != p[k] {
        LineDistinct(parents, p, current, ancestor, i, k);
      }
      assert parents[p[k]] == p[k + 1];
      assert p[..k] + [p[k]] == p[..k + 1];
      ClimbFollowsLine(parents, p, current, ancestor, k + 1);
    }
  }

  // The identities climbed so far lead to the present one.
  predicate Climbed(parents: map<Id, Id>, seen: seq<Id>, current: Id, ancestor: Id) {
    && (forall i :: 0 <= i < |seen| ==> seen[i] in parents && seen[i] != ancestor)
    && (forall i, j :: 0 <= i && j == i + 1 < |seen| && seen[i] in parents ==> parents[seen[i]] == seen[j])
    && (seen != [] && seen[|seen| - 1] in parents ==> parents[seen[|seen| - 1]] == current)
  }

  lemma {:induction false} ClimbFindsLine(parents: map<Id, Id>, seen: seq<Id>, current: Id, ancestor: Id) returns (p: seq<Id>)
    requires Climbed(parents, seen, current, ancestor) && Climb(parents, seen, current, ancestor) == Some(true)
    ensures Line(parents, p, (seen + [current])[0], ancestor) && |p| <= MAX_STEPS
    decreases MAX_STEPS - |seen|
  {
    if current == ancestor {
      p := seen + [current];
    } else {
      assert (seen + [current] + [parents[current]])[0] == (seen + [current])[0];
      p := ClimbFindsLine(parents, seen + [current], parents[current], ancestor);
    }
  }

  // Descent is confirmed exactly along a line of at most 127 restores.
  lemma ConfirmedExactlyAlongLine(parents: map<Id, Id>, current: Id, ancestor: Id)
    ensures Climb(parents, [], current, ancestor) == Some(true)
       <==> exists p :: Line(parents, p, current, ancestor) && |p| <= MAX_STEPS
  {
    if Climb(parents, [], current, ancestor) == Some(true) {
      var p := ClimbFindsLine(parents, [], current, ancestor);
      assert ([] + [current])[0] == current;
    }
    forall p | Line(parents, p, current, ancestor) && |p| <= MAX_STEPS ensures Climb(parents, [], current, ancestor) == Some(true) {
      ClimbFollowsLine(parents, p, current, ancestor, 0);
      assert p[..0] == [];
    }
  }

  // A longer line, which as many rows still admit, is a conflict and not a denial.
  lemma {:induction false} LongLineConflicts(parents: map<Id, Id>, p: seq<Id>, current: Id, ancestor: Id, k: nat)
    requires Line(parents, p, current, ancestor) && |p| > MAX_STEPS && k <= MAX_STEPS
    ensures Climb(parents, p[..k], p[k], ancestor).None?
    decreases MAX_STEPS - k
  {
    if k < MAX_STEPS {
      assert parents[p[k]] == p[k + 1];
      assert p[..k] + [p[k]] == p[..k + 1];
      LongLineConflicts(parents, p, current, ancestor, k + 1);
    }
  }

  // n restores one after another: every identity is restored as the next one's child.
  function Succession(n: nat): (rows: seq<Restore>)
    ensures |rows| == n
  {
    seq(n, i => Restore(i, i + 1))
  }

  lemma {:induction false} SuccessionParents(n: nat)
    ensures OneParent(Succession(n))
    ensures forall c :: c in Parents(Succession(n)) <==> 0 <= c < n
    ensures forall c :: 0 <= c < n ==> Parents(Succession(n))[c] == c + 1
  {
    if n > 0 {
      SuccessionParents(n - 1);
      assert Succession(n)[..n - 1] == Succession(n - 1);
    }
  }

  // Admitted rows meet the limit: along a succession of n restores the first identity
  // descends from the last, and this is confirmed exactly if there are fewer than 128.
  // With 128 rows, which are not too many, it is a conflict.
  lemma SuccessionConflictsAtLimit(n: nat)
    requires 0 < n <= MAX_ROWS
    ensures |Succession(n)| <= MAX_ROWS && OneParent(Succession(n))
    ensures exists p :: Line(Parents(Succession(n)), p, 0, n)
    ensures Climb(Parents(Succession(n)), [], 0, n) == if n < MAX_STEPS then Some(true) else None
  {
    SuccessionParents(n);
    var p: seq<Id> := seq(n + 1, i => i);
    assert Line(Parents(Succession(n)), p, 0, n);
    assert p[..0] == [];
    if n < MAX_STEPS {
      ClimbFollowsLine(Parents(Succession(n)), p, 0, n, 0);
    } else {
      LongLineConflicts(Parents(Succession(n)), p, 0, n, 0);
    }
  }

  // Whether the rows confirm the descent; None is a conflict.
  function Lineage(rows: seq<Restore>, current: Id, ancestor: Id): Option<bool> {
    if |rows| > MAX_ROWS || !OneParent(rows) then None else Climb(Parents(rows), [], current, ancestor)
  }

  // A descent from one identity through the rows, each the parent of the one before.
  predicate Descent(rows: seq<Restore>, p: seq<Id>, current: Id) {
    && p != [] && p[0] == current
    && forall i, j :: 0 <= i && j == i + 1 < |p| ==> Restore(p[i], p[j]) in rows
  }

  // It ends at the ancestor, which it meets nowhere else.
  predicate Reaches(rows: seq<Restore>, p: seq<Id>, current: Id, ancestor: Id) {
    Descent(rows, p, current) && 2 <= |p| <= 128 && ancestor == p[|p| - 1] && ancestor !in p[..|p| - 1]
  }

  // It ends at an identity that was never restored, and never meets the ancestor.
  predicate Misses(rows: seq<Restore>, p: seq<Id>, current: Id, ancestor: Id) {
    Descent(rows, p, current) && |p| <= 128 && ancestor !in p && forall row :: row in rows ==> row.child != p[|p| - 1]
  }

  lemma {:induction false} ParentsListed(rows: seq<Restore>)
    requires OneParent(rows)
    ensures forall c, d :: Restore(c, d) in rows <==> c in Parents(rows) && Parents(rows)[c] == d
    ensures forall c :: c in Parents(rows) <==> exists row :: row in rows && row.child == c
    decreases |rows|
  {
    if rows != [] {
      var init, last := rows[..|rows| - 1], rows[|rows| - 1];
      assert rows == init + [last];
      ParentsListed(init);
      forall row ensures row in rows <==> row in init || row == last {
      }
      forall row | row in init ensures row.child != last.child {
        var i :| 0 <= i < |init| && init[i] == row;
        assert rows[i].child != rows[|rows| - 1].child;
      }
    }
  }

  lemma StepsListed(rows: seq<Restore>, p: seq<Id>)
    requires OneParent(rows)
    ensures (forall i, j :: 0 <= i && j == i + 1 < |p| ==> Restore(p[i], p[j]) in rows) <==>
            && (forall i :: 0 <= i < |p| - 1 ==> p[i] in Parents(rows))
            && forall i, j :: 0 <= i && j == i + 1 < |p| && p[i] in Parents(rows) ==> Parents(rows)[p[i]] == p[j]
  {
    ParentsListed(rows);
    hide OneParent, Parents;
    if forall i, j :: 0 <= i && j == i + 1 < |p| ==> Restore(p[i], p[j]) in rows {
      forall i | 0 <= i < |p| - 1 ensures p[i] in Parents(rows) {
        assert Restore(p[i], p[i + 1]) in rows;
      }
    }
  }

  lemma ReachesLine(rows: seq<Restore>, p: seq<Id>, current: Id, ancestor: Id)
    requires OneParent(rows)
    ensures Reaches(rows, p, current, ancestor) <==> Line(Parents(rows), p, current, ancestor) && |p| <= MAX_STEPS
  {
    StepsListed(rows, p);
    assert p != [] ==> (ancestor !in p[..|p| - 1] <==> forall i :: 0 <= i < |p| - 1 ==> p[i] != ancestor);
    hide OneParent, Parents;
  }

  // A climb that ends at an identity without a parent.
  predicate Trail(parents: map<Id, Id>, p: seq<Id>, current: Id, ancestor: Id) {
    && p != [] && p[0] == current && p[|p| - 1] !in parents
    && (forall i :: 0 <= i < |p| - 1 ==> p[i] in parents)
    && (forall i :: 0 <= i < |p| ==> p[i] != ancestor)
    && forall i, j :: 0 <= i && j == i + 1 < |p| && p[i] in parents ==> parents[p[i]] == p[j]
  }

  lemma MissesTrail(rows: seq<Restore>, p: seq<Id>, current: Id, ancestor: Id)
    requires OneParent(rows)
    ensures Misses(rows, p, current, ancestor) <==> Trail(Parents(rows), p, current, ancestor) && |p| <= MAX_STEPS
  {
    ParentsListed(rows);
    StepsListed(rows, p);
    assert ancestor !in p <==> forall i :: 0 <= i < |p| ==> p[i] != ancestor;
    hide OneParent, Parents;
  }

  lemma {:induction false} TrailDistinct(parents: map<Id, Id>, p: seq<Id>, current: Id, ancestor: Id, i: nat, j: nat)
    requires Trail(parents, p, current, ancestor) && i < j < |p|
    ensures p[i] != p[j]
    decreases |p| - j
  {
    if p[i] == p[j] {
      if j < |p| - 1 {
        assert parents[p[i]] == p[i + 1] && parents[p[j]] == p[j + 1];
        TrailDistinct(parents, p, current, ancestor, i + 1, j + 1);
      } else {
        assert false;
      }
    }
  }

  lemma {:induction false} ClimbFollowsTrail(parents: map<Id, Id>, p: seq<Id>, current: Id, ancestor: Id, k: nat)
    requires Trail(parents, p, current, ancestor) && |p| <= MAX_STEPS && k < |p|
    ensures Climb(parents, p[..k], p[k], ancestor) == Some(false)
    decreases |p| - k
  {
    forall i | 0 <= i < k ensures p[i] != p[k] {
      TrailDistinct(parents, p, current, ancestor, i, k);
    }
    if k < |p| - 1 {
      assert parents[p[k]] == p[k + 1];
      assert p[..k] + [p[k]] == p[..k + 1];
      ClimbFollowsTrail(parents, p, current, ancestor, k + 1);
    }
  }

  lemma {:induction false} ClimbFindsTrail(parents: map<Id, Id>, seen: seq<Id>, current: Id, ancestor: Id) returns (p: seq<Id>)
    requires Climbed(parents, seen, current, ancestor) && Climb(parents, seen, current, ancestor) == Some(false)
    requires current != ancestor || seen != []
    ensures Trail(parents, p, (seen + [current])[0], ancestor) && |p| <= MAX_STEPS
    decreases MAX_STEPS - |seen|
  {
    if current !in parents {
      p := seen + [current];
    } else {
      assert (seen + [current] + [parents[current]])[0] == (seen + [current])[0];
      p := ClimbFindsTrail(parents, seen + [current], parents[current], ancestor);
    }
  }

  // The answer, read off the rows: at most 128 of them, each identity restored once.
  // Descent is confirmed exactly if one reaches the ancestor, and denied exactly if one
  // misses it, or for the identity itself; anything else is a conflict.
  lemma LineageExactly(rows: seq<Restore>, current: Id, ancestor: Id)
    ensures var admitted := |rows| <= 128 && forall i, j :: 0 <= i < j < |rows| ==> rows[i].child != rows[j].child;
            && (Lineage(rows, current, ancestor) == Some(true) <==> admitted && exists p :: Reaches(rows, p, current, ancestor))
            && (Lineage(rows, current, ancestor) == Some(false) <==>
                admitted && (current == ancestor || exists p :: Misses(rows, p, current, ancestor)))
  {
    if OneParent(rows) {
      var parents := Parents(rows);
      assert ([] + [current])[0] == current;
      ConfirmedExactlyAlongLine(parents, current, ancestor);
      forall p ensures Reaches(rows, p, current, ancestor) <==> Line(parents, p, current, ancestor) && |p| <= MAX_STEPS {
        ReachesLine(rows, p, current, ancestor);
      }
      forall p ensures Misses(rows, p, current, ancestor) <==> Trail(parents, p, current, ancestor) && |p| <= MAX_STEPS {
        MissesTrail(rows, p, current, ancestor);
      }
      DeniedExactlyOffTrail(parents, current, ancestor);
    }
    hide Reaches, Misses, Line, Trail, Parents, Climb;
  }

  lemma DeniedExactlyOffTrail(parents: map<Id, Id>, current: Id, ancestor: Id)
    ensures Climb(parents, [], current, ancestor) == Some(false)
       <==> current == ancestor || exists p :: Trail(parents, p, current, ancestor) && |p| <= MAX_STEPS
  {
    if Climb(parents, [], current, ancestor) == Some(false) && current != ancestor {
      var p := ClimbFindsTrail(parents, [], current, ancestor);
      assert ([] + [current])[0] == current;
    }
    forall p | Trail(parents, p, current, ancestor) && |p| <= MAX_STEPS ensures Climb(parents, [], current, ancestor) == Some(false) {
      ClimbFollowsTrail(parents, p, current, ancestor, 0);
      assert p[..0] == [];
    }
  }

  method ConfirmedLineage(rows: seq<Restore>, current: Id, ancestor: Id) returns (allowed: Option<bool>)
    ensures allowed == Lineage(rows, current, ancestor)
  {
    var parents: map<Id, Id> := map[];
    for i := 0 to |rows|
      invariant i <= MAX_ROWS && OneParent(rows[..i]) && parents == Parents(rows[..i])
      invariant forall c :: c in parents <==> exists j :: 0 <= j < i && rows[j].child == c
    {
      assert rows[..i + 1][..i] == rows[..i];
      if i == MAX_ROWS || rows[i].child in parents {
        return None;
      }
      parents := parents[rows[i].child := rows[i].parent];
    }
    assert rows[..|rows|] == rows;
    var at, steps := current, 0;
    var seen: set<Id> := {};
    ghost var path: seq<Id> := [];
    while steps < MAX_STEPS
      invariant steps == |path| <= MAX_STEPS
      invariant forall x :: x in seen <==> x in path
      invariant |seen| > 0 <==> |path| > 0
      invariant Climb(parents, path, at, ancestor) == Climb(parents, [], current, ancestor)
    {
      if at == ancestor {
        return Some(|seen| > 0);
      }
      if at in seen {
        return None;
      }
      if at !in parents {
        return Some(false);
      }
      seen, path := seen + {at}, path + [at];
      at, steps := parents[at], steps + 1;
    }
    return None;
  }
}

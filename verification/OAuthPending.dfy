// Pending sign-in attempts: at most eight of one peer and sixty-four in all, and a
// new attempt pushes out at most one other browser's.
module OAuthPending {
  import opened Basics

  const MAX_PENDING := 64
  const MAX_PER_PEER := 8
  const TTL := 600_000

  datatype Attempt = Attempt(peer: Id, expires: int)

  type Pending = map<Id, Attempt>

  function OfPeer(p: Pending, peer: Id): set<Id> {
    set k | k in p && p[k].peer == peer
  }

  ghost predicate Bounded(p: Pending) {
    |p| <= MAX_PENDING && forall peer :: |OfPeer(p, peer)| <= MAX_PER_PEER
  }

  function Unexpired(p: Pending, now: int): Pending {
    map k | k in p && now < p[k].expires :: p[k]
  }

  // An oldest one of a set of attempts.
  predicate Oldest(p: Pending, among: set<Id>, k: Id) {
    k in among && k in p && forall other :: other in among && other in p ==> p[k].expires <= p[other].expires
  }

  // Whom a new attempt of a peer pushes out: an oldest attempt of the same peer if
  // that peer has its eight, otherwise an oldest of all if there are sixty-four.
  ghost predicate Evicted(live: Pending, peer: Id, evicted: set<Id>) {
    if |OfPeer(live, peer)| >= MAX_PER_PEER then exists k :: evicted == {k} && Oldest(live, OfPeer(live, peer), k)
    else if |live| >= MAX_PENDING then exists k :: evicted == {k} && Oldest(live, live.Keys, k)
    else evicted == {}
  }

  // What a start does: the browser's former attempt and everything expired go, at
  // most one attempt is pushed out, and the new one is added.
  ghost predicate Started(before: Pending, after: Pending, former: Option<Id>, key: Id, peer: Id, now: int) {
    var live := Unexpired(if former.Some? then before - {former.value} else before, now);
    exists evicted :: Evicted(live, peer, evicted) && after == (live - evicted)[key := Attempt(peer, now + TTL)]
  }

  // Fewer attempts stay within the bounds.
  lemma SmallerBounded(p: Pending, q: Pending)
    requires Bounded(p) && forall k :: k in q ==> k in p && p[k] == q[k]
    ensures Bounded(q)
  {
    forall k | k in q.Keys ensures k in p.Keys {
    }
    Included(q.Keys, p.Keys);
    forall peer ensures |OfPeer(q, peer)| <= MAX_PER_PEER {
      forall k | k in OfPeer(q, peer) ensures k in OfPeer(p, peer) {
      }
      Included(OfPeer(q, peer), OfPeer(p, peer));
    }
  }

  // With room in all and for the peer, one more attempt stays within the bounds.
  lemma AddedBounded(p: Pending, key: Id, a: Attempt)
    requires Bounded(p) && |p| < MAX_PENDING && |OfPeer(p, a.peer)| < MAX_PER_PEER
    ensures Bounded(p[key := a])
  {
    var q := p[key := a];
    forall peer ensures |OfPeer(q, peer)| <= MAX_PER_PEER {
      if peer == a.peer {
        assert OfPeer(q, peer) <= OfPeer(p, peer) + {key};
        Included(OfPeer(q, peer), OfPeer(p, peer) + {key});
      } else {
        Included(OfPeer(q, peer), OfPeer(p, peer));
      }
    }
  }

  lemma StartedBounded(before: Pending, after: Pending, former: Option<Id>, key: Id, peer: Id, now: int)
    requires Bounded(before) && Started(before, after, former, key, peer, now)
    ensures Bounded(after)
  {
    var live := Unexpired(if former.Some? then before - {former.value} else before, now);
    SmallerBounded(before, live);
    var evicted :| Evicted(live, peer, evicted) && after == (live - evicted)[key := Attempt(peer, now + TTL)];
    var rest := live - evicted;
    SmallerBounded(live, rest);
    RoomMade(live, peer, evicted);
    AddedBounded(rest, key, Attempt(peer, now + TTL));
  }

  // Freeing a place of the peer frees one in all.
  lemma RoomMade(live: Pending, peer: Id, evicted: set<Id>)
    requires Bounded(live) && Evicted(live, peer, evicted)
    ensures |live - evicted| < MAX_PENDING && |OfPeer(live - evicted, peer)| < MAX_PER_PEER
  {
    var rest := live - evicted;
    if evicted == {} {
      SameEntries(rest, live);
      PeerAmongAll(live, peer);
    } else {
      var k :| evicted == {k} && k in live;
      Dropped(live.Keys, rest.Keys, k);
      if |OfPeer(live, peer)| >= MAX_PER_PEER {
        assert k in OfPeer(live, peer);
        Dropped(OfPeer(live, peer), OfPeer(rest, peer), k);
      } else {
        Included(OfPeer(rest, peer), OfPeer(live, peer));
      }
    }
  }

  lemma PeerAmongAll(p: Pending, peer: Id)
    ensures |OfPeer(p, peer)| <= |p|
  {
    Included(OfPeer(p, peer), p.Keys);
  }

  lemma Dropped(a: set<Id>, b: set<Id>, k: Id)
    requires k in a && forall x :: x in b <==> x in a && x != k
    ensures |b| == |a| - 1
  {
    forall x ensures x in b <==> x in a - {k} {
    }
    SameMembers(b, a - {k});
  }

  // The attempts that a start finds: valid ones of other browsers.
  function Others(before: Pending, former: Option<Id>, now: int): set<Id> {
    set k | k in before && Some(k) != former && before[k].expires > now
  }

  // The attempt would have to make room: it is an oldest one of the peer if the peer
  // has eight others already, or an oldest one if there are sixty-four.
  ghost predicate InTheWay(before: Pending, others: set<Id>, peer: Id, k: Id)
    requires others <= before.Keys && k in before
  {
    if |set o | o in others && before[o].peer == peer| >= 8 then
      before[k].peer == peer && forall o :: o in others && before[o].peer == peer ==> before[k].expires <= before[o].expires
    else |others| >= 64 && forall o :: o in others ==> before[k].expires <= before[o].expires
  }

  // After a start the new attempt is there for ten minutes, and of the others all but
  // one at most: an attempt is lost only if it was in the way, and then one was.
  lemma StartedMeans(before: Pending, after: Pending, former: Option<Id>, key: Id, peer: Id, now: int)
    requires Started(before, after, former, key, peer, now)
    ensures key in after && after[key] == Attempt(peer, now + 600_000)
    ensures forall k :: k in after && k != key ==> k in Others(before, former, now) && after[k] == before[k]
    ensures forall k :: k in Others(before, former, now) && k != key && k !in after ==> InTheWay(before, Others(before, former, now), peer, k)
    ensures forall j, k :: j in Others(before, former, now) && k in Others(before, former, now) && j != key && k != key && j !in after && k !in after ==> j == k
    ensures |set o | o in Others(before, former, now) && before[o].peer == peer| >= 8 || |Others(before, former, now)| >= 64 ==>
              exists k :: k in Others(before, former, now) && (k == key || k !in after) && InTheWay(before, Others(before, former, now), peer, k)
  {
    var others := Others(before, former, now);
    var live := Unexpired(if former.Some? then before - {former.value} else before, now);
    LiveAreOthers(before, former, now, peer);
    var evicted :| Evicted(live, peer, evicted) && after == (live - evicted)[key := Attempt(peer, now + TTL)];
    hide Unexpired, Others;
    if |OfPeer(live, peer)| >= MAX_PER_PEER {
      var k :| evicted == {k} && Oldest(live, OfPeer(live, peer), k);
      assert InTheWay(before, others, peer, k);
    } else if |live| >= MAX_PENDING {
      var k :| evicted == {k} && Oldest(live, live.Keys, k);
      assert InTheWay(before, others, peer, k);
    }
  }

  lemma LiveAreOthers(before: Pending, former: Option<Id>, now: int, peer: Id)
    ensures var live := Unexpired(if former.Some? then before - {former.value} else before, now);
            var others := Others(before, former, now);
            && (forall k :: k in live <==> k in others) && (forall k :: k in live ==> k in before && live[k] == before[k])
            && |live| == |others| && others <= before.Keys
            && |OfPeer(live, peer)| == |set o | o in others && before[o].peer == peer|
            && forall k :: k in OfPeer(live, peer) <==> k in others && before[k].peer == peer
  {
    var live := Unexpired(if former.Some? then before - {former.value} else before, now);
    var others := Others(before, former, now);
    forall k ensures k in live.Keys <==> k in others {
    }
    SameMembers(live.Keys, others);
    forall k | k in others ensures k in before.Keys {
    }
    Included(others, before.Keys);
    assert |live| == |live.Keys|;
    var mine := set o | o in others && before[o].peer == peer;
    forall k ensures k in OfPeer(live, peer) <==> k in mine {
      assert k in live ==> live[k] == before[k];
    }
    SameMembers(OfPeer(live, peer), mine);
  }

  // A start removes at most one attempt that is still valid and not the browser's.
  lemma AtMostOneEvicted(before: Pending, after: Pending, former: Option<Id>, key: Id, peer: Id, now: int)
    requires Started(before, after, former, key, peer, now)
    ensures exists lost: set<Id> :: |lost| <= 1 && Survives(before, after, former, key, now, lost)
  {
    var live := Unexpired(if former.Some? then before - {former.value} else before, now);
    var evicted :| Evicted(live, peer, evicted) && after == (live - evicted)[key := Attempt(peer, now + TTL)];
    EvictedSize(live, peer, evicted);
    hide Evicted, Unexpired;
    forall k | k in before && Some(k) != former && now < before[k].expires && k != key && k !in evicted
      ensures k in after && after[k] == before[k]
    {
      Kept(before, former, now, k);
    }
    assert Survives(before, after, former, key, now, evicted);
  }

  lemma Kept(before: Pending, former: Option<Id>, now: int, k: Id)
    requires k in before && Some(k) != former && now < before[k].expires
    ensures var live := Unexpired(if former.Some? then before - {former.value} else before, now);
            k in live && live[k] == before[k]
  {
  }

  lemma EvictedSize(live: Pending, peer: Id, evicted: set<Id>)
    requires Evicted(live, peer, evicted)
    ensures |evicted| <= 1
  {
    hide OfPeer, Oldest;
  }

  // Every attempt that was valid, not the browser's own and not lost is kept.
  ghost predicate Survives(before: Pending, after: Pending, former: Option<Id>, key: Id, now: int, lost: set<Id>) {
    forall k :: k in before && Some(k) != former && now < before[k].expires && k != key && k !in lost ==> k in after && after[k] == before[k]
  }

  /* Any sequence of starts, callbacks and expiries */

  datatype Event = Start(former: Option<Id>, key: Id, peer: Id, now: int) | Callback(key: Id) | Expire(now: int)

  ghost predicate Follows(before: Pending, after: Pending, e: Event) {
    match e
    case Start(former, key, peer, now) => Started(before, after, former, key, peer, now)
    case Callback(key) => after == before - {key}
    case Expire(now) => after == Unexpired(before, now)
  }

  lemma {:induction false} AlwaysBounded(states: seq<Pending>, events: seq<Event>)
    requires |states| == |events| + 1 && Bounded(states[0])
    requires forall i, j :: 0 <= i && j == i + 1 < |states| ==> Follows(states[i], states[j], events[i])
    ensures forall i :: 0 <= i < |states| ==> Bounded(states[i])
    decreases |events|
  {
    if events != [] {
      hide Bounded, Started, Unexpired;
      FollowsBounded(states[0], states[1], events[0]);
      AlwaysBounded(states[1..], events[1..]);
      forall i | 0 <= i < |states| ensures Bounded(states[i]) {
        if i > 0 {
          assert states[i] == states[1..][i - 1];
        }
      }
    }
  }

  lemma FollowsBounded(before: Pending, after: Pending, e: Event)
    requires Bounded(before) && Follows(before, after, e)
    ensures Bounded(after)
  {
    match e
    case Start(former, key, peer, now) => StartedBounded(before, after, former, key, peer, now);
    case _ => SmallerBounded(before, after);
  }

  class Attempts {
    var pending: Pending

    ghost predicate Valid()
      reads this
    {
      Bounded(pending)
    }

    constructor ()
      ensures Valid() && pending == map[]
    {
      pending := map[];
      var none: Pending := map[];
      forall peer ensures |OfPeer(none, peer)| == 0 {
        SameMembers(OfPeer(none, peer), {});
      }
    }

    method StartAttempt(former: Option<Id>, key: Id, peer: Id, now: int)
      requires Valid()
      modifies this
      ensures Valid() && Started(old(pending), pending, former, key, peer, now)
    {
      hide Unexpired, OfPeer, Bounded, Oldest;
      if former.Some? {
        pending := pending - {former.value};
      }
      var sameIP, oldest, oldestIP := Sweep(peer, now);
      ghost var live := pending;
      ghost var evicted := MakeRoom(peer, sameIP, oldest, oldestIP);
      pending := pending[key := Attempt(peer, now + TTL)];
      assert Evicted(live, peer, evicted) && pending == (live - evicted)[key := Attempt(peer, now + TTL)];
      hide Evicted;
      StartedBounded(old(pending), pending, former, key, peer, now);
    }

    method MakeRoom(peer: Id, sameIP: set<Id>, oldest: Option<Id>, oldestIP: Option<Id>) returns (ghost evicted: set<Id>)
      requires sameIP == OfPeer(pending, peer) && forall k :: k in sameIP ==> k in pending
      requires OldestOf(pending, pending.Keys, oldest) && OldestOf(pending, sameIP, oldestIP)
      modifies this
      ensures Evicted(old(pending), peer, evicted) && pending == old(pending) - evicted
    {
      hide OfPeer, Oldest, OldestOf;
      evicted := {};
      if |sameIP| >= MAX_PER_PEER {
        OldestExists(pending, sameIP, oldestIP);
        evicted := {oldestIP.value};
        pending := pending - {oldestIP.value};
      } else if |pending| >= MAX_PENDING {
        OldestExists(pending, pending.Keys, oldest);
        evicted := {oldest.value};
        pending := pending - {oldest.value};
      } else {
        SameEntries(pending - evicted, pending);
      }
    }

    // Drops what has expired, and finds the oldest attempts on the way.
    method Sweep(peer: Id, now: int) returns (sameIP: set<Id>, oldest: Option<Id>, oldestIP: Option<Id>)
      modifies this
      ensures pending == Unexpired(old(pending), now)
      ensures sameIP == OfPeer(pending, peer) && forall k :: k in sameIP ==> k in pending
      ensures OldestOf(pending, pending.Keys, oldest) && OldestOf(pending, sameIP, oldestIP)
    {
      sameIP, oldest, oldestIP := {}, None, None;
      var remaining := pending.Keys;
      ghost var done: set<Id> := {};
      while exists k :: k in remaining
        invariant forall k :: k in old(pending) <==> k in remaining || k in done
        invariant remaining !! done
        invariant forall k :: k in pending <==> k in old(pending) && (k in remaining || now < old(pending)[k].expires)
        invariant forall k :: k in pending ==> pending[k] == old(pending)[k]
        invariant forall k :: k in sameIP <==> k in pending && k in done && pending[k].peer == peer
        invariant OldestOf(pending, done, oldest) && OldestOf(pending, sameIP, oldestIP)
        decreases |remaining|
      {
        var k :| k in remaining;
        remaining := remaining - {k};
        ghost var before := done;
        done := done + {k};
        if now >= pending[k].expires {
          pending := pending - {k};
        } else {
          if pending[k].peer == peer {
            sameIP := sameIP + {k};
            if oldestIP.None? || pending[k].expires < pending[oldestIP.value].expires {
              oldestIP := Some(k);
            }
          }
          if oldest.None? || pending[k].expires < pending[oldest.value].expires {
            oldest := Some(k);
          }
        }
      }
      ghost var live := Unexpired(old(pending), now);
      forall k ensures k in pending <==> k in live {
      }
      forall k | k in pending ensures pending[k] == live[k] {
      }
      SameEntries(pending, live);
      forall k ensures k in sameIP <==> k in OfPeer(pending, peer) {
      }
      SameMembers(sameIP, OfPeer(pending, peer));
    }

    method Claim(key: Id, now: int) returns (attempt: Option<Attempt>)
      requires Valid()
      modifies this
      ensures Valid() && pending == old(pending) - {key}
      ensures attempt == if key in old(pending) && now < old(pending)[key].expires then Some(old(pending)[key]) else None
    {
      attempt := if key in pending && now < pending[key].expires then Some(pending[key]) else None;
      pending := pending - {key};
      SmallerBounded(old(pending), pending);
    }
  }

  // An oldest of a set, or none if the set has no pending member.
  predicate OldestOf(p: Pending, among: set<Id>, k: Option<Id>) {
    if k.Some? then Oldest(p, among, k.value) else forall other :: other in among ==> other !in p
  }

  lemma OldestExists(p: Pending, among: set<Id>, k: Option<Id>)
    requires OldestOf(p, among, k) && (forall x :: x in among ==> x in p) && |among| > 0
    ensures k.Some? && Oldest(p, among, k.value)
  {
    if k.None? {
      forall x ensures x !in among {
      }
      SameMembers(among, {});
    }
  }
}

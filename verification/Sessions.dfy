// Who may speak for a node. A connection is granted under the node's token, takes
// the node over with its hello, and loses it to the next hello or to a change of
// the token. Six kinds of frames share one sequence space.
module Sessions {
  import opened Basics

  datatype Kind = Report | Probe | Tunnel | Detail | ConfigResult | RestoreResult

  // A node's object: a new one is made whenever the token of its agent changes.
  type Ref = (Id, nat)

  datatype Node = Node(token: Digest, conn: Option<Id>, session: Id, sequence: nat, kinds: set<Kind>)

  // A connection: its grant, the object it joined, and the sequence numbers that
  // were accepted from it. It may still be read from after it was told to close.
  datatype Connection = Connection(agent: Id, token: Digest, open: bool, joined: Option<Ref>, gone: bool, accepted: seq<nat>)

  datatype Table = Table(nodes: map<Id, Ref>, objects: map<Ref, Node>, connections: map<Id, Connection>, epoch: nat)

  // A frame is fitting if the further conditions of its kind hold: a probe result is
  // for no later tasks than the published ones, a reply answers the pending command or
  // is one the link remembers.
  datatype Frame = Frame(kind: Kind, session: Id, sequence: nat, fitting: bool)

  predicate Holds(t: Table, agent: Id, token: Digest) {
    agent in t.nodes && t.nodes[agent] in t.objects && t.objects[t.nodes[agent]].token == token
  }

  // The upgraded connection is registered under its grant if that still holds.
  function Upgraded(t: Table, c: Id, agent: Id, token: Digest): Table {
    if c in t.connections || !Holds(t, agent, token) then t
    else t.(connections := t.connections[c := Connection(agent, token, true, None, false, [])])
  }

  function Shut(t: Table, c: Option<Id>): Table {
    if c.Some? && c.value in t.connections
    then t.(connections := t.connections[c.value := t.connections[c.value].(open := false)]) else t
  }

  // The hello makes the connection the node's own and closes the previous one.
  function Joined(t: Table, c: Id, session: Id, kinds: set<Kind>): Table {
    if c !in t.connections || t.connections[c].joined.Some? || t.connections[c].gone then t
    else
      var l := t.connections[c];
      if !Holds(t, l.agent, l.token) then Shut(t, Some(c))
      else
        var r := t.nodes[l.agent];
        var u := Shut(t, t.objects[r].conn);
        u.(objects := u.objects[r := Node(l.token, Some(c), session, 1, {Report} + kinds)],
           connections := u.connections[c := u.connections[c].(joined := Some(r))])
  }

  // A frame counts only from the node's own connection, in its session, with a
  // greater sequence number, of a kind that the connection announced, and fitting.
  predicate Acceptable(t: Table, c: Id, f: Frame) {
    && c in t.connections && t.connections[c].joined.Some? && !t.connections[c].gone
    && var l := t.connections[c];
    && l.agent in t.nodes && t.nodes[l.agent] in t.objects
    && var n := t.objects[t.nodes[l.agent]];
    && n.conn == Some(c) && f.kind in n.kinds && f.session == n.session && f.sequence > n.sequence && f.fitting
  }

  function Accepted(t: Table, c: Id, f: Frame): Table {
    if !Acceptable(t, c, f) then t
    else
      var l := t.connections[c];
      var r := t.nodes[l.agent];
      t.(objects := t.objects[r := t.objects[r].(sequence := f.sequence)],
         connections := t.connections[c := l.(accepted := l.accepted + [f.sequence])])
  }

  function Left(t: Table, c: Id): Table {
    if c !in t.connections then t
    else
      var l := t.connections[c];
      var u := t.(connections := t.connections[c := l.(open := false, gone := true)]);
      if l.agent in t.nodes && t.nodes[l.agent] in t.objects && t.objects[t.nodes[l.agent]].conn == Some(c)
      then u.(objects := u.objects[t.nodes[l.agent] := t.objects[t.nodes[l.agent]].(conn := None)]) else u
  }

  // New credentials: an agent keeps its object if it keeps its token.
  function NextRef(t: Table, agent: Id, token: Digest): Ref {
    if Holds(t, agent, token) then t.nodes[agent] else (agent, t.epoch + 1)
  }

  // The agents whose objects are made anew.
  function Changed(t: Table, credentials: map<Id, Digest>): set<Ref> {
    set a | a in credentials && !Holds(t, a, credentials[a]) :: (a, t.epoch + 1)
  }

  function MadeFor(refs: set<Ref>, credentials: map<Id, Digest>): map<Ref, Node>
    requires forall r :: r in refs ==> r.0 in credentials
  {
    map r | r in refs :: Node(credentials[r.0], None, 0, 0, {})
  }

  function Renewed(t: Table, credentials: map<Id, Digest>): Table {
    Table(map a | a in credentials :: NextRef(t, a, credentials[a]),
          t.objects + MadeFor(Changed(t, credentials), credentials),
          map c | c in t.connections :: Reviewed(t.connections[c], credentials),
          t.epoch + 1)
  }

  // A connection whose grant is no longer the agent's token is closed.
  function Reviewed(l: Connection, credentials: map<Id, Digest>): Connection {
    if l.agent in credentials && credentials[l.agent] == l.token then l else l.(open := false)
  }

  datatype Step =
    | Upgrade(c: Id, agent: Id, token: Digest)
    | Hello(c: Id, session: Id, kinds: set<Kind>)
    | Receive(c: Id, frame: Frame)
    | Leave(c: Id)
    | ApplyCredentials(credentials: map<Id, Digest>)

  function Next(t: Table, step: Step): Table {
    match step
    case Upgrade(c, agent, token) => Upgraded(t, c, agent, token)
    case Hello(c, session, kinds) => Joined(t, c, session, kinds)
    case Receive(c, frame) => Accepted(t, c, frame)
    case Leave(c) => Left(t, c)
    case ApplyCredentials(credentials) => Renewed(t, credentials)
  }

  function Run(t: Table, steps: seq<Step>): Table
    decreases |steps|
  {
    if steps == [] then t else Run(Next(t, steps[0]), steps[1..])
  }

  // The service's own tables, updated in place under its lock.
  class SessionTable {
    var nodes: map<Id, Ref>
    var objects: map<Ref, Node>
    var connections: map<Id, Connection>
    var epoch: nat

    function Contents(): Table
      reads this
    {
      Table(nodes, objects, connections, epoch)
    }

    method Close(c: Id)
      modifies this`connections
      ensures Contents() == Shut(old(Contents()), Some(c))
    {
      if c in connections {
        connections := connections[c := connections[c].(open := false)];
      }
    }

    method Upgrade(c: Id, agent: Id, token: Digest)
      modifies this`connections
      ensures Contents() == Upgraded(old(Contents()), c, agent, token)
    {
      if c !in connections && agent in nodes && nodes[agent] in objects && objects[nodes[agent]].token == token {
        connections := connections[c := Connection(agent, token, true, None, false, [])];
      }
    }

    method Leave(c: Id)
      modifies this`connections, this`objects
      ensures Contents() == Left(old(Contents()), c)
    {
      if c in connections {
        var l := connections[c];
        connections := connections[c := l.(open := false, gone := true)];
        if l.agent in nodes && nodes[l.agent] in objects && objects[nodes[l.agent]].conn == Some(c) {
          objects := objects[nodes[l.agent] := objects[nodes[l.agent]].(conn := None)];
        }
      }
    }

    method Join(c: Id, session: Id, kinds: set<Kind>)
      modifies this
      ensures Contents() == Joined(old(Contents()), c, session, kinds)
    {
      if c !in connections || connections[c].joined.Some? || connections[c].gone {
        return;
      }
      var l := connections[c];
      if l.agent !in nodes || nodes[l.agent] !in objects || objects[nodes[l.agent]].token != l.token {
        Close(c);
        return;
      }
      var r := nodes[l.agent];
      var previous := objects[r].conn;
      objects := objects[r := Node(l.token, Some(c), session, 1, {Report} + kinds)];
      if previous.Some? {
        Close(previous.value);
      }
      connections := connections[c := connections[c].(joined := Some(r))];
    }

    method Accept(c: Id, f: Frame) returns (ok: bool)
      modifies this`objects, this`connections
      ensures ok <==>
                && c in old(connections) && old(connections)[c].joined.Some? && !old(connections)[c].gone
                && var agent := old(connections)[c].agent;
                && agent in old(nodes) && old(nodes)[agent] in old(objects)
                && var n := old(objects)[old(nodes)[agent]];
                && n.conn == Some(c) && n.session == f.session && n.sequence < f.sequence && f.kind in n.kinds && f.fitting
      ensures Contents() == Accepted(old(Contents()), c, f)
    {
      if c !in connections || connections[c].joined.None? || connections[c].gone {
        return false;
      }
      var l := connections[c];
      if l.agent !in nodes || nodes[l.agent] !in objects {
        return false;
      }
      var r := nodes[l.agent];
      var n := objects[r];
      if n.conn != Some(c) || f.kind !in n.kinds || f.session != n.session || f.sequence <= n.sequence || !f.fitting {
        return false;
      }
      objects := objects[r := n.(sequence := f.sequence)];
      connections := connections[c := l.(accepted := l.accepted + [f.sequence])];
      return true;
    }

    method Apply(credentials: map<Id, Digest>)
      modifies this
      ensures Contents() == Renewed(old(Contents()), credentials)
    {
      hide Reviewed;
      var next, made := Assign(credentials);
      var reviewed := Review(credentials);
      epoch := epoch + 1;
      nodes, objects, connections := next, objects + made, reviewed;
    }

    method Assign(credentials: map<Id, Digest>) returns (next: map<Id, Ref>, made: map<Ref, Node>)
      ensures next == Renewed(Contents(), credentials).nodes
      ensures made == MadeFor(Changed(Contents(), credentials), credentials)
    {
      hide Holds, Renewed;
      next, made := map[], map[];
      var remaining := credentials.Keys;
      while exists a :: a in remaining
        invariant remaining <= credentials.Keys
        invariant forall a :: a in next <==> a in credentials && a !in remaining
        invariant forall a :: a in next ==> next[a] == NextRef(Contents(), a, credentials[a])
        invariant forall r :: r in made <==> r.1 == epoch + 1 && r.0 in next && !Holds(Contents(), r.0, credentials[r.0])
        invariant forall r :: r in made ==> made[r] == Node(credentials[r.0], None, 0, 0, {})
        decreases |remaining|
      {
        var a :| a in remaining;
        remaining := remaining - {a};
        if Holds(Contents(), a, credentials[a]) {
          next := next[a := NextRef(Contents(), a, credentials[a])];
        } else {
          next := next[a := (a, epoch + 1)];
          made := made[(a, epoch + 1) := Node(credentials[a], None, 0, 0, {})];
        }
      }
      Assigned(Contents(), credentials, next, made);
    }

    method Review(credentials: map<Id, Digest>) returns (reviewed: map<Id, Connection>)
      ensures reviewed == Renewed(Contents(), credentials).connections
    {
      hide Renewed;
      reviewed := map[];
      var remaining := connections.Keys;
      while exists c :: c in remaining
        invariant remaining <= connections.Keys
        invariant forall c :: c in reviewed <==> c in connections && c !in remaining
        invariant forall c :: c in reviewed ==> reviewed[c] == Reviewed(connections[c], credentials)
        decreases |remaining|
      {
        var c :| c in remaining;
        remaining := remaining - {c};
        var l := connections[c];
        if l.agent !in credentials || credentials[l.agent] != l.token {
          l := l.(open := false);
        }
        reviewed := reviewed[c := l];
      }
      Reviewing(Contents(), credentials, reviewed);
    }
  }

  lemma Assigned(t: Table, credentials: map<Id, Digest>, next: map<Id, Ref>, made: map<Ref, Node>)
    requires forall a :: a in next <==> a in credentials
    requires forall a :: a in next ==> next[a] == NextRef(t, a, credentials[a])
    requires forall r :: r in made <==> r.1 == t.epoch + 1 && r.0 in credentials && !Holds(t, r.0, credentials[r.0])
    requires forall r :: r in made ==> made[r] == Node(credentials[r.0], None, 0, 0, {})
    ensures next == Renewed(t, credentials).nodes
    ensures made == MadeFor(Changed(t, credentials), credentials)
  {
    hide Holds;
    forall r ensures r in Changed(t, credentials) <==> r in made {
      if r in made {
        assert (r.0, t.epoch + 1) in Changed(t, credentials);
      }
    }
    hide Changed;
  }

  lemma Reviewing(t: Table, credentials: map<Id, Digest>, reviewed: map<Id, Connection>)
    requires forall c :: c in reviewed <==> c in t.connections
    requires forall c :: c in reviewed ==> reviewed[c] == Reviewed(t.connections[c], credentials)
    ensures reviewed == Renewed(t, credentials).connections
  {
    var wanted := Renewed(t, credentials).connections;
    assert forall c :: c in reviewed ==> c in wanted && reviewed[c] == wanted[c];
    assert forall c :: c in wanted ==> c in reviewed;
    hide Renewed, Reviewed;
  }

  /* What every state keeps */

  predicate Increasing(s: seq<nat>) {
    forall i, j :: 0 <= i < j < |s| ==> s[i] < s[j]
  }

  predicate NodeOk(t: Table, a: Id)
    requires a in t.nodes
  {
    t.nodes[a].0 == a && t.nodes[a] in t.objects
  }

  // An object's connection was granted under the object's own token, joined this
  // very object, and has not sent more than the object has seen.
  predicate ObjectOk(t: Table, r: Ref)
    requires r in t.objects
  {
    var n := t.objects[r];
    && r.1 <= t.epoch
    && (n.conn.Some? ==>
        && n.conn.value in t.connections
        && var l := t.connections[n.conn.value];
        && l.joined == Some(r) && l.agent == r.0 && l.token == n.token
        && forall i :: 0 <= i < |l.accepted| ==> l.accepted[i] <= n.sequence)
  }

  predicate ConnectionOk(t: Table, c: Id)
    requires c in t.connections
  {
    var l := t.connections[c];
    && (l.open ==> Holds(t, l.agent, l.token))
    && Increasing(l.accepted)
    && (l.joined.None? ==> l.accepted == [])
    && (l.joined.Some? ==> l.joined.value.1 <= t.epoch)
  }

  ghost predicate Sound(t: Table) {
    && (forall a :: a in t.nodes ==> NodeOk(t, a))
    && (forall r :: r in t.objects ==> ObjectOk(t, r))
    && (forall c :: c in t.connections ==> ConnectionOk(t, c))
  }

  lemma UpgradedSound(t: Table, c: Id, agent: Id, token: Digest)
    requires Sound(t)
    ensures Sound(Upgraded(t, c, agent, token))
  {
  }

  lemma ShutSound(t: Table, c: Option<Id>)
    requires Sound(t)
    ensures Sound(Shut(t, c))
  {
  }

  lemma JoinedSound(t: Table, c: Id, session: Id, kinds: set<Kind>)
    requires Sound(t)
    ensures Sound(Joined(t, c, session, kinds))
  {
    if c in t.connections && !Holds(t, t.connections[c].agent, t.connections[c].token) {
      ShutSound(t, Some(c));
    }
  }

  lemma AcceptedSound(t: Table, c: Id, f: Frame)
    requires Sound(t)
    ensures Sound(Accepted(t, c, f))
  {
  }

  lemma LeftSound(t: Table, c: Id)
    requires Sound(t)
    ensures Sound(Left(t, c))
  {
  }

  lemma RenewedObjects(t: Table, credentials: map<Id, Digest>)
    requires Sound(t)
    ensures var u := Renewed(t, credentials);
            && (forall r :: r in t.objects ==> r in u.objects && u.objects[r] == t.objects[r])
            && (forall a :: a in credentials ==> NextRef(t, a, credentials[a]) in u.objects && u.objects[NextRef(t, a, credentials[a])].token == credentials[a])
            && (forall r :: r in u.objects && r !in t.objects ==> u.objects[r].conn.None? && r.1 == t.epoch + 1)
  {
    var u := Renewed(t, credentials);
    forall r | r in t.objects ensures r !in Changed(t, credentials) {
      assert ObjectOk(t, r);
    }
    forall a | a in credentials && !Holds(t, a, credentials[a]) ensures (a, t.epoch + 1) in u.objects && u.objects[(a, t.epoch + 1)].token == credentials[a] {
      assert (a, t.epoch + 1) in Changed(t, credentials);
    }
    hide Sound, ConnectionOk, ObjectOk;
  }

  lemma RenewedObjectOk(t: Table, credentials: map<Id, Digest>, r: Ref)
    requires Sound(t) && r in Renewed(t, credentials).objects
    ensures ObjectOk(Renewed(t, credentials), r)
  {
    var u := Renewed(t, credentials);
    RenewedObjects(t, credentials);
    if r in t.objects {
      assert ObjectOk(t, r) && u.objects[r] == t.objects[r];
      var conn := t.objects[r].conn;
      if conn.Some? {
        assert u.connections[conn.value] == Reviewed(t.connections[conn.value], credentials);
      }
    }
    hide Sound, Changed, NextRef, Holds;
  }

  lemma RenewedSound(t: Table, credentials: map<Id, Digest>)
    requires Sound(t)
    ensures Sound(Renewed(t, credentials))
  {
    var u := Renewed(t, credentials);
    RenewedObjects(t, credentials);
    forall a | a in u.nodes ensures NodeOk(u, a) {
      assert u.nodes[a] == NextRef(t, a, credentials[a]);
      if Holds(t, a, credentials[a]) {
        assert NodeOk(t, a);
      }
    }
    forall r | r in u.objects ensures ObjectOk(u, r) {
      RenewedObjectOk(t, credentials, r);
    }
    forall c | c in u.connections ensures ConnectionOk(u, c) {
      assert ConnectionOk(t, c);
    }
    hide ObjectOk, Changed, Increasing;
  }

  lemma NextSound(t: Table, step: Step)
    requires Sound(t)
    ensures Sound(Next(t, step))
  {
    match step
    case Upgrade(c, agent, token) => UpgradedSound(t, c, agent, token);
    case Hello(c, session, kinds) => JoinedSound(t, c, session, kinds);
    case Receive(c, frame) => AcceptedSound(t, c, frame);
    case Leave(c) => LeftSound(t, c);
    case ApplyCredentials(credentials) => RenewedSound(t, credentials);
    hide Sound, Upgraded, Joined, Accepted, Left, Renewed;
  }

  lemma {:induction false} RunSound(t: Table, steps: seq<Step>)
    requires Sound(t)
    ensures Sound(Run(t, steps))
    decreases |steps|
  {
    if steps != [] {
      hide Sound, Next;
      NextSound(t, steps[0]);
      RunSound(Next(t, steps[0]), steps[1..]);
    }
  }

  /* What follows for every run */

  function Empty(): Table {
    Table(map[], map[], map[], 0)
  }

  lemma Reachable(steps: seq<Step>)
    ensures Sound(Run(Empty(), steps))
  {
    RunSound(Empty(), steps);
  }

  // The sequence numbers accepted from a connection strictly increase over all
  // six kinds, and no connection is open whose token is not its agent's.
  lemma AcceptedIncrease(steps: seq<Step>, c: Id)
    requires c in Run(Empty(), steps).connections
    ensures var t := Run(Empty(), steps);
            var l := t.connections[c];
            Increasing(l.accepted) && (l.open ==> Holds(t, l.agent, l.token))
  {
    Reachable(steps);
    assert ConnectionOk(Run(Empty(), steps), c);
    hide Run, Increasing;
  }

  // A frame is accepted only from the node's own connection, under the node's
  // present token, with a number greater than any accepted from it before.
  lemma OnlyOwnerAccepted(steps: seq<Step>, c: Id, f: Frame)
    requires Acceptable(Run(Empty(), steps), c, f)
    ensures var t := Run(Empty(), steps);
            var l := t.connections[c];
            && Holds(t, l.agent, l.token) && t.objects[t.nodes[l.agent]].conn == Some(c) && l.joined == Some(t.nodes[l.agent])
            && forall i :: 0 <= i < |l.accepted| ==> l.accepted[i] < f.sequence
  {
    Reachable(steps);
    var t := Run(Empty(), steps);
    hide Run, Increasing;
    assert NodeOk(t, t.connections[c].agent) && ObjectOk(t, t.nodes[t.connections[c].agent]);
  }

  // The connection has joined, and the node is no longer its own.
  predicate Dispossessed(t: Table, c: Id) {
    && c in t.connections && t.connections[c].joined.Some?
    && var l := t.connections[c];
    && var r := l.joined.value;
    || l.agent !in t.nodes || t.nodes[l.agent] != r || r !in t.objects || t.objects[r].conn != Some(c)
  }

  lemma StaysDispossessed(t: Table, step: Step, c: Id)
    requires Sound(t) && Dispossessed(t, c)
    ensures Dispossessed(Next(t, step), c) && Next(t, step).connections[c].accepted == t.connections[c].accepted
  {
  }

  // A connection that was replaced, or whose token was changed or revoked, is
  // never heard again, also if the old token comes back.
  lemma {:induction false} DispossessedForever(t: Table, steps: seq<Step>, c: Id)
    requires Sound(t) && Dispossessed(t, c)
    ensures Dispossessed(Run(t, steps), c) && Run(t, steps).connections[c].accepted == t.connections[c].accepted
    decreases |steps|
  {
    if steps != [] {
      StaysDispossessed(t, steps[0], c);
      NextSound(t, steps[0]);
      hide Sound, Next, Dispossessed;
      DispossessedForever(Next(t, steps[0]), steps[1..], c);
    }
  }

  // What dispossesses: another connection's hello, or credentials in which the
  // agent is missing or has another token.
  lemma ReplacedIsDispossessed(t: Table, c: Id, d: Id, session: Id, kinds: set<Kind>)
    requires Sound(t) && c in t.connections && t.connections[c].joined.Some? && c != d
    requires d in t.connections && t.connections[d].joined.None? && !t.connections[d].gone
    requires Holds(t, t.connections[d].agent, t.connections[d].token) && t.connections[c].joined == Some(t.nodes[t.connections[d].agent])
    ensures Dispossessed(Joined(t, d, session, kinds), c)
  {
  }

  lemma RotatedIsDispossessed(t: Table, c: Id, credentials: map<Id, Digest>)
    requires Sound(t) && c in t.connections && t.connections[c].joined.Some?
    requires var l := t.connections[c]; l.agent !in credentials || credentials[l.agent] != l.token
    ensures Dispossessed(Renewed(t, credentials), c) && !Renewed(t, credentials).connections[c].open
  {
  }

  /* Rightful frames */

  // The hello takes the node: the connection joins if its grant still holds.
  predicate Joins(t: Table, c: Id) {
    && c in t.connections && t.connections[c].joined.None? && !t.connections[c].gone
    && Holds(t, t.connections[c].agent, t.connections[c].token)
  }

  // The connection is the node's own still.
  predicate Owns(t: Table, c: Id) {
    && c in t.connections && !t.connections[c].gone
    && var agent := t.connections[c].agent;
    agent in t.nodes && t.nodes[agent] in t.objects && t.objects[t.nodes[agent]].conn == Some(c)
  }

  // The greatest number so far; the hello itself counts as the first.
  function LastNumber(accepted: seq<nat>): nat {
    if accepted == [] then 1 else accepted[|accepted| - 1]
  }

  // Wherever the connection is a node's own, the node has the session and the kinds
  // of its hello, and the number of the last frame accepted from it.
  ghost predicate Greeted(t: Table, c: Id, session: Id, kinds: set<Kind>) {
    && c in t.connections && t.connections[c].joined.Some?
    && forall r :: r in t.objects && t.objects[r].conn == Some(c) ==>
         && t.objects[r].session == session && t.objects[r].kinds == {Report} + kinds
         && t.objects[r].sequence == LastNumber(t.connections[c].accepted)
  }

  // The live node of an agent.
  predicate Live(t: Table, agent: Id, r: Ref) {
    agent in t.nodes && t.nodes[agent] == r && r in t.objects
  }

  // A new connection is registered exactly if its token is the agent's; it has joined
  // nothing yet.
  lemma UpgradesExactly(t: Table, c: Id, agent: Id, token: Digest)
    requires c !in t.connections
    ensures var u := Upgraded(t, c, agent, token);
            && (c in u.connections <==> exists r :: Live(t, agent, r) && t.objects[r].token == token)
            && (c in u.connections ==> u == t.(connections := t.connections[c := Connection(agent, token, true, None, false, [])]))
            && (c !in u.connections ==> u == t)
  {
    if agent in t.nodes && t.nodes[agent] in t.objects {
      assert Live(t, agent, t.nodes[agent]);
    }
  }

  // A hello closes the connection that the node had, or its own if its token is no
  // longer the node's; about other connections and nodes it changes nothing.
  lemma JoinsExactly(t: Table, c: Id, session: Id, kinds: set<Kind>, other: Id)
    requires c in t.connections && other in t.connections && other != c
    ensures var u := Joined(t, c, session, kinds);
            var l := t.connections[c];
            var previous := Joins(t, c) && t.objects[t.nodes[l.agent]].conn == Some(other);
            && u.nodes == t.nodes && u.epoch == t.epoch && u.connections.Keys == t.connections.Keys
            && other in u.connections && u.connections[other] == (if previous then t.connections[other].(open := false) else t.connections[other])
            && (!Joins(t, c) ==> u.objects == t.objects && c in u.connections && u.connections[c].joined == l.joined
                                 && (l.joined == None && !l.gone ==> !u.connections[c].open))
            && (Joins(t, c) ==> u.objects == t.objects[t.nodes[l.agent] := Node(l.token, Some(c), session, 1, kinds + {Report})])
  {
    assert kinds + {Report} == {Report} + kinds;
  }

  // A connection that leaves is closed for good. Its node is without a connection then
  // exactly if it was this one that the node had.
  lemma LeavesExactly(t: Table, c: Id)
    requires c in t.connections
    ensures var u, l := Left(t, c), t.connections[c];
            && u.connections == t.connections[c := Connection(l.agent, l.token, false, l.joined, true, l.accepted)]
            && u.nodes == t.nodes && u.epoch == t.epoch
            && forall r :: (r in u.objects <==> r in t.objects)
                           && (r in t.objects ==>
                               u.objects[r] == if Live(t, l.agent, r) && t.objects[r].conn == Some(c) then t.objects[r].(conn := None) else t.objects[r])
  {
  }

  // New credentials: exactly the connections stay open whose token is still their
  // agent's, and exactly the agents with an unchanged token keep their node.
  lemma RenewsExactly(t: Table, credentials: map<Id, Digest>)
    ensures var u := Renewed(t, credentials);
            && u.connections.Keys == t.connections.Keys && u.nodes.Keys == credentials.Keys
            && (forall c :: c in t.connections ==>
                  var l := t.connections[c];
                  u.connections[c] == l.(open := l.open && l.agent in credentials && credentials[l.agent] == l.token))
            && (forall a :: a in credentials ==>
                  if exists r :: Live(t, a, r) && t.objects[r].token == credentials[a] then u.nodes[a] == t.nodes[a]
                  else u.nodes[a] == (a, t.epoch + 1) && u.nodes[a] in u.objects && u.objects[u.nodes[a]] == Node(credentials[a], None, 0, 0, {}))
  {
    var u := Renewed(t, credentials);
    forall a | a in credentials && !Holds(t, a, credentials[a]) ensures (a, t.epoch + 1) in MadeFor(Changed(t, credentials), credentials) {
      assert (a, t.epoch + 1) in Changed(t, credentials);
    }
    forall a | a in credentials ensures Holds(t, a, credentials[a]) <==> exists r :: Live(t, a, r) && t.objects[r].token == credentials[a] {
      if Holds(t, a, credentials[a]) {
        assert Live(t, a, t.nodes[a]);
      }
    }
    hide Holds, Live;
  }

  lemma HelloGreets(t: Table, c: Id, session: Id, kinds: set<Kind>)
    requires Sound(t) && Joins(t, c)
    ensures Greeted(Joined(t, c, session, kinds), c, session, kinds) && Owns(Joined(t, c, session, kinds), c)
  {
    assert ConnectionOk(t, c);
    var u := Joined(t, c, session, kinds);
    forall r | r in u.objects && u.objects[r].conn == Some(c) ensures r == t.nodes[t.connections[c].agent] {
      assert r in t.objects && ObjectOk(t, r);
    }
    hide Sound, ObjectOk, Increasing;
  }

  lemma StaysGreeted(t: Table, step: Step, c: Id, session: Id, kinds: set<Kind>)
    requires Sound(t) && Greeted(t, c, session, kinds)
    ensures Greeted(Next(t, step), c, session, kinds)
  {
    match step
    case ApplyCredentials(credentials) =>
      RenewedGreeted(t, credentials, c, session, kinds);
      hide Sound, Renewed;
    case Receive(d, f) =>
      ReceivedGreeted(t, d, f, c, session, kinds);
      hide Sound, Accepted;
    case _ => hide Sound, Increasing;
  }

  lemma RenewedGreeted(t: Table, credentials: map<Id, Digest>, c: Id, session: Id, kinds: set<Kind>)
    requires Sound(t) && Greeted(t, c, session, kinds)
    ensures Greeted(Renewed(t, credentials), c, session, kinds)
  {
    RenewedObjects(t, credentials);
    hide Changed, NextRef, Sound;
  }

  lemma ReceivedGreeted(t: Table, d: Id, f: Frame, c: Id, session: Id, kinds: set<Kind>)
    requires Sound(t) && Greeted(t, c, session, kinds)
    ensures Greeted(Accepted(t, d, f), c, session, kinds)
  {
    if Acceptable(t, d, f) {
      var r := t.nodes[t.connections[d].agent];
      assert ObjectOk(t, r);
      forall q | q in t.objects && t.objects[q].conn == Some(d) ensures q == r {
        assert ObjectOk(t, q);
      }
    }
    hide Sound, ObjectOk, Increasing;
  }

  lemma {:induction false} GreetedLater(t: Table, steps: seq<Step>, c: Id, session: Id, kinds: set<Kind>)
    requires Sound(t) && Greeted(t, c, session, kinds)
    ensures Sound(Run(t, steps)) && Greeted(Run(t, steps), c, session, kinds)
    decreases |steps|
  {
    if steps != [] {
      hide Sound, Next, Greeted;
      NextSound(t, steps[0]);
      StaysGreeted(t, steps[0], c, session, kinds);
      GreetedLater(Next(t, steps[0]), steps[1..], c, session, kinds);
    }
  }

  // From its hello on, over every run: a frame of a connection is accepted exactly
  // while the node is the connection's own, in the session and of a kind that the
  // hello announced, with a number above the last one, and if it fits.
  lemma AcceptedExactlyWhenRightful(before: seq<Step>, c: Id, session: Id, kinds: set<Kind>, after: seq<Step>, f: Frame)
    requires Joins(Run(Empty(), before), c)
    ensures var t := Run(Next(Run(Empty(), before), Hello(c, session, kinds)), after);
            && c in t.connections
            && (Acceptable(t, c, f) <==>
                && Owns(t, c) && f.session == session && (f.kind == Report || f.kind in kinds)
                && f.sequence > LastNumber(t.connections[c].accepted) && f.fitting)
  {
    Reachable(before);
    var s := Run(Empty(), before);
    HelloGreets(s, c, session, kinds);
    NextSound(s, Hello(c, session, kinds));
    GreetedLater(Joined(s, c, session, kinds), after, c, session, kinds);
    hide Run, Sound, Joined;
  }

  // An accepted frame is recorded, and nothing else about any connection changes.
  lemma AcceptedIsRecorded(t: Table, c: Id, f: Frame)
    requires Acceptable(t, c, f)
    ensures var u := Accepted(t, c, f);
            && u.connections == t.connections[c := t.connections[c].(accepted := t.connections[c].accepted + [f.sequence])]
            && u.nodes == t.nodes && LastNumber(u.connections[c].accepted) == f.sequence && Owns(u, c)
  {
  }
}

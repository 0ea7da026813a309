// Three-way reconciliation: which reported FRP client belongs to which node. A
// node's binding is trusted, the claim in its report is not, and the server's
// lists of clients and proxies say what is really connected.
module Reconciliation {
  import opened Basics

  datatype Key = Key(server: string, user: string, client: string)

  datatype Client = Client(user: string, clientId: string, raw: Option<string>, online: bool, agent: Option<Id>)

  datatype Proxy = Proxy(name: string, user: string, clientId: string, kind: string, online: bool, agent: Option<Id>)

  datatype LocalProxy = LocalProxy(name: string, kind: string, enabled: bool)

  // The association in a report may lack a client name.
  datatype Report = Report(server: string, user: string, raw: Option<string>, proxies: seq<LocalProxy>)

  datatype Node = Node(id: Id, binding: Option<Key>, report: Option<Report>, live: bool)

  datatype ServerSnapshot = ServerSnapshot(ready: bool, serverId: string, clients: seq<Client>, proxies: seq<Proxy>)

  datatype NodeState = Unbound | Transient | Conflict | Stale | Mismatch | Unavailable | Missing | Matched

  datatype ProxyState = Undecided | Absent | Disputed | Offline | Registered | Disabled

  datatype ReportedProxy = ReportedProxy(local: LocalProxy, state: ProxyState, server: Option<Proxy>)

  datatype Row = Row(id: Id, state: NodeState, client: Option<Client>, proxies: seq<ReportedProxy>)

  const LONGEST := 128

  predicate ValidKey(k: Key) {
    1 <= |k.server| <= LONGEST && |k.user| <= LONGEST && 1 <= |k.client| <= LONGEST
  }

  function TrustedKey(binding: Option<Key>): Option<Key> {
    if binding.Some? && ValidKey(binding.value) then binding else None
  }

  function ClaimedKey(report: Option<Report>): Option<Key> {
    if report.None? || report.value.raw.None? then None
    else TrustedKey(Some(Key(report.value.server, report.value.user, report.value.raw.value)))
  }

  function ClientKey(server: string, c: Client): Option<Key> {
    if c.raw.Some? && c.raw.value != "" then Some(Key(server, c.user, c.raw.value)) else None
  }

  /* What the lists say */

  function Bindings(nodes: seq<Node>, key: Key): nat {
    if nodes == [] then 0
    else Bindings(nodes[..|nodes| - 1], key) + if TrustedKey(nodes[|nodes| - 1].binding) == Some(key) then 1 else 0
  }

  predicate Claims(n: Node, key: Key) {
    n.live && ClaimedKey(n.report) == Some(key)
  }

  function ClaimCount(nodes: seq<Node>, key: Key): nat {
    if nodes == [] then 0
    else ClaimCount(nodes[..|nodes| - 1], key) + if Claims(nodes[|nodes| - 1], key) then 1 else 0
  }

  // The clients of the server that go by a key, in their order.
  function ClientsOf(server: string, clients: seq<Client>, key: Key): (r: seq<nat>)
    ensures forall k :: 0 <= k < |r| ==> r[k] < |clients| && ClientKey(server, clients[r[k]]) == Some(key)
  {
    if clients == [] then []
    else
      var r := ClientsOf(server, clients[..|clients| - 1], key);
      if ClientKey(server, clients[|clients| - 1]) == Some(key) then r + [|clients| - 1] else r
  }

  function Named(proxies: seq<Proxy>, name: string): (r: seq<nat>)
    ensures forall k :: 0 <= k < |r| ==> r[k] < |proxies| && proxies[r[k]].name == name
  {
    if proxies == [] then []
    else
      var r := Named(proxies[..|proxies| - 1], name);
      if proxies[|proxies| - 1].name == name then r + [|proxies| - 1] else r
  }

  /* What reconciliation decides */

  function StateOf(s: ServerSnapshot, nodes: seq<Node>, n: Node): NodeState {
    var key, claim := TrustedKey(n.binding), ClaimedKey(n.report);
    if key.None? then
      if claim.Some? && n.live && ClaimCount(nodes, claim.value) > 1 then Conflict
      else if n.report.Some? && claim.None? then Transient
      else Unbound
    else if Bindings(nodes, key.value) > 1 then Conflict
    else if n.report.None? || !n.live then Stale
    else if claim != key then Mismatch
    else if !s.ready then Unavailable
    else if key.value.server != s.serverId then Mismatch
    else
      var found := ClientsOf(s.serverId, s.clients, key.value);
      if |found| > 1 then Conflict else if |found| == 0 then Missing else Matched
  }

  function MatchedClient(s: ServerSnapshot, nodes: seq<Node>, n: Node): (r: Option<nat>)
    ensures r.Some? ==> r.value < |s.clients|
  {
    if StateOf(s, nodes, n) == Matched then Some(ClientsOf(s.serverId, s.clients, n.binding.value)[0]) else None
  }

  // The node, among the first k, that a client is matched to.
  function OwnerAmong(s: ServerSnapshot, nodes: seq<Node>, k: nat, i: nat): Option<Id>
    requires k <= |nodes|
  {
    if k == 0 then None
    else if MatchedClient(s, nodes, nodes[k - 1]) == Some(i) then Some(nodes[k - 1].id)
    else OwnerAmong(s, nodes, k - 1, i)
  }

  function ClientOwner(s: ServerSnapshot, nodes: seq<Node>, i: nat): Option<Id> {
    OwnerAmong(s, nodes, |nodes|, i)
  }

  // A proxy belongs to whoever owns the one client that it names.
  function ProxyOwnerAmong(s: ServerSnapshot, nodes: seq<Node>, k: nat, p: Proxy): Option<Id>
    requires k <= |nodes|
  {
    var found := ClientsOf(s.serverId, s.clients, Key(s.serverId, p.user, p.clientId));
    if |found| == 1 then OwnerAmong(s, nodes, k, found[0]) else None
  }

  function ProxyOwner(s: ServerSnapshot, nodes: seq<Node>, p: Proxy): Option<Id> {
    ProxyOwnerAmong(s, nodes, |nodes|, p)
  }

  // On the wire a proxy's name carries its user as a prefix.
  function WireName(user: string, name: string): string {
    if user != "" then user + "." + name else name
  }

  // The proxy of the server that a matched node's report names.
  function ServerProxyOf(s: ServerSnapshot, key: Key, p: LocalProxy): (r: Option<nat>)
    ensures r.Some? ==> r.value < |s.proxies|
  {
    var found := Named(s.proxies, WireName(key.user, p.name));
    if |found| == 1 && s.proxies[found[0]].user == key.user && s.proxies[found[0]].clientId == key.client && s.proxies[found[0]].kind == p.kind
    then Some(found[0]) else None
  }

  function Reported(s: ServerSnapshot, n: Node, matched: bool, p: LocalProxy): ReportedProxy {
    if !matched || n.binding.None? then ReportedProxy(p, Undecided, None)
    else
      var at := ServerProxyOf(s, n.binding.value, p);
      if at.Some? then
        var proxy := s.proxies[at.value].(agent := Some(n.id));
        ReportedProxy(p, if proxy.online then Registered else Offline, Some(proxy))
      else if |Named(s.proxies, WireName(n.binding.value.user, p.name))| > 0 then ReportedProxy(p, Disputed, None)
      else ReportedProxy(p, if p.enabled then Absent else Disabled, None)
  }

  function RowOf(s: ServerSnapshot, nodes: seq<Node>, n: Node): Row {
    var client := MatchedClient(s, nodes, n);
    Row(n.id, StateOf(s, nodes, n),
        if client.Some? then Some(s.clients[client.value].(agent := Some(n.id))) else None,
        if n.report.Some? then
          seq(|n.report.value.proxies|, i requires 0 <= i < |n.report.value.proxies| => Reported(s, n, client.Some?, n.report.value.proxies[i]))
        else [])
  }

  /* Consequences of the decisions */

  lemma {:induction false} BindingsCount(nodes: seq<Node>, i: nat, j: nat, key: Key)
    requires i < j < |nodes| && TrustedKey(nodes[i].binding) == Some(key) && TrustedKey(nodes[j].binding) == Some(key)
    ensures Bindings(nodes, key) >= 2
    decreases |nodes|
  {
    var rest := nodes[..|nodes| - 1];
    if j == |nodes| - 1 {
      BindingsOne(rest, i, key);
    } else {
      BindingsCount(rest, i, j, key);
    }
  }

  lemma {:induction false} BindingsOne(nodes: seq<Node>, i: nat, key: Key)
    requires i < |nodes| && TrustedKey(nodes[i].binding) == Some(key)
    ensures Bindings(nodes, key) >= 1
    decreases |nodes|
  {
    if i < |nodes| - 1 {
      BindingsOne(nodes[..|nodes| - 1], i, key);
    }
  }

  // No client is matched to two nodes.
  lemma MatchedInjective(s: ServerSnapshot, nodes: seq<Node>, i: nat, j: nat)
    requires i < |nodes| && j < |nodes| && i != j
    requires MatchedClient(s, nodes, nodes[i]).Some?
    ensures MatchedClient(s, nodes, nodes[i]) != MatchedClient(s, nodes, nodes[j])
  {
    var a, b := MatchedClient(s, nodes, nodes[i]), MatchedClient(s, nodes, nodes[j]);
    if a == b {
      var keyA, keyB := nodes[i].binding.value, nodes[j].binding.value;
      assert ClientKey(s.serverId, s.clients[a.value]) == Some(keyA) && ClientKey(s.serverId, s.clients[b.value]) == Some(keyB);
      assert keyA == keyB;
      BindingsCount(nodes, if i < j then i else j, if i < j then j else i, keyA);
    }
  }

  lemma {:induction false} OwnerIsMatched(s: ServerSnapshot, nodes: seq<Node>, k: nat, j: nat, i: nat)
    requires j < k <= |nodes| && MatchedClient(s, nodes, nodes[j]) == Some(i)
    ensures OwnerAmong(s, nodes, k, i) == Some(nodes[j].id)
    decreases k
  {
    if j < k - 1 {
      MatchedInjective(s, nodes, j, k - 1);
      OwnerIsMatched(s, nodes, k - 1, j, i);
    }
  }

  lemma {:induction false} OwnerExists(s: ServerSnapshot, nodes: seq<Node>, k: nat, i: nat) returns (j: nat)
    requires k <= |nodes| && OwnerAmong(s, nodes, k, i).Some?
    ensures j < k && MatchedClient(s, nodes, nodes[j]) == Some(i) && OwnerAmong(s, nodes, k, i) == Some(nodes[j].id)
    decreases k
  {
    if MatchedClient(s, nodes, nodes[k - 1]) == Some(i) {
      j := k - 1;
    } else {
      j := OwnerExists(s, nodes, k - 1, i);
    }
  }

  /* What the states mean */

  // The server's client goes by the key.
  predicate Goes(c: Client, key: Key) {
    c.user == key.user && c.raw == Some(key.client)
  }

  // The binding, or the claim, is well formed.
  predicate Bound(n: Node) {
    n.binding.Some? && 1 <= |n.binding.value.server| <= 128 && |n.binding.value.user| <= 128 && 1 <= |n.binding.value.client| <= 128
  }

  predicate Claiming(n: Node) {
    n.report.Some? && n.report.value.raw.Some?
    && 1 <= |n.report.value.server| <= 128 && |n.report.value.user| <= 128 && 1 <= |n.report.value.raw.value| <= 128
  }

  predicate SameClaim(n: Node, m: Node)
    requires n.report.Some? && m.report.Some?
  {
    && n.report.value.server == m.report.value.server && n.report.value.user == m.report.value.user
    && n.report.value.raw == m.report.value.raw
  }

  // Another node has the same binding.
  ghost predicate Shared(nodes: seq<Node>, k: nat)
    requires k < |nodes|
  {
    exists j :: 0 <= j < |nodes| && j != k && nodes[j].binding == nodes[k].binding
  }

  // Another live node makes the same claim.
  ghost predicate Contested(nodes: seq<Node>, k: nat)
    requires k < |nodes| && Claiming(nodes[k])
  {
    exists j :: 0 <= j < |nodes| && j != k && nodes[j].live && Claiming(nodes[j]) && SameClaim(nodes[j], nodes[k])
  }

  // The node's report is fresh and claims exactly the binding.
  predicate ClaimsBinding(n: Node)
    requires Bound(n)
  {
    && n.live && n.report.Some?
    && n.report.value.server == n.binding.value.server && n.report.value.user == n.binding.value.user
    && n.report.value.raw == Some(n.binding.value.client)
  }

  // Report, binding and server agree on where the client has to be.
  ghost predicate Located(s: ServerSnapshot, nodes: seq<Node>, k: nat)
    requires k < |nodes|
  {
    Bound(nodes[k]) && !Shared(nodes, k) && ClaimsBinding(nodes[k]) && s.ready && nodes[k].binding.value.server == s.serverId
  }

  // When a node is in a state, said of the nodes, their reports and the snapshot.
  ghost predicate Means(s: ServerSnapshot, nodes: seq<Node>, k: nat, state: NodeState)
    requires k < |nodes|
  {
    var n := nodes[k];
    match state
    case Unbound => !Bound(n) && (n.report.None? || (Claiming(n) && !(n.live && Contested(nodes, k))))
    case Transient => !Bound(n) && n.report.Some? && !Claiming(n)
    case Conflict =>
      || (!Bound(n) && Claiming(n) && n.live && Contested(nodes, k))
      || (Bound(n) && Shared(nodes, k))
      || (Located(s, nodes, k)
          && exists i, j :: 0 <= i < j < |s.clients| && Goes(s.clients[i], n.binding.value) && Goes(s.clients[j], n.binding.value))
    case Stale => Bound(n) && !Shared(nodes, k) && (n.report.None? || !n.live)
    case Mismatch =>
      && Bound(n) && !Shared(nodes, k) && n.report.Some? && n.live
      && (!ClaimsBinding(n) || (s.ready && n.binding.value.server != s.serverId))
    case Unavailable => Bound(n) && !Shared(nodes, k) && ClaimsBinding(n) && !s.ready
    case Missing => Located(s, nodes, k) && forall i :: 0 <= i < |s.clients| ==> !Goes(s.clients[i], n.binding.value)
    case Matched => exists i :: OnlyClient(s, nodes, k, i)
  }

  // The one client that goes by the node's binding.
  ghost predicate OnlyClient(s: ServerSnapshot, nodes: seq<Node>, k: nat, i: int)
    requires k < |nodes|
  {
    && Located(s, nodes, k) && 0 <= i < |s.clients| && Goes(s.clients[i], nodes[k].binding.value)
    && forall j :: 0 <= j < |s.clients| && j != i ==> !Goes(s.clients[j], nodes[k].binding.value)
  }

  lemma KeysAre(n: Node)
    ensures Bound(n) <==> TrustedKey(n.binding).Some?
    ensures Bound(n) ==> TrustedKey(n.binding) == n.binding
    ensures Claiming(n) <==> ClaimedKey(n.report).Some?
    ensures Claiming(n) ==> ClaimedKey(n.report) == Some(Key(n.report.value.server, n.report.value.user, n.report.value.raw.value))
  {
  }

  lemma {:induction false} CountedTwice(nodes: seq<Node>, k: nat, key: Key) returns (j: nat)
    requires k < |nodes| && TrustedKey(nodes[k].binding) == Some(key) && Bindings(nodes, key) > 1
    ensures j < |nodes| && j != k && TrustedKey(nodes[j].binding) == Some(key)
    decreases |nodes|
  {
    var rest := nodes[..|nodes| - 1];
    if k == |nodes| - 1 {
      j := CountedOnce(rest, key);
    } else if TrustedKey(nodes[|nodes| - 1].binding) == Some(key) {
      j := |nodes| - 1;
    } else {
      j := CountedTwice(rest, k, key);
    }
  }

  lemma {:induction false} CountedOnce(nodes: seq<Node>, key: Key) returns (j: nat)
    requires Bindings(nodes, key) > 0
    ensures j < |nodes| && TrustedKey(nodes[j].binding) == Some(key)
    decreases |nodes|
  {
    if TrustedKey(nodes[|nodes| - 1].binding) == Some(key) {
      j := |nodes| - 1;
    } else {
      j := CountedOnce(nodes[..|nodes| - 1], key);
    }
  }

  lemma SharedIsCounted(nodes: seq<Node>, k: nat)
    requires k < |nodes| && Bound(nodes[k])
    ensures Shared(nodes, k) <==> Bindings(nodes, nodes[k].binding.value) > 1
  {
    var key := nodes[k].binding.value;
    if Bindings(nodes, key) > 1 {
      var j := CountedTwice(nodes, k, key);
      assert nodes[j].binding == nodes[k].binding;
    }
    forall j | 0 <= j < |nodes| && j != k && nodes[j].binding == nodes[k].binding ensures Bindings(nodes, key) > 1 {
      BindingsCount(nodes, if j < k then j else k, if j < k then k else j, key);
    }
  }

  lemma {:induction false} ClaimsCount(nodes: seq<Node>, i: nat, key: Key)
    requires i < |nodes| && Claims(nodes[i], key)
    ensures ClaimCount(nodes, key) >= 1
    decreases |nodes|
  {
    if i < |nodes| - 1 {
      ClaimsCount(nodes[..|nodes| - 1], i, key);
    }
  }

  lemma {:induction false} ClaimsCountTwo(nodes: seq<Node>, i: nat, j: nat, key: Key)
    requires i < j < |nodes| && Claims(nodes[i], key) && Claims(nodes[j], key)
    ensures ClaimCount(nodes, key) >= 2
    decreases |nodes|
  {
    if j == |nodes| - 1 {
      ClaimsCount(nodes[..|nodes| - 1], i, key);
    } else {
      ClaimsCountTwo(nodes[..|nodes| - 1], i, j, key);
    }
  }

  lemma {:induction false} ClaimedOnce(nodes: seq<Node>, key: Key) returns (j: nat)
    requires ClaimCount(nodes, key) > 0
    ensures j < |nodes| && Claims(nodes[j], key)
    decreases |nodes|
  {
    if Claims(nodes[|nodes| - 1], key) {
      j := |nodes| - 1;
    } else {
      j := ClaimedOnce(nodes[..|nodes| - 1], key);
    }
  }

  lemma {:induction false} ClaimedTwice(nodes: seq<Node>, k: nat, key: Key) returns (j: nat)
    requires k < |nodes| && Claims(nodes[k], key) && ClaimCount(nodes, key) > 1
    ensures j < |nodes| && j != k && Claims(nodes[j], key)
    decreases |nodes|
  {
    if k == |nodes| - 1 {
      j := ClaimedOnce(nodes[..|nodes| - 1], key);
    } else if Claims(nodes[|nodes| - 1], key) {
      j := |nodes| - 1;
    } else {
      j := ClaimedTwice(nodes[..|nodes| - 1], k, key);
    }
  }

  lemma ContestedIsCounted(nodes: seq<Node>, k: nat)
    requires k < |nodes| && nodes[k].live && Claiming(nodes[k])
    ensures Contested(nodes, k) <==> ClaimCount(nodes, ClaimedKey(nodes[k].report).value) > 1
  {
    var key := ClaimedKey(nodes[k].report).value;
    if ClaimCount(nodes, key) > 1 {
      var j := ClaimedTwice(nodes, k, key);
      KeysAre(nodes[j]);
      assert Claiming(nodes[j]) && SameClaim(nodes[j], nodes[k]);
    }
    forall j | 0 <= j < |nodes| && j != k && nodes[j].live && Claiming(nodes[j]) && SameClaim(nodes[j], nodes[k])
      ensures ClaimCount(nodes, key) > 1
    {
      KeysAre(nodes[j]);
      ClaimsCountTwo(nodes, if j < k then j else k, if j < k then k else j, key);
    }
  }

  // The index of a key lists exactly the clients that go by it, each once.
  lemma {:induction false} ClientsListed(server: string, clients: seq<Client>, key: Key)
    requires key.server == server && key.client != ""
    ensures var r := ClientsOf(server, clients, key);
            && (forall i, j :: 0 <= i < j < |r| ==> r[i] < r[j])
            && (forall i: nat :: i in r <==> i < |clients| && Goes(clients[i], key))
    decreases |clients|
  {
    if clients != [] {
      ClientsListed(server, clients[..|clients| - 1], key);
      var r, before := ClientsOf(server, clients, key), ClientsOf(server, clients[..|clients| - 1], key);
      assert ClientKey(server, clients[|clients| - 1]) == Some(key) <==> Goes(clients[|clients| - 1], key);
      forall i: nat ensures i in r <==> i < |clients| && Goes(clients[i], key) {
        assert i in r <==> i in before || (i == |clients| - 1 && Goes(clients[i], key));
      }
    }
  }

  lemma ClientsCounted(s: ServerSnapshot, key: Key)
    requires key.server == s.serverId && key.client != ""
    ensures var r := ClientsOf(s.serverId, s.clients, key);
            && (|r| == 0 <==> forall i :: 0 <= i < |s.clients| ==> !Goes(s.clients[i], key))
            && (|r| > 1 <==> exists i, j :: 0 <= i < j < |s.clients| && Goes(s.clients[i], key) && Goes(s.clients[j], key))
            && (|r| == 1 ==> Goes(s.clients[r[0]], key) && forall i :: 0 <= i < |s.clients| && i != r[0] ==> !Goes(s.clients[i], key))
  {
    ClientsListed(s.serverId, s.clients, key);
    var r := ClientsOf(s.serverId, s.clients, key);
    if |r| > 0 {
      assert r[0] in r;
    }
    if |r| > 1 {
      assert r[1] in r && r[0] < r[1];
    }
    forall i: nat, j: nat | i < j < |s.clients| && Goes(s.clients[i], key) && Goes(s.clients[j], key) ensures |r| > 1 {
      assert i in r && j in r;
    }
    forall i: nat | i < |s.clients| && Goes(s.clients[i], key) ensures i in r {
    }
  }

  // The state of every node is the one it means, and no other.
  lemma StateMeans(s: ServerSnapshot, nodes: seq<Node>, k: nat, state: NodeState)
    requires k < |nodes|
    ensures RowOf(s, nodes, nodes[k]).state == state <==> Means(s, nodes, k, state)
  {
    var n := nodes[k];
    KeysAre(n);
    if Bound(n) {
      SharedIsCounted(nodes, k);
      if n.binding.value.server == s.serverId {
        ClientsCounted(s, n.binding.value);
        OnlyClientCounted(s, nodes, k);
      }
    } else if Claiming(n) && n.live {
      ContestedIsCounted(nodes, k);
    }
    hide Shared, Contested, Bindings, ClaimCount, ClientsOf, TrustedKey, ClaimedKey, OnlyClient, Goes;
  }

  lemma OnlyClientCounted(s: ServerSnapshot, nodes: seq<Node>, k: nat)
    requires k < |nodes| && Bound(nodes[k]) && nodes[k].binding.value.server == s.serverId
    ensures var r := ClientsOf(s.serverId, s.clients, nodes[k].binding.value);
            && (forall i: nat :: OnlyClient(s, nodes, k, i) <==> Located(s, nodes, k) && |r| == 1 && i == r[0])
            && ((exists i :: OnlyClient(s, nodes, k, i)) <==> Located(s, nodes, k) && |r| == 1)
  {
    var key := nodes[k].binding.value;
    ClientsCounted(s, key);
    ClientsListed(s.serverId, s.clients, key);
    var r := ClientsOf(s.serverId, s.clients, key);
    hide Located, ClientsOf;
    if Located(s, nodes, k) && |r| == 1 {
      assert OnlyClient(s, nodes, k, r[0]);
    }
  }

  lemma MatchedIsOnly(s: ServerSnapshot, nodes: seq<Node>, k: nat)
    requires k < |nodes|
    ensures forall i: nat :: MatchedClient(s, nodes, nodes[k]) == Some(i) <==> OnlyClient(s, nodes, k, i)
  {
    StateMeans(s, nodes, k, Matched);
    if Bound(nodes[k]) && nodes[k].binding.value.server == s.serverId {
      OnlyClientCounted(s, nodes, k);
    }
    hide StateOf, ClientsOf, Goes, Shared, ClaimsBinding;
  }

  // The client of a row is the node's only one, attributed to the node.
  lemma ClientMeans(s: ServerSnapshot, nodes: seq<Node>, k: nat)
    requires k < |nodes|
    ensures RowOf(s, nodes, nodes[k]).id == nodes[k].id
    ensures RowOf(s, nodes, nodes[k]).client.Some? <==> Means(s, nodes, k, Matched)
    ensures forall i :: OnlyClient(s, nodes, k, i) ==> RowOf(s, nodes, nodes[k]).client == Some(s.clients[i].(agent := Some(nodes[k].id)))
  {
    MatchedIsOnly(s, nodes, k);
    StateMeans(s, nodes, k, Matched);
    hide StateOf, OnlyClient;
    forall i | OnlyClient(s, nodes, k, i) ensures 0 <= i < |s.clients| && MatchedClient(s, nodes, nodes[k]) == Some(i) {
      OnlyClientIn(s, nodes, k, i);
    }
    hide MatchedClient;
  }

  lemma OnlyClientIn(s: ServerSnapshot, nodes: seq<Node>, k: nat, i: int)
    requires k < |nodes| && OnlyClient(s, nodes, k, i)
    ensures 0 <= i < |s.clients|
  {
  }

  // A client is attributed to the node whose only one it is, and to no other.
  lemma OwnerMeans(s: ServerSnapshot, nodes: seq<Node>, i: nat)
    ensures forall k: nat :: k < |nodes| && OnlyClient(s, nodes, k, i) ==> ClientOwner(s, nodes, i) == Some(nodes[k].id)
    ensures ClientOwner(s, nodes, i).Some? ==> exists k: nat :: k < |nodes| && OnlyClient(s, nodes, k, i)
  {
    hide OnlyClient, MatchedClient;
    forall k: nat | k < |nodes| && OnlyClient(s, nodes, k, i) ensures ClientOwner(s, nodes, i) == Some(nodes[k].id) {
      MatchedIsOnly(s, nodes, k);
      OwnerIsMatched(s, nodes, |nodes|, k, i);
    }
    if ClientOwner(s, nodes, i).Some? {
      var k := OwnerExists(s, nodes, |nodes|, i);
      MatchedIsOnly(s, nodes, k);
    }
  }

  // The proxy names the node's only client.
  ghost predicate Owns(s: ServerSnapshot, nodes: seq<Node>, k: nat, p: Proxy)
    requires k < |nodes|
  {
    exists i :: OnlyClient(s, nodes, k, i) && s.clients[i].user == p.user && s.clients[i].raw == Some(p.clientId)
  }

  // A proxy is attributed to the node whose only client it names, and to no other.
  lemma ProxyOwnerMeans(s: ServerSnapshot, nodes: seq<Node>, p: Proxy)
    ensures forall k: nat :: k < |nodes| && Owns(s, nodes, k, p) ==> ProxyOwner(s, nodes, p) == Some(nodes[k].id)
    ensures ProxyOwner(s, nodes, p).Some? ==> exists k: nat :: k < |nodes| && Owns(s, nodes, k, p)
  {
    var key := Key(s.serverId, p.user, p.clientId);
    var found := ClientsOf(s.serverId, s.clients, key);
    forall k: nat | k < |nodes| && Owns(s, nodes, k, p) ensures ProxyOwner(s, nodes, p) == Some(nodes[k].id) {
      var i :| OnlyClient(s, nodes, k, i) && s.clients[i].user == p.user && s.clients[i].raw == Some(p.clientId);
      OnlyClientCounted(s, nodes, k);
      assert nodes[k].binding.value == key;
      OwnerMeans(s, nodes, i);
      hide OwnerAmong, ClientsOf;
    }
    if ProxyOwner(s, nodes, p).Some? {
      OwnerMeans(s, nodes, found[0]);
      var k: nat :| k < |nodes| && OnlyClient(s, nodes, k, found[0]);
      assert s.clients[found[0]].user == p.user && s.clients[found[0]].raw == Some(p.clientId);
      assert Owns(s, nodes, k, p);
      hide OwnerAmong;
    }
    hide OnlyClient, ClientsOf;
  }

  // The proxies that the server has under the wire name of a reported one: its user,
  // if it has one, is put before the name.
  predicate OnTheWire(s: ServerSnapshot, key: Key, p: LocalProxy, i: int) {
    0 <= i < |s.proxies| && s.proxies[i].name == if key.user == "" then p.name else key.user + "." + p.name
  }

  ghost predicate OnlyOnTheWire(s: ServerSnapshot, key: Key, p: LocalProxy, i: int) {
    OnTheWire(s, key, p, i) && forall j :: OnTheWire(s, key, p, j) ==> j == i
  }

  // The server's proxy is the one that the node reports.
  predicate SameProxy(key: Key, p: LocalProxy, q: Proxy) {
    q.user == key.user && q.clientId == key.client && q.kind == p.kind
  }

  // What a row says of a reported proxy of a matched node.
  ghost predicate ProxyMeans(s: ServerSnapshot, n: Node, p: LocalProxy, state: ProxyState)
    requires n.binding.Some?
  {
    var key := n.binding.value;
    match state
    case Undecided => false
    case Absent => p.enabled && forall i :: !OnTheWire(s, key, p, i)
    case Disabled => !p.enabled && forall i :: !OnTheWire(s, key, p, i)
    case Registered => exists i :: OnlyOnTheWire(s, key, p, i) && SameProxy(key, p, s.proxies[i]) && s.proxies[i].online
    case Offline => exists i :: OnlyOnTheWire(s, key, p, i) && SameProxy(key, p, s.proxies[i]) && !s.proxies[i].online
    case Disputed =>
      || (exists i, j :: OnTheWire(s, key, p, i) && OnTheWire(s, key, p, j) && i != j)
      || (exists i :: OnlyOnTheWire(s, key, p, i) && !SameProxy(key, p, s.proxies[i]))
  }

  lemma {:induction false} NamedListed(proxies: seq<Proxy>, name: string)
    ensures var r := Named(proxies, name);
            && (forall i, j :: 0 <= i < j < |r| ==> r[i] < r[j])
            && (forall i: nat :: i in r <==> i < |proxies| && proxies[i].name == name)
    decreases |proxies|
  {
    if proxies != [] {
      NamedListed(proxies[..|proxies| - 1], name);
      var r, before := Named(proxies, name), Named(proxies[..|proxies| - 1], name);
      forall i: nat ensures i in r <==> i < |proxies| && proxies[i].name == name {
        assert i in r <==> i in before || (i == |proxies| - 1 && proxies[i].name == name);
      }
    }
  }

  lemma NamedCounted(s: ServerSnapshot, key: Key, p: LocalProxy)
    ensures var r := Named(s.proxies, WireName(key.user, p.name));
            && (|r| == 0 <==> forall i :: !OnTheWire(s, key, p, i))
            && (|r| > 1 <==> exists i, j :: OnTheWire(s, key, p, i) && OnTheWire(s, key, p, j) && i != j)
            && (forall i: nat :: OnlyOnTheWire(s, key, p, i) <==> |r| == 1 && i == r[0])
  {
    var r := Named(s.proxies, WireName(key.user, p.name));
    NamedListed(s.proxies, WireName(key.user, p.name));
    forall i: nat ensures OnTheWire(s, key, p, i) <==> i in r {
    }
    if |r| > 0 {
      assert r[0] in r && OnTheWire(s, key, p, r[0]);
    }
    if |r| > 1 {
      assert r[1] in r && OnTheWire(s, key, p, r[1]) && r[0] < r[1];
    }
    hide Named, WireName;
  }

  lemma ReportedMeans(s: ServerSnapshot, n: Node, matched: bool, p: LocalProxy, state: ProxyState)
    ensures Reported(s, n, matched, p).local == p
    ensures !matched || n.binding.None? ==> Reported(s, n, matched, p) == ReportedProxy(p, Undecided, None)
    ensures matched && n.binding.Some? ==> (Reported(s, n, matched, p).state == state <==> ProxyMeans(s, n, p, state))
    ensures matched && n.binding.Some? ==>
              (Reported(s, n, matched, p).server.Some? <==> Reported(s, n, matched, p).state in {Registered, Offline})
    ensures matched && n.binding.Some? && Reported(s, n, matched, p).server.Some? ==>
              exists i :: OnlyOnTheWire(s, n.binding.value, p, i) && Reported(s, n, matched, p).server == Some(s.proxies[i].(agent := Some(n.id)))
  {
    if matched && n.binding.Some? {
      var key := n.binding.value;
      NamedCounted(s, key, p);
      var r := Named(s.proxies, WireName(key.user, p.name));
      assert |r| == 1 ==> OnlyOnTheWire(s, key, p, r[0]);
      assert forall i :: OnlyOnTheWire(s, key, p, i) ==> i >= 0;
      hide Named, WireName, OnTheWire, OnlyOnTheWire;
    }
  }

  // A row lists the reported proxies in order; they are decided exactly if the node
  // is matched.
  lemma ProxiesMean(s: ServerSnapshot, nodes: seq<Node>, k: nat, i: nat, state: ProxyState)
    requires k < |nodes|
    ensures |RowOf(s, nodes, nodes[k]).proxies| == if nodes[k].report.Some? then |nodes[k].report.value.proxies| else 0
    ensures i < |RowOf(s, nodes, nodes[k]).proxies| ==>
              var r := RowOf(s, nodes, nodes[k]).proxies[i];
              && r.local == nodes[k].report.value.proxies[i]
              && (if Means(s, nodes, k, Matched) then nodes[k].binding.Some? && (r.state == state <==> ProxyMeans(s, nodes[k], r.local, state))
                  else r.state == Undecided)
  {
    ClientMeans(s, nodes, k);
    hide MatchedClient, StateOf, Reported, ProxyMeans, ClientsOf, Goes;
    if i < |RowOf(s, nodes, nodes[k]).proxies| {
      ReportedMeans(s, nodes[k], Means(s, nodes, k, Matched), nodes[k].report.value.proxies[i], state);
    }
  }

  /* Independence */

  // A node's copy without its report's proxies.
  function Stripped(n: Node): Node {
    if n.report.Some? then n.(report := Some(n.report.value.(proxies := []))) else n
  }

  function StrippedAll(nodes: seq<Node>): seq<Node> {
    seq(|nodes|, i requires 0 <= i < |nodes| => Stripped(nodes[i]))
  }

  lemma {:induction false} CountsStripped(nodes: seq<Node>, key: Key)
    ensures Bindings(StrippedAll(nodes), key) == Bindings(nodes, key)
    ensures ClaimCount(StrippedAll(nodes), key) == ClaimCount(nodes, key)
    decreases |nodes|
  {
    if nodes != [] {
      CountsStripped(nodes[..|nodes| - 1], key);
      assert StrippedAll(nodes)[..|nodes| - 1] == StrippedAll(nodes[..|nodes| - 1]);
    }
  }

  lemma StateStripped(s: ServerSnapshot, nodes: seq<Node>, n: Node)
    ensures StateOf(s, StrippedAll(nodes), Stripped(n)) == StateOf(s, nodes, n)
    ensures MatchedClient(s, StrippedAll(nodes), Stripped(n)) == MatchedClient(s, nodes, n)
  {
    if TrustedKey(n.binding).Some? {
      CountsStripped(nodes, n.binding.value);
    }
    if ClaimedKey(n.report).Some? {
      CountsStripped(nodes, ClaimedKey(n.report).value);
    }
  }

  lemma {:induction false} OwnerStripped(s: ServerSnapshot, nodes: seq<Node>, k: nat, i: nat)
    requires k <= |nodes|
    ensures OwnerAmong(s, StrippedAll(nodes), k, i) == OwnerAmong(s, nodes, k, i)
    decreases k
  {
    hide StateOf, MatchedClient;
    if k > 0 {
      StateStripped(s, nodes, nodes[k - 1]);
      OwnerStripped(s, nodes, k - 1, i);
    }
  }

  // The stripped call decides as the full call does: the state of every node, the
  // owner of every client and the owner of every proxy.
  lemma StrippedAgrees(s: ServerSnapshot, nodes: seq<Node>)
    ensures |StrippedAll(nodes)| == |nodes|
    ensures forall i :: 0 <= i < |nodes| && nodes[i].report.Some? ==>
              && StrippedAll(nodes)[i].report.Some? && StrippedAll(nodes)[i].report.value.proxies == []
              && nodes[i] == StrippedAll(nodes)[i].(report := Some(StrippedAll(nodes)[i].report.value.(proxies := nodes[i].report.value.proxies)))
    ensures forall i :: 0 <= i < |nodes| && nodes[i].report.None? ==> StrippedAll(nodes)[i] == nodes[i]
    ensures forall i :: 0 <= i < |nodes| ==>
              && RowOf(s, StrippedAll(nodes), StrippedAll(nodes)[i]).state == RowOf(s, nodes, nodes[i]).state
              && RowOf(s, StrippedAll(nodes), StrippedAll(nodes)[i]).client == RowOf(s, nodes, nodes[i]).client
    ensures forall i :: 0 <= i < |s.clients| ==> ClientOwner(s, StrippedAll(nodes), i) == ClientOwner(s, nodes, i)
    ensures forall i :: 0 <= i < |s.proxies| ==> ProxyOwner(s, StrippedAll(nodes), s.proxies[i]) == ProxyOwner(s, nodes, s.proxies[i])
  {
    hide StateOf, MatchedClient, OwnerAmong;
    forall i | 0 <= i < |nodes| {
      StateStripped(s, nodes, nodes[i]);
    }
    forall i: nat {
      OwnerStripped(s, nodes, |nodes|, i);
    }
  }

  // Nothing that is said about or by other nodes changes the row of a node whose
  // binding nobody shares: not their reports, not their bindings to other keys,
  // not their number and not the order in which the nodes are listed.
  lemma RowIndependent(s: ServerSnapshot, nodes: seq<Node>, others: seq<Node>, i: nat, j: nat)
    requires i < |nodes| && j < |others| && nodes[i] == others[j]
    requires TrustedKey(nodes[i].binding).Some?
    requires forall k :: 0 <= k < |nodes| && k != i ==> TrustedKey(nodes[k].binding) != nodes[i].binding
    requires forall k :: 0 <= k < |others| && k != j ==> TrustedKey(others[k].binding) != nodes[i].binding
    ensures RowOf(s, nodes, nodes[i]) == RowOf(s, others, others[j])
    ensures MatchedClient(s, nodes, nodes[i]).Some? ==>
      ClientOwner(s, nodes, MatchedClient(s, nodes, nodes[i]).value) == ClientOwner(s, others, MatchedClient(s, nodes, nodes[i]).value) == Some(nodes[i].id)
  {
    BindingsAlone(nodes, i);
    BindingsAlone(others, j);
    var client := MatchedClient(s, nodes, nodes[i]);
    assert client == MatchedClient(s, others, others[j]);
    if client.Some? {
      OwnerIsMatched(s, nodes, |nodes|, i, client.value);
      OwnerIsMatched(s, others, |others|, j, client.value);
    }
    hide MatchedClient, ClientOwner;
  }

  lemma {:induction false} BindingsAlone(nodes: seq<Node>, i: nat)
    requires i < |nodes| && TrustedKey(nodes[i].binding).Some?
    requires forall k :: 0 <= k < |nodes| && k != i ==> TrustedKey(nodes[k].binding) != nodes[i].binding
    ensures Bindings(nodes, nodes[i].binding.value) == 1
    decreases |nodes|
  {
    if i == |nodes| - 1 {
      BindingsAbsent(nodes[..i], nodes[i].binding.value);
    } else {
      BindingsAlone(nodes[..|nodes| - 1], i);
    }
  }

  lemma {:induction false} BindingsAbsent(nodes: seq<Node>, key: Key)
    requires forall k :: 0 <= k < |nodes| ==> TrustedKey(nodes[k].binding) != Some(key)
    ensures Bindings(nodes, key) == 0
    decreases |nodes|
  {
    if nodes != [] {
      BindingsAbsent(nodes[..|nodes| - 1], key);
    }
  }

  // For every other node only the counts of equal bindings and claims matter, so
  // the order of the nodes changes no row at all.
  lemma OrderIndependent(s: ServerSnapshot, nodes: seq<Node>, others: seq<Node>, n: Node)
    requires multiset(nodes) == multiset(others)
    ensures RowOf(s, nodes, n) == RowOf(s, others, n)
  {
    if TrustedKey(n.binding).Some? {
      CountsPermuted(nodes, others, n.binding.value);
    }
    if ClaimedKey(n.report).Some? {
      CountsPermuted(nodes, others, ClaimedKey(n.report).value);
    }
    assert StateOf(s, nodes, n) == StateOf(s, others, n);
    hide StateOf;
  }

  lemma {:induction false} CountsPermuted(nodes: seq<Node>, others: seq<Node>, key: Key)
    requires multiset(nodes) == multiset(others)
    ensures Bindings(nodes, key) == Bindings(others, key) && ClaimCount(nodes, key) == ClaimCount(others, key)
    decreases |nodes|
  {
    if nodes == [] {
      assert |others| == |multiset(others)| == 0;
    } else {
      var init, last := nodes[..|nodes| - 1], nodes[|nodes| - 1];
      assert last in multiset(nodes);
      var at :| 0 <= at < |others| && others[at] == last;
      var rest := others[..at] + others[at + 1..];
      RestOfPermutation(nodes, others, at);
      CountsWithout(others, at, key);
      CountsPermuted(nodes[..|nodes| - 1], rest, key);
    }
  }

  lemma RestOfPermutation(nodes: seq<Node>, others: seq<Node>, at: nat)
    requires nodes != [] && multiset(nodes) == multiset(others) && at < |others| && others[at] == nodes[|nodes| - 1]
    ensures multiset(nodes[..|nodes| - 1]) == multiset(others[..at] + others[at + 1..])
  {
    assert nodes == nodes[..|nodes| - 1] + [nodes[|nodes| - 1]];
    assert others == others[..at] + [others[at]] + others[at + 1..];
    assert multiset(others[..at] + others[at + 1..]) == multiset(others) - multiset{others[at]};
  }

  lemma {:induction false} CountsWithout(nodes: seq<Node>, at: nat, key: Key)
    requires at < |nodes|
    ensures var rest := nodes[..at] + nodes[at + 1..];
            && Bindings(nodes, key) == Bindings(rest, key) + (if TrustedKey(nodes[at].binding) == Some(key) then 1 else 0)
            && ClaimCount(nodes, key) == ClaimCount(rest, key) + (if Claims(nodes[at], key) then 1 else 0)
    decreases |nodes|
  {
    var rest := nodes[..at] + nodes[at + 1..];
    var init := nodes[..|nodes| - 1];
    if at == |nodes| - 1 {
      assert rest == init;
    } else {
      CountsWithout(init, at, key);
      assert init[..at] + init[at + 1..] == rest[..|rest| - 1];
    }
  }

  /* The algorithm */

  // Counting the bindings and the claims of every key.
  method CountKeys(nodes: seq<Node>) returns (bindings: map<Key, nat>, claims: map<Key, nat>)
    ensures forall key :: Count(bindings, key) == Bindings(nodes, key) && Count(claims, key) == ClaimCount(nodes, key)
  {
    bindings, claims := map[], map[];
    for i := 0 to |nodes|
      invariant forall key :: Count(bindings, key) == Bindings(nodes[..i], key) && Count(claims, key) == ClaimCount(nodes[..i], key)
    {
      assert nodes[..i + 1][..i] == nodes[..i];
      var key := TrustedKey(nodes[i].binding);
      if key.Some? {
        bindings := bindings[key.value := Count(bindings, key.value) + 1];
      }
      var claim := ClaimedKey(nodes[i].report);
      if claim.Some? && nodes[i].live {
        claims := claims[claim.value := Count(claims, claim.value) + 1];
      }
    }
    assert nodes[..|nodes|] == nodes;
  }

  // An absent count is zero.
  function Count(counts: map<Key, nat>, key: Key): nat {
    if key in counts then counts[key] else 0
  }

  function Found<K>(index: map<K, seq<nat>>, key: K): seq<nat> {
    if key in index then index[key] else []
  }

  method IndexClients(server: string, clients: seq<Client>) returns (index: map<Key, seq<nat>>)
    ensures forall key :: Found(index, key) == ClientsOf(server, clients, key)
  {
    index := map[];
    for i := 0 to |clients|
      invariant forall key :: Found(index, key) == ClientsOf(server, clients[..i], key)
    {
      assert clients[..i + 1][..i] == clients[..i];
      var key := ClientKey(server, clients[i]);
      if key.Some? {
        index := index[key.value := Found(index, key.value) + [i]];
      }
    }
    assert clients[..|clients|] == clients;
  }

  method IndexProxies(proxies: seq<Proxy>) returns (index: map<string, seq<nat>>)
    ensures forall name :: Found(index, name) == Named(proxies, name)
  {
    index := map[];
    for i := 0 to |proxies|
      invariant forall name :: Found(index, name) == Named(proxies[..i], name)
    {
      assert proxies[..i + 1][..i] == proxies[..i];
      var name := proxies[i].name;
      index := index[name := Found(index, name) + [i]];
    }
    assert proxies[..|proxies|] == proxies;
  }

  // The clients so far: each one attributed to its owner among the first k nodes.
  ghost predicate Attributed(s: ServerSnapshot, nodes: seq<Node>, k: nat, clients: seq<Client>)
    requires k <= |nodes|
  {
    |clients| == |s.clients| && forall i :: 0 <= i < |clients| ==> clients[i] == s.clients[i].(agent := OwnerAmong(s, nodes, k, i))
  }

  // The proxies so far: some of them attributed, and always to the node that also
  // owns the client they name.
  ghost predicate PartlyAttributed(s: ServerSnapshot, nodes: seq<Node>, k: nat, proxies: seq<Proxy>)
    requires k <= |nodes|
  {
    && |proxies| == |s.proxies|
    && forall i :: 0 <= i < |proxies| ==>
         && (proxies[i].agent.Some? ==> proxies[i].agent == ProxyOwnerAmong(s, nodes, k, s.proxies[i]))
         && proxies[i] == s.proxies[i].(agent := proxies[i].agent)
  }

  // Owning is never revoked by a later node.
  lemma OwnerStays(s: ServerSnapshot, nodes: seq<Node>, k: nat, i: nat)
    requires k < |nodes| && OwnerAmong(s, nodes, k, i).Some?
    ensures OwnerAmong(s, nodes, k + 1, i) == OwnerAmong(s, nodes, k, i)
  {
    var j := OwnerExists(s, nodes, k, i);
    MatchedInjective(s, nodes, j, k);
  }

  lemma ProxiesStay(s: ServerSnapshot, nodes: seq<Node>, k: nat, proxies: seq<Proxy>)
    requires k < |nodes| && PartlyAttributed(s, nodes, k, proxies)
    ensures PartlyAttributed(s, nodes, k + 1, proxies)
  {
    forall i | 0 <= i < |proxies| && proxies[i].agent.Some?
      ensures proxies[i].agent == ProxyOwnerAmong(s, nodes, k + 1, s.proxies[i])
    {
      var found := ClientsOf(s.serverId, s.clients, Key(s.serverId, s.proxies[i].user, s.proxies[i].clientId));
      OwnerStays(s, nodes, k, found[0]);
    }
    hide OwnerAmong;
  }

  // A proxy that a matched node reports is owned through its client as well.
  lemma ReportedIsOwned(s: ServerSnapshot, nodes: seq<Node>, k: nat, p: LocalProxy)
    requires k < |nodes| && MatchedClient(s, nodes, nodes[k]).Some? && nodes[k].binding.Some?
    ensures var at := ServerProxyOf(s, nodes[k].binding.value, p);
            at.Some? ==> ProxyOwnerAmong(s, nodes, k + 1, s.proxies[at.value]) == Some(nodes[k].id)
  {
  }

  method ReportRow(s: ServerSnapshot, nodes: seq<Node>, k: nat, index: map<string, seq<nat>>, out: array<Proxy>)
    returns (proxies: seq<ReportedProxy>)
    requires k < |nodes| && PartlyAttributed(s, nodes, k + 1, out[..])
    requires forall name :: Found(index, name) == Named(s.proxies, name)
    modifies out
    ensures PartlyAttributed(s, nodes, k + 1, out[..])
    ensures proxies == RowOf(s, nodes, nodes[k]).proxies
  {
    hide StateOf, OwnerAmong;
    proxies := [];
    if nodes[k].report.Some? {
      var reported := nodes[k].report.value.proxies;
      var matched := MatchedClient(s, nodes, nodes[k]).Some?;
      for i := 0 to |reported|
        invariant PartlyAttributed(s, nodes, k + 1, out[..])
        invariant |proxies| == i && forall j :: 0 <= j < i ==> proxies[j] == Reported(s, nodes[k], matched, reported[j])
      {
        var row := ReportProxy(s, nodes, k, matched, reported[i], index, out);
        proxies := proxies + [row];
      }
    }
  }

  method ReportProxy(s: ServerSnapshot, nodes: seq<Node>, k: nat, matched: bool, p: LocalProxy, index: map<string, seq<nat>>, out: array<Proxy>)
    returns (row: ReportedProxy)
    requires k < |nodes| && PartlyAttributed(s, nodes, k + 1, out[..]) && matched == MatchedClient(s, nodes, nodes[k]).Some?
    requires forall name :: Found(index, name) == Named(s.proxies, name)
    modifies out
    ensures PartlyAttributed(s, nodes, k + 1, out[..])
    ensures row == Reported(s, nodes[k], matched, p)
  {
    row := ReportedProxy(p, Undecided, None);
    if matched {
      var key := nodes[k].binding.value;
      row := row.(state := Absent);
      var found := Found(index, WireName(key.user, p.name));
      assert found == Named(s.proxies, WireName(key.user, p.name));
      ReportedIsOwned(s, nodes, k, p);
      hide MatchedClient, ProxyOwnerAmong, Named;
      if |found| > 1 {
        row := row.(state := Disputed);
      } else if |found| == 1 {
        var at := found[0];
        assert out[..][at] == out[at];
        if out[at].user != key.user || out[at].clientId != key.client || out[at].kind != p.kind {
          row := row.(state := Disputed);
        } else {
          out[at] := out[at].(agent := Some(nodes[k].id));
          row := row.(server := Some(out[at]), state := if out[at].online then Registered else Offline);
        }
      }
      if !p.enabled && row.state == Absent {
        row := row.(state := Disabled);
      }
    }
  }

  method DecideState(s: ServerSnapshot, nodes: seq<Node>, n: Node, bindings: map<Key, nat>, claims: map<Key, nat>, index: map<Key, seq<nat>>)
    returns (state: NodeState, client: Option<nat>)
    requires forall key :: Count(bindings, key) == Bindings(nodes, key) && Count(claims, key) == ClaimCount(nodes, key)
    requires forall key :: Found(index, key) == ClientsOf(s.serverId, s.clients, key)
    ensures state == StateOf(s, nodes, n) && client == MatchedClient(s, nodes, n)
  {
    hide Bindings, ClaimCount, ClientsOf;
    var key, claim := TrustedKey(n.binding), ClaimedKey(n.report);
    state, client := Unbound, None;
    if (key.Some? && Count(bindings, key.value) > 1) || (key.None? && claim.Some? && n.live && Count(claims, claim.value) > 1) {
      state := Conflict;
    } else if key.None? {
      if n.report.Some? && claim.None? {
        state := Transient;
      }
    } else if n.report.None? || !n.live {
      state := Stale;
    } else if claim.None? || claim != key {
      state := Mismatch;
    } else if !s.ready {
      state := NodeState.Unavailable;
    } else if key.value.server != s.serverId {
      state := Mismatch;
    } else if |Found(index, key.value)| > 1 {
      state := Conflict;
    } else if |Found(index, key.value)| == 0 {
      state := Missing;
    } else {
      state, client := Matched, Some(Found(index, key.value)[0]);
    }
  }

  method Reconcile(s: ServerSnapshot, nodes: seq<Node>) returns (rows: seq<Row>, clients: array<Client>, proxies: array<Proxy>)
    ensures |rows| == |nodes| && forall k :: 0 <= k < |nodes| ==> rows[k] == RowOf(s, nodes, nodes[k])
    ensures forall k, state :: 0 <= k < |nodes| ==> (rows[k].state == state <==> Means(s, nodes, k, state))
    ensures fresh(clients) && clients.Length == |s.clients|
    ensures forall i :: 0 <= i < |s.clients| ==> clients[i] == s.clients[i].(agent := ClientOwner(s, nodes, i))
    ensures fresh(proxies) && proxies.Length == |s.proxies|
    ensures forall i :: 0 <= i < |s.proxies| ==> proxies[i] == s.proxies[i].(agent := ProxyOwner(s, nodes, s.proxies[i]))
  {
    hide Attributed, PartlyAttributed, StateOf, MatchedClient, ClientOwner, ProxyOwner, Bindings, ClaimCount, ClientsOf, Named, Reported;
    var bindings, claims := CountKeys(nodes);
    var byKey := IndexClients(s.serverId, s.clients);
    var byName := IndexProxies(s.proxies);
    clients := new Client[|s.clients|](i requires 0 <= i < |s.clients| => s.clients[i].(agent := None));
    proxies := new Proxy[|s.proxies|](i requires 0 <= i < |s.proxies| => s.proxies[i].(agent := None));
    StartAttributed(s, nodes, clients[..], proxies[..]);
    rows := [];
    for k := 0 to |nodes|
      invariant |rows| == k && forall j :: 0 <= j < k ==> rows[j] == RowOf(s, nodes, nodes[j])
      invariant Attributed(s, nodes, k, clients[..]) && PartlyAttributed(s, nodes, k, proxies[..])
      invariant clients.Length == |s.clients| && proxies.Length == |s.proxies|
    {
      var state, client := DecideState(s, nodes, nodes[k], bindings, claims, byKey);
      var row := Row(nodes[k].id, state, None, []);
      ghost var before := clients[..];
      if client.Some? {
        clients[client.value] := clients[client.value].(agent := Some(nodes[k].id));
        row := row.(client := Some(clients[client.value]));
      }
      ClientsStep(s, nodes, k, before, clients[..]);
      ProxiesStay(s, nodes, k, proxies[..]);
      var reported := ReportRow(s, nodes, k, byName, proxies);
      rows := rows + [row.(proxies := reported)];
    }
    AttributeRest(s, nodes, byKey, clients, proxies);
    ClientsDone(s, nodes, clients[..]);
    forall k, state | 0 <= k < |nodes| ensures rows[k].state == state <==> Means(s, nodes, k, state) {
      StateMeans(s, nodes, k, state);
    }
    hide RowOf, Means;
  }

  lemma ClientsDone(s: ServerSnapshot, nodes: seq<Node>, clients: seq<Client>)
    requires Attributed(s, nodes, |nodes|, clients)
    ensures |clients| == |s.clients| && forall i :: 0 <= i < |clients| ==> clients[i] == s.clients[i].(agent := ClientOwner(s, nodes, i))
  {
  }

  lemma StartAttributed(s: ServerSnapshot, nodes: seq<Node>, clients: seq<Client>, proxies: seq<Proxy>)
    requires |clients| == |s.clients| && forall i :: 0 <= i < |clients| ==> clients[i] == s.clients[i].(agent := None)
    requires |proxies| == |s.proxies| && forall i :: 0 <= i < |proxies| ==> proxies[i] == s.proxies[i].(agent := None)
    ensures Attributed(s, nodes, 0, clients) && PartlyAttributed(s, nodes, 0, proxies)
  {
  }

  lemma ClientsStep(s: ServerSnapshot, nodes: seq<Node>, k: nat, before: seq<Client>, after: seq<Client>)
    requires k < |nodes| && Attributed(s, nodes, k, before) && |after| == |before|
    requires var at := MatchedClient(s, nodes, nodes[k]);
             after == if at.Some? then before[at.value := before[at.value].(agent := Some(nodes[k].id))] else before
    ensures Attributed(s, nodes, k + 1, after)
    ensures var at := MatchedClient(s, nodes, nodes[k]);
            at.Some? ==> after[at.value] == s.clients[at.value].(agent := Some(nodes[k].id))
  {
    hide MatchedClient;
  }

  lemma RestStep(s: ServerSnapshot, nodes: seq<Node>, clients: seq<Client>, proxies: seq<Proxy>, i: nat)
    requires Attributed(s, nodes, |nodes|, clients) && PartlyAttributed(s, nodes, |nodes|, proxies) && i < |proxies|
    ensures i < |s.proxies| && proxies[i].user == s.proxies[i].user && proxies[i].clientId == s.proxies[i].clientId
    ensures var found := ClientsOf(s.serverId, s.clients, Key(s.serverId, proxies[i].user, proxies[i].clientId));
            && (|found| == 1 ==> found[0] < |clients|)
            && s.proxies[i].(agent := ProxyOwner(s, nodes, s.proxies[i]))
               == if |found| == 1 && clients[found[0]].agent.Some? then proxies[i].(agent := clients[found[0]].agent) else proxies[i]
  {
    hide OwnerAmong, ClientsOf;
  }

  // Proxies that no report mentions belong to the owner of the client they name.
  method AttributeRest(s: ServerSnapshot, nodes: seq<Node>, index: map<Key, seq<nat>>, clients: array<Client>, proxies: array<Proxy>)
    requires forall key :: Found(index, key) == ClientsOf(s.serverId, s.clients, key)
    requires Attributed(s, nodes, |nodes|, clients[..]) && PartlyAttributed(s, nodes, |nodes|, proxies[..])
    requires proxies.Length == |s.proxies|
    modifies proxies
    ensures forall i :: 0 <= i < proxies.Length ==> proxies[i] == s.proxies[i].(agent := ProxyOwner(s, nodes, s.proxies[i]))
  {
    hide Attributed, PartlyAttributed, ClientsOf, ProxyOwner, Found;
    for i := 0 to proxies.Length
      invariant forall j :: 0 <= j < i ==> proxies[j] == s.proxies[j].(agent := ProxyOwner(s, nodes, s.proxies[j]))
      invariant proxies[i..] == old(proxies[i..])
    {
      RestStep(s, nodes, clients[..], old(proxies[..]), i);
      assert proxies[i] == proxies[i..][0] == old(proxies[i..])[0] == old(proxies[..])[i];
      var found := Found(index, Key(s.serverId, proxies[i].user, proxies[i].clientId));
      if |found| == 1 && clients[found[0]].agent.Some? {
        proxies[i] := proxies[i].(agent := clients[found[0]].agent);
      }
      assert proxies[i + 1..] == proxies[i..][1..];
      assert old(proxies[i + 1..]) == old(proxies[i..])[1..];
    }
  }
}

// Listener bindings of a forwarding node, and the packet filter rules that its
// forwards are rendered to.
module NatForwarding {
  import opened Basics

  type Host = int
  type Port = int

  const ANY: Host := 0

  datatype Protocol = Tcp | Udp

  datatype Binding = Binding(host: Host, port: Port, protocol: Protocol)

  datatype Endpoint = Endpoint(host: Host, port: Port)

  datatype Listener = Listener(listen: Endpoint, protocols: seq<Protocol>)

  datatype Forward = Forward(name: Id, listenPort: Port, protocols: seq<Protocol>, target: Endpoint)

  /* Bindings */

  predicate Overlap(a: Binding, b: Binding) {
    a.port == b.port && a.protocol == b.protocol && (a.host == b.host || a.host == ANY || b.host == ANY)
  }

  // The bindings that are new overlap nothing that comes before them; what was
  // reserved may overlap among itself.
  predicate NewApart(bindings: seq<Binding>, reserved: nat) {
    forall i, j :: 0 <= i < j < |bindings| && reserved <= j ==> !Overlap(bindings[i], bindings[j])
  }

  method AddBinding(bindings: seq<Binding>, b: Binding) returns (r: Option<seq<Binding>>)
    ensures r == if exists i :: 0 <= i < |bindings| && Overlap(bindings[i], b) then None else Some(bindings + [b])
    ensures r.None? <==> exists i :: 0 <= i < |bindings| && bindings[i].port == b.port && bindings[i].protocol == b.protocol
                                     && (bindings[i].host == b.host || bindings[i].host == 0 || b.host == 0)
  {
    for i := 0 to |bindings|
      invariant forall j :: 0 <= j < i ==> !Overlap(bindings[j], b)
    {
      var prior := bindings[i];
      if prior.port == b.port && prior.protocol == b.protocol && (b.host == prior.host || ANY in [b.host, prior.host]) {
        return None;
      }
    }
    r := Some(bindings + [b]);
  }

  function ListenerBindings(listeners: seq<Listener>): seq<Binding> {
    if listeners == [] then []
    else
      var l := listeners[|listeners| - 1];
      ListenerBindings(listeners[..|listeners| - 1])
      + seq(|l.protocols|, i requires 0 <= i < |l.protocols| => Binding(l.listen.host, l.listen.port, l.protocols[i]))
  }

  // One forward and one of its protocols.
  datatype Route = Route(forward: Forward, protocol: Protocol)

  function Routes(forwards: seq<Forward>): seq<Route> {
    if forwards == [] then []
    else
      var f := forwards[|forwards| - 1];
      Routes(forwards[..|forwards| - 1]) + seq(|f.protocols|, i requires 0 <= i < |f.protocols| => Route(f, f.protocols[i]))
  }

  function RouteBinding(r: Route): Binding {
    Binding(ANY, r.forward.listenPort, r.protocol)
  }

  function RouteBindings(routes: seq<Route>): seq<Binding> {
    seq(|routes|, i requires 0 <= i < |routes| => RouteBinding(routes[i]))
  }

  function AllBindings(reserved: seq<Binding>, listeners: seq<Listener>, forwards: seq<Forward>): seq<Binding> {
    reserved + ListenerBindings(listeners) + RouteBindings(Routes(forwards))
  }

  // Adding one by one succeeds exactly when nothing new overlaps.
  method AddBindings(bindings: seq<Binding>, more: seq<Binding>, reserved: nat) returns (r: Option<seq<Binding>>)
    requires reserved <= |bindings| && NewApart(bindings, reserved)
    ensures r == if NewApart(bindings + more, reserved) then Some(bindings + more) else None
  {
    var all := bindings;
    for k := 0 to |more|
      invariant all == bindings + more[..k] && NewApart(all, reserved)
    {
      var added := AddBinding(all, more[k]);
      if added.None? {
        var i :| 0 <= i < |all| && Overlap(all[i], more[k]);
        assert (bindings + more)[i] == all[i] && (bindings + more)[|all|] == more[k];
        return None;
      }
      assert bindings + more[..k + 1] == all + [more[k]];
      all := added.value;
    }
    assert more[..|more|] == more;
    r := Some(all);
  }

  method ValidateBindings(reserved: seq<Binding>, listeners: seq<Listener>, forwards: seq<Forward>) returns (ok: bool)
    ensures ok <==> NewApart(AllBindings(reserved, listeners, forwards), |reserved|)
  {
    var bindings := AddBindings(reserved, ListenerBindings(listeners), |reserved|);
    if bindings.None? {
      ApartPrefix(reserved + ListenerBindings(listeners), RouteBindings(Routes(forwards)), |reserved|);
      return false;
    }
    bindings := AddBindings(bindings.value, RouteBindings(Routes(forwards)), |reserved|);
    ok := bindings.Some?;
  }

  // In an accepted inventory every listener and every forward is apart from what was
  // reserved, and every forward from every listener.
  lemma AcceptedApart(reserved: seq<Binding>, listeners: seq<Listener>, forwards: seq<Forward>, a: Binding, l: Listener, f: Forward, protocol: Protocol)
    requires NewApart(AllBindings(reserved, listeners, forwards), |reserved|)
    ensures a in reserved && l in listeners && a.protocol in l.protocols && a.port == l.listen.port ==>
              a.host != l.listen.host && a.host != 0 && l.listen.host != 0
    ensures a in reserved && f in forwards && a.protocol in f.protocols ==> a.port != f.listenPort
    ensures l in listeners && f in forwards && protocol in l.protocols && protocol in f.protocols ==> l.listen.port != f.listenPort
  {
    hide NewApart;
    if a in reserved && l in listeners && a.protocol in l.protocols {
      ListenersListed(listeners, l, a.protocol);
      ApartFrom(reserved, ListenerBindings(listeners), RouteBindings(Routes(forwards)), a, Binding(l.listen.host, l.listen.port, a.protocol));
    }
    if a in reserved && f in forwards && a.protocol in f.protocols {
      BindingListed(forwards, f, a.protocol);
      ApartFrom(reserved, ListenerBindings(listeners), RouteBindings(Routes(forwards)), a, Binding(ANY, f.listenPort, a.protocol));
    }
    if l in listeners && f in forwards && protocol in l.protocols && protocol in f.protocols {
      ListenersListed(listeners, l, protocol);
      BindingListed(forwards, f, protocol);
      ApartFrom(reserved, ListenerBindings(listeners), RouteBindings(Routes(forwards)),
                Binding(l.listen.host, l.listen.port, protocol), Binding(ANY, f.listenPort, protocol));
    }
  }

  lemma ApartFrom(reserved: seq<Binding>, first: seq<Binding>, second: seq<Binding>, a: Binding, b: Binding)
    requires NewApart(reserved + first + second, |reserved|)
    requires (a in reserved && (b in first || b in second)) || (a in first && b in second)
    ensures !Overlap(a, b)
  {
    var all := reserved + first + second;
    var i: nat, j: nat;
    if a in reserved && (b in first || b in second) {
      i :| i < |reserved| && reserved[i] == a;
      if b in first {
        var k :| 0 <= k < |first| && first[k] == b;
        j := |reserved| + k;
      } else {
        var k :| 0 <= k < |second| && second[k] == b;
        j := |reserved| + |first| + k;
      }
    } else {
      var h :| 0 <= h < |first| && first[h] == a;
      var k :| 0 <= k < |second| && second[k] == b;
      i, j := |reserved| + h, |reserved| + |first| + k;
    }
    assert all[i] == a && all[j] == b && i < j;
    hide Overlap;
  }

  lemma {:induction false} ListenersListed(listeners: seq<Listener>, l: Listener, protocol: Protocol)
    requires l in listeners && protocol in l.protocols
    ensures Binding(l.listen.host, l.listen.port, protocol) in ListenerBindings(listeners)
    decreases |listeners|
  {
    var last := listeners[|listeners| - 1];
    if l == last {
      var i :| 0 <= i < |l.protocols| && l.protocols[i] == protocol;
      var own := seq(|l.protocols|, i requires 0 <= i < |l.protocols| => Binding(l.listen.host, l.listen.port, l.protocols[i]));
      assert own[i] == Binding(l.listen.host, l.listen.port, protocol);
    } else {
      ListenersListed(listeners[..|listeners| - 1], l, protocol);
    }
  }

  lemma BindingListed(forwards: seq<Forward>, f: Forward, protocol: Protocol)
    requires f in forwards && protocol in f.protocols
    ensures Binding(ANY, f.listenPort, protocol) in RouteBindings(Routes(forwards))
  {
    RoutesListed(forwards, Route(f, protocol));
    var k :| 0 <= k < |Routes(forwards)| && Routes(forwards)[k] == Route(f, protocol);
    assert RouteBindings(Routes(forwards))[k] == Binding(ANY, f.listenPort, protocol);
    hide Routes;
  }

  lemma ApartPrefix(a: seq<Binding>, b: seq<Binding>, reserved: nat)
    ensures NewApart(a + b, reserved) ==> NewApart(a, reserved)
  {
    if NewApart(a + b, reserved) {
      forall i, j | 0 <= i < j < |a| && reserved <= j ensures !Overlap(a[i], a[j]) {
        assert (a + b)[i] == a[i] && (a + b)[j] == a[j];
      }
    }
  }

  // Overlapping is not transitive: two addresses share the wildcard only.
  lemma OverlapNotTransitive()
    ensures exists a, b, c :: Overlap(a, b) && Overlap(b, c) && !Overlap(a, c)
  {
    assert Overlap(Binding(1, 80, Tcp), Binding(ANY, 80, Tcp)) && Overlap(Binding(ANY, 80, Tcp), Binding(2, 80, Tcp));
    assert !Overlap(Binding(1, 80, Tcp), Binding(2, 80, Tcp));
  }

  // In a valid node no two routes serve the same protocol and port.
  lemma RoutesApart(reserved: seq<Binding>, listeners: seq<Listener>, forwards: seq<Forward>, i: nat, j: nat)
    requires NewApart(AllBindings(reserved, listeners, forwards), |reserved|)
    requires i < |Routes(forwards)| && j < |Routes(forwards)| && i != j
    ensures RouteBinding(Routes(forwards)[i]) != RouteBinding(Routes(forwards)[j])
  {
    var all := AllBindings(reserved, listeners, forwards);
    var base := |reserved + ListenerBindings(listeners)|;
    assert all[base + i] == RouteBinding(Routes(forwards)[i]) && all[base + j] == RouteBinding(Routes(forwards)[j]);
    var a, b := if i < j then base + i else base + j, if i < j then base + j else base + i;
    assert !Overlap(all[a], all[b]);
  }

  /* Rules */

  datatype PreRule = PreRule(interface: Id, protocol: Protocol, port: Port, target: Endpoint, name: Id)

  datatype PostRule = PostRule(interface: Id, protocol: Protocol, originalPort: Port, target: Endpoint, name: Id)

  function PreOf(interface: Id, r: Route): PreRule {
    PreRule(interface, r.protocol, r.forward.listenPort, r.forward.target, r.forward.name)
  }

  function PostOf(interface: Id, r: Route): PostRule {
    PostRule(interface, r.protocol, r.forward.listenPort, r.forward.target, r.forward.name)
  }

  method RenderNat(interface: Id, forwards: seq<Forward>) returns (pre: seq<PreRule>, post: seq<PostRule>)
    ensures |pre| == |post| == |Routes(forwards)|
    ensures forall k :: 0 <= k < |pre| ==> pre[k] == PreOf(interface, Routes(forwards)[k]) && post[k] == PostOf(interface, Routes(forwards)[k])
  {
    pre, post := [], [];
    for i := 0 to |forwards|
      invariant |pre| == |post| == |Routes(forwards[..i])|
      invariant forall k :: 0 <= k < |pre| ==> pre[k] == PreOf(interface, Routes(forwards[..i])[k]) && post[k] == PostOf(interface, Routes(forwards[..i])[k])
    {
      var rule := forwards[i];
      ghost var before := Routes(forwards[..i]);
      assert forwards[..i + 1][..i] == forwards[..i];
      ghost var after := Routes(forwards[..i + 1]);
      for j := 0 to |rule.protocols|
        invariant |pre| == |post| == |before| + j
        invariant forall k :: 0 <= k < |pre| ==> pre[k] == PreOf(interface, after[k]) && post[k] == PostOf(interface, after[k])
      {
        var protocol := rule.protocols[j];
        assert after[|before| + j] == Route(rule, protocol);
        pre := pre + [PreRule(interface, protocol, rule.listenPort, rule.target, rule.name)];
        post := post + [PostRule(interface, protocol, rule.listenPort, rule.target, rule.name)];
      }
    }
    assert forwards[..|forwards|] == forwards;
  }

  /* What the rules do */

  datatype Packet = Packet(interface: Id, local: bool, protocol: Protocol, port: Port)

  // A tracked connection: as it arrived, whether its destination was rewritten,
  // and its present destination.
  datatype Flow = Flow(packet: Packet, rewritten: bool, destination: Endpoint)

  predicate PreMatches(r: PreRule, p: Packet) {
    p.interface == r.interface && p.local && p.protocol == r.protocol && p.port == r.port
  }

  predicate PostMatches(r: PostRule, f: Flow) {
    && f.packet.interface == r.interface && f.rewritten && f.packet.protocol == r.protocol
    && f.packet.port == r.originalPort && f.destination == r.target
  }

  // The first matching rule of a chain decides.
  function PreFires(rules: seq<PreRule>, p: Packet): Option<nat> {
    if rules == [] then None
    else if PreMatches(rules[0], p) then Some(0)
    else match PreFires(rules[1..], p)
      case None => None
      case Some(k) => Some(k + 1)
  }

  function PostFires(rules: seq<PostRule>, f: Flow): Option<nat> {
    if rules == [] then None
    else if PostMatches(rules[0], f) then Some(0)
    else match PostFires(rules[1..], f)
      case None => None
      case Some(k) => Some(k + 1)
  }

  lemma {:induction false} PreFirst(rules: seq<PreRule>, p: Packet)
    ensures match PreFires(rules, p)
            case None => forall k :: 0 <= k < |rules| ==> !PreMatches(rules[k], p)
            case Some(k) => k < |rules| && PreMatches(rules[k], p) && forall j :: 0 <= j < k ==> !PreMatches(rules[j], p)
    decreases |rules|
  {
    if rules != [] {
      PreFirst(rules[1..], p);
      assert forall k :: 0 < k < |rules| ==> rules[k] == rules[1..][k - 1];
    }
  }

  lemma {:induction false} PostFirst(rules: seq<PostRule>, f: Flow)
    ensures match PostFires(rules, f)
            case None => forall k :: 0 <= k < |rules| ==> !PostMatches(rules[k], f)
            case Some(k) => k < |rules| && PostMatches(rules[k], f) && forall j :: 0 <= j < k ==> !PostMatches(rules[j], f)
    decreases |rules|
  {
    if rules != [] {
      PostFirst(rules[1..], f);
      assert forall k :: 0 < k < |rules| ==> rules[k] == rules[1..][k - 1];
    }
  }

  // The forwards read as a table from protocol and port to a target.
  predicate Serves(forwards: seq<Forward>, p: Packet, target: Endpoint) {
    exists f :: f in forwards && p.protocol in f.protocols && f.listenPort == p.port && f.target == target
  }

  lemma {:induction false} RoutesListed(forwards: seq<Forward>, r: Route)
    ensures r in Routes(forwards) <==> r.forward in forwards && r.protocol in r.forward.protocols
    decreases |forwards|
  {
    if forwards != [] {
      var f := forwards[|forwards| - 1];
      var init := forwards[..|forwards| - 1];
      RoutesListed(init, r);
      var last := seq(|f.protocols|, i requires 0 <= i < |f.protocols| => Route(f, f.protocols[i]));
      assert r in last <==> r.forward == f && r.protocol in f.protocols by {
        if r.forward == f && r.protocol in f.protocols {
          var i :| 0 <= i < |f.protocols| && f.protocols[i] == r.protocol;
          assert last[i] == r;
        }
      }
      assert r in Routes(forwards) <==> r in Routes(init) || r in last;
      assert r.forward in forwards <==> r.forward in init || r.forward == f;
    }
  }

  lemma ServedByRoute(forwards: seq<Forward>, p: Packet, target: Endpoint)
    ensures Serves(forwards, p, target) <==>
            exists k :: 0 <= k < |Routes(forwards)| && Routes(forwards)[k].protocol == p.protocol
                        && Routes(forwards)[k].forward.listenPort == p.port && Routes(forwards)[k].forward.target == target
  {
    forall f | f in forwards && p.protocol in f.protocols && f.listenPort == p.port && f.target == target
      ensures Route(f, p.protocol) in Routes(forwards)
    {
      RoutesListed(forwards, Route(f, p.protocol));
    }
    forall k | 0 <= k < |Routes(forwards)| ensures Routes(forwards)[k].forward in forwards && Routes(forwards)[k].protocol in Routes(forwards)[k].forward.protocols {
      RoutesListed(forwards, Routes(forwards)[k]);
    }
    hide Routes;
  }

  ghost predicate Rendered(interface: Id, forwards: seq<Forward>, pre: seq<PreRule>, post: seq<PostRule>) {
    && |pre| == |post| == |Routes(forwards)|
    && forall k :: 0 <= k < |pre| ==> pre[k] == PreOf(interface, Routes(forwards)[k]) && post[k] == PostOf(interface, Routes(forwards)[k])
  }

  // The rendered chain is the table: a local packet on the ingress interface is
  // sent to a target exactly when the table serves it there, and nothing else is
  // rewritten.
  lemma PreroutingIsTable(reserved: seq<Binding>, listeners: seq<Listener>, forwards: seq<Forward>, interface: Id,
                          pre: seq<PreRule>, post: seq<PostRule>, p: Packet, target: Endpoint)
    requires NewApart(AllBindings(reserved, listeners, forwards), |reserved|) && Rendered(interface, forwards, pre, post)
    ensures PreFires(pre, p).Some? ==> PreFires(pre, p).value < |pre|
    ensures (PreFires(pre, p).Some? && pre[PreFires(pre, p).value].target == target)
            <==> p.interface == interface && p.local && Serves(forwards, p, target)
  {
    PreFirst(pre, p);
    ServedByRoute(forwards, p, target);
    hide AllBindings, NewApart, Routes, Serves, PreFires;
    if PreFires(pre, p).Some? {
      var fired := PreFires(pre, p).value;
      assert pre[fired] == PreOf(interface, Routes(forwards)[fired]);
    }
    if p.interface == interface && p.local && Serves(forwards, p, target) {
      var k :| 0 <= k < |Routes(forwards)| && Routes(forwards)[k].protocol == p.protocol
               && Routes(forwards)[k].forward.listenPort == p.port && Routes(forwards)[k].forward.target == target;
      assert PreMatches(pre[k], p);
      var fired := PreFires(pre, p).value;
      if fired != k {
        RoutesApart(reserved, listeners, forwards, fired, k);
      }
    }
  }

  // The source of a rewritten flow is rewritten by the rule that is paired with
  // the one that rewrote its destination, and by no other.
  lemma PostroutingIsPaired(reserved: seq<Binding>, listeners: seq<Listener>, forwards: seq<Forward>, interface: Id,
                            pre: seq<PreRule>, post: seq<PostRule>, p: Packet)
    requires NewApart(AllBindings(reserved, listeners, forwards), |reserved|) && Rendered(interface, forwards, pre, post)
    requires PreFires(pre, p).Some?
    ensures PreFires(pre, p).value < |pre|
    ensures PostFires(post, Flow(p, true, pre[PreFires(pre, p).value].target)) == PreFires(pre, p)
  {
    PreFirst(pre, p);
    var k := PreFires(pre, p).value;
    var f := Flow(p, true, pre[k].target);
    PostFirst(post, f);
    assert PostMatches(post[k], f);
    var fired := PostFires(post, f).value;
    if fired != k {
      RoutesApart(reserved, listeners, forwards, fired, k);
    }
    hide AllBindings, NewApart, Routes;
  }

  // The source of a flow is rewritten exactly if the flow came in on the ingress
  // interface, was rewritten, and goes where the table serves it.
  lemma PostroutingIsTable(interface: Id, forwards: seq<Forward>, pre: seq<PreRule>, post: seq<PostRule>, f: Flow)
    requires Rendered(interface, forwards, pre, post)
    ensures PostFires(post, f).Some? <==> f.packet.interface == interface && f.rewritten && Serves(forwards, f.packet, f.destination)
  {
    PostFirst(post, f);
    ServedByRoute(forwards, f.packet, f.destination);
    hide Routes, Serves, PostFires;
    if PostFires(post, f).Some? {
      var fired := PostFires(post, f).value;
      assert pre[fired] == PreOf(interface, Routes(forwards)[fired]) && post[fired] == PostOf(interface, Routes(forwards)[fired]);
    }
    if f.packet.interface == interface && f.rewritten && Serves(forwards, f.packet, f.destination) {
      var k :| 0 <= k < |Routes(forwards)| && Routes(forwards)[k].protocol == f.packet.protocol
               && Routes(forwards)[k].forward.listenPort == f.packet.port && Routes(forwards)[k].forward.target == f.destination;
      assert PostMatches(post[k], f);
    }
  }

  // A flow that nobody rewrote keeps its source.
  lemma UnrewrittenUntouched(post: seq<PostRule>, p: Packet, destination: Endpoint)
    ensures PostFires(post, Flow(p, false, destination)).None?
  {
    PostFirst(post, Flow(p, false, destination));
  }
}

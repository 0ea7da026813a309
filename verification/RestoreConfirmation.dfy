// Whether the local ledger allows a restored server to be confirmed: nothing is
// active, and every restore receipt that the Agent did not complete was replaced,
// step by step, by one that it did.
module RestoreConfirmation {
  import opened Basics
  import opened OperationState

  const MAX_INT64 := 0x7fff_ffff_ffff_ffff
  const MAX_RECEIPTS := 10_000
  const MAX_DEPTH := 128

  // A receipt with its completion and the node's present token. Whether the
  // identifiers, digests and the creator are well formed is given.
  datatype Receipt = Receipt(
    wellFormed: bool, id: Id, node: Id, serviceId: Id, epoch: Id, backupServiceId: Id, replacedServiceId: Option<Id>,
    acknowledged: bool, createdAtMs: int, updatedAtMs: int, version: int, token: Digest,
    confirmedAtMs: Option<int>, currentToken: Option<Digest>)

  datatype Code =
    | Ok | InvalidOperationState | ActiveOperations | ReceiptLimit | InvalidReceipt | InvalidCompletion
    | Cycle | Binding | Limit | AcknowledgementRequired | Unresolved | Ambiguous | Order

  datatype Verdict = Verdict(ready: bool, code: Code, active: int, completed: nat, superseded: nat)

  /* The inputs */

  predicate CountOk(state: Option<State>, count: int) {
    state.Some? && 0 <= count <= MAX_INT64
  }

  function ActiveTotal(counts: seq<(Option<State>, int)>): int {
    if counts == [] then 0
    else
      var (state, count) := counts[|counts| - 1];
      ActiveTotal(counts[..|counts| - 1]) + if state.Some? && Active(state.value) then count else 0
  }

  predicate CountsOk(counts: seq<(Option<State>, int)>) {
    && (forall i :: 0 <= i < |counts| ==> CountOk(counts[i].0, counts[i].1))
    && ActiveTotal(counts) <= MAX_INT64
  }

  predicate Plausible(n: int) {
    0 < n <= MAX_INT64
  }

  predicate ReceiptOk(r: Receipt) {
    && r.wellFormed && r.serviceId != r.backupServiceId && r.replacedServiceId != Some(r.serviceId)
    && Plausible(r.createdAtMs) && Plausible(r.updatedAtMs) && Plausible(r.version) && r.createdAtMs <= r.updatedAtMs
  }

  predicate Distinct(a: Receipt, b: Receipt) {
    && a.id != b.id
    && (a.node, a.epoch) != (b.node, b.epoch)
    && (a.node, a.serviceId) != (b.node, b.serviceId)
  }

  predicate CompletionOk(r: Receipt) {
    r.confirmedAtMs.Some? ==> Plausible(r.confirmedAtMs.value) && r.createdAtMs <= r.confirmedAtMs.value
  }

  predicate Complete(r: Receipt) {
    r.confirmedAtMs.Some? && r.acknowledged
  }

  predicate Sound(rs: seq<Receipt>) {
    && (forall i :: 0 <= i < |rs| ==> ReceiptOk(rs[i]) && CompletionOk(rs[i]))
    && forall i, j :: 0 <= i < j < |rs| ==> Distinct(rs[i], rs[j])
  }

  function Completed(rs: seq<Receipt>): nat {
    if rs == [] then 0 else Completed(rs[..|rs| - 1]) + if Complete(rs[|rs| - 1]) then 1 else 0
  }

  /* Chains of replacements */

  function Children(rs: seq<Receipt>, node: Id, service: Id): (r: seq<nat>)
    ensures forall k :: 0 <= k < |r| ==> r[k] < |rs| && rs[r[k]].node == node && rs[r[k]].replacedServiceId == Some(service)
  {
    if rs == [] then []
    else
      var r, last := Children(rs[..|rs| - 1], node, service), rs[|rs| - 1];
      if last.node == node && last.replacedServiceId == Some(service) then r + [|rs| - 1] else r
  }

  predicate Bound(r: Receipt, token: Digest) {
    r.token == token && r.currentToken == Some(token)
  }

  // The one receipt that replaced another, not created before it.
  predicate ReplacedBy(rs: seq<Receipt>, a: nat, b: nat) {
    a < |rs| && b < |rs| && Children(rs, rs[a].node, rs[a].serviceId) == [b] && rs[a].createdAtMs <= rs[b].createdAtMs
  }

  // A way from an incomplete receipt to a complete one: every receipt is bound to
  // the same present token and was replaced by the next one alone.
  predicate Chain(rs: seq<Receipt>, p: seq<nat>) {
    && 0 < |p| <= MAX_DEPTH + 1 && p[0] < |rs|
    && (forall i :: 0 <= i < |p| ==> p[i] < |rs| && Bound(rs[p[i]], rs[p[0]].token))
    && (forall i, j :: 0 <= i && j == i + 1 < |p| ==> ReplacedBy(rs, p[i], p[j]))
    && (forall i :: 0 <= i < |p| - 1 ==> !Complete(rs[p[i]]))
    && Complete(rs[p[|p| - 1]])
  }

  ghost predicate Superseded(rs: seq<Receipt>, start: nat) {
    exists p :: Chain(rs, p) && p[0] == start
  }

  // The ledger allows confirmation.
  ghost predicate Confirmable(counts: seq<(Option<State>, int)>, rs: seq<Receipt>) {
    && CountsOk(counts) && ActiveTotal(counts) == 0
    && |rs| <= MAX_RECEIPTS && Sound(rs)
    && forall i :: 0 <= i < |rs| && !Complete(rs[i]) ==> Superseded(rs, i)
  }

  /* Walking a chain */

  function Walk(rs: seq<Receipt>, path: seq<nat>, at: nat, token: Digest): Code
    requires at < |rs|
    decreases MAX_DEPTH + 1 - |path|
  {
    if at in path then Cycle
    else if !Bound(rs[at], token) then Binding
    else if Complete(rs[at]) then Ok
    else if |path| >= MAX_DEPTH then Limit
    else
      var next := Children(rs, rs[at].node, rs[at].serviceId);
      if |next| == 0 then if rs[at].confirmedAtMs.Some? then AcknowledgementRequired else Unresolved
      else if |next| != 1 then Ambiguous
      else if rs[next[0]].createdAtMs < rs[at].createdAtMs then Order
      else Walk(rs, path + [at], next[0], token)
  }

  function WalkCode(rs: seq<Receipt>, start: nat): Code
    requires start < |rs|
  {
    Walk(rs, [], start, rs[start].token)
  }

  // The walk so far: a path of incomplete receipts, each replaced by the next one
  // and the last one by the receipt that is looked at.
  predicate Walked(rs: seq<Receipt>, path: seq<nat>, at: nat, token: Digest) {
    && at < |rs| && |path| <= MAX_DEPTH
    && (forall i :: 0 <= i < |path| ==> path[i] < |rs| && Bound(rs[path[i]], token) && !Complete(rs[path[i]]))
    && (forall i, j :: 0 <= i && j == i + 1 < |path| ==> ReplacedBy(rs, path[i], path[j]))
    && (path != [] ==> ReplacedBy(rs, path[|path| - 1], at))
  }

  lemma WalkedOn(rs: seq<Receipt>, path: seq<nat>, at: nat, token: Digest, next: nat)
    requires Walked(rs, path, at, token) && |path| < MAX_DEPTH && Bound(rs[at], token) && !Complete(rs[at]) && ReplacedBy(rs, at, next)
    ensures Walked(rs, path + [at], next, token)
  {
    hide Children, ReplacedBy;
    assert next < |rs| by {
      assert ReplacedBy(rs, at, next);
      WithinChain(rs, at, next);
    }
  }

  lemma WithinChain(rs: seq<Receipt>, a: nat, b: nat)
    requires ReplacedBy(rs, a, b)
    ensures a < |rs| && b < |rs| && rs[b].node == rs[a].node && rs[b].replacedServiceId == Some(rs[a].serviceId)
    ensures rs[a].createdAtMs <= rs[b].createdAtMs
  {
    assert Children(rs, rs[a].node, rs[a].serviceId)[0] == b;
  }

  // A successful walk has found a chain.
  lemma {:induction false} WalkFindsChain(rs: seq<Receipt>, path: seq<nat>, at: nat, token: Digest)
    requires Walked(rs, path, at, token) && Walk(rs, path, at, token) == Ok
    requires token == rs[(path + [at])[0]].token
    ensures exists p :: Chain(rs, p) && p[0] == (path + [at])[0]
    decreases MAX_DEPTH + 1 - |path|
  {
    hide Children, ReplacedBy;
    if Complete(rs[at]) {
      var p := path + [at];
      assert Chain(rs, p);
    } else {
      WalkStep(rs, path, at, token);
      var next := Children(rs, rs[at].node, rs[at].serviceId)[0];
      WalkedOn(rs, path, at, token, next);
      assert (path + [at] + [next])[0] == (path + [at])[0];
      WalkFindsChain(rs, path + [at], next, token);
    }
  }

  lemma WalkStep(rs: seq<Receipt>, path: seq<nat>, at: nat, token: Digest)
    requires at < |rs| && Walk(rs, path, at, token) == Ok && !Complete(rs[at])
    ensures var next := Children(rs, rs[at].node, rs[at].serviceId);
            && |path| < MAX_DEPTH && Bound(rs[at], token) && |next| == 1 && ReplacedBy(rs, at, next[0])
            && Walk(rs, path + [at], next[0], token) == Ok
  {
  }

  // A chain never visits a receipt twice: what was replaced is replaced by one
  // receipt only, and one receipt replaces only one.
  lemma ReplacesOne(rs: seq<Receipt>, a: nat, b: nat, c: nat)
    requires Sound(rs) && ReplacedBy(rs, a, c) && ReplacedBy(rs, b, c)
    ensures a == b
  {
    WithinChain(rs, a, c);
    WithinChain(rs, b, c);
    assert a != b ==> Distinct(rs[if a < b then a else b], rs[if a < b then b else a]);
  }

  lemma {:induction false} ChainDistinct(rs: seq<Receipt>, p: seq<nat>, i: nat, j: nat)
    requires Chain(rs, p) && i < j < |p|
    ensures p[i] != p[j]
    decreases |p| - j
  {
    hide ReplacedBy;
    if p[i] == p[j] {
      // From equal receipts the chain goes on equally, up to its end.
      if j < |p| - 1 {
        assert ReplacedBy(rs, p[i], p[i + 1]) && ReplacedBy(rs, p[j], p[j + 1]);
        ReplacedByOne(rs, p[i], p[i + 1], p[j + 1]);
        ChainDistinct(rs, p, i + 1, j + 1);
      } else {
        assert false;
      }
    }
  }

  lemma ReplacedByOne(rs: seq<Receipt>, a: nat, b: nat, c: nat)
    requires ReplacedBy(rs, a, b) && ReplacedBy(rs, a, c)
    ensures b == c
  {
    assert [b][0] == [c][0];
  }

  // Wherever there is a chain, the walk along it succeeds.
  lemma {:induction false} WalkFollowsChain(rs: seq<Receipt>, p: seq<nat>, k: nat)
    requires Chain(rs, p) && k < |p|
    ensures Walk(rs, p[..k], p[k], rs[p[0]].token) == Ok
    decreases |p| - k
  {
    forall i | 0 <= i < k ensures p[i] != p[k] {
      ChainDistinct(rs, p, i, k);
    }
    if k < |p| - 1 {
      WalkFollowsChain(rs, p, k + 1);
      assert p[..k] + [p[k]] == p[..k + 1];
      assert ReplacedBy(rs, p[k], p[k + 1]);
    }
    hide Children;
  }

  lemma WalkSucceedsExactlyWhenSuperseded(rs: seq<Receipt>, start: nat)
    requires start < |rs|
    ensures WalkCode(rs, start) == Ok <==> Superseded(rs, start)
  {
    if WalkCode(rs, start) == Ok {
      assert ([] + [start])[0] == start;
      WalkFindsChain(rs, [], start, rs[start].token);
    }
    if Superseded(rs, start) {
      var p :| Chain(rs, p) && p[0] == start;
      WalkFollowsChain(rs, p, 0);
      assert p[..0] == [];
    }
  }

  /* What the conditions say */

  // The receipt x replaced the receipt a on the same node.
  predicate Replaces(rs: seq<Receipt>, x: nat, a: nat)
    requires x < |rs| && a < |rs|
  {
    rs[x].node == rs[a].node && rs[x].replacedServiceId == Some(rs[a].serviceId)
  }

  // Children lists exactly the receipts that replaced one, in their order.
  lemma {:induction false} ChildrenListed(rs: seq<Receipt>, node: Id, service: Id)
    ensures var r := Children(rs, node, service);
            && (forall i, j :: 0 <= i < j < |r| ==> r[i] < r[j])
            && forall x: nat :: x in r <==> x < |rs| && rs[x].node == node && rs[x].replacedServiceId == Some(service)
    decreases |rs|
  {
    if rs != [] {
      var init := rs[..|rs| - 1];
      ChildrenListed(init, node, service);
      var r, before := Children(rs, node, service), Children(init, node, service);
      forall x: nat ensures x in r <==> x < |rs| && rs[x].node == node && rs[x].replacedServiceId == Some(service) {
        assert x in r <==> x in before || (x == |rs| - 1 && rs[x].node == node && rs[x].replacedServiceId == Some(service));
      }
    }
  }

  lemma ReplacedByMeans(rs: seq<Receipt>, a: nat, b: nat)
    requires a < |rs| && b < |rs|
    ensures ReplacedBy(rs, a, b) <==>
            rs[a].createdAtMs <= rs[b].createdAtMs && forall x: nat :: x < |rs| ==> (Replaces(rs, x, a) <==> x == b)
  {
    ChildrenListed(rs, rs[a].node, rs[a].serviceId);
    var r := Children(rs, rs[a].node, rs[a].serviceId);
    assert forall x: nat :: x < |rs| ==> (x in r <==> Replaces(rs, x, a));
    assert r == [b] ==> forall x: nat :: x in r <==> x == b;
    if forall x: nat :: x < |rs| ==> (Replaces(rs, x, a) <==> x == b) {
      forall x: nat ensures x in r <==> x == b {
        assert x < |rs| ==> (Replaces(rs, x, a) <==> x == b);
      }
      OnlyElement(r, b);
    }
    hide Children;
  }

  lemma OnlyElement(r: seq<nat>, b: nat)
    requires (forall i, j :: 0 <= i < j < |r| ==> r[i] < r[j]) && forall x: nat :: x in r <==> x == b
    ensures r == [b]
  {
    assert b in r;
    forall i | 0 <= i < |r| ensures r[i] == b {
      assert r[i] in r;
    }
    var k := if |r| > 1 then 1 else 0;
    var first, other := r[0], r[k];
    assert k > 0 ==> first < other;
  }

  // From the receipt i a way of at most 128 replacements, each by the only receipt that
  // replaced the one before and not created before it, all under one live token, leads
  // to one that the Agent completed and the controller acknowledged.
  ghost predicate Leads(rs: seq<Receipt>, i: nat, p: seq<nat>) {
    && i < |rs| && 1 <= |p| <= 129 && p[0] == i
    && (forall j :: 0 <= j < |p| ==> p[j] < |rs| && rs[p[j]].token == rs[i].token && rs[p[j]].currentToken == Some(rs[i].token))
    && (forall j :: 0 <= j < |p| - 1 ==> rs[p[j]].confirmedAtMs.None? || !rs[p[j]].acknowledged)
    && rs[p[|p| - 1]].confirmedAtMs.Some? && rs[p[|p| - 1]].acknowledged
    && forall j, k :: 0 <= j && k == j + 1 < |p| ==>
         && rs[p[j]].createdAtMs <= rs[p[k]].createdAtMs
         && forall x: nat :: x < |rs| ==> (Replaces(rs, x, p[j]) <==> x == p[k])
  }

  lemma LeadsIsChain(rs: seq<Receipt>, i: nat, p: seq<nat>)
    ensures Leads(rs, i, p) <==> Chain(rs, p) && p[0] == i
  {
    if |p| > 0 && forall j :: 0 <= j < |p| ==> p[j] < |rs| {
      forall j, k | 0 <= j && k == j + 1 < |p|
        ensures ReplacedBy(rs, p[j], p[k]) <==>
                rs[p[j]].createdAtMs <= rs[p[k]].createdAtMs && forall x: nat :: x < |rs| ==> (Replaces(rs, x, p[j]) <==> x == p[k])
      {
        ReplacedByMeans(rs, p[j], p[k]);
      }
    }
    hide ReplacedBy, Replaces;
  }

  // A receipt that is well formed in itself.
  predicate Formed(r: Receipt) {
    && r.wellFormed && r.serviceId != r.backupServiceId && Some(r.serviceId) != r.replacedServiceId
    && 0 < r.createdAtMs <= r.updatedAtMs <= 0x7fff_ffff_ffff_ffff && 0 < r.version <= 0x7fff_ffff_ffff_ffff
    && (r.confirmedAtMs.Some? ==> r.createdAtMs <= r.confirmedAtMs.value <= 0x7fff_ffff_ffff_ffff)
  }

  // Nothing is active in any state, and every count is plausible.
  predicate Quiet(state: Option<State>, count: int) {
    && state.Some? && 0 <= count <= 0x7fff_ffff_ffff_ffff
    && match state.value
       case Confirmed | Rejected | Conflict | Failed | Cancelled | RolledBack => true
       case Draft | Validated | Prepared | Applying | Verifying | OutcomeUnknown | RollingBack | RollbackFailed => count == 0
  }

  // When the ledger allows confirmation, said of the counts and the receipts.
  lemma ConfirmableMeans(counts: seq<(Option<State>, int)>, rs: seq<Receipt>)
    ensures Confirmable(counts, rs) <==>
            && (forall i :: 0 <= i < |counts| ==> Quiet(counts[i].0, counts[i].1))
            && |rs| <= 10_000
            && (forall i :: 0 <= i < |rs| ==> Formed(rs[i]))
            && (forall i, j :: 0 <= i < j < |rs| ==>
                  && rs[i].id != rs[j].id
                  && (rs[i].node == rs[j].node ==> rs[i].epoch != rs[j].epoch && rs[i].serviceId != rs[j].serviceId))
            && forall i :: 0 <= i < |rs| && (rs[i].confirmedAtMs.None? || !rs[i].acknowledged) ==> exists p :: Leads(rs, i, p)
  {
    CountsMean(counts);
    SoundMeans(rs);
    forall i: nat | i < |rs| ensures Superseded(rs, i) <==> exists p :: Leads(rs, i, p) {
      SupersededMeans(rs, i);
    }
    hide CountsOk, ActiveTotal, Quiet, Sound, Formed, Leads, Superseded;
  }

  lemma ChainFrom(rs: seq<Receipt>, i: nat) returns (p: seq<nat>)
    requires Superseded(rs, i)
    ensures Chain(rs, p) && p[0] == i
  {
    p :| Chain(rs, p) && p[0] == i;
  }

  lemma SupersededMeans(rs: seq<Receipt>, i: nat)
    ensures Superseded(rs, i) <==> exists p :: Leads(rs, i, p)
  {
    hide Leads, Chain;
    if Superseded(rs, i) {
      var p := ChainFrom(rs, i);
      LeadsIsChain(rs, i, p);
    }
    forall p | Leads(rs, i, p) ensures Superseded(rs, i) {
      LeadsIsChain(rs, i, p);
    }
  }

  lemma SoundMeans(rs: seq<Receipt>)
    ensures Sound(rs) <==>
            && (forall i :: 0 <= i < |rs| ==> Formed(rs[i]))
            && forall i, j :: 0 <= i < j < |rs| ==>
                 && rs[i].id != rs[j].id
                 && (rs[i].node == rs[j].node ==> rs[i].epoch != rs[j].epoch && rs[i].serviceId != rs[j].serviceId)
  {
    forall r: Receipt ensures Formed(r) <==> ReceiptOk(r) && CompletionOk(r) {
    }
    hide Formed, ReceiptOk, CompletionOk;
  }

  lemma {:induction false} CountsMean(counts: seq<(Option<State>, int)>)
    ensures CountsOk(counts) && ActiveTotal(counts) == 0 <==> forall i :: 0 <= i < |counts| ==> Quiet(counts[i].0, counts[i].1)
    ensures (forall i :: 0 <= i < |counts| ==> CountOk(counts[i].0, counts[i].1)) ==> ActiveTotal(counts) >= 0
    decreases |counts|
  {
    if counts != [] {
      var init := counts[..|counts| - 1];
      var (state, count) := counts[|counts| - 1];
      CountsMean(init);
      QuietMeans(state, count);
      hide Active, Quiet, CountOk;
      assert counts == init + [(state, count)];
      AllOfMore(init, (state, count), (s: Option<State>, n: int) => Quiet(s, n));
      AllOfMore(init, (state, count), (s: Option<State>, n: int) => CountOk(s, n));
    }
  }

  lemma QuietMeans(state: Option<State>, count: int)
    ensures Quiet(state, count) <==> CountOk(state, count) && (Active(state.value) ==> count == 0)
    ensures CountOk(state, count) ==> state.Some? && 0 <= count <= MAX_INT64
  {
  }

  lemma AllOfMore(init: seq<(Option<State>, int)>, last: (Option<State>, int), holds: (Option<State>, int) -> bool)
    ensures (forall i :: 0 <= i < |init + [last]| ==> holds((init + [last])[i].0, (init + [last])[i].1)) <==>
            holds(last.0, last.1) && forall i :: 0 <= i < |init| ==> holds(init[i].0, init[i].1)
  {
    var all := init + [last];
    assert all[|init|] == last;
    assert forall i :: 0 <= i < |init| ==> all[i] == init[i];
  }

  // Where a walk from start stops, and why: p is the way to the receipt where it does,
  // each receipt on it open, bound and replaced by the next one alone.
  ghost predicate Stops(rs: seq<Receipt>, p: seq<nat>, token: Digest, code: Code) {
    && Way(rs, p, token)
    && var end := rs[p[|p| - 1]];
    var bound := end.token == token && end.currentToken == Some(token);
    var complete := end.confirmedAtMs.Some? && end.acknowledged;
    var first := p[|p| - 1] !in p[..|p| - 1];
    var replacements := Children(rs, end.node, end.serviceId);
    match code
    case Cycle => !first
    case Binding => first && !bound
    case Ok => first && bound && complete
    case Limit => first && bound && !complete && |p| == 129
    case AcknowledgementRequired => first && bound && |p| < 129 && replacements == [] && end.confirmedAtMs.Some? && !end.acknowledged
    case Unresolved => first && bound && |p| < 129 && replacements == [] && end.confirmedAtMs.None?
    case Ambiguous => first && bound && !complete && |p| < 129 && |replacements| > 1
    case Order => first && bound && !complete && |p| < 129 && |replacements| == 1 && rs[replacements[0]].createdAtMs < end.createdAtMs
    case _ => false
  }

  ghost predicate Way(rs: seq<Receipt>, p: seq<nat>, token: Digest) {
    && 1 <= |p| <= 129 && (forall j :: 0 <= j < |p| ==> p[j] < |rs|)
    && (forall j :: 0 <= j < |p| - 1 ==> Bound(rs[p[j]], token) && !Complete(rs[p[j]]) && p[j] !in p[..j])
    && forall j, k :: 0 <= j && k == j + 1 < |p| ==> ReplacedBy(rs, p[j], p[k])
  }

  lemma {:induction false} WalkStops(rs: seq<Receipt>, path: seq<nat>, at: nat, token: Digest) returns (p: seq<nat>)
    requires Walked(rs, path, at, token) && forall j :: 0 <= j < |path| ==> path[j] !in path[..j]
    ensures path + [at] <= p && Stops(rs, p, token, Walk(rs, path, at, token))
    decreases MAX_DEPTH + 1 - |path|
  {
    p := path + [at];
    if WalksOn(rs, path, at, token) {
      var next := Children(rs, rs[at].node, rs[at].serviceId)[0];
      ChildInRange(rs, rs[at].node, rs[at].serviceId);
      Followed(rs, at, next);
      hide Children, ReplacedBy, Stops;
      WalkedOn(rs, path, at, token, next);
      assert p[..|path|] == path && forall j :: 0 <= j < |path| ==> p[..j] == path[..j];
      p := WalkStops(rs, path + [at], next, token);
    } else {
      StopsHere(rs, path, at, token);
    }
  }

  // The walk takes one more step.
  predicate WalksOn(rs: seq<Receipt>, path: seq<nat>, at: nat, token: Digest)
    requires at < |rs|
  {
    && at !in path && Bound(rs[at], token) && !Complete(rs[at]) && |path| < MAX_DEPTH
    && var next := Children(rs, rs[at].node, rs[at].serviceId);
    |next| == 1 && rs[next[0]].createdAtMs >= rs[at].createdAtMs
  }

  lemma StopsHere(rs: seq<Receipt>, path: seq<nat>, at: nat, token: Digest)
    requires Walked(rs, path, at, token) && forall j :: 0 <= j < |path| ==> path[j] !in path[..j]
    requires !WalksOn(rs, path, at, token)
    ensures Stops(rs, path + [at], token, Walk(rs, path, at, token))
  {
    var p := path + [at];
    assert p[..|p| - 1] == path;
    WayHere(rs, path, at, token);
    hide Children, Way, Walked;
  }

  lemma WayHere(rs: seq<Receipt>, path: seq<nat>, at: nat, token: Digest)
    requires Walked(rs, path, at, token) && forall j :: 0 <= j < |path| ==> path[j] !in path[..j]
    ensures at < |rs| && |path| <= 128 && Way(rs, path + [at], token)
  {
    hide Children, ReplacedBy, Bound, Complete;
    var p := path + [at];
    assert forall j :: 0 <= j < |path| ==> p[..j] == path[..j];
  }

  lemma Followed(rs: seq<Receipt>, a: nat, b: nat)
    requires a < |rs| && b < |rs| && rs[b].createdAtMs >= rs[a].createdAtMs
    requires var next := Children(rs, rs[a].node, rs[a].serviceId); |next| == 1 && next[0] == b
    ensures ReplacedBy(rs, a, b)
  {
  }

  // The code of a walk is the reason for which it stops.
  lemma WalkCodeMeans(rs: seq<Receipt>, start: nat) returns (p: seq<nat>)
    requires start < |rs|
    ensures p != [] && p[0] == start && Stops(rs, p, rs[start].token, WalkCode(rs, start))
  {
    p := WalkStops(rs, [], start, rs[start].token);
    assert ([] + [start])[0] == p[0];
    hide Stops, Walk;
  }

  /* Cycles */

  // n receipts that replaced one another in a ring, all open and bound alike.
  predicate Ring(rs: seq<Receipt>, p: seq<nat>) {
    && |p| > 0 && p[0] < |rs|
    && (forall i :: 0 <= i < |p| ==> p[i] < |rs| && Bound(rs[p[i]], rs[p[0]].token) && !Complete(rs[p[i]]))
    && (forall i, j :: 0 <= i && j == i + 1 < |p| ==> ReplacedBy(rs, p[i], p[j]))
    && ReplacedBy(rs, p[|p| - 1], p[0])
    && forall i, j :: 0 <= i < j < |p| ==> p[i] != p[j]
  }

  lemma {:induction false} WalkAroundRing(rs: seq<Receipt>, p: seq<nat>, k: nat)
    requires Ring(rs, p) && k < |p| && k <= MAX_DEPTH
    ensures Walk(rs, p[..k], p[k], rs[p[0]].token) == if |p| <= MAX_DEPTH then Cycle else Limit
    decreases |p| - k
  {
    hide Children;
    if k < MAX_DEPTH {
      if k < |p| - 1 {
        WalkAroundRing(rs, p, k + 1);
        assert p[..k] + [p[k]] == p[..k + 1];
        assert ReplacedBy(rs, p[k], p[k + 1]);
      } else {
        assert p[..k] + [p[k]] == p;
        assert ReplacedBy(rs, p[k], p[0]);
      }
    }
  }

  // A ring of at most 128 receipts is reported as a cycle, a longer one as a chain
  // that is too long.
  lemma RingReported(rs: seq<Receipt>, p: seq<nat>)
    requires Ring(rs, p)
    ensures WalkCode(rs, p[0]) == if |p| <= MAX_DEPTH then Cycle else Limit
  {
    WalkAroundRing(rs, p, 0);
    assert p[..0] == [];
  }

  // A reported cycle is a ring through the receipt where the walk began: a walk
  // cannot run into a ring from outside.
  lemma {:induction false} CycleIsRing(rs: seq<Receipt>, path: seq<nat>, at: nat, token: Digest) returns (p: seq<nat>)
    requires Sound(rs) && Walked(rs, path, at, token) && Walk(rs, path, at, token) == Cycle
    requires forall i, j :: 0 <= i < j < |path| ==> path[i] != path[j]
    requires token == rs[(path + [at])[0]].token
    ensures Ring(rs, p) && |p| <= MAX_DEPTH && p[0] == (path + [at])[0]
    decreases MAX_DEPTH + 1 - |path|
  {
    hide Children, ReplacedBy, Sound;
    if at in path {
      var k :| 0 <= k < |path| && path[k] == at;
      if k > 0 {
        ReplacesOne(rs, path[|path| - 1], path[k - 1], at);
        assert false;
      }
      p := path;
    } else {
      CycleStep(rs, path, at, token);
      var next := Children(rs, rs[at].node, rs[at].serviceId)[0];
      WalkedOn(rs, path, at, token, next);
      assert (path + [at] + [next])[0] == (path + [at])[0];
      p := CycleIsRing(rs, path + [at], next, token);
    }
  }

  lemma CycleStep(rs: seq<Receipt>, path: seq<nat>, at: nat, token: Digest)
    requires at < |rs| && at !in path && Walk(rs, path, at, token) == Cycle
    ensures var next := Children(rs, rs[at].node, rs[at].serviceId);
            && |path| < MAX_DEPTH && Bound(rs[at], token) && !Complete(rs[at]) && |next| == 1 && ReplacedBy(rs, at, next[0])
            && Walk(rs, path + [at], next[0], token) == Cycle
  {
  }

  /* The evaluation */

  // The first open receipt whose walk fails decides.
  function FirstFailure(rs: seq<Receipt>, start: nat): Code
    requires start <= |rs|
    decreases |rs| - start
  {
    if start == |rs| then Ok
    else if !Complete(rs[start]) && WalkCode(rs, start) != Ok then WalkCode(rs, start)
    else FirstFailure(rs, start + 1)
  }

  // It fails with the code of the first open receipt that no chain of replacements closes.
  lemma {:induction false} FailureMeans(rs: seq<Receipt>, start: nat) returns (k: nat)
    requires start <= |rs|
    ensures start <= k <= |rs|
    ensures forall i :: start <= i < k && (rs[i].confirmedAtMs.None? || !rs[i].acknowledged) ==> WalkCode(rs, i) == Ok
    ensures k == |rs| ==> FirstFailure(rs, start) == Ok
    ensures k < |rs| ==> (rs[k].confirmedAtMs.None? || !rs[k].acknowledged) && Ok != WalkCode(rs, k) == FirstFailure(rs, start)
    decreases |rs| - start
  {
    k := start;
    if start < |rs| && (Complete(rs[start]) || WalkCode(rs, start) == Ok) {
      k := FailureMeans(rs, start + 1);
    }
    hide WalkCode;
  }

  method CheckCounts(counts: seq<(Option<State>, int)>) returns (ok: bool, active: int)
    ensures ok <==> CountsOk(counts)
    ensures ok <==>
              && (forall i :: 0 <= i < |counts| ==> counts[i].0.Some? && 0 <= counts[i].1 <= 0x7fff_ffff_ffff_ffff)
              && ActiveTotal(counts) <= 0x7fff_ffff_ffff_ffff
    ensures ok ==> active == ActiveTotal(counts)
  {
    active := 0;
    for i := 0 to |counts|
      invariant forall j :: 0 <= j < i ==> CountOk(counts[j].0, counts[j].1)
      invariant 0 <= active == ActiveTotal(counts[..i]) <= MAX_INT64
    {
      assert counts[..i + 1][..i] == counts[..i];
      var (state, count) := counts[i];
      if !CountOk(state, count) {
        return false, active;
      }
      if Active(state.value) {
        active := active + count;
        if active > MAX_INT64 {
          TotalGrows(counts, i + 1);
          return false, active;
        }
      }
    }
    assert counts[..|counts|] == counts;
    ok := true;
  }

  // Valid counts only add to the total, so one partial sum over the limit decides.
  lemma {:induction false} TotalGrows(counts: seq<(Option<State>, int)>, k: nat)
    requires k <= |counts|
    ensures CountsOk(counts) ==> ActiveTotal(counts[..k]) <= ActiveTotal(counts)
    decreases |counts| - k
  {
    if k < |counts| {
      assert counts[..k + 1][..k] == counts[..k];
      TotalGrows(counts, k + 1);
    } else {
      assert counts[..k] == counts;
    }
  }

  function Found(index: map<(Id, Id), seq<nat>>, key: (Id, Id)): seq<nat> {
    if key in index then index[key] else []
  }

  ghost predicate Indexes(rs: seq<Receipt>, index: map<(Id, Id), seq<nat>>) {
    forall node, service :: Found(index, (node, service)) == Children(rs, node, service)
  }

  lemma NothingIndexed()
    ensures Indexes([], map[])
  {
  }

  lemma IndexesNext(rs: seq<Receipt>, i: nat, before: map<(Id, Id), seq<nat>>, after: map<(Id, Id), seq<nat>>)
    requires i < |rs| && Indexes(rs[..i], before)
    requires after == if rs[i].replacedServiceId.None? then before
                      else var key := (rs[i].node, rs[i].replacedServiceId.value); before[key := Found(before, key) + [i]]
    ensures Indexes(rs[..i + 1], after)
  {
    assert rs[..i + 1][..i] == rs[..i];
  }

  // What is gathered while the receipts are read one by one.
  ghost predicate Gathered(rs: seq<Receipt>, identities: set<Id>, epochs: set<(Id, Id)>, services: set<(Id, Id)>) {
    && Sound(rs)
    && (forall id :: id in identities <==> exists j :: 0 <= j < |rs| && rs[j].id == id)
    && (forall key :: key in epochs <==> exists j :: 0 <= j < |rs| && (rs[j].node, rs[j].epoch) == key)
    && (forall key :: key in services <==> exists j :: 0 <= j < |rs| && (rs[j].node, rs[j].serviceId) == key)
  }

  lemma GatheredNext(rs: seq<Receipt>, r: Receipt, identities: set<Id>, epochs: set<(Id, Id)>, services: set<(Id, Id)>)
    requires Gathered(rs, identities, epochs, services)
    ensures Sound(rs + [r]) <==> ReceiptOk(r) && CompletionOk(r) && r.id !in identities && (r.node, r.epoch) !in epochs && (r.node, r.serviceId) !in services
    ensures Sound(rs + [r]) ==> Gathered(rs + [r], identities + {r.id}, epochs + {(r.node, r.epoch)}, services + {(r.node, r.serviceId)})
  {
    hide ReceiptOk, CompletionOk;
    var next := rs + [r];
    if Sound(next) {
      forall j | 0 <= j < |rs| ensures Distinct(rs[j], r) {
        assert Distinct(next[j], next[|rs|]);
      }
    }
    assert forall j :: 0 <= j < |rs| ==> next[j] == rs[j];
    assert next[|rs|] == r;
    assert r.id !in identities && (r.node, r.epoch) !in epochs && (r.node, r.serviceId) !in services
           ==> forall j :: 0 <= j < |rs| ==> Distinct(rs[j], r);
  }

  predicate Collides(rs: seq<Receipt>, r: Receipt) {
    exists j :: 0 <= j < |rs| && !Distinct(rs[j], r)
  }

  // What the first offending receipt is refused for: itself, or its completion.
  function FirstRefusal(rs: seq<Receipt>): (code: Code)
    requires !Sound(rs)
    ensures code in {InvalidReceipt, InvalidCompletion}
  {
    var init, last := rs[..|rs| - 1], rs[|rs| - 1];
    if !Sound(init) then FirstRefusal(init)
    else if !ReceiptOk(last) || Collides(init, last) then InvalidReceipt
    else InvalidCompletion
  }

  // A receipt that is wrong in its completion alone: well formed otherwise, and sharing
  // no id, epoch or service with an earlier one.
  predicate OnlyCompletionWrong(earlier: seq<Receipt>, r: Receipt) {
    && r.confirmedAtMs.Some? && !(0 < r.confirmedAtMs.value <= 0x7fff_ffff_ffff_ffff && r.createdAtMs <= r.confirmedAtMs.value)
    && Formed(r.(confirmedAtMs := None))
    && forall j :: 0 <= j < |earlier| ==>
         && earlier[j].id != r.id
         && (earlier[j].node == r.node ==> earlier[j].epoch != r.epoch && earlier[j].serviceId != r.serviceId)
  }

  // The first receipt that cannot stand beside the ones before it is refused, for its
  // completion only when nothing else is wrong with it.
  lemma {:induction false} RefusalMeans(rs: seq<Receipt>) returns (k: nat)
    requires !Sound(rs)
    ensures k < |rs| && Sound(rs[..k]) && !Sound(rs[..k + 1])
    ensures FirstRefusal(rs) == if OnlyCompletionWrong(rs[..k], rs[k]) then InvalidCompletion else InvalidReceipt
    decreases |rs|
  {
    assert rs != [] by {
      NothingSound();
    }
    hide Sound, Formed, ReceiptOk, CompletionOk, Collides, OnlyCompletionWrong;
    var init, last := rs[..|rs| - 1], rs[|rs| - 1];
    assert rs == init + [last];
    if !Sound(init) {
      k := RefusalMeans(init);
      assert rs[..k] == init[..k] && rs[..k + 1] == init[..k + 1];
    } else {
      k := |init|;
      assert rs[..k + 1] == rs;
      OnlyCompletion(init, last);
    }
  }

  lemma NothingSound()
    ensures Sound([])
  {
  }

  lemma OnlyCompletion(init: seq<Receipt>, last: Receipt)
    requires Sound(init) && !Sound(init + [last])
    ensures ReceiptOk(last) && !Collides(init, last) <==> OnlyCompletionWrong(init, last)
  {
    assert ReceiptOk(last) <==> Formed(last.(confirmedAtMs := None));
    if ReceiptOk(last) && !Collides(init, last) {
      assert forall j :: 0 <= j < |init| ==> (init + [last])[j] == init[j];
      assert forall j :: 0 <= j < |init| ==> Distinct(init[j], last);
      assert !CompletionOk(last);
    }
    hide ReceiptOk, Formed;
  }

  lemma {:induction false} FirstRefusalOfPrefix(rs: seq<Receipt>, k: nat)
    requires k <= |rs| && !Sound(rs[..k])
    ensures !Sound(rs) && FirstRefusal(rs) == FirstRefusal(rs[..k])
    decreases |rs|
  {
    SoundPrefix(rs, k);
    if k < |rs| {
      var init := rs[..|rs| - 1];
      assert init[..k] == rs[..k];
      FirstRefusalOfPrefix(init, k);
    } else {
      assert rs[..k] == rs;
    }
    hide Sound;
  }

  lemma CollidesExactly(rs: seq<Receipt>, r: Receipt, identities: set<Id>, epochs: set<(Id, Id)>, services: set<(Id, Id)>)
    requires Gathered(rs, identities, epochs, services)
    ensures Collides(rs, r) <==> r.id in identities || (r.node, r.epoch) in epochs || (r.node, r.serviceId) in services
  {
    hide Sound;
  }

  method ReadReceipts(rs: seq<Receipt>)
    returns (failure: Option<Code>, children: map<(Id, Id), seq<nat>>, complete: set<nat>, completed: nat)
    ensures failure.None? <==> Sound(rs)
    ensures failure.Some? ==> failure.value == FirstRefusal(rs)
    ensures failure.None? ==>
      && Indexes(rs, children)
      && (forall i: nat :: i in complete <==> i < |rs| && Complete(rs[i]))
      && completed == Completed(rs)
  {
    hide Gathered, Sound, ReceiptOk, CompletionOk, Indexes, Found, Collides;
    var identities, epochs, services := {}, {}, {};
    failure, children, complete, completed := None, map[], {}, 0;
    NothingGathered();
    NothingIndexed();
    for i := 0 to |rs|
      invariant Gathered(rs[..i], identities, epochs, services)
      invariant Indexes(rs[..i], children)
      invariant forall j: nat :: j in complete <==> j < i && Complete(rs[j])
      invariant completed == Completed(rs[..i])
    {
      var r := rs[i];
      assert rs[..i + 1] == rs[..i] + [r];
      GatheredNext(rs[..i], r, identities, epochs, services);
      CollidesExactly(rs[..i], r, identities, epochs, services);
      GatheredSound(rs[..i], identities, epochs, services);
      assert rs[..i + 1][..i] == rs[..i];
      if !Sound(rs[..i + 1]) {
        FirstRefusalOfPrefix(rs, i + 1);
      }
      if !ReceiptOk(r) || r.id in identities || (r.node, r.epoch) in epochs || (r.node, r.serviceId) in services {
        return Some(InvalidReceipt), children, complete, completed;
      }
      identities, epochs, services := identities + {r.id}, epochs + {(r.node, r.epoch)}, services + {(r.node, r.serviceId)};
      if !CompletionOk(r) {
        return Some(InvalidCompletion), children, complete, completed;
      }
      if Complete(r) {
        complete, completed := complete + {i}, completed + 1;
      }
      ghost var before := children;
      if r.replacedServiceId.Some? {
        var key := (r.node, r.replacedServiceId.value);
        children := children[key := Found(children, key) + [i]];
      }
      IndexesNext(rs, i, before, children);
    }
    assert rs[..|rs|] == rs;
    GatheredSound(rs, identities, epochs, services);
  }

  lemma NothingGathered()
    ensures Gathered([], {}, {}, {})
  {
  }

  lemma GatheredSound(rs: seq<Receipt>, identities: set<Id>, epochs: set<(Id, Id)>, services: set<(Id, Id)>)
    requires Gathered(rs, identities, epochs, services)
    ensures Sound(rs)
  {
  }

  lemma SoundPrefix(rs: seq<Receipt>, k: nat)
    requires k <= |rs|
    ensures Sound(rs) ==> Sound(rs[..k])
  {
  }

  // Follows the replacements of one open receipt.
  method FollowChain(rs: seq<Receipt>, children: map<(Id, Id), seq<nat>>, complete: set<nat>, start: nat) returns (code: Code)
    requires start < |rs|
    requires Indexes(rs, children)
    requires forall i: nat :: i in complete <==> i < |rs| && Complete(rs[i])
    ensures code == WalkCode(rs, start)
  {
    hide Complete, Children, Found;
    var token := rs[start].token;
    var at: nat, depth: nat, seen: set<nat> := start, 0, {};
    ghost var path: seq<nat> := [];
    while true
      invariant at < |rs| && depth == |path| <= MAX_DEPTH
      invariant forall i: nat :: i in seen <==> i in path
      invariant Walk(rs, path, at, token) == WalkCode(rs, start)
      decreases MAX_DEPTH + 1 - depth
    {
      if at in seen {
        return Cycle;
      }
      seen := seen + {at};
      var current := rs[at];
      if current.token != token || current.currentToken != Some(token) {
        return Binding;
      }
      if at in complete {
        return Ok;
      }
      if depth >= MAX_DEPTH {
        return Limit;
      }
      var next := Found(children, (current.node, current.serviceId));
      assert next == Children(rs, current.node, current.serviceId);
      if |next| == 0 {
        return if current.confirmedAtMs.Some? then AcknowledgementRequired else Unresolved;
      }
      if |next| != 1 {
        return Ambiguous;
      }
      ChildInRange(rs, current.node, current.serviceId);
      if rs[next[0]].createdAtMs < current.createdAtMs {
        return Order;
      }
      path := path + [at];
      at, depth := next[0], depth + 1;
    }
  }

  lemma ChildInRange(rs: seq<Receipt>, node: Id, service: Id)
    ensures forall k :: 0 <= k < |Children(rs, node, service)| ==> Children(rs, node, service)[k] < |rs|
  {
  }

  // Ready exactly when the ledger allows it; then every receipt is accounted for.
  method Evaluate(counts: seq<(Option<State>, int)>, rs: seq<Receipt>) returns (v: Verdict)
    ensures v.ready <==> Confirmable(counts, rs)
    ensures v.ready <==>
              && (forall i :: 0 <= i < |counts| ==> Quiet(counts[i].0, counts[i].1))
              && |rs| <= 10_000
              && (forall i :: 0 <= i < |rs| ==> Formed(rs[i]))
              && (forall i, j :: 0 <= i < j < |rs| ==>
                    && rs[i].id != rs[j].id
                    && (rs[i].node == rs[j].node ==> rs[i].epoch != rs[j].epoch && rs[i].serviceId != rs[j].serviceId))
              && forall i :: 0 <= i < |rs| && (rs[i].confirmedAtMs.None? || !rs[i].acknowledged) ==> exists p :: Leads(rs, i, p)
    ensures v.ready <==> v.code == Ok
    ensures v.ready ==> v.completed == Completed(rs) && v.completed + v.superseded == |rs|
    ensures !CountsOk(counts) ==> v.code == InvalidOperationState
    ensures CountsOk(counts) && ActiveTotal(counts) != 0 ==> v.code == ActiveOperations && v.active == ActiveTotal(counts)
    ensures CountsOk(counts) && ActiveTotal(counts) == 0 && |rs| > MAX_RECEIPTS ==> v.code == ReceiptLimit
    ensures CountsOk(counts) && ActiveTotal(counts) == 0 && |rs| <= MAX_RECEIPTS ==>
              v.code == if Sound(rs) then FirstFailure(rs, 0) else FirstRefusal(rs)
  {
    ConfirmableMeans(counts, rs);
    hide CountsOk, Sound, WalkCode, Superseded, Children, FirstRefusal, Quiet, Formed, Leads;
    v := Verdict(false, InvalidOperationState, 0, 0, 0);
    var ok, active := CheckCounts(counts);
    v := v.(active := active);
    if !ok {
      return;
    }
    if active != 0 {
      return v.(code := ActiveOperations);
    }
    if |rs| > MAX_RECEIPTS {
      return v.(code := ReceiptLimit);
    }
    var failure, children, complete, completed := ReadReceipts(rs);
    v := v.(completed := completed);
    if failure.Some? {
      return v.(code := failure.value);
    }
    for start := 0 to |rs|
      invariant v.completed == Completed(rs) && !v.ready
      invariant Completed(rs[..start]) + v.superseded == start
      invariant FirstFailure(rs, start) == FirstFailure(rs, 0)
      invariant forall i :: 0 <= i < start && !Complete(rs[i]) ==> Superseded(rs, i)
    {
      assert rs[..start + 1][..start] == rs[..start];
      WalkSucceedsExactlyWhenSuperseded(rs, start);
      if start !in complete {
        var code := FollowChain(rs, children, complete, start);
        if code != Ok {
          return v.(code := code);
        }
        v := v.(superseded := v.superseded + 1);
      }
    }
    assert rs[..|rs|] == rs;
    v := v.(ready := true, code := Ok);
  }
}

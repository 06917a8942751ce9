/** The proxy and the providers together with the messages between them: whatever their
    handlers do is a step of the protocol, so that what holds in all its runs holds of the
    objects. */
module RpcSystem {
  import opened Common
  import opened RpcProtocol
  import opened RpcPeers
  import RpcTasks
  import Registry

  // ----- what a peer has of the state of the protocol -----

  /** The callback map of peer `p`. */
  function CallbacksOf(callbacks: map<Slot, nat>, p: nat): map<nat, nat> {
    map slot | slot in callbacks && slot.p == p :: slot.id := callbacks[slot]
  }

  function QueuedHere(k: Packet, p: nat): multiset<Msg> { if k.place == Queued(p) then multiset{k.msg} else multiset{} }

  /** The requests that peer `p` has accepted and not answered. */
  ghost function QueuedAt(net: seq<Packet>, p: nat): multiset<Msg>
    decreases |net|
  {
    if net == [] then multiset{} else QueuedHere(net[0], p) + QueuedAt(net[1..], p)
  }

  predicate RanHere(calls: seq<CallInfo>, r: Ran, p: nat) { r.call < |calls| && calls[r.call].slot.p == p }

  /** The callbacks that ran at peer `p`. */
  ghost function RanAt(ran: seq<Ran>, calls: seq<CallInfo>, p: nat): seq<Ran>
    decreases |ran|
  {
    if ran == [] then []
    else
      var n := |ran| - 1;
      RanAt(ran[..n], calls, p) + if RanHere(calls, ran[n], p) then [ran[n]] else []
  }

  lemma CallbacksAt(callbacks: map<Slot, nat>, p: nat, id: nat)
    ensures id in CallbacksOf(callbacks, p) <==> Slot(p, id) in callbacks
    ensures id in CallbacksOf(callbacks, p) ==> CallbacksOf(callbacks, p)[id] == callbacks[Slot(p, id)]
  {
  }

  lemma CallbacksMore(callbacks: map<Slot, nat>, p: nat, id: nat, n: nat, q: nat)
    ensures CallbacksOf(callbacks[Slot(p, id) := n], q) == if q == p then CallbacksOf(callbacks, q)[id := n] else CallbacksOf(callbacks, q)
  {
    hide CallbacksOf;
    var after := if q == p then CallbacksOf(callbacks, q)[id := n] else CallbacksOf(callbacks, q);
    forall x
      ensures x in CallbacksOf(callbacks[Slot(p, id) := n], q) <==> x in after
      ensures x in after ==> CallbacksOf(callbacks[Slot(p, id) := n], q)[x] == after[x]
    {
      CallbacksAt(callbacks, q, x);
      CallbacksAt(callbacks[Slot(p, id) := n], q, x);
    }
  }

  lemma CallbacksLess(callbacks: map<Slot, nat>, p: nat, id: nat, q: nat)
    ensures CallbacksOf(callbacks - {Slot(p, id)}, q) == if q == p then CallbacksOf(callbacks, q) - {id} else CallbacksOf(callbacks, q)
  {
    hide CallbacksOf;
    var after := if q == p then CallbacksOf(callbacks, q) - {id} else CallbacksOf(callbacks, q);
    forall x
      ensures x in CallbacksOf(callbacks - {Slot(p, id)}, q) <==> x in after
      ensures x in after ==> CallbacksOf(callbacks - {Slot(p, id)}, q)[x] == after[x]
    {
      CallbacksAt(callbacks, q, x);
      CallbacksAt(callbacks - {Slot(p, id)}, q, x);
    }
  }

  lemma {:induction false} QueuedUpdate(net: seq<Packet>, i: nat, k: Packet, p: nat)
    requires i < |net|
    ensures QueuedHere(net[i], p) <= QueuedAt(net, p)
    ensures QueuedAt(net[i := k], p) == QueuedAt(net, p) - QueuedHere(net[i], p) + QueuedHere(k, p)
    decreases |net|
  {
    hide QueuedHere;
    if i > 0 {
      assert net[i := k][1..] == net[1..][i - 1 := k];
      QueuedUpdate(net[1..], i - 1, k, p);
      Exchanged(QueuedHere(net[0], p), QueuedAt(net[1..], p), QueuedHere(net[i], p), QueuedHere(k, p));
    } else {
      assert net[i := k][1..] == net[1..];
      Replaced(QueuedAt(net[1..], p), QueuedHere(net[0], p), QueuedHere(k, p));
    }
  }

  lemma Exchanged(a: multiset<Msg>, r: multiset<Msg>, h: multiset<Msg>, b: multiset<Msg>)
    requires h <= r
    ensures a + (r - h + b) == a + r - h + b && h <= a + r
  {
  }

  lemma Replaced(r: multiset<Msg>, h: multiset<Msg>, b: multiset<Msg>)
    ensures b + r == h + r - h + b
  {
  }

  lemma {:induction false} QueuedWithout(net: seq<Packet>, i: nat, p: nat)
    requires i < |net|
    ensures QueuedAt(Without(net, i), p) == QueuedAt(net, p) - QueuedHere(net[i], p)
    decreases |net|
  {
    if i > 0 {
      assert Without(net, i)[1..] == Without(net[1..], i - 1);
      assert Without(net, i)[0] == net[0];
      QueuedWithout(net[1..], i - 1, p);
      QueuedUpdate(net[1..], i - 1, net[i], p);
    } else {
      assert Without(net, i) == net[1..];
    }
  }

  lemma {:induction false} QueuedAppend(net: seq<Packet>, k: Packet, p: nat)
    ensures QueuedAt(net + [k], p) == QueuedAt(net, p) + QueuedHere(k, p)
    decreases |net|
  {
    if net == [] {
      assert net + [k] == [k] && [k][1..] == [];
    } else {
      assert (net + [k])[1..] == net[1..] + [k];
      QueuedAppend(net[1..], k, p);
    }
  }

  lemma {:induction false} QueuedFind(net: seq<Packet>, p: nat, m: Msg) returns (i: nat)
    requires m in QueuedAt(net, p)
    ensures i < |net| && net[i].place == Queued(p) && net[i].msg == m
    decreases |net|
  {
    if net[0].place == Queued(p) && net[0].msg == m {
      i := 0;
    } else {
      i := QueuedFind(net[1..], p, m);
      i := i + 1;
    }
  }

  lemma {:induction false} RanMoreCalls(ran: seq<Ran>, calls: seq<CallInfo>, k: CallInfo, p: nat)
    requires forall i :: 0 <= i < |ran| ==> ran[i].call < |calls|
    ensures RanAt(ran, calls + [k], p) == RanAt(ran, calls, p)
    decreases |ran|
  {
    if ran != [] {
      RanMoreCalls(ran[..|ran| - 1], calls, k, p);
    }
  }

  lemma RanAppend(ran: seq<Ran>, r: Ran, calls: seq<CallInfo>, p: nat)
    ensures RanAt(ran + [r], calls, p) == RanAt(ran, calls, p) + if RanHere(calls, r, p) then [r] else []
  {
    assert (ran + [r])[..|ran|] == ran;
  }

  lemma {:induction false} RanIn(ran: seq<Ran>, calls: seq<CallInfo>, p: nat, i: nat) returns (j: nat)
    requires i < |RanAt(ran, calls, p)|
    ensures j < |ran| && RanAt(ran, calls, p)[i] == ran[j] && RanHere(calls, ran[j], p)
    decreases |ran|
  {
    var n := |ran| - 1;
    if i < |RanAt(ran[..n], calls, p)| {
      j := RanIn(ran[..n], calls, p, i);
    } else {
      j := n;
    }
  }

  lemma {:induction false} RanDistinct(ran: seq<Ran>, calls: seq<CallInfo>, p: nat, i: nat, j: nat)
    requires forall a, b :: 0 <= a < b < |ran| ==> ran[a].call != ran[b].call
    requires i < j < |RanAt(ran, calls, p)|
    ensures RanAt(ran, calls, p)[i].call != RanAt(ran, calls, p)[j].call
    decreases |ran|
  {
    var n := |ran| - 1;
    if j < |RanAt(ran[..n], calls, p)| {
      RanDistinct(ran[..n], calls, p, i, j);
    } else {
      var a := RanIn(ran[..n], calls, p, i);
    }
  }

  // ----- what a step changes for a peer -----

  /** Peer `q` need not notice the difference between the states. */
  ghost predicate SameFor(s: Sys, t: Sys, q: nat) {
    && CallbacksOf(t.callbacks, q) == CallbacksOf(s.callbacks, q) && QueuedAt(s.net, q) <= QueuedAt(t.net, q)
    && RanAt(t.ran, t.calls, q) == RanAt(s.ran, s.calls, q)
  }

  /** The peer whose handler takes the step. */
  function Actor(s: Sys, step: Step): Option<nat> {
    match step
    case Call(p, _, _, _, _) => Some(p)
    case Execute(i, _) => if i < |s.net| && s.net[i].place.Queued? then Some(s.net[i].place.p) else None
    case Erase(i) => if i < |s.net| && s.net[i].place.Found? then Some(s.net[i].place.p) else None
    case Run(i) => if i < |s.net| && s.net[i].place.Erased? then Some(s.net[i].place.p) else None
    case _ => None
  }

  lemma CallLocal(c: Config, s: Sys, p: nat, service: string, id: nat, name: string, body: string, q: nat)
    requires Inv(c, s) && p < |c.names|
    ensures var t := CallStep(c, s, p, service, id, name, body);
      && CallbacksOf(t.callbacks, q) == (if q == p then CallbacksOf(s.callbacks, q)[id := |s.calls|] else CallbacksOf(s.callbacks, q))
      && QueuedAt(t.net, q) == QueuedAt(s.net, q) && RanAt(t.ran, t.calls, q) == RanAt(s.ran, s.calls, q)
  {
    var t := CallStep(c, s, p, service, id, name, body);
    QueuedAppend(s.net, t.net[|s.net|], q);
    RanMoreCalls(s.ran, s.calls, t.calls[|s.calls|], q) by {
      forall i | 0 <= i < |s.ran|
        ensures s.ran[i].call < |s.calls|
      {
        assert RanOk(s, s.ran[i]);
      }
    }
    CallbacksMore(s.callbacks, p, id, |s.calls|, q);
  }

  /** A packet is moved, answered or dropped; callbacks and history stay. */
  lemma NetLocal(s: Sys, t: Sys, i: nat, k: Packet, q: nat)
    requires i < |s.net| && t.callbacks == s.callbacks && t.calls == s.calls && t.ran == s.ran
    requires t.net == s.net[i := k] || t.net == Without(s.net, i)
    ensures CallbacksOf(t.callbacks, q) == CallbacksOf(s.callbacks, q) && RanAt(t.ran, t.calls, q) == RanAt(s.ran, s.calls, q)
    ensures t.net == s.net[i := k] ==> QueuedAt(t.net, q) == QueuedAt(s.net, q) - QueuedHere(s.net[i], q) + QueuedHere(k, q)
    ensures t.net == Without(s.net, i) ==> QueuedAt(t.net, q) == QueuedAt(s.net, q) - QueuedHere(s.net[i], q)
  {
    QueuedUpdate(s.net, i, k, q);
    QueuedWithout(s.net, i, q);
  }

  lemma AcceptLocal(c: Config, s: Sys, i: nat, p: nat)
    requires Enabled(c, s, Accept(i)) && s.net[i].place.p == p
    ensures var t, m := Next(c, s, Accept(i)), s.net[i].msg;
      && CallbacksOf(t.callbacks, p) == CallbacksOf(s.callbacks, p) && RanAt(t.ran, t.calls, p) == RanAt(s.ran, s.calls, p)
      && QueuedAt(t.net, p) == QueuedAt(s.net, p) + (if m.service == c.names[p] then multiset{m} else multiset{})
      && t.registry == s.registry && SameRegistry(c, s, t)
  {
    hide CallbacksOf, QueuedAt, RanAt;
    var t := Next(c, s, Accept(i));
    NetLocal(s, t, i, s.net[i].(place := Queued(p)), p);
  }

  lemma ExecuteLocal(c: Config, s: Sys, i: nat, r: Reply, p: nat)
    requires Enabled(c, s, Execute(i, r)) && s.net[i].place.p == p
    ensures var t, m := Next(c, s, Execute(i, r)), s.net[i].msg;
      && CallbacksOf(t.callbacks, p) == CallbacksOf(s.callbacks, p) && RanAt(t.ran, t.calls, p) == RanAt(s.ran, s.calls, p)
      && QueuedAt(t.net, p) == QueuedAt(s.net, p) - multiset{m}
      && t.registry == s.registry && i < |t.net| && t.net[i].place == ToProxy(p)
      && t.net[i].msg == ResponseTo(m, if (p, m.name) in c.offers then r else NotProvided(m))
  {
    hide CallbacksOf, QueuedAt, RanAt;
    var t := Next(c, s, Execute(i, r));
    NetLocal(s, t, i, t.net[i], p);
  }

  lemma EraseLocal(c: Config, s: Sys, i: nat, q: nat)
    requires Enabled(c, s, Erase(i))
    ensures var t, k := Next(c, s, Erase(i)), s.net[i];
      && CallbacksOf(t.callbacks, q) == (if q == k.place.p then CallbacksOf(s.callbacks, q) - {k.msg.id} else CallbacksOf(s.callbacks, q))
      && QueuedAt(t.net, q) == QueuedAt(s.net, q) && RanAt(t.ran, t.calls, q) == RanAt(s.ran, s.calls, q)
  {
    var t, k := Next(c, s, Erase(i)), s.net[i];
    QueuedUpdate(s.net, i, t.net[i], q);
    CallbacksLess(s.callbacks, k.place.p, k.msg.id, q);
  }

  lemma ErasedCall(c: Config, s: Sys, i: nat)
    requires Inv(c, s) && i < |s.net| && s.net[i].place.Erased?
    ensures s.net[i].place.found < |s.calls| && s.calls[s.net[i].place.found].slot.p == s.net[i].place.p
  {
    hide OnePacket, CallsOk, RegistryOk, CallbacksOk, AllRanOk, RepliesOk;
    assert PacketOk(c, s, s.net[i]);
  }

  lemma RunLocal(c: Config, s: Sys, i: nat, q: nat)
    requires Inv(c, s) && Enabled(c, s, Run(i))
    ensures var t, k := Next(c, s, Run(i)), s.net[i]; var r := Ran(k.place.found, Reply(k.msg.name, k.msg.body));
      && CallbacksOf(t.callbacks, q) == CallbacksOf(s.callbacks, q) && QueuedAt(t.net, q) == QueuedAt(s.net, q)
      && RanAt(t.ran, t.calls, q) == RanAt(s.ran, s.calls, q) + if q == k.place.p then [r] else []
  {
    hide Inv, CallbacksOf, QueuedAt, RanAt, Without;
    var k := s.net[i];
    ErasedCall(c, s, i);
    QueuedWithout(s.net, i, q);
    RanAppend(s.ran, Ran(k.place.found, Reply(k.msg.name, k.msg.body)), s.calls, q);
  }

  lemma ProxyLocal(s: Sys, i: nat, q: nat)
    requires i < |s.net| && s.net[i].place.ToProxy?
    ensures SameFor(s, ProxyStep(s, i), q)
  {
    hide CallbacksOf, QueuedAt, RanAt;
    var t := ProxyStep(s, i);
    NetLocal(s, t, i, if i < |t.net| then t.net[i] else s.net[i], q);
  }

  lemma LookupLocal(c: Config, s: Sys, i: nat, q: nat)
    requires Enabled(c, s, Lookup(i))
    ensures SameFor(s, Next(c, s, Lookup(i)), q)
  {
    hide CallbacksOf, QueuedAt, RanAt;
    var t := Next(c, s, Lookup(i));
    NetLocal(s, t, i, if i < |t.net| then t.net[i] else s.net[i], q);
  }

  /** A step concerns its actor only; nothing that is queued gets lost, unless the network
      loses it. */
  lemma StepLocal(c: Config, s: Sys, step: Step, q: nat)
    requires Inv(c, s) && Enabled(c, s, step) && Actor(s, step) != Some(q)
    requires step.Lose? ==> !s.net[step.i].place.Queued?
    ensures SameFor(s, Next(c, s, step), q)
  {
    hide SameFor, CallbacksOf, QueuedAt, RanAt, Alive, Inv, CallStep, ProxyStep, Answer, Move, Drop, Without;
    match step
    case Login(p) => RegistryLocal(s, s.registry[c.names[p] := p], q);
    case Logout(p) => RegistryLocal(s, if c.names[p] == "" then s.registry else s.registry - {c.names[p]}, q);
    case Call(p, service, id, name, body) => CallOthers(c, s, p, service, id, name, body, q);
    case Proxy(i) => ProxyLocal(s, i, q);
    case Accept(i) => AcceptOthers(c, s, i, q);
    case Execute(i, r) => ExecuteOthers(c, s, i, r, q);
    case Lookup(i) => LookupLocal(c, s, i, q);
    case Erase(i) => EraseOthers(c, s, i, q);
    case Run(i) => RunOthers(c, s, i, q);
    case Lose(i) => LoseLocal(s, i, q);
  }

  lemma RegistryLocal(s: Sys, registry: map<string, nat>, q: nat)
    ensures SameFor(s, s.(registry := registry), q) && SameFor(s, s, q)
  {
    hide CallbacksOf, QueuedAt, RanAt;
  }

  lemma CallOthers(c: Config, s: Sys, p: nat, service: string, id: nat, name: string, body: string, q: nat)
    requires Inv(c, s) && p < |c.names| && q != p
    ensures SameFor(s, CallStep(c, s, p, service, id, name, body), q)
  {
    hide CallbacksOf, QueuedAt, RanAt, CallStep, Inv;
    CallLocal(c, s, p, service, id, name, body, q);
  }

  lemma AcceptOthers(c: Config, s: Sys, i: nat, q: nat)
    requires Enabled(c, s, Accept(i))
    ensures SameFor(s, Next(c, s, Accept(i)), q)
  {
    hide CallbacksOf, QueuedAt, RanAt;
    NetLocal(s, Next(c, s, Accept(i)), i, s.net[i].(place := Queued(s.net[i].place.p)), q);
  }

  lemma ExecuteOthers(c: Config, s: Sys, i: nat, r: Reply, q: nat)
    requires Enabled(c, s, Execute(i, r)) && s.net[i].place.p != q
    ensures SameFor(s, Next(c, s, Execute(i, r)), q)
  {
    hide CallbacksOf, QueuedAt, RanAt;
    var t := Next(c, s, Execute(i, r));
    NetLocal(s, t, i, t.net[i], q);
  }

  lemma EraseOthers(c: Config, s: Sys, i: nat, q: nat)
    requires Enabled(c, s, Erase(i)) && s.net[i].place.p != q
    ensures SameFor(s, Next(c, s, Erase(i)), q)
  {
    hide CallbacksOf, QueuedAt, RanAt, Next;
    EraseLocal(c, s, i, q);
  }

  lemma RunOthers(c: Config, s: Sys, i: nat, q: nat)
    requires Inv(c, s) && Enabled(c, s, Run(i)) && s.net[i].place.p != q
    ensures SameFor(s, Next(c, s, Run(i)), q)
  {
    hide CallbacksOf, QueuedAt, RanAt, Next, Inv;
    RunLocal(c, s, i, q);
  }

  lemma LoseLocal(s: Sys, i: nat, q: nat)
    requires i < |s.net| && !s.net[i].place.Queued?
    ensures SameFor(s, Drop(s, i), q)
  {
    hide CallbacksOf, QueuedAt, RanAt;
    NetLocal(s, Drop(s, i), i, s.net[i], q);
  }

  // ----- objects that agree with a state -----

  ghost predicate PeerAgrees(c: Config, s: Sys, p: nat, peer: ServiceProvider)
    reads peer, peer.taskMgr
  {
    && p < |c.names| && peer.name == c.names[p] && peer.callbacks == CallbacksOf(s.callbacks, p)
    && peer.Queue() <= QueuedAt(s.net, p) && peer.ran == RanAt(s.ran, s.calls, p) && peer.outbox == []
    && forall r :: (p, r) in c.offers <==> r in peer.functions
  }

  lemma Agrees(c: Config, s: Sys, p: nat, peer: ServiceProvider)
    requires PeerAgrees(c, s, p, peer)
    ensures p < |c.names| && peer.name == c.names[p] && peer.callbacks == CallbacksOf(s.callbacks, p)
    ensures peer.Queue() <= QueuedAt(s.net, p) && peer.ran == RanAt(s.ran, s.calls, p) && peer.outbox == []
    ensures forall r :: (p, r) in c.offers <==> r in peer.functions
  {
  }

  lemma NowAgrees(c: Config, s: Sys, p: nat, peer: ServiceProvider)
    requires p < |c.names| && peer.name == c.names[p] && peer.callbacks == CallbacksOf(s.callbacks, p)
    requires peer.Queue() <= QueuedAt(s.net, p) && peer.ran == RanAt(s.ran, s.calls, p) && peer.outbox == []
    requires forall r :: (p, r) in c.offers <==> r in peer.functions
    ensures PeerAgrees(c, s, p, peer)
  {
  }

  /** The connection manager holds the registry, and under the id of each connection its name. */
  ghost predicate ProxyAgrees(c: Config, s: Sys, names: map<nat, string>, conns: map<string, nat>) {
    && conns == s.registry
    && (forall p :: p in names ==> p < |c.names| && names[p] == c.names[p])
    && (forall n :: n in conns ==> conns[n] in names)
  }

  ghost predicate SameRegistry(c: Config, s: Sys, t: Sys) {
    forall names, conns :: ProxyAgrees(c, s, names, conns) ==> ProxyAgrees(c, t, names, conns)
  }

  lemma LogoutAgrees(c: Config, s: Sys, names: map<nat, string>, conns: map<string, nat>, p: nat)
    requires Inv(c, s) && NoDup(c.names) && p < |c.names| && ProxyAgrees(c, s, names, conns)
    ensures var n, t := Registry.GetName(names, p), Next(c, s, Logout(p));
      if n == "" then ProxyAgrees(c, t, names, conns) else ProxyAgrees(c, t, names - {p}, conns - {n})
  {
    var n, t := Registry.GetName(names, p), Next(c, s, Logout(p));
    if n == "" && c.names[p] != "" {
      assert c.names[p] !in s.registry;
      assert t.registry == s.registry;
    } else if n != "" {
      forall m | m in s.registry - {n}
        ensures s.registry[m] in names - {p}
      {
        assert c.names[s.registry[m]] == m;
      }
    }
  }

  class System {
    const config: Config
    const proxy: ProxyServer
    const peers: seq<ServiceProvider>
    /** The functions of the peers. */
    ghost const functions: Services
    /** The state of the protocol, with all messages on the way. */
    ghost var s: Sys

    ghost function Managers(): set<RpcTasks.TaskMgr> {
      set p | 0 <= p < |peers| :: peers[p].taskMgr
    }

    ghost predicate Apart() {
      forall p, q :: 0 <= p < q < |peers| ==> peers[p] != peers[q] && peers[p].taskMgr != peers[q].taskMgr
    }

    /** The peers serve with their functions, and so they have answered so far. */
    ghost predicate Serving()
      reads this, peers
    {
      && Offers(config, functions) && |peers| == |functions| && AllAnswered(config, functions, s)
      && forall p :: 0 <= p < |peers| ==> peers[p].functions == functions[p]
    }

    ghost predicate Valid()
      reads this, proxy, proxy.connMgr, peers, Managers()
    {
      && Serving()
      && NoDup(config.names) && |peers| == |config.names| && Apart()
      && Inv(config, s) && proxy.outbox == [] && ProxyAgrees(config, s, proxy.connMgr.names, proxy.connMgr.conns)
      && forall p :: 0 <= p < |peers| ==> PeerAgrees(config, s, p, peers[p])
    }

    constructor (config: Config, proxy: ProxyServer, peers: seq<ServiceProvider>, ghost functions: Services)
      requires NoDup(config.names) && |peers| == |config.names|
      requires forall p, q :: 0 <= p < q < |peers| ==> peers[p] != peers[q] && peers[p].taskMgr != peers[q].taskMgr
      requires proxy.outbox == [] && proxy.connMgr.names == map[] && proxy.connMgr.conns == map[]
      requires forall p :: 0 <= p < |peers| ==>
        && peers[p].name == config.names[p] && peers[p].callbacks == map[] && peers[p].outbox == [] && peers[p].ran == []
        && peers[p].taskMgr.Abs() == RpcTasks.Start && |functions| == |peers| && peers[p].functions == functions[p]
      requires Offers(config, functions)
      ensures Valid() && s == Start && this.config == config && this.peers == peers && this.proxy == proxy && this.functions == functions
    {
      this.config, this.proxy, this.peers, this.functions, s := config, proxy, peers, functions, Start;
    }

    /** What a step means for those it does not concern. */
    ghost method TakeStep(step: Step)
      requires NoDup(config.names) && Inv(config, s) && Enabled(config, s, step)
      requires step.Lose? ==> !s.net[step.i].place.Queued?
      requires Serving() && StepServes(config, functions, s, step)
      modifies `s
      ensures s == Next(config, old(s), step) && Inv(config, s) && Serving()
      ensures forall q :: 0 <= q < |peers| && Actor(old(s), step) != Some(q) && PeerAgrees(config, old(s), q, peers[q]) ==> PeerAgrees(config, s, q, peers[q])
    {
      hide CallbacksOf, QueuedAt, RanAt, Enabled, Inv, Next;
      StepInv(config, s, step);
      AnsweredStep(config, functions, s, step);
      forall q | 0 <= q < |peers| && Actor(s, step) != Some(q) && PeerAgrees(config, s, q, peers[q])
        ensures PeerAgrees(config, Next(config, s, step), q, peers[q])
      {
        StepLocal(config, s, step, q);
      }
      s := Next(config, s, step);
    }

    /** A peer logs in. */
    method LogIn(p: nat)
      requires Valid() && p < |peers|
      modifies this, proxy.connMgr
      ensures Valid() && s == Next(config, old(s), Login(p))
    {
      hide Inv, PeerAgrees, AllAnswered, Offers, Serving;
      proxy.HandleLoginRequest(p, config.names[p]);
      TakeStep(Login(p));
    }

    /** The connection of a peer goes down. */
    method Disconnect(p: nat)
      requires Valid() && p < |peers|
      modifies this, proxy.connMgr
      ensures Valid() && s == Next(config, old(s), Logout(p))
    {
      hide Inv, PeerAgrees, ProxyAgrees, AllAnswered, Offers, Serving;
      LogoutAgrees(config, s, proxy.connMgr.names, proxy.connMgr.conns, p);
      proxy.OnDisconnect(p);
      TakeStep(Logout(p));
    }

    /** A peer calls a service; `id` is the address of the callback object. */
    method CallService(p: nat, service: string, id: nat, request: string, body: string, callback: nat) returns (sent: seq<Msg>)
      requires Valid() && p < |peers| && !Alive(s, Slot(p, id)) && callback == |s.calls|
      modifies this, peers[p]
      ensures Valid() && s == Next(config, old(s), Call(p, service, id, request, body))
      ensures |s.net| == |old(s).net| + 1 && s.net[|old(s).net|].place == ToProxy(p) && sent == [s.net[|old(s).net|].msg]
      ensures sent == [Request(service, peers[p].name, id, request, body)] && s.calls == old(s.calls) + [CallInfo(Slot(p, id), sent[0])]
    {
      hide Inv, PeerAgrees, CallbacksOf, QueuedAt, RanAt, AllAnswered, Offers;
      CallLocal(config, s, p, service, id, request, body, p);
      Agrees(config, s, p, peers[p]);
      peers[p].Call(service, request, body, callback, id);
      sent := peers[p].outbox;
      peers[p].outbox := [];
      TakeStep(Call(p, service, id, request, body));
      NowAgrees(config, s, p, peers[p]);
    }

    /** The proxy receives a message and handles it. */
    method ProxyReceive(p: nat, m: Msg, ghost i: nat) returns (sent: seq<Sent>)
      requires Valid() && i < |s.net| && s.net[i].place == ToProxy(p) && s.net[i].msg == m
      modifies this, proxy
      ensures Valid() && s == Next(config, old(s), Proxy(i))
      ensures if |s.net| == |old(s).net| then s.net[i].place.ToPeer? && sent == [Sent(s.net[i].place.p, s.net[i].msg)] else sent == []
    {
      hide Inv, PeerAgrees, AllAnswered, Offers, Serving;
      proxy.HandleMessage(p, m);
      sent := proxy.outbox;
      proxy.outbox := [];
      TakeStep(Proxy(i));
    }

    /** A provider receives a request. */
    method ReceiveRequest(p: nat, m: Msg, ghost i: nat)
      requires Valid() && p < |peers| && i < |s.net| && s.net[i].place == ToPeer(p) && s.net[i].msg == m && m.Request?
      modifies this, peers[p].taskMgr
      ensures s == Next(config, old(s), Accept(i)) && Valid()
    {
      hide Inv, PeerAgrees, CallbacksOf, QueuedAt, RanAt, Next, AllAnswered, Offers, Serving, ProxyAgrees;
      AcceptLocal(config, s, i, p);
      Agrees(config, s, p, peers[p]);
      peers[p].HandleRpcRequest(m);
      TakeStep(Accept(i));
      NowAgrees(config, s, p, peers[p]);
    }

    /** The task thread of a provider answers the request in its hands. */
    method ExecuteTask(p: nat) returns (sent: seq<Msg>, ghost i: nat, ghost r: Reply)
      requires Valid() && p < |peers| && peers[p].taskMgr.runner.Executing?
      modifies this, peers[p], peers[p].taskMgr
      ensures i < |old(s).net| && old(s).net[i].place == Queued(p) && old(s).net[i].msg == old(peers[p].taskMgr.runner).task
      ensures r == Served(old(peers[p].functions), old(s).net[i].msg) && Enabled(config, old(s), Execute(i, r))
      ensures Valid() && s == Next(config, old(s), Execute(i, r)) && i < |s.net| && s.net[i].place == ToProxy(p) && sent == [s.net[i].msg]
    {
      hide Inv, PeerAgrees, CallbacksOf, QueuedAt, RanAt, Next, Enabled, Served, ProxyAgrees, AllAnswered, Offers;
      Agrees(config, s, p, peers[p]);
      i, r := Execution(config, s, p, peers[p]);
      ServesTask(config, functions, s, i, r);
      peers[p].RunTask();
      sent := peers[p].outbox;
      peers[p].outbox := [];
      TakeStep(Execute(i, r));
      NowAgrees(config, s, p, peers[p]);
    }

    /** The task thread looks at its queue: it takes a task, waits, or ends. */
    method TakeTask(p: nat)
      requires Valid() && p < |peers| && peers[p].taskMgr.runner.Ready?
      modifies peers[p].taskMgr
      ensures Valid() && s == old(s) && peers[p].taskMgr.Abs() == RpcTasks.Looked(old(peers[p].taskMgr.Abs()))
    {
      hide Inv, PeerAgrees, CallbacksOf, QueuedAt, RanAt, AllAnswered, Offers, Serving;
      Agrees(config, s, p, peers[p]);
      ghost var tasks := peers[p].taskMgr.tasks;
      assert tasks != [] ==> tasks == [tasks[0]] + tasks[1..];
      var t := peers[p].taskMgr.Pop();
      NowAgrees(config, s, p, peers[p]);
    }

    /** `Stop`: what is still queued is never answered, like lost messages. */
    method StopTasks(p: nat)
      requires Valid() && p < |peers|
      modifies peers[p].taskMgr
      ensures Valid() && s == old(s) && peers[p].taskMgr.Abs() == RpcTasks.Stopped(old(peers[p].taskMgr.Abs()))
    {
      hide Inv, PeerAgrees, CallbacksOf, QueuedAt, RanAt, AllAnswered, Offers, Serving;
      Agrees(config, s, p, peers[p]);
      peers[p].taskMgr.StopAll();
      NowAgrees(config, s, p, peers[p]);
    }

    /** The first locked part of a response handler. */
    method LookUpCallback(p: nat, m: Msg, ghost i: nat) returns (f: Option<nat>)
      requires Valid() && p < |peers| && i < |s.net| && s.net[i].place == ToPeer(p) && s.net[i].msg == m && m.Response?
      modifies `s
      ensures s == Next(config, old(s), Lookup(i)) && Valid()
      ensures f.Some? && i < |s.net| && s.net == old(s).net[i := old(s).net[i].(place := Found(p, f.value))]
      ensures m.id in peers[p].callbacks && f.value == peers[p].callbacks[m.id]
    {
      hide Inv, PeerAgrees, CallbacksOf, AllAnswered, Offers, Serving;
      Agrees(config, s, p, peers[p]);
      CallbacksAt(s.callbacks, p, m.id);
      ResponseFound(config, s, i);
      f := peers[p].GetCallback(m.id);
      TakeStep(Lookup(i));
    }

    /** The second locked part. */
    method RemoveCallback(p: nat, m: Msg, ghost i: nat)
      requires Valid() && p < |peers| && i < |s.net| && s.net[i].place.Found? && s.net[i].place.p == p && s.net[i].msg == m
      modifies this, peers[p]
      ensures s == Next(config, old(s), Erase(i)) && Valid()
      ensures peers[p].callbacks == old(peers[p].callbacks) - {m.id} && peers[p].ran == old(peers[p].ran)
    {
      hide Inv, PeerAgrees, CallbacksOf, QueuedAt, RanAt, AllAnswered, Offers;
      Agrees(config, s, p, peers[p]);
      EraseLocal(config, s, i, p);
      peers[p].RemoveCallback(m.id);
      TakeStep(Erase(i));
      NowAgrees(config, s, p, peers[p]);
    }

    /** The callback that was found runs. */
    method RunFound(p: nat, f: nat, m: Msg, ghost i: nat)
      requires Valid() && p < |peers| && i < |s.net| && s.net[i].place == Erased(p, f) && s.net[i].msg == m
      modifies this, peers[p]
      ensures s == Next(config, old(s), Run(i)) && Valid()
      ensures peers[p].ran == old(peers[p].ran) + [Ran(f, Reply(m.name, m.body))] && peers[p].callbacks == old(peers[p].callbacks)
    {
      hide Inv, PeerAgrees, CallbacksOf, QueuedAt, RanAt, AllAnswered, Offers;
      Agrees(config, s, p, peers[p]);
      RunLocal(config, s, i, p);
      peers[p].RunCallback(f, m);
      TakeStep(Run(i));
      NowAgrees(config, s, p, peers[p]);
    }

    /** `HandleRpcResponse`: three steps, when nothing happens in between. */
    method ReceiveResponse(p: nat, m: Msg, ghost i: nat)
      requires Valid() && p < |peers| && i < |s.net| && s.net[i].place == ToPeer(p) && s.net[i].msg == m && m.Response?
      modifies this, peers[p]
      ensures Valid() && s.net == Without(old(s).net, i)
      ensures m.id in old(peers[p].callbacks) && peers[p].callbacks == old(peers[p].callbacks) - {m.id}
      ensures peers[p].ran == old(peers[p].ran) + [Ran(old(peers[p].callbacks)[m.id], Reply(m.name, m.body))]
    {
      hide Inv, PeerAgrees, AllAnswered, Offers;
      var f := LookUpCallback(p, m, i);
      RemoveCallback(p, m, i);
      RunFound(p, f.value, m, i);
      assert s.net == Without(old(s).net, i);
    }

    /** The network loses a message. */
    ghost method LoseMessage(i: nat)
      requires Valid() && i < |s.net| && (s.net[i].place.ToProxy? || s.net[i].place.ToPeer?)
      modifies `s
      ensures Valid() && s == Next(config, old(s), Lose(i))
    {
      hide Inv, PeerAgrees, AllAnswered, Offers, Serving;
      TakeStep(Lose(i));
    }

    /** Whatever the objects have done so far: at every peer each callback has run at most once,
        and with the reply that the peer it called made of its own request. */
    lemma PeersRunOnce(p: nat)
      requires Valid() && p < |peers|
      ensures forall i, j :: 0 <= i < j < |peers[p].ran| ==> peers[p].ran[i].call != peers[p].ran[j].call
      ensures forall i :: 0 <= i < |peers[p].ran| ==>
        var r := peers[p].ran[i];
        && r.call < |s.calls| && s.calls[r.call].slot.p == p && r.call in s.replies && r.reply == s.replies[r.call]
        && var m := s.calls[r.call].request; Answered(config, functions, m.service, m.name, m.body, r.reply)
    {
      hide RanAt, Answered;
      Agrees(config, s, p, peers[p]);
      forall i, j | 0 <= i < j < |peers[p].ran|
        ensures peers[p].ran[i].call != peers[p].ran[j].call
      {
        RanDistinct(s.ran, s.calls, p, i, j);
      }
      forall i | 0 <= i < |peers[p].ran|
        ensures var r := peers[p].ran[i];
          && r.call < |s.calls| && s.calls[r.call].slot.p == p && r.call in s.replies && r.reply == s.replies[r.call]
          && var m := s.calls[r.call].request; Answered(config, functions, m.service, m.name, m.body, r.reply)
      {
        var j := RanIn(s.ran, s.calls, p, i);
        assert RanOk(s, s.ran[j]);
      }
    }
  }

  /** The step that the task thread of a peer is about to take. */
  lemma Execution(c: Config, s: Sys, p: nat, peer: ServiceProvider) returns (i: nat, r: Reply)
    requires Inv(c, s) && PeerAgrees(c, s, p, peer) && peer.taskMgr.runner.Executing?
    ensures i < |s.net| && s.net[i].place == Queued(p) && s.net[i].msg == peer.taskMgr.runner.task
    ensures r == Served(peer.functions, s.net[i].msg) && Enabled(c, s, Execute(i, r))
    ensures var t, m := Next(c, s, Execute(i, r)), s.net[i].msg;
      && CallbacksOf(t.callbacks, p) == CallbacksOf(s.callbacks, p) && RanAt(t.ran, t.calls, p) == RanAt(s.ran, s.calls, p)
      && peer.Queue() - multiset{m} <= QueuedAt(t.net, p)
      && SameRegistry(c, s, t) && i < |t.net| && t.net[i].place == ToProxy(p) && t.net[i].msg == ResponseTo(m, r)
  {
    hide Inv, CallbacksOf, QueuedAt, RanAt, Next;
    var m := peer.taskMgr.runner.task;
    assert m in peer.Queue();
    i := QueuedFind(s.net, p, m);
    QueuedRequest(c, s, i);
    r := Served(peer.functions, m);
    ExecuteLocal(c, s, i, r, p);
  }

  lemma ServesTask(c: Config, functions: Services, s: Sys, i: nat, r: Reply)
    requires Enabled(c, s, Execute(i, r)) && s.net[i].place.p < |functions| && r == Served(functions[s.net[i].place.p], s.net[i].msg)
    ensures StepServes(c, functions, s, Execute(i, r))
  {
  }

  lemma QueuedRequest(c: Config, s: Sys, i: nat)
    requires Inv(c, s) && i < |s.net| && s.net[i].place.Queued?
    ensures s.net[i].msg.Request? && s.net[i].place.p < |c.names|
  {
    assert PacketOk(c, s, s.net[i]);
  }

  /** The callback of a response that arrives is always there. */
  lemma ResponseFound(c: Config, s: Sys, i: nat)
    requires Inv(c, s) && i < |s.net| && s.net[i].place.ToPeer? && s.net[i].msg.Response?
    ensures Slot(s.net[i].place.p, s.net[i].msg.id) in s.callbacks
  {
    assert PacketOk(c, s, s.net[i]);
  }
}

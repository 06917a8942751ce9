/** Remote calls: requestors, a proxy that routes by name, providers with a task thread, and a
    network that delays, reorders and loses messages. */
module RpcProtocol {
  import opened Common

  // ----- messages -----

  datatype Msg =
    | Request(service: string, requestor: string, id: nat, name: string, body: string)
    | Response(service: string, requestor: string, id: nat, name: string, body: string)

  /** The result of a call: the type name and the bytes of the answer. */
  datatype Reply = Reply(name: string, body: string)

  const RPC_ERROR := "RpcServer.RpcError"

  /** `SendRequestToServer`. */
  function RequestOf(me: string, service: string, id: nat, name: string, body: string): Msg {
    Request(service, me, id, name, body)
  }

  /** The response goes back to the requestor of the request, under the id of its callback. */
  function ResponseTo(m: Msg, r: Reply): Msg {
    Response(m.service, m.requestor, m.id, r.name, r.body)
  }

  function NotOnline(m: Msg): Reply { Reply(RPC_ERROR, m.service + " is not online now") }

  function NotProvided(m: Msg): Reply {
    Reply(RPC_ERROR, m.service + " does not provide the `" + m.name + "' service")
  }

  // ----- the system -----

  /** The names of the peers, and the requests that each of them offers. */
  datatype Config = Config(names: seq<string>, offers: set<(nat, string)>)

  /** Where a message is: on the way to the proxy, on the way from the proxy to a peer, in the
      task queue of a provider, or in the hands of a response handler that has looked up the
      callback of call `found` (and then has taken it out of the map). */
  datatype Place =
    | ToProxy(p: nat)
    | ToPeer(p: nat)
    | Queued(p: nat)
    | Found(p: nat, found: nat)
    | Erased(p: nat, found: nat)

  /** A message on its way; `call` records which call it belongs to and is not used by any
      handler. */
  datatype Packet = Packet(place: Place, msg: Msg, call: nat)

  /** A key of the callback map of peer `p`. */
  datatype Slot = Slot(p: nat, id: nat)

  datatype CallInfo = CallInfo(slot: Slot, request: Msg)

  datatype Ran = Ran(call: nat, reply: Reply)

  /** `registry` is the proxy's map from names to connections, `callbacks` holds the callback
      maps of all peers, `net` the messages.  The rest is history: the calls, the reply that
      was made for each request, and the callbacks that ran. */
  datatype Sys = Sys(registry: map<string, nat>, callbacks: map<Slot, nat>, net: seq<Packet>,
                     calls: seq<CallInfo>, replies: map<nat, Reply>, ran: seq<Ran>)

  const Start: Sys := Sys(map[], map[], [], [], map[], [])

  datatype Step =
    | Login(p: nat)
    | Logout(p: nat)
    | Call(p: nat, service: string, id: nat, name: string, body: string)
    | Proxy(i: nat)
    | Accept(i: nat)
    | Execute(i: nat, result: Reply)
    | Lookup(i: nat)
    | Erase(i: nat)
    | Run(i: nat)
    | Lose(i: nat)

  /** The callback object of the slot is alive: it is in the map, or a handler holds it. */
  predicate Alive(s: Sys, slot: Slot) {
    slot in s.callbacks || exists i :: 0 <= i < |s.net| && Holds(s, s.net[i], slot)
  }

  predicate Holds(s: Sys, k: Packet, slot: Slot) {
    (k.place.Found? || k.place.Erased?) && k.place.found < |s.calls| && s.calls[k.place.found].slot == slot
  }

  predicate Enabled(c: Config, s: Sys, step: Step) {
    match step
    case Login(p) => p < |c.names|
    case Logout(p) => p < |c.names|
    case Call(p, _, id, _, _) => p < |c.names| && !Alive(s, Slot(p, id))
    case Proxy(i) => i < |s.net| && s.net[i].place.ToProxy?
    case Accept(i) => i < |s.net| && s.net[i].place.ToPeer? && s.net[i].place.p < |c.names| && s.net[i].msg.Request?
    case Execute(i, _) => i < |s.net| && s.net[i].place.Queued? && s.net[i].place.p < |c.names| && s.net[i].msg.Request?
    case Lookup(i) => i < |s.net| && s.net[i].place.ToPeer? && s.net[i].msg.Response?
    case Erase(i) => i < |s.net| && s.net[i].place.Found?
    case Run(i) => i < |s.net| && s.net[i].place.Erased?
    case Lose(i) => i < |s.net|
  }

  function Without(net: seq<Packet>, i: nat): seq<Packet>
    requires i < |net|
  {
    net[..i] + net[i + 1..]
  }

  function Drop(s: Sys, i: nat): Sys
    requires i < |s.net|
  {
    s.(net := Without(s.net, i))
  }

  function Move(s: Sys, i: nat, place: Place): Sys
    requires i < |s.net|
  {
    s.(net := s.net[i := s.net[i].(place := place)])
  }

  /** A response to the request at `i` takes its place. */
  function Answer(s: Sys, i: nat, place: Place, r: Reply): Sys
    requires i < |s.net|
  {
    s.(net := s.net[i := Packet(place, ResponseTo(s.net[i].msg, r), s.net[i].call)], replies := s.replies[s.net[i].call := r])
  }

  /** `Call`: the callback goes into the map and the request to the proxy. */
  function CallStep(c: Config, s: Sys, p: nat, service: string, id: nat, name: string, body: string): Sys
    requires p < |c.names|
  {
    var m := RequestOf(c.names[p], service, id, name, body);
    var n := |s.calls|;
    s.(callbacks := s.callbacks[Slot(p, id) := n], net := s.net + [Packet(ToProxy(p), m, n)], calls := s.calls + [CallInfo(Slot(p, id), m)])
  }

  /** `RpcProxyServer::HandleRpcRequest` and `HandleRpcResponse`. */
  function ProxyStep(s: Sys, i: nat): Sys
    requires i < |s.net| && s.net[i].place.ToProxy?
  {
    var k := s.net[i];
    if k.msg.Request? then
      if k.msg.service in s.registry then Move(s, i, ToPeer(s.registry[k.msg.service])) else Answer(s, i, ToPeer(k.place.p), NotOnline(k.msg))
    else
      if k.msg.requestor in s.registry then Move(s, i, ToPeer(s.registry[k.msg.requestor])) else Drop(s, i)
  }

  function Next(c: Config, s: Sys, step: Step): Sys
    requires Enabled(c, s, step)
  {
    match step
    case Login(p) => s.(registry := s.registry[c.names[p] := p])
    case Logout(p) => if c.names[p] == "" then s else s.(registry := s.registry - {c.names[p]})
    case Call(p, service, id, name, body) => CallStep(c, s, p, service, id, name, body)
    case Proxy(i) => ProxyStep(s, i)
    case Accept(i) =>
      if s.net[i].msg.service != c.names[s.net[i].place.p] then Drop(s, i) else Move(s, i, Queued(s.net[i].place.p))
    case Execute(i, result) =>
      var k := s.net[i];
      var r := if (k.place.p, k.msg.name) in c.offers then result else NotProvided(k.msg);
      Answer(s, i, ToProxy(k.place.p), r)
    case Lookup(i) =>
      var k := s.net[i];
      var slot := Slot(k.place.p, k.msg.id);
      if slot in s.callbacks then Move(s, i, Found(k.place.p, s.callbacks[slot])) else Drop(s, i)
    case Erase(i) =>
      var k := s.net[i];
      Move(s, i, Erased(k.place.p, k.place.found)).(callbacks := s.callbacks - {Slot(k.place.p, k.msg.id)})
    case Run(i) =>
      var k := s.net[i];
      Drop(s, i).(ran := s.ran + [Ran(k.place.found, Reply(k.msg.name, k.msg.body))])
    case Lose(i) => Drop(s, i)
  }

  /** Steps from a state. */
  ghost predicate Path(c: Config, s: Sys, steps: seq<Step>, states: seq<Sys>) {
    && |states| == |steps| + 1 && states[0] == s
    && forall i :: 0 <= i < |steps| ==> Enabled(c, states[i], steps[i]) && states[i + 1] == Next(c, states[i], steps[i])
  }

  ghost predicate Runs(c: Config, steps: seq<Step>, states: seq<Sys>) { Path(c, Start, steps, states) }

  // ----- the invariant -----

  /** A request on the way is the request of its call, and past the proxy it is at the peer it
      names; it has no reply yet. */
  predicate RequestOk(c: Config, s: Sys, k: Packet)
    requires k.call < |s.calls|
  {
    && (k.place.ToPeer? || k.place.Queued? ==> k.place.p < |c.names| && c.names[k.place.p] == k.msg.service)
    && k.msg == s.calls[k.call].request && k.call !in s.replies
    && (k.place.ToProxy? ==> k.place.p == s.calls[k.call].slot.p)
    && (k.place.ToProxy? || k.place.ToPeer? || k.place.Queued?)
  }

  /** A response on the way carries the reply to its call, and will come back to its slot. */
  predicate ResponseOk(c: Config, s: Sys, k: Packet)
    requires k.call < |s.calls|
  {
    var slot := s.calls[k.call].slot;
    && k.call in s.replies && k.msg == ResponseTo(s.calls[k.call].request, s.replies[k.call])
    && !k.place.Queued?
    && (k.place.ToPeer? || k.place.Found? || k.place.Erased? ==> k.place.p == slot.p)
    && (k.place.Found? || k.place.Erased? ==> k.place.found == k.call)
  }

  /** A message belongs to a call whose callback has not run and, until the handler takes it
      out, is in the map. */
  predicate PacketOk(c: Config, s: Sys, k: Packet) {
    && k.call < |s.calls|
    && (if k.msg.Request? then RequestOk(c, s, k) else ResponseOk(c, s, k))
    && (if k.place.Erased? then s.calls[k.call].slot !in s.callbacks else InMap(s, k.call))
  }

  predicate InMap(s: Sys, call: nat)
    requires call < |s.calls|
  {
    s.calls[call].slot in s.callbacks && s.callbacks[s.calls[call].slot] == call
  }

  /** At most one message in the whole system belongs to a slot of a callback map. */
  ghost predicate OnePacket(s: Sys) {
    forall i, j :: 0 <= i < j < |s.net| && s.net[i].call < |s.calls| && s.net[j].call < |s.calls| ==>
      s.calls[s.net[i].call].slot != s.calls[s.net[j].call].slot
  }

  ghost predicate CallsOk(c: Config, s: Sys) {
    forall n :: 0 <= n < |s.calls| ==>
      var k := s.calls[n];
      k.slot.p < |c.names| && k.request.Request? && k.request.requestor == c.names[k.slot.p] && k.request.id == k.slot.id
  }

  ghost predicate RegistryOk(c: Config, s: Sys) {
    forall n :: n in s.registry ==> s.registry[n] < |c.names| && c.names[s.registry[n]] == n
  }

  ghost predicate CallbacksOk(s: Sys) {
    forall slot :: slot in s.callbacks ==> s.callbacks[slot] < |s.calls| && s.calls[s.callbacks[slot]].slot == slot
  }

  /** A callback that ran has left the system. */
  predicate RanOk(s: Sys, r: Ran) {
    && r.call < |s.calls| && r.call in s.replies && r.reply == s.replies[r.call]
    && !InMap(s, r.call)
  }

  ghost predicate AllRanOk(s: Sys) {
    && (forall i :: 0 <= i < |s.ran| ==> RanOk(s, s.ran[i]) && NoPacket(s.net, s.ran[i].call))
    && (forall i, j :: 0 <= i < j < |s.ran| ==> s.ran[i].call != s.ran[j].call)
  }

  ghost predicate NoPacket(net: seq<Packet>, call: nat) { forall i :: 0 <= i < |net| ==> net[i].call != call }

  ghost predicate PacketsOk(c: Config, s: Sys) { forall i :: 0 <= i < |s.net| ==> PacketOk(c, s, s.net[i]) }

  ghost predicate RepliesOk(s: Sys) { forall n :: n in s.replies ==> n < |s.calls| }

  ghost predicate Inv(c: Config, s: Sys) {
    && OnePacket(s) && PacketsOk(c, s) && CallsOk(c, s) && RegistryOk(c, s) && CallbacksOk(s) && AllRanOk(s) && RepliesOk(s)
  }

  // ----- every step keeps it -----

  lemma WithoutAt(net: seq<Packet>, i: nat)
    requires i < |net|
    ensures var w := Without(net, i);
      && |w| == |net| - 1
      && (forall j :: 0 <= j < |w| ==> w[j] == net[if j < i then j else j + 1])
  {
  }

  lemma DropInv(c: Config, s: Sys, i: nat)
    requires Inv(c, s) && i < |s.net|
    ensures Inv(c, Drop(s, i)) && NoPacket(Drop(s, i).net, s.net[i].call)
  {
    hide PacketOk, RanOk;
    var t := Drop(s, i);
    WithoutAt(s.net, i);
    assert s.net[i].call < |s.calls| by { PacketCall(c, s, s.net[i]); }
    forall j | 0 <= j < |t.net|
      ensures PacketOk(c, t, t.net[j]) && t.net[j].call < |s.calls|
    {
      PacketCall(c, s, s.net[if j < i then j else j + 1]);
      PacketSame(c, s, t, s.net[if j < i then j else j + 1]);
    }
    RanSame(s, t);
  }

  lemma PacketCall(c: Config, s: Sys, k: Packet)
    requires PacketOk(c, s, k)
    ensures k.call < |s.calls|
  {
  }

  /** What a packet depends on. */
  lemma PacketSame(c: Config, s: Sys, t: Sys, k: Packet)
    requires PacketOk(c, s, k) && t.calls == s.calls && t.callbacks == s.callbacks && t.replies == s.replies
    ensures PacketOk(c, t, k)
  {
  }

  lemma RanSame(s: Sys, t: Sys)
    requires t.calls == s.calls && t.callbacks == s.callbacks && t.replies == s.replies
    ensures forall r :: RanOk(s, r) ==> RanOk(t, r)
  {
  }

  lemma MoveInv(c: Config, s: Sys, i: nat, place: Place)
    requires Inv(c, s) && i < |s.net| && PacketOk(c, s, s.net[i].(place := place))
    ensures Inv(c, Move(s, i, place))
  {
    hide PacketOk, RanOk;
    var t := Move(s, i, place);
    forall j | 0 <= j < |t.net|
      ensures PacketOk(c, t, t.net[j])
    {
      PacketSame(c, s, t, t.net[j]);
    }
    RanSame(s, t);
  }

  /** A reply is made for a request that has none. */
  lemma AnswerInv(c: Config, s: Sys, i: nat, place: Place, r: Reply)
    requires Inv(c, s) && i < |s.net| && s.net[i].msg.Request?
    requires place.ToProxy? || (place.ToPeer? && place.p == s.calls[s.net[i].call].slot.p)
    ensures Inv(c, Answer(s, i, place, r))
  {
    var t := Answer(s, i, place, r);
    forall j | 0 <= j < |t.net|
      ensures PacketOk(c, t, t.net[j])
    {
      assert PacketOk(c, s, s.net[j]);
    }
    assert PacketOk(c, s, s.net[i]);
    forall j | 0 <= j < |s.ran|
      ensures RanOk(t, s.ran[j]) && NoPacket(t.net, s.ran[j].call)
    {
      assert RanOk(s, s.ran[j]) && NoPacket(s.net, s.ran[j].call);
    }
  }

  lemma ProxyInv(c: Config, s: Sys, i: nat)
    requires Inv(c, s) && NoDup(c.names) && i < |s.net| && s.net[i].place.ToProxy?
    ensures Inv(c, ProxyStep(s, i))
  {
    var k := s.net[i];
    assert PacketOk(c, s, k);
    var call := s.calls[k.call];
    if k.msg.Request? {
      if k.msg.service in s.registry {
        MoveInv(c, s, i, ToPeer(s.registry[k.msg.service]));
      } else {
        AnswerInv(c, s, i, ToPeer(k.place.p), NotOnline(k.msg));
      }
    } else if k.msg.requestor in s.registry {
      // names are distinct, so the connection found is the requestor's own
      var q := s.registry[k.msg.requestor];
      assert c.names[q] == c.names[call.slot.p];
      assert q == call.slot.p;
      MoveInv(c, s, i, ToPeer(q));
    } else {
      DropInv(c, s, i);
    }
  }

  lemma CallInv(c: Config, s: Sys, p: nat, service: string, id: nat, name: string, body: string)
    requires Inv(c, s) && p < |c.names| && !Alive(s, Slot(p, id))
    ensures Inv(c, CallStep(c, s, p, service, id, name, body))
  {
    var t := CallStep(c, s, p, service, id, name, body);
    var n := |s.calls|;
    forall j | 0 <= j < |s.net|
      ensures PacketOk(c, t, t.net[j]) && t.net[j].call < n && s.calls[s.net[j].call].slot != Slot(p, id)
    {
      var k := s.net[j];
      assert PacketOk(c, s, k);
      assert !Holds(s, k, Slot(p, id));
    }
    assert n !in s.replies;
    assert t.net[|s.net|] == Packet(ToProxy(p), RequestOf(c.names[p], service, id, name, body), n);
    forall j | 0 <= j < |s.ran|
      ensures RanOk(t, s.ran[j]) && NoPacket(t.net, s.ran[j].call)
    {
      assert RanOk(s, s.ran[j]) && NoPacket(s.net, s.ran[j].call);
    }
  }

  /** The callback that the handler has found is taken out of the map. */
  lemma EraseInv(c: Config, s: Sys, i: nat)
    requires Inv(c, s) && i < |s.net| && s.net[i].place.Found?
    ensures Inv(c, Next(c, s, Erase(i)))
  {
    hide PacketOk, RanOk, CallsOk;
    var k := s.net[i];
    var t := Next(c, s, Erase(i));
    FoundFacts(c, s, k);
    forall j | 0 <= j < |t.net|
      ensures PacketOk(c, t, t.net[j]) && t.net[j].call == s.net[j].call
    {
      PacketCall(c, s, s.net[j]);
      ErasedPacket(c, s, t, k, s.net[j], t.net[j]);
    }
    forall j | 0 <= j < |s.ran|
      ensures RanOk(t, s.ran[j]) && NoPacket(t.net, s.ran[j].call)
    {
      assert RanOk(s, s.ran[j]) && NoPacket(s.net, s.ran[j].call);
      ErasedRan(s, t, Slot(k.place.p, k.msg.id), s.ran[j]);
    }
    CallsSame(c, s, t);
  }

  lemma FoundFacts(c: Config, s: Sys, k: Packet)
    requires PacketOk(c, s, k) && CallsOk(c, s) && k.place.Found?
    ensures k.call < |s.calls| && s.calls[k.call].slot == Slot(k.place.p, k.msg.id) && InMap(s, k.call) && k.place.found == k.call
  {
  }

  /** Packets of other slots do not notice; the packet itself moves on. */
  lemma ErasedPacket(c: Config, s: Sys, t: Sys, k: Packet, k0: Packet, k1: Packet)
    requires PacketOk(c, s, k) && PacketOk(c, s, k0) && k.place.Found? && k.place.found == k.call
    requires s.calls[k.call].slot == Slot(k.place.p, k.msg.id)
    requires t == s.(net := t.net, callbacks := s.callbacks - {Slot(k.place.p, k.msg.id)})
    requires if k0 == k then k1 == k.(place := Erased(k.place.p, k.place.found)) else k1 == k0 && s.calls[k0.call].slot != s.calls[k.call].slot
    ensures PacketOk(c, t, k1)
  {
  }

  lemma ErasedRan(s: Sys, t: Sys, slot: Slot, r: Ran)
    requires RanOk(s, r) && t == s.(net := t.net, callbacks := s.callbacks - {slot})
    ensures RanOk(t, r)
  {
  }

  lemma CallsSame(c: Config, s: Sys, t: Sys)
    requires CallsOk(c, s) && t.calls == s.calls
    ensures CallsOk(c, t)
  {
  }

  /** The callback runs. */
  lemma RunInv(c: Config, s: Sys, i: nat)
    requires Inv(c, s) && i < |s.net| && s.net[i].place.Erased?
    ensures Inv(c, Next(c, s, Run(i)))
  {
    hide AllRanOk;
    var k := s.net[i];
    var d, t := Drop(s, i), Next(c, s, Run(i));
    DropInv(c, s, i);
    assert PacketOk(c, s, k);
    assert RanOk(t, Ran(k.place.found, Reply(k.msg.name, k.msg.body)));
    RanMore(c, s, d, t, k) by { WithoutAt(s.net, i); }
    forall j | 0 <= j < |t.net|
      ensures PacketOk(c, t, t.net[j])
    {
      PacketSame(c, d, t, d.net[j]);
    }
  }

  lemma RanMore(c: Config, s: Sys, d: Sys, t: Sys, k: Packet)
    requires AllRanOk(s) && AllRanOk(d) && d.ran == s.ran && k in s.net && NoPacket(d.net, k.call) && k.place.Erased? && k.place.found == k.call
    requires t == d.(ran := s.ran + [Ran(k.call, Reply(k.msg.name, k.msg.body))]) && RanOk(t, Ran(k.call, Reply(k.msg.name, k.msg.body)))
    ensures AllRanOk(t)
  {
    RanSame(d, t);
    var n := |s.ran|;
    forall i | 0 <= i < n
      ensures s.ran[i].call != k.call
    {
      assert NoPacket(s.net, s.ran[i].call);
    }
  }

  /** Every step of every participant keeps the invariant. */
  lemma StepInv(c: Config, s: Sys, step: Step)
    requires Inv(c, s) && NoDup(c.names) && Enabled(c, s, step)
    ensures Inv(c, Next(c, s, step))
  {
    match step
    case Login(p) => RegistryInv(c, s, s.registry[c.names[p] := p]);
    case Logout(p) => RegistryInv(c, s, if c.names[p] == "" then s.registry else s.registry - {c.names[p]});
    case Call(p, service, id, name, body) => CallInv(c, s, p, service, id, name, body);
    case Proxy(i) => ProxyInv(c, s, i);
    case Accept(i) =>
      var k := s.net[i];
      assert PacketOk(c, s, k);
      if k.msg.service != c.names[k.place.p] {
        DropInv(c, s, i);
      } else {
        MoveInv(c, s, i, Queued(k.place.p));
      }
    case Execute(i, result) =>
      var k := s.net[i];
      AnswerInv(c, s, i, ToProxy(k.place.p), if (k.place.p, k.msg.name) in c.offers then result else NotProvided(k.msg));
    case Lookup(i) => LookupInv(c, s, i);
    case Erase(i) => EraseInv(c, s, i);
    case Run(i) => RunInv(c, s, i);
    case Lose(i) => DropInv(c, s, i);
  }

  lemma RegistryInv(c: Config, s: Sys, registry: map<string, nat>)
    requires Inv(c, s) && RegistryOk(c, s.(registry := registry))
    ensures Inv(c, s.(registry := registry))
  {
    hide PacketOk, RanOk;
    var t := s.(registry := registry);
    forall j | 0 <= j < |t.net|
      ensures PacketOk(c, t, t.net[j])
    {
      PacketSame(c, s, t, t.net[j]);
    }
    RanSame(s, t);
  }

  /** The callback found under the id of a response is the callback of the call that the
      response answers, although ids are used again. */
  lemma LookupInv(c: Config, s: Sys, i: nat)
    requires Inv(c, s) && i < |s.net| && s.net[i].place.ToPeer? && s.net[i].msg.Response?
    ensures Inv(c, Next(c, s, Lookup(i)))
  {
    var k := s.net[i];
    assert PacketOk(c, s, k);
    var slot := Slot(k.place.p, k.msg.id);
    assert slot == s.calls[k.call].slot && s.callbacks[slot] == k.call;
    MoveInv(c, s, i, Found(k.place.p, k.call));
  }

  // ----- every run -----

  lemma {:induction false} RunsInv(c: Config, steps: seq<Step>, states: seq<Sys>, n: nat)
    requires NoDup(c.names) && Runs(c, steps, states) && n <= |steps|
    ensures Inv(c, states[n])
  {
    if n > 0 {
      RunsInv(c, steps, states, n - 1);
      assert Enabled(c, states[n - 1], steps[n - 1]);
      StepInv(c, states[n - 1], steps[n - 1]);
    }
  }

  /** In every run each callback runs at most once, and only with the reply that was made for
      its own request. */
  lemma CallbacksOnce(c: Config, steps: seq<Step>, states: seq<Sys>, n: nat)
    requires NoDup(c.names) && Runs(c, steps, states) && n <= |steps|
    ensures var s := states[n];
      && (forall i, j :: 0 <= i < j < |s.ran| ==> s.ran[i].call != s.ran[j].call)
      && (forall i :: 0 <= i < |s.ran| ==> s.ran[i].call < |s.calls| && s.ran[i].call in s.replies && s.ran[i].reply == s.replies[s.ran[i].call])
  {
    RunsInv(c, steps, states, n);
  }

  /** At most one message in the system belongs to a slot of a callback map. */
  lemma OneMessagePerSlot(c: Config, steps: seq<Step>, states: seq<Sys>, n: nat, i: nat, j: nat)
    requires NoDup(c.names) && Runs(c, steps, states) && n <= |steps| && i < j < |states[n].net|
    ensures var s := states[n];
      s.net[i].call < |s.calls| && s.net[j].call < |s.calls| && s.calls[s.net[i].call].slot != s.calls[s.net[j].call].slot
  {
    RunsInv(c, steps, states, n);
    var s := states[n];
    assert PacketOk(c, s, s.net[i]) && PacketOk(c, s, s.net[j]);
  }

  /** How the step may make a reply to the request of call `n`: the provider that the request
      names executes it, or the proxy does not know that provider. */
  predicate Makes(c: Config, s: Sys, step: Step, n: nat, r: Reply)
    requires Enabled(c, s, step) && n < |s.calls|
  {
    var m := s.calls[n].request;
    match step
    case Execute(i, result) =>
      var p := s.net[i].place.p;
      s.net[i].call == n && c.names[p] == m.service && r == if (p, m.name) in c.offers then result else NotProvided(m)
    case Proxy(i) => s.net[i].call == n && m.service !in s.registry && r == NotOnline(m)
    case _ => false
  }

  /** A call gets at most one reply, and it never changes. */
  lemma RepliesFinal(c: Config, s: Sys, step: Step, n: nat)
    requires Inv(c, s) && NoDup(c.names) && Enabled(c, s, step) && n in Next(c, s, step).replies
    ensures n < |s.calls|
    ensures if n in s.replies then Next(c, s, step).replies[n] == s.replies[n] else Makes(c, s, step, n, Next(c, s, step).replies[n])
  {
    hide OnePacket, AllRanOk, CallsOk, RegistryOk, CallbacksOk, Alive;
    match step
    case Proxy(i) => assert PacketOk(c, s, s.net[i]);
    case Execute(i, _) => assert PacketOk(c, s, s.net[i]);
    case _ =>
  }

  // ----- from the call to its callback -----

  /** What a call records and sends: the request names the service, the caller, the callback,
      and carries the name and the body as they were passed. */
  lemma CallSends(c: Config, steps: seq<Step>, states: seq<Sys>, n: nat)
    requires Runs(c, steps, states) && n < |steps| && steps[n].Call?
    ensures var (s, t, a) := (states[n], states[n + 1], steps[n]);
      && a.p < |c.names| && |t.calls| == |s.calls| + 1 && |t.net| == |s.net| + 1
      && var k, m := t.calls[|s.calls|], t.net[|s.net|].msg;
      && k.slot == Slot(a.p, a.id) && k.request == m && t.net[|s.net|].place == ToProxy(a.p) && t.net[|s.net|].call == |s.calls|
      && m.Request? && m.service == a.service && m.name == a.name && m.body == a.body && m.requestor == c.names[a.p] && m.id == a.id
  {
    assert Enabled(c, states[n], steps[n]) && states[n + 1] == Next(c, states[n], steps[n]);
  }

  /** The functions that each peer has registered, by the names of the requests. */
  type Services = seq<map<string, string -> Reply>>

  ghost predicate Offers(c: Config, functions: Services) {
    |functions| == |c.names| && forall p, r :: 0 <= p < |functions| ==> ((p, r) in c.offers <==> r in functions[p])
  }

  /** A provider that executes a request calls its function of that name with the body. */
  ghost predicate StepServes(c: Config, functions: Services, s: Sys, step: Step)
    requires Enabled(c, s, step)
  {
    step.Execute? ==>
      var k := s.net[step.i];
      k.place.p < |functions| && (k.msg.name in functions[k.place.p] ==> step.result == functions[k.place.p][k.msg.name](k.msg.body))
  }

  /** Peer `q` is the one that was called, and the reply is what its function makes of the
      body, or says that it has no such function. */
  predicate Answers(c: Config, functions: Services, q: nat, service: string, name: string, body: string, r: Reply) {
    && q < |functions| && q < |c.names| && c.names[q] == service
    && r == if name in functions[q] then functions[q][name](body)
            else Reply("RpcServer.RpcError", service + " does not provide the `" + name + "' service")
  }

  ghost predicate Answered(c: Config, functions: Services, service: string, name: string, body: string, r: Reply) {
    r == Reply("RpcServer.RpcError", service + " is not online now") || exists q :: Answers(c, functions, q, service, name, body, r)
  }

  ghost predicate AllAnswered(c: Config, functions: Services, s: Sys) {
    forall n :: n in s.replies ==>
      n < |s.calls| && var m := s.calls[n].request; Answered(c, functions, m.service, m.name, m.body, s.replies[n])
  }

  lemma AnsweredStep(c: Config, functions: Services, s: Sys, step: Step)
    requires Inv(c, s) && NoDup(c.names) && Enabled(c, s, step) && Offers(c, functions) && StepServes(c, functions, s, step)
    requires AllAnswered(c, functions, s)
    ensures AllAnswered(c, functions, Next(c, s, step))
  {
    hide Inv, Answered, Alive;
    var t := Next(c, s, step);
    StepInv(c, s, step);
    CallsKept(c, s, step);
    forall n | n in t.replies
      ensures n < |t.calls| && var m := t.calls[n].request; Answered(c, functions, m.service, m.name, m.body, t.replies[n])
    {
      RepliesFinal(c, s, step, n);
      if n !in s.replies {
        MadeAnswer(c, functions, s, step, n, t.replies[n]);
      }
    }
  }

  lemma CallsKept(c: Config, s: Sys, step: Step)
    requires Enabled(c, s, step)
    ensures s.calls <= Next(c, s, step).calls
  {
    hide Alive;
  }

  /** The reply that a step makes is an answer to the request. */
  lemma MadeAnswer(c: Config, functions: Services, s: Sys, step: Step, n: nat, r: Reply)
    requires Inv(c, s) && Enabled(c, s, step) && Offers(c, functions) && StepServes(c, functions, s, step)
    requires n < |s.calls| && Makes(c, s, step, n, r)
    ensures var m := s.calls[n].request; Answered(c, functions, m.service, m.name, m.body, r)
  {
    hide OnePacket, AllRanOk, CallsOk, RegistryOk, CallbacksOk, Alive;
    var m := s.calls[n].request;
    if step.Execute? {
      var k := s.net[step.i];
      assert PacketOk(c, s, k);
      assert Answers(c, functions, k.place.p, m.service, m.name, m.body, r);
    }
  }

  /** All providers of a run serve with their functions. */
  ghost predicate Serves(c: Config, functions: Services, steps: seq<Step>, states: seq<Sys>)
    requires Runs(c, steps, states)
  {
    Offers(c, functions) && forall i :: 0 <= i < |steps| ==> StepServes(c, functions, states[i], steps[i])
  }

  lemma {:induction false} RunsAnswered(c: Config, functions: Services, steps: seq<Step>, states: seq<Sys>, n: nat)
    requires NoDup(c.names) && Runs(c, steps, states) && Serves(c, functions, steps, states) && n <= |steps|
    ensures AllAnswered(c, functions, states[n])
  {
    hide Inv, Answered, Enabled, Next;
    if n > 0 {
      RunsAnswered(c, functions, steps, states, n - 1);
      RunsInv(c, steps, states, n - 1);
      assert Enabled(c, states[n - 1], steps[n - 1]) && StepServes(c, functions, states[n - 1], steps[n - 1]);
      AnsweredStep(c, functions, states[n - 1], steps[n - 1]);
    }
  }

  lemma {:induction false} CallsOnlyGrow(c: Config, steps: seq<Step>, states: seq<Sys>, m: nat, n: nat)
    requires Runs(c, steps, states) && m <= n <= |steps|
    ensures states[m].calls <= states[n].calls
    decreases n
  {
    hide Enabled, Next;
    if m < n {
      CallsOnlyGrow(c, steps, states, m, n - 1);
      assert Enabled(c, states[n - 1], steps[n - 1]) && states[n] == Next(c, states[n - 1], steps[n - 1]);
      CallsKept(c, states[n - 1], steps[n - 1]);
    }
  }

  /** End to end, in every run: when the callback of a call runs, it runs at the caller, and
      its reply is what the function `name` of the one peer that is called `service` makes of
      the body passed to the call; or that peer has no such function and the reply says so; or
      the reply says that the peer is not online. */
  lemma CallAnswered(c: Config, functions: Services, steps: seq<Step>, states: seq<Sys>, m: nat, n: nat, i: nat)
    requires NoDup(c.names) && Runs(c, steps, states) && Serves(c, functions, steps, states)
    requires m < n <= |steps| && steps[m].Call? && i < |states[n].ran| && states[n].ran[i].call == |states[m].calls|
    ensures var (s, a) := (states[n], steps[m]);
      && s.ran[i].call < |s.calls| && s.calls[s.ran[i].call].slot == Slot(a.p, a.id)
      && Answered(c, functions, a.service, a.name, a.body, s.ran[i].reply)
    ensures forall q :: 0 <= q < |c.names| && c.names[q] == steps[m].service && states[n].ran[i].reply.name != "RpcServer.RpcError" ==>
      steps[m].name in functions[q] && states[n].ran[i].reply == functions[q][steps[m].name](steps[m].body)
  {
    hide Inv, Enabled, Next, Serves, Runs;
    assert Offers(c, functions) by { ServesOffers(c, functions, steps, states); }
    CallSends(c, steps, states, m);
    CallsOnlyGrow(c, steps, states, m + 1, n);
    CallbacksOnce(c, steps, states, n);
    RunsAnswered(c, functions, steps, states, n);
  }

  lemma ServesOffers(c: Config, functions: Services, steps: seq<Step>, states: seq<Sys>)
    requires Runs(c, steps, states) && Serves(c, functions, steps, states)
    ensures Offers(c, functions) && |states| == |steps| + 1
  {
  }

  // ----- calls can complete -----

  /** How far a message is from the callback. */
  function Stage(k: Packet): nat {
    if k.msg.Request? then (match k.place case ToProxy(_) => 7 case ToPeer(_) => 6 case _ => 5)
    else (match k.place case ToProxy(_) => 4 case ToPeer(_) => 3 case Found(_, _) => 2 case _ => 1)
  }

  /** The step that takes a message further. */
  function Forward(functions: Services, k: Packet, i: nat): Step {
    match k.place
    case ToProxy(_) => Proxy(i)
    case ToPeer(_) => if k.msg.Request? then Accept(i) else Lookup(i)
    case Queued(p) =>
      Execute(i, if p < |functions| && k.msg.name in functions[p] then functions[p][k.msg.name](k.msg.body) else NotProvided(k.msg))
    case Found(_, _) => Erase(i)
    case Erased(_, _) => Run(i)
  }

  /** The reply that the message will bring, when peers do not come and go. */
  function Outcome(functions: Services, s: Sys, k: Packet): Reply {
    if k.msg.Response? then Reply(k.msg.name, k.msg.body)
    else if k.place.ToProxy? && k.msg.service !in s.registry then NotOnline(k.msg)
    else
      var q := if k.place.ToProxy? then s.registry[k.msg.service] else k.place.p;
      if q < |functions| && k.msg.name in functions[q] then functions[q][k.msg.name](k.msg.body) else NotProvided(k.msg)
  }

  /** A message whose requestor is logged in goes one step further, or its callback runs. */
  lemma Advances(c: Config, functions: Services, s: Sys, i: nat)
    requires Inv(c, s) && NoDup(c.names) && Offers(c, functions) && i < |s.net| && s.net[i].msg.requestor in s.registry
    ensures var k := s.net[i]; var step := Forward(functions, k, i);
      && Enabled(c, s, step) && StepServes(c, functions, s, step)
      && var t := Next(c, s, step);
      if k.place.Erased? then t.ran == s.ran + [Ran(k.call, Outcome(functions, s, k))]
      else
        && t.ran == s.ran && t.registry == s.registry && |t.net| == |s.net| && Stage(t.net[i]) < Stage(k)
        && t.net[i].call == k.call && t.net[i].msg.requestor == k.msg.requestor && Outcome(functions, t, t.net[i]) == Outcome(functions, s, k)
  {
    hide OnePacket, AllRanOk, Alive;
    var k := s.net[i];
    assert PacketOk(c, s, k);
    if k.place.ToPeer? && k.msg.Response? {
      ResponseSlot(c, s, k);
    }
  }

  /** The id in a response is the id of its call, and its callback is in the map. */
  lemma ResponseSlot(c: Config, s: Sys, k: Packet)
    requires PacketOk(c, s, k) && CallsOk(c, s) && k.msg.Response? && k.place.ToPeer?
    ensures Slot(k.place.p, k.msg.id) in s.callbacks && s.callbacks[Slot(k.place.p, k.msg.id)] == k.call
  {
  }

  /** Nothing is lost, nobody comes or goes, and nobody else calls. */
  ghost predicate Handlers(steps: seq<Step>) {
    forall i :: 0 <= i < |steps| ==> !steps[i].Lose? && !steps[i].Login? && !steps[i].Logout? && !steps[i].Call?
  }

  /** The steps lead to the callback of the call, which runs with the reply. */
  ghost predicate Completes(c: Config, functions: Services, s: Sys, call: nat, r: Reply, steps: seq<Step>, states: seq<Sys>) {
    && Path(c, s, steps, states) && Handlers(steps) && (forall i :: 0 <= i < |steps| ==> StepServes(c, functions, states[i], steps[i]))
    && states[|steps|].ran == s.ran + [Ran(call, r)]
  }

  ghost predicate CanComplete(c: Config, functions: Services, s: Sys, call: nat, r: Reply) {
    exists steps, states :: Completes(c, functions, s, call, r, steps, states)
  }

  lemma CompletesAfter(c: Config, functions: Services, s: Sys, call: nat, r: Reply, step: Step, steps: seq<Step>, states: seq<Sys>)
    requires Enabled(c, s, step) && StepServes(c, functions, s, step) && Handlers([step]) && Next(c, s, step).ran == s.ran
    requires Completes(c, functions, Next(c, s, step), call, r, steps, states)
    ensures Completes(c, functions, s, call, r, [step] + steps, [s] + states)
  {
    hide Enabled, Next, StepServes;
    var all, them := [step] + steps, [s] + states;
    assert [step][0] == step;
    forall i | 0 <= i < |all|
      ensures Enabled(c, them[i], all[i]) && them[i + 1] == Next(c, them[i], all[i]) && StepServes(c, functions, them[i], all[i])
    {
      if i > 0 {
        assert all[i] == steps[i - 1] && them[i] == states[i - 1] && them[i + 1] == states[i];
        assert Enabled(c, states[i - 1], steps[i - 1]) && StepServes(c, functions, states[i - 1], steps[i - 1]);
      }
    }
    assert them[|all|] == states[|steps|];
  }

  lemma {:induction false} CompleteFrom(c: Config, functions: Services, s: Sys, i: nat)
    requires Inv(c, s) && NoDup(c.names) && Offers(c, functions) && i < |s.net| && s.net[i].msg.requestor in s.registry
    ensures CanComplete(c, functions, s, s.net[i].call, Outcome(functions, s, s.net[i]))
    decreases Stage(s.net[i])
  {
    hide Inv, Enabled, Next, StepServes, Outcome, Stage;
    var k := s.net[i];
    var step, r := Forward(functions, k, i), Outcome(functions, s, k);
    Advances(c, functions, s, i);
    var t := Next(c, s, step);
    if k.place.Erased? {
      assert Completes(c, functions, s, k.call, r, [step], [s, t]);
    } else {
      StepInv(c, s, step);
      CompleteFrom(c, functions, t, i);
      var steps, states :| Completes(c, functions, t, k.call, r, steps, states);
      CompletesAfter(c, functions, s, k.call, r, step, steps, states);
    }
  }

  /** In every run: as long as the message of a call is not lost and the caller is logged in,
      the handlers can go on until the callback runs.  A request whose service is logged in
      then gets the reply of that service, and one whose service is not the error. */
  lemma CallsCanComplete(c: Config, functions: Services, steps: seq<Step>, states: seq<Sys>, n: nat, i: nat) returns (r: Reply)
    requires NoDup(c.names) && Runs(c, steps, states) && Offers(c, functions) && n <= |steps|
    requires i < |states[n].net| && states[n].net[i].msg.requestor in states[n].registry
    ensures CanComplete(c, functions, states[n], states[n].net[i].call, r)
    ensures var (s, m) := (states[n], states[n].net[i].msg);
      m.Request? && s.net[i].place.ToProxy? ==>
        if m.service in s.registry then Answers(c, functions, s.registry[m.service], m.service, m.name, m.body, r)
        else r == Reply("RpcServer.RpcError", m.service + " is not online now")
  {
    hide PacketOk, OnePacket, CallsOk, CallbacksOk, AllRanOk, RepliesOk;
    RunsInv(c, steps, states, n);
    CompleteFrom(c, functions, states[n], i);
    r := Outcome(functions, states[n], states[n].net[i]);
  }
}

/** The proxy and the providers as objects whose handlers change them in place. */
module RpcPeers {
  import opened Common
  import opened RpcProtocol
  import RpcTasks
  import Registry

  /** Where the proxy sends a message that came from connection `from`, and as what. */
  function Route(registry: map<string, nat>, from: nat, m: Msg): Option<(nat, Msg)> {
    if m.Request? then
      if m.service in registry then Some((registry[m.service], m)) else Some((from, ResponseTo(m, NotOnline(m))))
    else
      if m.requestor in registry then Some((registry[m.requestor], m)) else None
  }

  /** The reply of a provider with the given functions. */
  function Served(functions: map<string, string -> Reply>, m: Msg): Reply {
    if m.name in functions then functions[m.name](m.body) else NotProvided(m)
  }

  /** What was sent over a connection. */
  datatype Sent = Sent(conn: nat, msg: Msg)

  class ProxyServer {
    /** Connections are numbers, which are their ids, too. */
    const connMgr: Registry.ConnMgr
    var outbox: seq<Sent>

    constructor ()
      ensures connMgr.names == map[] && connMgr.conns == map[] && outbox == [] && fresh(connMgr)
    {
      connMgr := new Registry.ConnMgr();
      outbox := [];
    }

    /** The registry as seen by the connection manager. */
    ghost function View(): Registry.State
      reads connMgr
    {
      Registry.State(connMgr.names, connMgr.conns, {}, map[], 0)
    }

    method HandleLoginRequest(conn: nat, name: string)
      modifies connMgr
      ensures connMgr.conns == old(connMgr.conns)[name := conn] && connMgr.names == old(connMgr.names)[conn := name]
    {
      connMgr.Add(name, conn, conn, View());
    }

    method OnDisconnect(conn: nat)
      modifies connMgr
      ensures var n := Registry.GetName(old(connMgr.names), conn);
        && connMgr.names == (if n == "" then old(connMgr.names) else old(connMgr.names) - {conn})
        && connMgr.conns == (if n == "" then old(connMgr.conns) else old(connMgr.conns) - {n})
    {
      connMgr.Del(conn, View());
    }

    method HandleMessage(conn: nat, m: Msg)
      modifies `outbox
      ensures outbox == old(outbox) + (match Route(connMgr.conns, conn, m) case None => [] case Some((q, m')) => [Sent(q, m')])
    {
      if m.Request? {
        HandleRpcRequest(conn, m);
      } else {
        HandleRpcResponse(m);
      }
    }

    method HandleRpcRequest(conn: nat, m: Msg)
      requires m.Request?
      modifies `outbox
      ensures outbox == old(outbox) +
        [if m.service in connMgr.conns then Sent(connMgr.conns[m.service], m) else Sent(conn, ResponseTo(m, NotOnline(m)))]
    {
      var to := connMgr.ConnOf(m.service, View());
      if to.None? {
        outbox := outbox + [Sent(conn, ResponseTo(m, NotOnline(m)))];
        return;
      }
      outbox := outbox + [Sent(to.value, m)];
    }

    method HandleRpcResponse(m: Msg)
      requires m.Response?
      modifies `outbox
      ensures outbox == old(outbox) + if m.requestor in connMgr.conns then [Sent(connMgr.conns[m.requestor], m)] else []
    {
      var to := connMgr.ConnOf(m.requestor, View());
      if to.None? {
        return;
      }
      outbox := outbox + [Sent(to.value, m)];
    }
  }

  class ServiceProvider {
    const name: string
    var functions: map<string, string -> Reply>
    /** `callback_map_`: the callback objects by their ids. */
    var callbacks: map<nat, nat>
    const taskMgr: RpcTasks.TaskMgr
    var outbox: seq<Msg>
    /** The callbacks that ran, with their results. */
    var ran: seq<Ran>

    constructor (name: string)
      ensures this.name == name && functions == map[] && callbacks == map[] && outbox == [] && ran == []
      ensures fresh(taskMgr) && taskMgr.Abs() == RpcTasks.Start
    {
      this.name := name;
      functions, callbacks, outbox, ran := map[], map[], [], [];
      taskMgr := new RpcTasks.TaskMgr();
    }

    /** The requests in the hands of the task thread and in its queue. */
    ghost function Queue(): multiset<Msg>
      reads taskMgr
    {
      multiset(taskMgr.tasks) + if taskMgr.runner.Executing? then multiset{taskMgr.runner.task} else multiset{}
    }

    /** Requests of that name are answered by `f` from now on, all others as before. */
    method Register(request: string, f: string -> Reply)
      modifies `functions
      ensures functions == old(functions)[request := f]
      ensures forall m: Msg :: Served(functions, m) == if m.name == request then f(m.body) else Served(old(functions), m)
    {
      functions := functions[request := f];
    }

    /** `Call`: `id` is the address of the new callback object. */
    method Call(service: string, request: string, body: string, callback: nat, id: nat)
      modifies `callbacks, `outbox
      ensures callbacks == old(callbacks)[id := callback]
      ensures outbox == old(outbox) + [Request(service, name, id, request, body)]
    {
      callbacks := callbacks[id := callback];
      outbox := outbox + [RequestOf(name, service, id, request, body)];
    }

    /** Requests for somebody else are ignored, the others queued for the task thread. */
    method HandleRpcRequest(m: Msg)
      requires m.Request?
      modifies taskMgr
      ensures Queue() == if m.service == name then old(Queue()) + multiset{m} else old(Queue())
      ensures taskMgr.Abs() == if m.service == name then RpcTasks.Pushed(old(taskMgr.Abs()), m) else old(taskMgr.Abs())
    {
      if m.service != name {
        return;
      }
      taskMgr.PushTask(m);
    }

    /** The task thread executes the request it has taken from the queue. */
    method RunTask()
      requires taskMgr.runner.Executing?
      modifies this`outbox, taskMgr
      ensures var m := old(taskMgr.runner).task;
        outbox == old(outbox) + [ResponseTo(m, Served(functions, m))] && Queue() == old(Queue()) - multiset{m}
      ensures taskMgr.Abs() == RpcTasks.Next(old(taskMgr.Abs()), RpcTasks.Finish)
    {
      var m := taskMgr.runner.task;
      var r;
      if m.name !in functions {
        r := NotProvided(m);
      } else {
        r := functions[m.name](m.body);
      }
      outbox := outbox + [ResponseTo(m, r)];
      taskMgr.Finish();
    }

    /** `GetCallbackFromId`. */
    method GetCallback(id: nat) returns (f: Option<nat>)
      ensures f == if id in callbacks then Some(callbacks[id]) else None
    {
      if id !in callbacks {
        return None;
      }
      return Some(callbacks[id]);
    }

    /** `RemoveCallbackFromId`. */
    method RemoveCallback(id: nat)
      modifies `callbacks
      ensures callbacks == old(callbacks) - {id}
    {
      callbacks := callbacks - {id};
    }

    method RunCallback(f: nat, m: Msg)
      modifies `ran
      ensures ran == old(ran) + [Ran(f, Reply(m.name, m.body))]
    {
      ran := ran + [Ran(f, Reply(m.name, m.body))];
    }
  }
}

/**
 * The UDP listener (`servers/udp.js`): its socket lifecycle, the sequential
 * registration of every module before the socket is bound, the
 * classification of socket errors, and the framing and dispatch of datagrams.
 */
module UdpServer {
  import opened Common
  import opened Framing
  import opened Emitter
  import opened Registrar

  /** The only command the listener routes: its `switch` has this one case. */
  const DispatchedCommand: string := "uppercase"

  datatype Endpoint = Endpoint(port: int, host: string)

  /** A datagram handed to the socket for sending. */
  datatype Datagram = Datagram(port: int, host: string, data: string)

  /** The socket handle: still null, open (bound to an endpoint or not yet), or closed. */
  datatype Socket = NoSocket | Open(boundTo: Option<Endpoint>) | Closed

  /** What `onError` does with a socket error: log it, or exit the process with the fatal exit code. */
  datatype ErrorOutcome = Logged(error: SocketError) | Exit(reason: Reason)

  /**
   * How a lifecycle call ends: it resolves, it throws to its caller, it exits
   * the process with the fatal exit code, or it never settles (the listening
   * event does not come; the socket error goes to `onError` instead).
   */
  datatype Outcome = Done | Thrown(message: string) | Exited(reason: Reason) | Hung(onError: ErrorOutcome)

  /** What the socket does after `bind` on an open, unbound socket. */
  datatype BindEvent = Listening | ErrorEvent(error: SocketError) | BindThrows(reason: Reason)

  datatype SendOutcome = Sent | SendFailed(reason: Reason)

  /** What a foreign module's `register(...)` hands back: a non-promise, a promise that resolves, or one that rejects (or it throws). */
  datatype RegisterResult = NotThenable | Settles | Rejects(reason: string)

  /**
   * A module of the application: one without `register`, a foreign one, or the UDP module.
   * A foreign module is reduced to what its `register` hands back; its side effects are not modelled.
   */
  datatype ModuleKind = NoRegister | Foreign(result: RegisterResult) | UdpEvents(instance: UdpModule)

  /** One `[name, module]` pair of the application's ordered module list. */
  datatype ModuleEntry = ModuleEntry(name: string, kind: ModuleKind)

  function NotInitialized(n: string): string
  {
    "Server " + n + " was not properly initialized"
  }

  function NotAPromise(m: string): string
  {
    "Module '" + m + "' register() did not return a Promise"
  }

  /** The error that ends registration at module `m`, if any. */
  function Failure(m: ModuleEntry): Option<Reason>
  {
    match m.kind
    case Foreign(NotThenable) => Some(Message(NotAPromise(m.name)))
    case Foreign(Rejects(r)) => Some(Message(r))
    case _ => None
  }

  /** The index of the first module whose registration fails, `|ms|` when none does. */
  function FirstFailure(ms: seq<ModuleEntry>): (k: nat)
    ensures k <= |ms|
    ensures forall j :: 0 <= j < k ==> Failure(ms[j]).None?
    ensures k < |ms| ==> Failure(ms[k]).Some?
  {
    if ms == [] then 0
    else if Failure(ms[0]).Some? then 0
    else 1 + FirstFailure(ms[1..])
  }

  /** The UDP module's `register` is async, so a list of such modules and well-behaved ones never fails. */
  lemma {:induction false} PromiseModulesNeverFail(ms: seq<ModuleEntry>)
    requires forall j :: 0 <= j < |ms| ==> ms[j].kind.UdpEvents? || ms[j].kind.NoRegister? || ms[j].kind == Foreign(Settles)
    ensures FirstFailure(ms) == |ms|
    decreases |ms|
  {
    if ms != [] {
      PromiseModulesNeverFail(ms[1..]);
    }
  }

  /** The names of the modules in `ms` that have a `register`, in list order. */
  function Registrants(ms: seq<ModuleEntry>): seq<string>
  {
    if ms == [] then []
    else
      var last := ms[|ms| - 1];
      Registrants(ms[..|ms| - 1]) + (if last.kind.NoRegister? then [] else [last.name])
  }

  /** The modules whose `register` is called when registration stops at index `k`: up to and including the failing one. */
  function Visited(ms: seq<ModuleEntry>, k: nat): seq<string>
    requires k <= |ms|
  {
    Registrants(ms[..if k < |ms| then k + 1 else k])
  }

  /** The listener table after the modules `ms` have registered, in order, with argument `arg`. */
  function Registered(table: Table, ms: seq<ModuleEntry>, arg: RegisterArg, registry: seq<Entry>): (t: Table)
    ensures forall n :: ListenersOf(table, n) <= ListenersOf(t, n)
  {
    if ms == [] then table
    else
      var t := Registered(table, ms[..|ms| - 1], arg, registry);
      if ms[|ms| - 1].kind.UdpEvents? then RegisterEffect(arg, registry, t) else t
  }

  /** Handed only a section name, no UDP module changes the listener table. */
  lemma {:induction false} RegisteredBySectionName(table: Table, ms: seq<ModuleEntry>, n: string, registry: seq<Entry>)
    ensures Registered(table, ms, SectionName(n), registry) == table
    decreases |ms|
  {
    if ms != [] {
      RegisteredBySectionName(table, ms[..|ms| - 1], n, registry);
    }
  }

  function UdpModuleCount(ms: seq<ModuleEntry>): nat
  {
    if ms == [] then 0
    else UdpModuleCount(ms[..|ms| - 1]) + (if ms[|ms| - 1].kind.UdpEvents? then 1 else 0)
  }

  /** Handed the UDP server, a module list holding the UDP module once subscribes the matching handlers once. */
  lemma {:induction false} RegisteredByServer(table: Table, ms: seq<ModuleEntry>, arg: RegisterArg, registry: seq<Entry>)
    requires ProvidesOf(arg) == Some(ServersUdp)
    ensures UdpModuleCount(ms) == 0 ==> Registered(table, ms, arg, registry) == table
    ensures UdpModuleCount(ms) == 1 ==> Registered(table, ms, arg, registry) == Subscribe(table, Matching(registry))
    decreases |ms|
  {
    if ms != [] {
      RegisteredByServer(table, ms[..|ms| - 1], arg, registry);
    }
  }

  /** One more module extends the registration by that module's own step. */
  lemma RegistrationStep(table: Table, ms: seq<ModuleEntry>, i: nat, arg: RegisterArg, registry: seq<Entry>)
    requires i < |ms|
    ensures Registrants(ms[..i + 1]) == Registrants(ms[..i]) + (if ms[i].kind.NoRegister? then [] else [ms[i].name])
    ensures Registered(table, ms[..i + 1], arg, registry) ==
      if ms[i].kind.UdpEvents? then RegisterEffect(arg, registry, Registered(table, ms[..i], arg, registry))
      else Registered(table, ms[..i], arg, registry)
  {
    assert ms[..i + 1][..i] == ms[..i];
  }

  /** The UDP module objects in the module list: what registration may change. */
  function ModuleObjects(ms: seq<ModuleEntry>): set<UdpModule>
  {
    set i | 0 <= i < |ms| && ms[i].kind.UdpEvents? :: ms[i].kind.instance
  }

  /** The same objects collected module by module, as the registration loop reaches them. */
  function Reached(ms: seq<ModuleEntry>): set<UdpModule>
  {
    if ms == [] then {}
    else
      var last := ms[|ms| - 1];
      Reached(ms[..|ms| - 1]) + (if last.kind.UdpEvents? then {last.kind.instance} else {})
  }

  /** One more module adds its UDP module object, if it has one. */
  lemma ReachedStep(ms: seq<ModuleEntry>, i: nat)
    requires i < |ms|
    ensures Reached(ms[..i + 1]) == Reached(ms[..i]) + (if ms[i].kind.UdpEvents? then {ms[i].kind.instance} else {})
  {
    assert ms[..i + 1][..i] == ms[..i];
  }

  /** Collecting module by module gives exactly the module objects of the list. */
  lemma {:induction false} ReachedIsModuleObjects(ms: seq<ModuleEntry>)
    ensures Reached(ms) == ModuleObjects(ms)
    decreases |ms|
  {
    if ms != [] {
      var init := ms[..|ms| - 1];
      ReachedIsModuleObjects(init);
      forall o | o in ModuleObjects(ms)
        ensures o in Reached(ms)
      {
        var j :| 0 <= j < |ms| && ms[j].kind.UdpEvents? && ms[j].kind.instance == o;
        if j < |ms| - 1 {
          assert init[j] == ms[j];
        }
      }
      forall o | o in Reached(ms)
        ensures o in ModuleObjects(ms)
      {
        if o in Reached(init) {
          var j :| 0 <= j < |init| && init[j].kind.UdpEvents? && init[j].kind.instance == o;
          assert ms[j] == init[j];
        }
      }
    }
  }

  /**
   * The UDP module `o` after registration has reached the objects `reached`:
   * a reached module handed the server holds the query result, an unreached
   * one still holds `before`.
   */
  ghost predicate ModuleAfter(o: UdpModule, reached: set<UdpModule>, arg: RegisterArg, registry: seq<Entry>, before: Option<seq<Entry>>)
    reads o
  {
    if o in reached then ProvidesOf(arg) == Some(ServersUdp) ==> o.events == Some(Matching(registry))
    else o.events == before
  }

  /** The per-object state after the loop, restated per list index for the modules before index `k`. */
  lemma ReachedCovers(ms: seq<ModuleEntry>, k: nat)
    requires k <= |ms|
    ensures Reached(ms[..k]) == ModuleObjects(ms[..k])
    ensures forall j :: 0 <= j < k && ms[j].kind.UdpEvents? ==> ms[j].kind.instance in Reached(ms[..k])
  {
    ReachedIsModuleObjects(ms[..k]);
    forall j | 0 <= j < k && ms[j].kind.UdpEvents?
      ensures ms[j].kind.instance in ModuleObjects(ms[..k])
    {
      assert ms[..k][j] == ms[j];
    }
  }

  /**
   * The bind phase of `start`: the socket, the listening flag and the outcome
   * after `once('listening')` and `bind(port, host)`, from the socket as it was.
   */
  predicate BindPhase(before: Socket, wasListening: bool, at: Endpoint, bind: BindEvent,
                      o: Outcome, after: Socket, nowListening: bool): (b: bool)
    ensures b && o != Done ==> after == before && nowListening == wasListening
    ensures b && o == Done ==> before == Open(None) && bind == Listening && after == Open(Some(at)) && nowListening
  {
    match before
    case NoSocket => o == Exited(NullSocket) && after == before && nowListening == wasListening
    case Closed => o == Exited(SocketNotRunning) && after == before && nowListening == wasListening
    case Open(Some(_)) => o == Exited(SocketAlreadyBound) && after == before && nowListening == wasListening
    case Open(None) =>
      match bind
      case Listening => o == Done && after == Open(Some(at)) && nowListening
      case ErrorEvent(e) => o == Hung(Udp.OnError(e)) && after == before && nowListening == wasListening
      case BindThrows(r) => o == Exited(r) && after == before && nowListening == wasListening
  }

  class Udp {
    /** The `EventEmitter` the server extends. */
    const emitter: EventEmitter
    /** `_name`: the configuration section passed to `init`. */
    var name: Option<string>
    /** `server`: the socket handle. */
    var socket: Socket
    /** `_listening`. */
    var listening: bool
    /** Every datagram handed to the socket by `send`, in order. */
    var outbox: seq<Datagram>

    /** The server only ever listens on an open socket. */
    ghost predicate Valid()
      reads this
    {
      listening ==> socket.Open?
    }

    constructor ()
      ensures Valid() && fresh(emitter)
      ensures name == None && socket == NoSocket && !listening && outbox == []
      ensures emitter.listeners == map[]
    {
      emitter := new EventEmitter();
      name := None;
      socket := NoSocket;
      listening := false;
      outbox := [];
    }

    /** `init(name)`: remember the section, then create the socket; a creation failure exits. */
    method Init(n: string, createError: Option<string>) returns (o: Outcome)
      requires Valid()
      modifies this
      ensures Valid()
      ensures name == Some(n) && listening == old(listening) && outbox == old(outbox)
      ensures createError.Some? ==> o == Exited(Message(createError.value)) && socket == old(socket)
      ensures createError.None? ==> o == Done && socket == Open(None)
    {
      name := Some(n);
      if createError.Some? {
        return Exited(Message(createError.value));
      }
      socket := Open(None);
      o := Done;
    }

    /**
     * One step of the registration fold: the module's `register(arg)`, if it
     * has one, and whether its result stops the fold.
     */
    method RegisterOne(m: ModuleEntry, arg: RegisterArg, registry: seq<Entry>) returns (failure: Option<Reason>)
      requires arg.ServerInstance? ==> arg.emitter == emitter
      modifies emitter, if m.kind.UdpEvents? then {m.kind.instance} else {}
      ensures failure == Failure(m)
      ensures emitter.listeners ==
        if m.kind.UdpEvents? then RegisterEffect(arg, registry, old(emitter.listeners)) else old(emitter.listeners)
      ensures m.kind.UdpEvents? && arg.SectionName? ==> unchanged(m.kind.instance)
      ensures m.kind.UdpEvents? && ProvidesOf(arg) == Some(ServersUdp) ==> m.kind.instance.events == Some(Matching(registry))
    {
      match m.kind {
        case NoRegister => failure := None;
        case Foreign(result) => failure := Failure(m);
        case UdpEvents(instance) =>
          instance.Register(arg, registry);
          failure := None;
      }
    }

    /**
     * The registration fold of `start`: each module in list order, each
     * `register(arg)` awaited before the next; modules without `register` are
     * skipped; the first failing module ends the fold.
     */
    method RegisterModules(ms: seq<ModuleEntry>, arg: RegisterArg, registry: seq<Entry>)
      returns (failure: Option<Reason>, ghost visited: seq<string>)
      requires arg.ServerInstance? ==> arg.emitter == emitter
      modifies emitter, ModuleObjects(ms)
      ensures failure == (if FirstFailure(ms) < |ms| then Failure(ms[FirstFailure(ms)]) else None)
      ensures visited == Visited(ms, FirstFailure(ms))
      ensures emitter.listeners == Registered(old(emitter.listeners), ms[..FirstFailure(ms)], arg, registry)
      ensures arg.SectionName? ==> unchanged(ModuleObjects(ms))
      ensures ProvidesOf(arg) == Some(ServersUdp) ==>
        forall j :: 0 <= j < FirstFailure(ms) && ms[j].kind.UdpEvents? ==> ms[j].kind.instance.events == Some(Matching(registry))
      ensures forall o :: o in ModuleObjects(ms) && o !in ModuleObjects(ms[..FirstFailure(ms)]) ==> o.events == old(o.events)
    {
      visited := [];
      var i := 0;
      while i < |ms|
        invariant 0 <= i <= |ms|
        invariant forall j :: 0 <= j < i ==> Failure(ms[j]).None?
        invariant visited == Registrants(ms[..i])
        invariant emitter.listeners == Registered(old(emitter.listeners), ms[..i], arg, registry)
        invariant arg.SectionName? ==> unchanged(ModuleObjects(ms))
        invariant forall o :: o in ModuleObjects(ms) ==> ModuleAfter(o, Reached(ms[..i]), arg, registry, old(o.events))
      {
        ReachedStep(ms, i);
        RegistrationStep(old(emitter.listeners), ms, i, arg, registry);
        var m := ms[i];
        if !m.kind.NoRegister? {
          visited := visited + [m.name];
        }
        assert m.kind.UdpEvents? ==> m.kind.instance in ModuleObjects(ms);
        label step:
        var f := RegisterOne(m, arg, registry);
        forall o | o in ModuleObjects(ms)
          ensures ModuleAfter(o, Reached(ms[..i + 1]), arg, registry, old(o.events))
        {
          if !(m.kind.UdpEvents? && o == m.kind.instance) {
            assert o.events == old@step(o.events);
          }
        }
        if f.Some? {
          ReachedCovers(ms, i);
          return f, visited;
        }
        i := i + 1;
      }
      ReachedCovers(ms, i);
      assert ms[..i] == ms;
      failure := None;
    }

    /** The bind phase of `start`. */
    method Listen(port: int, host: string, bind: BindEvent) returns (o: Outcome)
      requires Valid()
      modifies this
      ensures Valid()
      ensures name == old(name) && outbox == old(outbox)
      ensures BindPhase(old(socket), old(listening), Endpoint(port, host), bind, o, socket, listening)
    {
      match socket {
        case NoSocket => o := Exited(NullSocket);
        case Closed => o := Exited(SocketNotRunning);
        case Open(bound) =>
          if bound.Some? {
            o := Exited(SocketAlreadyBound);
          } else {
            match bind {
              case Listening =>
                socket := Open(Some(Endpoint(port, host)));
                listening := true;
                o := Done;
              case ErrorEvent(e) => o := Hung(OnError(e));
              case BindThrows(r) => o := Exited(r);
            }
          }
      }
    }

    /**
     * `start(name)`: a name other than the one given to `init` throws before
     * anything happens; otherwise every module registers, in order, with this
     * server, and only when all succeeded is the socket bound. A failed
     * registration exits the process instead. The port and host are the
     * configured `servers.<name>.port` and `servers.<name>.host`.
     */
    method Start(n: string, ms: seq<ModuleEntry>, registry: seq<Entry>, port: int, host: string, bind: BindEvent)
      returns (o: Outcome, ghost visited: seq<string>)
      requires Valid()
      modifies this, emitter, ModuleObjects(ms)
      ensures Valid()
      ensures name == old(name) && outbox == old(outbox)
      ensures old(name) != Some(n) ==>
        && o == Thrown(NotInitialized(n)) && visited == []
        && socket == old(socket) && listening == old(listening)
        && emitter.listeners == old(emitter.listeners)
        && unchanged(ModuleObjects(ms))
      ensures old(name) == Some(n) ==>
        && visited == Visited(ms, FirstFailure(ms))
        && emitter.listeners == Registered(old(emitter.listeners), ms[..FirstFailure(ms)], ServerInstance(ServersUdp, emitter), registry)
      ensures old(name) == Some(n) ==>
        forall j :: 0 <= j < FirstFailure(ms) && ms[j].kind.UdpEvents? ==> ms[j].kind.instance.events == Some(Matching(registry))
      ensures old(name) == Some(n) ==>
        forall o :: o in ModuleObjects(ms) && o !in ModuleObjects(ms[..FirstFailure(ms)]) ==> o.events == old(o.events)
      ensures old(name) == Some(n) && FirstFailure(ms) < |ms| ==>
        && o == Exited(Failure(ms[FirstFailure(ms)]).value)
        && socket == old(socket) && listening == old(listening)
      ensures old(name) == Some(n) && FirstFailure(ms) == |ms| ==>
        BindPhase(old(socket), old(listening), Endpoint(port, host), bind, o, socket, listening)
    {
      if name != Some(n) {
        return Thrown(NotInitialized(n)), [];
      }
      var failure;
      failure, visited := RegisterModules(ms, ServerInstance(ServersUdp, emitter), registry);
      if failure.Some? {
        return Exited(failure.value), visited;
      }
      o := Listen(port, host, bind);
    }

    /**
     * `start(name)` as the source writes it: every module's `register` is
     * handed the section name instead of the server, so no UDP module sees
     * the server and none of them changes the listener table.
     */
    method StartAsWritten(n: string, ms: seq<ModuleEntry>, registry: seq<Entry>, port: int, host: string, bind: BindEvent)
      returns (o: Outcome, ghost visited: seq<string>)
      requires Valid()
      modifies this, emitter, ModuleObjects(ms)
      ensures Valid()
      ensures name == old(name) && outbox == old(outbox)
      ensures emitter.listeners == old(emitter.listeners)
      ensures unchanged(ModuleObjects(ms))
      ensures old(name) != Some(n) ==>
        o == Thrown(NotInitialized(n)) && visited == [] && socket == old(socket) && listening == old(listening)
      ensures old(name) == Some(n) ==> visited == Visited(ms, FirstFailure(ms))
      ensures old(name) == Some(n) && FirstFailure(ms) < |ms| ==>
        o == Exited(Failure(ms[FirstFailure(ms)]).value) && socket == old(socket) && listening == old(listening)
      ensures old(name) == Some(n) && FirstFailure(ms) == |ms| ==>
        BindPhase(old(socket), old(listening), Endpoint(port, host), bind, o, socket, listening)
    {
      if name != Some(n) {
        return Thrown(NotInitialized(n)), [];
      }
      var failure;
      failure, visited := RegisterModules(ms, SectionName(n), registry);
      RegisteredBySectionName(old(emitter.listeners), ms[..FirstFailure(ms)], n, registry);
      if failure.Some? {
        return Exited(failure.value), visited;
      }
      o := Listen(port, host, bind);
    }

    /** `stop(name)`: same name check as `start`; closes the socket only while listening, so a second stop is a no-op. */
    method Stop(n: string) returns (o: Outcome)
      requires Valid()
      modifies this
      ensures Valid()
      ensures old(name) != Some(n) ==> o == Thrown(NotInitialized(n)) && unchanged(this)
      ensures old(name) == Some(n) && !old(listening) ==> o == Done && unchanged(this)
      ensures old(name) == Some(n) && old(listening) ==>
        && o == Done && socket == Closed && !listening
        && name == old(name) && outbox == old(outbox)
    {
      if name != Some(n) {
        return Thrown(NotInitialized(n));
      }
      if listening {
        socket := Closed;
        listening := false;
      }
      o := Done;
    }

    /** `send(port, host, data)`: one datagram to the socket; a null or closed socket throws. */
    method Send(port: int, host: string, data: string) returns (r: SendOutcome)
      modifies this
      ensures name == old(name) && socket == old(socket) && listening == old(listening)
      ensures old(Valid()) && old(listening) ==> r == Sent
      ensures old(socket).Open? ==> r == Sent && outbox == old(outbox) + [Datagram(port, host, data)]
      ensures old(socket) == NoSocket ==> r == SendFailed(NullSocket) && outbox == old(outbox)
      ensures old(socket) == Closed ==> r == SendFailed(SocketNotRunning) && outbox == old(outbox)
    {
      match socket {
        case NoSocket => r := SendFailed(NullSocket);
        case Closed => r := SendFailed(SocketNotRunning);
        case Open(_) =>
          outbox := outbox + [Datagram(port, host, data)];
          r := Sent;
      }
    }

    /**
     * `onError(error)`: errors of any system call but `listen` are only
     * logged; `listen` errors exit, with a fixed message for `EACCES` and
     * `EADDRINUSE` and with the error itself otherwise.
     */
    static function OnError(e: SocketError): (o: ErrorOutcome)
      ensures o.Logged? <==> e.syscall != "listen"
      ensures o.Logged? ==> o.error == e
      ensures e.syscall == "listen" && e.code == "EACCES" ==> o == Exit(Message("Could not bind to UDP port"))
      ensures e.syscall == "listen" && e.code == "EADDRINUSE" ==> o == Exit(Message("UDP port is already in use"))
      ensures e.syscall == "listen" && e.code != "EACCES" && e.code != "EADDRINUSE" ==> o == Exit(SocketFailure(e))
    {
      if e.syscall != "listen" then Logged(e)
      else if e.code == "EACCES" then Exit(Message("Could not bind to UDP port"))
      else if e.code == "EADDRINUSE" then Exit(Message("UDP port is already in use"))
      else Exit(SocketFailure(e))
    }

    /**
     * `onMessage(data, info)`: an empty datagram is dropped; otherwise the
     * text is split on single spaces, the first piece is the command and the
     * rest, re-joined, the payload. Only `uppercase` is emitted: every
     * listener subscribed under it is called once, in order, with the sender
     * and the payload.
     */
    method OnMessage(data: string, info: RemoteInfo) returns (calls: seq<Call>)
      ensures |data| == 0 ==> calls == []
      ensures |data| > 0 && Command(data) != DispatchedCommand ==> calls == []
      ensures |data| > 0 && Command(data) == DispatchedCommand ==>
        calls == Calls(ListenersOf(emitter.listeners, DispatchedCommand), info, Payload(data))
    {
      if |data| == 0 {
        return [];
      }
      var params := Split(data);
      var command := params[0];
      params := params[1..];
      SplitGivesCommandAndPayload(data);
      if command == DispatchedCommand {
        calls := Calls(ListenersOf(emitter.listeners, DispatchedCommand), info, Join(params));
      } else {
        calls := [];
      }
    }
  }
}

/**
 * Whole-system runs of the listener, the UDP module and the `uppercase`
 * handler, put together as the application composes them.
 */
module Scenarios {
  import opened Common
  import opened Framing
  import opened Ascii
  import opened Emitter
  import opened Registrar
  import opened UdpServer
  import opened BaseEvents
  import opened UppercaseEvent

  /** The registry the application holds: the `uppercase` handler under its key. */
  function HandlerRegistry(): seq<Entry>
  {
    [Entry(EventKey, EventName)]
  }

  lemma HandlerRegistryMatches()
    ensures Matching(HandlerRegistry()) == HandlerRegistry()
  {
    KeyMatchesEventPattern();
  }

  lemma UppercaseHelloWorld()
    ensures ToUpper("hello world") == "HELLO WORLD"
  {
    var s := "hello world";
    ToUpperShape(s);
    assert forall i :: 0 <= i < |s| ==> ToUpper(s)[i] == "HELLO WORLD"[i];
  }

  lemma FrameUppercaseHelloWorld()
    ensures Command("uppercase hello world") == DispatchedCommand
    ensures Payload("uppercase hello world") == "hello world"
  {
    assert "uppercase hello world" == "uppercase" + [Space] + "hello world";
    FrameWordAndPayload("uppercase", "hello world");
  }

  /** The application's start-up: one UDP module, the handler registry, and a bind that succeeds. */
  method StartWithUppercase(port: int, host: string) returns (server: Udp, handler: Uppercase)
    ensures fresh(server) && fresh(server.emitter) && fresh(handler) && fresh(handler.base)
    ensures server.Valid() && server.listening && server.socket == Open(Some(Endpoint(port, host)))
    ensures server.outbox == [] && handler.base.cached == None
    ensures ListenersOf(server.emitter.listeners, DispatchedCommand) == [Listener(EventKey)]
  {
    server := new Udp();
    handler := new Uppercase();
    var udpModule := new UdpModule();
    var ms := [ModuleEntry("udp", UdpEvents(udpModule))];

    var o := server.Init("udp", None);
    assert UdpModuleCount(ms) == 1 by {
      assert ms[..0] == [];
    }
    PromiseModulesNeverFail(ms);
    assert ms[..1] == ms;
    RegisteredByServer(map[], ms, ServerInstance(ServersUdp, server.emitter), HandlerRegistry());
    HandlerRegistryMatches();
    ghost var visited;
    o, visited := server.Start("udp", ms, HandlerRegistry(), port, host, Listening);
    assert [Entry(EventKey, EventName)][..0] == [];
  }

  /** One `uppercase <payload>` datagram from `info`, dispatched by the listener and handled. */
  method ServeUppercase(server: Udp, handler: Uppercase, info: RemoteInfo, payload: string)
    requires server.Valid() && server.socket.Open?
    requires ListenersOf(server.emitter.listeners, DispatchedCommand) == [Listener(EventKey)]
    requires handler.base.cached == None || handler.base.cached == Some(server)
    modifies server, handler.base
    ensures server.Valid() && server.socket == old(server.socket) && server.listening == old(server.listening)
    ensures server.emitter.listeners == old(server.emitter.listeners)
    ensures handler.base.cached == Some(server)
    ensures server.outbox == old(server.outbox) + [Datagram(info.port, info.address, ToUpper(payload))]
  {
    var data := DispatchedCommand + [Space] + payload;
    FrameWordAndPayload(DispatchedCommand, payload);
    var calls := server.OnMessage(data, info);
    assert calls == [Call(Listener(EventKey), info, payload)];
    var h := handler.Handle(calls[0].info, calls[0].payload, map["udp" := server]);
  }

  /**
   * Two senders each send `uppercase hello world` to a started server; each
   * gets exactly one reply, `HELLO WORLD`, at its own address and port.
   */
  method TwoSendersGetTheirOwnReplies(a1: string, p1: int, a2: string, p2: int, port: int, host: string)
    returns (replies: seq<Datagram>)
    ensures replies == [Datagram(p1, a1, "HELLO WORLD"), Datagram(p2, a2, "HELLO WORLD")]
  {
    var server, handler := StartWithUppercase(port, host);
    ServeUppercase(server, handler, RemoteInfo(a1, p1), "hello world");
    ServeUppercase(server, handler, RemoteInfo(a2, p2), "hello world");
    UppercaseHelloWorld();
    replies := server.outbox;
  }

  /**
   * The same run against `start` as the source writes it: the UDP module is
   * handed the section name, subscribes nothing, and the datagram reaches no
   * handler, so no reply is ever sent.
   */
  method AsWrittenUppercaseIsNeverHandled(a: string, p: int, port: int, host: string)
    returns (calls: seq<Call>, listening: bool)
    ensures listening
    ensures calls == []
  {
    var server := new Udp();
    var udpModule := new UdpModule();
    var ms := [ModuleEntry("udp", UdpEvents(udpModule))];

    var o := server.Init("udp", None);
    PromiseModulesNeverFail(ms);
    ghost var visited;
    o, visited := server.StartAsWritten("udp", ms, HandlerRegistry(), port, host, Listening);
    listening := server.listening;
    FrameUppercaseHelloWorld();
    calls := server.OnMessage("uppercase hello world", RemoteInfo(a, p));
  }

  /**
   * A module whose `register` returns no promise ends the start: the process
   * exits, later modules are never called, nothing is bound and the server
   * does not listen.
   */
  method NonPromiseRegistrationExits(port: int, host: string)
    returns (o: Outcome, listening: bool, socket: Socket, subscribed: seq<Listener>)
    ensures o == Exited(Message(NotAPromise("legacy")))
    ensures !listening && socket == Open(None) && subscribed == []
  {
    var server := new Udp();
    var udpModule := new UdpModule();
    var ms := [ModuleEntry("legacy", Foreign(NotThenable)), ModuleEntry("udp", UdpEvents(udpModule))];

    o := server.Init("udp", None);
    assert FirstFailure(ms) == 0;
    assert ms[..0] == [];
    ghost var visited;
    o, visited := server.Start("udp", ms, HandlerRegistry(), port, host, Listening);
    RegistrationStep(map[], ms, 0, ServerInstance(ServersUdp, server.emitter), HandlerRegistry());
    assert visited == ["legacy"];
    listening, socket := server.listening, server.socket;
    subscribed := ListenersOf(server.emitter.listeners, DispatchedCommand);
  }

  /** A second `stop` does nothing and reports the same outcome as the first. */
  method StopTwice(s: Udp, n: string) returns (first: Outcome, second: Outcome)
    requires s.Valid()
    modifies s
    ensures s.Valid()
    ensures first == second
    ensures old(s.name) == Some(n) ==> !s.listening
    ensures old(s.name) != Some(n) || !old(s.listening) ==> unchanged(s)
    ensures old(s.name) == Some(n) && old(s.listening) ==>
      && s.socket == Closed && s.name == old(s.name) && s.outbox == old(s.outbox)
  {
    first := s.Stop(n);
    label once:
    second := s.Stop(n);
    assert unchanged@once(s);
  }

  /** Once the getter has found a server, later calls return that server and look nothing up. */
  method CachedServerIsKept<S>(b: BaseEvent<S>, before: map<string, S>, after: map<string, S>)
    returns (u1: Option<S>, u2: Option<S>)
    modifies b
    ensures u1.Some? ==> u2 == u1
    ensures u1.Some? ==> b.lookups == old(b.lookups) + (if old(b.cached).None? then 1 else 0)
    ensures u1.None? ==> u2 == Lookup(after, "udp") && b.lookups == old(b.lookups) + 2
  {
    u1 := b.Udp(before);
    u2 := b.Udp(after);
  }
}

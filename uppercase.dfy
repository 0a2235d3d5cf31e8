/** The `uppercase` command handler (`events/uppercase.js`). */
module UppercaseEvent {
  import opened Common
  import opened Ascii
  import opened BaseEvents
  import opened UdpServer
  import opened Registrar

  /** The command the handler subscribes under (its `name` getter). */
  const EventName: string := "uppercase"

  /** The registry key the handler is provided under (its static `provides` getter). */
  const EventKey: string := "udp.events.uppercase"

  /** The handler's key satisfies the registrar's query, so the registrar finds it. */
  lemma KeyMatchesEventPattern()
    ensures MatchesEventPattern(EventKey)
  {
    assert EventKey == EventPrefix + "uppercase";
    assert EventKey[..|EventPrefix|] == EventPrefix;
  }

  /** The handler's name is the one command the listener emits. */
  lemma NameIsDispatchedCommand()
    ensures EventName == DispatchedCommand
  {
  }

  /** How `handle` ends: it always completes; a failure on the way is logged and swallowed. */
  datatype HandleOutcome = Replied | Swallowed(reason: Reason)

  class Uppercase {
    /** The `BaseEvent` part: the cached UDP server. */
    const base: BaseEvent<Udp>

    constructor ()
      ensures fresh(base) && base.cached == None && base.lookups == 0
    {
      base := new BaseEvent<Udp>();
    }

    /** The server `handle` will reply through, as a frame. */
    function Target(servers: map<string, Udp>): set<Udp>
      reads base
    {
      match base.Resolve(servers)
      case None => {}
      case Some(s) => {s}
    }

    /**
     * `handle(info, message)`: send one datagram, the uppercased message, to
     * the sender's port and address through the `udp` server. No server, or a
     * socket that refuses to send, ends in a logged error, never a throw.
     */
    method Handle(info: RemoteInfo, message: string, servers: map<string, Udp>) returns (o: HandleOutcome)
      modifies base, Target(servers)
      ensures base.cached == old(base.Resolve(servers))
      ensures base.lookups == old(base.lookups) + (if old(base.cached).None? then 1 else 0)
      ensures old(base.Resolve(servers)).None? ==> o == Swallowed(MissingServer)
      ensures old(base.Resolve(servers)).Some? ==>
        var s := old(base.Resolve(servers)).value;
        && s.name == old(s.name) && s.socket == old(s.socket) && s.listening == old(s.listening)
        && (old(s.socket).Open? ==> o == Replied && s.outbox == old(s.outbox) + [Datagram(info.port, info.address, ToUpper(message))])
        && (old(s.socket) == NoSocket ==> o == Swallowed(NullSocket) && s.outbox == old(s.outbox))
        && (old(s.socket) == Closed ==> o == Swallowed(SocketNotRunning) && s.outbox == old(s.outbox))
    {
      var server := base.Udp(servers);
      if server.None? {
        return Swallowed(MissingServer);
      }
      var sent := server.value.Send(info.port, info.address, ToUpper(message));
      o := if sent.Sent? then Replied else Swallowed(sent.reason);
    }
  }
}

/**
 * The UDP module's `register(server)`: when handed the UDP server, it looks up
 * every command handler in the registry and subscribes each handler's `handle`
 * under the handler's name.
 */
module Registrar {
  import opened Common
  import opened Emitter

  /** What the UDP server class provides. */
  const ServersUdp: string := "servers.udp"

  /** The literal part of the registry query `/^udp\.events\..+$/`. */
  const EventPrefix: string := "udp.events."

  /** A registry entry: the key a handler is provided under, and its `name`. */
  datatype Entry = Entry(key: string, name: string)

  /**
   * What `register` receives: a configuration section name (a string, whose
   * constructor `String` provides nothing) or a server instance, whose class
   * provides `serves` and whose listener table is `emitter`.
   */
  datatype RegisterArg =
    | SectionName(section: string)
    | ServerInstance(serves: string, emitter: EventEmitter)

  /** `server.constructor.provides`. */
  function ProvidesOf(arg: RegisterArg): Option<string>
  {
    match arg
    case SectionName(_) => None
    case ServerInstance(p, _) => Some(p)
  }

  /** The listener tables `register` may write. */
  function EmitterOf(arg: RegisterArg): set<EventEmitter>
  {
    match arg
    case SectionName(_) => {}
    case ServerInstance(_, e) => {e}
  }

  /** The characters that JavaScript's `.` does not match. */
  predicate IsLineTerminator(c: char)
  {
    c == '\n' || c == '\r' || c == '\U{2028}' || c == '\U{2029}'
  }

  /** `/^udp\.events\..+$/.test(key)`: the prefix, then one or more characters other than line terminators. */
  predicate MatchesEventPattern(key: string): (b: bool)
    ensures b ==> EventPrefix < key
    ensures b ==> forall i :: |EventPrefix| <= i < |key| ==> key[i] != '\n'
  {
    && |key| > |EventPrefix|
    && key[..|EventPrefix|] == EventPrefix
    && forall i :: |EventPrefix| <= i < |key| ==> !IsLineTerminator(key[i])
  }

  /** The registry query: the matching entries, in registry order. */
  function Matching(registry: seq<Entry>): (r: seq<Entry>)
    ensures |r| <= |registry|
    ensures forall e :: e in r <==> e in registry && MatchesEventPattern(e.key)
  {
    if registry == [] then []
    else
      var rest := Matching(registry[1..]);
      assert registry == [registry[0]] + registry[1..];
      if MatchesEventPattern(registry[0].key) then [registry[0]] + rest else rest
  }

  /** Order and duplicates: the query over two registry slices is the query over each, one after the other. */
  lemma {:induction false} MatchingAppend(a: seq<Entry>, b: seq<Entry>)
    ensures Matching(a + b) == Matching(a) + Matching(b)
    decreases |a|
  {
    if a == [] {
      assert a + b == b;
    } else {
      assert (a + b)[0] == a[0];
      assert (a + b)[1..] == a[1..] + b;
      MatchingAppend(a[1..], b);
    }
  }

  /** A registry all of whose keys match is returned whole, in its own order and with its duplicates. */
  lemma {:induction false} MatchingAll(registry: seq<Entry>)
    requires forall i :: 0 <= i < |registry| ==> MatchesEventPattern(registry[i].key)
    ensures Matching(registry) == registry
    decreases |registry|
  {
    if registry != [] {
      MatchingAll(registry[1..]);
      assert [registry[0]] + registry[1..] == registry;
    }
  }

  /** The table after subscribing, in order, one listener per entry under the entry's name. */
  function Subscribe(table: Table, es: seq<Entry>): (t: Table)
    ensures forall n :: ListenersOf(table, n) <= ListenersOf(t, n)
  {
    if es == [] then table
    else
      var last := es[|es| - 1];
      Subscribed(Subscribe(table, es[..|es| - 1]), last.name, Listener(last.key))
  }

  /** The listeners subscribing `es` adds under `name`: one per entry of that name, in order, duplicates kept. */
  function SubscribedUnder(es: seq<Entry>, name: string): seq<Listener>
  {
    if es == [] then []
    else
      var last := es[|es| - 1];
      SubscribedUnder(es[..|es| - 1], name) + (if last.name == name then [Listener(last.key)] else [])
  }

  /** Subscribing appends exactly `SubscribedUnder(es, n)` to the listeners of every name `n`. */
  lemma {:induction false} SubscribeAppends(table: Table, es: seq<Entry>, n: string)
    ensures ListenersOf(Subscribe(table, es), n) == ListenersOf(table, n) + SubscribedUnder(es, n)
    decreases |es|
  {
    if es != [] {
      SubscribeAppends(table, es[..|es| - 1], n);
    }
  }

  /** A name no entry carries gets no subscription. */
  lemma {:induction false} SubscribedUnderOtherName(es: seq<Entry>, n: string)
    requires forall i :: 0 <= i < |es| ==> es[i].name != n
    ensures SubscribedUnder(es, n) == []
    decreases |es|
  {
    if es != [] {
      SubscribedUnderOtherName(es[..|es| - 1], n);
    }
  }

  /** A name every entry carries gets one subscription per entry, so duplicates are not merged. */
  lemma {:induction false} SubscribedUnderSameName(es: seq<Entry>, n: string)
    requires forall i :: 0 <= i < |es| ==> es[i].name == n
    ensures |SubscribedUnder(es, n)| == |es|
    ensures forall i :: 0 <= i < |es| ==> SubscribedUnder(es, n)[i] == Listener(es[i].key)
    decreases |es|
  {
    if es != [] {
      SubscribedUnderSameName(es[..|es| - 1], n);
    }
  }

  /** The effect of `register(arg)` on the listener table it is given. */
  function RegisterEffect(arg: RegisterArg, registry: seq<Entry>, table: Table): Table
  {
    if ProvidesOf(arg) == Some(ServersUdp) then Subscribe(table, Matching(registry)) else table
  }

  /** The UDP module object; `events` is the result of its last registry query. */
  class UdpModule {
    var events: Option<seq<Entry>>

    constructor ()
      ensures events == None
    {
      events := None;
    }

    /**
     * `register(server)`. It is an async function, so it always hands back a
     * promise; it ignores anything but the UDP server.
     */
    method Register(arg: RegisterArg, registry: seq<Entry>)
      modifies this, EmitterOf(arg)
      ensures ProvidesOf(arg) != Some(ServersUdp) ==> unchanged(this) && unchanged(EmitterOf(arg))
      ensures ProvidesOf(arg) == Some(ServersUdp) ==>
        && events == Some(Matching(registry))
        && arg.emitter.listeners == Subscribe(old(arg.emitter.listeners), Matching(registry))
    {
      if ProvidesOf(arg) != Some(ServersUdp) {
        return;
      }
      var found := Matching(registry);
      events := Some(found);
      var server := arg.emitter;
      for i := 0 to |found|
        invariant events == Some(found)
        invariant server.listeners == Subscribe(old(server.listeners), found[..i])
      {
        assert found[..i + 1][..i] == found[..i];
        server.On(found[i].name, Listener(found[i].key));
      }
      assert found[..|found|] == found;
    }
  }
}

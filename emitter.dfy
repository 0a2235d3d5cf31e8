/**
 * The event-emitter half of the listener (`class Udp extends EventEmitter`):
 * a table from event name to the ordered list of subscribed listeners.
 */
module Emitter {
  import opened Common

  /** A subscribed listener: the bound `handle` of the handler registered under key `handler`. */
  datatype Listener = Listener(handler: string)

  /** One listener invocation made by `emit`: the listener and the arguments it receives. */
  datatype Call = Call(listener: Listener, info: RemoteInfo, payload: string)

  type Table = map<string, seq<Listener>>

  /** The listeners of `event`, in subscription order; none when nothing was ever subscribed. */
  function ListenersOf(table: Table, event: string): seq<Listener>
  {
    if event in table then table[event] else []
  }

  /** The table after `on(event, l)`: `l` is appended under `event`, every other event keeps its list. */
  function Subscribed(table: Table, event: string, l: Listener): (t: Table)
    ensures ListenersOf(t, event) == ListenersOf(table, event) + [l]
    ensures forall other :: other != event ==> ListenersOf(t, other) == ListenersOf(table, other)
  {
    table[event := ListenersOf(table, event) + [l]]
  }

  /** The invocations `emit(event, info, payload)` makes: each listener once, in order, with the same arguments. */
  function Calls(ls: seq<Listener>, info: RemoteInfo, payload: string): (cs: seq<Call>)
    ensures |cs| == |ls|
    ensures forall i :: 0 <= i < |ls| ==> cs[i] == Call(ls[i], info, payload)
  {
    if ls == [] then [] else [Call(ls[0], info, payload)] + Calls(ls[1..], info, payload)
  }

  class EventEmitter {
    var listeners: Table

    constructor ()
      ensures listeners == map[]
    {
      listeners := map[];
    }

    /** `on(event, l)`: subscribe one more listener; duplicates are kept. */
    method On(event: string, l: Listener)
      modifies this
      ensures listeners == Subscribed(old(listeners), event, l)
    {
      listeners := Subscribed(listeners, event, l);
    }
  }
}

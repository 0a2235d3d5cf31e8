/** The base class of the command handlers (`events/base.js`): a lazily filled server reference. */
module BaseEvents {
  import opened Common

  /** `app.get('servers').get(key)`: the server registered under `key`, undefined when there is none. */
  function Lookup<S>(servers: map<string, S>, key: string): Option<S>
  {
    if key in servers then Some(servers[key]) else None
  }

  class BaseEvent<S> {
    /** `_udp`: unset (or undefined) until a lookup finds a server. */
    var cached: Option<S>
    /** How many times the getter has consulted the server map. */
    ghost var lookups: nat

    constructor ()
      ensures cached == None && lookups == 0
    {
      cached := None;
      lookups := 0;
    }

    /** What the `udp` getter will return given the server map. */
    function Resolve(servers: map<string, S>): Option<S>
      reads this
    {
      if cached.Some? then cached else Lookup(servers, "udp")
    }

    /**
     * The `udp` getter: a cached server is returned without a lookup;
     * otherwise the one lookup's result is stored and returned. An undefined
     * result leaves the cache empty, so the next call looks again.
     */
    method Udp(servers: map<string, S>) returns (u: Option<S>)
      modifies this
      ensures old(cached).Some? ==> u == old(cached) && lookups == old(lookups)
      ensures old(cached).None? ==> u == Lookup(servers, "udp") && lookups == old(lookups) + 1
      ensures cached == u
    {
      if cached.Some? {
        return cached;
      }
      cached := Lookup(servers, "udp");
      lookups := lookups + 1;
      u := cached;
    }
  }
}

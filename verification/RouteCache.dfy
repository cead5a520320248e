/**
 * The service registry and the route cache of a registry client
 * (python/callwire/registry.py:6-22, python/callwire/client.py:208-231, rust/src/client.rs:246-285).
 *
 * Resolving a function is not atomic: a thread asks the registry, registrations go on, other
 * threads resolve the same function, and only then is the answer stored in the cache.
 */
module RouteCache {
  import opened Bytes

  datatype Registration = Registration(name: string, addr: string)

  /** The addresses registered under a name: in order of first registration, each once. */
  function Addresses(log: seq<Registration>, name: string): seq<string> {
    if log == [] then []
    else
      var before := Addresses(log[..|log| - 1], name);
      var r := log[|log| - 1];
      if r.name == name && r.addr !in before then before + [r.addr] else before
  }

  function AfterOne(log: seq<Registration>, r: Registration, name: string): seq<string> {
    var before := Addresses(log, name);
    if r.name == name && r.addr !in before then before + [r.addr] else before
  }

  lemma {:induction false} AddressesAppend(log: seq<Registration>, r: Registration, name: string)
    ensures Addresses(log + [r], name) == AfterOne(log, r, name)
  {
    assert (log + [r])[..|log|] == log;
  }

  /** Where calls to a function go: the first address. */
  function Route(log: seq<Registration>, name: string): Option<string> {
    var a := Addresses(log, name);
    if a == [] then None else Some(a[0])
  }

  /** Registration only appends: what was registered stays, in the same place. */
  lemma {:induction false} AddressesGrow(log: seq<Registration>, more: seq<Registration>, name: string)
    ensures Addresses(log, name) <= Addresses(log + more, name)
    decreases |more|
  {
    if more == [] {
      assert log + more == log;
    } else {
      var front := more[..|more| - 1];
      assert (log + more)[..|log + more| - 1] == log + front;
      AddressesGrow(log, front, name);
    }
  }

  lemma {:induction false} RouteIsStable(log: seq<Registration>, more: seq<Registration>, name: string)
    requires Route(log, name).Some?
    ensures Route(log + more, name) == Route(log, name)
  {
    AddressesGrow(log, more, name);
  }

  /** Each address once, and exactly those that were registered. */
  lemma {:induction false} AddressesDistinct(log: seq<Registration>, name: string)
    ensures forall i, j :: 0 <= i < j < |Addresses(log, name)| ==> Addresses(log, name)[i] != Addresses(log, name)[j]
    ensures forall addr :: addr in Addresses(log, name) <==> Registration(name, addr) in log
  {
    if log != [] {
      var front, r := log[..|log| - 1], log[|log| - 1];
      AddressesDistinct(front, name);
      assert log == front + [r];
    }
  }

  /** `RegistryServer`. */
  class Registry {
    var services: map<string, seq<string>>
    ghost var log: seq<Registration>

    ghost predicate Valid()
      reads this
    {
      && (forall n :: n in services ==> services[n] == Addresses(log, n))
      && (forall n :: n !in services ==> Addresses(log, n) == [])
    }

    constructor ()
      ensures Valid() && log == []
    {
      services, log := map[], [];
    }

    method Register(name: string, addr: string)
      requires Valid()
      modifies this
      ensures Valid() && log == old(log) + [Registration(name, addr)]
    {
      hide Addresses;
      var r := Registration(name, addr);
      forall n ensures Addresses(log + [r], n) == AfterOne(log, r, n) {
        AddressesAppend(log, r, n);
      }
      var addrs := if name in services then services[name] else [];
      if addr !in addrs {
        addrs := addrs + [addr];
      }
      services := services[name := addrs];
      log := log + [r];
    }

    /** An unknown name is an error; so is a known one with no address. */
    method Discover(name: string) returns (addrs: Option<seq<string>>)
      requires Valid()
      ensures addrs == if Addresses(log, name) == [] then None else Some(Addresses(log, name))
    {
      if name !in services || services[name] == [] {
        return None;
      }
      return Some(services[name]);
    }
  }

  predicate Internal(func: string) {
    "callwire." <= func
  }

  /** The threads of one client; `Ask` and `Store` are the two halves of one resolution. */
  datatype Event = Register(name: string, addr: string) | Ask(thread: nat, func: string) | Store(thread: nat)

  /** A thread's answer, between asking and storing. */
  datatype Answer = Answer(func: string, addr: string)

  class RoutingClient {
    const registry: Registry
    var routeCache: map<string, string>
    var asked: map<nat, Answer>

    /** The cache and every answer under way agree with what the registry would say now. */
    ghost predicate Valid()
      reads this, registry
    {
      && registry.Valid()
      && (forall f :: f in routeCache ==> Route(registry.log, f) == Some(routeCache[f]) && !Internal(f))
      && (forall t :: t in asked ==> Route(registry.log, asked[t].func) == Some(asked[t].addr) && !Internal(asked[t].func))
    }

    constructor (registry: Registry)
      requires registry.Valid()
      ensures Valid() && this.registry == registry && routeCache == map[] && asked == map[]
    {
      this.registry := registry;
      routeCache, asked := map[], map[];
    }

    /** Somebody registers a service. */
    method Registered(name: string, addr: string)
      requires Valid()
      modifies registry
      ensures Valid() && registry.log == old(registry.log) + [Registration(name, addr)]
    {
      forall f | Route(registry.log, f).Some?
        ensures Route(registry.log + [Registration(name, addr)], f) == Route(registry.log, f)
      {
        RouteIsStable(registry.log, [Registration(name, addr)], f);
      }
      hide Route, Registry.Valid;
      registry.Register(name, addr);
    }

    /**
     * The first half of a resolution: a cached address is returned at once, unless it is the
     * empty string; otherwise the registry is asked. Internal functions are not routed.
     */
    method Ask(thread: nat, func: string) returns (hit: Option<string>)
      requires Valid()
      modifies `asked
      ensures Valid()
      ensures hit.Some? ==> hit == Route(registry.log, func) && !Internal(func)
      ensures hit.None? && thread in asked && thread !in old(asked) ==>
        Some(asked[thread].addr) == Route(registry.log, func) && asked[thread].func == func
      ensures !Internal(func) && Route(registry.log, func).Some? ==> hit.Some? || thread in asked
      ensures Internal(func) || Route(registry.log, func).None? ==> hit.None? && asked == old(asked)
    {
      hit := None;
      if "callwire." <= func {
        return;
      }
      if func in routeCache && routeCache[func] != "" {
        return Some(routeCache[func]);
      }
      var addrs := registry.Discover(func);
      if addrs.Some? {
        asked := asked[thread := Answer(func, addrs.value[0])];
      }
    }

    /** The second half: the answer goes into the cache. */
    method Store(thread: nat) returns (addr: string)
      requires Valid() && thread in asked
      modifies `asked, `routeCache
      ensures Valid() && Some(addr) == Route(registry.log, old(asked)[thread].func)
      ensures routeCache == old(routeCache)[old(asked)[thread].func := addr] && asked == old(asked) - {thread}
    {
      addr := asked[thread].addr;
      routeCache := routeCache[asked[thread].func := addr];
      asked := asked - {thread};
    }

    /**
     * Every interleaving of registrations and resolutions. Each address a thread is given is
     * recorded with the function it was given for.
     */
    method Run(events: seq<Event>) returns (given: seq<Answer>)
      requires Valid()
      modifies this, registry
      ensures Valid() && old(registry.log) <= registry.log
      ensures forall i :: 0 <= i < |given| ==> Route(registry.log, given[i].func) == Some(given[i].addr)
      ensures forall f :: f in routeCache ==> Route(registry.log, f) == Some(routeCache[f])
    {
      given := [];
      var i := 0;
      while i < |events|
        invariant 0 <= i <= |events| && Valid() && old(registry.log) <= registry.log
        invariant forall k :: 0 <= k < |given| ==> Route(registry.log, given[k].func) == Some(given[k].addr)
      {
        match events[i] {
          case Register(name, addr) =>
            forall k | 0 <= k < |given|
              ensures Route(registry.log + [Registration(name, addr)], given[k].func) == Some(given[k].addr)
            {
              RouteIsStable(registry.log, [Registration(name, addr)], given[k].func);
            }
            Registered(name, addr);
          case Ask(thread, func) =>
            if thread !in asked {
              var hit := Ask(thread, func);
              if hit.Some? { given := given + [Answer(func, hit.value)]; }
            }
          case Store(thread) =>
            if thread in asked {
              var func := asked[thread].func;
              var addr := Store(thread);
              given := given + [Answer(func, addr)];
            }
        }
        i := i + 1;
      }
    }
  }
}

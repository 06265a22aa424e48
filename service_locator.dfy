/**
 * The module SDK's service locator: a table from service keys to services,
 * filled by `RegisterService` and read by `GetService`.
 *
 * A service key is compared only for equality. Swift's `as? T` cast on the
 * stored service is modelled by a type tag that every service carries and that
 * the caller of `GetService` names.
 */
module ServiceLocator {
  import opened Wrappers

  /** The key a service is registered under. */
  datatype ServiceKey = ServiceKey(name: string)

  /** The runtime type of a service, and the type a caller asks for. */
  datatype TypeTag = TypeTag(name: string)

  /** A registered service: its key, its runtime type and its identity. */
  datatype Service = Service(key: ServiceKey, typeTag: TypeTag, instance: nat)

  type Registry = map<ServiceKey, Service>

  /** A registry in which every service is stored under its own key. */
  ghost predicate KeyedByOwnKey(registry: Registry) {
    forall k :: k in registry ==> registry[k].key == k
  }

  /** `registry[key] as? T`: the stored service if it has the requested type. */
  function Lookup(registry: Registry, key: ServiceKey, requested: TypeTag): (r: Option<Service>)
    ensures r.Some? <==> key in registry && registry[key].typeTag == requested
    ensures r.Some? ==> r.value == registry[key]
  {
    if key in registry && registry[key].typeTag == requested then Some(registry[key]) else None
  }

  /** The registry after `registerService` is called with each of `services` in turn. */
  function RegisterAll(registry: Registry, services: seq<Service>): Registry
    decreases |services|
  {
    if services == [] then registry
    else RegisterAll(registry[services[0].key := services[0]], services[1..])
  }

  /** The last of `services` whose key is `key`, if any. */
  function LastWithKey(services: seq<Service>, key: ServiceKey): (r: Option<Service>)
    ensures r.Some? ==> r.value in services && r.value.key == key
    ensures r.None? ==> forall s :: s in services ==> s.key != key
  {
    if services == [] then None
    else if services[|services| - 1].key == key then Some(services[|services| - 1])
    else LastWithKey(services[..|services| - 1], key)
  }

  lemma {:induction false} LastWithKeyAppend(services: seq<Service>, s: Service, key: ServiceKey)
    ensures LastWithKey(services + [s], key) == if s.key == key then Some(s) else LastWithKey(services, key)
  {
  }

  lemma {:induction false} LastWithKeyPrepend(s: Service, services: seq<Service>, key: ServiceKey)
    ensures LastWithKey([s] + services, key) == if LastWithKey(services, key).Some? then LastWithKey(services, key)
                                               else if s.key == key then Some(s) else None
    decreases |services|
  {
    if services == [] {
      assert [s] + services == [s];
      assert [s][..0] == [];
    } else {
      var n := |services|;
      var init := services[..n - 1];
      assert services == init + [services[n - 1]];
      assert [s] + services == ([s] + init) + [services[n - 1]];
      LastWithKeyAppend([s] + init, services[n - 1], key);
      LastWithKeyAppend(init, services[n - 1], key);
      LastWithKeyPrepend(s, init, key);
    }
  }

  /**
   * Last write wins over any sequence of registrations: a key is present
   * afterwards exactly when it was present before or was registered, and it
   * then holds the last service registered under it, or the old entry if none
   * was.
   */
  lemma {:induction false} RegisterAllIsLastWriteWins(registry: Registry, services: seq<Service>, key: ServiceKey)
    ensures key in RegisterAll(registry, services) <==> key in registry || LastWithKey(services, key).Some?
    ensures key in RegisterAll(registry, services) ==>
              RegisterAll(registry, services)[key]
              == if LastWithKey(services, key).Some? then LastWithKey(services, key).value else registry[key]
    decreases |services|
  {
    if services != [] {
      var head, tail := services[0], services[1..];
      assert services == [head] + tail;
      RegisterAllIsLastWriteWins(registry[head.key := head], tail, key);
      LastWithKeyPrepend(head, tail, key);
    }
  }

  /** Registering services keeps every entry stored under its own key. */
  lemma {:induction false} RegisterAllKeepsKeys(registry: Registry, services: seq<Service>)
    requires KeyedByOwnKey(registry)
    ensures KeyedByOwnKey(RegisterAll(registry, services))
    decreases |services|
  {
    if services != [] {
      RegisterAllKeepsKeys(registry[services[0].key := services[0]], services[1..]);
    }
  }

  /** After registering `s`, its key yields `s` for its own type and nothing for any other. */
  lemma RegisterThenGet(registry: Registry, s: Service, requested: TypeTag)
    ensures Lookup(registry[s.key := s], s.key, requested) == if requested == s.typeTag then Some(s) else None
  {
  }

  /** Registering `s` changes no lookup under any other key. */
  lemma RegisterLeavesOthers(registry: Registry, s: Service, key: ServiceKey, requested: TypeTag)
    requires key != s.key
    ensures Lookup(registry[s.key := s], key, requested) == Lookup(registry, key, requested)
  {
  }

  /** Of two registrations under one key, the second is the one kept. */
  lemma SecondRegistrationWins(registry: Registry, first: Service, second: Service)
    requires first.key == second.key
    ensures registry[first.key := first][second.key := second] == registry[second.key := second]
  {
  }

  /** The locator object; `registry` is its only state. */
  class ModuleSDKServiceLocator {
    var registry: Registry

    ghost predicate Valid()
      reads this
    {
      KeyedByOwnKey(registry)
    }

    /** The registry starts empty. */
    constructor ()
      ensures Valid() && registry == map[]
    {
      registry := map[];
    }

    /** Stores `service` under its own key, replacing any earlier entry for that key. */
    method RegisterService(service: Service)
      requires Valid()
      modifies this
      ensures Valid()
      ensures registry == old(registry)[service.key := service]
      ensures registry == RegisterAll(old(registry), [service])
    {
      var key := service.key;
      registry := registry[key := service];
    }

    /** Reads the entry for `key` if it has the requested type; changes nothing. */
    method GetService(key: ServiceKey, requested: TypeTag) returns (r: Option<Service>)
      requires Valid()
      ensures r == Lookup(registry, key, requested)
      ensures r.Some? ==> r.value.key == key && r.value.typeTag == requested
    {
      r := Lookup(registry, key, requested);
    }
  }

  /** Nothing is found in a fresh locator. */
  lemma EmptyRegistryFindsNothing(key: ServiceKey, requested: TypeTag)
    ensures Lookup(map[], key, requested) == None
  {
  }
}

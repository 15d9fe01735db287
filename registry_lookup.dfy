/**
 * Registry lookup with lazy materialisation
 * (dara/core/internal/registry_lookup.py): a hit returns the registered entry;
 * a miss is handed to the external handler registered for the registry's
 * name, whose entry is registered and returned; without a handler the lookup
 * fails.
 */
module RegistryLookup {
  import opened Wrappers

  /**
   * The registry collaborator: a name and the entries registered by uid.
   * Its `get` is a dictionary lookup and its `register` a dictionary insert
   * (dara/core/internal/registry.py is not part of this model).
   */
  class Registry<E> {
    const name: string
    var entries: map<string, E>

    constructor(name: string)
      ensures this.name == name && entries == map[]
    {
      this.name := name;
      entries := map[];
    }

    method Register(uid: string, entry: E)
      modifies this`entries
      ensures entries == old(entries)[uid := entry]
    {
      entries := entries[uid := entry];
    }
  }

  /** The ValueError raised when a miss has no handler. */
  datatype LookupError = NotFound(uid: string, registryName: string) {
    function Message(): (m: string)
      ensures |m| > 23 + |uid| + |registryName|
      ensures m[..19] == "Could not find uid " && m[19..19 + |uid|] == uid
      ensures m[19 + |uid|..23 + |uid|] == " in " && m[23 + |uid|..23 + |uid| + |registryName|] == registryName
    {
      "Could not find uid " + uid + " in " + registryName +
      " registry, did you register it before the app was initialized?"
    }
  }

  /**
   * The result of `get(registry, uid)` and the registry's entries afterwards,
   * for a registry named `name` holding `entries`.
   */
  function Resolve<E>(handlers: map<string, string -> E>, name: string, entries: map<string, E>, uid: string)
    : (out: (Result<E, LookupError>, map<string, E>))
    // what is returned is what the registry then holds under uid
    ensures out.0.Success? ==> uid in out.1 && out.1[uid] == out.0.value
    // a lookup never removes or replaces an entry, and adds at most uid
    ensures entries.Keys <= out.1.Keys <= entries.Keys + {uid}
    ensures forall k :: k in entries ==> out.1[k] == entries[k]
    // it fails exactly on a miss without a handler, and then changes nothing
    ensures out.0.Failure? <==> uid !in entries && name !in handlers
    ensures out.0.Failure? ==> out.0.error == NotFound(uid, name) && out.1 == entries
    // a miss with a handler returns what the handler makes of the uid
    ensures uid !in entries && name in handlers ==> out.0 == Success(handlers[name](uid))
  {
    if uid in entries then (Success(entries[uid]), entries)
    else if name in handlers then
      var entry := handlers[name](uid);
      (Success(entry), entries[uid := entry])
    else (Failure(NotFound(uid, name)), entries)
  }

  /** `RegistryLookup`: the handlers by registry name, taken as fixed at construction. */
  class RegistryLookup<E> {
    const handlers: map<string, string -> E>

    constructor(handlers: map<string, string -> E> := map[])
      ensures this.handlers == handlers
    {
      this.handlers := handlers;
    }

    method Get(registry: Registry<E>, uid: string) returns (r: Result<E, LookupError>)
      modifies registry`entries
      ensures (r, registry.entries) == Resolve(handlers, registry.name, old(registry.entries), uid)
    {
      if uid in registry.entries {
        return Success(registry.entries[uid]);
      }
      if registry.name in handlers {
        var func := handlers[registry.name];
        var entry := func(uid);
        registry.Register(uid, entry);
        return Success(entry);
      }
      return Failure(NotFound(uid, registry.name));
    }
  }

  /** A hit returns the registered entry and leaves the registry as it was. */
  lemma HitLeavesRegistry<E>(handlers: map<string, string -> E>, name: string, entries: map<string, E>, uid: string)
    requires uid in entries
    ensures Resolve(handlers, name, entries, uid) == (Success(entries[uid]), entries)
  {
  }

  /**
   * After a successful lookup, looking the same uid up again hits the
   * registry directly: same entry, no further change.
   */
  lemma SecondLookupHits<E>(handlers: map<string, string -> E>, name: string, entries: map<string, E>, uid: string)
    requires Resolve(handlers, name, entries, uid).0.Success?
    ensures var (r, after) := Resolve(handlers, name, entries, uid);
      Resolve(handlers, name, after, uid) == (r, after)
  {
  }

  /** Whether a miss can be served depends on the registry's name only, not on the uid. */
  lemma HandlerChosenByName<E>(handlers: map<string, string -> E>, name: string, entries: map<string, E>, u1: string, u2: string)
    requires u1 !in entries && u2 !in entries
    ensures Resolve(handlers, name, entries, u1).0.Success? == Resolve(handlers, name, entries, u2).0.Success?
  {
  }

  /** With the default empty handler map, every miss fails. */
  lemma DefaultHandlersFailOnMiss<E>(name: string, entries: map<string, E>, uid: string)
    ensures Resolve(map[], name, entries, uid).0.Failure? <==> uid !in entries
  {
  }
}

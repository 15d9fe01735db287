# Dara cache policies, pending results and registries, modelled in Dafny

This project models four sequential pieces of the Dara application framework:

- **Cache policies** (`cache_policy.dfy`, module `CachePolicy`): the cache
  scopes `global`, `session` and `user`; the four policy classes LRU,
  MostRecent, KeepAll and TTL with their defaults; the normalisation of a
  user's cache argument by `Cache.Policy.from_arg`; and the store key of a
  cached registry entry.
- **Pending results** (`pending.dfy`, module `Pending`): `PendingValue` and
  `PendingTask`. Each is a single cell with a value slot, an error slot and
  the "set" flag of its event. `PendingTask` also has a subscriber count and
  its notification channels. The value type `Cell` and its `Outcome` describe
  what `wait`/`run` delivers once the event is set. `Replay`, with the
  reference definitions `LastFailure`/`LastResolution`, describes any
  sequence of `resolve`/`error`/`cancel` calls.
- **Keep-all cache store** (`keep_all.dfy`, module `KeepAll`): a dictionary
  from key to `Entry(value, pin)`. It never evicts, and `delete` leaves
  pinned entries alone. The class `KeepAllCache` updates the dictionary in
  place; the functions `Stored`, `Lookup`, `Unpinned` and `Deleted` specify it.
- **Registry lookup** (`registry_lookup.dfy`, module `RegistryLookup`): a
  lookup that, on a miss, calls the handler registered for the registry's
  name, registers its entry and returns it. Without such a handler the
  lookup fails.
- **Front-end variable registries** (`variable_store.dfy`, module
  `InteractivityStore`): the six module-level Maps of `store.tsx`,
  `getRegistryKey`, `isRegistered`, `getAtom` and `clearRegistries_TEST`.

Python exceptions become `Result` values or the `Exception` datatype. Python
`None` becomes `Option.None`. `getUniqueIdentifier` and the registry handlers
are parameters (opaque functions). Recoil atoms and selectors are opaque
handles.

Behaviour of the code that a reader might not expect (the model follows the code):

- `resolve`, `error`/`fail` and `cancel` may be called any number of times,
  and each overwrites its slot. There is no double-resolution error.
- A value and an error can both be recorded (resolve, then error). The
  recorded error always wins.
- `PendingTask.cancel` on a task that is already resolved still records the
  cancellation error, so a later `run` raises it. It is not a no-op.
- `KeepAllCache.set` stores the pin bit, and `get(unpin=True)` clears it,
  although the docstrings call both parameters ignored.

## Model

| member | source | states |
|---|---|---|
| `CachePolicy.GetMember` | packages/dara-core/dara/core/base_definitions.py:79-87 | a member is returned exactly for 'global', 'session' and 'user', and its value is the argument; every other string gives None |
| `CachePolicy.GetMemberOfValue` | packages/dara-core/dara/core/base_definitions.py:75-87 | looking up a member's own value gives back that member |
| `CachePolicy.DiscriminantsDistinct` | packages/dara-core/dara/core/base_definitions.py:94-134 | the `policy` strings 'lru', 'most-recent', 'keep-all' and 'ttl' tell the four classes apart |
| `CachePolicy.NewLru` | packages/dara-core/dara/core/base_definitions.py:98-108 | an LRU policy has discriminant 'lru', the given scope and the given max_size |
| `CachePolicy.NewMostRecent` | packages/dara-core/dara/core/base_definitions.py:110-115 | a MostRecent policy has discriminant 'most-recent' and max_size fixed at 1 |
| `CachePolicy.NewKeepAll` | packages/dara-core/dara/core/base_definitions.py:117-124 | a KeepAll policy has discriminant 'keep-all' and no size bound |
| `CachePolicy.NewTtl` | packages/dara-core/dara/core/base_definitions.py:126-134 | a TTL policy has discriminant 'ttl', the given scope and the given ttl |
| `CachePolicy.PolicyDefaults` | packages/dara-core/dara/core/base_definitions.py:95-134 | the defaults are scope GLOBAL, LRU max_size 10, MostRecent max_size 1 and TTL ttl 60 |
| `CachePolicy.FromArg` | packages/dara-core/dara/core/base_definitions.py:151-167 | a policy is returned unchanged; a cache type, or a string naming one, gives LRU with that scope and max_size 10; any other string or value raises the invalid-argument error |
| `CachePolicy.FromArgIdempotent` | packages/dara-core/dara/core/base_definitions.py:156-157 | normalising an already normalised policy changes nothing |
| `CachePolicy.FromArgStringAgreesWithType` | packages/dara-core/dara/core/base_definitions.py:159-165 | a scope given as a member or as its string normalises to the same policy |
| `CachePolicy.CachedRegistryEntry.ToStoreKey` | packages/dara-core/dara/core/base_definitions.py:179-183 | the key is the class name, then '_', then the uid |
| `CachePolicy.StoreKeySameClass` | packages/dara-core/dara/core/base_definitions.py:179-183 | two entries of one class have the same key exactly when their uids are equal |
| `CachePolicy.StoreKeyDeterminesEntry` | packages/dara-core/dara/core/base_definitions.py:179-183 | for class names without '_', equal keys mean equal class names and equal uids |
| `Pending.Cell.Resolve` | packages/dara-core/dara/core/base_definitions.py:336-343 | resolve sets the event and stores v; waiting then returns v unless an error was already recorded, which is raised instead |
| `Pending.Cell.Fail` | packages/dara-core/dara/core/base_definitions.py:345-352 | error/fail sets the event and stores e; waiting then raises e |
| `Pending.EmptyCell` | packages/dara-core/dara/core/base_definitions.py:320-323 | a new cell delivers nothing yet |
| `Pending.ErrorBeatsValue` | packages/dara-core/dara/core/base_definitions.py:325-334 | a recorded error wins over a value stored before or after it |
| `Pending.ReplayState` | packages/dara-core/dara/core/base_definitions.py:336-352 | after any calls, each slot holds what the last call writing it wrote, and the event is set once any call was made |
| `Pending.ReplayOutcome` | packages/dara-core/dara/core/base_definitions.py:325-352 | from a new cell, waiting delivers the last recorded error if there is one, otherwise the last resolved value |
| `Pending.CancelIsTerminal` | packages/dara-core/dara/core/base_definitions.py:289-298 | once cancelled, later resolves do not change the outcome: waiting raises 'Task was cancelled' |
| `Pending.PendingValue.constructor` | packages/dara-core/dara/core/base_definitions.py:320-323 | a new pending value is unset, with no value and no error |
| `Pending.PendingValue.Wait` | packages/dara-core/dara/core/base_definitions.py:325-334 | once set, waiting delivers exactly the cell's outcome |
| `Pending.PendingValue.Resolve` | packages/dara-core/dara/core/base_definitions.py:336-343 | the new state is the old one resolved with v; only the value and the flag change |
| `Pending.PendingValue.Error` | packages/dara-core/dara/core/base_definitions.py:345-352 | the new state is the old one failed with e; only the error and the flag change |
| `Pending.PendingTask.InitialChannels` | packages/dara-core/dara/core/base_definitions.py:250 | the channels are [ws_channel], or [] when the channel is absent or empty |
| `Pending.PendingTask.constructor` | packages/dara-core/dara/core/base_definitions.py:247-256 | a new task has 1 subscriber, the initial channels, and an unset cell with no result and no error |
| `Pending.PendingTask.Run` | packages/dara-core/dara/core/base_definitions.py:258-269 | once set, run delivers exactly the cell's outcome |
| `Pending.PendingTask.Resolve` | packages/dara-core/dara/core/base_definitions.py:271-278 | the new state is the old one resolved with v; only the result and the flag change |
| `Pending.PendingTask.Fail` | packages/dara-core/dara/core/base_definitions.py:280-287 | the new state is the old one failed with e; only the error and the flag change |
| `Pending.PendingTask.Cancel` | packages/dara-core/dara/core/base_definitions.py:289-298 | the cancellation error is recorded and the event set, whatever the earlier state, so run raises 'Task was cancelled' |
| `Pending.PendingTask.AddSubscriber` | packages/dara-core/dara/core/base_definitions.py:300-304 | the subscriber count goes up by exactly one and nothing else changes |
| `Pending.PendingTask.RemoveSubscriber` | packages/dara-core/dara/core/base_definitions.py:306-310 | the subscriber count goes down by exactly one, with no lower bound, and nothing else changes |
| `KeepAll.Stored` | packages/dara-core/dara/core/internal/cache_store/keep_all.py:61-70 | after set, the entry at the key is exactly (value, pin) and every other key is unchanged |
| `KeepAll.Lookup` | packages/dara-core/dara/core/internal/cache_store/keep_all.py:41-59 | get returns the stored value for a present key and None for an absent key |
| `KeepAll.Unpinned` | packages/dara-core/dara/core/internal/cache_store/keep_all.py:56-59 | get with unpin clears only that entry's pin and keeps every value and key |
| `KeepAll.Deleted` | packages/dara-core/dara/core/internal/cache_store/keep_all.py:26-39 | delete removes the key exactly when it is present and unpinned; nothing else changes |
| `KeepAll.KeepAllCache.constructor` | packages/dara-core/dara/core/internal/cache_store/keep_all.py:21-24 | a new cache keeps its policy and starts empty |
| `KeepAll.KeepAllCache.Delete` | packages/dara-core/dara/core/internal/cache_store/keep_all.py:26-39 | the dictionary becomes `Deleted` of the old one |
| `KeepAll.KeepAllCache.Get` | packages/dara-core/dara/core/internal/cache_store/keep_all.py:41-59 | returns `Lookup` of the old dictionary; the dictionary is unpinned at the key when unpin is set, otherwise unchanged |
| `KeepAll.KeepAllCache.Set` | packages/dara-core/dara/core/internal/cache_store/keep_all.py:61-70 | the dictionary becomes `Stored` of the old one |
| `KeepAll.SetThenGet` | packages/dara-core/dara/core/internal/cache_store/keep_all.py:61-70 | get right after set returns the value just stored |
| `KeepAll.DeleteThenGet` | packages/dara-core/dara/core/internal/cache_store/keep_all.py:33-39 | after deleting a present, unpinned key, get returns None |
| `KeepAll.NoEviction` | packages/dara-core/dara/core/internal/cache_store/keep_all.py:16-70 | after any calls, keys only come from set and only leave through delete |
| `KeepAll.PinnedEntrySurvives` | packages/dara-core/dara/core/internal/cache_store/keep_all.py:33-39 | a pinned entry survives every call that does not unpin it, and keeps its value unless set again |
| `RegistryLookup.Registry.Register` | packages/dara-core/dara/core/internal/registry_lookup.py:45 | registering puts the entry under the uid |
| `RegistryLookup.Resolve` | packages/dara-core/dara/core/internal/registry_lookup.py:31-49 | the returned entry is the one registered under uid; no entry is removed or replaced; it fails exactly on a miss without a handler, then leaving the registry unchanged; a handled miss returns handler(uid) |
| `RegistryLookup.LookupError.Message` | packages/dara-core/dara/core/internal/registry_lookup.py:47-49 | the ValueError text names the uid and the registry, in the source's wording |
| `RegistryLookup.RegistryLookup.constructor` | packages/dara-core/dara/core/internal/registry_lookup.py:28-29 | the lookup keeps the handler map it is given, empty by default |
| `RegistryLookup.RegistryLookup.Get` | packages/dara-core/dara/core/internal/registry_lookup.py:31-49 | the result and the registry's new entries are those `Resolve` gives |
| `RegistryLookup.HitLeavesRegistry` | packages/dara-core/dara/core/internal/registry_lookup.py:39-40 | a hit returns the entry and leaves the registry unchanged |
| `RegistryLookup.SecondLookupHits` | packages/dara-core/dara/core/internal/registry_lookup.py:41-46 | after a successful lookup, a second lookup of the uid returns the same entry and changes nothing |
| `RegistryLookup.HandlerChosenByName` | packages/dara-core/dara/core/internal/registry_lookup.py:42-43 | whether a miss succeeds depends on the registry's name, not on the uid |
| `RegistryLookup.DefaultHandlersFailOnMiss` | packages/dara-core/dara/core/internal/registry_lookup.py:28-49 | with the default empty handler map, a lookup fails exactly on a miss |
| `InteractivityStore.GetRegistryKey` | packages/dara-core/js/shared/interactivity/store.tsx:57-59 | the key is the unique identifier, then '-', then the key type |
| `InteractivityStore.RegistryKeyDeterminesType` | packages/dara-core/js/shared/interactivity/store.tsx:49-59 | for one variable, different key types give different keys |
| `InteractivityStore.RegistryKeySameType` | packages/dara-core/js/shared/interactivity/store.tsx:57-59 | for one key type, keys are equal exactly when unique identifiers are equal |
| `InteractivityStore.AtomError.Message` | packages/dara-core/js/shared/interactivity/store.tsx:117-129 | the two getAtom error texts start with 'Variable ' and the uid ('undefined' for a plain value), and end with ' is not registered.' or ' does not have an associated atom.', which tells the two errors apart |
| `InteractivityStore.Position` | packages/dara-core/js/shared/interactivity/store.tsx:65-72 | each of the six registries is in the list that clearRegistries_TEST walks |
| `InteractivityStore.Registries.constructor` | packages/dara-core/js/shared/interactivity/store.tsx:10-42 | the six registries start empty |
| `InteractivityStore.Registries.Clear` | packages/dara-core/js/shared/interactivity/store.tsx:73 | clearing one registry empties it and leaves the other five unchanged |
| `InteractivityStore.Registries.ClearRegistries` | packages/dara-core/js/shared/interactivity/store.tsx:64-75 | afterwards all six registries are empty |
| `InteractivityStore.Registries.IsRegistered` | packages/dara-core/js/shared/interactivity/store.tsx:83-107 | false for non-variables and unlisted typenames; Variable, UrlVariable and DataVariable are looked up by uid in atomRegistry; DerivedVariable by its '-selector' key in selectorFamilyRegistry; DerivedDataVariable by that key in selectorRegistry |
| `InteractivityStore.Registries.GetAtom` | packages/dara-core/js/shared/interactivity/store.tsx:116-130 | succeeds exactly for a registered Variable or UrlVariable, with the atom registered under its uid; throws 'not registered' for an unregistered variable and 'no associated atom' for a registered one of another type |
| `InteractivityStore.RegisteredDataVariableHasNoAtom` | packages/dara-core/js/shared/interactivity/store.tsx:88-129 | a DataVariable whose uid is in atomRegistry is registered, yet getAtom throws for it |
| `InteractivityStore.NothingRegisteredAfterClear` | packages/dara-core/js/shared/interactivity/store.tsx:64-119 | with all registries empty, no variable is registered and getAtom throws 'not registered' |

## Left out

- The polling loops of `PendingValue.wait` and `PendingTask.run` (`anyio.sleep` until the event is set). `Wait` and `Run` require the event to be set and model what is delivered then.
- The `anyio.Lock` of `KeepAllCache` and all asynchrony. Every operation is modelled as one atomic, sequential step.
- `PendingTask.cancel`'s calls to `cancel_scope.cancel()` and `task_def.cancel()`. They are foreign async effects and are taken to happen before the error is recorded. The `cancel_scope` field, which other code sets, is not modelled, and neither are the class attributes `cache_key`/`reg_entry`, which are always None.
- Pending.PendingTask.Cancel: if `task_def.cancel()` raises, the Python method stops before recording the error. The model always records it.
- Forwarding progress messages to `notify_channels` is done by code that is not part of this model. Only the channel list built at construction is modelled.
- `DaraBaseModel.__init__`, `TemplateMarker.dict`, `ActionInstance`, `ActionDef` and `ComponentType` rely on pydantic internals and uuid generation. The message records `TaskProgressUpdate`, `TaskResult` and `TaskError` carry no logic. None of these are modelled.
- Pydantic validation of policy fields is not modelled. Only MostRecent's constant max_size is reflected, because that policy has no max_size parameter.
- The scoped `Store`, the LRU, MostRecent and TTL cache stores, and the `CacheStoreImpl` base class are not part of this model. `KeepAllCache` keeps only the policy it is constructed with.
- The registry's own `get`/`register` (dara/core/internal/registry.py) is not part of this model. They are taken to be a dictionary lookup and insert.
- RegistryLookup.RegistryLookup.constructor: the handler map is taken as fixed at construction. In Python the instance keeps a reference to the caller's dict, and every instance built without arguments shares one default `{}`, so a handler added to that dict later is used by the next `get`, also on other instances. This aliasing is not modelled.
- RegistryLookup.Resolve: registry handlers are total functions here. A handler that raises (the Python coroutine fails) is not modelled; in Python its exception would propagate and nothing would be registered.
- `isVariable` and `getUniqueIdentifier` are not part of this model. The first becomes the `NotVariable`/`Variable` distinction and the second a function parameter.
- The message of a non-variable that is not registered uses "undefined" for its uid, as a plain value without a `uid` property would print.
- In `clearRegistries_TEST` the six Maps have different types. The loop therefore walks a list of registry names and clears the Map each one names.
- A stored Python `None` value is indistinguishable from a missing key in `KeepAllCache.get`. The model keeps these apart (`Some(v)` against `None`).
- The Python `Entry` is a mutable object that `get` unpins in place. Only the dictionary refers to it, so it is modelled as a value.

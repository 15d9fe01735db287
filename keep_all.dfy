/**
 * The keep-all cache store (dara/core/internal/cache_store/keep_all.py):
 * a dictionary from key to entry that never evicts; `delete` is the only
 * removal and it leaves pinned entries alone.
 */
module KeepAll {
  import opened Wrappers
  import CachePolicy

  /** A cached value and its pin bit. */
  datatype Entry<V> = Entry(value: V, pin: bool)

  /** The dictionary after `set(key, value, pin)`. */
  function Stored<V>(m: map<string, Entry<V>>, key: string, value: V, pin: bool): (r: map<string, Entry<V>>)
    ensures r.Keys == m.Keys + {key}
    ensures r[key] == Entry(value, pin)
    ensures forall k :: k in m && k != key ==> r[k] == m[k]
  {
    m[key := Entry(value, pin)]
  }

  /** What `get(key)` returns: the stored value, or None for an absent key. */
  function Lookup<V>(m: map<string, Entry<V>>, key: string): (r: Option<V>)
    ensures r.Some? <==> key in m
    ensures r.Some? ==> r.value == m[key].value
  {
    if key in m then Some(m[key].value) else None
  }

  /** The dictionary after `get(key, unpin=True)`: a present entry loses its pin, nothing else changes. */
  function Unpinned<V>(m: map<string, Entry<V>>, key: string): (r: map<string, Entry<V>>)
    ensures r.Keys == m.Keys
    ensures forall k :: k in m ==> r[k].value == m[k].value
    ensures forall k :: k in m ==> r[k].pin == (m[k].pin && k != key)
  {
    if key in m then m[key := Entry(m[key].value, false)] else m
  }

  /** The dictionary after `delete(key)`: a present, unpinned entry is removed; otherwise nothing changes. */
  function Deleted<V>(m: map<string, Entry<V>>, key: string): (r: map<string, Entry<V>>)
    ensures r.Keys == if key in m && !m[key].pin then m.Keys - {key} else m.Keys
    ensures forall k :: k in r ==> r[k] == m[k]
  {
    if key !in m || m[key].pin then m else m - {key}
  }

  /** `KeepAllCache`: the dictionary is updated in place under one lock per call. */
  class KeepAllCache<V> {
    const policy: CachePolicy.Policy
    var cache: map<string, Entry<V>>

    constructor(policy: CachePolicy.Policy)
      ensures this.policy == policy && cache == map[]
    {
      this.policy := policy;
      cache := map[];
    }

    method Delete(key: string)
      modifies this`cache
      ensures cache == Deleted(old(cache), key)
    {
      if key !in cache || cache[key].pin {
        return;
      }
      cache := cache - {key};
    }

    method Get(key: string, unpin: bool := false) returns (r: Option<V>)
      modifies this`cache
      ensures r == Lookup(old(cache), key)
      ensures cache == if unpin then Unpinned(old(cache), key) else old(cache)
    {
      if key !in cache {
        return None;
      }
      var entry := cache[key];
      if unpin {
        cache := cache[key := Entry(entry.value, false)];
      }
      r := Some(entry.value);
    }

    method Set(key: string, value: V, pin: bool := false)
      modifies this`cache
      ensures cache == Stored(old(cache), key, value, pin)
    {
      cache := cache[key := Entry(value, pin)];
    }
  }

  /** Right after `set`, `get` returns the value just stored. */
  lemma SetThenGet<V>(m: map<string, Entry<V>>, key: string, value: V, pin: bool)
    ensures Lookup(Stored(m, key, value, pin), key) == Some(value)
  {
  }

  /** Deleting a present, unpinned key makes the following `get` return None. */
  lemma DeleteThenGet<V>(m: map<string, Entry<V>>, key: string)
    requires key in m && !m[key].pin
    ensures Lookup(Deleted(m, key), key) == None
  {
  }

  /** One call on the cache. */
  datatype CacheOp<V> = SetOp(key: string, value: V, pin: bool) | GetOp(key: string, unpin: bool) | DeleteOp(key: string)

  function Apply<V>(m: map<string, Entry<V>>, op: CacheOp<V>): map<string, Entry<V>> {
    match op
    case SetOp(k, v, p) => Stored(m, k, v, p)
    case GetOp(k, u) => if u then Unpinned(m, k) else m
    case DeleteOp(k) => Deleted(m, k)
  }

  /** The dictionary after the calls, in order. */
  function Replay<V>(m: map<string, Entry<V>>, ops: seq<CacheOp<V>>): map<string, Entry<V>>
    decreases |ops|
  {
    if ops == [] then m else Replay(Apply(m, ops[0]), ops[1..])
  }

  /** The keys the calls `set`. */
  function SetKeys<V>(ops: seq<CacheOp<V>>): set<string>
    decreases |ops|
  {
    if ops == [] then {}
    else (if ops[0].SetOp? then {ops[0].key} else {}) + SetKeys(ops[1..])
  }

  /** The keys the calls try to `delete`. */
  function DeleteKeys<V>(ops: seq<CacheOp<V>>): set<string>
    decreases |ops|
  {
    if ops == [] then {}
    else (if ops[0].DeleteOp? then {ops[0].key} else {}) + DeleteKeys(ops[1..])
  }

  /**
   * No eviction: after any calls, every key is one that was there before or
   * was `set`, and every key that was there and was never passed to `delete`
   * is still there.
   */
  lemma {:induction false} NoEviction<V>(m: map<string, Entry<V>>, ops: seq<CacheOp<V>>)
    ensures Replay(m, ops).Keys <= m.Keys + SetKeys(ops)
    ensures m.Keys - DeleteKeys(ops) <= Replay(m, ops).Keys
    decreases |ops|
  {
    if ops != [] {
      NoEviction(Apply(m, ops[0]), ops[1..]);
    }
  }

  /** Whether a call may take the pin off `key`'s entry (a `set` with pin=False or an unpinning `get`). */
  predicate MayUnpin<V>(op: CacheOp<V>, key: string) {
    op.key == key && ((op.SetOp? && !op.pin) || (op.GetOp? && op.unpin))
  }

  /**
   * A pinned entry survives any calls that do not unpin it: no `delete`
   * removes it, and it keeps its value unless a pinned `set` replaces it.
   */
  lemma {:induction false} PinnedEntrySurvives<V>(m: map<string, Entry<V>>, ops: seq<CacheOp<V>>, key: string)
    requires key in m && m[key].pin
    requires forall i :: 0 <= i < |ops| ==> !MayUnpin(ops[i], key)
    ensures key in Replay(m, ops) && Replay(m, ops)[key].pin
    ensures (forall i :: 0 <= i < |ops| ==> !(ops[i].SetOp? && ops[i].key == key)) ==> Replay(m, ops)[key] == m[key]
    decreases |ops|
  {
    if ops != [] {
      assert !MayUnpin(ops[0], key);
      PinnedEntrySurvives(Apply(m, ops[0]), ops[1..], key);
    }
  }
}

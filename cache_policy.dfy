/**
 * Cache types, cache policies and their normalisation from a user argument,
 * plus the store key of a cached registry entry
 * (dara/core/base_definitions.py).
 */
module CachePolicy {
  import opened Wrappers

  /** The scope a cached value lives in; each member carries its string value. */
  datatype CacheType = Global | Session | User {
    function Value(): string {
      match this
      case Global => "global"
      case Session => "session"
      case User => "user"
    }
  }

  /**
   * `CacheType.get_member`: the member whose value is exactly `value`,
   * or None when the lookup by value raises ValueError.
   */
  function GetMember(value: string): (r: Option<CacheType>)
    ensures r.Some? <==> value == "global" || value == "session" || value == "user"
    ensures r.Some? ==> r.value.Value() == value
  {
    if value == "global" then Some(Global)
    else if value == "session" then Some(Session)
    else if value == "user" then Some(User)
    else None
  }

  /** Reading a member's value back through `get_member` yields that member. */
  lemma GetMemberOfValue(t: CacheType)
    ensures GetMember(t.Value()) == Some(t)
  {
  }

  const DefaultCacheType: CacheType := Global
  const DefaultLruMaxSize: int := 10
  const MostRecentMaxSize: int := 1
  const DefaultTtl: int := 60

  /**
   * The four policy classes. MostRecent has no max_size of its own: the field
   * is declared constant 1, so any other value is rejected at construction.
   */
  datatype Policy =
    | Lru(cacheType: CacheType, maxSize: int)
    | MostRecent(cacheType: CacheType)
    | KeepAll(cacheType: CacheType)
    | Ttl(cacheType: CacheType, ttl: int)
  {
    /** The constant `policy` discriminant of each class. */
    function Discriminant(): string {
      match this
      case Lru(_, _) => "lru"
      case MostRecent(_) => "most-recent"
      case KeepAll(_) => "keep-all"
      case Ttl(_, _) => "ttl"
    }

    /** The `max_size` field of the LRU-derived classes. */
    function MaxSize(): Option<int> {
      match this
      case Lru(_, n) => Some(n)
      case MostRecent(_) => Some(MostRecentMaxSize)
      case _ => None
    }
  }

  /** The discriminant tells the four policy classes apart. */
  lemma DiscriminantsDistinct(p: Policy, q: Policy)
    ensures p.Discriminant() == q.Discriminant() <==>
      (p.Lru? && q.Lru?) || (p.MostRecent? && q.MostRecent?) ||
      (p.KeepAll? && q.KeepAll?) || (p.Ttl? && q.Ttl?)
  {
  }

  /** `LruCachePolicy(...)` with its keyword defaults. */
  function NewLru(cacheType: CacheType := DefaultCacheType, maxSize: int := DefaultLruMaxSize): (p: Policy)
    ensures p.Discriminant() == "lru" && p.MaxSize() == Some(maxSize) && p.cacheType == cacheType
  {
    Lru(cacheType, maxSize)
  }

  /** `MostRecentCachePolicy(...)`: max_size is always 1. */
  function NewMostRecent(cacheType: CacheType := DefaultCacheType): (p: Policy)
    ensures p.Discriminant() == "most-recent" && p.MaxSize() == Some(1) && p.cacheType == cacheType
  {
    MostRecent(cacheType)
  }

  /** `KeepAllCachePolicy(...)`: no size bound at all. */
  function NewKeepAll(cacheType: CacheType := DefaultCacheType): (p: Policy)
    ensures p.Discriminant() == "keep-all" && p.MaxSize() == None && p.cacheType == cacheType
  {
    KeepAll(cacheType)
  }

  /** `TTLCachePolicy(...)` with its keyword defaults. */
  function NewTtl(cacheType: CacheType := DefaultCacheType, ttl: int := DefaultTtl): (p: Policy)
    ensures p.Discriminant() == "ttl" && p.MaxSize() == None && p.cacheType == cacheType
    ensures p.Ttl? && p.ttl == ttl
  {
    Ttl(cacheType, ttl)
  }

  /** Every class defaults to the global scope; LRU to 10 items and TTL to 60 seconds. */
  lemma PolicyDefaults()
    ensures NewLru() == Lru(Global, 10)
    ensures NewMostRecent() == MostRecent(Global) && NewMostRecent().MaxSize() == Some(1)
    ensures NewKeepAll() == KeepAll(Global)
    ensures NewTtl() == Ttl(Global, 60)
  {
  }

  /**
   * What `Cache.Policy.from_arg` may be given: a policy instance, a CacheType
   * member, a plain string, or any other Python value.
   */
  datatype CacheArg =
    | PolicyArg(policy: Policy)
    | TypeArg(cacheType: CacheType)
    | StringArg(s: string)
    | OtherArg

  /** The ValueError raised by `from_arg`. */
  datatype PolicyError = InvalidCacheArgument(arg: CacheArg)

  /**
   * `Cache.Policy.from_arg`: a policy passes through unchanged; a cache type,
   * or a string naming one, becomes a default LRU policy of that scope;
   * anything else is rejected.
   */
  function FromArg(arg: CacheArg): (r: Result<Policy, PolicyError>)
    ensures arg.PolicyArg? ==> r == Success(arg.policy)
    ensures arg.TypeArg? ==> r == Success(NewLru(arg.cacheType))
    ensures arg.StringArg? ==>
      (r.Success? <==> GetMember(arg.s).Some?) &&
      (r.Success? ==> r.value.Lru? && r.value.maxSize == 10 && r.value.cacheType.Value() == arg.s)
    ensures r.Failure? ==> r.error == InvalidCacheArgument(arg)
    ensures arg.OtherArg? ==> r.Failure?
  {
    match arg
    case PolicyArg(p) => Success(p)
    case TypeArg(t) => Success(NewLru(cacheType := t))
    case StringArg(s) =>
      (match GetMember(s)
       case Some(t) => Success(NewLru(cacheType := t))
       case None => Failure(InvalidCacheArgument(arg)))
    case OtherArg => Failure(InvalidCacheArgument(arg))
  }

  /** Normalising an already normalised argument changes nothing. */
  lemma FromArgIdempotent(arg: CacheArg)
    requires FromArg(arg).Success?
    ensures FromArg(PolicyArg(FromArg(arg).value)) == FromArg(arg)
  {
  }

  /** A scope given as a member or as its string value normalises to the same policy. */
  lemma FromArgStringAgreesWithType(t: CacheType)
    ensures FromArg(StringArg(t.Value())) == FromArg(TypeArg(t))
  {
  }

  /**
   * A registry entry whose cached values are governed by `cache`;
   * `className` is the name of the entry's concrete Python class.
   */
  datatype CachedRegistryEntry = CachedRegistryEntry(className: string, cache: Policy, uid: string) {

    /** `to_store_key`: the class name, an underscore, then the uid. */
    function ToStoreKey(): (key: string)
      ensures |key| == |className| + 1 + |uid|
      ensures key[..|className|] == className
      ensures key[|className|] == '_'
      ensures key[|className| + 1..] == uid
    {
      className + "_" + uid
    }
  }

  /** Within one class, two entries share a store key exactly when their uids are equal. */
  lemma StoreKeySameClass(a: CachedRegistryEntry, b: CachedRegistryEntry)
    requires a.className == b.className
    ensures a.ToStoreKey() == b.ToStoreKey() <==> a.uid == b.uid
  {
  }

  /**
   * When class names contain no underscore (Python class names are
   * CamelCase), the store key determines both the class and the uid.
   */
  lemma StoreKeyDeterminesEntry(a: CachedRegistryEntry, b: CachedRegistryEntry)
    requires '_' !in a.className && '_' !in b.className
    requires a.ToStoreKey() == b.ToStoreKey()
    ensures a.className == b.className && a.uid == b.uid
  {
  }
}

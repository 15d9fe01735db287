/**
 * The front-end variable registries (js/shared/interactivity/store.tsx):
 * six module-level Maps holding the Recoil atoms, selectors and their
 * bookkeeping, the key scheme for them, and the lookups that dispatch on a
 * variable's `__typename`.
 */
module InteractivityStore {
  import opened Wrappers

  // Recoil atoms, selectors and selector families, and other JavaScript
  // values, are opaque here: each stands for an object identity.
  datatype RecoilState = RecoilState(handle: nat)
  datatype RecoilValue = RecoilValue(handle: nat)
  datatype SelectorFamily = SelectorFamily(handle: nat)
  datatype JsValue = JsValue(handle: nat)

  /** What `depsRegistry` records for a selector. */
  datatype DepsEntry = DepsEntry(args: seq<JsValue>, cacheKey: string, result: JsValue)

  /**
   * An `AnyVariable`: either a plain value (one that `isVariable` rejects) or
   * a variable with its `__typename` and `uid`.
   */
  datatype AnyVariable = NotVariable | Variable(typename: string, uid: string)

  /** The typenames whose registration is kept in `atomRegistry`. */
  predicate AtomBacked(typename: string) {
    typename == "Variable" || typename == "UrlVariable" || typename == "DataVariable"
  }

  /** The typenames `getAtom` has an atom for. */
  predicate HasAtom(typename: string) {
    typename == "Variable" || typename == "UrlVariable"
  }

  /** `RegistryKeyType` and its string form. */
  datatype RegistryKeyType = SelectorKey | DerivedSelectorKey | TriggerKey | FiltersKey {
    function Name(): string {
      match this
      case SelectorKey => "selector"
      case DerivedSelectorKey => "derived-selector"
      case TriggerKey => "trigger"
      case FiltersKey => "filters"
    }
  }

  /**
   * `getRegistryKey`: the variable's unique identifier, a dash, then the key
   * type. `uniqueIdentifier` stands for `getUniqueIdentifier`, whose hashing
   * is not part of this model.
   */
  function GetRegistryKey(uniqueIdentifier: AnyVariable -> string, variable: AnyVariable, keyType: RegistryKeyType)
    : (key: string)
    ensures var id := uniqueIdentifier(variable);
      && |key| == |id| + 1 + |keyType.Name()|
      && key[..|id|] == id
      && key[|id|] == '-'
      && key[|id| + 1..] == keyType.Name()
  {
    uniqueIdentifier(variable) + "-" + keyType.Name()
  }

  /** For one variable, the four key types give four different keys. */
  lemma RegistryKeyDeterminesType(uniqueIdentifier: AnyVariable -> string, variable: AnyVariable,
                                  t1: RegistryKeyType, t2: RegistryKeyType)
    requires GetRegistryKey(uniqueIdentifier, variable, t1) == GetRegistryKey(uniqueIdentifier, variable, t2)
    ensures t1 == t2
  {
  }

  /** For one key type, two variables share a key exactly when their unique identifiers agree. */
  lemma RegistryKeySameType(uniqueIdentifier: AnyVariable -> string, a: AnyVariable, b: AnyVariable,
                            keyType: RegistryKeyType)
    ensures GetRegistryKey(uniqueIdentifier, a, keyType) == GetRegistryKey(uniqueIdentifier, b, keyType)
            <==> uniqueIdentifier(a) == uniqueIdentifier(b)
  {
  }

  /** What `getAtom` throws. */
  datatype AtomError = NotRegistered(variable: AnyVariable) | NoAssociatedAtom(uid: string, typename: string) {
    function Message(): (m: string)
      ensures var id := if NotRegistered? then (if variable.Variable? then variable.uid else "undefined") else uid;
        |m| >= 28 + |id| && m[..9] == "Variable " && m[9..9 + |id|] == id
      ensures NotRegistered? ==> m[|m| - 19..] == " is not registered."
      ensures NoAssociatedAtom? ==> |m| >= 34 && m[|m| - 34..] == " does not have an associated atom."
    {
      match this
      case NotRegistered(v) => "Variable " + (if v.Variable? then v.uid else "undefined") + " is not registered."
      case NoAssociatedAtom(uid, typename) =>
        "Variable " + uid + " of type " + typename + " does not have an associated atom."
    }
  }

  /** The six registries, in the order `clearRegistries_TEST` lists them. */
  datatype RegistryName =
    | DataRegistry | AtomRegistry | SelectorRegistry | DepsRegistry
    | SelectorFamilyRegistry | SelectorFamilySelectorsRegistry

  const ClearOrder: seq<RegistryName> :=
    [DataRegistry, AtomRegistry, SelectorRegistry, DepsRegistry, SelectorFamilyRegistry, SelectorFamilySelectorsRegistry]

  /** Where a registry stands in `ClearOrder`: every registry is listed. */
  function Position(r: RegistryName): (i: nat)
    ensures i < |ClearOrder| && ClearOrder[i] == r
  {
    match r
    case DataRegistry => 0
    case AtomRegistry => 1
    case SelectorRegistry => 2
    case DepsRegistry => 3
    case SelectorFamilyRegistry => 4
    case SelectorFamilySelectorsRegistry => 5
  }

  /** The module-level Maps of store.tsx. */
  class Registries {
    var dataRegistry: map<string, RecoilState>                     // key -> trigger atom
    var atomRegistry: map<string, RecoilState>                     // key -> atom
    var selectorRegistry: map<string, RecoilValue>                 // key -> selector
    var selectorFamilyRegistry: map<string, SelectorFamily>        // key -> selector family
    var selectorFamilySelectorsRegistry: map<SelectorFamily, set<RecoilValue>>  // family -> its selectors
    var depsRegistry: map<string, DepsEntry>                       // key -> selector dependencies

    constructor()
      ensures forall r :: IsEmpty(r)
    {
      dataRegistry, atomRegistry, selectorRegistry := map[], map[], map[];
      selectorFamilyRegistry, selectorFamilySelectorsRegistry, depsRegistry := map[], map[], map[];
    }

    predicate IsEmpty(r: RegistryName)
      reads this
    {
      match r
      case DataRegistry => dataRegistry == map[]
      case AtomRegistry => atomRegistry == map[]
      case SelectorRegistry => selectorRegistry == map[]
      case DepsRegistry => depsRegistry == map[]
      case SelectorFamilyRegistry => selectorFamilyRegistry == map[]
      case SelectorFamilySelectorsRegistry => selectorFamilySelectorsRegistry == map[]
    }

    /** `registry.clear()` on one of the six Maps; the others are untouched. */
    method Clear(r: RegistryName)
      modifies this
      ensures IsEmpty(r)
      ensures r != DataRegistry ==> dataRegistry == old(dataRegistry)
      ensures r != AtomRegistry ==> atomRegistry == old(atomRegistry)
      ensures r != SelectorRegistry ==> selectorRegistry == old(selectorRegistry)
      ensures r != DepsRegistry ==> depsRegistry == old(depsRegistry)
      ensures r != SelectorFamilyRegistry ==> selectorFamilyRegistry == old(selectorFamilyRegistry)
      ensures r != SelectorFamilySelectorsRegistry ==> selectorFamilySelectorsRegistry == old(selectorFamilySelectorsRegistry)
    {
      match r
      case DataRegistry => dataRegistry := map[];
      case AtomRegistry => atomRegistry := map[];
      case SelectorRegistry => selectorRegistry := map[];
      case DepsRegistry => depsRegistry := map[];
      case SelectorFamilyRegistry => selectorFamilyRegistry := map[];
      case SelectorFamilySelectorsRegistry => selectorFamilySelectorsRegistry := map[];
    }

    /** `clearRegistries_TEST`: clear each of the six Maps in turn. */
    method ClearRegistries()
      modifies this
      ensures forall r :: IsEmpty(r)
    {
      for i := 0 to |ClearOrder|
        invariant forall j :: 0 <= j < i ==> IsEmpty(ClearOrder[j])
      {
        Clear(ClearOrder[i]);
      }
      forall r: RegistryName ensures IsEmpty(r) {
        assert ClearOrder[Position(r)] == r;
      }
    }

    /**
     * `isRegistered`: plain variables and variables the switch does not list
     * are never registered; the others are looked up in the Map their
     * typename selects.
     */
    function IsRegistered(uniqueIdentifier: AnyVariable -> string, variable: AnyVariable): (r: bool)
      reads this
      ensures r ==> (variable.Variable? &&
        (AtomBacked(variable.typename) || variable.typename == "DerivedVariable" || variable.typename == "DerivedDataVariable"))
      ensures variable.Variable? && AtomBacked(variable.typename) ==> (r <==> variable.uid in atomRegistry)
      ensures variable.Variable? && variable.typename == "DerivedVariable" ==>
        (r <==> GetRegistryKey(uniqueIdentifier, variable, SelectorKey) in selectorFamilyRegistry)
      ensures variable.Variable? && variable.typename == "DerivedDataVariable" ==>
        (r <==> GetRegistryKey(uniqueIdentifier, variable, SelectorKey) in selectorRegistry)
    {
      if !variable.Variable? then false
      else if AtomBacked(variable.typename) then variable.uid in atomRegistry
      else if variable.typename == "DerivedVariable" then
        GetRegistryKey(uniqueIdentifier, variable, SelectorKey) in selectorFamilyRegistry
      else if variable.typename == "DerivedDataVariable" then
        GetRegistryKey(uniqueIdentifier, variable, SelectorKey) in selectorRegistry
      else false
    }

    /**
     * `getAtom`: the atom of a registered Variable or UrlVariable; an
     * unregistered variable, or a registered one of another type, throws.
     */
    function GetAtom(uniqueIdentifier: AnyVariable -> string, variable: AnyVariable): (r: Result<RecoilState, AtomError>)
      reads this
      ensures r.Success? <==> IsRegistered(uniqueIdentifier, variable) && variable.Variable? && HasAtom(variable.typename)
      ensures r.Success? ==> variable.uid in atomRegistry && r.value == atomRegistry[variable.uid]
      ensures !IsRegistered(uniqueIdentifier, variable) ==> r == Failure(NotRegistered(variable))
      ensures IsRegistered(uniqueIdentifier, variable) && !HasAtom(variable.typename) ==>
        r == Failure(NoAssociatedAtom(variable.uid, variable.typename))
    {
      if !IsRegistered(uniqueIdentifier, variable) then Failure(NotRegistered(variable))
      else if HasAtom(variable.typename) then Success(atomRegistry[variable.uid])
      else Failure(NoAssociatedAtom(variable.uid, variable.typename))
    }
  }

  /** A DataVariable can pass `isRegistered` and still have no atom. */
  lemma RegisteredDataVariableHasNoAtom(reg: Registries, uniqueIdentifier: AnyVariable -> string, uid: string)
    requires uid in reg.atomRegistry
    ensures reg.IsRegistered(uniqueIdentifier, Variable("DataVariable", uid))
    ensures reg.GetAtom(uniqueIdentifier, Variable("DataVariable", uid)) == Failure(NoAssociatedAtom(uid, "DataVariable"))
  {
  }

  /** Once the registries are cleared, no variable is registered and `getAtom` throws for every one. */
  lemma NothingRegisteredAfterClear(reg: Registries, uniqueIdentifier: AnyVariable -> string, variable: AnyVariable)
    requires forall r :: reg.IsEmpty(r)
    ensures !reg.IsRegistered(uniqueIdentifier, variable)
    ensures reg.GetAtom(uniqueIdentifier, variable) == Failure(NotRegistered(variable))
  {
    assert reg.IsEmpty(AtomRegistry) && reg.IsEmpty(SelectorRegistry) && reg.IsEmpty(SelectorFamilyRegistry);
  }
}

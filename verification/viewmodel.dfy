/** The scoped view-model registry: instances, the per-owner store, owners that lazily
    create and cache their store, factories, the provider's lookup-or-create and the
    `viewModels` entry point that resolves the owner from the ambient context. */
module Registry {
  import opened Outcomes
  import opened Contexts

  /** A view-model class. `name` is its declared name (`ctor.name`, the store key); `tag`
      tells apart distinct classes declared under the same name; `nullaryConstructible`
      says whether `new ctor()` without arguments succeeds for it. */
  datatype Kind = Kind(name: string, tag: nat, nullaryConstructible: bool)

  /** An instance. `released` counts the calls of its `clear()` hook, which releases the
      resources the instance holds. */
  class ViewModel {
    const kind: Kind
    const arguments: seq<int>
    var released: nat

    constructor (kind: Kind, arguments: seq<int>)
      ensures this.kind == kind && this.arguments == arguments && released == 0
    {
      this.kind := kind;
      this.arguments := arguments;
      released := 0;
    }

    method Clear()
      modifies this
      ensures released == old(released) + 1
    {
      released := released + 1;
    }
  }

  /** The values held under the keys `ks`, in the order of `ks`. */
  function Gather(ks: seq<string>, m: map<string, ViewModel>): (vs: seq<ViewModel>)
    requires forall k :: k in ks ==> k in m
    ensures |vs| == |ks|
    ensures forall i :: 0 <= i < |ks| ==> vs[i] == m[ks[i]]
    ensures forall k :: k in ks ==> m[k] in vs
  {
    if ks == [] then []
    else
      var rest := Gather(ks[1..], m);
      assert forall k :: k in ks[1..] ==> k in ks;
      assert forall k :: k in ks ==> k == ks[0] || k in ks[1..];
      [m[ks[0]]] + rest
  }

  /** The keys among `ks` whose entry holds `v`. */
  ghost function Holders(ks: seq<string>, m: map<string, ViewModel>, v: ViewModel): set<string>
  {
    set k | k in ks && k in m && m[k] == v
  }

  /** Gathering distinct keys yields each value once per key that holds it. */
  lemma {:induction false} OccurrencesCountHolders(ks: seq<string>, m: map<string, ViewModel>, v: ViewModel)
    requires forall k :: k in ks ==> k in m
    requires forall i, j :: 0 <= i < j < |ks| ==> ks[i] != ks[j]
    ensures multiset(Gather(ks, m))[v] == |Holders(ks, m, v)|
  {
    if ks == [] {
      assert Holders(ks, m, v) == {};
    } else {
      var tail := ks[1..];
      DistinctTail(ks);
      OccurrencesCountHolders(tail, m, v);
      assert multiset(Gather(ks, m)) == multiset{m[ks[0]]} + multiset(Gather(tail, m)) by {
        assert Gather(ks, m) == [m[ks[0]]] + Gather(tail, m);
      }
      HoldersSplit(ks, m, v);
    }
  }

  lemma DistinctTail(ks: seq<string>)
    requires |ks| > 0
    requires forall i, j :: 0 <= i < j < |ks| ==> ks[i] != ks[j]
    ensures forall i, j :: 0 <= i < j < |ks[1..]| ==> ks[1..][i] != ks[1..][j]
    ensures ks[0] !in ks[1..]
  {
    var tail := ks[1..];
    forall i, j | 0 <= i < j < |tail| ensures tail[i] != tail[j] {
      assert tail[i] == ks[i + 1] && tail[j] == ks[j + 1];
    }
    forall i | 0 <= i < |tail| ensures tail[i] != ks[0] {
      assert tail[i] == ks[i + 1];
    }
  }

  /** The holders among `ks` are the first key if it holds `v`, plus the holders in the
      rest, and the two parts are disjoint. */
  lemma HoldersSplit(ks: seq<string>, m: map<string, ViewModel>, v: ViewModel)
    requires |ks| > 0 && ks[0] in m
    requires ks[0] !in ks[1..]
    ensures |Holders(ks, m, v)| == (if m[ks[0]] == v then 1 else 0) + |Holders(ks[1..], m, v)|
  {
    var tail := ks[1..];
    assert forall k :: k in ks <==> k == ks[0] || k in tail by {
      assert ks == [ks[0]] + tail;
    }
    if m[ks[0]] == v {
      assert Holders(ks, m, v) == {ks[0]} + Holders(tail, m, v);
    } else {
      assert Holders(ks, m, v) == Holders(tail, m, v);
    }
  }

  /** The per-owner store: a string-keyed map of instances that, like a JavaScript `Map`,
      remembers the order in which keys were first inserted. */
  class ViewModelStore {
    var entries: map<string, ViewModel>
    var order: seq<string>

    ghost predicate Valid()
      reads this
    {
      && (forall i, j :: 0 <= i < j < |order| ==> order[i] != order[j])
      && (forall k :: k in entries <==> k in order)
    }

    constructor ()
      ensures Valid() && entries == map[] && order == []
    {
      entries := map[];
      order := [];
    }

    /** The instance held under `key`, or `None`; a function, so it changes nothing. */
    function Get(key: string): (r: Option<ViewModel>)
      reads this
      requires Valid()
      ensures r.Some? <==> key in Keys()
    {
      if key in entries then Some(entries[key]) else None
    }

    /** Every held key exactly once, in insertion order. */
    function Keys(): (ks: seq<string>)
      reads this
      requires Valid()
      ensures forall k :: k in ks <==> k in entries
      ensures forall i, j :: 0 <= i < j < |ks| ==> ks[i] != ks[j]
    {
      order
    }

    /** One value per held key, in key order; an instance held under several keys
        appears once for each. */
    function Values(): (vs: seq<ViewModel>)
      reads this
      requires Valid()
      ensures |vs| == |Keys()|
      ensures forall i :: 0 <= i < |vs| ==> Get(Keys()[i]) == Some(vs[i])
      ensures forall k :: k in entries ==> entries[k] in vs
      ensures forall i :: 0 <= i < |vs| ==> vs[i] in entries.Values
    {
      Gather(order, entries)
    }

    /** The keys whose entry holds `v`. */
    ghost function KeysHolding(v: ViewModel): set<string>
      reads this
    {
      set k | k in entries && entries[k] == v
    }

    /** No instance is held under two keys. */
    ghost predicate HoldsDistinct()
      reads this
    {
      forall k, k' :: k in entries && k' in entries && k != k' ==> entries[k] != entries[k']
    }

    /** Inserts or overwrites unconditionally; an overwritten key keeps its position. */
    method Put(key: string, value: ViewModel)
      requires Valid()
      modifies this
      ensures Valid()
      ensures entries == old(entries)[key := value]
      ensures order == if key in old(entries) then old(order) else old(order) + [key]
      ensures Get(key) == Some(value)
      ensures forall k :: k != key ==> Get(k) == old(Get(k))
    {
      if key !in entries {
        order := order + [key];
      }
      entries := entries[key := value];
    }

    /** Empties the store; it does not release anything itself. */
    method Clear()
      requires Valid()
      modifies this
      ensures Valid() && entries == map[] && order == []
      ensures Keys() == [] && Values() == []
      ensures forall k :: Get(k) == None
    {
      entries := map[];
      order := [];
    }
  }

  /** In a store's values snapshot, each instance occurs once for every key holding it. */
  lemma ValuesCountKeys(s: ViewModelStore, v: ViewModel)
    requires s.Valid()
    ensures multiset(s.Values())[v] == |s.KeysHolding(v)|
  {
    OccurrencesCountHolders(s.order, s.entries, v);
    assert Holders(s.order, s.entries, v) == s.KeysHolding(v);
  }

  /** In a store that holds distinct instances, every held instance sits under one key. */
  lemma DistinctHeldOnce(s: ViewModelStore, v: ViewModel)
    requires s.HoldsDistinct()
    requires v in s.entries.Values
    ensures |s.KeysHolding(v)| == 1
  {
    var k :| k in s.entries && s.entries[k] == v;
    assert s.KeysHolding(v) == {k};
  }

  /** A component that can hand out its store. The source only declares this accessor; here
      it creates the store on first request and caches it (in `$viewModelStore`). */
  class Owner {
    var viewModelStore: ViewModelStore?

    ghost predicate Valid()
      reads this, viewModelStore
    {
      viewModelStore != null ==> viewModelStore.Valid()
    }

    constructor ()
      ensures viewModelStore == null
    {
      viewModelStore := null;
    }

    /** The owner and its store, if it has one. */
    ghost function StoreFrame(): set<object>
      reads this
    {
      if viewModelStore == null then {this} else {this, viewModelStore}
    }

    /** The owner, its store and every instance the store holds. */
    ghost function Repr(): set<object>
      reads this, viewModelStore
    {
      StoreFrame() + (if viewModelStore == null then {} else viewModelStore.entries.Values)
    }

    /** The instance held under `key` in this owner's store; nothing if no store exists. */
    function Lookup(key: string): Option<ViewModel>
      reads this, viewModelStore
      requires Valid()
    {
      if viewModelStore == null then None else viewModelStore.Get(key)
    }

    /** The values of the owner's store; none if it has no store yet. */
    function Snapshot(): seq<ViewModel>
      reads this, viewModelStore
      requires Valid()
    {
      if viewModelStore == null then [] else viewModelStore.Values()
    }

    /** Always the same store for the same owner: the cached one if present, otherwise a
        fresh empty one that is cached from then on. */
    method GetViewModelStore() returns (s: ViewModelStore)
      requires Valid()
      modifies this
      ensures Valid() && viewModelStore == s
      ensures old(viewModelStore) != null ==> s == old(viewModelStore)
      ensures old(viewModelStore) == null ==> fresh(s) && s.entries == map[] && s.order == []
    {
      if viewModelStore == null {
        viewModelStore := new ViewModelStore();
      }
      s := viewModelStore;
    }
  }

  /** How a factory constructs: `Nullary` is the default factory (`new ctor()`);
      `WithArguments` is a custom factory that constructs the kinds it knows with fixed
      constructor arguments and throws for any other kind. */
  datatype Recipe = Nullary | WithArguments(arguments: map<Kind, seq<int>>)

  /** Whether `recipe` can construct an instance of `kind`. */
  predicate Builds(recipe: Recipe, kind: Kind)
  {
    match recipe
    case Nullary => kind.nullaryConstructible
    case WithArguments(arguments) => kind in arguments
  }

  /** The constructor arguments `recipe` passes for `kind`. */
  function ArgumentsFor(recipe: Recipe, kind: Kind): seq<int>
    requires Builds(recipe, kind)
  {
    match recipe
    case Nullary => []
    case WithArguments(arguments) => arguments[kind]
  }

  /** A factory; `calls` counts the invocations of `create`. */
  class ViewModelFactory {
    const recipe: Recipe
    var calls: nat

    constructor (recipe: Recipe)
      ensures this.recipe == recipe && calls == 0
    {
      this.recipe := recipe;
      calls := 0;
    }

    /** Constructs a new instance of `kind`, or fails when the recipe cannot. */
    method Create(kind: Kind) returns (r: Result<ViewModel>)
      modifies this
      ensures calls == old(calls) + 1
      ensures r.Ok? <==> Builds(recipe, kind)
      ensures r.Ok? ==> fresh(r.value) && r.value.kind == kind && r.value.released == 0
      ensures r.Ok? ==> r.value.arguments == ArgumentsFor(recipe, kind)
      ensures r.Err? ==> r.error == ConstructionFailed(kind.name)
    {
      calls := calls + 1;
      if Builds(recipe, kind) {
        var vm := new ViewModel(kind, ArgumentsFor(recipe, kind));
        r := Ok(vm);
      } else {
        r := Err(ConstructionFailed(kind.name));
      }
    }
  }

  /** Provides the instances of one owner's scope. */
  class ViewModelProvider {
    const viewModelStore: ViewModelStore
    const factory: ViewModelFactory

    /** Takes the owner's store and the given factory, or a new default factory. */
    constructor (owner: Owner, customFactory: Option<ViewModelFactory>)
      requires owner.Valid()
      modifies owner
      ensures owner.Valid() && viewModelStore == owner.viewModelStore
      ensures old(owner.viewModelStore) != null ==> viewModelStore == old(owner.viewModelStore)
      ensures old(owner.viewModelStore) == null ==>
                fresh(viewModelStore) && viewModelStore.entries == map[] && viewModelStore.order == []
      ensures customFactory.Some? ==> factory == customFactory.value
      ensures customFactory.None? ==> fresh(factory) && factory.recipe == Nullary && factory.calls == 0
    {
      var store := owner.GetViewModelStore();
      viewModelStore := store;
      if customFactory.None? {
        factory := new ViewModelFactory(Nullary);
      } else {
        factory := customFactory.value;
      }
    }

    /** Lookup-or-create under the key `kind.name`. A hit returns the held instance and
        touches neither the store nor the factory. A miss calls the factory once; on success
        the new instance is stored under the key and returned, on failure the error
        propagates and the store is unchanged. */
    method Get(kind: Kind) returns (r: Result<ViewModel>)
      requires viewModelStore.Valid()
      modifies viewModelStore, factory
      ensures viewModelStore.Valid()
      ensures old(viewModelStore.Get(kind.name)).Some? ==>
                && r == Ok(old(viewModelStore.Get(kind.name)).value)
                && unchanged(viewModelStore) && factory.calls == old(factory.calls)
      ensures old(viewModelStore.Get(kind.name)).None? ==>
                && factory.calls == old(factory.calls) + 1
                && (r.Ok? <==> Builds(factory.recipe, kind))
      ensures old(viewModelStore.Get(kind.name)).None? && r.Ok? ==>
                && fresh(r.value) && r.value.kind == kind && r.value.released == 0
                && r.value.arguments == ArgumentsFor(factory.recipe, kind)
                && viewModelStore.entries == old(viewModelStore.entries)[kind.name := r.value]
                && viewModelStore.order == old(viewModelStore.order) + [kind.name]
      ensures r.Err? ==> r.error == ConstructionFailed(kind.name) && unchanged(viewModelStore)
      ensures r.Ok? ==> viewModelStore.Get(kind.name) == Some(r.value)
      ensures old(viewModelStore.HoldsDistinct()) ==> viewModelStore.HoldsDistinct()
    {
      var key := kind.name;
      var viewModel := viewModelStore.Get(key);
      if viewModel.None? {
        r := factory.Create(kind);
        if r.Ok? {
          viewModelStore.Put(key, r.value);
        }
      } else {
        r := Ok(viewModel.value);
      }
    }
  }

  /** Two successive requests for the same kind yield the identical instance. The factory
      runs once if the first request missed and not at all on a hit; the second request
      never calls it. A failed construction fails again, with one factory call each. */
  method GetTwice(provider: ViewModelProvider, kind: Kind) returns (first: Result<ViewModel>, second: Result<ViewModel>)
    requires provider.viewModelStore.Valid()
    modifies provider.viewModelStore, provider.factory
    ensures first.Ok? ==> second == first
    ensures old(provider.viewModelStore.Get(kind.name)).Some? ==>
              provider.factory.calls == old(provider.factory.calls)
    ensures old(provider.viewModelStore.Get(kind.name)).None? && first.Ok? ==>
              provider.factory.calls == old(provider.factory.calls) + 1
    ensures first.Err? ==>
              second == first && provider.factory.calls == old(provider.factory.calls) + 2
  {
    first := provider.Get(kind);
    second := provider.Get(kind);
  }

  /** The owner `viewModels` works for: the explicit one, otherwise the ambient one. */
  ghost function ResolvedOwner(instance: Option<Owner>, contextManager: ContextManager<Owner>): Option<Owner>
    reads contextManager
  {
    if instance.Some? then instance else contextManager.currentContext
  }

  ghost function ResolvedFrame(instance: Option<Owner>, contextManager: ContextManager<Owner>): set<object>
    reads contextManager
    reads if ResolvedOwner(instance, contextManager).Some? then {ResolvedOwner(instance, contextManager).value} else {}
  {
    var owner := ResolvedOwner(instance, contextManager);
    if owner.Some? then owner.value.StoreFrame() else {}
  }

  /** Lookup-or-create in one owner's scope through a provider with the default factory:
      a held instance is returned; otherwise one is built with `new ctor()` and stored, or
      the construction error is returned and the store is left as it was. No other key's
      lookup changes, and the owner keeps its store (or has a fresh one if it had none). */
  method GetFor(owner: Owner, kind: Kind) returns (r: Result<ViewModel>)
    requires owner.Valid()
    modifies owner.StoreFrame()
    ensures owner.Valid() && owner.viewModelStore != null
    ensures old(owner.viewModelStore) != null ==> owner.viewModelStore == old(owner.viewModelStore)
    ensures old(owner.viewModelStore) == null ==> fresh(owner.viewModelStore)
    ensures r.Err? ==> owner.Lookup(kind.name) == old(owner.Lookup(kind.name))
    ensures old(owner.viewModelStore == null || owner.viewModelStore.HoldsDistinct()) ==>
              owner.viewModelStore.HoldsDistinct()
    ensures old(owner.Lookup(kind.name)).Some? ==> r == Ok(old(owner.Lookup(kind.name)).value)
    ensures old(owner.Lookup(kind.name)).None? ==> (r.Ok? <==> kind.nullaryConstructible)
    ensures r.Ok? ==> owner.Lookup(kind.name) == Some(r.value)
    ensures r.Err? ==> r.error == ConstructionFailed(kind.name)
    ensures forall k :: k != kind.name ==> owner.Lookup(k) == old(owner.Lookup(k))
    ensures r.Ok? && old(owner.Lookup(kind.name)).None? ==>
              fresh(r.value) && r.value.kind == kind && r.value.arguments == [] && r.value.released == 0
  {
    var provider := new ViewModelProvider(owner, None);
    r := provider.Get(kind);
  }

  /** `viewModels(ctor, instance?)`: resolves the owner (the explicit instance, else the
      context manager's checked accessor, which fails on an empty slot before anything is
      touched) and asks a provider with the default factory for an instance of `kind`. */
  method ViewModels(kind: Kind, instance: Option<Owner>, contextManager: ContextManager<Owner>)
    returns (r: Result<ViewModel>)
    requires ResolvedOwner(instance, contextManager).Some? ==> ResolvedOwner(instance, contextManager).value.Valid()
    modifies ResolvedFrame(instance, contextManager)
    ensures instance.None? && contextManager.currentContext.None? ==> r == Err(NoCurrentContext)
    ensures ResolvedOwner(instance, contextManager).Some? ==>
              var owner := ResolvedOwner(instance, contextManager).value;
              && owner.Valid() && owner.viewModelStore != null
              && (old(owner.viewModelStore) != null ==> owner.viewModelStore == old(owner.viewModelStore))
              && (old(owner.viewModelStore) == null ==> fresh(owner.viewModelStore))
              && (old(owner.Lookup(kind.name)).Some? ==> r == Ok(old(owner.Lookup(kind.name)).value))
              && (old(owner.Lookup(kind.name)).None? ==> (r.Ok? <==> kind.nullaryConstructible))
              && (r.Ok? ==> owner.Lookup(kind.name) == Some(r.value))
              && (r.Err? ==> r.error == ConstructionFailed(kind.name))
              && (r.Err? ==> owner.Lookup(kind.name) == old(owner.Lookup(kind.name)))
              && (forall k :: k != kind.name ==> owner.Lookup(k) == old(owner.Lookup(k)))
              && (old(owner.viewModelStore == null || owner.viewModelStore.HoldsDistinct()) ==>
                    owner.viewModelStore.HoldsDistinct())
    ensures ResolvedOwner(instance, contextManager).Some? && r.Ok? &&
            old(ResolvedOwner(instance, contextManager).value.Lookup(kind.name)).None? ==>
              fresh(r.value) && r.value.kind == kind && r.value.arguments == [] && r.value.released == 0
  {
    var owner: Owner;
    if instance.Some? {
      owner := instance.value;
    } else {
      var context := contextManager.FooCurrentContext();
      if context.Err? {
        return Err(context.error);
      }
      owner := context.value;
    }
    r := GetFor(owner, kind);
  }

  /** Idempotent retrieval through the entry point: asking one owner twice for the same
      kind yields the identical instance, and a failed construction fails the same way
      again without leaving anything in the store. */
  method ViewModelsTwice(kind: Kind, owner: Owner, contextManager: ContextManager<Owner>)
    returns (first: Result<ViewModel>, second: Result<ViewModel>)
    requires owner.Valid()
    modifies owner.StoreFrame()
    ensures owner.Valid() && owner.viewModelStore != null
    ensures first.Ok? ==> second == first
    ensures first.Err? ==> second == first && owner.Lookup(kind.name) == old(owner.Lookup(kind.name))
  {
    first := ViewModels(kind, Some(owner), contextManager);
    second := ViewModels(kind, Some(owner), contextManager);
  }

  /** Scope isolation: resolving an instance for one owner leaves the store of every other
      owner, which never shares that store, exactly as it was. */
  method ViewModelsIsolated(kind: Kind, a: Owner, b: Owner, contextManager: ContextManager<Owner>)
    returns (r: Result<ViewModel>)
    requires a.Valid() && b.Valid() && a != b
    requires b.viewModelStore == null || b.viewModelStore != a.viewModelStore
    modifies a, a.viewModelStore
    ensures b.Valid() && b.viewModelStore == old(b.viewModelStore)
    ensures forall k :: b.Lookup(k) == old(b.Lookup(k))
  {
    r := ViewModels(kind, Some(a), contextManager);
  }
}

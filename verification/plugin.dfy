/** The lifecycle binding: the teardown run just before a component is unmounted, which
    releases every instance in the component's store and then empties the store. */
module Plugin {
  import opened Outcomes
  import opened Registry
  import opened Contexts

  /** The component handed to the teardown: `Owning` when it exposes `getViewModelStore`,
      `Bare` when it does not. */
  datatype Component = Bare | Owning(owner: Owner)

  /** What the teardown of `instance` may change: the owner, its store and the instances
      the store holds. */
  ghost function TeardownFrame(instance: Component): set<object>
    reads if instance.Owning? then {instance.owner} else {}
    reads if instance.Owning? then {instance.owner.viewModelStore} else {}
  {
    if instance.Owning? then instance.owner.Repr() else {}
  }

  /** Calls the release hook of each snapshot entry in turn: every instance is released
      once for each time it occurs in the snapshot, and nothing else is touched. */
  method ClearEach(vms: seq<ViewModel>)
    modifies set v | v in vms
    ensures forall v :: v in vms ==> v.released == old(v.released) + multiset(vms)[v]
  {
    for i := 0 to |vms|
      invariant forall v :: v in vms ==> v.released == old(v.released) + multiset(vms[..i])[v]
    {
      assert vms[..i + 1] == vms[..i] + [vms[i]];
      vms[i].Clear();
    }
    assert vms[..|vms|] == vms;
  }

  /** Releases a store's instances: a snapshot of its values is taken, `clear()` is
      called on each snapshot entry and the store is emptied. Every instance held at entry
      is released once for each key that held it, so exactly once when the store held
      distinct instances. */
  method ReleaseAll(store: ViewModelStore)
    requires store.Valid()
    modifies store, store.entries.Values
    ensures store.Valid() && store.entries == map[] && store.order == []
    ensures forall v :: v in old(store.Values()) ==>
              v.released == old(v.released) + old(|store.KeysHolding(v)|)
    ensures old(store.HoldsDistinct()) ==>
              forall v :: v in old(store.Values()) ==> v.released == old(v.released) + 1
  {
    var vms := store.Values();
    forall v | v in vms
      ensures multiset(vms)[v] == |store.KeysHolding(v)|
    {
      ValuesCountKeys(store, v);
    }
    forall v | v in vms && store.HoldsDistinct()
      ensures |store.KeysHolding(v)| == 1
    {
      DistinctHeldOnce(store, v);
    }
    ClearEach(vms);
    store.Clear();
  }

  /** The teardown of a component that exposes its store: the store is fetched (created
      empty if the component never had one) and released as `ReleaseAll` describes. */
  method Release(owner: Owner)
    requires owner.Valid()
    modifies owner.Repr()
    ensures owner.Valid() && owner.viewModelStore != null
    ensures old(owner.viewModelStore) != null ==> owner.viewModelStore == old(owner.viewModelStore)
    ensures old(owner.viewModelStore) == null ==> fresh(owner.viewModelStore)
    ensures owner.viewModelStore.entries == map[] && owner.viewModelStore.order == []
    ensures forall v :: v in old(owner.Snapshot()) ==>
              v.released == old(v.released) + old(|owner.viewModelStore.KeysHolding(v)|)
    ensures old(owner.viewModelStore != null && owner.viewModelStore.HoldsDistinct()) ==>
              forall v :: v in old(owner.Snapshot()) ==> v.released == old(v.released) + 1
  {
    var store := owner.GetViewModelStore();
    ReleaseAll(store);
  }

  /** `Plugin.tearDown`: a component without the accessor is left alone; otherwise its
      store is released as `Release` describes. */
  method TearDown(instance: Component)
    requires instance.Owning? ==> instance.owner.Valid()
    modifies TeardownFrame(instance)
    ensures instance.Owning? ==>
              var owner := instance.owner;
              && owner.Valid() && owner.viewModelStore != null
              && (old(owner.viewModelStore) != null ==> owner.viewModelStore == old(owner.viewModelStore))
              && (old(owner.viewModelStore) == null ==> fresh(owner.viewModelStore))
              && owner.viewModelStore.entries == map[] && owner.viewModelStore.order == []
    ensures instance.Owning? ==>
              forall v :: v in old(instance.owner.Snapshot()) ==>
                v.released == old(v.released) + old(|instance.owner.viewModelStore.KeysHolding(v)|)
    ensures instance.Owning? && old(instance.owner.viewModelStore != null && instance.owner.viewModelStore.HoldsDistinct()) ==>
              forall v :: v in old(instance.owner.Snapshot()) ==> v.released == old(v.released) + 1
  {
    match instance
    case Bare =>
    case Owning(owner) =>
      Release(owner);
  }

  /** At most one release per held entry even if the hook fired twice: the second
      teardown finds the store empty and releases nothing. */
  method TearDownTwice(instance: Component)
    requires instance.Owning? ==> instance.owner.Valid()
    modifies TeardownFrame(instance)
    ensures instance.Owning? ==>
              forall v :: v in old(instance.owner.Snapshot()) ==>
                v.released == old(v.released) + old(|instance.owner.viewModelStore.KeysHolding(v)|)
    ensures instance.Owning? ==> instance.owner.Valid() && instance.owner.Snapshot() == []
  {
    TearDown(instance);
    TearDown(instance);
  }

  /** The error of calling the `values` method the store class does not define. */
  const MissingValues := "viewModelStore.values is not a function"

  /** The teardown as written against the store class as defined: that class has no
      `values` method, so once a store is at hand the call fails with a type error, before
      any instance is released and before the store is emptied. */
  method TearDownAsWritten(instance: Component) returns (r: Result<()>)
    requires instance.Owning? ==> instance.owner.Valid()
    modifies if instance.Owning? then {instance.owner} else {}
    ensures instance.Bare? ==> r == Ok(())
    ensures instance.Owning? ==> r == Err(Thrown(MissingValues))
    ensures instance.Owning? ==>
              && instance.owner.Valid()
              && (old(instance.owner.viewModelStore) != null ==>
                    instance.owner.viewModelStore == old(instance.owner.viewModelStore))
              && forall k :: instance.owner.Lookup(k) == old(instance.owner.Lookup(k))
  {
    match instance
    case Bare =>
      r := Ok(());
    case Owning(owner) =>
      var store := owner.GetViewModelStore();
      r := Err(Thrown(MissingValues));
  }

  /** A fresh component whose store holds one fresh, unreleased instance. */
  method OneInstanceOwner() returns (owner: Owner, vm: ViewModel)
    ensures fresh(owner) && fresh(vm) && owner.Valid()
    ensures owner.viewModelStore != null && fresh(owner.viewModelStore)
    ensures owner.viewModelStore.entries == map["Counter" := vm] && vm.released == 0
  {
    vm := new ViewModel(Kind("Counter", 0, true), []);
    owner := new Owner();
    var store := owner.GetViewModelStore();
    store.Put("Counter", vm);
  }

  /** A component whose store holds one instance: as written, the teardown fails, and the
      instance is neither released nor removed from the store; the teardown with `Values`
      releases it exactly once and empties the store. */
  method MissingValuesLeaks() returns (asWritten: Result<()>, leaked: nat, stillHeld: bool, released: nat, emptied: bool)
    ensures asWritten == Err(Thrown(MissingValues)) && leaked == 0 && stillHeld
    ensures released == 1 && emptied
  {
    var owner, vm := OneInstanceOwner();
    var store := owner.viewModelStore;
    asWritten := TearDownAsWritten(Owning(owner));
    leaked := vm.released;
    stillHeld := owner.Lookup("Counter") == Some(vm);
    assert owner.viewModelStore == store && store.HoldsDistinct();
    assert vm in owner.Snapshot();
    TearDown(Owning(owner));
    released := vm.released;
    emptied := owner.Snapshot() == [];
  }

  /** End to end: an instance resolved through `viewModels` for a new component is
      released exactly once when that component is torn down. */
  method ResolveThenTearDown(kind: Kind, contextManager: ContextManager<Owner>)
    returns (r: Result<ViewModel>, released: nat)
    ensures r.Ok? <==> kind.nullaryConstructible
    ensures r.Ok? ==> released == 1
  {
    var owner := new Owner();
    r := ViewModels(kind, Some(owner), contextManager);
    released := 0;
    if r.Ok? {
      var store := owner.viewModelStore;
      assert forall k :: k in store.entries ==> k == kind.name by {
        forall k | k in store.entries ensures k == kind.name {
          assert owner.Lookup(k).Some?;
        }
      }
      assert store.entries == map[kind.name := r.value];
      assert r.value.released == 0 && store.HoldsDistinct();
      assert r.value in owner.Snapshot();
      TearDown(Owning(owner));
      released := r.value.released;
    }
  }
}

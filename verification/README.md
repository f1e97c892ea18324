# vue-viewmodel: scoped view-model registry, in Dafny

This project models the core of `vue-viewmodel`, a plugin that gives each Vue component its
own lazily created view-model instances and releases them when the component is unmounted.
The model covers these parts:

- **Registry** (`viewmodel.dfy`, module `Registry`):
  - `ViewModel` instances, each with a counter of `clear()` calls.
  - The per-component `ViewModelStore`. It maps a kind's name to an instance and keeps key
    insertion order, as a JavaScript `Map` does.
  - `Owner`, a component with a `getViewModelStore` accessor. The source declares this
    accessor only as an interface whose contract is "always the same store for the same
    scope" (src/viewmodel.ts:73-83). The model chooses an implementation: the store is
    created on first request and cached.
  - Factories. `Nullary` is the default factory, which runs `new ctor()`. `WithArguments` is
    a custom factory that builds known kinds with fixed constructor arguments and throws for
    any other kind.
  - `ViewModelProvider`'s lookup-or-create.
  - The `viewModels(ctor, instance?)` entry point.
- **Ambient context** (`contextmanager.dfy`, module `Contexts`):
  - The single mutable slot.
  - Its checked accessor, `fooCurrentContext`.
  - `withContext`, which saves the slot, sets it, runs the callback and restores the slot.
  - The callback is user code. It is modelled as an `Action`, a small program over the slot
    that can read the slot, require a context, assign it, throw, open a nested scope,
    sequence and catch.
  - `Eval` gives an action's meaning.
  - `RunOnStack` is an independent reference semantics with an explicit activation stack.
- **Lifecycle binding** (`plugin.dfy`, module `Plugin`): `Plugin.tearDown`, which snapshots
  a store's values, calls `clear()` on each one and then empties the store.
  `tearDown` calls `values()` on the store (src/plugin.ts:47), but the store class defines
  only `get`, `put`, `keys` and `clear` (src/viewmodel.ts:30-68); see "## Findings". The
  model adds `Values()` as the map's values in key order, the view the teardown evidently
  expects.
- **Errors** (`outcomes.dfy`, module `Outcomes`): the failures the core throws, returned as
  `Result` values:
  - construction failure;
  - no current context;
  - an exception from user code.

## Model

| member | source | states |
|---|---|---|
| `Registry.ViewModel.Clear` | src/viewmodel.ts:17-19 | the release hook; each call adds one to the instance's release count |
| `Registry.ViewModelStore.constructor` | src/viewmodel.ts:35 | a new store holds no keys and no values |
| `Registry.ViewModelStore.Get` | src/viewmodel.ts:44-46 | a lookup hits exactly for the keys listed by `Keys`; as a function it cannot change the store |
| `Registry.ViewModelStore.Keys` | src/viewmodel.ts:58-60 | lists exactly the held keys, each once |
| `Registry.ViewModelStore.Values` | src/plugin.ts:47 | the `values()` view the teardown uses, which the store class itself lacks: one value per key, in key order; each is what `Get` returns for that key; every held instance appears and nothing else does |
| `Registry.ViewModelStore.Put` | src/viewmodel.ts:54-56 | insert or overwrite without conditions: afterwards `Get(key)` is the new value (also after an earlier put), every other key's lookup is unchanged, and a new key goes to the end of the key order |
| `Registry.ViewModelStore.Clear` | src/viewmodel.ts:65-67 | afterwards every lookup misses, and `Keys()` and `Values()` are empty |
| `Registry.OccurrencesCountHolders` | src/plugin.ts:47-51 | gathering the values of distinct keys yields each instance once for each key holding it |
| `Registry.ValuesCountKeys` | src/plugin.ts:47-51 | in a store's values snapshot, an instance occurs as many times as there are keys holding it |
| `Registry.DistinctHeldOnce` | src/plugin.ts:47-51 | when no instance is held under two keys, every held instance is held under exactly one |
| `Registry.Owner.GetViewModelStore` | src/viewmodel.ts:73-83 | the same store for the same owner: the cached one if present, otherwise a fresh empty store that is cached from then on |
| `Registry.ViewModelFactory.Create` | src/viewmodel.ts:88-115 | counts one invocation; succeeds exactly when the recipe can build the kind (the default: when `new ctor()` works), returning a fresh instance of that kind built with the recipe's arguments; otherwise fails with a construction error naming the kind |
| `Registry.ViewModelProvider.constructor` | src/viewmodel.ts:146-153 | takes the owner's store; uses the given factory if one is supplied, otherwise a fresh default factory |
| `Registry.ViewModelProvider.Get` | src/viewmodel.ts:161-172 | key is the kind's name. On a hit: returns the held instance, store and factory untouched. On a miss: the factory is called exactly once. If it succeeds, the fresh instance is stored under the key and returned. If it fails, the error propagates and the store is unchanged. A store holding distinct instances keeps doing so |
| `Registry.GetTwice` | src/viewmodel.ts:161-172 | two successive requests for one kind return the identical instance. The factory is called exactly once when the first request missed, not at all on a hit, and never by the second request. A failed construction fails again, with one factory call per request |
| `Registry.GetFor` | src/viewmodel.ts:189-191 | in the resolved owner's scope with the default factory: a held instance is returned; otherwise a fresh, never released instance built by `new ctor()` is stored and returned, or the construction error is returned and the key still misses; no other key's lookup changes; the owner keeps its store (or gets a fresh one if it had none), and a store holding distinct instances keeps doing so |
| `Registry.ViewModels` | src/viewmodel.ts:182-192 | uses the explicit owner when one is given and consults the context only when it is absent. With neither it fails with the no-context error and touches nothing. Otherwise it returns the owner's held instance, or a fresh, never released default-built one that is now stored, or a construction error that leaves the store as it was. Other keys are untouched, the owner keeps its store (or gets a fresh one), and distinct instances stay distinct |
| `Registry.ViewModelsTwice` | src/viewmodel.ts:182-192 | idempotent retrieval: two calls for one owner and kind return the identical instance, and a failed construction fails the same way twice with the key still missing |
| `Registry.ViewModelsIsolated` | src/viewmodel.ts:182-192 | scope isolation: resolving for owner A leaves every lookup in another owner B's store unchanged, when the two do not share a store |
| `Contexts.RunOnStack` | src/contextmanager.ts:25-33 | on the reference activation stack, running any action keeps the stack depth and every entry below the top, so scopes nest like a call stack |
| `Contexts.SlotIsTopOfStack` | src/contextmanager.ts:25-33 | the single save/restore slot gives the same results as the activation stack and always equals its top |
| `Contexts.SlotUntouched` | src/contextmanager.ts:25-33 | user code that never assigns the slot leaves it as found, on normal and exceptional exits and whatever nested scopes it opens |
| `Contexts.NestedScopesRestore` | src/contextmanager.ts:25-33 | inside `withContext(A, ...)`, once an inner `withContext(B, ...)` has returned or thrown, the slot reads `A`; after the outer call it is back to the original value |
| `Contexts.ThrowPropagates` | src/contextmanager.ts:28-32 | in the action semantics, an exception thrown inside a scope comes out of it unchanged and the slot is restored (a direct consequence of the definition; the manager's own promise is `WithContext`'s) |
| `Contexts.ContextManager.constructor` | src/contextmanager.ts:4 | a new manager's slot is empty |
| `Contexts.ContextManager.GetCurrentContext` | src/contextmanager.ts:11-13 | returns the slot's value unchanged; as a function it cannot modify the slot |
| `Contexts.ContextManager.SetCurrentContext` | src/contextmanager.ts:6-13 | after `setCurrentContext(x)`, `getCurrentContext()` returns `x` |
| `Contexts.ContextManager.FooCurrentContext` | src/contextmanager.ts:15-23 | fails with the no-context error exactly when the slot is empty; otherwise returns the slot's value and leaves the slot unchanged |
| `Contexts.ContextManager.WithContext` | src/contextmanager.ts:25-33 | the callback runs with the slot set to `vm`; its result or exception is returned; on both paths the slot afterwards holds its value from before the call |
| `Contexts.ContextManager.Run` | src/contextmanager.ts:29 | running the callback against the real slot gives exactly the result and final slot that `Eval` prescribes |
| `Plugin.ClearEach` | src/plugin.ts:49-51 | the `forEach` over the snapshot: each instance is released once for each time it occurs in the snapshot |
| `Plugin.ReleaseAll` | src/plugin.ts:46-53 | snapshot, release, clear. Afterwards the store is empty. Every instance held at entry was released once per key that held it, which is exactly once when the store held distinct instances |
| `Plugin.Release` | src/plugin.ts:42-53 | the teardown of a component that has the accessor: its store (created empty if it had none) ends empty, with the release counts of `ReleaseAll` |
| `Plugin.TearDown` | src/plugin.ts:38-54 | a component without `getViewModelStore` is left alone. Otherwise every instance its store held at entry is released once per holding key (exactly once for distinct instances), and the store ends empty |
| `Plugin.TearDownTwice` | src/plugin.ts:38-54 | a second teardown releases nothing more: after two teardowns the release counts are those of one, and the store is empty |
| `Plugin.ResolveThenTearDown` | src/plugin.ts:38-54 | end to end for a new component: `viewModels` succeeds exactly when `new ctor()` works, and the instance it returns has been released exactly once after the component's teardown |
| `Plugin.TearDownAsWritten` | src/plugin.ts:38-54 | the teardown against the store class as defined: a component without the accessor succeeds untouched; for any other component the `values()` call fails with a type error, and no lookup in its store changes |
| `Plugin.MissingValuesLeaks` | src/plugin.ts:47 | for a component holding one instance, the teardown as written fails and leaves the instance unreleased and still stored, while the teardown with `Values` releases it once and empties the store |

Some statements above are also kept by the frames:
- `viewModels` and `ViewModelProvider.get` may modify only the resolved owner, its store and
  the factory, so other owners' stores are untouched.
- `tearDown` may modify only the component, its store and the instances that store holds.

## Left out

- `Plugin.install`, the `Vue.mixin` registration and the `beforeUnmount` hook that calls
  `tearDown` (src/plugin.ts:24-31) are host-framework plumbing. The model has the teardown
  itself and not the wiring that fires it once per unmount.
- `getNonNullCurrentInstance` (src/util.ts) wraps a Vue call that cannot be seen here.
  src/util.ts is not part of this model.
- `new ctor()` and JavaScript's arity behaviour are abstracted:
  - A kind records whether argument-less construction succeeds for it.
  - Custom factories are limited to "build a fresh instance of the kinds it knows with fixed
    arguments, throw otherwise", which is the shape of the factory in the tests.
  - A custom factory that hands out one shared instance is not modelled. The store-level
    release lemmas still cover stores that hold an instance under several keys, since `put`
    is public.
- What a `clear()` override releases (the test helpers log to the console) is replaced by a
  release counter. A `clear()` that throws is not modelled. In the source, such an
  exception would abort the `forEach` and skip emptying the store.
- Error message texts are abstracted into the `Error` constructors.
- `viewModels` reads `Plugin.contextManager`, which src/plugin.ts never defines. The model
  passes the context manager in as a parameter.
- `viewModels` takes only `(ctor, instance?)` and always builds its provider with the default
  factory, so the model does the same. The test that passes a factory as a third argument
  (test/viewmodel.spec.ts:139) describes an API the code does not have.
- `tearDown` decides by whether the component has a `getViewModelStore` method, and then
  checks that the store it returns exists. The source contains no implementation of the
  accessor, so the model's `Owner` always returns a store.
- Plugin.TearDown: for an `Owning` component that never requested a store, the comments at
  src/plugin.ts:41,45 say the teardown does nothing. The model's teardown instead creates an
  empty store through the accessor. No instance is released either way, but the model
  allocates a store.
- Plugin.TearDown: releases an instance once per key that holds it, because the snapshot is
  the map's values. "Exactly once per instance" is proved only for stores that hold distinct
  instances. Every store filled through the provider holds distinct instances, since created
  instances are fresh and `ViewModelProvider.Get` preserves distinctness.
- An owner lacking `getViewModelStore` passed to `viewModels` is excluded by the owner type.
  In the source that is a run-time `TypeError`.
- Keys are the kind's declared name, as in the source. Two distinct kinds with the same name
  (`Kind.tag` tells them apart) share one entry, and the second request returns the first
  kind's instance.

## Findings

| source | as written | input that shows it | evidently intended | confidence | as-written member | corrected member |
|---|---|---|---|---|---|---|
| src/plugin.ts:47 | `tearDown` calls `values()` on the store, but the store class (src/viewmodel.ts:30-68) defines no `values` method, so the call fails with a type error | a component whose store holds one instance | the teardown releases every held instance and empties the store | high, not executed | `Plugin.TearDownAsWritten`, `Plugin.MissingValuesLeaks` | `Registry.ViewModelStore.Values`, `Plugin.TearDown` |

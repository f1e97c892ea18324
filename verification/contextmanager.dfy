/** The ambient-context manager: a single mutable slot holding the component that is
    currently being set up, with a save/set/run/restore discipline around user code.

    The slot's element type `C` is left generic (the registry instantiates it with its
    `Owner`). The callback `fn` handed to `withContext` is arbitrary user code; here it is
    an `Action`, a small program over the slot that the manager runs with `Run`. `Eval` is
    the meaning of an action against a slot value, and `RunOnStack` is an independent
    reference semantics that keeps an explicit stack of activations. */
module Contexts {
  import opened Outcomes

  /** User code run inside a scope. */
  datatype Action<C> =
    | Current                                   // reads the slot and returns its value
    | Require                                   // the checked read: fails on an empty slot
    | Assign(context: Option<C>)                // overwrites the slot
    | Raise(message: string)                    // throws an error carrying `message`
    | Within(vm: C, body: Action<C>)            // runs `body` in a nested scope of `vm`
    | Then(first: Action<C>, next: Action<C>)   // runs `first`, then `next` unless `first` threw
    | Recover(body: Action<C>, handler: Action<C>)  // runs `body`; if it threw, runs `handler`

  /** What an action returns (or throws) together with the slot it leaves behind. */
  datatype Step<C> = Step(result: Result<Option<C>>, slot: Option<C>)

  /** The meaning of running `a` when the slot holds `slot`. */
  function Eval<C>(a: Action<C>, slot: Option<C>): Step<C>
  {
    match a
    case Current => Step(Ok(slot), slot)
    case Require => Step(if slot.None? then Err(NoCurrentContext) else Ok(slot), slot)
    case Assign(c) => Step(Ok(None), c)
    case Raise(m) => Step(Err(Thrown(m)), slot)
    case Within(vm, body) => Step(Eval(body, Some(vm)).result, slot)
    case Then(first, next) =>
      var s := Eval(first, slot);
      if s.result.Err? then s else Eval(next, s.slot)
    case Recover(body, handler) =>
      var s := Eval(body, slot);
      if s.result.Ok? then s else Eval(handler, s.slot)
  }

  /** A reference model with an explicit activation stack: the active context is the top,
      entering a scope pushes, leaving it pops. */
  datatype StackStep<C> = StackStep(result: Result<Option<C>>, stack: seq<Option<C>>)

  function Top<C>(stack: seq<Option<C>>): Option<C>
    requires |stack| > 0
  {
    stack[|stack| - 1]
  }

  /** Running `a` on the stack keeps its depth and every activation below the top: scopes
      nest like a call stack, and only `Assign` may overwrite the top entry. */
  function RunOnStack<C>(a: Action<C>, stack: seq<Option<C>>): (s: StackStep<C>)
    requires |stack| > 0
    ensures |s.stack| == |stack|
    ensures s.stack[..|stack| - 1] == stack[..|stack| - 1]
  {
    match a
    case Current => StackStep(Ok(Top(stack)), stack)
    case Require => StackStep(if Top(stack).None? then Err(NoCurrentContext) else Ok(Top(stack)), stack)
    case Assign(c) => StackStep(Ok(None), stack[..|stack| - 1] + [c])
    case Raise(m) => StackStep(Err(Thrown(m)), stack)
    case Within(vm, body) =>
      var inner := RunOnStack(body, stack + [Some(vm)]);
      StackStep(inner.result, inner.stack[..|stack|])
    case Then(first, next) =>
      var s := RunOnStack(first, stack);
      if s.result.Err? then s else RunOnStack(next, s.stack)
    case Recover(body, handler) =>
      var s := RunOnStack(body, stack);
      if s.result.Ok? then s else RunOnStack(handler, s.stack)
  }

  /** The single saved-and-restored slot behaves exactly like the top of the activation
      stack: same results, and the slot ends where the stack's top ends. */
  lemma {:induction false} SlotIsTopOfStack<C>(a: Action<C>, stack: seq<Option<C>>)
    requires |stack| > 0
    ensures Eval(a, Top(stack)) == Step(RunOnStack(a, stack).result, Top(RunOnStack(a, stack).stack))
  {
    match a
    case Current =>
    case Require =>
    case Assign(c) =>
    case Raise(m) =>
    case Within(vm, body) =>
      SlotIsTopOfStack(body, stack + [Some(vm)]);
    case Then(first, next) =>
      SlotIsTopOfStack(first, stack);
      var s := RunOnStack(first, stack);
      if s.result.Ok? {
        SlotIsTopOfStack(next, s.stack);
      }
    case Recover(body, handler) =>
      SlotIsTopOfStack(body, stack);
      var s := RunOnStack(body, stack);
      if s.result.Err? {
        SlotIsTopOfStack(handler, s.stack);
      }
  }

  /** Whether user code ever writes the slot itself (outside of nested scopes). */
  predicate AssignsSlot<C>(a: Action<C>)
  {
    match a
    case Assign(_) => true
    case Then(first, next) => AssignsSlot(first) || AssignsSlot(next)
    case Recover(body, handler) => AssignsSlot(body) || AssignsSlot(handler)
    case _ => false
  }

  /** Code that does not write the slot leaves it as it found it, on both the normal and
      the exceptional path; nested scopes never count, since they restore on exit. */
  lemma {:induction false} SlotUntouched<C>(a: Action<C>, slot: Option<C>)
    requires !AssignsSlot(a)
    ensures Eval(a, slot).slot == slot
  {
    match a
    case Then(first, next) =>
      SlotUntouched(first, slot);
      SlotUntouched(next, slot);
    case Recover(body, handler) =>
      SlotUntouched(body, slot);
      SlotUntouched(handler, slot);
    case _ =>
  }

  /** Nested scopes: inside `withContext(a, ...)`, after an inner `withContext(b, body)`
      returns or throws, the slot reads `a` again; after the outer call it is back to the
      original value, whatever `body` does to the slot. */
  lemma NestedScopesRestore<C>(a: C, b: C, body: Action<C>, slot: Option<C>)
    ensures Eval(Within(a, Recover(Then(Within(b, body), Current), Current)), slot)
         == Step(Ok(Some(a)), slot)
  {
    var inner := Eval(Within(b, body), Some(a));
    assert inner.slot == Some(a);
    var afterInner := Eval(Then(Within(b, body), Current), Some(a));
    if inner.result.Ok? {
      assert afterInner == Eval(Current, Some(a));
    } else {
      assert afterInner == inner;
    }
    assert Eval(Recover(Then(Within(b, body), Current), Current), Some(a)) == Step(Ok(Some(a)), Some(a));
  }

  /** Records what the definition of `Eval` says of a scope whose body throws: the error
      comes out of the scope unchanged and the slot is back at its value from before. The
      same promise about the running manager is `WithContext`'s contract. */
  lemma ThrowPropagates<C>(vm: C, body: Action<C>, slot: Option<C>, e: Error)
    requires Eval(body, Some(vm)).result == Err(e)
    ensures Eval(Within(vm, body), slot) == Step(Err(e), slot)
  {
  }

  class ContextManager<C> {
    /** The slot; `None` is the source's `null`. */
    var currentContext: Option<C>

    /** A new manager starts with an empty slot. */
    constructor ()
      ensures GetCurrentContext() == None
    {
      currentContext := None;
    }

    method SetCurrentContext(instance: Option<C>)
      modifies this
      ensures GetCurrentContext() == instance
    {
      currentContext := instance;
    }

    /** The slot's current value, as stored; reading it changes nothing. */
    function GetCurrentContext(): (r: Option<C>)
      reads this
      ensures r == currentContext
    {
      currentContext
    }

    /** The checked accessor: fails exactly when the slot is empty, otherwise returns the
        slot's value; being a function, it leaves the slot alone. */
    function FooCurrentContext(): (r: Result<C>)
      reads this
      ensures r.Err? <==> GetCurrentContext().None?
      ensures r.Err? ==> r.error == NoCurrentContext
      ensures r.Ok? ==> GetCurrentContext() == Some(r.value)
    {
      var context := GetCurrentContext();
      if context.None? then Err(NoCurrentContext) else Ok(context.value)
    }

    /** Saves the slot, sets it to `vm`, runs `fn` and restores the saved value whether
        `fn` returned or threw; the result is what `fn` produced when started with `vm`. */
    method WithContext(vm: C, fn: Action<C>) returns (r: Result<Option<C>>)
      modifies this
      decreases fn, 1
      ensures GetCurrentContext() == old(GetCurrentContext())
      ensures r == Eval(fn, Some(vm)).result
    {
      var context := GetCurrentContext();
      SetCurrentContext(Some(vm));
      r := Run(fn);
      SetCurrentContext(context);
    }

    /** Runs user code against the slot. */
    method Run(fn: Action<C>) returns (r: Result<Option<C>>)
      modifies this
      decreases fn, 0
      ensures Step(r, GetCurrentContext()) == Eval(fn, old(GetCurrentContext()))
    {
      match fn
      case Current =>
        r := Ok(GetCurrentContext());
      case Require =>
        var c := FooCurrentContext();
        r := if c.Ok? then Ok(Some(c.value)) else Err(c.error);
      case Assign(c) =>
        SetCurrentContext(c);
        r := Ok(None);
      case Raise(m) =>
        r := Err(Thrown(m));
      case Within(vm, body) =>
        r := WithContext(vm, body);
      case Then(first, next) =>
        r := Run(first);
        if r.Ok? {
          r := Run(next);
        }
      case Recover(body, handler) =>
        r := Run(body);
        if r.Err? {
          r := Run(handler);
        }
    }
  }
}

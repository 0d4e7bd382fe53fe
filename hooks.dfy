/**
 * The hook registry of src/hooks.ts. Hook classes are marked by the
 * `@PrismaHooks()` class decorator, which registers the class's instance;
 * their methods carry `@Operation(operation, model?)` metadata. `applyAll`
 * threads the query arguments through every matching method, instance by
 * instance in registration order and method by method in declaration order.
 *
 * The reflection metadata is modelled as data: an instance is its marker
 * bit and the list of its prototype's methods, each with the metadata it
 * carries; a method's function is an id whose behaviour `call` gives.
 */
module Hooks {
  import opened Prelude
  import opened Types

  /** A hook method's function, identified by the place it was declared. */
  type HandlerId = nat

  /** What `@Operation(operation, model?)` records on a method: `{ model, operation }`. */
  datatype OperationMetadata = OperationMetadata(operation: Operation, model: Option<string>)

  /**
   * One own property of a hook class's prototype, in declaration order
   * (`constructor` first): its name, its operation metadata if it has any,
   * and the function it holds.
   */
  datatype HookMethod = HookMethod(name: string, metadata: Option<OperationMetadata>, handler: HandlerId)

  /** An instance offered to `register`: whether its class carries the hooks marker, and its methods. */
  datatype HookInstance = HookInstance(marked: bool, methods: seq<HookMethod>)

  /** `@Operation(operation, model)` applied to a method: it records the metadata and nothing else. */
  function DecorateOperation(m: HookMethod, operation: Operation, model: Option<string>): HookMethod
  {
    m.(metadata := Some(OperationMetadata(operation, model)))
  }

  /** `!modelName`: the model is absent or the empty string. */
  predicate Falsy(model: Option<string>)
  {
    model.None? || model.value == ""
  }

  /**
   * The test `applyAll` makes of one method: it has operation metadata,
   * the operation equals the requested one, and the model is falsy or
   * equals the requested one.
   */
  predicate Applies(m: HookMethod, model: string, operation: string)
  {
    match m.metadata
    case None => false
    case Some(meta) => meta.operation.Name() == operation && (Falsy(meta.model) || meta.model.value == model)
  }

  /** The handlers of `methods` that apply, in declaration order. */
  function Selected(methods: seq<HookMethod>, model: string, operation: string): seq<HandlerId>
  {
    if methods == [] then []
    else (if Applies(methods[0], model, operation) then [methods[0].handler] else []) + Selected(methods[1..], model, operation)
  }

  /** The handlers `applyAll` applies: instance by instance, then method by method. */
  function Applied(hooks: seq<HookInstance>, model: string, operation: string): seq<HandlerId>
  {
    if hooks == [] then []
    else Selected(hooks[0].methods, model, operation) + Applied(hooks[1..], model, operation)
  }

  /** Selection of a concatenation is the concatenation of the selections. */
  lemma {:induction false} SelectedAppend(a: seq<HookMethod>, b: seq<HookMethod>, model: string, operation: string)
    ensures Selected(a + b, model, operation) == Selected(a, model, operation) + Selected(b, model, operation)
    decreases |a|
  {
    if a == [] {
      assert a + b == b;
    } else {
      assert (a + b)[0] == a[0];
      assert (a + b)[1..] == a[1..] + b;
      SelectedAppend(a[1..], b, model, operation);
    }
  }

  /**
   * An instance registered later contributes its handlers after every
   * handler of the instances registered before it.
   */
  lemma {:induction false} AppliedAppend(a: seq<HookInstance>, b: seq<HookInstance>, model: string, operation: string)
    ensures Applied(a + b, model, operation) == Applied(a, model, operation) + Applied(b, model, operation)
    decreases |a|
  {
    if a == [] {
      assert a + b == b;
    } else {
      assert (a + b)[0] == a[0];
      assert (a + b)[1..] == a[1..] + b;
      AppliedAppend(a[1..], b, model, operation);
    }
  }

  /** A method is applied iff it carries metadata that matches the request (both directions). */
  lemma {:induction false} AppliedMembership(hooks: seq<HookInstance>, model: string, operation: string, handler: HandlerId)
    ensures handler in Applied(hooks, model, operation) <==>
            exists inst, m :: inst in hooks && m in inst.methods && m.handler == handler && Applies(m, model, operation)
    decreases |hooks|
  {
    if hooks != [] {
      SelectedMembership(hooks[0].methods, model, operation, handler);
      AppliedMembership(hooks[1..], model, operation, handler);
      if handler in Applied(hooks[1..], model, operation) {
        var inst, m :| inst in hooks[1..] && m in inst.methods && m.handler == handler && Applies(m, model, operation);
        assert inst in hooks;
      }
      if exists inst, m :: inst in hooks && m in inst.methods && m.handler == handler && Applies(m, model, operation) {
        var inst, m :| inst in hooks && m in inst.methods && m.handler == handler && Applies(m, model, operation);
        if inst != hooks[0] {
          assert inst in hooks[1..];
        }
      }
    }
  }

  /** Within one instance: a handler is selected iff one of its methods applies. */
  lemma {:induction false} SelectedMembership(methods: seq<HookMethod>, model: string, operation: string, handler: HandlerId)
    ensures handler in Selected(methods, model, operation) <==>
            exists m :: m in methods && m.handler == handler && Applies(m, model, operation)
    decreases |methods|
  {
    if methods != [] {
      SelectedMembership(methods[1..], model, operation, handler);
      if exists m :: m in methods && m.handler == handler && Applies(m, model, operation) {
        var m :| m in methods && m.handler == handler && Applies(m, model, operation);
        if m != methods[0] {
          assert m in methods[1..];
        }
      }
    }
  }

  /**
   * The matching rule on a decorated method: it applies to a request iff
   * the operations are equal and the decorator's model is absent, empty,
   * or the requested model.
   */
  lemma MatchingRule(m: HookMethod, operation: Operation, model: Option<string>, requested: Operation, requestedModel: string)
    ensures Applies(DecorateOperation(m, operation, model), requestedModel, requested.Name()) <==>
            operation == requested && (model == None || model == Some("") || model == Some(requestedModel))
  {
    if operation.Name() == requested.Name() {
      OperationNameInjective(operation, requested);
    }
  }

  /** A method without operation metadata (such as `constructor`) never applies. */
  lemma UndecoratedNeverApplies(m: HookMethod, model: string, operation: string)
    requires m.metadata.None?
    ensures !Applies(m, model, operation)
  {
  }

  /**
   * A model-agnostic method gets no precedence: declared after a
   * model-specific one, it runs after it.
   */
  lemma NoPrecedenceForModelAgnostic(specific: HookMethod, agnostic: HookMethod, model: string, operation: Operation)
    requires specific.metadata == Some(OperationMetadata(operation, Some(model)))
    requires agnostic.metadata == Some(OperationMetadata(operation, None))
    ensures Applied([HookInstance(true, [specific, agnostic])], model, operation.Name()) == [specific.handler, agnostic.handler]
  {
    var ms := [specific, agnostic];
    assert Applies(specific, model, operation.Name()) && Applies(agnostic, model, operation.Name());
    assert ms[1..] == [agnostic] && [agnostic][1..] == [];
    assert Selected([agnostic], model, operation.Name()) == [agnostic.handler];
    assert Selected(ms, model, operation.Name()) == [specific.handler, agnostic.handler];
    assert [HookInstance(true, ms)][1..] == [];
  }

  /** How a run of the pipeline ended, and which handlers were called. */
  datatype Run<A> = Run(outcome: Completion<A>, ran: seq<HandlerId>)

  /**
   * `args = await handler(args)` for each handler in turn: a left fold
   * seeded with `args`, each handler receiving the previous one's output;
   * the first rejection ends the run and is its outcome.
   */
  function Pipe<A>(handlers: seq<HandlerId>, args: A, call: (HandlerId, A) -> Completion<A>): (r: Run<A>)
    ensures |r.ran| <= |handlers| && r.ran == handlers[..|r.ran|]
    ensures r.outcome.Normal? ==> r.ran == handlers
    decreases |handlers|
  {
    if handlers == [] then Run(Normal(args), [])
    else
      match call(handlers[0], args)
      case Abrupt(e) => Run(Abrupt(e), [handlers[0]])
      case Normal(next) =>
        var rest := Pipe(handlers[1..], next, call);
        Run(rest.outcome, [handlers[0]] + rest.ran)
  }

  /** Running `xs + ys` is running `xs` and then, on its output, `ys`. */
  lemma {:induction false} PipeAppend<A>(xs: seq<HandlerId>, ys: seq<HandlerId>, args: A, call: (HandlerId, A) -> Completion<A>)
    ensures Pipe(xs + ys, args, call) ==
            (var first := Pipe(xs, args, call);
             if first.outcome.Abrupt? then first
             else Run(Pipe(ys, first.outcome.value, call).outcome, xs + Pipe(ys, first.outcome.value, call).ran))
    decreases |xs|
  {
    if xs == [] {
      assert xs + ys == ys;
    } else {
      var h, rest := xs[0], xs[1..];
      assert (xs + ys)[0] == h;
      assert (xs + ys)[1..] == rest + ys;
      match call(h, args)
      case Abrupt(e) =>
        assert Pipe(xs + ys, args, call) == Run(Abrupt(e), [h]);
        assert Pipe(xs, args, call) == Run(Abrupt(e), [h]);
      case Normal(next) =>
        PipeAppend(rest, ys, next, call);
        var whole := Pipe(rest + ys, next, call);
        var first := Pipe(rest, next, call);
        assert Pipe(xs + ys, args, call) == Run(whole.outcome, [h] + whole.ran);
        assert Pipe(xs, args, call) == Run(first.outcome, [h] + first.ran);
        if first.outcome.Normal? {
          var tail := Pipe(ys, first.outcome.value, call).ran;
          assert [h] + (rest + tail) == xs + tail;
        }
    }
  }

  /** A single handler's run is that handler's call. */
  lemma PipeSingle<A>(h: HandlerId, args: A, call: (HandlerId, A) -> Completion<A>)
    ensures Pipe([h], args, call) == Run(call(h, args), [h])
  {
    assert [h][1..] == [];
    match call(h, args)
    case Abrupt(e) =>
    case Normal(next) =>
      assert Pipe([h], args, call) == Run(Pipe([], next, call).outcome, [h] + Pipe([], next, call).ran);
  }

  /** One more handler, after a run that ended normally, is called on its output. */
  lemma PipeStep<A>(done: seq<HandlerId>, h: HandlerId, args: A, current: A, ran: seq<HandlerId>, call: (HandlerId, A) -> Completion<A>)
    requires Pipe(done, args, call) == Run(Normal(current), ran)
    ensures Pipe(done + [h], args, call) == Run(call(h, current), ran + [h])
  {
    PipeAppend(done, [h], args, call);
    PipeSingle(h, current, call);
  }

  /** Once a run is rejected, whatever handlers follow change nothing. */
  lemma PipeRejected<A>(xs: seq<HandlerId>, ys: seq<HandlerId>, args: A, call: (HandlerId, A) -> Completion<A>)
    requires Pipe(xs, args, call).outcome.Abrupt?
    ensures Pipe(xs + ys, args, call) == Pipe(xs, args, call)
  {
    PipeAppend(xs, ys, args, call);
  }

  /** Each handler's output is the next handler's input: `h(g(args))`. */
  lemma FeedsForward<A>(g: HandlerId, h: HandlerId, args: A, call: (HandlerId, A) -> Completion<A>)
    requires call(g, args).Normal?
    ensures Pipe([g, h], args, call) == Run(call(h, call(g, args).value), [g, h])
  {
    assert [g, h][1..] == [h];
    PipeSingle(h, call(g, args).value, call);
  }

  /**
   * A rejecting handler ends the run: the handlers after it are never
   * called and its rejection is the outcome.
   */
  lemma PipeStopsAtRejection<A>(handlers: seq<HandlerId>, k: nat, args: A, before: A, call: (HandlerId, A) -> Completion<A>)
    requires k < |handlers|
    requires Pipe(handlers[..k], args, call) == Run(Normal(before), handlers[..k])
    requires call(handlers[k], before).Abrupt?
    ensures Pipe(handlers, args, call) == Run(call(handlers[k], before), handlers[..k + 1])
  {
    assert handlers == handlers[..k] + handlers[k..];
    PipeAppend(handlers[..k], handlers[k..], args, call);
    assert handlers[k..][0] == handlers[k];
    assert handlers[..k] + [handlers[k]] == handlers[..k + 1];
  }

  /** With no matching method the arguments come back unchanged and no handler runs. */
  lemma {:induction false} NoMatchIsIdentity<A>(hooks: seq<HookInstance>, model: string, operation: string, args: A, call: (HandlerId, A) -> Completion<A>)
    requires forall inst, m :: inst in hooks && m in inst.methods ==> !Applies(m, model, operation)
    ensures Pipe(Applied(hooks, model, operation), args, call) == Run(Normal(args), [])
  {
    if Applied(hooks, model, operation) != [] {
      var h := Applied(hooks, model, operation)[0];
      AppliedMembership(hooks, model, operation, h);
    }
  }

  /** `PrismaHookRegistry`: the list of registered hook instances. */
  class PrismaHookRegistry {
    var hooks: seq<HookInstance>

    constructor()
      ensures hooks == []
    {
      hooks := [];
    }

    /** `register(instance)`: keeps only instances whose class carries the hooks marker. */
    method Register(instance: HookInstance)
      modifies this
      ensures hooks == if instance.marked then old(hooks) + [instance] else old(hooks)
    {
      if instance.marked {
        hooks := hooks + [instance];
      }
    }

    /**
     * `applyAll({ args, operation, model })`: the arguments after every
     * applied handler, or the first rejection; the registry is unchanged.
     */
    method ApplyAll<A>(args: A, operation: string, model: string, call: (HandlerId, A) -> Completion<A>)
      returns (outcome: Completion<A>, ran: seq<HandlerId>)
      ensures Run(outcome, ran) == Pipe(Applied(hooks, model, operation), args, call)
    {
      var current := args;
      ran := [];
      var i := 0;
      while i < |hooks|
        invariant 0 <= i <= |hooks|
        invariant Pipe(Applied(hooks[..i], model, operation), args, call) == Run(Normal(current), ran)
      {
        ghost var earlier := Applied(hooks[..i], model, operation);
        ghost var here := Selected(hooks[i].methods, model, operation);
        var next, more := ApplyMethods(hooks[i].methods, current, operation, model, call);
        PipeAppend(earlier, here, args, call);
        assert hooks[..i + 1] == hooks[..i] + [hooks[i]];
        AppliedAppend(hooks[..i], [hooks[i]], model, operation);
        assert [hooks[i]][1..] == [];
        assert Applied(hooks[..i + 1], model, operation) == earlier + here;
        ran := ran + more;
        if next.Abrupt? {
          assert hooks == hooks[..i + 1] + hooks[i + 1..];
          AppliedAppend(hooks[..i + 1], hooks[i + 1..], model, operation);
          PipeAppend(earlier + here, Applied(hooks[i + 1..], model, operation), args, call);
          return next, ran;
        }
        current := next.value;
        i := i + 1;
      }
      assert hooks[..|hooks|] == hooks;
      outcome := Normal(current);
    }
  }

  /**
   * The inner loop of `applyAll`: one instance's methods in declaration
   * order, each matching one called on the previous one's output.
   */
  method ApplyMethods<A>(methods: seq<HookMethod>, args: A, operation: string, model: string, call: (HandlerId, A) -> Completion<A>)
    returns (outcome: Completion<A>, ran: seq<HandlerId>)
    ensures Run(outcome, ran) == Pipe(Selected(methods, model, operation), args, call)
  {
    var current := args;
    ran := [];
    var j := 0;
    while j < |methods|
      invariant 0 <= j <= |methods|
      invariant Pipe(Selected(methods[..j], model, operation), args, call) == Run(Normal(current), ran)
    {
      var m := methods[j];
      ghost var done := Selected(methods[..j], model, operation);
      assert methods[..j + 1] == methods[..j] + [m];
      SelectedAppend(methods[..j], [m], model, operation);
      assert [m][1..] == [];
      if Applies(m, model, operation) {
        assert Selected(methods[..j + 1], model, operation) == done + [m.handler];
        var next := call(m.handler, current);
        PipeStep(done, m.handler, args, current, ran, call);
        ran := ran + [m.handler];
        if next.Abrupt? {
          assert methods == methods[..j + 1] + methods[j + 1..];
          SelectedAppend(methods[..j + 1], methods[j + 1..], model, operation);
          PipeRejected(done + [m.handler], Selected(methods[j + 1..], model, operation), args, call);
          return next, ran;
        }
        current := next.value;
        assert Pipe(done + [m.handler], args, call) == Run(Normal(current), ran);
      } else {
        assert Selected(methods[..j + 1], model, operation) == done + [];
        assert done + [] == done;
      }
      j := j + 1;
    }
    assert methods[..|methods|] == methods;
    outcome := Normal(current);
  }

  /**
   * `@PrismaHooks()` on a class: marks the class, takes its instance and
   * registers it, so the instance always joins the registry.
   */
  method PrismaHooks(registry: PrismaHookRegistry, methods: seq<HookMethod>) returns (instance: HookInstance)
    modifies registry
    ensures instance == HookInstance(true, methods)
    ensures registry.hooks == old(registry.hooks) + [instance]
  {
    instance := HookInstance(true, methods);
    registry.Register(instance);
  }
}

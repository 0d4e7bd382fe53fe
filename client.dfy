/**
 * The client of src/client.ts: a single Prisma client, created on first
 * use, whose `$allOperations` query extension wraps every database call.
 * The wrapper emits the Before event, threads the arguments through the
 * hook registry, runs the query on the transformed arguments, emits the
 * After event with the original arguments and the result, and returns the
 * result. Any failure after the Before event is rethrown as a plain
 * `Error` carrying only the original message.
 *
 * The database and the listeners' and handlers' code are parameters: the
 * query is a function from arguments to a completion, `listen` says how a
 * listener's synchronous part ends and `call` how a hook handler's promise
 * settles.
 */
module Client {
  import opened Prelude
  import opened Types
  import opened Hooks

  /**
   * `throw Error(e.message)`: a fresh `Error` whose message is the caught
   * value's message, or the empty string when it has none.
   */
  function Rethrown(e: Exception): Exception
  {
    Exception("Error", Some(MessageOf(e)))
  }

  /** `e.message`, read as `Error(e.message)` reads it: the empty string when absent. */
  function MessageOf(e: Exception): string
  {
    if e.message.Some? then e.message.value else ""
  }

  /**
   * What one intercepted call did: its outcome, the Before delivery, the
   * hook run (absent when the Before event threw), the arguments the query
   * was called with (absent when it was not called) and the After delivery
   * (absent when it was not emitted).
   */
  datatype Interception<A, R> = Interception(
    outcome: Completion<R>,
    before: Delivery,
    hooked: Option<Run<A>>,
    queried: Option<A>,
    after: Option<Delivery>)

  /**
   * The `$allOperations` interceptor as a function of the controller's
   * listener map and the registry's instances.
   */
  function Intercept<A, R>(
    listeners: map<string, seq<CallbackId>>, hooks: seq<HookInstance>,
    model: string, operation: string, args: A, query: A -> Completion<R>,
    listen: (CallbackId, Payload<A, R>) -> Completion<()>,
    call: (HandlerId, A) -> Completion<A>): Interception<A, R>
  {
    var before := Notify(ListenersAt(listeners, EventString(model, operation, Before)),
                         Payload(model, operation, args, query, None), listen);
    if before.outcome.Abrupt? then
      Interception(Abrupt(before.outcome.exception), before, None, None, None)
    else
      var hooked := Pipe(Applied(hooks, model, operation), args, call);
      if hooked.outcome.Abrupt? then
        Interception(Abrupt(Rethrown(hooked.outcome.exception)), before, Some(hooked), None, None)
      else
        var transformed := hooked.outcome.value;
        var result := query(transformed);
        if result.Abrupt? then
          Interception(Abrupt(Rethrown(result.exception)), before, Some(hooked), Some(transformed), None)
        else
          var after := Notify(ListenersAt(listeners, EventString(model, operation, After)),
                              Payload(model, operation, args, query, Some(result.value)), listen);
          if after.outcome.Abrupt? then
            Interception(Abrupt(Rethrown(after.outcome.exception)), before, Some(hooked), Some(transformed), Some(after))
          else
            Interception(Normal(result.value), before, Some(hooked), Some(transformed), Some(after))
  }

  /**
   * `$allOperations({ model, operation, args, query })`, given the
   * controller the container holds and the hook registry. It changes
   * neither.
   */
  method AllOperations<A, R>(
    controller: DbEventController, registry: PrismaHookRegistry,
    model: string, operation: string, args: A, query: A -> Completion<R>,
    listen: (CallbackId, Payload<A, R>) -> Completion<()>,
    call: (HandlerId, A) -> Completion<A>)
    returns (r: Interception<A, R>)
    ensures r == Intercept(controller.listeners, registry.hooks, model, operation, args, query, listen, call)
  {
    var payload := Payload(model, operation, args, query, None);
    var beforeEvent := EventString(model, operation, Before);
    var beforeRan, beforeOutcome := controller.Emit(beforeEvent, payload, listen);
    var before := Delivery(beforeRan, beforeOutcome);
    if beforeOutcome.Abrupt? {
      return Interception(Abrupt(beforeOutcome.exception), before, None, None, None);
    }
    var hookOutcome, hookRan := registry.ApplyAll(args, operation, model, call);
    var hooked := Run(hookOutcome, hookRan);
    if hookOutcome.Abrupt? {
      return Interception(Abrupt(Rethrown(hookOutcome.exception)), before, Some(hooked), None, None);
    }
    var transformed := hookOutcome.value;
    var result := query(transformed);
    if result.Abrupt? {
      return Interception(Abrupt(Rethrown(result.exception)), before, Some(hooked), Some(transformed), None);
    }
    var afterPayload := Payload(model, operation, args, query, Some(result.value));
    var afterEvent := EventString(model, operation, After);
    var afterRan, afterOutcome := controller.Emit(afterEvent, afterPayload, listen);
    var after := Delivery(afterRan, afterOutcome);
    if afterOutcome.Abrupt? {
      return Interception(Abrupt(Rethrown(afterOutcome.exception)), before, Some(hooked), Some(transformed), Some(after));
    }
    r := Interception(Normal(result.value), before, Some(hooked), Some(transformed), Some(after));
  }

  /**
   * A rethrown error is an `Error` that keeps the message; rethrowing it
   * again changes nothing.
   */
  lemma RethrownKeepsMessage(e: Exception)
    ensures Rethrown(e).name == "Error" && Rethrown(e).message == Some(MessageOf(e))
    ensures Rethrown(Rethrown(e)) == Rethrown(e)
  {
  }

  /**
   * The query is called at most once, and only when the Before event and
   * every hook completed; it then receives exactly the hooks' output.
   */
  lemma QueryGetsHookedArgs<A, R>(
    listeners: map<string, seq<CallbackId>>, hooks: seq<HookInstance>,
    model: string, operation: string, args: A, query: A -> Completion<R>,
    listen: (CallbackId, Payload<A, R>) -> Completion<()>,
    call: (HandlerId, A) -> Completion<A>)
    ensures var r := Intercept(listeners, hooks, model, operation, args, query, listen, call);
            var hooked := Pipe(Applied(hooks, model, operation), args, call);
            (r.queried.Some? <==> r.before.outcome.Normal? && hooked.outcome.Normal?) &&
            (r.queried.Some? ==> r.queried.value == hooked.outcome.value && r.hooked == Some(hooked))
  {
  }

  /**
   * The call succeeds iff the Before listeners, every hook, the query and
   * the After listeners all complete; it then returns what the query
   * returned for the hooks' output, and every listener of both events ran.
   */
  lemma SuccessIff<A, R>(
    listeners: map<string, seq<CallbackId>>, hooks: seq<HookInstance>,
    model: string, operation: string, args: A, query: A -> Completion<R>,
    listen: (CallbackId, Payload<A, R>) -> Completion<()>,
    call: (HandlerId, A) -> Completion<A>)
    ensures var r := Intercept(listeners, hooks, model, operation, args, query, listen, call);
            var hooked := Pipe(Applied(hooks, model, operation), args, call);
            r.outcome.Normal? <==>
              r.before.outcome.Normal? && hooked.outcome.Normal? &&
              query(hooked.outcome.value).Normal? &&
              r.after.Some? && r.after.value.outcome.Normal?
    ensures var r := Intercept(listeners, hooks, model, operation, args, query, listen, call);
            r.outcome.Normal? ==>
              r.queried.Some? && r.outcome == query(r.queried.value) &&
              r.before.ran == ListenersAt(listeners, EventString(model, operation, Before)) &&
              r.after.value.ran == ListenersAt(listeners, EventString(model, operation, After))
  {
  }

  /**
   * A throw in a Before listener reaches the caller as it was thrown, and
   * nothing after it runs: no hook, no query, no After event.
   */
  lemma BeforeFailureEscapesUnwrapped<A, R>(
    listeners: map<string, seq<CallbackId>>, hooks: seq<HookInstance>,
    model: string, operation: string, args: A, query: A -> Completion<R>,
    listen: (CallbackId, Payload<A, R>) -> Completion<()>,
    call: (HandlerId, A) -> Completion<A>)
    requires Notify(ListenersAt(listeners, EventString(model, operation, Before)),
                    Payload(model, operation, args, query, None), listen).outcome.Abrupt?
    ensures var r := Intercept(listeners, hooks, model, operation, args, query, listen, call);
            r.outcome == Abrupt(r.before.outcome.exception) && r.hooked.None? && r.queried.None? && r.after.None?
  {
  }

  /**
   * A rejected hook, a failed query or a throw in an After listener reaches
   * the caller as a plain `Error` with the original message; a rejected
   * hook also prevents the query, and a failed query prevents the After
   * event.
   */
  lemma LaterFailuresRethrown<A, R>(
    listeners: map<string, seq<CallbackId>>, hooks: seq<HookInstance>,
    model: string, operation: string, args: A, query: A -> Completion<R>,
    listen: (CallbackId, Payload<A, R>) -> Completion<()>,
    call: (HandlerId, A) -> Completion<A>)
    ensures var r := Intercept(listeners, hooks, model, operation, args, query, listen, call);
            var hooked := Pipe(Applied(hooks, model, operation), args, call);
            r.before.outcome.Normal? && r.outcome.Abrupt? ==>
              r.outcome.exception.name == "Error" &&
              (hooked.outcome.Abrupt? ==>
                 r.outcome.exception.message == Some(MessageOf(hooked.outcome.exception)) && r.queried.None?) &&
              (hooked.outcome.Normal? && query(hooked.outcome.value).Abrupt? ==>
                 r.outcome.exception.message == Some(MessageOf(query(hooked.outcome.value).exception)) && r.after.None?)
  {
  }

  /**
   * A throw in an After listener fails the call although the query
   * completed: the caller gets the listener's message, not the result.
   */
  lemma AfterFailureHidesResult<A, R>(
    listeners: map<string, seq<CallbackId>>, hooks: seq<HookInstance>,
    model: string, operation: string, args: A, query: A -> Completion<R>,
    listen: (CallbackId, Payload<A, R>) -> Completion<()>,
    call: (HandlerId, A) -> Completion<A>)
    ensures var r := Intercept(listeners, hooks, model, operation, args, query, listen, call);
            r.after.Some? && r.after.value.outcome.Abrupt? ==>
              r.queried.Some? && query(r.queried.value).Normal? &&
              r.outcome == Abrupt(Rethrown(r.after.value.outcome.exception))
  {
  }

  /**
   * The Before listeners receive the caller's arguments and the query
   * function, with no result yet.
   */
  lemma BeforeSeesCallerArgs<A, R>(
    listeners: map<string, seq<CallbackId>>, hooks: seq<HookInstance>,
    model: string, operation: string, args: A, query: A -> Completion<R>,
    listen: (CallbackId, Payload<A, R>) -> Completion<()>,
    call: (HandlerId, A) -> Completion<A>)
    ensures Intercept(listeners, hooks, model, operation, args, query, listen, call).before ==
            Notify(ListenersAt(listeners, EventString(model, operation, Before)),
                   Payload(model, operation, args, query, None), listen)
  {
  }

  /**
   * The After listeners receive the arguments the caller passed, not the
   * value the hooks returned, together with the query's result. In the
   * source both are the same object reference, so in-place changes made by
   * a listener or hook are visible to them; the model's values cannot show
   * such changes.
   */
  lemma AfterSeesOriginalArgs<A, R>(
    listeners: map<string, seq<CallbackId>>, hooks: seq<HookInstance>,
    model: string, operation: string, args: A, query: A -> Completion<R>,
    listen: (CallbackId, Payload<A, R>) -> Completion<()>,
    call: (HandlerId, A) -> Completion<A>)
    ensures var r := Intercept(listeners, hooks, model, operation, args, query, listen, call);
            r.after.Some? ==>
              r.queried.Some? && query(r.queried.value).Normal? &&
              r.after.value == Notify(ListenersAt(listeners, EventString(model, operation, After)),
                                      Payload(model, operation, args, query, Some(query(r.queried.value).value)), listen)
  {
  }

  /**
   * With no listener and no matching hook method, the wrapper is the query
   * itself on the caller's arguments, except that a failure becomes a
   * plain `Error` with the same message.
   */
  lemma TransparentWithoutPlugins<A, R>(
    hooks: seq<HookInstance>,
    model: string, operation: string, args: A, query: A -> Completion<R>,
    listen: (CallbackId, Payload<A, R>) -> Completion<()>,
    call: (HandlerId, A) -> Completion<A>)
    requires forall inst, m :: inst in hooks && m in inst.methods ==> !Applies(m, model, operation)
    ensures var r := Intercept(map[], hooks, model, operation, args, query, listen, call);
            r.queried == Some(args) &&
            r.outcome == (if query(args).Normal? then query(args) else Abrupt(Rethrown(query(args).exception)))
  {
    NoMatchIsIdentity(hooks, model, operation, args, call);
  }

  /**
   * A listener registered with `@DbBeforeListener(model, operation)` runs
   * on every call to that model and operation whose Before listeners all
   * complete.
   */
  lemma RegisteredBeforeListenerRuns<A, R>(
    l: map<string, seq<CallbackId>>, hooks: seq<HookInstance>, callback: CallbackId,
    model: string, operation: Operation, args: A, query: A -> Completion<R>,
    listen: (CallbackId, Payload<A, R>) -> Completion<()>,
    call: (HandlerId, A) -> Completion<A>)
    requires var ids := ListenersAt(Subscribe(l, EventString(model, operation.Name(), Before), callback),
                                    EventString(model, operation.Name(), Before));
             forall i :: 0 <= i < |ids| ==> listen(ids[i], Payload(model, operation.Name(), args, query, None)).Normal?
    ensures var listeners := Subscribe(l, EventString(model, operation.Name(), Before), callback);
            callback in Intercept(listeners, hooks, model, operation.Name(), args, query, listen, call).before.ran
  {
    var listeners := Subscribe(l, EventString(model, operation.Name(), Before), callback);
    var ids := ListenersAt(listeners, EventString(model, operation.Name(), Before));
    NotifyAllWhenNoneThrow(ids, Payload(model, operation.Name(), args, query, None), listen);
    assert ids[|ids| - 1] == callback;
  }

  /** `transactionOptions` as far as the plugin sets it. */
  datatype TransactionOptions = TransactionOptions(maxWait: Option<nat>, timeout: Option<nat>, isolationLevel: Option<string>)

  /** The default passed when the caller gives no options: `{ timeout: 10000 }`. */
  const DefaultTransactionOptions := TransactionOptions(None, Some(10000), None)

  /** The extended Prisma client: the transaction options it was built with. */
  class PrismaClientHandle {
    const transactionOptions: TransactionOptions

    constructor(options: TransactionOptions)
      ensures transactionOptions == options
    {
      transactionOptions := options;
    }
  }

  /** The module-level `client` variable, `null` until the first creation. */
  class ClientSlot {
    var client: PrismaClientHandle?

    constructor()
      ensures client == null
    {
      client := null;
    }

    /**
     * `_createPrismaInstance(prismaOptions)`: the existing client when there
     * is one, whatever the options; otherwise a new client built with the
     * given options, or `{ timeout: 10000 }` when they are falsy (`None`).
     */
    method CreatePrismaInstance(prismaOptions: Option<TransactionOptions>) returns (c: PrismaClientHandle)
      modifies this
      ensures old(client) != null ==> c == old(client) && client == old(client)
      ensures old(client) == null ==>
                fresh(c) && client == c &&
                c.transactionOptions == (if prismaOptions.Some? then prismaOptions.value else DefaultTransactionOptions)
    {
      if client != null {
        return client;
      }
      c := new PrismaClientHandle(if prismaOptions.Some? then prismaOptions.value else DefaultTransactionOptions);
      client := c;
    }
  }
}

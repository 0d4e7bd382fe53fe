# tsdiapi-prisma interception core in Dafny

This project models the part of the tsdiapi-prisma plugin that intercepts
every Prisma query. The model covers:

- **Event keys.** An event is named `db_<phase>_<operation>_<model>`,
  where the phase is `before` or `after` and the operation comes from the
  15-value Prisma operation enum.
- **Event controllers.**
  - `DbEventController` keeps listener lists keyed by the exact event
    string.
  - `PrismaEventController` also keeps "global" lists keyed by
    `<phase>_<operation>` or `<phase>_*`. Before its exact-key list it
    calls the phase's wildcard list and then the operation's global list.
- **Hook registry.** `PrismaHookRegistry` holds instances of classes
  decorated with `@PrismaHooks()`. `applyAll` threads the query arguments
  through every method decorated with `@Operation(operation, model?)` that
  matches the call. It goes instance by instance in registration order,
  then method by method in declaration order. Each handler receives the
  previous handler's output.
- **The `$allOperations` extension.** It emits the Before event, runs the
  hooks, calls the query with the hooks' output, and emits the After event
  with the original arguments and the result. Any failure after the Before
  event is rethrown as a plain `Error(message)`.
- **Client creation.** The client is created once and reused on every
  later call.

## How the model is built

- Listeners and hook handlers are represented by identifiers, not by the
  functions themselves:
  - `listen(id, payload)` says how the synchronous part of a listener
    ends: it returns, or it throws.
  - `call(id, args)` says how a handler's promise settles.
  - `query(args)` says how the database call settles.
- Traces record which identifiers ran. So delivery order, "stops at the
  first throw" and "never called" are all claims about those traces.
- Each stateful class of the source is a Dafny `class`:
  - the controllers, whose maps hold `seq`s of identifiers;
  - the registry, which holds a `seq` of instances;
  - the module-level `client` variable.
- Each loop is a `method` proved equal to a specification function:
  - `Notify` for listener delivery;
  - `Pipe` over `Applied` for `applyAll`;
  - `Intercept` for the wrapper.
- Lemmas state the properties of those functions.

## Where the code and its companions disagree

- **Which controller the wrapper uses.** `src/client.ts:3` imports
  `DbEventController` from `./events`, but `src/events.ts` only declares
  `PrismaEventController`. The compiled `output/events.js` is the
  `src/types.ts` variant, and `src/client.ts:24` asks the container for
  `DbEventController` by name. The wrapper model therefore delivers
  through `Types.DbEventController` (exact key only).
  `Events.PrismaEventController` is modelled on its own, with its
  registration functions.
- **Phase classification.** `src/events.ts:78` classifies an event string
  as Before whenever it contains `_before_`. As a result, the After event
  of a model whose name contains `_before_`, or starts with `before_`, is
  delivered to the Before lists. `Events.AfterKeyClassification` states
  exactly when this happens. The model keeps the code's behaviour.

## Model

| member | source | states |
|---|---|---|
| Types.OperationNameShape | src/types.ts:5-21 | every operation's string is non-empty, contains no `_` and does not start with `b` |
| Types.OperationNameInjective | src/types.ts:5-21 | distinct enum members have distinct strings |
| Types.SplitAtSeparator | src/types.ts:38 | a `_`-joined string splits back uniquely when the left part has no `_` |
| Types.KeyShape | src/types.ts:38 | after the `db_` prefix, a key is the phase, `_`, then the operation, `_` and the model |
| Types.EventStringInjective | src/types.ts:30-39 | two keys are equal only when model, operation and phase are all equal |
| Types.PhaseKeysDiffer | src/types.ts:38 | the Before and After keys of one model and operation differ |
| Types.Subscribe | src/types.ts:68-73 | `on`: the key's list (empty when new) gains the callback at its end; every other key's list is unchanged; the key set grows by the key |
| Types.Notify | src/types.ts:77-79 | callbacks run in list order and the ones that ran form a prefix of the list; a delivery that ends normally ran them all |
| Types.NotifyOutcome | src/types.ts:77-79 | a delivery ends normally iff every callback returned normally; otherwise the last callback that ran threw, its exception is the outcome, and every earlier callback completed |
| Types.NotifyAllWhenNoneThrow | src/types.ts:77-79 | when no callback throws, every callback runs and delivery ends normally |
| Types.NotifyStopsAtFirstThrow | src/types.ts:77-79 | the first callback that throws is the last one to run, and its exception propagates |
| Types.NotifyAppend | src/events.ts:82-100 | delivering two lists one after the other is delivering their concatenation, with the second list skipped when the first throws |
| Types.NotifyEach | src/types.ts:77-79 | the `for … of` loop over one list computes `Notify` of that list |
| Types.DbEventController.constructor | src/types.ts:66 | a new controller has no listeners |
| Types.DbEventController.On | src/types.ts:68-73 | the listener map becomes `Subscribe` of the old map |
| Types.DbEventController.Emit | src/types.ts:75-80 | only the exact key's list is delivered, and an unregistered key delivers nothing |
| Types.DbBeforeListener | src/types.ts:83-101 | it registers the callback under the Before key of its model and operation |
| Types.DbAfterListener | src/types.ts:103-122 | it registers the callback under the After key of its model and operation |
| Types.RegistrationReachesOnlyItsKey | src/types.ts:94-96 | a registration changes the list of its own model, operation and phase, and no other key's list |
| Events.GlobalKeyInjective | src/events.ts:68 | global keys of different phases or operations never coincide |
| Events.IncludesAt | src/events.ts:78 | an occurrence at any position makes `includes` true |
| Events.IncludesSkipsPrefix | src/events.ts:78 | a prefix holding no occurrence does not change `includes` |
| Events.BeforeKeyClassifiedBefore | src/events.ts:78 | every Before key is classified Before |
| Events.AfterKeyClassification | src/events.ts:78 | an After key is classified After iff `"_" + model` does not contain `_before_` (both directions) |
| Events.AfterKeyMisclassifiedExample | src/events.ts:78 | the After key of the model `x_before_y` is classified Before |
| Events.PrismaEventController.constructor | src/events.ts:57-58 | both maps start empty |
| Events.PrismaEventController.On | src/events.ts:60-65 | the exact-key map becomes `Subscribe` of the old map; the global map is unchanged |
| Events.PrismaEventController.OnGlobal | src/events.ts:67-73 | the global list of `<eventType>_<operation>` gains the callback; the exact-key map is unchanged |
| Events.PrismaEventController.Emit | src/events.ts:75-101 | the delivery is `Notify` of the wildcard list, then the payload operation's global list, then the exact list, all for the derived phase; a throw anywhere stops the rest |
| Events.OnBeforeHook | src/events.ts:106-117 | the Before key's exact list gains the handler |
| Events.OnAfterHook | src/events.ts:119-131 | the After key's exact list gains the handler |
| Events.OnBeforeHookForAll | src/events.ts:144-149 | the global Before list of the operation, or of `*`, gains the handler |
| Events.OnAfterHookForAll | src/events.ts:162-167 | the global After list of the operation, or of `*`, gains the handler |
| Events.WildcardRegistrationRunsFirst | src/events.ts:80-86 | a wildcard listener runs after earlier wildcard listeners and before every operation and exact listener |
| Events.OperationRegistrationRunsSecond | src/events.ts:88-94 | an operation listener runs after the wildcard list and before the exact list |
| Events.ExactRegistrationRunsLast | src/events.ts:96-100 | an exact-key listener runs after everything registered earlier |
| Events.OtherPhaseNeverRuns | src/events.ts:78-100 | registrations for the other phase, global or under any other-phase key, never change a delivery |
| Events.ThreeListenerDeliveryOrder | src/events.ts:75-101 | wildcard, operation and exact Before listeners for `User.create` run in that order |
| Hooks.SelectedAppend | src/hooks.ts:32-47 | the methods selected from a concatenation are the selections of its parts, concatenated |
| Hooks.AppliedAppend | src/hooks.ts:27-48 | a later-registered instance contributes its handlers after every earlier instance's handlers |
| Hooks.AppliedMembership | src/hooks.ts:27-48 | a handler is applied iff some registered instance has a method with that handler whose metadata matches (both directions) |
| Hooks.SelectedMembership | src/hooks.ts:32-47 | within one instance, a handler is selected iff one of its methods matches (both directions) |
| Hooks.MatchingRule | src/hooks.ts:35-43 | a method decorated with `@Operation(op, model)` applies iff the operations are equal and the model is absent, empty or the requested one |
| Hooks.UndecoratedNeverApplies | src/hooks.ts:33-35 | a method without operation metadata never applies |
| Hooks.NoPrecedenceForModelAgnostic | src/hooks.ts:32-47 | a model-agnostic method declared after a model-specific one runs after it |
| Hooks.Pipe | src/hooks.ts:27-50 | the handlers that ran are a prefix of the applied ones; a run that ends normally ran them all |
| Hooks.PipeAppend | src/hooks.ts:27-48 | running two handler lists in turn is running their concatenation, with the second list skipped when the first rejects |
| Hooks.PipeSingle | src/hooks.ts:44 | one handler's run is exactly that handler's call |
| Hooks.PipeStep | src/hooks.ts:44 | the next handler gets the previous run's output |
| Hooks.PipeRejected | src/hooks.ts:44 | once a handler rejects, the handlers after it change nothing |
| Hooks.FeedsForward | src/hooks.ts:44 | the second handler receives the first handler's output |
| Hooks.PipeStopsAtRejection | src/hooks.ts:44 | the first rejecting handler is the last one called, and its rejection is the outcome |
| Hooks.NoMatchIsIdentity | src/hooks.ts:25-50 | with no matching method, `applyAll` resolves to the unchanged arguments and calls nothing |
| Hooks.PrismaHookRegistry.constructor | src/hooks.ts:10 | a new registry has no instances |
| Hooks.PrismaHookRegistry.Register | src/hooks.ts:12-16 | a marked instance is appended; an unmarked one leaves the registry unchanged |
| Hooks.PrismaHookRegistry.ApplyAll | src/hooks.ts:18-51 | the nested loops compute `Pipe` over `Applied`: matching handlers in registration and declaration order, each fed the previous output, stopping at the first rejection |
| Hooks.ApplyMethods | src/hooks.ts:32-47 | the inner loop over one instance's methods computes `Pipe` over that instance's selected handlers |
| Hooks.PrismaHooks | src/hooks.ts:56-62 | the decorated class's instance is marked and appended to the registry |
| Client.AllOperations | src/client.ts:17-60 | the wrapper computes `Intercept` of the controller's listeners and the registry's instances, and changes neither |
| Client.RethrownKeepsMessage | src/client.ts:56-58 | a rethrown failure is an `Error` carrying the original message, or `""` when there is none; rethrowing again changes nothing |
| Client.QueryGetsHookedArgs | src/client.ts:34-41 | the query is called iff the Before event and every hook completed, and then with exactly the hooks' output |
| Client.SuccessIff | src/client.ts:25-59 | the call succeeds iff the Before listeners, the hooks, the query and the After listeners all complete; it then returns the query's result, and every listener of both events ran |
| Client.BeforeFailureEscapesUnwrapped | src/client.ts:31 | a throw in a Before listener reaches the caller as thrown; no hook, query or After listener runs |
| Client.LaterFailuresRethrown | src/client.ts:34-58 | hook, query and After failures reach the caller as `Error` with the original message; a rejected hook prevents the query, and a failed query prevents the After event |
| Client.AfterFailureHidesResult | src/client.ts:41-58 | a throw in an After listener fails the call even though the query completed |
| Client.BeforeSeesCallerArgs | src/client.ts:18-31 | the Before listeners receive `{ model, operation, args, query }` with the caller's arguments and no result |
| Client.AfterSeesOriginalArgs | src/client.ts:42-55 | After listeners receive the arguments the caller passed (the same reference in the source), not the value the hooks returned, together with the result |
| Client.TransparentWithoutPlugins | src/client.ts:17-60 | with no listeners and no matching hook, the wrapper is the query on the caller's arguments, except that a failure is rethrown as `Error(message)` |
| Client.RegisteredBeforeListenerRuns | src/client.ts:24-31 | a listener registered with `@DbBeforeListener(model, op)` runs on every call to that model and operation whose Before listeners all complete |
| Client.PrismaClientHandle.constructor | src/client.ts:11-14 | the client keeps the transaction options it was built with |
| Client.ClientSlot.constructor | src/client.ts:5 | the client slot starts at `null` |
| Client.ClientSlot.CreatePrismaInstance | src/client.ts:7-14 | an existing client is returned unchanged, whatever the options; otherwise a fresh client is stored, built with the given options or `{ timeout: 10000 }` |

## Left out

- Asynchrony:
  - `emit` does not await its callbacks, so the model sees only whether a
    listener's synchronous part throws. A rejected promise from an `async`
    listener is not observed by `emit` or the wrapper.
  - `applyAll` and the query are treated as settling in program order.
    Interleavings with other concurrent queries are not modelled.
- Client.AfterSeesOriginalArgs: the arguments are modelled as an immutable
  value. In the source, `payload.args`, the object `applyAll` receives and
  `afterPayload.args` are one shared JavaScript object. A hook that mutates
  it in place and returns it, or a Before listener that mutates
  `payload.args`, changes what later hooks, the query and the After
  listeners see. "Original arguments" means that same reference, which can
  carry those changes. `listen` and `call` cannot mutate the arguments in
  this model.
- Listeners that register or remove listeners while an emit is running
  are not modelled. `listen` and `call` cannot change the controllers or
  the registry.
- Raw operations are not modelled. For these, Prisma passes an
  `undefined` model, which the interpolating key and the hooks' model
  comparison would see as the text `undefined` or as a missing value. The
  model takes the model name as a string.
- Thrown values that are not objects are not modelled: `null` and
  `undefined` (whose `e.message` would itself throw), and messages that
  are not strings. An exception is a name plus an optional string message.
- `Reflect` metadata, `typedi`'s `Container` and prototype chains are
  modelled as data:
  - an instance is its marker bit plus its prototype's own methods in
    declaration order, each with its metadata;
  - inherited methods and metadata inherited through the prototype chain
    are not modelled.
  - The controller and registry that the container would supply are
    parameters.
- `Hooks.ApplyMethods` tests a method with the predicate `Applies`.
  `Applies` is the source's condition (`src/hooks.ts:35-43`) written as
  one match.
- Signal and exit handlers are not modelled (`src/client.ts:64-86`):
  `process.on` and `$disconnect` are I/O. The same goes for Prisma's
  `$extends` machinery and the real database.
- Transaction options are modelled with three fields. Any other field
  inside `prismaOptions` is passed through unchanged and is not
  represented.
- `src/events.ts:2-36` repeats the enums, the key function and the payload
  type of `src/types.ts`. The model defines them once, in `Types`.
- `src/context.ts`, `src/index.ts`, the generators and the compiled
  `output/` files are not part of this model.

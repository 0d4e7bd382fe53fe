/**
 * The event controller of src/events.ts, `PrismaEventController`: one map of
 * listener lists keyed by the exact event string and one "global" map keyed
 * by `<phase>_<operation>` (with `*` for every operation), plus the four
 * registration functions that write into the module's one controller.
 */
module Events {
  import opened Prelude
  import opened Types

  /** The `operation` argument of `onGlobal`: one operation or the wildcard `'*'`. */
  datatype Target = Wildcard | Only(operation: Operation) {
    function Name(): string {
      match this
      case Wildcard => "*"
      case Only(op) => op.Name()
    }
  }

  /** The global map's key `<phase>_<operation>`. */
  function GlobalKey(phase: Phase, operation: string): string
  {
    phase.Name() + "_" + operation
  }

  /** Global keys of different phases never coincide. */
  lemma GlobalKeyInjective(p1: Phase, a: string, p2: Phase, b: string)
    requires GlobalKey(p1, a) == GlobalKey(p2, b)
    ensures p1 == p2 && a == b
  {
    SplitAtSeparator(p1.Name(), a, p2.Name(), b);
  }

  /** JavaScript's `s.includes(t)`. */
  function Includes(s: string, t: string): bool
    decreases |s|
  {
    if |s| < |t| then false
    else if s[..|t|] == t then true
    else Includes(s[1..], t)
  }

  /** `t` occurs in `s` starting at position `i`. */
  predicate OccursAt(s: string, t: string, i: nat)
  {
    i + |t| <= |s| && s[i..i + |t|] == t
  }

  /** An occurrence of `t` at position `i` makes `s.includes(t)` true. */
  lemma {:induction false} IncludesAt(s: string, t: string, i: nat)
    requires OccursAt(s, t, i)
    ensures Includes(s, t)
    decreases i
  {
    if i > 0 && s[..|t|] != t {
      assert s[1..][i - 1..i - 1 + |t|] == s[i..i + |t|];
      IncludesAt(s[1..], t, i - 1);
    }
  }

  /**
   * When `t` occurs at no position inside the prefix `p`, `p + s` includes
   * `t` exactly when `s` does.
   */
  lemma {:induction false} IncludesSkipsPrefix(p: string, s: string, t: string)
    requires forall i :: 0 <= i < |p| ==> !OccursAt(p + s, t, i)
    ensures Includes(p + s, t) == Includes(s, t)
    decreases |p|
  {
    if p == [] {
      assert p + s == s;
    } else if |p + s| >= |t| {
      assert !OccursAt(p + s, t, 0);
      assert (p + s)[1..] == p[1..] + s;
      forall i | 0 <= i < |p[1..]|
        ensures !OccursAt(p[1..] + s, t, i)
      {
        assert !OccursAt(p + s, t, i + 1);
        if i + |t| <= |p[1..] + s| {
          assert (p[1..] + s)[i..i + |t|] == (p + s)[i + 1..i + 1 + |t|];
        }
      }
      IncludesSkipsPrefix(p[1..], s, t);
    }
  }

  /** The phase `emit` derives from an event string: Before iff it includes `_before_`. */
  function EventPhase(event: string): Phase
  {
    if Includes(event, "_before_") then Before else After
  }

  /** Every Before key is classified Before. */
  lemma BeforeKeyClassifiedBefore(model: string, operation: string)
    ensures EventPhase(EventString(model, operation, Before)) == Before
  {
    var k := EventString(model, operation, Before);
    assert OccursAt(k, "_before_", 2);
    IncludesAt(k, "_before_", 2);
  }

  /**
   * An After key is classified After exactly when `"_" + model` does not
   * include `_before_`: a model name such as `x_before_y` or `before_x`
   * turns the After event of that model into a Before event.
   */
  lemma AfterKeyClassification(model: string, operation: Operation)
    ensures EventPhase(EventString(model, operation.Name(), After)) == After <==> !Includes("_" + model, "_before_")
  {
    var name := operation.Name();
    var p := "db_after_" + name;
    var k := EventString(model, name, After);
    assert k == p + ("_" + model);
    OperationNameShape(operation);
    forall i | 0 <= i < |p|
      ensures !OccursAt(k, "_before_", i)
    {
      if i + 8 <= |k| {
        var w := k[i..i + 8];
        assert w[0] == k[i] == p[i] && w[1] == k[i + 1];
        if i == 2 {
          assert k[i + 1] == 'a';
        } else if i == 8 {
          assert k[i + 1] == name[0];
        } else if i < 9 {
          assert p[i] == "db_after_"[i];
        } else {
          assert p[i] == name[i - 9];
        }
      }
    }
    IncludesSkipsPrefix(p, "_" + model, "_before_");
  }

  /** A model name that turns an After key into a Before event. */
  lemma AfterKeyMisclassifiedExample()
    ensures EventPhase(EventString("x_before_y", Create.Name(), After)) == Before
  {
    var m := "x_before_y";
    assert OccursAt("_" + m, "_before_", 2);
    IncludesAt("_" + m, "_before_", 2);
    AfterKeyClassification(m, Create);
  }

  /**
   * The callbacks one `emit(event, payload)` calls, in call order: the
   * phase's wildcard global list, then the global list of the payload's
   * operation, then the exact-key list.
   */
  function EmitOrder(globals: map<string, seq<CallbackId>>, listeners: map<string, seq<CallbackId>>, event: string, operation: string): seq<CallbackId>
  {
    var phase := EventPhase(event);
    ListenersAt(globals, GlobalKey(phase, "*")) + ListenersAt(globals, GlobalKey(phase, operation)) + ListenersAt(listeners, event)
  }

  class PrismaEventController {
    var listeners: map<string, seq<CallbackId>>
    var globalListeners: map<string, seq<CallbackId>>

    constructor()
      ensures listeners == map[] && globalListeners == map[]
    {
      listeners, globalListeners := map[], map[];
    }

    /** `on(event, callback)`: append to the exact-key list. */
    method On(event: string, callback: CallbackId)
      modifies this
      ensures listeners == Subscribe(old(listeners), event, callback)
      ensures globalListeners == old(globalListeners)
    {
      if event !in listeners {
        listeners := listeners[event := []];
      }
      listeners := listeners[event := listeners[event] + [callback]];
    }

    /** `onGlobal(operation, eventType, callback)`: append to the list of `<eventType>_<operation>`. */
    method OnGlobal(target: Target, eventType: Phase, callback: CallbackId)
      modifies this
      ensures globalListeners == Subscribe(old(globalListeners), GlobalKey(eventType, target.Name()), callback)
      ensures listeners == old(listeners)
    {
      var key := GlobalKey(eventType, target.Name());
      if key !in globalListeners {
        globalListeners := globalListeners[key := []];
      }
      globalListeners := globalListeners[key := globalListeners[key] + [callback]];
    }

    /**
     * `emit(event, payload)`: calls the callbacks of `EmitOrder` one after
     * the other with no catch, so the first that throws stops the rest.
     * Neither map changes.
     */
    method Emit<A, R>(event: string, payload: Payload<A, R>, listen: (CallbackId, Payload<A, R>) -> Completion<()>)
      returns (ran: seq<CallbackId>, outcome: Completion<()>)
      ensures Delivery(ran, outcome) == Notify(EmitOrder(globalListeners, listeners, event, payload.operation), payload, listen)
    {
      var operation := payload.operation;
      var eventType := EventPhase(event);
      ghost var w := ListenersAt(globalListeners, GlobalKey(eventType, "*"));
      ghost var o := ListenersAt(globalListeners, GlobalKey(eventType, operation));
      ghost var e := ListenersAt(listeners, event);
      NotifyAppend(w, o, payload, listen);
      NotifyAppend(w + o, e, payload, listen);

      ran, outcome := [], Normal(());
      var wildcardKey := GlobalKey(eventType, "*");
      if wildcardKey in globalListeners {
        ran, outcome := NotifyEach(globalListeners[wildcardKey], payload, listen);
        if outcome.Abrupt? {
          return;
        }
      }
      var operationKey := GlobalKey(eventType, operation);
      if operationKey in globalListeners {
        var more;
        more, outcome := NotifyEach(globalListeners[operationKey], payload, listen);
        ran := ran + more;
        if outcome.Abrupt? {
          return;
        }
      }
      if event !in listeners {
        return;
      }
      var last;
      last, outcome := NotifyEach(listeners[event], payload, listen);
      ran := ran + last;
    }
  }

  /** `onBeforeHook(model, operation, handler)`: the Before key's exact list. */
  method OnBeforeHook(controller: PrismaEventController, model: string, operation: Operation, handler: CallbackId)
    modifies controller
    ensures controller.listeners == Subscribe(old(controller.listeners), EventString(model, operation.Name(), Before), handler)
    ensures controller.globalListeners == old(controller.globalListeners)
  {
    var eventName := EventString(model, operation.Name(), Before);
    controller.On(eventName, handler);
  }

  /** `onAfterHook(model, operation, handler)`: the After key's exact list. */
  method OnAfterHook(controller: PrismaEventController, model: string, operation: Operation, handler: CallbackId)
    modifies controller
    ensures controller.listeners == Subscribe(old(controller.listeners), EventString(model, operation.Name(), After), handler)
    ensures controller.globalListeners == old(controller.globalListeners)
  {
    var eventName := EventString(model, operation.Name(), After);
    controller.On(eventName, handler);
  }

  /** `onBeforeHookForAll(operation, handler)`: the global Before list of `operation` or `*`. */
  method OnBeforeHookForAll(controller: PrismaEventController, target: Target, handler: CallbackId)
    modifies controller
    ensures controller.globalListeners == Subscribe(old(controller.globalListeners), GlobalKey(Before, target.Name()), handler)
    ensures controller.listeners == old(controller.listeners)
  {
    controller.OnGlobal(target, Before, handler);
  }

  /** `onAfterHookForAll(operation, handler)`: the global After list of `operation` or `*`. */
  method OnAfterHookForAll(controller: PrismaEventController, target: Target, handler: CallbackId)
    modifies controller
    ensures controller.globalListeners == Subscribe(old(controller.globalListeners), GlobalKey(After, target.Name()), handler)
    ensures controller.listeners == old(controller.listeners)
  {
    controller.OnGlobal(target, After, handler);
  }

  /** A wildcard registration runs before every operation-specific and exact-key listener. */
  lemma WildcardRegistrationRunsFirst(g: map<string, seq<CallbackId>>, l: map<string, seq<CallbackId>>, event: string, operation: string, callback: CallbackId)
    requires operation != "*"
    ensures var phase := EventPhase(event);
            EmitOrder(Subscribe(g, GlobalKey(phase, Wildcard.Name()), callback), l, event, operation) ==
            ListenersAt(g, GlobalKey(phase, "*")) + [callback] +
            ListenersAt(g, GlobalKey(phase, operation)) + ListenersAt(l, event)
  {
    var phase := EventPhase(event);
    if GlobalKey(phase, operation) == GlobalKey(phase, "*") {
      GlobalKeyInjective(phase, operation, phase, "*");
    }
  }

  /**
   * A registration for one operation runs after the wildcard list and
   * before the exact-key list, on every event whose payload names that
   * operation.
   */
  lemma OperationRegistrationRunsSecond(g: map<string, seq<CallbackId>>, l: map<string, seq<CallbackId>>, event: string, operation: Operation, callback: CallbackId)
    ensures var phase := EventPhase(event);
            EmitOrder(Subscribe(g, GlobalKey(phase, Only(operation).Name()), callback), l, event, operation.Name()) ==
            ListenersAt(g, GlobalKey(phase, "*")) +
            (ListenersAt(g, GlobalKey(phase, operation.Name())) + [callback]) + ListenersAt(l, event)
  {
    var phase := EventPhase(event);
    OperationNameShape(operation);
    if GlobalKey(phase, operation.Name()) == GlobalKey(phase, "*") {
      GlobalKeyInjective(phase, operation.Name(), phase, "*");
    }
  }

  /** An exact-key registration runs last, after everything registered before it. */
  lemma ExactRegistrationRunsLast(g: map<string, seq<CallbackId>>, l: map<string, seq<CallbackId>>, event: string, operation: string, callback: CallbackId)
    ensures EmitOrder(g, Subscribe(l, event, callback), event, operation) == EmitOrder(g, l, event, operation) + [callback]
  {
  }

  /**
   * Listeners registered for the other phase never run: neither a global
   * registration of the other phase nor an exact registration under the
   * other phase's key of any model and operation changes the delivery.
   */
  lemma {:induction false} OtherPhaseNeverRuns(
    g: map<string, seq<CallbackId>>, l: map<string, seq<CallbackId>>,
    model: string, operation: Operation, phase: Phase, payloadOperation: string,
    other: Phase, target: string, model': string, operation': Operation, callback: CallbackId)
    requires phase != other
    requires EventPhase(EventString(model, operation.Name(), phase)) == phase
    ensures var event := EventString(model, operation.Name(), phase);
            EmitOrder(Subscribe(g, GlobalKey(other, target), callback), l, event, payloadOperation) ==
              EmitOrder(g, l, event, payloadOperation) &&
            EmitOrder(g, Subscribe(l, EventString(model', operation'.Name(), other), callback), event, payloadOperation) ==
              EmitOrder(g, l, event, payloadOperation)
  {
    var event := EventString(model, operation.Name(), phase);
    if GlobalKey(other, target) == GlobalKey(phase, "*") {
      GlobalKeyInjective(other, target, phase, "*");
    }
    if GlobalKey(other, target) == GlobalKey(phase, payloadOperation) {
      GlobalKeyInjective(other, target, phase, payloadOperation);
    }
    if EventString(model', operation'.Name(), other) == event {
      EventStringInjective(model', operation', other, model, operation, phase);
    }
  }

  /**
   * The delivery order of a fresh controller holding one wildcard, one
   * operation-specific and one exact Before listener for `User.create`:
   * wildcard, operation, exact.
   */
  lemma ThreeListenerDeliveryOrder<A, R>(w: CallbackId, o: CallbackId, x: CallbackId, payload: Payload<A, R>, listen: (CallbackId, Payload<A, R>) -> Completion<()>)
    requires payload.operation == Create.Name()
    requires listen(w, payload).Normal? && listen(o, payload).Normal? && listen(x, payload).Normal?
    ensures var event := EventString("User", Create.Name(), Before);
            var g := Subscribe(Subscribe(map[], GlobalKey(Before, Wildcard.Name()), w), GlobalKey(Before, Only(Create).Name()), o);
            var l := Subscribe(map[], event, x);
            Notify(EmitOrder(g, l, event, payload.operation), payload, listen) == Delivery([w, o, x], Normal(()))
  {
    var event := EventString("User", Create.Name(), Before);
    BeforeKeyClassifiedBefore("User", Create.Name());
    var g1 := Subscribe(map[], GlobalKey(Before, Wildcard.Name()), w);
    var g := Subscribe(g1, GlobalKey(Before, Only(Create).Name()), o);
    var l := Subscribe(map[], event, x);
    OperationRegistrationRunsSecond(g1, l, event, Create, o);
    assert EmitOrder(g, l, event, payload.operation) == [w, o, x];
    NotifyAllWhenNoneThrow([w, o, x], payload, listen);
  }
}

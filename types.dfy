/**
 * The shared vocabulary of the interception layer (src/types.ts): the
 * operation and phase enums, the event key, the event payload, what
 * delivering one event to a list of listeners does, and the exact-key
 * controller `DbEventController` with its two registration decorators.
 *
 * src/events.ts declares the same two enums and the same key function
 * (src/events.ts:2-36); the model defines them once, here.
 */
module Types {
  import opened Prelude

  /** `PrismaOperation`: the query verbs a hook or listener can name. */
  datatype Operation =
    | FindUnique | FindUniqueOrThrow | FindFirst | FindFirstOrThrow | FindMany
    | Create | CreateMany | Delete | Update | DeleteMany | UpdateMany
    | Upsert | Aggregate | GroupBy | Count
  {
    /** The enum member's string value. */
    function Name(): string {
      match this
      case FindUnique => "findUnique"
      case FindUniqueOrThrow => "findUniqueOrThrow"
      case FindFirst => "findFirst"
      case FindFirstOrThrow => "findFirstOrThrow"
      case FindMany => "findMany"
      case Create => "create"
      case CreateMany => "createMany"
      case Delete => "delete"
      case Update => "update"
      case DeleteMany => "deleteMany"
      case UpdateMany => "updateMany"
      case Upsert => "upsert"
      case Aggregate => "aggregate"
      case GroupBy => "groupBy"
      case Count => "count"
    }
  }

  /** `PrismaEventOperation`: which side of the query an event belongs to. */
  datatype Phase = Before | After {
    function Name(): string {
      match this
      case Before => "before"
      case After => "after"
    }
  }

  /** No operation value is empty, contains the separator, or starts with 'b'. */
  lemma OperationNameShape(op: Operation)
    ensures |op.Name()| > 0 && '_' !in op.Name() && op.Name()[0] != 'b'
  {
  }

  /** Distinct enum members have distinct string values. */
  lemma OperationNameInjective(o1: Operation, o2: Operation)
    requires o1.Name() == o2.Name()
    ensures o1 == o2
  {
    assert |o1.Name()| == |o2.Name()| && o1.Name()[0] == o2.Name()[0];
    assert o1.Name()[|o1.Name()| - 1] == o2.Name()[|o2.Name()| - 1];
  }

  /**
   * `generateEventString`: the dispatch key `db_<phase>_<operation>_<model>`.
   * The operation is a string because the interceptor passes whatever
   * operation name Prisma hands it; registrations pass an enum value.
   */
  function EventString(modelName: string, operation: string, phase: Phase): string
  {
    "db_" + phase.Name() + "_" + operation + "_" + modelName
  }

  /**
   * Two strings that each start with a separator-free part followed by
   * `_` split at the same place.
   */
  lemma SplitAtSeparator(a: string, b: string, c: string, d: string)
    requires '_' !in a && '_' !in c
    requires a + "_" + b == c + "_" + d
    ensures a == c && b == d
  {
    var s := a + "_" + b;
    assert s[|a|] == '_';
    assert (c + "_" + d)[|c|] == '_';
    assert |a| == |c|;
    assert a == s[..|a|] == c;
    assert b == s[|a| + 1..] == d;
  }

  /** The key regrouped as "db_" followed by the phase part. */
  lemma KeyShape(model: string, operation: string, phase: Phase)
    ensures EventString(model, operation, phase)[3..] == phase.Name() + "_" + (operation + "_" + model)
  {
    var k := EventString(model, operation, phase);
    var t := phase.Name() + "_" + (operation + "_" + model);
    assert k == "db_" + t;
    assert ("db_" + t)[3..] == t;
  }

  /**
   * The key is injective in (model, operation, phase): no phase and no
   * operation value contains the separator `_`.
   */
  lemma EventStringInjective(m1: string, o1: Operation, p1: Phase, m2: string, o2: Operation, p2: Phase)
    requires EventString(m1, o1.Name(), p1) == EventString(m2, o2.Name(), p2)
    ensures m1 == m2 && o1 == o2 && p1 == p2
  {
    var k := EventString(m1, o1.Name(), p1);
    var r1, r2 := o1.Name() + "_" + m1, o2.Name() + "_" + m2;
    var t1, t2 := p1.Name() + "_" + r1, p2.Name() + "_" + r2;
    KeyShape(m1, o1.Name(), p1);
    KeyShape(m2, o2.Name(), p2);
    assert t1 == k[3..] == t2;
    OperationNameShape(o1);
    OperationNameShape(o2);
    SplitAtSeparator(p1.Name(), r1, p2.Name(), r2);
    SplitAtSeparator(o1.Name(), m1, o2.Name(), m2);
    OperationNameInjective(o1, o2);
  }

  /** For one model and operation, the Before key and the After key differ. */
  lemma PhaseKeysDiffer(model: string, operation: string)
    ensures EventString(model, operation, Before) != EventString(model, operation, After)
  {
    assert EventString(model, operation, Before)[3] == 'b';
    assert EventString(model, operation, After)[3] == 'a';
  }

  /**
   * `PrismaEventPayload`: what listeners receive. `query` is the
   * not-yet-invoked query function; `result` is present after the query.
   */
  datatype Payload<!A, R> = Payload(
    model: string,
    operation: string,
    args: A,
    query: A -> Completion<R>,
    result: Option<R>)

  /** A registered callback, identified by the position it was created at. */
  type CallbackId = nat

  /** The list registered under `key`, or the empty list for a key never registered. */
  function ListenersAt(m: map<string, seq<CallbackId>>, key: string): seq<CallbackId>
  {
    if key in m then m[key] else []
  }

  /**
   * The map after `on(key, callback)`: the list for `key` (created empty
   * when absent) gains `callback` at its end; every other list is unchanged.
   */
  function Subscribe(m: map<string, seq<CallbackId>>, key: string, callback: CallbackId): (m': map<string, seq<CallbackId>>)
    ensures ListenersAt(m', key) == ListenersAt(m, key) + [callback]
    ensures forall k :: k != key ==> ListenersAt(m', k) == ListenersAt(m, k)
    ensures m'.Keys == m.Keys + {key}
  {
    m[key := ListenersAt(m, key) + [callback]]
  }

  /** Which callbacks ran during one delivery, and how the delivery ended. */
  datatype Delivery = Delivery(ran: seq<CallbackId>, outcome: Completion<()>)

  /**
   * Calling every callback of `ids` in order with `payload`, with no catch:
   * the first callback that throws ends the delivery and its exception
   * propagates. `listen` says how each callback's synchronous part ends.
   */
  function Notify<P>(ids: seq<CallbackId>, payload: P, listen: (CallbackId, P) -> Completion<()>): (d: Delivery)
    ensures |d.ran| <= |ids| && d.ran == ids[..|d.ran|]
    ensures d.outcome.Normal? ==> d.ran == ids
    decreases |ids|
  {
    if ids == [] then Delivery([], Normal(()))
    else
      match listen(ids[0], payload)
      case Abrupt(e) => Delivery([ids[0]], Abrupt(e))
      case Normal(_) =>
        var rest := Notify(ids[1..], payload, listen);
        Delivery([ids[0]] + rest.ran, rest.outcome)
  }

  /**
   * How a delivery ended says which callbacks threw: it completes only when
   * none did, and an exception comes from the last callback that ran, after
   * every earlier one returned.
   */
  lemma {:induction false} NotifyOutcome<P>(ids: seq<CallbackId>, payload: P, listen: (CallbackId, P) -> Completion<()>)
    ensures var d := Notify(ids, payload, listen);
            (d.outcome.Normal? ==> forall i :: 0 <= i < |ids| ==> listen(ids[i], payload).Normal?) &&
            (d.outcome.Abrupt? ==>
               |d.ran| > 0 && listen(d.ran[|d.ran| - 1], payload) == d.outcome &&
               forall i :: 0 <= i < |d.ran| - 1 ==> listen(d.ran[i], payload).Normal?)
    decreases |ids|
  {
    if ids != [] && listen(ids[0], payload).Normal? {
      NotifyOutcome(ids[1..], payload, listen);
      var rest := Notify(ids[1..], payload, listen);
      assert Notify(ids, payload, listen) == Delivery([ids[0]] + rest.ran, rest.outcome);
      if rest.outcome.Abrupt? {
        forall i | 0 <= i < |rest.ran|
          ensures listen(([ids[0]] + rest.ran)[i], payload).Normal?
        {
          if i > 0 {
            assert ([ids[0]] + rest.ran)[i] == rest.ran[i - 1];
          }
        }
      } else {
        forall i | 0 <= i < |ids|
          ensures listen(ids[i], payload).Normal?
        {
          if i > 0 {
            assert ids[i] == ids[1..][i - 1];
          }
        }
      }
    }
  }

  /** When no callback throws, every callback runs once, in order. */
  lemma {:induction false} NotifyAllWhenNoneThrow<P>(ids: seq<CallbackId>, payload: P, listen: (CallbackId, P) -> Completion<()>)
    requires forall i :: 0 <= i < |ids| ==> listen(ids[i], payload).Normal?
    ensures Notify(ids, payload, listen) == Delivery(ids, Normal(()))
  {
    NotifyOutcome(ids, payload, listen);
    var d := Notify(ids, payload, listen);
    if d.outcome.Normal? {
      assert d.outcome.value == ();
    }
  }

  /**
   * When callback `k` is the first to throw, exactly `ids[..k+1]` ran and
   * its exception is the delivery's outcome.
   */
  lemma {:induction false} NotifyStopsAtFirstThrow<P>(ids: seq<CallbackId>, payload: P, listen: (CallbackId, P) -> Completion<()>, k: nat)
    requires k < |ids| && listen(ids[k], payload).Abrupt?
    requires forall i :: 0 <= i < k ==> listen(ids[i], payload).Normal?
    ensures Notify(ids, payload, listen) == Delivery(ids[..k + 1], listen(ids[k], payload))
  {
    NotifyOutcome(ids, payload, listen);
    var d := Notify(ids, payload, listen);
    var n := |d.ran|;
    assert d.outcome.Abrupt?;
    assert d.ran[n - 1] == ids[n - 1];
    assert n == k + 1;
  }

  /**
   * Delivering to `xs + ys` is delivering to `xs` and then, if nothing
   * threw, to `ys`.
   */
  lemma {:induction false} NotifyAppend<P>(xs: seq<CallbackId>, ys: seq<CallbackId>, payload: P, listen: (CallbackId, P) -> Completion<()>)
    ensures Notify(xs + ys, payload, listen) ==
            (var first := Notify(xs, payload, listen);
             if first.outcome.Abrupt? then first
             else Delivery(xs + Notify(ys, payload, listen).ran, Notify(ys, payload, listen).outcome))
    decreases |xs|
  {
    if xs == [] {
      assert xs + ys == ys;
    } else {
      var h, rest := xs[0], xs[1..];
      assert (xs + ys)[0] == h;
      assert (xs + ys)[1..] == rest + ys;
      if listen(h, payload).Abrupt? {
        assert Notify(xs + ys, payload, listen) == Delivery([h], listen(h, payload));
        assert Notify(xs, payload, listen) == Delivery([h], listen(h, payload));
      } else {
        NotifyAppend(rest, ys, payload, listen);
        var whole := Notify(rest + ys, payload, listen);
        var first := Notify(rest, payload, listen);
        assert Notify(xs + ys, payload, listen) == Delivery([h] + whole.ran, whole.outcome);
        assert Notify(xs, payload, listen) == Delivery([h] + first.ran, first.outcome);
        var tail := Notify(ys, payload, listen).ran;
        assert [h] + (rest + tail) == xs + tail;
      }
    }
  }

  /**
   * `for (const callback of list) callback(payload)`: the loop both
   * controllers run over one listener list.
   */
  method NotifyEach<A, R>(ids: seq<CallbackId>, payload: Payload<A, R>, listen: (CallbackId, Payload<A, R>) -> Completion<()>)
    returns (ran: seq<CallbackId>, outcome: Completion<()>)
    ensures Delivery(ran, outcome) == Notify(ids, payload, listen)
  {
    ran := [];
    var i := 0;
    while i < |ids|
      invariant 0 <= i <= |ids|
      invariant ran == ids[..i]
      invariant forall j :: 0 <= j < i ==> listen(ids[j], payload).Normal?
    {
      ran := ran + [ids[i]];
      var done := listen(ids[i], payload);
      if done.Abrupt? {
        NotifyStopsAtFirstThrow(ids, payload, listen, i);
        assert ran == ids[..i + 1];
        return ran, done;
      }
      i := i + 1;
    }
    NotifyAllWhenNoneThrow(ids, payload, listen);
    assert ran == ids;
    outcome := Normal(());
  }

  /**
   * `DbEventController`: listeners keyed by the exact event string only.
   * Registration appends; emission reads the map and changes nothing.
   */
  class DbEventController {
    var listeners: map<string, seq<CallbackId>>

    constructor()
      ensures listeners == map[]
    {
      listeners := map[];
    }

    /** `on(event, callback)`. */
    method On(event: string, callback: CallbackId)
      modifies this
      ensures listeners == Subscribe(old(listeners), event, callback)
    {
      if event !in listeners {
        listeners := listeners[event := []];
      }
      listeners := listeners[event := listeners[event] + [callback]];
    }

    /**
     * `emit(event, payload)`: only the callbacks registered under exactly
     * `event`, in registration order, until one throws; nothing when
     * `event` was never registered.
     */
    method Emit<A, R>(event: string, payload: Payload<A, R>, listen: (CallbackId, Payload<A, R>) -> Completion<()>)
      returns (ran: seq<CallbackId>, outcome: Completion<()>)
      ensures Delivery(ran, outcome) == Notify(ListenersAt(listeners, event), payload, listen)
    {
      if event !in listeners {
        return [], Normal(());
      }
      ran, outcome := NotifyEach(listeners[event], payload, listen);
    }
  }

  /**
   * `@DbBeforeListener(model, operation)`: registers the decorated method
   * (here `callback`) under the Before key of (model, operation).
   */
  method DbBeforeListener(controller: DbEventController, model: string, operation: Operation, callback: CallbackId)
    modifies controller
    ensures controller.listeners == Subscribe(old(controller.listeners), EventString(model, operation.Name(), Before), callback)
  {
    var eventName := EventString(model, operation.Name(), Before);
    controller.On(eventName, callback);
  }

  /** `@DbAfterListener(model, operation)`: the same under the After key. */
  method DbAfterListener(controller: DbEventController, model: string, operation: Operation, callback: CallbackId)
    modifies controller
    ensures controller.listeners == Subscribe(old(controller.listeners), EventString(model, operation.Name(), After), callback)
  {
    var eventName := EventString(model, operation.Name(), After);
    controller.On(eventName, callback);
  }

  /**
   * A listener registered for (model, operation, phase) joins that key's
   * list only: the events of every other triple, the other phase of the
   * same model and operation included, keep their lists.
   */
  lemma RegistrationReachesOnlyItsKey(l: map<string, seq<CallbackId>>, model: string, operation: Operation, phase: Phase, callback: CallbackId)
    ensures var l' := Subscribe(l, EventString(model, operation.Name(), phase), callback);
            ListenersAt(l', EventString(model, operation.Name(), phase)) ==
              ListenersAt(l, EventString(model, operation.Name(), phase)) + [callback] &&
            forall m, o: Operation, p: Phase :: (m, o, p) != (model, operation, phase) ==>
              ListenersAt(l', EventString(m, o.Name(), p)) == ListenersAt(l, EventString(m, o.Name(), p))
  {
    var key := EventString(model, operation.Name(), phase);
    var l' := Subscribe(l, key, callback);
    forall m, o: Operation, p: Phase | (m, o, p) != (model, operation, phase)
      ensures ListenersAt(l', EventString(m, o.Name(), p)) == ListenersAt(l, EventString(m, o.Name(), p))
    {
      if EventString(m, o.Name(), p) == key {
        EventStringInjective(m, o, p, model, operation, phase);
      }
    }
  }
}

/** The process-wide event bus of src/lib/server/eventBus.ts. The Node
    `EventEmitter` is a list of handlers: `on` appends, `off` removes the
    most recently added instance of the handler, and `emit` calls each
    handler registered at the moment of emission, in order. A handler is
    named by an id; what it does with an event is the caller's business, so
    the bus records each call as a `Delivery`. */
module EventBus {
  import opened Common
  import Json

  datatype SystemEventType =
    | DOCUMENT_CREATED
    | DOCUMENT_DELETED
    | OTP_VERIFIED
    | SESSION_HEARTBEAT
    | VIOLATION
    | PRESENCE_CAPTURED
    | VIEWER_IDENTITY_CAPTURED
    | SESSION_REVOKED_EVENT

  datatype SystemEvent = SystemEvent(kind: SystemEventType, payload: Json.Json, createdAt: string)

  /** One call of a handler with an event. */
  datatype Delivery = Delivery(handler: int, event: SystemEvent)

  /** `emitter.off(name, h)`: the last instance of `h` goes, the rest of the
      list keeps its order. */
  function RemoveLast(hs: seq<int>, h: int): (r: seq<int>)
    ensures h !in hs ==> r == hs
    ensures h in hs ==> |r| == |hs| - 1
    ensures forall x :: x in r ==> x in hs
  {
    if hs == [] then []
    else
      var init := hs[..|hs| - 1];
      assert hs == init + [hs[|hs| - 1]];
      if hs[|hs| - 1] == h then init
      else RemoveLast(init, h) + [hs[|hs| - 1]]
  }

  /** What one `emit` delivers: every registered handler, in order. */
  function Fanout(hs: seq<int>, e: SystemEvent): (d: seq<Delivery>)
    ensures |d| == |hs|
    ensures forall i :: 0 <= i < |d| ==> d[i] == Delivery(hs[i], e)
  {
    if hs == [] then [] else [Delivery(hs[0], e)] + Fanout(hs[1..], e)
  }

  /** A handler hears an emission exactly when it is registered. */
  lemma FanoutReachesSubscribers(hs: seq<int>, e: SystemEvent, h: int)
    ensures (exists i :: 0 <= i < |Fanout(hs, e)| && Fanout(hs, e)[i].handler == h) <==> h in hs
  {
    var d := Fanout(hs, e);
    if h in hs {
      var i :| 0 <= i < |hs| && hs[i] == h;
      assert d[i].handler == h;
    }
  }

  /** Removing the last registration takes away exactly one copy of `h`. */
  lemma {:induction false} RemoveLastTakesOne(hs: seq<int>, h: int)
    ensures multiset(RemoveLast(hs, h)) == multiset(hs) - multiset{h}
    decreases |hs|
  {
    if hs != [] {
      var init := hs[..|hs| - 1];
      var last := hs[|hs| - 1];
      assert hs == init + [last];
      RemoveLastTakesOne(init, h);
      if last != h {
        assert RemoveLast(hs, h) == RemoveLast(init, h) + [last];
        assert multiset(RemoveLast(hs, h)) == multiset(RemoveLast(init, h)) + multiset{last};
      }
    }
  }

  /** Unsubscribing one handler leaves every other handler registered as
      often as before, and a handler registered once is gone afterwards. */
  lemma UnsubscribeOnlyThat(hs: seq<int>, h: int)
    ensures multiset(RemoveLast(hs, h)) == multiset(hs) - multiset{h}
    ensures forall x :: x != h ==> multiset(RemoveLast(hs, h))[x] == multiset(hs)[x]
    ensures multiset(hs)[h] <= 1 ==> h !in RemoveLast(hs, h)
  {
    RemoveLastTakesOne(hs, h);
    if multiset(hs)[h] <= 1 {
      assert multiset(RemoveLast(hs, h))[h] == 0;
    }
  }

  class Bus {
    var handlers: seq<int>
    var delivered: seq<Delivery>

    /** `new EventEmitter()` */
    constructor ()
      ensures handlers == [] && delivered == []
    {
      handlers := [];
      delivered := [];
    }

    /** `subscribeSystemEvents(handler)`; the returned closure is
        `Unsubscribe(handler)`. */
    method Subscribe(handler: int)
      modifies this
      ensures handlers == old(handlers) + [handler]
      ensures delivered == old(delivered)
    {
      handlers := handlers + [handler];
    }

    method Unsubscribe(handler: int)
      modifies this
      ensures handlers == RemoveLast(old(handlers), handler)
      ensures delivered == old(delivered)
    {
      handlers := RemoveLast(handlers, handler);
    }

    /** `emitSystemEvent(event)`: each handler registered now is called
        once, in registration order. */
    method Emit(event: SystemEvent)
      modifies this
      ensures handlers == old(handlers)
      ensures delivered == old(delivered) + Fanout(handlers, event)
    {
      var listeners := handlers;
      var i := 0;
      while i < |listeners|
        invariant 0 <= i <= |listeners|
        invariant handlers == listeners
        invariant delivered == old(delivered) + Fanout(listeners, event)[..i]
      {
        assert Fanout(listeners, event)[..i + 1] == Fanout(listeners, event)[..i] + [Delivery(listeners[i], event)];
        delivered := delivered + [Delivery(listeners[i], event)];
        i := i + 1;
      }
      assert Fanout(listeners, event)[..i] == Fanout(listeners, event);
    }
  }

  /** The `global.__eventBus` slot shared by every module instance. */
  class ProcessGlobal {
    var eventBus: Bus?

    constructor ()
      ensures eventBus == null
    {
      eventBus := null;
    }

    /** `global.__eventBus ?? (create and store)`: the bus is created once
        and reused afterwards. */
    method Emitter() returns (e: Bus)
      modifies this
      ensures old(eventBus) != null ==> e == old(eventBus)
      ensures old(eventBus) == null ==> fresh(e) && e.handlers == [] && e.delivered == []
      ensures eventBus == e
    {
      if eventBus != null {
        return eventBus;
      }
      e := new Bus();
      eventBus := e;
    }

    /** Two module loads in one process share one emitter. */
    method LoadTwice() returns (first: Bus, second: Bus)
      modifies this
      ensures first == second && eventBus == first
    {
      first := Emitter();
      second := Emitter();
    }
  }
}

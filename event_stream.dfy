/** The server-sent event stream of src/app/api/events/route.ts. One
    `EventStream` is one `GET` request: the constructor is the stream's
    `start`, `OnEvent` is the handler it subscribes to the bus, `HeartbeatTick`
    is the 15-second interval and `Cancel` is the stream's `cancel`. Whether
    `controller.enqueue` throws is an input of each send. */
module EventStreams {
  import opened EventBus

  /** The JSON objects written as `data:` frames. */
  datatype Message = Ready | Heartbeat(at: int) | Event(event: SystemEvent)

  class EventStream {
    const bus: Bus
    /** The id of the closure `(event) => send(event)` on the bus. */
    const handler: int
    var closed: bool
    var heartbeatActive: bool
    /** Whether `unsubscribe` is still the initial no-op or the bus's. */
    var unsubscribeBound: bool
    var controllerClosed: bool
    var sent: seq<Message>
    /** How often the real unsubscribe has run. */
    ghost var unsubscribes: nat

    /** The first frame is READY; an open stream has sent it; the
        controller is closed exactly when the stream is; the bus
        subscription is dropped at most once, and only on closing. */
    ghost predicate Valid()
      reads this
    {
      Coherent() && (!closed ==> sent != [])
    }

    /** `Valid` without the READY obligation, which holds only once `start`
        has sent it. */
    ghost predicate Coherent()
      reads this
    {
      && (sent != [] ==> sent[0] == Ready)
      && (closed <==> controllerClosed)
      && unsubscribes <= 1
      && (unsubscribes == 1 ==> closed)
    }

    /** `GET()` through `start(controller)`: READY, subscribe, heartbeat.
        When the READY enqueue throws, `cleanup` runs while `unsubscribe`
        is still the no-op, and `start` goes on to subscribe and to start the
        heartbeat on the closed stream. */
    constructor (bus: Bus, handler: int, readyFails: bool)
      modifies bus
      ensures this.bus == bus && this.handler == handler
      ensures Valid()
      ensures readyFails ==> closed && sent == []
      ensures !readyFails ==> !closed && sent == [Ready]
      ensures heartbeatActive && unsubscribeBound && unsubscribes == 0
      ensures bus.handlers == old(bus.handlers) + [handler]
      ensures bus.delivered == old(bus.delivered)
    {
      this.bus := bus;
      this.handler := handler;
      closed := false;
      heartbeatActive := false;
      unsubscribeBound := false;
      controllerClosed := false;
      sent := [];
      unsubscribes := 0;
      new;
      Send(Ready, readyFails);
      bus.Subscribe(handler);
      unsubscribeBound := true;
      heartbeatActive := true;
    }

    /** `cleanup`: runs once; clears the heartbeat, calls `unsubscribe` and
        closes the controller. */
    method Cleanup()
      requires Coherent()
      modifies this, bus
      ensures Valid()
      ensures old(closed) ==> unchanged(this) && bus.handlers == old(bus.handlers)
      ensures !old(closed) ==> closed && controllerClosed && !heartbeatActive
      ensures !old(closed) && old(unsubscribeBound) ==>
        bus.handlers == RemoveLast(old(bus.handlers), handler) && unsubscribes == 1
      ensures !old(closed) && !old(unsubscribeBound) ==> bus.handlers == old(bus.handlers) && unsubscribes == 0
      ensures sent == old(sent) && unsubscribeBound == old(unsubscribeBound)
      ensures bus.delivered == old(bus.delivered)
    {
      if closed {
        return;
      }
      closed := true;
      heartbeatActive := false;
      if unsubscribeBound {
        bus.Unsubscribe(handler);
        unsubscribes := unsubscribes + 1;
      }
      controllerClosed := true;
    }

    /** `send(data)`: nothing once closed; an enqueue failure cleans up. */
    method Send(m: Message, fails: bool)
      requires Coherent() && (sent == [] && !closed ==> m == Ready)
      modifies this, bus
      ensures Valid()
      ensures old(closed) ==> unchanged(this) && bus.handlers == old(bus.handlers)
      ensures !old(closed) && !fails ==> sent == old(sent) + [m] && !closed
      ensures !old(closed) && !fails ==> heartbeatActive == old(heartbeatActive) && bus.handlers == old(bus.handlers)
      ensures !old(closed) && fails ==> closed && sent == old(sent) && !heartbeatActive
      ensures !old(closed) && fails && old(unsubscribeBound) ==> bus.handlers == RemoveLast(old(bus.handlers), handler)
      ensures !old(closed) && fails && !old(unsubscribeBound) ==> bus.handlers == old(bus.handlers)
      ensures unsubscribeBound == old(unsubscribeBound)
      ensures !old(unsubscribeBound) ==> unsubscribes == old(unsubscribes)
      ensures bus.delivered == old(bus.delivered)
    {
      if closed {
        return;
      }
      if fails {
        Cleanup();
      } else {
        sent := sent + [m];
      }
    }

    /** The handler on the bus: forward the event. */
    method OnEvent(e: SystemEvent, fails: bool)
      requires Valid()
      modifies this, bus
      ensures Valid()
      ensures old(closed) ==> sent == old(sent)
      ensures !old(closed) && !fails ==> sent == old(sent) + [Event(e)]
      ensures !old(closed) && fails ==> closed && sent == old(sent)
    {
      Send(Event(e), fails);
    }

    /** One firing of the 15-second interval, while it is set. */
    method HeartbeatTick(now: int, fails: bool)
      requires Valid()
      modifies this, bus
      ensures Valid()
      ensures old(closed) || !old(heartbeatActive) ==> sent == old(sent)
      ensures !old(closed) && old(heartbeatActive) && !fails ==> sent == old(sent) + [Heartbeat(now)]
    {
      if heartbeatActive {
        Send(Heartbeat(now), fails);
      }
    }

    /** The stream's `cancel`: `cleanup`. */
    method Cancel()
      requires Valid()
      modifies this, bus
      ensures Valid() && closed
      ensures old(closed) ==> unchanged(this)
      ensures !old(closed) ==> !heartbeatActive
      ensures !old(closed) && unsubscribeBound ==> bus.handlers == RemoveLast(old(bus.handlers), handler)
    {
      Cleanup();
    }
  }
}

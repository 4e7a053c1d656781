/**
 * The domain event dispatcher: a mutable registry of handlers per event-type
 * name, and a ghost trace of the `handle` calls that `notify` has made.
 * `Register`, `Unregister` and `Notify` are proved against the functions
 * `Registered`, `Unregistered` and `Calls` of module Registry.
 */
module EventDispatcher {
  import opened Registry
  import opened Wrappers

  class Dispatcher<P> {
    /** What `getEventHandlers` exposes. */
    var eventHandlers: HandlerMap
    /** Every `handle(event)` call made so far, oldest first. */
    ghost var trace: seq<Invocation<P>>

    constructor ()
      ensures eventHandlers == map[] && trace == []
    {
      eventHandlers := map[];
      trace := [];
    }

    /** `getEventHandlers[eventName]`: the list under that key, or undefined. */
    method GetEventHandlers(eventName: string) returns (handlers: Option<seq<Handler>>)
      ensures handlers.None? <==> eventName !in eventHandlers
      ensures handlers.Some? ==> handlers.value == eventHandlers[eventName]
    {
      if eventName in eventHandlers {
        handlers := Some(eventHandlers[eventName]);
      } else {
        handlers := None;
      }
    }

    method Register(eventName: string, eventHandler: Handler)
      modifies this
      ensures eventHandlers == Registered(old(eventHandlers), eventName, eventHandler)
      ensures trace == old(trace)
    {
      if eventName !in eventHandlers {
        eventHandlers := eventHandlers[eventName := []];
      }
      eventHandlers := eventHandlers[eventName := eventHandlers[eventName] + [eventHandler]];
    }

    method Unregister(eventName: string, eventHandler: Handler)
      modifies this
      ensures eventHandlers == Unregistered(old(eventHandlers), eventName, eventHandler)
      ensures trace == old(trace)
    {
      if eventName in eventHandlers {
        var index := IndexOf(eventHandlers[eventName], eventHandler);
        if index != -1 {
          eventHandlers := eventHandlers[eventName := RemoveAt(eventHandlers[eventName], index)];
        }
      }
    }

    method UnregisterAll()
      modifies this
      ensures eventHandlers == map[]
      ensures trace == old(trace)
    {
      eventHandlers := map[];
    }

    /** Calls `handle(event)` on each handler registered under the event's
        class name, in registration order; the registry is not changed. */
    method Notify(event: Event<P>)
      modifies this
      ensures eventHandlers == old(eventHandlers)
      ensures trace == old(trace) + Calls(Lookup(old(eventHandlers), event.className), event)
    {
      var eventName := event.className;
      if eventName in eventHandlers {
        var handlers := eventHandlers[eventName];
        var i := 0;
        while i < |handlers|
          invariant 0 <= i <= |handlers|
          invariant eventHandlers == old(eventHandlers)
          invariant trace == old(trace) + Calls(handlers[..i], event)
        {
          // handlers[i].handle(event): only the call itself is recorded
          CallsExtend(handlers, i, event);
          trace := trace + [Invocation(handlers[i], event)];
          i := i + 1;
        }
        assert handlers[..i] == handlers;
      }
    }
  }

  // -------------------------------------------------------------------------
  // The scenarios of the dispatcher's test suite, one method per test.

  /** Register one handler: the list is defined, has length 1 and holds it. */
  method ShouldRegisterAnEventHandler() returns (handlers: Option<seq<Handler>>, eventHandler: Handler)
    ensures handlers.Some? && |handlers.value| == 1 && handlers.value[0] == eventHandler
  {
    var dispatcher := new Dispatcher<string>();
    eventHandler := new Handler("SendEmailWhenProductIsCreatedHandler");
    dispatcher.Register("ProductCreatedEvent", eventHandler);
    handlers := dispatcher.GetEventHandlers("ProductCreatedEvent");
  }

  /** Register then unregister one handler: the list is still defined, with length 0. */
  method ShouldUnregisterAnEventHandler() returns (first: Handler, handlers: Option<seq<Handler>>, eventHandler: Handler)
    ensures first == eventHandler
    ensures handlers.Some? && |handlers.value| == 0
  {
    var dispatcher := new Dispatcher<string>();
    eventHandler := new Handler("SendEmailWhenProductIsCreatedHandler");
    dispatcher.Register("ProductCreatedEvent", eventHandler);
    first := dispatcher.eventHandlers["ProductCreatedEvent"][0];
    dispatcher.Unregister("ProductCreatedEvent", eventHandler);
    handlers := dispatcher.GetEventHandlers("ProductCreatedEvent");
  }

  /** Register then unregister everything: the list is undefined. */
  method ShouldUnregisterAllEventHandlers() returns (handlers: Option<seq<Handler>>)
    ensures handlers.None?
  {
    var dispatcher := new Dispatcher<string>();
    var eventHandler := new Handler("SendEmailWhenProductIsCreatedHandler");
    dispatcher.Register("ProductCreatedEvent", eventHandler);
    dispatcher.UnregisterAll();
    handlers := dispatcher.GetEventHandlers("ProductCreatedEvent");
  }

  /** Notify a ProductCreatedEvent: its one handler is listed first and is
      called once, with that event. */
  method ShouldNotifyAllEventHandlers() returns (first: Handler, eventHandler: Handler, ghost calls: seq<Invocation<string>>)
    ensures first == eventHandler
    ensures calls == [Invocation(eventHandler, Event("ProductCreatedEvent", "Product 1"))]
    ensures CallsTo(calls, eventHandler) == 1
  {
    var dispatcher := new Dispatcher<string>();
    eventHandler := new Handler("SendEmailWhenProductIsCreatedHandler");
    dispatcher.Register("ProductCreatedEvent", eventHandler);
    first := dispatcher.eventHandlers["ProductCreatedEvent"][0];
    var productCreatedEvent := Event("ProductCreatedEvent", "Product 1");
    dispatcher.Notify(productCreatedEvent);
    calls := dispatcher.trace;
    CallsToCountsRegistrations([eventHandler], productCreatedEvent, eventHandler);
  }

  /** Two handlers under CustomerCreatedEvent: both are listed in registration
      order and both are called, the first one first. */
  method ShouldNotifyWhenCustomerIsCreated()
    returns (handlers: seq<Handler>, notify: Handler, sendEmail: Handler, ghost calls: seq<Invocation<string>>)
    ensures notify != sendEmail
    ensures handlers == [notify, sendEmail]
    ensures |calls| == 2 && calls[0].handler == notify && calls[1].handler == sendEmail
  {
    var dispatcher := new Dispatcher<string>();
    notify := new Handler("NotifyWhenCustomerIsCreatedHandler");
    sendEmail := new Handler("SendEmailWhenCustomerIsCreatedHandler");
    dispatcher.Register("CustomerCreatedEvent", notify);
    dispatcher.Register("CustomerCreatedEvent", sendEmail);
    handlers := dispatcher.eventHandlers["CustomerCreatedEvent"];
    var customerCreatedEvent := Event("CustomerCreatedEvent", "Customer 1");
    dispatcher.Notify(customerCreatedEvent);
    calls := dispatcher.trace;
    NotifyCallsInRegistrationOrder(handlers, customerCreatedEvent);
  }

  /** A handler under CustomerChangeAddressEvent is listed alone and is
      called once on that event. */
  method ShouldNotifyWhenCustomerChangesAddress()
    returns (handlers: seq<Handler>, notify: Handler, ghost calls: seq<Invocation<string>>)
    ensures handlers == [notify]
    ensures calls == [Invocation(notify, Event("CustomerChangeAddressEvent", "C1, Customer 1"))]
  {
    var dispatcher := new Dispatcher<string>();
    notify := new Handler("NotifyWhenCustomerChangeAddressHandler");
    dispatcher.Register("CustomerChangeAddressEvent", notify);
    handlers := dispatcher.eventHandlers["CustomerChangeAddressEvent"];
    dispatcher.Notify(Event("CustomerChangeAddressEvent", "C1, Customer 1"));
    calls := dispatcher.trace;
  }
}

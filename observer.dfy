/** `EventEmitter`: a registry from event name to the ordered list of handlers
    subscribed to it. Handlers are opaque ids; `emit` reports whom it calls. */
module Observer {
  import opened Wrappers
  import Seqs

  /** A subscribed callback, identified by an opaque id. */
  type Handler = nat

  /** The unsubscribe closure `subscribe` returns: it remembers its event and callback. */
  datatype Subscription = Subscription(event: string, handler: Handler)

  /** One call `callback(data)` made by `emit`. */
  datatype Call<D> = Call(handler: Handler, data: D)

  /** `list.filter(cb => cb !== callback)`. */
  function Without(list: seq<Handler>, h: Handler): (r: seq<Handler>)
    ensures h !in r
  {
    Seqs.Filter(x => x != h, list)
  }

  /** Unsubscribing drops every occurrence of the callback and keeps every other
      handler, each as often as before. */
  lemma WithoutCounts(list: seq<Handler>, h: Handler, x: Handler)
    ensures multiset(Without(list, h))[x] == if x == h then 0 else multiset(list)[x]
  {
    Seqs.FilterCounts(y => y != h, list, x);
  }

  /** Unsubscribing keeps the remaining handlers in their registration order:
      it distributes over any split of the list. */
  lemma WithoutKeepsOrder(front: seq<Handler>, back: seq<Handler>, h: Handler)
    ensures Without(front + back, h) == Without(front, h) + Without(back, h)
  {
    Seqs.FilterAppend(y => y != h, front, back);
  }

  /** A second unsubscribe of the same callback changes nothing. */
  lemma WithoutIdempotent(list: seq<Handler>, h: Handler)
    ensures Without(Without(list, h), h) == Without(list, h)
  {
    Seqs.FilterIdempotent(y => y != h, list);
  }

  /** Unsubscribing a callback that is not listed changes nothing. */
  lemma WithoutAbsent(list: seq<Handler>, h: Handler)
    requires h !in list
    ensures Without(list, h) == list
  {
    Seqs.FilterKeepsAll(y => y != h, list);
  }

  class EventEmitter {
    var events: map<string, seq<Handler>>

    constructor ()
      ensures events == map[]
    {
      events := map[];
    }

    /** The handlers currently listed for `event`; none when it has no entry. */
    function Handlers(event: string): (r: seq<Handler>)
      reads this
      ensures event !in events ==> r == []
      ensures event in events ==> r == events[event]
    {
      if event in events then events[event] else []
    }

    /** `subscribe(event, callback)`: creates the list when absent, appends the
        callback, leaves every other event alone, and returns the unsubscribe capability. */
    method Subscribe(event: string, callback: Handler) returns (sub: Subscription)
      modifies this
      ensures events == old(events)[event := old(Handlers(event)) + [callback]]
      ensures Handlers(event) == old(Handlers(event)) + [callback]
      ensures forall e :: e != event ==> Handlers(e) == old(Handlers(e))
      ensures sub == Subscription(event, callback)
    {
      if event !in events {
        events := events[event := []];
      }
      events := events[event := events[event] + [callback]];
      sub := Subscription(event, callback);
    }

    /** Calling the closure `subscribe` returned. While the event has an entry its
        list loses every occurrence of the callback; after `clearEvent` or
        `clearAll` the entry is gone and the call throws a TypeError (`ok` false). */
    method Unsubscribe(sub: Subscription) returns (ok: bool)
      modifies this
      ensures ok <==> sub.event in old(events)
      ensures ok ==> events == old(events)[sub.event := Without(old(events)[sub.event], sub.handler)]
      ensures !ok ==> events == old(events)
    {
      if sub.event in events {
        events := events[sub.event := Without(events[sub.event], sub.handler)];
        ok := true;
      } else {
        ok := false;
      }
    }

    /** `emit(event, data)`: calls exactly the handlers listed for `event`, in
        registration order, each with `data`; with no entry it calls nobody. */
    method Emit<D>(event: string, data: D) returns (calls: seq<Call<D>>)
      ensures |calls| == |Handlers(event)|
      ensures forall k :: 0 <= k < |calls| ==> calls[k] == Call(Handlers(event)[k], data)
    {
      calls := [];
      if event in events {
        var list := events[event];
        var i := 0;
        while i < |list|
          invariant 0 <= i <= |list|
          invariant |calls| == i
          invariant forall k :: 0 <= k < i ==> calls[k] == Call(list[k], data)
        {
          calls := calls + [Call(list[i], data)];
          i := i + 1;
        }
      }
    }

    /** `clearEvent(event)`: drops that event's entry only. */
    method ClearEvent(event: string)
      modifies this
      ensures events == old(events) - {event}
      ensures Handlers(event) == []
      ensures forall e :: e != event ==> Handlers(e) == old(Handlers(e))
    {
      if event in events {
        events := events - {event};
      }
    }

    /** `clearAll()`: no event has an entry afterwards. */
    method ClearAll()
      modifies this
      ensures events == map[]
      ensures forall e :: Handlers(e) == []
    {
      events := map[];
    }
  }
}

/** The in-process event bus: ordered listener lists per event name, plus wildcard listeners. */
module PluginEvents {
  import opened Prelude

  /** A registered callable.  Plugin callbacks are created one per registration, so `id` tells two
      of them apart; `owner` is None for a host callback. */
  datatype Callback = Callback(id: nat, owner: Option<string>)

  datatype Bus = Bus(listeners: map<string, seq<Callback>>, wildcard: seq<Callback>)

  datatype Subscription = Subscription(event: string, callback: Callback)

  function Listeners(b: Bus, event: string): seq<Callback> {
    if event == "*" then b.wildcard
    else if event in b.listeners then b.listeners[event] else []
  }

  function WithListeners(b: Bus, event: string, callbacks: seq<Callback>): Bus {
    if event == "*" then b.(wildcard := callbacks) else b.(listeners := b.listeners[event := callbacks])
  }

  function RemoveFirst(callbacks: seq<Callback>, cb: Callback): seq<Callback> {
    if callbacks == [] then []
    else if callbacks[0] == cb then callbacks[1..]
    else [callbacks[0]] + RemoveFirst(callbacks[1..], cb)
  }

  function Subscribe(b: Bus, s: Subscription): Bus {
    var current := Listeners(b, s.event);
    if s.callback in current then b else WithListeners(b, s.event, current + [s.callback])
  }

  function Unsubscribe(b: Bus, s: Subscription): Bus {
    var current := Listeners(b, s.event);
    if s.callback in current then WithListeners(b, s.event, RemoveFirst(current, s.callback)) else b
  }

  /** The callbacks `publish` walks: a copy taken before the first one runs. */
  function Snapshot(b: Bus, event: string): seq<Callback> {
    (if event in b.listeners then b.listeners[event] else []) + b.wildcard
  }

  function SubscribeAll(b: Bus, subscriptions: seq<Subscription>): Bus {
    if subscriptions == [] then b
    else Subscribe(SubscribeAll(b, subscriptions[..|subscriptions| - 1]), subscriptions[|subscriptions| - 1])
  }

  function UnsubscribeAll(b: Bus, subscriptions: seq<Subscription>): Bus {
    if subscriptions == [] then b
    else Unsubscribe(UnsubscribeAll(b, subscriptions[..|subscriptions| - 1]), subscriptions[|subscriptions| - 1])
  }

  class EventBus {
    var listeners: map<string, seq<Callback>>
    var wildcard: seq<Callback>

    function State(): Bus
      reads this
    {
      Bus(listeners, wildcard)
    }

    constructor ()
      ensures State() == Bus(map[], [])
    {
      listeners, wildcard := map[], [];
    }

    method Add(event: string, callback: Callback)
      modifies this
      ensures State() == Subscribe(old(State()), Subscription(event, callback))
    {
      if event == "*" {
        if callback !in wildcard {
          wildcard := wildcard + [callback];
        }
        return;
      }
      var current := if event in listeners then listeners[event] else [];
      if callback !in current {
        listeners := listeners[event := current + [callback]];
      }
    }

    method Remove(event: string, callback: Callback)
      modifies this
      ensures State() == Unsubscribe(old(State()), Subscription(event, callback))
    {
      if event == "*" {
        wildcard := RemoveFirst(wildcard, callback);
        if callback !in old(wildcard) { RemoveAbsent(old(wildcard), callback); }
      } else if event in listeners && callback in listeners[event] {
        listeners := listeners[event := RemoveFirst(listeners[event], callback)];
      }
    }
  }

  lemma {:induction false} RemoveAbsent(callbacks: seq<Callback>, cb: Callback)
    requires cb !in callbacks
    ensures RemoveFirst(callbacks, cb) == callbacks
  {
    if callbacks != [] { RemoveAbsent(callbacks[1..], cb); }
  }

  // ---------- Filters of listener lists ----------

  ghost predicate NoDuplicates(callbacks: seq<Callback>) {
    forall i, j :: 0 <= i < j < |callbacks| ==> callbacks[i] != callbacks[j]
  }

  /** The host callbacks and those of the plugins in `live`, in order. */
  ghost function Live(callbacks: seq<Callback>, live: set<string>): (r: seq<Callback>)
    ensures forall cb :: cb in r <==> cb in callbacks && (cb.owner.None? || cb.owner.value in live)
    ensures NoDuplicates(callbacks) ==> NoDuplicates(r)
  {
    if callbacks == [] then []
    else
      var last := callbacks[|callbacks| - 1];
      var front := Live(callbacks[..|callbacks| - 1], live);
      if last.owner.None? || last.owner.value in live then front + [last] else front
  }

  /** The callbacks that are not subscribed to `event` by one of `subscriptions`, in order. */
  ghost function Without(callbacks: seq<Callback>, event: string, subscriptions: seq<Subscription>): (r: seq<Callback>)
    ensures forall cb :: cb in r <==> cb in callbacks && Subscription(event, cb) !in subscriptions
    ensures NoDuplicates(callbacks) ==> NoDuplicates(r)
  {
    if callbacks == [] then []
    else
      var last := callbacks[|callbacks| - 1];
      var front := Without(callbacks[..|callbacks| - 1], event, subscriptions);
      if Subscription(event, last) !in subscriptions then front + [last] else front
  }

  lemma {:induction false} LiveTwice(callbacks: seq<Callback>, live: set<string>, less: set<string>)
    requires less <= live
    ensures Live(Live(callbacks, live), less) == Live(callbacks, less)
  {
    if callbacks != [] {
      var front := callbacks[..|callbacks| - 1];
      LiveTwice(front, live, less);
      var r := Live(front, live) + [callbacks[|callbacks| - 1]];
      assert r[..|r| - 1] == Live(front, live);
    }
  }

  lemma {:induction false} LiveAll(callbacks: seq<Callback>, live: set<string>)
    requires forall cb :: cb in callbacks && cb.owner.Some? ==> cb.owner.value in live
    ensures Live(callbacks, live) == callbacks
  {
    if callbacks != [] {
      var front, last := callbacks[..|callbacks| - 1], callbacks[|callbacks| - 1];
      assert callbacks == front + [last];
      LiveAll(front, live);
      assert Live(callbacks, live) == front + [last];
    }
  }

  lemma {:induction false} LiveAppend(callbacks: seq<Callback>, cb: Callback, live: set<string>)
    ensures Live(callbacks + [cb], live) ==
              Live(callbacks, live) + if cb.owner.None? || cb.owner.value in live then [cb] else []
  {
    assert (callbacks + [cb])[..|callbacks|] == callbacks;
  }

  /** Dropping a plugin's subscriptions is keeping everybody else's. */
  lemma {:induction false} WithoutIsLive(callbacks: seq<Callback>, event: string, subscriptions: seq<Subscription>,
                                         live: set<string>)
    requires forall cb :: cb in callbacks ==>
               (Subscription(event, cb) in subscriptions <==> cb.owner.Some? && cb.owner.value !in live)
    ensures Without(callbacks, event, subscriptions) == Live(callbacks, live)
  {
    if callbacks != [] {
      WithoutIsLive(callbacks[..|callbacks| - 1], event, subscriptions, live);
    }
  }

  lemma {:induction false} WithoutNone(callbacks: seq<Callback>, event: string, subscriptions: seq<Subscription>)
    requires forall cb :: cb in callbacks ==> Subscription(event, cb) !in subscriptions
    ensures Without(callbacks, event, subscriptions) == callbacks
  {
    if callbacks != [] {
      var front, last := callbacks[..|callbacks| - 1], callbacks[|callbacks| - 1];
      assert callbacks == front + [last];
      WithoutNone(front, event, subscriptions);
      assert Without(callbacks, event, subscriptions) == front + [last];
    }
  }

  lemma {:induction false} RemoveFirstLast(callbacks: seq<Callback>, last: Callback, cb: Callback)
    ensures cb in callbacks ==> RemoveFirst(callbacks + [last], cb) == RemoveFirst(callbacks, cb) + [last]
    ensures cb !in callbacks && cb == last ==> RemoveFirst(callbacks + [last], cb) == callbacks
  {
    if callbacks != [] {
      assert (callbacks + [last])[1..] == callbacks[1..] + [last];
      if callbacks[0] != cb {
        RemoveFirstLast(callbacks[1..], last, cb);
      }
    }
  }

  /** In a list without duplicates, removing the first occurrence removes the callback. */
  lemma {:induction false} RemoveIsWithout(callbacks: seq<Callback>, event: string, cb: Callback,
                                           before: seq<Subscription>)
    requires NoDuplicates(callbacks)
    ensures var after := before + [Subscription(event, cb)];
            var less := Without(callbacks, event, before);
            Without(callbacks, event, after) == if cb in less then RemoveFirst(less, cb) else less
  {
    if callbacks != [] {
      var front, last := callbacks[..|callbacks| - 1], callbacks[|callbacks| - 1];
      RemoveIsWithout(front, event, cb, before);
      RemoveFirstLast(Without(front, event, before), last, cb);
      assert last !in front;
    }
  }

  lemma {:induction false} OtherEventUnchanged(callbacks: seq<Callback>, event: string, before: seq<Subscription>,
                                               s: Subscription)
    requires s.event != event
    ensures Without(callbacks, event, before + [s]) == Without(callbacks, event, before)
  {
    if callbacks != [] {
      OtherEventUnchanged(callbacks[..|callbacks| - 1], event, before, s);
    }
  }

  /** Unsubscribing a list of subscriptions removes exactly those, from every listener list. */
  lemma {:induction false} UnsubscribeAllRemoves(b: Bus, subscriptions: seq<Subscription>, event: string)
    requires NoDuplicates(Listeners(b, event))
    ensures Listeners(UnsubscribeAll(b, subscriptions), event) == Without(Listeners(b, event), event, subscriptions)
  {
    if subscriptions == [] {
      WithoutNone(Listeners(b, event), event, subscriptions);
    } else {
      var before, s := subscriptions[..|subscriptions| - 1], subscriptions[|subscriptions| - 1];
      UnsubscribeAllRemoves(b, before, event);
      assert before + [s] == subscriptions;
      if s.event == event {
        RemoveIsWithout(Listeners(b, event), event, s.callback, before);
      } else {
        OtherEventUnchanged(Listeners(b, event), event, before, s);
      }
    }
  }

  /** The callbacks a list of subscriptions adds to one event, in order. */
  ghost function Added(subscriptions: seq<Subscription>, event: string): seq<Callback> {
    if subscriptions == [] then []
    else
      var last := subscriptions[|subscriptions| - 1];
      Added(subscriptions[..|subscriptions| - 1], event) + if last.event == event then [last.callback] else []
  }

  ghost predicate Fresh(b: Bus, subscriptions: seq<Subscription>) {
    && (forall i, event :: 0 <= i < |subscriptions| ==> subscriptions[i].callback !in Listeners(b, event))
    && (forall i, j :: 0 <= i < j < |subscriptions| ==> subscriptions[i].callback != subscriptions[j].callback)
  }

  lemma {:induction false} AddedMembers(subscriptions: seq<Subscription>, event: string)
    ensures forall cb :: cb in Added(subscriptions, event) <==> Subscription(event, cb) in subscriptions
  {
    if subscriptions != [] {
      var before := subscriptions[..|subscriptions| - 1];
      AddedMembers(before, event);
      assert subscriptions == before + [subscriptions[|subscriptions| - 1]];
    }
  }

  lemma SubscribeAppends(b: Bus, s: Subscription, event: string)
    requires s.callback !in Listeners(b, s.event)
    ensures Listeners(Subscribe(b, s), event) == Listeners(b, event) + if s.event == event then [s.callback] else []
  {
  }

  /** Subscribing fresh callbacks appends them, and changes no other list. */
  lemma {:induction false} SubscribeAllAppends(b: Bus, subscriptions: seq<Subscription>, event: string)
    requires Fresh(b, subscriptions)
    ensures Listeners(SubscribeAll(b, subscriptions), event) == Listeners(b, event) + Added(subscriptions, event)
  {
    if subscriptions != [] {
      var before, s := subscriptions[..|subscriptions| - 1], subscriptions[|subscriptions| - 1];
      assert Fresh(b, before);
      SubscribeAllAppends(b, before, event);
      SubscribeAllAppends(b, before, s.event);
      assert s.callback !in Added(before, s.event) by {
        AddedMembers(before, s.event);
      }
      SubscribeAppends(SubscribeAll(b, before), s, event);
      assert Added(subscriptions, event) == Added(before, event) + if s.event == event then [s.callback] else [];
    }
  }

  /** Registering and then unregistering a plugin's callbacks restores every listener list exactly. */
  lemma RegisterThenUnregister(b: Bus, subscriptions: seq<Subscription>, event: string)
    requires Fresh(b, subscriptions)
    requires NoDuplicates(Listeners(b, event))
    ensures Listeners(UnsubscribeAll(SubscribeAll(b, subscriptions), subscriptions), event) == Listeners(b, event)
  {
    var was, added := Listeners(b, event), Added(subscriptions, event);
    SubscribeAllAppends(b, subscriptions, event);
    AddedMembers(subscriptions, event);
    AddedDistinct(subscriptions, event);
    assert forall cb :: cb in added ==> cb !in was;
    forall i, j | 0 <= i < j < |was + added| ensures (was + added)[i] != (was + added)[j] {
      if i < |was| <= j {
        assert was[i] in was && added[j - |was|] in added;
      }
    }
    UnsubscribeAllRemoves(SubscribeAll(b, subscriptions), subscriptions, event);
    WithoutAppended(was, added, event, subscriptions);
    WithoutNone(was, event, subscriptions);
  }

  lemma {:induction false} AddedDistinct(subscriptions: seq<Subscription>, event: string)
    requires forall i, j :: 0 <= i < j < |subscriptions| ==> subscriptions[i].callback != subscriptions[j].callback
    ensures NoDuplicates(Added(subscriptions, event))
  {
    if subscriptions != [] {
      var before, last := subscriptions[..|subscriptions| - 1], subscriptions[|subscriptions| - 1];
      AddedDistinct(before, event);
      AddedMembers(before, event);
      assert last.callback !in Added(before, event);
    }
  }

  lemma {:induction false} WithoutAppended(was: seq<Callback>, added: seq<Callback>, event: string,
                                           subscriptions: seq<Subscription>)
    requires forall cb :: cb in added ==> Subscription(event, cb) in subscriptions
    ensures Without(was + added, event, subscriptions) == Without(was, event, subscriptions)
  {
    if added == [] {
      assert was + added == was;
    } else {
      WithoutAppended(was, added[..|added| - 1], event, subscriptions);
      assert (was + added)[..|was + added| - 1] == was + added[..|added| - 1];
    }
  }
}

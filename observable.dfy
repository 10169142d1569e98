/** Presentation/Utlis/Observable.swift: a value cell with at most one listener.
    A listener closure is represented by an identity; each call made to a
    listener is recorded, in order, in `notifications`. */
module Observables {
  import opened Wrappers

  type ListenerId = nat

  /** One call `listner(value)`. */
  datatype Notification<V> = Notification(listener: ListenerId, value: V)

  /** The calls one delivery makes: one to the listener if there is one, none otherwise. */
  function Notify<V>(listener: Option<ListenerId>, v: V): (calls: seq<Notification<V>>)
    ensures |calls| <= 1
    ensures calls == [] <==> listener.None?
    ensures calls != [] ==> calls[0] == Notification(listener.value, v)
  {
    if listener.Some? then [Notification(listener.value, v)] else []
  }

  class Observable<V> {
    var value: V
    var listener: Option<ListenerId>
    var notifications: seq<Notification<V>>

    /** `init(_:)`: stores the value, no listener, nothing delivered. */
    constructor (v: V)
      ensures value == v && listener == None && notifications == []
    {
      value := v;
      listener := None;
      notifications := [];
    }

    /** Assigning `value`: its `didSet` delivers the new value to the current listener. */
    method Set(v: V)
      modifies this
      ensures value == v && listener == old(listener)
      ensures notifications == old(notifications) + Notify(listener, v)
    {
      value := v;
      notifications := notifications + Notify(listener, v);
    }

    /** `subscribe(listner:)`: replaces any previous listener and delivers the
        current value to the new one at once (nothing when it is `nil`). */
    method Subscribe(l: Option<ListenerId>)
      modifies this
      ensures listener == l && value == old(value)
      ensures notifications == old(notifications) + Notify(l, old(value))
    {
      listener := l;
      notifications := notifications + Notify(l, value);
    }

    /** `unsubscribe()`. */
    method Unsubscribe()
      modifies this
      ensures listener == None && value == old(value) && notifications == old(notifications)
    {
      listener := None;
    }
  }

  /** The observable's tests as a client: a subscriber hears the current value,
      then every assignment; after unsubscribing it hears nothing more, and a
      second subscriber replaces the first. */
  method ObservableScenario(first: ListenerId, second: ListenerId) returns (heard: seq<Notification<string>>)
    ensures heard == [Notification(first, "SomeValue"), Notification(first, "SomeNewValue"),
                      Notification(second, "SomeNewValue"), Notification(second, "Third")]
  {
    var o := new Observable("SomeValue");
    o.Subscribe(Some(first));
    assert o.notifications == [Notification(first, "SomeValue")];
    o.Set("SomeNewValue");
    assert o.notifications == [Notification(first, "SomeValue"), Notification(first, "SomeNewValue")];
    o.Subscribe(Some(second));
    o.Set("Third");
    assert o.notifications[3] == Notification(second, "Third");
    o.Unsubscribe();
    o.Set("Fourth");
    assert |o.notifications| == 4 && o.value == "Fourth";
    heard := o.notifications;
  }
}

/**
 * The bot's event system: an emitter keeps, per event name, the list of
 * listeners registered for it, and calls them in registration order when
 * the event is emitted. Callbacks are foreign code, so a listener is an
 * identifier, and emitting an event returns the calls it makes.
 */
module Signals {
  import opened Wrappers

  /** A registered callback and the optional userdata given with it. */
  datatype Listener = Listener(callback: nat, userdata: Option<string>)

  /** One call `callback(emitter, *args, **kwargs)`. */
  datatype Call = Call(callback: nat, args: seq<string>, kwargs: map<string, string>)

  /** Python truthiness of the userdata: `None` and the empty string are false. */
  predicate HasUserdata(l: Listener) {
    l.userdata.Some? && l.userdata.value != ""
  }

  /** The keyword arguments after one listener's turn: its userdata, when
      truthy, is written into the shared dictionary and stays there. */
  function Step(l: Listener, kwargs: map<string, string>): map<string, string> {
    if HasUserdata(l) then kwargs["userdata" := l.userdata.value] else kwargs
  }

  /** The calls made for the listeners `ls`, in order. */
  function Calls(ls: seq<Listener>, args: seq<string>, kwargs: map<string, string>): (r: seq<Call>)
    ensures |r| == |ls|
  {
    if ls == [] then []
    else
      var kw := Step(ls[0], kwargs);
      [Call(ls[0].callback, args, kw)] + Calls(ls[1..], args, kw)
  }

  /** The keyword arguments once the listeners `ls` have had their turn. */
  function Effective(ls: seq<Listener>, kwargs: map<string, string>): map<string, string> {
    if ls == [] then kwargs else Effective(ls[1..], Step(ls[0], kwargs))
  }

  /** Every listener is called once, in registration order, with the
      positional arguments as given and the keyword arguments as left by
      the listeners up to and including itself. */
  lemma {:induction false} CallsInOrder(ls: seq<Listener>, args: seq<string>, kwargs: map<string, string>)
    ensures forall i :: 0 <= i < |ls| ==>
      Calls(ls, args, kwargs)[i].callback == ls[i].callback &&
      Calls(ls, args, kwargs)[i].args == args &&
      Calls(ls, args, kwargs)[i].kwargs == Effective(ls[..i + 1], kwargs)
    decreases |ls|
  {
    if ls != [] {
      var kw := Step(ls[0], kwargs);
      CallsInOrder(ls[1..], args, kw);
      forall i | 0 <= i < |ls|
        ensures Calls(ls, args, kwargs)[i].kwargs == Effective(ls[..i + 1], kwargs)
      {
        if i > 0 {
          assert ls[..i + 1][1..] == ls[1..][..i];
        }
      }
    }
  }

  /** The userdata of a listener stays in the keyword arguments for every
      later listener, unless a later one brings its own: a listener
      registered without userdata still receives its predecessor's. */
  lemma UserdataCarriesOver(a: Listener, b: Listener, args: seq<string>, kwargs: map<string, string>)
    requires HasUserdata(a) && !HasUserdata(b)
    ensures var calls := Calls([a, b], args, kwargs);
      "userdata" in calls[1].kwargs && calls[1].kwargs["userdata"] == a.userdata.value
  {
    assert [a, b][1..] == [b];
  }

  class SignalEmitter {
    /** The event names this kind of emitter supports. */
    const availableEvents: set<string>
    /** The listeners per event name, in registration order. */
    var listeners: map<string, seq<Listener>>

    constructor (availableEvents: set<string>)
      ensures this.availableEvents == availableEvents && listeners == map[]
    {
      this.availableEvents := availableEvents;
      listeners := map[];
    }

    function Registered(name: string): seq<Listener>
      reads this
    {
      if name in listeners then listeners[name] else []
    }

    /** Registers a listener; an unknown event name raises `SignalException`
        and registers nothing. */
    method AddListener(name: string, callback: nat, userdata: Option<string>) returns (ok: bool)
      modifies this
      ensures ok <==> name in availableEvents
      ensures ok ==> listeners == old(listeners)[name := old(Registered(name)) + [Listener(callback, userdata)]]
      ensures !ok ==> listeners == old(listeners)
    {
      if name !in availableEvents {
        return false;
      }
      if name !in listeners {
        listeners := listeners[name := []];
      }
      listeners := listeners[name := listeners[name] + [Listener(callback, userdata)]];
      return true;
    }

    /** The calls emitting `name` makes; an event nobody listens to makes
        none, whether or not it is an available event. */
    method EmitSignal(name: string, args: seq<string>, kwargs: map<string, string>) returns (calls: seq<Call>)
      ensures calls == Calls(Registered(name), args, kwargs)
      ensures name !in listeners ==> calls == []
    {
      calls := [];
      if name in listeners {
        var ls := listeners[name];
        var kw := kwargs;
        var i := 0;
        while i < |ls|
          invariant 0 <= i <= |ls|
          invariant calls + Calls(ls[i..], args, kw) == Calls(ls, args, kwargs)
        {
          assert ls[i..][1..] == ls[i + 1..];
          if ls[i].userdata.Some? && ls[i].userdata.value != "" {
            kw := kw["userdata" := ls[i].userdata.value];
          }
          calls := calls + [Call(ls[i].callback, args, kw)];
          i := i + 1;
        }
        assert ls[i..] == [];
      }
    }
  }
}

/** The dashboard's WebSocket service: a registry of listener lists keyed by event name, the
    fan-out of an event to its listeners, and the connected guard on the socket. */
module WebSocket {
  import opened Common

  /** A listener callback; JavaScript compares functions by identity, so a callback is
      modelled by its identity alone. */
  type Callback = nat

  /** One invocation `callback(data)` made by `emit`. */
  datatype Call = Call(callback: Callback, data: Option<Json>)

  /** One `socket.emit(event, data)` handed to the socket by `send`. */
  datatype Message = Message(event: string, data: Option<Json>)

  type Registry = map<string, seq<Callback>>

  /** The event's list, or no listeners when the map has no entry for it. */
  function Listeners(l: Registry, event: string): seq<Callback> {
    if event in l then l[event] else []
  }

  /** `on(event, callback)`: the list is created empty when absent, then the callback is
      pushed on its end. */
  function OnMap(l: Registry, event: string, callback: Callback): (r: Registry)
    ensures event in r && r.Keys == l.Keys + {event}
  {
    l[event := Listeners(l, event) + [callback]]
  }

  /** `Array.prototype.indexOf`: the first position of `x`, or -1. */
  function IndexOf(s: seq<Callback>, x: Callback): (r: int)
    ensures -1 <= r < |s|
    ensures r == -1 <==> x !in s
    ensures r >= 0 ==> s[r] == x && forall j :: 0 <= j < r ==> s[j] != x
  {
    if s == [] then -1
    else if s[0] == x then 0
    else
      var k := IndexOf(s[1..], x);
      if k == -1 then -1 else k + 1
  }

  /** `indexOf` followed by `splice(index, 1)` when the index is not -1. */
  function RemoveFirst(s: seq<Callback>, x: Callback): seq<Callback> {
    var i := IndexOf(s, x);
    if i > -1 then s[..i] + s[i + 1..] else s
  }

  /** `off(event, callback)`: only an existing list is touched. */
  function OffMap(l: Registry, event: string, callback: Callback): Registry {
    if event in l then l[event := RemoveFirst(l[event], callback)] else l
  }

  /** `listeners.forEach(callback => callback(data))`. */
  function Invocations(cbs: seq<Callback>, data: Option<Json>): (r: seq<Call>)
    ensures |r| == |cbs|
    ensures forall i :: 0 <= i < |cbs| ==> r[i] == Call(cbs[i], data)
  {
    seq(|cbs|, i requires 0 <= i < |cbs| => Call(cbs[i], data))
  }

  /** `emit(event, data)`: the invocations made, in order. */
  function Calls(l: Registry, event: string, data: Option<Json>): seq<Call> {
    Invocations(Listeners(l, event), data)
  }

  // ---------------------------------------------------------------- the service

  class WebSocketService {
    /** `this.socket !== null`. */
    var hasSocket: bool
    /** `this.socket?.connected`. */
    var connected: bool
    var listeners: Registry
    /** Everything handed to `socket.emit`, oldest first. */
    var sent: seq<Message>

    /** Only an existing socket can be connected. */
    predicate Valid()
      reads this
    {
      connected ==> hasSocket
    }

    constructor()
      ensures Valid()
      ensures !hasSocket && !connected && listeners == map[] && sent == []
    {
      hasSocket := false;
      connected := false;
      listeners := map[];
      sent := [];
    }

    /** `connect()`: nothing happens on a connected socket; otherwise a new socket is created,
        not yet connected (it connects later, through the 'connect' event). */
    method Connect()
      requires Valid()
      modifies this
      ensures Valid()
      ensures old(connected) ==> hasSocket == old(hasSocket) && connected
      ensures !old(connected) ==> hasSocket && !connected
      ensures listeners == old(listeners) && sent == old(sent)
    {
      if connected {
        return;
      }
      hasSocket := true;
      connected := false;
    }

    /** `disconnect()`: the socket is dropped. socket.io-client's `disconnect()` on a connected
        socket fires its 'disconnect' event at once, so the handler `connect` installed
        re-emits 'disconnected' to the service's listeners before the socket is dropped; an
        unconnected socket fires nothing. */
    method Disconnect() returns (calls: seq<Call>)
      requires Valid()
      modifies this
      ensures Valid()
      ensures !hasSocket && !connected
      ensures calls == if old(connected) then Calls(listeners, "disconnected", None) else []
      ensures listeners == old(listeners) && sent == old(sent)
    {
      calls := [];
      if hasSocket {
        if connected {
          connected := false;
          calls := Emit("disconnected", None);
        }
        hasSocket := false;
      }
    }

    method On(event: string, callback: Callback)
      requires Valid()
      modifies this
      ensures Valid()
      ensures listeners == OnMap(old(listeners), event, callback)
      ensures hasSocket == old(hasSocket) && connected == old(connected) && sent == old(sent)
    {
      if event !in listeners {
        listeners := listeners[event := []];
      }
      listeners := listeners[event := listeners[event] + [callback]];
    }

    method Off(event: string, callback: Callback)
      requires Valid()
      modifies this
      ensures Valid()
      ensures listeners == OffMap(old(listeners), event, callback)
      ensures hasSocket == old(hasSocket) && connected == old(connected) && sent == old(sent)
    {
      if event in listeners {
        var list := listeners[event];
        var index := IndexOf(list, callback);
        if index > -1 {
          var spliced := list[..index] + list[index + 1..];
          assert spliced == RemoveFirst(list, callback);
          listeners := listeners[event := spliced];
        } else {
          assert list == RemoveFirst(list, callback);
          assert listeners[event := list] == listeners;
        }
      }
    }

    /** `emit(event, data)`: each listener of the event is called once with `data`, in list
        order; an event without a list calls nothing. */
    method Emit(event: string, data: Option<Json>) returns (calls: seq<Call>)
      ensures calls == Calls(listeners, event, data)
    {
      calls := [];
      if event in listeners {
        var list := listeners[event];
        var i := 0;
        while i < |list|
          invariant 0 <= i <= |list|
          invariant |calls| == i
          invariant forall j :: 0 <= j < i ==> calls[j] == Call(list[j], data)
        {
          calls := calls + [Call(list[i], data)];
          i := i + 1;
        }
      }
    }

    /** `send(event, data)`: handed to the socket only while it is connected. */
    method Send(event: string, data: Option<Json>)
      requires Valid()
      modifies this
      ensures Valid()
      ensures sent == if old(connected) then old(sent) + [Message(event, data)] else old(sent)
      ensures hasSocket == old(hasSocket) && connected == old(connected) && listeners == old(listeners)
    {
      if connected {
        sent := sent + [Message(event, data)];
      }
    }

    method IsConnected() returns (b: bool)
      ensures b == connected
    {
      b := connected;
    }

    /** The handlers `connect` installs on the socket, run when the socket reports `name`:
        'connect' and 'disconnect' update the connection and are re-emitted as 'connected'
        and 'disconnected' without data; 'notification', 'system_update' and 'error' are
        re-emitted under their own name with their data; any other name has no handler. */
    method Receive(name: string, data: Option<Json>) returns (calls: seq<Call>)
      requires Valid() && hasSocket
      modifies this
      ensures Valid()
      ensures name == "connect" ==> connected && calls == Calls(listeners, "connected", None)
      ensures name == "disconnect" ==> !connected && calls == Calls(listeners, "disconnected", None)
      ensures name in Forwarded ==> connected == old(connected) && calls == Calls(listeners, name, data)
      ensures name !in Forwarded && name != "connect" && name != "disconnect" ==>
        connected == old(connected) && calls == []
      ensures hasSocket && listeners == old(listeners) && sent == old(sent)
    {
      if name == "connect" {
        connected := true;
        calls := Emit("connected", None);
      } else if name == "disconnect" {
        connected := false;
        calls := Emit("disconnected", None);
      } else if name in Forwarded {
        calls := Emit(name, data);
      } else {
        calls := [];
      }
    }
  }

  /** The socket events passed through to the service's own listeners. */
  const Forwarded: set<string> := {"notification", "system_update", "error"}

  // ---------------------------------------------------------------- registry properties

  /** `off` removes exactly one occurrence, the first, when there is one, and is a no-op
      otherwise. */
  lemma RemoveFirstProps(s: seq<Callback>, x: Callback)
    ensures x !in s ==> RemoveFirst(s, x) == s
    ensures x in s ==> multiset(RemoveFirst(s, x)) == multiset(s) - multiset{x}
    ensures x in s ==> |RemoveFirst(s, x)| == |s| - 1
    ensures x in s ==> (exists i :: 0 <= i < |s| && s[i] == x && x !in s[..i] &&
                                    RemoveFirst(s, x) == s[..i] + s[i + 1..])
  {
    if x in s {
      var i := IndexOf(s, x);
      assert s == s[..i] + [x] + s[i + 1..];
      assert x !in s[..i];
    }
  }

  /** `on` and `off` for one event leave every other event's list as it was. */
  lemma OtherEventsUnchanged(l: Registry, event: string, callback: Callback, other: string)
    requires other != event
    ensures Listeners(OnMap(l, event, callback), other) == Listeners(l, other)
    ensures Listeners(OffMap(l, event, callback), other) == Listeners(l, other)
  {
  }

  /** `on` appends to the event's list, creating it when absent. */
  lemma OnAppends(l: Registry, event: string, callback: Callback)
    ensures Listeners(OnMap(l, event, callback), event) == Listeners(l, event) + [callback]
    ensures event !in l ==> Listeners(OnMap(l, event, callback), event) == [callback]
  {
  }

  /** `off` of an unknown event or an unregistered callback changes nothing. */
  lemma OffNoop(l: Registry, event: string, callback: Callback)
    requires callback !in Listeners(l, event)
    ensures OffMap(l, event, callback) == l
  {
    if event in l {
      RemoveFirstProps(l[event], callback);
      assert l[event := l[event]] == l;
    }
  }

  /** `on` then `off` with the same callback restores the event's listeners as a multiset,
      and as the very same list when the callback was not registered before. */
  lemma OnOffRestores(l: Registry, event: string, callback: Callback)
    ensures multiset(Listeners(OffMap(OnMap(l, event, callback), event, callback), event)) ==
      multiset(Listeners(l, event))
    ensures callback !in Listeners(l, event) ==>
      Listeners(OffMap(OnMap(l, event, callback), event, callback), event) == Listeners(l, event)
  {
    var before := Listeners(l, event);
    var after := before + [callback];
    RemoveFirstProps(after, callback);
    if callback !in before {
      assert IndexOf(after, callback) == |before|;
      assert after[..|before|] == before;
    }
  }

  /** When the callback was already registered, `on` then `off` drops the earlier
      registration and keeps the new one at the end, so the order of the list changes. */
  lemma OnOffReorders()
    ensures var l: Registry := map["notification" := [1, 2]];
      Listeners(OffMap(OnMap(l, "notification", 1), "notification", 1), "notification") == [2, 1]
  {
    var l: Registry := map["notification" := [1, 2]];
    assert Listeners(OnMap(l, "notification", 1), "notification") == [1, 2, 1];
    assert IndexOf([1, 2, 1], 1) == 0;
  }

  /** After `on(event, f)`, an `emit` of the event calls every earlier listener first and
      `f` last. */
  lemma EmitAfterOn(l: Registry, event: string, callback: Callback, data: Option<Json>)
    ensures Calls(OnMap(l, event, callback), event, data) == Calls(l, event, data) + [Call(callback, data)]
  {
  }

  /** `emit` of an event nobody listens to calls nothing, and otherwise calls each listener
      exactly as many times as it is registered. */
  lemma EmitCounts(l: Registry, event: string, data: Option<Json>, callback: Callback)
    ensures event !in l ==> Calls(l, event, data) == []
    ensures multiset(Calls(l, event, data))[Call(callback, data)] == multiset(Listeners(l, event))[callback]
  {
    InvocationsCount(Listeners(l, event), data, callback);
  }

  lemma {:induction false} InvocationsCount(cbs: seq<Callback>, data: Option<Json>, callback: Callback)
    ensures multiset(Invocations(cbs, data))[Call(callback, data)] == multiset(cbs)[callback]
  {
    if cbs != [] {
      var rest := cbs[1..];
      InvocationsCount(rest, data, callback);
      assert cbs == [cbs[0]] + rest;
      assert multiset(cbs) == multiset{cbs[0]} + multiset(rest);
      var calls := Invocations(cbs, data);
      assert calls == [calls[0]] + Invocations(rest, data);
      assert multiset(calls) == multiset{calls[0]} + multiset(Invocations(rest, data));
    }
  }
}

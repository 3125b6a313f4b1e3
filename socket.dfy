/**
 * The real-time client (src/services/socket.ts): a registry of listeners per
 * event name, forwarding of a fixed set of server events to those listeners,
 * and emits that only go out while a connection object exists.
 *
 * Callbacks are opaque ids. A JavaScript `Set` iterates in insertion order, so
 * each event's listener set is an insertion-ordered sequence without
 * duplicates. The Socket.IO transport is reduced to a connection value (the
 * auth it was opened with and whether the library reports it connected), a
 * count of the sockets `connect` replaced without closing them, and a log of
 * what was emitted on the current connection.
 */
module Socket {
  import opened Types
  import ListOps

  /** A registered callback, by identity. */
  type CallbackId = nat

  /** The server events `setupEventListeners` forwards to the registry. */
  const ForwardedEvents: set<string> := {
    "menu-created", "menu-updated", "menu-deleted",
    "item-created", "item-updated", "item-deleted", "item-availability-changed",
    "display-created", "display-updated", "display-paired",
    "menu-assigned", "restaurant-updated"
  }

  /** The connection object `io(...)` returned: the auth it was opened with and
      the library's `connected` flag. */
  datatype Connection = Connection(auth: Option<string>, connected: bool)

  /** What an emit sends: `displayId` itself, `{ pairingCode }`, or caller data. */
  datatype Payload = DisplayIdPayload(displayId: string) | PairingPayload(pairingCode: string) | DataPayload(data: nat)

  datatype Emission = Emission(event: string, payload: Payload)

  // ---------------------------------------------------------------------
  // One event's listener set

  predicate NoDup(s: seq<CallbackId>) {
    forall i, j :: 0 <= i < j < |s| ==> s[i] != s[j]
  }

  /** `set.add(cb)`: appended unless already present. */
  function Added(s: seq<CallbackId>, cb: CallbackId): (r: seq<CallbackId>)
    ensures cb in r
    ensures forall x :: x in r <==> x in s || x == cb
    ensures NoDup(s) ==> NoDup(r)
  {
    if cb in s then s else s + [cb]
  }

  function Identity(x: CallbackId): CallbackId { x }

  /** `set.delete(cb)`. */
  function Removed(s: seq<CallbackId>, cb: CallbackId): (r: seq<CallbackId>)
    ensures cb !in r
    ensures forall x :: x in r <==> x in s && x != cb
  {
    ListOps.RemoveWhereMembers(s, Identity, cb);
    ListOps.RemoveWhere(s, Identity, cb)
  }

  /** Removing keeps the other callbacks in their registration order and keeps
      the set free of duplicates. */
  lemma {:induction false} RemovedSpec(s: seq<CallbackId>, cb: CallbackId)
    requires NoDup(s)
    ensures NoDup(Removed(s, cb))
    ensures ListOps.Subseq(Removed(s, cb), s)
  {
    ListOps.RemoveWhereSubseq(s, Identity, cb);
    if s != [] {
      RemovedSpec(s[1..], cb);
      var t := Removed(s[1..], cb);
      assert Removed(s, cb) == (if s[0] == cb then [] else [s[0]]) + t;
      assert s[0] !in s[1..] by {
        forall j | 0 <= j < |s| - 1
          ensures s[1..][j] != s[0]
        {
          assert s[1 + j] != s[0];
        }
      }
    }
  }

  /** Registering the same callback twice leaves it registered once. */
  lemma AddedIdempotent(s: seq<CallbackId>, cb: CallbackId)
    ensures Added(Added(s, cb), cb) == Added(s, cb)
  {
  }

  /** Registering a new callback and unregistering it restores the set. */
  lemma RemovedAdded(s: seq<CallbackId>, cb: CallbackId)
    requires cb !in s
    ensures Removed(Added(s, cb), cb) == s
  {
    ListOps.AppendThenRemove(s, Identity, cb);
  }

  /** Unregistering a callback that is not registered changes nothing. */
  lemma RemovedAbsent(s: seq<CallbackId>, cb: CallbackId)
    requires cb !in s
    ensures Removed(s, cb) == s
  {
    ListOps.RemoveWhereAbsent(s, Identity, cb);
  }

  /** The registry after `on(event, cb)`. */
  function Subscribed(listeners: map<string, seq<CallbackId>>, event: string, cb: CallbackId): (r: map<string, seq<CallbackId>>)
    ensures r.Keys == listeners.Keys + {event}
    ensures r[event] == Added(if event in listeners then listeners[event] else [], cb)
    ensures forall e :: e in listeners && e != event ==> r[e] == listeners[e]
  {
    var current := if event in listeners then listeners[event] else [];
    listeners[event := Added(current, cb)]
  }

  /** The registry after `off(event, cb)`. */
  function Unsubscribed(listeners: map<string, seq<CallbackId>>, event: string, cb: CallbackId): (r: map<string, seq<CallbackId>>)
    ensures r.Keys == listeners.Keys
    ensures event in listeners ==> r[event] == Removed(listeners[event], cb)
    ensures forall e :: e in listeners && e != event ==> r[e] == listeners[e]
  {
    if event in listeners then listeners[event := Removed(listeners[event], cb)] else listeners
  }

  /** Every listener set is free of duplicates. */
  predicate Registry(listeners: map<string, seq<CallbackId>>) {
    forall e :: e in listeners ==> NoDup(listeners[e])
  }

  /** Registering a callback for an event nobody had registered it for, then
      unregistering it, leaves each event's set as it was (an event seen for the
      first time keeps an empty set, as the `Map` does). */
  lemma OffOn(listeners: map<string, seq<CallbackId>>, event: string, cb: CallbackId)
    requires event in listeners ==> cb !in listeners[event]
    ensures var r := Unsubscribed(Subscribed(listeners, event, cb), event, cb);
      r.Keys == listeners.Keys + {event} &&
      (forall e :: e in listeners ==> r[e] == listeners[e]) &&
      (event !in listeners ==> r[event] == [])
  {
    var current := if event in listeners then listeners[event] else [];
    RemovedAdded(current, cb);
  }

  /** `off` for an event with no set changes nothing. */
  lemma OffUnknown(listeners: map<string, seq<CallbackId>>, event: string, cb: CallbackId)
    requires event !in listeners
    ensures Unsubscribed(listeners, event, cb) == listeners
  {
  }

  /** `on` and `off` keep every set free of duplicates. */
  lemma RegistryPreserved(listeners: map<string, seq<CallbackId>>, event: string, cb: CallbackId)
    requires Registry(listeners)
    ensures Registry(Subscribed(listeners, event, cb))
    ensures Registry(Unsubscribed(listeners, event, cb))
  {
    if event in listeners {
      RemovedSpec(listeners[event], cb);
    }
  }

  /** The socket a server event arrives on: the current one, or the k-th
      socket `connect` replaced without closing it. */
  datatype Via = Current | Orphan(index: nat)

  /** Whether that socket still has its forwarding handlers: the current one
      while it exists, an orphan always, since nothing ever closes it. */
  predicate Delivers(socket: Option<Connection>, orphans: nat, via: Via) {
    match via
    case Current => socket.Some?
    case Orphan(k) => k < orphans
  }

  /** What a server event reaching the client invokes: the current set of
      `event`, when it arrives on a socket whose forwarding handlers are
      attached and the event is one they forward. */
  function Dispatched(delivers: bool, listeners: map<string, seq<CallbackId>>, event: string): (r: seq<CallbackId>)
    ensures r != [] ==> delivers && event in ForwardedEvents && event in listeners
    ensures delivers && event in ForwardedEvents && event in listeners ==> r == listeners[event]
  {
    if delivers && event in ForwardedEvents && event in listeners then listeners[event] else []
  }

  /** A listener registered for a forwarded event hears it until unregistered,
      and never after. */
  lemma DispatchAfterOnOff(listeners: map<string, seq<CallbackId>>, event: string, cb: CallbackId)
    requires event in ForwardedEvents
    ensures cb in Dispatched(true, Subscribed(listeners, event, cb), event)
    ensures cb !in Dispatched(true, Unsubscribed(Subscribed(listeners, event, cb), event, cb), event)
  {
  }

  /** Once the current socket is dropped no event arrives through it, but a
      socket orphaned by an earlier `connect` still invokes every listener of
      a forwarded event. */
  lemma OrphanOutlivesDisconnect(orphans: nat, listeners: map<string, seq<CallbackId>>, event: string)
    requires orphans > 0 && event in ForwardedEvents && event in listeners
    ensures Dispatched(Delivers(None, orphans, Current), listeners, event) == []
    ensures Dispatched(Delivers(None, orphans, Orphan(orphans - 1)), listeners, event) == listeners[event]
  {
  }

  // ---------------------------------------------------------------------
  // The service

  class SocketService {
    var socket: Option<Connection>
    /** How many sockets `connect` replaced without closing them. */
    var orphans: nat
    var listeners: map<string, seq<CallbackId>>
    /** Everything emitted on a connection, oldest first. */
    var emitted: seq<Emission>

    ghost predicate Valid()
      reads this
    {
      Registry(listeners)
    }

    constructor ()
      ensures Valid()
      ensures socket == None && orphans == 0 && listeners == map[] && emitted == []
    {
      socket := None;
      orphans := 0;
      listeners := map[];
      emitted := [];
    }

    /** A socket the library already reports connected is kept; otherwise a new
        one is opened, with `{ token }` as auth only for a non-empty token. A
        socket that existed but was not yet connected is replaced without being
        closed, and keeps forwarding as an orphan. */
    method Connect(token: Option<string>)
      modifies this`socket, this`orphans
      ensures old(socket).Some? && old(socket).value.connected ==> socket == old(socket)
      ensures !(old(socket).Some? && old(socket).value.connected) ==>
        socket == Some(Connection(if token.Some? && token.value != "" then token else None, false))
      ensures orphans == old(orphans) + if old(socket).Some? && !old(socket).value.connected then 1 else 0
    {
      if socket.Some? && socket.value.connected {
        return;
      }
      if socket.Some? {
        orphans := orphans + 1;
      }
      var auth := if token.Some? && token.value != "" then token else None;
      socket := Some(Connection(auth, false));
    }

    /** The library's `connect` event: the transport is up. */
    method TransportConnected()
      modifies this`socket
      ensures socket == if old(socket).Some? then Some(old(socket).value.(connected := true)) else None
    {
      if socket.Some? {
        socket := Some(socket.value.(connected := true));
      }
    }

    /** Closes and drops the current connection if there is one; the registry
        is kept, so components stay subscribed across a reconnect, and orphans,
        outside the frame, stay attached. */
    method Disconnect()
      modifies this`socket
      ensures socket == None
    {
      if socket.Some? {
        socket := None;
      }
    }

    method On(event: string, cb: CallbackId)
      requires Valid()
      modifies this`listeners
      ensures Valid()
      ensures listeners == Subscribed(old(listeners), event, cb)
    {
      RegistryPreserved(listeners, event, cb);
      if event !in listeners {
        listeners := listeners[event := []];
      }
      listeners := listeners[event := Added(listeners[event], cb)];
    }

    method Off(event: string, cb: CallbackId)
      requires Valid()
      modifies this`listeners
      ensures Valid()
      ensures listeners == Unsubscribed(old(listeners), event, cb)
    {
      RegistryPreserved(listeners, event, cb);
      if event in listeners {
        listeners := listeners[event := Removed(listeners[event], cb)];
      }
    }

    /** The forwarding handler of a server event arriving on `via`: each
        callback of the event's current set, in registration order. */
    method Receive(event: string, via: Via) returns (invoked: seq<CallbackId>)
      requires Valid()
      ensures invoked == Dispatched(Delivers(socket, orphans, via), listeners, event)
      ensures forall cb :: cb in invoked <==>
        Delivers(socket, orphans, via) && event in ForwardedEvents && event in listeners && cb in listeners[event]
      ensures NoDup(invoked)
    {
      invoked := [];
      if !Delivers(socket, orphans, via) || event !in ForwardedEvents || event !in listeners {
        return;
      }
      var set_ := listeners[event];
      var i := 0;
      while i < |set_|
        invariant 0 <= i <= |set_|
        invariant invoked == set_[..i]
      {
        invoked := invoked + [set_[i]];
        i := i + 1;
      }
      assert set_[..i] == set_;
    }

    /** `join-display` with the id, only on an existing connection. */
    method JoinDisplay(displayId: string)
      modifies this`emitted
      ensures emitted == old(emitted) + if socket.Some? then [Emission("join-display", DisplayIdPayload(displayId))] else []
    {
      if socket.Some? {
        emitted := emitted + [Emission("join-display", DisplayIdPayload(displayId))];
      }
    }

    /** `pair-display` with `{ pairingCode }`, only on an existing connection. */
    method JoinPairing(pairingCode: string)
      modifies this`emitted
      ensures emitted == old(emitted) + if socket.Some? then [Emission("pair-display", PairingPayload(pairingCode))] else []
    {
      if socket.Some? {
        emitted := emitted + [Emission("pair-display", PairingPayload(pairingCode))];
      }
    }

    method Emit(event: string, data: nat)
      modifies this`emitted
      ensures emitted == old(emitted) + if socket.Some? then [Emission(event, DataPayload(data))] else []
    {
      if socket.Some? {
        emitted := emitted + [Emission(event, DataPayload(data))];
      }
    }
  }
}

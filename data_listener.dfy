/**
 * The sync receiver: the watch-side listener for messages pushed by the
 * handheld app.  A message on one of the three known routes is stored under
 * the route's key, overwriting what was there, and then announced by one
 * local broadcast carrying that key and value; any other message goes to the
 * listener's default handler and changes nothing here.
 */
module DataListener {
  import opened Wrappers
  import opened WearableConstants
  import opened KeyValueStore

  /** An inbound message: its route and its payload, already decoded to a string. */
  datatype Message = Message(path: string, payload: string)

  /** A local broadcast announcing that `key` now holds `value`. */
  datatype Broadcast = Broadcast(key: string, value: string)

  /**
   * What the receiver can change: the key-value store, the broadcasts sent so
   * far (oldest first), and the paths handed to the default handler.
   */
  datatype SyncState = SyncState(store: Store, broadcasts: seq<Broadcast>, delegated: seq<string>)

  /** The store key a route writes to, or None for a route the receiver does not know. */
  function RouteKey(path: string): (k: Option<string>)
    ensures k.Some? <==> path in Routes
    ensures k.Some? ==> k.value in Keys
    ensures k == Some(MaxTempKey) <==> path == PathMaxTemp
    ensures k == Some(MinTempKey) <==> path == PathMinTemp
    ensures k == Some(ResIdKey) <==> path == PathResId
  {
    if path == PathMaxTemp then Some(MaxTempKey)
    else if path == PathMinTemp then Some(MinTempKey)
    else if path == PathResId then Some(ResIdKey)
    else None
  }

  /** Distinct known routes write to distinct keys. */
  lemma RouteKeyInjective(p: string, q: string)
    requires RouteKey(p).Some? && RouteKey(p) == RouteKey(q)
    ensures p == q
  {
  }

  /** The effect of receiving one message. */
  function Receive(s: SyncState, m: Message): (r: SyncState)
    ensures RouteKey(m.path).Some? ==>
      var k := RouteKey(m.path).value;
      && r.store.Keys == s.store.Keys + {k}
      && Get(r.store, k) == Some(m.payload)
      && (forall k' :: k' != k ==> Get(r.store, k') == Get(s.store, k'))
      && r.broadcasts == s.broadcasts + [Broadcast(k, m.payload)]
      && r.delegated == s.delegated
    ensures RouteKey(m.path).None? ==>
      r.store == s.store && r.broadcasts == s.broadcasts && r.delegated == s.delegated + [m.path]
  {
    match RouteKey(m.path)
    case Some(k) => s.(store := Put(s.store, k, m.payload), broadcasts := s.broadcasts + [Broadcast(k, m.payload)])
    case None => s.(delegated := s.delegated + [m.path])
  }

  /** A message on a known route can be read back from the store (get after put). */
  lemma ReceiveThenGet(s: SyncState, m: Message)
    requires m.path in Routes
    ensures Get(Receive(s, m).store, RouteKey(m.path).value) == Some(m.payload)
  {
  }

  /** A message on a known route leaves every other key as it was, present or absent. */
  lemma ReceiveKeepsOtherKeys(s: SyncState, m: Message, key: string)
    requires RouteKey(m.path) != Some(key)
    ensures Get(Receive(s, m).store, key) == Get(s.store, key)
  {
  }

  /** Last write wins: of two messages on one route, only the second one's payload stays. */
  lemma LastWriteWins(s: SyncState, path: string, first: string, second: string)
    ensures Receive(Receive(s, Message(path, first)), Message(path, second)).store
         == Receive(s, Message(path, second)).store
  {
  }

  /** Messages on different routes may arrive in either order: the store ends up the same. */
  lemma DistinctRoutesCommute(s: SyncState, m: Message, n: Message)
    requires RouteKey(m.path) != RouteKey(n.path) || RouteKey(m.path).None?
    ensures Receive(Receive(s, m), n).store == Receive(Receive(s, n), m).store
  {
    match (RouteKey(m.path), RouteKey(n.path))
    case (Some(k), Some(j)) =>
      assert k != j;
      assert Put(Put(s.store, k, m.payload), j, n.payload) == Put(Put(s.store, j, n.payload), k, m.payload);
    case _ =>
  }

  /** The effect of receiving `ms`, first message first. */
  function ReceiveAll(s: SyncState, ms: seq<Message>): SyncState
    decreases |ms|
  {
    if ms == [] then s else ReceiveAll(Receive(s, ms[0]), ms[1..])
  }

  /** The payload of the last message in `ms` whose route writes `key`, if there is one. */
  function LastPayloadFor(ms: seq<Message>, key: string): Option<string>
    decreases |ms|
  {
    if ms == [] then None
    else if RouteKey(ms[|ms| - 1].path) == Some(key) then Some(ms[|ms| - 1].payload)
    else LastPayloadFor(ms[..|ms| - 1], key)
  }

  /** The broadcasts that receiving `ms` sends, in order: one per message on a known route. */
  function BroadcastsFor(ms: seq<Message>): seq<Broadcast>
    decreases |ms|
  {
    if ms == [] then []
    else
      var rest := BroadcastsFor(ms[..|ms| - 1]);
      var m := ms[|ms| - 1];
      match RouteKey(m.path)
      case Some(k) => rest + [Broadcast(k, m.payload)]
      case None => rest
  }

  lemma {:induction false} ReceiveAllSnoc(s: SyncState, ms: seq<Message>, m: Message)
    ensures ReceiveAll(s, ms + [m]) == Receive(ReceiveAll(s, ms), m)
    decreases |ms|
  {
    if ms == [] {
      assert ms + [m] == [m];
    } else {
      assert (ms + [m])[1..] == ms[1..] + [m];
      ReceiveAllSnoc(Receive(s, ms[0]), ms[1..], m);
    }
  }

  /**
   * After any sequence of messages, every key holds the payload of the last
   * message routed to it, or its earlier value when no message was.
   */
  lemma {:induction false} ReceiveAllStore(s: SyncState, ms: seq<Message>, key: string)
    ensures Get(ReceiveAll(s, ms).store, key) ==
      match LastPayloadFor(ms, key)
      case Some(v) => Some(v)
      case None => Get(s.store, key)
    decreases |ms|
  {
    if ms != [] {
      var init, m := ms[..|ms| - 1], ms[|ms| - 1];
      assert ms == init + [m];
      ReceiveAllSnoc(s, init, m);
      ReceiveAllStore(s, init, key);
    }
  }

  /**
   * After any sequence of messages, the broadcast log has grown by exactly one
   * broadcast per message on a known route, carrying the key and value stored.
   */
  lemma {:induction false} ReceiveAllBroadcasts(s: SyncState, ms: seq<Message>)
    ensures ReceiveAll(s, ms).broadcasts == s.broadcasts + BroadcastsFor(ms)
    decreases |ms|
  {
    if ms != [] {
      var init, m := ms[..|ms| - 1], ms[|ms| - 1];
      assert ms == init + [m];
      ReceiveAllSnoc(s, init, m);
      ReceiveAllBroadcasts(s, init);
    }
  }

  /** Only the three known keys are ever written. */
  lemma {:induction false} ReceiveAllWritesOnlyKeys(s: SyncState, ms: seq<Message>)
    ensures ReceiveAll(s, ms).store.Keys <= s.store.Keys + Keys
    decreases |ms|
  {
    if ms != [] {
      ReceiveAllWritesOnlyKeys(Receive(s, ms[0]), ms[1..]);
    }
  }

  /** The listener service, holding the store it writes and the broadcasts it has sent. */
  class DataListenerService {
    var store: Store
    var broadcasts: seq<Broadcast>
    var delegated: seq<string>

    function State(): SyncState
      reads this
    {
      SyncState(store, broadcasts, delegated)
    }

    /** A listener over an existing store, before any message. */
    constructor (store: Store)
      ensures State() == SyncState(store, [], [])
    {
      this.store := store;
      broadcasts := [];
      delegated := [];
    }

    /** Routes one inbound message: store and broadcast on a known route, delegate otherwise. */
    method OnMessageReceived(path: string, payload: string)
      modifies this
      ensures State() == Receive(old(State()), Message(path, payload))
      ensures path == PathMaxTemp ==>
        store == Put(old(store), MaxTempKey, payload) && broadcasts == old(broadcasts) + [Broadcast(MaxTempKey, payload)]
      ensures path == PathMinTemp ==>
        store == Put(old(store), MinTempKey, payload) && broadcasts == old(broadcasts) + [Broadcast(MinTempKey, payload)]
      ensures path == PathResId ==>
        store == Put(old(store), ResIdKey, payload) && broadcasts == old(broadcasts) + [Broadcast(ResIdKey, payload)]
      ensures path !in Routes ==>
        store == old(store) && broadcasts == old(broadcasts) && delegated == old(delegated) + [path]
    {
      if path == PathMaxTemp {
        store := Put(store, MaxTempKey, payload);
        broadcasts := broadcasts + [Broadcast(MaxTempKey, payload)];
      } else if path == PathMinTemp {
        store := Put(store, MinTempKey, payload);
        broadcasts := broadcasts + [Broadcast(MinTempKey, payload)];
      } else if path == PathResId {
        store := Put(store, ResIdKey, payload);
        broadcasts := broadcasts + [Broadcast(ResIdKey, payload)];
      } else {
        SuperOnMessageReceived(path);
      }
    }

    /** The default handler of the listener base class: it records the path and does nothing else. */
    method SuperOnMessageReceived(path: string)
      modifies this
      ensures State() == old(State()).(delegated := old(delegated) + [path])
    {
      delegated := delegated + [path];
    }
  }
}

/** The copy-on-write map as objects: the future's poll, and the updater's loop. */
module NonLockingMapObjects {
  import opened Types
  import opened Channels
  import opened UnboundedChannels
  import opened NonLockingMaps

  class Waker {
    var woken: bool

    constructor ()
      ensures !woken
    {
      woken := false;
    }

    method Wake()
      modifies this
      ensures woken
    {
      woken := true;
    }
  }

  datatype MapAction<!K(==), V> = GetOrCreate(key: K, factory: K -> V, waker: Waker)

  /** The map after a sequence of requests, each an indivisible get-or-create. */
  function ProvidedAll<K(==), V>(m: map<K, V>, actions: seq<MapAction<K, V>>): map<K, V> {
    if actions == [] then m
    else
      var last := actions[|actions| - 1];
      Provided(ProvidedAll(m, actions[..|actions| - 1]), last.key, last.factory)
  }

  ghost function Wakers<K, V>(actions: seq<MapAction<K, V>>): set<Waker> {
    set action <- actions :: action.waker
  }

  lemma WakersNext<K, V>(actions: seq<MapAction<K, V>>, k: nat)
    requires k < |actions|
    ensures Wakers(actions[..k + 1]) == Wakers(actions[..k]) + {actions[k].waker} && actions[k].waker in Wakers(actions)
  {
    assert actions[..k + 1] == actions[..k] + [actions[k]];
    assert actions[k] in actions && actions[k] in actions[..k + 1];
  }

  lemma ProvidedNext<K, V>(m: map<K, V>, actions: seq<MapAction<K, V>>, k: nat)
    requires k < |actions|
    ensures ProvidedAll(m, actions[..k + 1]) == Provided(ProvidedAll(m, actions[..k]), actions[k].key, actions[k].factory)
  {
    assert actions[..k + 1][..k] == actions[..k];
  }

  ghost predicate FirstFor<K, V>(actions: seq<MapAction<K, V>>, i: int, key: K) {
    0 <= i < |actions| && actions[i].key == key && forall j :: 0 <= j < i ==> actions[j].key != key
  }

  lemma FirstStays<K, V>(actions: seq<MapAction<K, V>>, i: int, key: K)
    requires actions != [] && FirstFor(actions[..|actions| - 1], i, key)
    ensures FirstFor(actions, i, key) && actions[..|actions| - 1][i] == actions[i]
  {
  }

  /** What was there stays; a key that was not gets the value of the first request for it; there are no others. */
  lemma {:induction false} FirstRequestWins<K, V>(m: map<K, V>, actions: seq<MapAction<K, V>>, key: K)
    ensures var m' := ProvidedAll(m, actions);
      && (key in m ==> key in m' && m'[key] == m[key])
      && (key !in m && key in m' ==> exists i :: FirstFor(actions, i, key) && m'[key] == actions[i].factory(key))
      && (key !in m' ==> forall i :: 0 <= i < |actions| ==> actions[i].key != key)
  {
    if actions != [] {
      var n := |actions| - 1;
      var init := actions[..n];
      FirstRequestWins(m, init, key);
      if key !in m && key in ProvidedAll(m, init) {
        var i :| FirstFor(init, i, key) && ProvidedAll(m, init)[key] == init[i].factory(key);
        FirstStays(actions, i, key);
      } else if key !in m && actions[n].key == key {
        assert FirstFor(actions, n, key);
      }
    }
  }

  /** The shared part: the pointer, that is, the map it points at, and the queue. */
  class NonLockingMap<!K(==), V> {
    var mapPtr: map<K, V>
    const updateSender: UnboundedChannel<MapAction<K, V>>

    constructor ()
      ensures mapPtr == map[] && fresh(updateSender) && updateSender.state == Empty()
    {
      mapPtr := map[];
      updateSender := new UnboundedChannel();
    }

    /** Also `get_if_present`. */
    method GetSync(key: K) returns (value: Option<V>)
      ensures value == if key in mapPtr then Some(mapPtr[key]) else None
    {
      value := if key in mapPtr then Some(mapPtr[key]) else None;
    }

    /** `owned` is the updater's map; the answer, if there is one, is to replace it. */
    method CreateIfNecessary(owned: map<K, V>, key: K, factory: K -> V) returns (newMap: Option<map<K, V>>)
      requires owned == mapPtr
      modifies this
      ensures mapPtr == Provided(old(mapPtr), key, factory)
      ensures newMap == if key in old(mapPtr) then None else Some(mapPtr)
    {
      var present := GetSync(key);
      match present {
        case Some(_) => newMap := None;
        case None =>
          var value := factory(key);
          var clonedMap := owned[key := value];
          mapPtr := clonedMap;
          newMap := Some(clonedMap);
      }
    }

    /** One round of the updater's loop. */
    method Serve(owned: map<K, V>, action: MapAction<K, V>) returns (movedMap: map<K, V>)
      requires owned == mapPtr
      modifies this, action.waker
      ensures mapPtr == movedMap == Provided(owned, action.key, action.factory) && action.waker.woken
    {
      movedMap := owned;
      var newMap := CreateIfNecessary(movedMap, action.key, action.factory);
      if newMap.Some? {
        movedMap := newMap.value;
      }
      action.waker.Wake();
    }

    /** The round, seen from the loop's beginning. */
    method ServeNext(owned: map<K, V>, action: MapAction<K, V>, ghost first: map<K, V>, ghost actions: seq<MapAction<K, V>>, ghost k: nat)
      returns (movedMap: map<K, V>)
      requires k < |actions| && action == actions[k]
      requires owned == mapPtr == ProvidedAll(first, actions[..k])
      requires forall waker <- Wakers(actions[..k]) :: waker.woken
      modifies this, Wakers(actions)
      ensures mapPtr == movedMap == ProvidedAll(first, actions[..k + 1])
      ensures forall waker <- Wakers(actions[..k + 1]) :: waker.woken
    {
      ProvidedNext(first, actions, k);
      WakersNext(actions, k);
      movedMap := Serve(owned, action);
    }

    /** A round: take a request from the queue, if there is one, and serve it. */
    method Round(owned: map<K, V>, ghost next: nat, ghost first: map<K, V>, ghost origin: Chan<MapAction<K, V>>)
      returns (empty: bool, movedMap: map<K, V>)
      requires origin.Valid() && next <= |origin.Queue()| && updateSender.state == origin.(received := origin.received + next)
      requires owned == mapPtr == ProvidedAll(first, origin.Queue()[..next])
      requires forall waker <- Wakers(origin.Queue()[..next]) :: waker.woken
      modifies this, updateSender, Wakers(origin.Queue())
      ensures empty == (next == |origin.Queue()|)
      ensures empty ==>
                && updateSender.state == old(updateSender.state) && mapPtr == movedMap == owned
                && forall waker <- Wakers(origin.Queue()[..next]) :: waker.woken
      ensures !empty ==>
                && updateSender.state == origin.(received := origin.received + next + 1)
                && mapPtr == movedMap == ProvidedAll(first, origin.Queue()[..next + 1])
                && forall waker <- Wakers(origin.Queue()[..next + 1]) :: waker.woken
    {
      QueueAfter(origin, next);
      empty, movedMap := false, owned;
      var action := updateSender.TryRecv();
      if action.None? {
        empty := true;
      } else {
        movedMap := ServeNext(owned, action.value, first, origin.Queue(), next);
      }
    }

    /**
     The updater's loop, until its queue is empty. It serves the requests in their order,
     whatever readers do meanwhile, keeps its own map equal to the published one, and calls
     every waker.
     */
    method Update(owned: map<K, V>) returns (movedMap: map<K, V>)
      requires owned == mapPtr && updateSender.state.Valid()
      modifies this, updateSender, Wakers(updateSender.state.Queue())
      ensures mapPtr == movedMap == ProvidedAll(owned, old(updateSender.state.Queue()))
      ensures updateSender.state == old(updateSender.state).(received := |old(updateSender.state.sent)|)
      ensures forall waker <- Wakers(old(updateSender.state.Queue())) :: waker.woken
    {
      ghost var actions := updateSender.state.Queue();
      movedMap := owned;
      var next := 0;
      while true
        invariant 0 <= next <= |actions|
        invariant updateSender.state == old(updateSender.state).(received := old(updateSender.state.received) + next)
        invariant mapPtr == movedMap == ProvidedAll(owned, actions[..next])
        invariant forall waker <- Wakers(actions[..next]) :: waker.woken
        decreases |actions| - next
      {
        var empty;
        empty, movedMap := Round(movedMap, next, owned, old(updateSender.state));
        if empty {
          break;
        }
        next := next + 1;
      }
      assert actions[..next] == actions;
    }
  }

  datatype Poll<V> = Pending | Ready(value: V)

  class MapReturnFuture<!K(==), V> {
    const nonLockingMap: NonLockingMap<K, V>
    const key: K
    var factory: Option<K -> V>

    /** `get`: makes the future, and that is all. */
    constructor (nonLockingMap: NonLockingMap<K, V>, key: K, factory: K -> V)
      ensures this.nonLockingMap == nonLockingMap && this.key == key && this.factory == Some(factory)
    {
      this.nonLockingMap := nonLockingMap;
      this.key := key;
      this.factory := Some(factory);
    }

    /** Panics when it needs the factory and has given it away already. */
    method Poll(waker: Waker) returns (panicked: bool, poll: Poll<V>)
      modifies this, nonLockingMap.updateSender
      ensures panicked <==> key !in nonLockingMap.mapPtr && old(factory).None?
      ensures key in nonLockingMap.mapPtr ==>
                poll == Ready(nonLockingMap.mapPtr[key]) && factory == old(factory)
                && nonLockingMap.updateSender.state == old(nonLockingMap.updateSender.state)
      ensures key !in nonLockingMap.mapPtr ==> factory == None
      ensures key !in nonLockingMap.mapPtr && !panicked ==>
                && poll == Pending
                && nonLockingMap.updateSender.state
                   == old(nonLockingMap.updateSender.state).Push(GetOrCreate(key, old(factory).value, waker))
    {
      panicked, poll := false, Pending;
      var present := nonLockingMap.GetSync(key);
      match present {
        case Some(value) => poll := Ready(value);
        case None =>
          var taken := factory;
          factory := None;
          if taken.None? {
            panicked := true;
          } else {
            var _ := nonLockingMap.updateSender.Send(GetOrCreate(key, taken.value, waker));
          }
      }
    }
  }
}

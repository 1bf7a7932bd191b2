/**
 The copy-on-write map: readers load a pointer, and one updater task, which owns the map
 pointed at, serves the queue of creation requests. The loads, the swap of the pointer and
 the updater's own assignment are steps of their own, so readers see every moment between.
 */
module NonLockingMaps {
  import opened Types

  /** The sequential map that it stands for. */
  function Provided<K, V>(m: map<K, V>, key: K, factory: K -> V): map<K, V> {
    if key in m then m else m[key := factory(key)]
  }

  function Find<K, V>(m: map<K, V>, key: K): Option<V> {
    if key in m then Some(m[key]) else None
  }

  datatype Request<!K(==), V> = Request(key: K, factory: K -> V, waker: nat)

  /** How far the future of a `get` has come. */
  datatype Phase<V> =
    | New
    | Missed           // a poll has found nothing, and is about to take the factory and ask
    | Asked            // the request is sent, and the poll has answered Pending
    | Done(value: V)
    | Panicked

  datatype Future<!K(==), V> = Future(key: K, factory: K -> V, phase: Phase<V>, woken: bool)

  /** Where the updater is in its loop; its current request is the last one taken. */
  datatype Updater<!K(==), V> =
    | Receiving
    | Swapping(newMap: map<K, V>)
    | Assigning(newMap: map<K, V>)
    | Waking

  /** History: one `get` taking effect. */
  datatype Effect<!K(==), V> = Effect(future: nat, key: K, factory: K -> V, value: V)

  /** History: one `get_if_present`, which comes after the first `at` effects. */
  datatype Sight<!K(==), V> = Sight(at: nat, key: K, answer: Option<V>)

  datatype State<!K(==), V> = State(
    published: map<K, V>,
    owned: map<K, V>,
    updater: Updater<K, V>,
    requests: seq<Request<K, V>>,  // everything ever sent
    taken: nat,
    futures: map<nat, Future<K, V>>,
    created: nat,                  // the futures made so far
    made: seq<K>,                  // history: the keys that a factory was called for
    effects: seq<Effect<K, V>>,    // history: the gets in the order of their effects
    sights: seq<Sight<K, V>>)      // history: what has only been looked at

  function Initial<K(==), V>(): State<K, V> {
    State(map[], map[], Receiving, [], 0, map[], 0, [], [], [])
  }

  datatype Step<!K(==), V> =
    | Get(key: K, factory: K -> V)
    | Read(key: K)        // `get_if_present`: loads the pointer and looks the key up
    | Look(future: nat)   // a poll loads the pointer and looks the key up
    | Ask(future: nat)    // the rest of a poll that has found nothing
    | Take                // the updater receives, looks the key up and calls the factory if need be
    | Swap
    | Assign
    | Wake

  function Current<K(==), V>(s: State<K, V>): Request<K, V>
    requires 0 < s.taken <= |s.requests|
  {
    s.requests[s.taken - 1]
  }

  predicate Enabled<K(==), V>(s: State<K, V>, step: Step<K, V>) {
    match step
    case Get(_, _) => true
    case Read(_) => true
    case Look(f) => f in s.futures && (s.futures[f].phase.New? || s.futures[f].phase.Asked?)
    case Ask(f) => f in s.futures && s.futures[f].phase.Missed?
    case Take => s.updater.Receiving? && s.taken < |s.requests|
    case Swap => s.updater.Swapping? && 0 < s.taken <= |s.requests|
    case Assign => s.updater.Assigning?
    case Wake => s.updater.Waking? && 0 < s.taken <= |s.requests|
  }

  predicate HasEffect<K(==), V>(s: State<K, V>, f: nat) {
    exists i :: 0 <= i < |s.effects| && s.effects[i].future == f
  }

  function WithPhase<K(==), V>(s: State<K, V>, f: nat, phase: Phase<V>): State<K, V>
    requires f in s.futures
  {
    s.(futures := s.futures[f := s.futures[f].(phase := phase)])
  }

  /** A get that has not taken effect yet takes effect now, with the value it finds. */
  function Effected<K(==), V>(s: State<K, V>, f: nat, key: K, factory: K -> V, value: V): seq<Effect<K, V>> {
    if HasEffect(s, f) then s.effects else s.effects + [Effect(f, key, factory, value)]
  }

  function LookUp<K(==), V>(s: State<K, V>, f: nat): State<K, V>
    requires Enabled(s, Look(f))
  {
    var future := s.futures[f];
    if future.key in s.published then
      var value := s.published[future.key];
      WithPhase(s, f, Done(value)).(effects := Effected(s, f, future.key, future.factory, value))
    else if future.phase.New? then WithPhase(s, f, Missed)
    else WithPhase(s, f, Panicked)  // the factory has been taken before
  }

  function TakeRequest<K(==), V>(s: State<K, V>): State<K, V>
    requires Enabled(s, Take)
  {
    var request, s' := s.requests[s.taken], s.(taken := s.taken + 1);
    if request.key in s.published
    then s'.(updater := Waking,
             effects := Effected(s, request.waker, request.key, request.factory, s.published[request.key]))
    else s'.(updater := Swapping(s.owned[request.key := request.factory(request.key)]), made := s.made + [request.key])
  }

  function SwapPointer<K(==), V>(s: State<K, V>): State<K, V>
    requires Enabled(s, Swap)
  {
    var request, newMap := Current(s), s.updater.newMap;
    s.(published := newMap,
       updater := Assigning(newMap),
       effects := if request.key in newMap
                  then Effected(s, request.waker, request.key, request.factory, newMap[request.key])
                  else s.effects)
  }

  function Apply<K(==), V>(s: State<K, V>, step: Step<K, V>): State<K, V>
    requires Enabled(s, step)
  {
    match step
    case Get(key, factory) =>
      s.(futures := s.futures[s.created := Future(key, factory, New, false)], created := s.created + 1)
    case Read(key) => s.(sights := s.sights + [Sight(|s.effects|, key, Find(s.published, key))])
    case Look(f) => LookUp(s, f)
    case Ask(f) =>
      WithPhase(s, f, Asked).(requests := s.requests + [Request(s.futures[f].key, s.futures[f].factory, f)])
    case Take => TakeRequest(s)
    case Swap => SwapPointer(s)
    case Assign => s.(owned := s.updater.newMap, updater := Waking)
    case Wake =>
      var f := Current(s).waker;
      var s' := s.(updater := Receiving);
      if f in s.futures then s'.(futures := s.futures[f := s.futures[f].(woken := true)]) else s'
  }

  ghost predicate IsRun<K, V>(s: State<K, V>, steps: seq<Step<K, V>>)
    decreases |steps|
  {
    steps == [] || (Enabled(s, steps[0]) && IsRun(Apply(s, steps[0]), steps[1..]))
  }

  ghost function After<K, V>(s: State<K, V>, steps: seq<Step<K, V>>): State<K, V>
    requires IsRun(s, steps)
    decreases |steps|
  {
    if steps == [] then s else After(Apply(s, steps[0]), steps[1..])
  }

  ghost predicate Reachable<K(!new), V(!new)>(s: State<K, V>) {
    exists steps :: IsRun(Initial(), steps) && After(Initial(), steps) == s
  }

  // ---------- the sequential reading ----------

  /** The map after the effects, had each `get` been one indivisible get-or-create. */
  function Replay<K(==), V>(effects: seq<Effect<K, V>>): map<K, V> {
    if effects == [] then map[]
    else
      var last := effects[|effects| - 1];
      Provided(Replay(effects[..|effects| - 1]), last.key, last.factory)
  }

  /** Every effect has the value that the sequential map gives it in its turn. */
  ghost predicate Legal<K, V>(effects: seq<Effect<K, V>>) {
    effects == [] ||
    (var last := effects[|effects| - 1];
     var m := Provided(Replay(effects[..|effects| - 1]), last.key, last.factory);
     last.key in m && last.value == m[last.key] && Legal(effects[..|effects| - 1]))
  }
}

/** What every run of the copy-on-write map keeps; above all, that it is linearizable. */
module NonLockingMapLaws {
  import opened Types
  import opened NonLockingMaps

  // ---------- the updater ----------

  /** The updater's own map is the published one, but for the moment between the swap and the assignment. */
  ghost predicate MapsAgree<K, V>(s: State<K, V>) {
    && s.taken <= |s.requests|
    && (!s.updater.Receiving? ==> 0 < s.taken)
    && match s.updater
       case Receiving => s.owned == s.published
       case Swapping(newMap) =>
         && s.owned == s.published && Current(s).key !in s.published
         && newMap == s.published[Current(s).key := Current(s).factory(Current(s).key)]
       case Assigning(newMap) => s.published == newMap && Current(s).key in s.published
       case Waking => s.owned == s.published && Current(s).key in s.published
  }

  /** The requests that have had their effect on the published map. */
  function Served<K(==), V>(s: State<K, V>): int {
    if s.updater.Swapping? then s.taken - 1 else s.taken
  }

  /** The rounds of the updater's loop that are over. */
  function Rounds<K(==), V>(s: State<K, V>): int {
    if s.updater.Receiving? then s.taken else s.taken - 1
  }

  ghost predicate KeysServed<K, V>(s: State<K, V>) {
    && Served(s) <= |s.requests|
    && (forall i :: 0 <= i < Served(s) ==> s.requests[i].key in s.published)
    && (forall key <- s.published :: ServedFor(s, key))
  }

  ghost predicate ServedFor<K, V>(s: State<K, V>, key: K)
    requires Served(s) <= |s.requests|
  {
    exists i :: 0 <= i < Served(s) && s.requests[i].key == key
  }

  ghost predicate MadeOnce<K, V>(s: State<K, V>) {
    && 0 <= s.taken <= |s.requests| && (s.updater.Swapping? ==> 0 < s.taken)
    && (forall i, j :: 0 <= i < j < |s.made| ==> s.made[i] != s.made[j])
    && (forall key <- s.made :: key in s.published || (s.updater.Swapping? && key == Current(s).key))
    && (forall key <- s.published :: key in s.made)
    && (s.updater.Swapping? ==> Current(s).key in s.made)
  }

  // ---------- the futures ----------

  ghost predicate Known<K, V>(s: State<K, V>, f: nat, key: K, factory: K -> V) {
    f in s.futures && s.futures[f].key == key && s.futures[f].factory == factory
  }

  ghost predicate HasAsked<K, V>(s: State<K, V>, f: nat) {
    exists i :: 0 <= i < |s.requests| && s.requests[i].waker == f
  }

  /** Requests come from futures, one each: the factory is taken once. */
  ghost predicate RequestsKnown<K, V>(s: State<K, V>) {
    && (forall i :: 0 <= i < |s.requests| ==>
          && Known(s, s.requests[i].waker, s.requests[i].key, s.requests[i].factory)
          && !s.futures[s.requests[i].waker].phase.New? && !s.futures[s.requests[i].waker].phase.Missed?)
    && (forall i, j :: 0 <= i < j < |s.requests| ==> s.requests[i].waker != s.requests[j].waker)
  }

  ghost predicate FuturesKnown<K, V>(s: State<K, V>) {
    && (forall f <- s.futures :: f < s.created)
    && (forall f <- s.futures ::
          && (s.futures[f].phase.Asked? || s.futures[f].phase.Panicked? ==> HasAsked(s, f))
          && (s.futures[f].phase.Done? ==>
                s.futures[f].key in s.published && s.futures[f].phase.value == s.published[s.futures[f].key]))
  }

  ghost predicate WokenBy<K, V>(s: State<K, V>, f: nat)
    requires Rounds(s) <= |s.requests|
  {
    exists i :: 0 <= i < Rounds(s) && s.requests[i].waker == f
  }

  /** A future is woken when its request's round is over, and not before. */
  ghost predicate WokenAfterRound<K, V>(s: State<K, V>) {
    && Rounds(s) <= |s.requests|
    && (forall i :: 0 <= i < Rounds(s) ==> s.requests[i].waker in s.futures && s.futures[s.requests[i].waker].woken)
    && (forall f <- s.futures :: s.futures[f].woken ==> WokenBy(s, f))
  }

  // ---------- the effects ----------

  ghost predicate EffectsKnown<K, V>(s: State<K, V>) {
    && (forall i :: 0 <= i < |s.effects| ==>
          && Known(s, s.effects[i].future, s.effects[i].key, s.effects[i].factory)
          && s.effects[i].key in s.published && s.effects[i].value == s.published[s.effects[i].key])
    && (forall i, j :: 0 <= i < j < |s.effects| ==> s.effects[i].future != s.effects[j].future)
  }

  ghost predicate Effective<K, V>(s: State<K, V>) {
    && (forall f <- s.futures :: s.futures[f].phase.Done? ==> HasEffect(s, f))
    && (forall i :: 0 <= i < Served(s) && i < |s.requests| ==> HasEffect(s, s.requests[i].waker))
  }

  ghost predicate Replays<K, V>(s: State<K, V>) {
    Legal(s.effects) && Replay(s.effects) == s.published
  }

  ghost predicate UpdaterInv<K, V>(s: State<K, V>) {
    MapsAgree(s) && KeysServed(s) && MadeOnce(s)
  }

  ghost predicate FutureInv<K, V>(s: State<K, V>) {
    RequestsKnown(s) && FuturesKnown(s) && WokenAfterRound(s)
  }

  ghost predicate EffectInv<K, V>(s: State<K, V>) {
    EffectsKnown(s) && Effective(s) && Replays(s)
  }

  /** Every look at the map has found what the sequential map held after the effects before it. */
  ghost predicate ReadsKnown<K, V>(s: State<K, V>) {
    && (forall i :: 0 <= i < |s.sights| ==>
          s.sights[i].at <= |s.effects| && s.sights[i].answer == Find(Replay(s.effects[..s.sights[i].at]), s.sights[i].key))
    && (forall i, j :: 0 <= i < j < |s.sights| ==> s.sights[i].at <= s.sights[j].at)
  }

  ghost predicate Inv<K, V>(s: State<K, V>) {
    UpdaterInv(s) && FutureInv(s) && EffectInv(s) && ReadsKnown(s)
  }

  // ---------- the steps keep it: the updater ----------

  lemma TakeUpdater<K, V>(s: State<K, V>)
    requires UpdaterInv(s) && Enabled(s, Take)
    ensures UpdaterInv(TakeRequest(s))
  {
    var s' := TakeRequest(s);
    KeysStayServed(s, s');
  }

  lemma KeysStayServed<K, V>(s: State<K, V>, s': State<K, V>)
    requires KeysServed(s) && Served(s) <= Served(s') <= |s'.requests|
    requires |s.requests| <= |s'.requests| && s'.requests[..|s.requests|] == s.requests
    ensures forall key <- s.published :: ServedFor(s', key)
  {
    forall key <- s.published ensures ServedFor(s', key) {
      var i :| 0 <= i < Served(s) && s.requests[i].key == key;
      assert s'.requests[i] == s.requests[i];
    }
  }

  lemma SwapUpdater<K, V>(s: State<K, V>)
    requires UpdaterInv(s) && Enabled(s, Swap)
    ensures UpdaterInv(SwapPointer(s))
  {
    var s' := SwapPointer(s);
    KeysStayServed(s, s');
    assert s'.requests[s.taken - 1].key == Current(s).key;
  }

  lemma AskUpdater<K, V>(s: State<K, V>, f: nat)
    requires UpdaterInv(s) && Enabled(s, Ask(f))
    ensures UpdaterInv(Apply(s, Ask(f)))
  {
    KeysStayServed(s, Apply(s, Ask(f)));
  }

  /** The other steps leave the maps and the requests alone, or finish the updater's round. */
  lemma OtherUpdater<K, V>(s: State<K, V>, step: Step<K, V>)
    requires UpdaterInv(s) && Enabled(s, step) && (step.Get? || step.Read? || step.Look? || step.Assign? || step.Wake?)
    ensures UpdaterInv(Apply(s, step))
  {
    if step.Get? || step.Read? || step.Look? {
      SameUpdater(s, Apply(s, step));
    } else {
      KeysStayServed(s, Apply(s, step));
    }
  }

  lemma SameUpdater<K, V>(s: State<K, V>, s': State<K, V>)
    requires UpdaterInv(s)
    requires s'.published == s.published && s'.owned == s.owned && s'.updater == s.updater && s'.requests == s.requests
    requires s'.taken == s.taken && s'.made == s.made
    ensures UpdaterInv(s')
  {
    KeysStayServed(s, s');
  }

  lemma StepUpdater<K, V>(s: State<K, V>, step: Step<K, V>)
    requires UpdaterInv(s) && Enabled(s, step)
    ensures UpdaterInv(Apply(s, step))
  {
    match step
    case Take => TakeUpdater(s);
    case Swap => SwapUpdater(s);
    case Ask(f) => AskUpdater(s, f);
    case _ => OtherUpdater(s, step);
  }

  // ---------- the steps keep it: the futures ----------

  lemma HasAskedStays<K, V>(s: State<K, V>, s': State<K, V>)
    requires |s.requests| <= |s'.requests| && s'.requests[..|s.requests|] == s.requests
    ensures forall f :: HasAsked(s, f) ==> HasAsked(s', f)
  {
    forall f | HasAsked(s, f) ensures HasAsked(s', f) {
      var i :| 0 <= i < |s.requests| && s.requests[i].waker == f;
      assert s'.requests[i] == s.requests[i];
    }
  }

  lemma GetFutures<K, V>(s: State<K, V>, key: K, factory: K -> V)
    requires FutureInv(s)
    ensures FutureInv(Apply(s, Get(key, factory)))
  {
    HasAskedStays(s, Apply(s, Get(key, factory)));
  }

  /** One future's phase moves on, and perhaps it is woken. */
  ghost predicate OneMoves<K, V>(s: State<K, V>, s': State<K, V>, f: nat) {
    && f in s.futures && s'.futures.Keys == s.futures.Keys && s'.created == s.created && s'.published == s.published
    && s'.futures[f].key == s.futures[f].key && s'.futures[f].factory == s.futures[f].factory
    && (s.futures[f].woken ==> s'.futures[f].woken)
    && forall g <- s.futures :: g != f ==> s'.futures[g] == s.futures[g]
  }

  lemma MovedRequests<K, V>(s: State<K, V>, s': State<K, V>, f: nat)
    requires RequestsKnown(s) && OneMoves(s, s', f) && s'.requests == s.requests
    requires s'.futures[f].phase.New? || s'.futures[f].phase.Missed? ==>
               s.futures[f].phase.New? || s.futures[f].phase.Missed?
    ensures RequestsKnown(s')
  {
    forall i | 0 <= i < |s'.requests|
      ensures Known(s', s'.requests[i].waker, s'.requests[i].key, s'.requests[i].factory)
    {
      assert Known(s, s.requests[i].waker, s.requests[i].key, s.requests[i].factory);
    }
  }

  lemma MovedFutures<K, V>(s: State<K, V>, s': State<K, V>, f: nat)
    requires FuturesKnown(s) && OneMoves(s, s', f) && forall g :: HasAsked(s, g) ==> HasAsked(s', g)
    requires s'.futures[f].phase.Asked? || s'.futures[f].phase.Panicked? ==> HasAsked(s', f)
    requires s'.futures[f].phase.Done? ==>
               s.futures[f].key in s.published && s'.futures[f].phase.value == s.published[s.futures[f].key]
    ensures FuturesKnown(s')
  {
  }

  lemma MovedWoken<K, V>(s: State<K, V>, s': State<K, V>, f: nat)
    requires WokenAfterRound(s) && OneMoves(s, s', f) && s'.futures[f].woken == s.futures[f].woken
    requires Rounds(s') == Rounds(s)
    requires |s.requests| <= |s'.requests| && s'.requests[..|s.requests|] == s.requests
    ensures WokenAfterRound(s')
  {
    forall g <- s'.futures | s'.futures[g].woken ensures WokenBy(s', g) {
      assert s.futures[g].woken && WokenBy(s, g);
      var i :| 0 <= i < Rounds(s) && s.requests[i].waker == g;
      assert s'.requests[i] == s.requests[i];
    }
    forall i | 0 <= i < Rounds(s')
      ensures s'.requests[i].waker in s'.futures && s'.futures[s'.requests[i].waker].woken
    {
      assert s'.requests[i] == s.requests[i];
    }
  }

  lemma LookFutures<K, V>(s: State<K, V>, f: nat)
    requires FutureInv(s) && Enabled(s, Look(f))
    ensures FutureInv(LookUp(s, f))
  {
    var s' := LookUp(s, f);
    HasAskedStays(s, s');
    MovedRequests(s, s', f);
    MovedFutures(s, s', f);
    MovedWoken(s, s', f);
  }

  lemma AskedRequests<K, V>(s: State<K, V>, f: nat)
    requires RequestsKnown(s) && Enabled(s, Ask(f))
    ensures RequestsKnown(Apply(s, Ask(f)))
  {
    var s' := Apply(s, Ask(f));
    forall i | 0 <= i < |s'.requests|
      ensures Known(s', s'.requests[i].waker, s'.requests[i].key, s'.requests[i].factory)
      ensures !s'.futures[s'.requests[i].waker].phase.New? && !s'.futures[s'.requests[i].waker].phase.Missed?
      ensures i < |s.requests| ==> s'.requests[i].waker != f
    {
      if i < |s.requests| {
        assert s'.requests[i] == s.requests[i];
        assert Known(s, s.requests[i].waker, s.requests[i].key, s.requests[i].factory);
      }
    }
  }

  lemma AskFutures<K, V>(s: State<K, V>, f: nat)
    requires FutureInv(s) && Enabled(s, Ask(f))
    ensures FutureInv(Apply(s, Ask(f)))
  {
    var s' := Apply(s, Ask(f));
    HasAskedStays(s, s');
    assert s'.requests[|s.requests|].waker == f;
    AskedRequests(s, f);
    MovedFutures(s, s', f);
    MovedWoken(s, s', f);
  }

  lemma TakeFutures<K, V>(s: State<K, V>)
    requires FutureInv(s) && Enabled(s, Take)
    ensures FutureInv(TakeRequest(s))
  {
    HasAskedStays(s, TakeRequest(s));
  }

  lemma SwapFutures<K, V>(s: State<K, V>)
    requires FutureInv(s) && UpdaterInv(s) && Enabled(s, Swap)
    ensures FutureInv(SwapPointer(s))
  {
    HasAskedStays(s, SwapPointer(s));
  }

  lemma AssignFutures<K, V>(s: State<K, V>)
    requires FutureInv(s) && Enabled(s, Assign)
    ensures FutureInv(Apply(s, Assign))
  {
    HasAskedStays(s, Apply(s, Assign));
  }

  lemma RoundWoken<K, V>(s: State<K, V>, s': State<K, V>)
    requires WokenAfterRound(s) && 0 < s.taken <= |s.requests| && !s.updater.Receiving?
    requires OneMoves(s, s', Current(s).waker) && s'.futures[Current(s).waker].woken
    requires s'.requests == s.requests && Rounds(s') == Rounds(s) + 1 == s.taken
    ensures WokenAfterRound(s')
  {
    forall g <- s'.futures | s'.futures[g].woken ensures WokenBy(s', g) {
      if g == Current(s).waker {
        assert s'.requests[s.taken - 1].waker == g;
      } else {
        assert WokenBy(s, g);
        var i :| 0 <= i < Rounds(s) && s.requests[i].waker == g;
        assert s'.requests[i].waker == g;
      }
    }
  }

  lemma WakeFutures<K, V>(s: State<K, V>)
    requires FutureInv(s) && Enabled(s, Wake)
    ensures FutureInv(Apply(s, Wake))
  {
    var s', f := Apply(s, Wake), Current(s).waker;
    HasAskedStays(s, s');
    assert Known(s, f, Current(s).key, Current(s).factory);
    MovedRequests(s, s', f);
    MovedFutures(s, s', f);
    RoundWoken(s, s');
  }

  lemma ReadFutures<K, V>(s: State<K, V>, key: K)
    requires FutureInv(s)
    ensures FutureInv(Apply(s, Read(key)))
  {
    HasAskedStays(s, Apply(s, Read(key)));
  }

  lemma StepFutures<K, V>(s: State<K, V>, step: Step<K, V>)
    requires Inv(s) && Enabled(s, step)
    ensures FutureInv(Apply(s, step))
  {
    match step
    case Get(key, factory) => GetFutures(s, key, factory);
    case Read(key) => ReadFutures(s, key);
    case Look(f) => LookFutures(s, f);
    case Ask(f) => AskFutures(s, f);
    case Take => TakeFutures(s);
    case Swap => SwapFutures(s);
    case Assign => AssignFutures(s);
    case Wake => WakeFutures(s);
  }

  // ---------- the steps keep it: the effects ----------

  /** An effect that finds its value leaves the replay as it is. */
  lemma EffectFinds<K, V>(effects: seq<Effect<K, V>>, effect: Effect<K, V>)
    requires Legal(effects) && effect.key in Replay(effects) && effect.value == Replay(effects)[effect.key]
    ensures Legal(effects + [effect]) && Replay(effects + [effect]) == Replay(effects)
  {
    assert (effects + [effect])[..|effects|] == effects;
  }

  lemma EffectCreates<K, V>(effects: seq<Effect<K, V>>, effect: Effect<K, V>)
    requires Legal(effects) && effect.key !in Replay(effects) && effect.value == effect.factory(effect.key)
    ensures Legal(effects + [effect]) && Replay(effects + [effect]) == Replay(effects)[effect.key := effect.value]
  {
    assert (effects + [effect])[..|effects|] == effects;
  }

  lemma HasEffectStays<K, V>(s: State<K, V>, s': State<K, V>)
    requires |s.effects| <= |s'.effects| && s'.effects[..|s.effects|] == s.effects
    ensures forall f :: HasEffect(s, f) ==> HasEffect(s', f)
  {
    forall f | HasEffect(s, f) ensures HasEffect(s', f) {
      var i :| 0 <= i < |s.effects| && s.effects[i].future == f;
      assert s'.effects[i] == s.effects[i];
    }
  }

  lemma EffectedHas<K, V>(s: State<K, V>, f: nat, key: K, factory: K -> V, value: V, s': State<K, V>)
    requires s'.effects == Effected(s, f, key, factory, value)
    ensures HasEffect(s', f) && forall g :: HasEffect(s, g) ==> HasEffect(s', g)
  {
    HasEffectStays(s, s');
    if !HasEffect(s, f) {
      assert s'.effects[|s.effects|].future == f;
    }
  }

  /** A get takes effect at a moment when its key is published. */
  lemma EffectedKnown<K, V>(s: State<K, V>, f: nat, key: K, factory: K -> V, s': State<K, V>)
    requires EffectsKnown(s) && Known(s, f, key, factory)
    requires s'.published.Keys >= s.published.Keys && forall k <- s.published :: s'.published[k] == s.published[k]
    requires forall g <- s.futures :: Known(s', g, s.futures[g].key, s.futures[g].factory)
    requires key in s'.published && s'.effects == Effected(s, f, key, factory, s'.published[key])
    ensures EffectsKnown(s')
  {
  }

  lemma FoundReplays<K, V>(s: State<K, V>, f: nat, key: K, factory: K -> V, s': State<K, V>)
    requires Replays(s) && key in s.published && s'.published == s.published
    requires s'.effects == Effected(s, f, key, factory, s.published[key])
    ensures Replays(s')
  {
    if !HasEffect(s, f) {
      EffectFinds(s.effects, Effect(f, key, factory, s.published[key]));
    }
  }

  /** What a step that brings no effect must leave. */
  lemma NoEffect<K, V>(s: State<K, V>, s': State<K, V>)
    requires EffectInv(s) && s'.effects == s.effects && s'.published == s.published
    requires forall f <- s.futures :: Known(s', f, s.futures[f].key, s.futures[f].factory)
    requires forall f <- s'.futures :: s'.futures[f].phase.Done? ==> f in s.futures && s.futures[f].phase.Done?
    requires Served(s') == Served(s)
    requires |s.requests| <= |s'.requests| && s'.requests[..|s.requests|] == s.requests && Served(s) <= |s.requests|
    ensures EffectInv(s')
  {
    HasEffectStays(s, s');
    forall i | 0 <= i < Served(s') && i < |s'.requests| ensures HasEffect(s', s'.requests[i].waker) {
      assert s'.requests[i] == s.requests[i];
    }
    forall i | 0 <= i < |s'.effects| ensures Known(s', s'.effects[i].future, s'.effects[i].key, s'.effects[i].factory) {
      assert Known(s, s.effects[i].future, s.effects[i].key, s.effects[i].factory);
    }
  }

  lemma LookFinds<K, V>(s: State<K, V>, f: nat)
    requires EffectInv(s) && Enabled(s, Look(f)) && s.futures[f].key in s.published
    ensures EffectInv(LookUp(s, f))
  {
    var future, s' := s.futures[f], LookUp(s, f);
    EffectedHas(s, f, future.key, future.factory, s.published[future.key], s');
    EffectedKnown(s, f, future.key, future.factory, s');
    FoundReplays(s, f, future.key, future.factory, s');
    assert forall g <- s'.futures :: g != f ==> s'.futures[g] == s.futures[g];
    assert Effective(s');
  }

  lemma LookMisses<K, V>(s: State<K, V>, f: nat)
    requires EffectInv(s) && UpdaterInv(s) && Enabled(s, Look(f)) && s.futures[f].key !in s.published
    ensures EffectInv(LookUp(s, f))
  {
    PhaseMoves(s, f, if s.futures[f].phase.New? then Missed else Panicked);
  }

  lemma PhaseMoves<K, V>(s: State<K, V>, f: nat, phase: Phase<V>)
    requires EffectInv(s) && MapsAgree(s) && f in s.futures && !phase.Done?
    ensures EffectInv(WithPhase(s, f, phase))
  {
    var s' := WithPhase(s, f, phase);
    MovesKnown(s, s', f);
    NoEffect(s, s');
  }

  lemma LookEffects<K, V>(s: State<K, V>, f: nat)
    requires EffectInv(s) && UpdaterInv(s) && Enabled(s, Look(f))
    ensures EffectInv(LookUp(s, f))
  {
    if s.futures[f].key in s.published {
      LookFinds(s, f);
    } else {
      LookMisses(s, f);
    }
  }

  /** A request that finds its key takes effect; another must wait for the swap. */
  lemma TakeEffects<K, V>(s: State<K, V>)
    requires EffectInv(s) && FutureInv(s) && Enabled(s, Take)
    ensures EffectInv(TakeRequest(s))
  {
    var request, s' := s.requests[s.taken], TakeRequest(s);
    assert Known(s, request.waker, request.key, request.factory);
    if request.key in s.published {
      FoundEffects(s, request, s');
    } else {
      NoEffect(s, s');
    }
  }

  lemma FoundEffects<K, V>(s: State<K, V>, request: Request<K, V>, s': State<K, V>)
    requires EffectInv(s) && Known(s, request.waker, request.key, request.factory) && request.key in s.published
    requires s'.published == s.published && s'.futures == s.futures && s'.requests == s.requests
    requires s'.effects == Effected(s, request.waker, request.key, request.factory, s.published[request.key])
    requires 0 <= Served(s) < |s.requests| && s.requests[Served(s)] == request && Served(s') == Served(s) + 1
    ensures EffectInv(s')
  {
    EffectedHas(s, request.waker, request.key, request.factory, s.published[request.key], s');
    EffectedKnown(s, request.waker, request.key, request.factory, s');
    FoundReplays(s, request.waker, request.key, request.factory, s');
  }

  /** Nobody can have seen a value for a key that is only now created. */
  lemma SwapEffects<K, V>(s: State<K, V>)
    requires EffectInv(s) && RequestsKnown(s) && MapsAgree(s) && Enabled(s, Swap)
    ensures EffectInv(SwapPointer(s))
  {
    SwapShape(s);
    SwapBrings(s, SwapPointer(s));
  }

  /** What a swap does to the map, and that nobody has had an effect with its key before. */
  lemma SwapShape<K, V>(s: State<K, V>)
    requires EffectsKnown(s) && RequestsKnown(s) && MapsAgree(s) && Enabled(s, Swap)
    ensures var request, s' := Current(s), SwapPointer(s);
      && Known(s, request.waker, request.key, request.factory) && !HasEffect(s, request.waker)
      && request.key !in s.published
      && s'.published == s.published[request.key := request.factory(request.key)]
      && s'.effects == s.effects + [Effect(request.waker, request.key, request.factory, s'.published[request.key])]
      && s'.futures == s.futures && s'.requests == s.requests
      && Served(s) == s.taken - 1 && Served(s') == s.taken
  {
    var request := Current(s);
    assert Known(s, request.waker, request.key, request.factory);
    forall i | 0 <= i < |s.effects| ensures s.effects[i].future != request.waker {
      assert Known(s, s.effects[i].future, s.effects[i].key, s.effects[i].factory);
    }
  }

  ghost predicate Brings<K, V>(s: State<K, V>, s': State<K, V>, request: Request<K, V>) {
    && Known(s, request.waker, request.key, request.factory) && !HasEffect(s, request.waker)
    && request.key !in s.published
    && s'.published == s.published[request.key := request.factory(request.key)]
    && s'.effects == s.effects + [Effect(request.waker, request.key, request.factory, s'.published[request.key])]
    && s'.futures == s.futures && s'.requests == s.requests
  }

  lemma BringsKnown<K, V>(s: State<K, V>, s': State<K, V>, request: Request<K, V>)
    requires EffectsKnown(s) && Brings(s, s', request)
    ensures EffectsKnown(s')
  {
    EffectedKnown(s, request.waker, request.key, request.factory, s');
  }

  lemma BringsReplays<K, V>(s: State<K, V>, s': State<K, V>, request: Request<K, V>)
    requires Replays(s) && Brings(s, s', request)
    ensures Replays(s')
  {
    EffectCreates(s.effects, Effect(request.waker, request.key, request.factory, s'.published[request.key]));
  }

  lemma BringsEffective<K, V>(s: State<K, V>, s': State<K, V>, request: Request<K, V>)
    requires Effective(s) && Brings(s, s', request)
    requires 0 <= Served(s) < |s.requests| && Served(s') == Served(s) + 1 && s.requests[Served(s)] == request
    ensures Effective(s')
  {
    EffectedHas(s, request.waker, request.key, request.factory, s'.published[request.key], s');
    forall i | 0 <= i < Served(s') && i < |s'.requests| ensures HasEffect(s', s'.requests[i].waker) {
      if i < Served(s) {
        assert HasEffect(s, s.requests[i].waker);
      }
    }
  }

  lemma SwapBrings<K, V>(s: State<K, V>, s': State<K, V>)
    requires EffectInv(s) && 0 < s.taken <= |s.requests| && Brings(s, s', Current(s))
    requires Served(s) == s.taken - 1 && Served(s') == s.taken
    ensures EffectInv(s')
  {
    BringsKnown(s, s', Current(s));
    BringsReplays(s, s', Current(s));
    BringsEffective(s, s', Current(s));
  }

  lemma GetEffects<K, V>(s: State<K, V>, key: K, factory: K -> V)
    requires EffectInv(s) && FuturesKnown(s) && 0 <= Served(s) <= |s.requests|
    ensures EffectInv(Apply(s, Get(key, factory)))
  {
    var s' := Apply(s, Get(key, factory));
    NewcomerKnown(s, s', key, factory);
    NoEffect(s, s');
  }

  lemma NewcomerKnown<K, V>(s: State<K, V>, s': State<K, V>, key: K, factory: K -> V)
    requires FuturesKnown(s) && s'.futures == s.futures[s.created := Future(key, factory, New, false)]
    ensures forall f <- s.futures :: Known(s', f, s.futures[f].key, s.futures[f].factory)
    ensures forall f <- s'.futures :: s'.futures[f].phase.Done? ==> f in s.futures && s.futures[f].phase.Done?
  {
    assert forall f <- s.futures :: f < s.created;
  }

  lemma AskEffects<K, V>(s: State<K, V>, f: nat)
    requires EffectInv(s) && UpdaterInv(s) && Enabled(s, Ask(f))
    ensures EffectInv(Apply(s, Ask(f)))
  {
    NoEffect(s, Apply(s, Ask(f)));
  }

  lemma MovesKnown<K, V>(s: State<K, V>, s': State<K, V>, f: nat)
    requires OneMoves(s, s', f)
    ensures forall g <- s.futures :: Known(s', g, s.futures[g].key, s.futures[g].factory)
  {
  }

  lemma AssignEffects<K, V>(s: State<K, V>)
    requires EffectInv(s) && MapsAgree(s) && Enabled(s, Assign)
    ensures EffectInv(Apply(s, Assign))
  {
    var s' := Apply(s, Assign);
    assert s'.futures == s.futures && s'.effects == s.effects && s'.published == s.published && s'.requests == s.requests;
    assert Served(s') == Served(s);
    NoEffect(s, s');
  }

  lemma WakeEffects<K, V>(s: State<K, V>)
    requires EffectInv(s) && MapsAgree(s) && Enabled(s, Wake)
    ensures EffectInv(Apply(s, Wake))
  {
    var s', f := Apply(s, Wake), Current(s).waker;
    if f in s.futures {
      assert OneMoves(s, s', f) && s'.futures[f].phase == s.futures[f].phase;
      MovesKnown(s, s', f);
    }
    assert Served(s') == Served(s);
    NoEffect(s, s');
  }

  lemma ReadEffects<K, V>(s: State<K, V>, key: K)
    requires EffectInv(s) && UpdaterInv(s)
    ensures EffectInv(Apply(s, Read(key)))
  {
    var s' := Apply(s, Read(key));
    assert s'.futures == s.futures && s'.effects == s.effects && s'.published == s.published && s'.requests == s.requests;
    NoEffect(s, s');
  }

  lemma StepEffects<K, V>(s: State<K, V>, step: Step<K, V>)
    requires Inv(s) && Enabled(s, step)
    ensures EffectInv(Apply(s, step))
  {
    match step
    case Look(f) => LookEffects(s, f);
    case Take => TakeEffects(s);
    case Swap => SwapEffects(s);
    case Get(key, factory) => GetEffects(s, key, factory);
    case Read(key) => ReadEffects(s, key);
    case Ask(f) => AskEffects(s, f);
    case Assign => AssignEffects(s);
    case Wake => WakeEffects(s);
  }

  lemma ReadsStay<K, V>(s: State<K, V>, s': State<K, V>)
    requires ReadsKnown(s) && IsPrefix(s.effects, s'.effects) && s'.sights == s.sights
    ensures ReadsKnown(s')
  {
    forall i | 0 <= i < |s'.sights|
      ensures s'.sights[i].at <= |s'.effects| && s'.sights[i].answer == Find(Replay(s'.effects[..s'.sights[i].at]), s'.sights[i].key)
    {
      assert s'.effects[..s.sights[i].at] == s'.effects[..|s.effects|][..s.sights[i].at];
    }
  }

  lemma ReadIsKnown<K, V>(s: State<K, V>, key: K)
    requires ReadsKnown(s) && Replay(s.effects) == s.published
    ensures ReadsKnown(Apply(s, Read(key)))
  {
    assert s.effects[..|s.effects|] == s.effects;
  }

  lemma StepReads<K, V>(s: State<K, V>, step: Step<K, V>)
    requires ReadsKnown(s) && Replay(s.effects) == s.published && Enabled(s, step)
    ensures ReadsKnown(Apply(s, step))
  {
    HistoryGrows(s, step);
    match step
    case Read(key) => ReadIsKnown(s, key);
    case _ => ReadsStay(s, Apply(s, step));
  }

  lemma StepInv<K, V>(s: State<K, V>, step: Step<K, V>)
    requires Inv(s) && Enabled(s, step)
    ensures Inv(Apply(s, step))
  {
    StepUpdater(s, step);
    StepFutures(s, step);
    StepEffects(s, step);
    StepReads(s, step);
  }

  lemma {:induction false} RunInv<K, V>(s: State<K, V>, steps: seq<Step<K, V>>)
    requires Inv(s) && IsRun(s, steps)
    ensures Inv(After(s, steps))
    decreases |steps|
  {
    if steps != [] {
      StepInv(s, steps[0]);
      RunInv(Apply(s, steps[0]), steps[1..]);
    }
  }

  lemma ReachableInv<K(!new), V(!new)>(s: State<K, V>)
    requires Reachable(s)
    ensures Inv(s)
  {
    var steps :| IsRun(Initial(), steps) && After(Initial(), steps) == s;
    RunInv<K, V>(Initial(), steps);
  }

  // ---------- guarantees ----------

  /** At every boundary of the updater's steps its map is the published one, but between the swap and the assignment. */
  lemma OwnedIsPublished<K(!new), V(!new)>(s: State<K, V>)
    requires Reachable(s) && !s.updater.Assigning?
    ensures s.owned == s.published
  {
    ReachableInv(s);
  }

  ghost predicate MapGrows<K, V>(m: map<K, V>, m': map<K, V>) {
    forall key <- m :: key in m' && m'[key] == m[key]
  }

  /** While the updater runs no key disappears and no value changes. */
  lemma {:induction false} KeysStay<K, V>(s: State<K, V>, steps: seq<Step<K, V>>)
    requires Inv(s) && IsRun(s, steps)
    ensures MapGrows(s.published, After(s, steps).published)
    decreases |steps|
  {
    if steps != [] {
      StepInv(s, steps[0]);
      StepGrows(s, steps[0]);
      KeysStay(Apply(s, steps[0]), steps[1..]);
    }
  }

  lemma StepGrows<K, V>(s: State<K, V>, step: Step<K, V>)
    requires MapsAgree(s) && Enabled(s, step)
    ensures MapGrows(s.published, Apply(s, step).published)
  {
  }

  ghost predicate IsPrefix<T>(xs: seq<T>, ys: seq<T>) {
    |xs| <= |ys| && ys[..|xs|] == xs
  }

  lemma PrefixOfPrefix<T>(xs: seq<T>, ys: seq<T>, zs: seq<T>)
    requires IsPrefix(xs, ys) && IsPrefix(ys, zs)
    ensures IsPrefix(xs, zs)
  {
    assert zs[..|xs|] == zs[..|ys|][..|xs|];
  }

  lemma HistoryGrows<K, V>(s: State<K, V>, step: Step<K, V>)
    requires Enabled(s, step)
    ensures IsPrefix(s.effects, Apply(s, step).effects) && IsPrefix(s.requests, Apply(s, step).requests)
    ensures IsPrefix(s.sights, Apply(s, step).sights)
  {
  }

  /** A factory is called at most once for a key, whoever asks and however often; the keys published are those it was called for. */
  lemma FactoryOnce<K(!new), V(!new)>(s: State<K, V>)
    requires Reachable(s)
    ensures forall i, j :: 0 <= i < j < |s.made| ==> s.made[i] != s.made[j]
    ensures forall key <- s.published :: key in s.made
    ensures s.updater.Receiving? ==> forall key <- s.made :: key in s.published
  {
    ReachableInv(s);
  }

  /** And no future hands its factory over twice. */
  lemma FactoryTakenOnce<K(!new), V(!new)>(s: State<K, V>, i: nat, j: nat)
    requires Reachable(s) && i < j < |s.requests|
    ensures s.requests[i].waker != s.requests[j].waker
  {
    ReachableInv(s);
  }

  /**
   Linearizability. The gets take effect one after another, each at most once, with the
   results that an indivisible get-or-create gives them in that order, and the published
   map is what such a map holds after them. A get that has answered has taken effect with
   the value that it answered; one that has not been called has not. A `get_if_present` has
   answered what the map held at its place among the effects.
   */
  lemma Linearizable<K(!new), V(!new)>(s: State<K, V>)
    requires Reachable(s)
    ensures Legal(s.effects) && Replay(s.effects) == s.published
    ensures forall i, j :: 0 <= i < j < |s.effects| ==> s.effects[i].future != s.effects[j].future
    ensures forall i :: 0 <= i < |s.effects| ==>
              Known(s, s.effects[i].future, s.effects[i].key, s.effects[i].factory) && s.effects[i].future < s.created
    ensures forall f <- s.futures :: s.futures[f].phase.Done? ==>
              exists i :: 0 <= i < |s.effects| && s.effects[i].future == f && s.effects[i].value == s.futures[f].phase.value
    ensures forall i :: 0 <= i < |s.sights| ==>
              && s.sights[i].at <= |s.effects|
              && var m, key := Replay(s.effects[..s.sights[i].at]), s.sights[i].key;
                 if key in m then s.sights[i].answer == Some(m[key]) else s.sights[i].answer == None
    ensures forall i, j :: 0 <= i < j < |s.sights| ==> s.sights[i].at <= s.sights[j].at
  {
    ReachableInv(s);
    forall f <- s.futures | s.futures[f].phase.Done?
      ensures exists i :: 0 <= i < |s.effects| && s.effects[i].future == f && s.effects[i].value == s.futures[f].phase.value
    {
      assert HasEffect(s, f);
      var i :| 0 <= i < |s.effects| && s.effects[i].future == f;
      assert Known(s, f, s.effects[i].key, s.effects[i].factory);
    }
  }

  /**
   Effects only come after those there are, so a get that answers before another is called
   comes before it, and a look at the map comes after every get that has answered by then
   and before every get that has not been called yet.
   */
  lemma {:induction false} EffectsOnlyGrow<K, V>(s: State<K, V>, steps: seq<Step<K, V>>)
    requires IsRun(s, steps)
    ensures IsPrefix(s.effects, After(s, steps).effects) && IsPrefix(s.requests, After(s, steps).requests)
    ensures IsPrefix(s.sights, After(s, steps).sights)
    decreases |steps|
  {
    if steps != [] {
      var s1 := Apply(s, steps[0]);
      HistoryGrows(s, steps[0]);
      EffectsOnlyGrow(s1, steps[1..]);
      PrefixOfPrefix(s.effects, s1.effects, After(s1, steps[1..]).effects);
      PrefixOfPrefix(s.requests, s1.requests, After(s1, steps[1..]).requests);
      PrefixOfPrefix(s.sights, s1.sights, After(s1, steps[1..]).sights);
    }
  }

  /** All gets of one key answer one value. */
  lemma OneValuePerKey<K(!new), V(!new)>(s: State<K, V>, f: nat, g: nat)
    requires Reachable(s) && f in s.futures && g in s.futures && s.futures[f].key == s.futures[g].key
    requires s.futures[f].phase.Done? && s.futures[g].phase.Done?
    ensures s.futures[f].phase == s.futures[g].phase
  {
    ReachableInv(s);
  }

  /**
   When a poll panics: exactly when the future has been polled before and no request for
   its key has been served yet.
   */
  lemma PollPanicsExactly<K(!new), V(!new)>(s: State<K, V>, f: nat)
    requires Reachable(s) && Enabled(s, Look(f))
    ensures Served(s) <= |s.requests|
    ensures Apply(s, Look(f)).futures[f].phase.Panicked?
            <==> s.futures[f].phase.Asked? && forall i :: 0 <= i < Served(s) ==> s.requests[i].key != s.futures[f].key
  {
    ReachableInv(s);
    var key := s.futures[f].key;
    if key in s.published {
      assert ServedFor(s, key);
    }
  }

  /** It can come to that: a future polled twice before the updater has done anything panics. */
  lemma PollingTooSoonPanics<K(!new), V(!new)>(key: K, factory: K -> V)
    ensures var s: State<K, V>, steps: seq<Step<K, V>> := Initial(), [Get(key, factory), Look(0), Ask(0)];
      && IsRun(s, steps) && Enabled(After(s, steps), Look(0))
      && Apply(After(s, steps), Look(0)).futures[0].phase.Panicked?
  {
    var s0: State<K, V> := Initial();
    var s1 := Apply(s0, Get(key, factory));
    var s2 := LookUp(s1, 0);
    var s3 := Apply(s2, Ask(0));
    assert s2.futures[0].phase.Missed? && s3.futures[0].phase.Asked?;
    var last: seq<Step<K, V>> := [Ask(0)];
    var rest := [Look(0)] + last;
    Cons(s2, Ask(0), []);
    assert [Ask(0)] + [] == last;
    Cons(s1, Look(0), last);
    Cons(s0, Get(key, factory), rest);
    assert [Get(key, factory)] + rest == [Get(key, factory), Look(0), Ask(0)];
  }

  /** The key is there before the waker is called, so the poll after it answers, with the map's value. */
  lemma WokenIsReady<K(!new), V(!new)>(s: State<K, V>, f: nat)
    requires Reachable(s) && f in s.futures && s.futures[f].woken
    ensures s.futures[f].key in s.published
    ensures Enabled(s, Look(f)) ==> Apply(s, Look(f)).futures[f].phase == Done(s.published[s.futures[f].key])
  {
    ReachableInv(s);
    WokenKey(s, f);
  }

  lemma WokenKey<K, V>(s: State<K, V>, f: nat)
    requires WokenAfterRound(s) && RequestsKnown(s) && KeysServed(s) && Rounds(s) <= Served(s)
    requires f in s.futures && s.futures[f].woken
    ensures s.futures[f].key in s.published
  {
    assert WokenBy(s, f);
    var i :| 0 <= i < Rounds(s) && s.requests[i].waker == f;
    assert Known(s, f, s.requests[i].key, s.requests[i].factory);
  }

  /** Futures are polled again only when they have been woken. */
  ghost predicate WakeOnly<K, V>(s: State<K, V>, steps: seq<Step<K, V>>)
    requires IsRun(s, steps)
    decreases |steps|
  {
    steps == [] ||
    (&& (steps[0].Look? && s.futures[steps[0].future].phase.Asked? ==> s.futures[steps[0].future].woken)
     && WakeOnly(Apply(s, steps[0]), steps[1..]))
  }

  ghost predicate NonePanicked<K, V>(s: State<K, V>) {
    forall f <- s.futures :: !s.futures[f].phase.Panicked?
  }

  lemma StepPanicsNone<K, V>(s: State<K, V>, step: Step<K, V>)
    requires NonePanicked(s) && Enabled(s, step)
    requires step.Look? && s.futures[step.future].phase.Asked? ==> s.futures[step.future].key in s.published
    ensures NonePanicked(Apply(s, step))
  {
  }

  /** Then no poll ever panics. */
  lemma {:induction false} WakeOnlyNeverPanics<K, V>(s: State<K, V>, steps: seq<Step<K, V>>)
    requires Inv(s) && NonePanicked(s) && IsRun(s, steps) && WakeOnly(s, steps)
    ensures NonePanicked(After(s, steps))
    decreases |steps|
  {
    if steps != [] {
      if steps[0].Look? && s.futures[steps[0].future].phase.Asked? {
        WokenKey(s, steps[0].future);
      }
      StepPanicsNone(s, steps[0]);
      StepInv(s, steps[0]);
      WakeOnlyNeverPanics(Apply(s, steps[0]), steps[1..]);
    }
  }

  /** A future that waits has its one request in the queue, in the updater's hands, or behind it, and then it has been woken. */
  lemma PendingIsOnItsWay<K(!new), V(!new)>(s: State<K, V>, f: nat)
    requires Reachable(s) && f in s.futures && s.futures[f].phase.Asked?
    ensures exists i :: 0 <= i < |s.requests| && s.requests[i].waker == f && (i < Rounds(s) <==> s.futures[f].woken)
  {
    ReachableInv(s);
    PendingRequest(s, f);
  }

  lemma PendingRequest<K, V>(s: State<K, V>, f: nat)
    requires RequestsKnown(s) && WokenAfterRound(s) && f in s.futures && HasAsked(s, f)
    ensures exists i :: 0 <= i < |s.requests| && s.requests[i].waker == f && (i < Rounds(s) <==> s.futures[f].woken)
  {
    var i :| 0 <= i < |s.requests| && s.requests[i].waker == f;
    if s.futures[f].woken {
      assert WokenBy(s, f);
      var j :| 0 <= j < Rounds(s) && s.requests[j].waker == f;
      assert i == j;
    }
  }

  function Wakes<K, V>(steps: seq<Step<K, V>>): nat {
    if steps == [] then 0 else (if steps[0].Wake? then 1 else 0) + Wakes(steps[1..])
  }

  lemma RoundPasses<K, V>(s: State<K, V>, step: Step<K, V>)
    requires MapsAgree(s) && Enabled(s, step)
    ensures Rounds(Apply(s, step)) == Rounds(s) + if step.Wake? then 1 else 0
  {
  }

  lemma {:induction false} RoundsPass<K, V>(s: State<K, V>, steps: seq<Step<K, V>>)
    requires Inv(s) && IsRun(s, steps)
    ensures Rounds(After(s, steps)) == Rounds(s) + Wakes(steps)
    decreases |steps|
  {
    if steps != [] {
      StepInv(s, steps[0]);
      RoundPasses(s, steps[0]);
      RoundsPass(Apply(s, steps[0]), steps[1..]);
    }
  }

  /**
   Progress: its place in the queue says how long a future waits. Once the updater has gone
   round as often as there are requests up to and including the future's, it is woken.
   */
  lemma ServedInTurn<K(!new), V(!new)>(s: State<K, V>, i: nat, steps: seq<Step<K, V>>)
    requires Reachable(s) && i < |s.requests| && IsRun(s, steps) && Wakes(steps) > i - Rounds(s)
    ensures var s', f := After(s, steps), s.requests[i].waker;
      f in s'.futures && s'.futures[f].woken && s'.futures[f].key in s'.published
  {
    ReachableInv(s);
    RoundsPass(s, steps);
    EffectsOnlyGrow(s, steps);
    RunInv(s, steps);
    var s', f := After(s, steps), s.requests[i].waker;
    assert s'.requests[i] == s.requests[i];
    assert Known(s', f, s'.requests[i].key, s'.requests[i].factory);
  }

  /** And the updater is never stuck: it can go on as long as it is in a round or a request waits. */
  lemma UpdaterGoesOn<K(!new), V(!new)>(s: State<K, V>)
    requires Reachable(s) && Rounds(s) < |s.requests|
    ensures Enabled(s, Take) || Enabled(s, Swap) || Enabled(s, Assign) || Enabled(s, Wake)
  {
    ReachableInv(s);
    NeverStuck(s);
  }

  lemma NeverStuck<K, V>(s: State<K, V>)
    requires MapsAgree(s) && Rounds(s) < |s.requests|
    ensures Enabled(s, Take) || Enabled(s, Swap) || Enabled(s, Assign) || Enabled(s, Wake)
  {
    match s.updater
    case Receiving => assert Enabled(s, Take);
    case Swapping(_) => assert Enabled(s, Swap);
    case Assigning(_) => assert Enabled(s, Assign);
    case Waking => assert Enabled(s, Wake);
  }

  /** The steps of a round that nothing interrupts. */
  function Round<K(==), V>(s: State<K, V>): seq<Step<K, V>>
    requires Enabled(s, Take)
  {
    if s.requests[s.taken].key in s.published then [Take, Wake] else [Take, Swap, Assign, Wake]
  }

  lemma Cons<K, V>(s: State<K, V>, step: Step<K, V>, rest: seq<Step<K, V>>)
    requires Enabled(s, step) && IsRun(Apply(s, step), rest)
    ensures IsRun(s, [step] + rest) && After(s, [step] + rest) == After(Apply(s, step), rest)
  {
    assert ([step] + rest)[1..] == rest;
  }

  /** A round is what `NonLockingMap.Serve` does in one go: an indivisible get-or-create, and the waker called. */
  lemma RoundProvides<K(!new), V(!new)>(s: State<K, V>)
    requires Reachable(s) && Enabled(s, Take)
    ensures IsRun(s, Round(s))
    ensures var request, s' := s.requests[s.taken], After(s, Round(s));
      && s'.published == s'.owned == Provided(s.published, request.key, request.factory)
      && s'.updater.Receiving? && s'.taken == s.taken + 1 && s'.requests == s.requests
      && request.waker in s'.futures && s'.futures[request.waker].woken
  {
    ReachableInv(s);
    var request := s.requests[s.taken];
    assert Known(s, request.waker, request.key, request.factory);
    if request.key in s.published {
      FoundRound(s);
    } else {
      CreatingRound(s);
    }
  }

  lemma FoundRound<K, V>(s: State<K, V>)
    requires MapsAgree(s) && Enabled(s, Take) && s.requests[s.taken].key in s.published && s.requests[s.taken].waker in s.futures
    ensures var request, steps := s.requests[s.taken], [Take, Wake];
      && IsRun(s, steps)
      && var s' := After(s, steps);
         && s'.published == s'.owned == s.published
         && s'.updater.Receiving? && s'.taken == s.taken + 1 && s'.requests == s.requests
         && request.waker in s'.futures && s'.futures[request.waker].woken
  {
    var s1 := TakeRequest(s);
    assert Current(s1) == s.requests[s.taken];
    var rest: seq<Step<K, V>> := [Wake];
    Cons(s1, Wake, []);
    Cons(s, Take, rest);
    assert [Take] + rest == [Take, Wake] && [Wake] + [] == rest;
  }

  lemma CreatingRound<K, V>(s: State<K, V>)
    requires MapsAgree(s) && Enabled(s, Take) && s.requests[s.taken].key !in s.published && s.requests[s.taken].waker in s.futures
    ensures var request, steps := s.requests[s.taken], [Take, Swap, Assign, Wake];
      && IsRun(s, steps)
      && var s' := After(s, steps);
         && s'.published == s'.owned == Provided(s.published, request.key, request.factory)
         && s'.updater.Receiving? && s'.taken == s.taken + 1 && s'.requests == s.requests
         && request.waker in s'.futures && s'.futures[request.waker].woken
  {
    var s1 := TakeRequest(s);
    var s2 := SwapPointer(s1);
    var s3 := Apply(s2, Assign);
    assert Current(s1) == Current(s2) == Current(s3) == s.requests[s.taken];
    var rest3: seq<Step<K, V>> := [Wake];
    var rest2 := [Assign] + rest3;
    var rest1 := [Swap] + rest2;
    Cons(s3, Wake, []);
    assert [Wake] + [] == rest3;
    Cons(s2, Assign, rest3);
    Cons(s1, Swap, rest2);
    Cons(s, Take, rest1);
    assert [Take] + rest1 == [Take, Swap, Assign, Wake];
  }
}

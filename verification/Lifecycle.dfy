/**
 The life of one client subscription id, as seen in the events put on a session's channel,
 and two independent readings of it: as the word of a regular language, and as a split of
 the messages into those handled and those still queued.
 */
module Lifecycle {
  import opened Types

  datatype Phase =
    | Idle
    | Refused(destination: DestinationId, reason: string)
    | Open(destination: DestinationId, subscription: SubscriptionId, messages: seq<OutboundMessage>)
    | Ended(destination: DestinationId, subscription: SubscriptionId, messages: seq<OutboundMessage>)
    | Broken

  /** Is the event about client subscription `id`? */
  predicate Concerns(event: ClientEvent, id: SubscriptionId) {
    (event.Subscribed? || event.ServerMessage? || event.Unsubscribed?) && event.subscription == id
  }

  function Advance(phase: Phase, event: ClientEvent): Phase {
    match event
    case Subscribed(d, _, result) =>
      if !phase.Idle? then Broken
      else (match result case Ok(s) => Open(d, s, []) case Err(reason) => Phase.Refused(d, reason))
    case ServerMessage(_, message) =>
      if phase.Open? then Open(phase.destination, phase.subscription, phase.messages + [message]) else Broken
    case Unsubscribed(_, result) =>
      if phase.Open? && result == Ok(phase.subscription)
      then Ended(phase.destination, phase.subscription, phase.messages)
      else Broken
    case _ => phase
  }

  function PhaseOf(events: seq<ClientEvent>, id: SubscriptionId): Phase {
    if events == [] then Idle
    else
      var before, last := PhaseOf(events[..|events| - 1], id), events[|events| - 1];
      if Concerns(last, id) then Advance(before, last) else before
  }

  lemma PhaseOfPush(events: seq<ClientEvent>, event: ClientEvent, id: SubscriptionId)
    ensures PhaseOf(events + [event], id)
            == if Concerns(event, id) then Advance(PhaseOf(events, id), event) else PhaseOf(events, id)
  {
    assert (events + [event])[..|events|] == events;
  }

  /** Messages a phase has seen. */
  function MessagesIn(phase: Phase): seq<OutboundMessage> {
    if phase.Open? || phase.Ended? then phase.messages else []
  }

  /** The messages for `id` among the events. */
  function MessagesFor(events: seq<ClientEvent>, id: SubscriptionId): seq<OutboundMessage> {
    if events == [] then []
    else
      var last := events[|events| - 1];
      MessagesFor(events[..|events| - 1], id)
      + if last.ServerMessage? && last.subscription == id then [last.message] else []
  }

  /** `earlier` may have developed into `later`. */
  predicate DevelopsInto(earlier: Phase, later: Phase) {
    match earlier
    case Idle => !later.Broken?
    case Refused(_, _) => later == earlier
    case Open(d, s, messages) =>
      (later.Open? || later.Ended?) && later.destination == d && later.subscription == s && messages <= later.messages
    case Ended(_, _, _) => later == earlier
    case Broken => later.Broken?
  }

  /** An intact history was intact at every earlier time. */
  lemma {:induction false} PrefixDevelops(events: seq<ClientEvent>, n: nat, id: SubscriptionId)
    requires n <= |events| && !PhaseOf(events, id).Broken?
    ensures !PhaseOf(events[..n], id).Broken?
    ensures DevelopsInto(PhaseOf(events[..n], id), PhaseOf(events, id))
    ensures MessagesIn(PhaseOf(events, id)) == MessagesIn(PhaseOf(events[..n], id)) + MessagesFor(events[n..], id)
    decreases |events| - n
  {
    if n == |events| {
      assert events[..n] == events;
    } else {
      var init, last := events[..|events| - 1], events[|events| - 1];
      assert events == init + [last];
      PhaseOfPush(init, last, id);
      assert init[..n] == events[..n];
      PrefixDevelops(init, n, id);
      assert events[n..] == init[n..] + [last];
      MessagesForPush(init[n..], last, id);
      MessagesDevelop(PhaseOf(events[..n], id), PhaseOf(init, id), MessagesFor(init[n..], id), last, id);
    }
  }

  lemma MessagesForPush(events: seq<ClientEvent>, event: ClientEvent, id: SubscriptionId)
    ensures MessagesFor(events + [event], id)
            == MessagesFor(events, id) + if event.ServerMessage? && event.subscription == id then [event.message] else []
  {
    assert (events + [event])[..|events|] == events;
  }

  /** One event more in a development. */
  lemma MessagesDevelop(earlier: Phase, before: Phase, between: seq<OutboundMessage>, event: ClientEvent, id: SubscriptionId)
    requires DevelopsInto(earlier, before) && MessagesIn(before) == MessagesIn(earlier) + between
    requires !before.Broken? && (Concerns(event, id) ==> !Advance(before, event).Broken?)
    ensures var later := if Concerns(event, id) then Advance(before, event) else before;
      && DevelopsInto(earlier, later)
      && MessagesIn(later)
         == MessagesIn(earlier) + (between + if event.ServerMessage? && event.subscription == id then [event.message] else [])
  {
    assert (MessagesIn(earlier) + between) + [] == MessagesIn(earlier) + (between + []);
    if event.ServerMessage? {
      assert (MessagesIn(earlier) + between) + [event.message] == MessagesIn(earlier) + (between + [event.message]);
    }
  }

  /** A development that has ended did so by an Unsubscribed event on the way. */
  lemma {:induction false} EndingEvent(events: seq<ClientEvent>, n: nat, id: SubscriptionId)
    requires n <= |events| && PhaseOf(events[..n], id).Open? && PhaseOf(events, id).Ended?
    ensures Unsubscribed(id, Ok(PhaseOf(events, id).subscription)) in events[n..]
    decreases |events| - n
  {
    assert events[..|events|] == events;
    if n < |events| {
      var init, last := events[..|events| - 1], events[|events| - 1];
      assert init[..n] == events[..n];
      assert events[n..] == init[n..] + [last];
      if PhaseOf(init, id).Ended? {
        EndingEvent(init, n, id);
      }
    }
  }

  /** In an intact history nothing about an id follows its Unsubscribed event. */
  lemma {:induction false} EndedIsFinal(events: seq<ClientEvent>, i: nat, j: nat, id: SubscriptionId)
    requires i < j < |events| && !PhaseOf(events, id).Broken? && Concerns(events[i], id) && events[i].Unsubscribed?
    ensures !Concerns(events[j], id)
    decreases |events|
  {
    var init, last := events[..|events| - 1], events[|events| - 1];
    assert events == init + [last];
    PhaseOfPush(init, last, id);
    if j < |init| {
      EndedIsFinal(init, i, j, id);
    } else {
      EndedBy(init, i, id);
    }
  }

  /** A history that holds the Unsubscribed event of an id has ended. */
  lemma EndedBy(events: seq<ClientEvent>, i: nat, id: SubscriptionId)
    requires i < |events| && !PhaseOf(events, id).Broken? && Concerns(events[i], id) && events[i].Unsubscribed?
    ensures PhaseOf(events, id).Ended?
  {
    PrefixDevelops(events, i + 1, id);
    assert events[..i + 1] == events[..i] + [events[i]];
    PhaseOfPush(events[..i], events[i], id);
  }

  // ---------- the regular language ----------

  function Deliveries(messages: seq<OutboundMessage>, id: SubscriptionId): seq<ClientEvent> {
    seq(|messages|, i requires 0 <= i < |messages| => ServerMessage(id, messages[i]))
  }

  /** The one word that each intact phase stands for. */
  function Script(phase: Phase, id: SubscriptionId): seq<ClientEvent> {
    match phase
    case Idle => []
    case Refused(d, reason) => [Subscribed(d, id, Err(reason))]
    case Open(d, s, messages) => [Subscribed(d, id, Ok(s))] + Deliveries(messages, id)
    case Ended(d, s, messages) => [Subscribed(d, id, Ok(s))] + Deliveries(messages, id) + [Unsubscribed(id, Ok(s))]
    case Broken => []
  }

  function About(events: seq<ClientEvent>, id: SubscriptionId): seq<ClientEvent> {
    if events == [] then []
    else
      var last := events[|events| - 1];
      About(events[..|events| - 1], id) + if Concerns(last, id) then [last] else []
  }

  /** Soundness of the automaton: an intact history spells the script of its phase. */
  lemma {:induction false} PhaseIsScript(events: seq<ClientEvent>, id: SubscriptionId)
    requires !PhaseOf(events, id).Broken?
    ensures About(events, id) == Script(PhaseOf(events, id), id)
  {
    if events != [] {
      var init, last := events[..|events| - 1], events[|events| - 1];
      PhaseIsScript(init, id);
      if Concerns(last, id) && last.ServerMessage? {
        var messages := PhaseOf(init, id).messages;
        assert Deliveries(messages + [last.message], id) == Deliveries(messages, id) + [last];
      }
    }
  }

  /** Completeness: a history that spells the script of an intact phase is in that phase. */
  lemma {:induction false} ScriptIsPhase(events: seq<ClientEvent>, id: SubscriptionId, phase: Phase)
    requires !phase.Broken? && About(events, id) == Script(phase, id)
    ensures PhaseOf(events, id) == phase
    decreases |events|, 0
  {
    if events == [] {
      assert |Script(phase, id)| == 0;
    } else {
      var init, last := events[..|events| - 1], events[|events| - 1];
      if Concerns(last, id) {
        ScriptInit(init, last, id, phase);
      } else {
        ScriptIsPhase(init, id, phase);
      }
    }
  }

  lemma {:induction false} ScriptInit(init: seq<ClientEvent>, last: ClientEvent, id: SubscriptionId, phase: Phase)
    requires !phase.Broken? && Concerns(last, id)
    requires About(init, id) + [last] == Script(phase, id)
    ensures Advance(PhaseOf(init, id), last) == phase
    decreases |init|, 1
  {
    var about, script := About(init, id), Script(phase, id);
    assert last == script[|script| - 1] && about == script[..|script| - 1];
    if phase.Ended? {
      var before := Phase.Open(phase.destination, phase.subscription, phase.messages);
      assert about == Script(before, id);
      ScriptIsPhase(init, id, before);
    } else if phase.Open? && phase.messages != [] {
      var n := |phase.messages| - 1;
      var before := Phase.Open(phase.destination, phase.subscription, phase.messages[..n]);
      assert phase.messages == before.messages + [phase.messages[n]];
      assert about == Script(before, id);
      ScriptIsPhase(init, id, before);
    } else {
      assert about == Script(Idle, id);
      ScriptIsPhase(init, id, Idle);
    }
  }
}

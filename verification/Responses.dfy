/**
 From the events of a connection to what is written on it: validation of the first
 message, the session's results, `take_while` alive, and the filter that drops errors and
 empty results.
 */
module Responses {
  import opened Types
  import opened Reactions

  /** One item of the response stream. */
  type Item = Result<(ClientState, Option<Output>)>

  /** `validate_and_connect`; `client` is what the client factory answers. */
  function ValidateAndConnect(first: Option<ClientEvent>, client: Result<()>): Result<HeartBeat> {
    match first
    case Some(ClientFrame(Ok(Connect(acceptVersion, heartbeat)))) =>
      if V1_2 !in acceptVersion then Err("Only STOMP 1.2 is supported")
      else (match client case Ok(_) => Ok(heartbeat) case Err(message) => Err(message))
    case _ => Err("First message must be a CONNECT frame")
  }

  /** What handling the events yields, one item an event. */
  function Results(active: ActiveTable, events: seq<ClientEvent>): seq<Item>
    decreases |events|
  {
    if events == [] then []
    else
      var reaction := React(active, events[0]);
      [Ok((reaction.state, reaction.output))] + Results(reaction.active, events[1..])
  }

  predicate NotDead(item: Item) {
    !(item.Ok? && item.value.0.Dead?)
  }

  function TakeWhileNotDead(items: seq<Item>): seq<Item> {
    if items == [] || !NotDead(items[0]) then [] else [items[0]] + TakeWhileNotDead(items[1..])
  }

  /** `into_opt_ok_of_bytes`: an error or a result without a frame is dropped. */
  function IntoOutput(item: Item): Option<Output> {
    match item
    case Ok((_, output)) => output
    case Err(_) => None
  }

  function FilterMap(items: seq<Item>): seq<Output> {
    if items == [] then []
    else (match IntoOutput(items[0]) case Some(output) => [output] case None => []) + FilterMap(items[1..])
  }

  /** `handle_connection_validation_result`; a rejection does not pass through `take_while`. */
  function ResponseStream(validated: Result<HeartBeat>, events: seq<ClientEvent>): seq<Item> {
    match validated
    case Err(message) => [Ok((Dead, Some(Frame(ServerFrame.Error(message)))))]
    case Ok(heartbeat) => TakeWhileNotDead(Results(map[], [ClientEvent.Connected(Swapped(heartbeat))] + events))
  }

  /** All that is written on a connection, `process_response_stream` included. */
  function WrittenOn(first: Option<ClientEvent>, client: Result<()>, events: seq<ClientEvent>): seq<Output> {
    FilterMap(ResponseStream(ValidateAndConnect(first, client), events) + [Err("Closing stream")])
  }

  // ---------- an independent reading ----------

  /** The first message asks for a connection this server can give, and the application agrees. */
  predicate Acceptable(first: Option<ClientEvent>, client: Result<()>) {
    && first.Some? && first.value.ClientFrame? && first.value.frame.Ok? && first.value.frame.value.Connect?
    && V1_2 in first.value.frame.value.acceptVersion
    && client.Ok?
  }

  /** Every output of every event handled, up to and including the event the session dies of. */
  function Produced(active: ActiveTable, events: seq<ClientEvent>): seq<Output>
    decreases |events|
  {
    if events == [] then []
    else
      var reaction := React(active, events[0]);
      (if reaction.output.Some? then [reaction.output.value] else [])
      + if reaction.state.Dead? then [] else Produced(reaction.active, events[1..])
  }

  /** A session dies without a word, so cutting its last result off cuts no frame off. */
  lemma DeathIsSilent(active: ActiveTable, event: ClientEvent)
    ensures React(active, event).state.Dead? ==> React(active, event).output.None?
  {
  }

  lemma {:induction false} FilterMapConcat(left: seq<Item>, right: seq<Item>)
    ensures FilterMap(left + right) == FilterMap(left) + FilterMap(right)
  {
    if left == [] {
      assert left + right == right;
    } else {
      var both := left + right;
      assert both[0] == left[0] && both[1..] == left[1..] + right;
      FilterMapConcat(left[1..], right);
    }
  }

  /** No frame is lost to `take_while` or to the filter. */
  lemma {:induction false} NoFrameLost(active: ActiveTable, events: seq<ClientEvent>)
    ensures FilterMap(TakeWhileNotDead(Results(active, events))) == Produced(active, events)
    decreases |events|
  {
    if events != [] {
      var reaction := React(active, events[0]);
      var items := Results(active, events);
      DeathIsSilent(active, events[0]);
      assert items[0] == Ok((reaction.state, reaction.output)) && items[1..] == Results(reaction.active, events[1..]);
      NoFrameLost(reaction.active, events[1..]);
      if NotDead(items[0]) {
        var taken := TakeWhileNotDead(items);
        assert taken[0] == items[0] && taken[1..] == TakeWhileNotDead(items[1..]);
      }
    }
  }

  lemma OnlyGreetingConnects(active: ActiveTable, event: ClientEvent)
    requires !event.Connected?
    ensures React(active, event).output.Some? ==> !IsConnected(React(active, event).output.value)
  {
  }

  lemma {:induction false} ProducedNeverGreets(active: ActiveTable, events: seq<ClientEvent>)
    requires forall event <- events :: !event.Connected?
    ensures forall output <- Produced(active, events) :: !IsConnected(output)
    decreases |events|
  {
    if events != [] {
      OnlyGreetingConnects(active, events[0]);
      ProducedNeverGreets(React(active, events[0]).active, events[1..]);
    }
  }

  lemma ValidationIsRight(first: Option<ClientEvent>, client: Result<()>)
    ensures Acceptable(first, client) <==> ValidateAndConnect(first, client).Ok?
    ensures Acceptable(first, client) ==> ValidateAndConnect(first, client) == Ok(first.value.frame.value.heartbeat)
  {
  }

  /**
   The output language. A connection that is not acceptable gets exactly one ERROR frame;
   an acceptable one gets CONNECTED, with the heartbeat pair swapped, and then everything
   its session produces until it dies, among which there is no second CONNECTED.
   */
  lemma OutputLanguage(first: Option<ClientEvent>, client: Result<()>, events: seq<ClientEvent>)
    requires forall event <- events :: !event.Connected?
    ensures !Acceptable(first, client) ==>
              WrittenOn(first, client, events) == [Frame(ServerFrame.Error(
                if first.Some? && first.value.ClientFrame? && first.value.frame.Ok? && first.value.frame.value.Connect? then
                  if V1_2 !in first.value.frame.value.acceptVersion then "Only STOMP 1.2 is supported" else client.message
                else "First message must be a CONNECT frame"))]
    ensures Acceptable(first, client) ==>
              && WrittenOn(first, client, events)
                 == [Frame(ServerFrame.Connected(V1_2, HeartBeat(first.value.frame.value.heartbeat.expected,
                                                                 first.value.frame.value.heartbeat.supplied)))]
                    + Produced(map[], events)
              && forall output <- Produced(map[], events) :: !IsConnected(output)
  {
    ValidationIsRight(first, client);
    var validated := ValidateAndConnect(first, client);
    FilterMapConcat(ResponseStream(validated, events), [Err("Closing stream")]);
    assert FilterMap([Err("Closing stream")]) == [];
    match validated
    case Err(message) =>
      assert WrittenOn(first, client, events) == [Frame(ServerFrame.Error(message))];
    case Ok(heartbeat) =>
      var greeting := ClientEvent.Connected(Swapped(heartbeat));
      NoFrameLost(map[], [greeting] + events);
      assert ([greeting] + events)[1..] == events;
      ProducedNeverGreets(map[], events);
  }

  // ---------- heartbeat negotiation ----------

  const HEARTBEAT_BUFFER_PERCENT: nat := 20

  /** `supplied * (HEARTBEAT_BUFFER_PERCENT + 100) / 100` in 32 bits; the product wraps around, or panics in a checked build. */
  function GraceMillis(supplied: u32): nat {
    (supplied as nat * (HEARTBEAT_BUFFER_PERCENT + 100)) % U32_SIZE / 100
  }

  predicate GraceOverflows(supplied: u32) {
    supplied as nat * (HEARTBEAT_BUFFER_PERCENT + 100) >= U32_SIZE
  }

  /** STOMP 1.2, "Heart-beating": what one side offers and the other wants make an interval, or none (0). */
  function Interval(offered: u32, wanted: u32): u32 {
    if offered == 0 || wanted == 0 then 0 else if offered < wanted then wanted else offered
  }

  /** The period of the timer that sends heartbeats. */
  function ServerPeriod(requested: HeartBeat): nat {
    if requested.expected > 0 then requested.expected as nat else 0
  }

  /** The period of the timer that watches for them. */
  function ClientPeriod(requested: HeartBeat): nat {
    if requested.supplied > 0 then GraceMillis(requested.supplied) else 0
  }

  /** The grace period is six fifths of the interval exactly when the product fits 32 bits. */
  lemma GraceIsSixFifths(supplied: u32)
    ensures GraceMillis(supplied) == 6 * (supplied as nat) / 5 <==> supplied <= 35791394
    ensures supplied <= 35791394 <==> !GraceOverflows(supplied)
    ensures supplied <= 35791394 ==> GraceMillis(supplied) >= supplied as nat
    ensures supplied == 35791395 ==> GraceMillis(supplied) == 1
  {
    var s := supplied as nat;
    assert 120 * s / 100 == 6 * s / 5;
    if s <= 35791394 {
      assert 120 * s < U32_SIZE;
    } else {
      assert 120 * s >= U32_SIZE;
      assert (120 * s) % U32_SIZE < U32_SIZE;
      assert GraceMillis(supplied) <= U32_SIZE / 100 == 42949672;
      assert 6 * s / 5 >= 42949674;
    }
  }

  /**
   The two timers are made for exactly these numbers of milliseconds: for the server's, what
   the client expects; for the client's, six fifths of what it supplies, as far as that
   fits 32 bits, and else what is left of it. Zero means never, for either.
   */
  lemma TimersAreMadeFor(requested: HeartBeat)
    ensures ServerPeriod(requested) == requested.expected as nat
    ensures ClientPeriod(requested) == (requested.supplied as nat * 120 % 0x1_0000_0000) / 100
    ensures requested.supplied <= 35791394 ==> ClientPeriod(requested) == 6 * (requested.supplied as nat) / 5
    ensures requested.supplied == 0 ==> ClientPeriod(requested) == 0
  {
    GraceIsSixFifths(requested.supplied);
  }

  /**
   The pair answered in CONNECTED settles, by the rule of the standard, on the very
   intervals the two timers are made for.
   */
  lemma NegotiationFollowsTheStandard(requested: HeartBeat)
    ensures var answered := Swapped(requested);
      && Interval(answered.supplied, requested.expected) as nat == ServerPeriod(requested)
      && Interval(requested.supplied, answered.expected) == requested.supplied
      && (ClientPeriod(requested) > 0 && !GraceOverflows(requested.supplied) ==>
            Interval(requested.supplied, answered.expected) as nat <= ClientPeriod(requested)
            <= Interval(requested.supplied, answered.expected) as nat * 6 / 5)
  {
    GraceIsSixFifths(requested.supplied);
  }
}

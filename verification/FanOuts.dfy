/**
 What one fan-out puts on one subscriber's channel, for whatever order the hash map of
 subscriptions is visited in. `mine` are the subscriptions whose messages go to the channel.
 */
module FanOuts {
  import opened Types
  import opened Channels
  import opened Actions

  /** The copy, if any, that visiting subscription `id` puts on the channel. */
  function Copy<S>(table: Table<S>, mine: set<SubscriptionId>, id: SubscriptionId, message: OutboundMessage): seq<ClientEvent> {
    if id in mine && id in table && table[id].subscriberSubId.Some?
    then [ServerMessage(table[id].subscriberSubId.value, message)]
    else []
  }

  /** The events that one fan-out, visiting the subscriptions in `order`, puts on the channel. */
  function Copies<S>(table: Table<S>, mine: set<SubscriptionId>, order: seq<SubscriptionId>, message: OutboundMessage): seq<ClientEvent> {
    if order == [] then []
    else Copies(table, mine, order[..|order| - 1], message) + Copy(table, mine, order[|order| - 1], message)
  }

  lemma CopiesSnoc<S>(table: Table<S>, mine: set<SubscriptionId>, order: seq<SubscriptionId>, id: SubscriptionId, message: OutboundMessage)
    ensures Copies(table, mine, order + [id], message)
            == Copies(table, mine, order, message) + Copy(table, mine, id, message)
  {
    assert (order + [id])[..|order|] == order;
  }

  lemma {:induction false} NoCopies<S>(table: Table<S>, order: seq<SubscriptionId>, message: OutboundMessage)
    ensures Copies(table, {}, order, message) == []
  {
    if order != [] {
      NoCopies(table, order[..|order| - 1], message);
    }
  }

  lemma PushCopies<S>(before: Chan<ClientEvent>, table: Table<S>, mine: set<SubscriptionId>,
                      order: seq<SubscriptionId>, id: SubscriptionId, message: OutboundMessage)
    ensures before.PushAll(Copies(table, mine, order + [id], message))
            == before.PushAll(Copies(table, mine, order, message)).PushAll(Copy(table, mine, id, message))
    ensures id !in mine ==>
              before.PushAll(Copies(table, mine, order + [id], message)) == before.PushAll(Copies(table, mine, order, message))
  {
    CopiesSnoc(table, mine, order, id, message);
    assert before.sent + (Copies(table, mine, order, message) + Copy(table, mine, id, message))
        == before.sent + Copies(table, mine, order, message) + Copy(table, mine, id, message);
    assert Copies(table, mine, order, message) + [] == Copies(table, mine, order, message);
  }

  /** Taking one subscription out of an order takes its copy out of the copies. */
  lemma {:induction false} CopiesWithout<S>(table: Table<S>, mine: set<SubscriptionId>, left: seq<SubscriptionId>,
                                            id: SubscriptionId, right: seq<SubscriptionId>, message: OutboundMessage)
    ensures multiset(Copies(table, mine, left + [id] + right, message))
            == multiset(Copies(table, mine, left + right, message)) + multiset(Copy(table, mine, id, message))
    decreases |right|
  {
    if right == [] {
      assert left + [id] + right == left + [id] && left + right == left;
      CopiesSnoc(table, mine, left, id, message);
    } else {
      var init, last := right[..|right| - 1], right[|right| - 1];
      assert left + [id] + right == left + [id] + init + [last];
      assert left + right == left + init + [last];
      CopiesSnoc(table, mine, left + [id] + init, last, message);
      CopiesSnoc(table, mine, left + init, last, message);
      CopiesWithout(table, mine, left, id, init, message);
    }
  }

  lemma Around(order: seq<SubscriptionId>, id: SubscriptionId) returns (left: seq<SubscriptionId>, right: seq<SubscriptionId>)
    requires multiset(order)[id] > 0
    ensures order == left + [id] + right && multiset(left + right) == multiset(order) - multiset{id}
  {
    assert id in order;
    var k :| 0 <= k < |order| && order[k] == id;
    left, right := order[..k], order[k + 1..];
    assert order == left + [id] + right;
  }

  /** The iteration order of the hash map decides the order of the copies and nothing else. */
  lemma {:induction false} FanOutOrderIrrelevant<S>(table: Table<S>, mine: set<SubscriptionId>, order: seq<SubscriptionId>,
                                                    order': seq<SubscriptionId>, message: OutboundMessage)
    requires multiset(order) == multiset(order')
    ensures multiset(Copies(table, mine, order, message)) == multiset(Copies(table, mine, order', message))
  {
    if order == [] {
      assert |order'| == |multiset(order')| == 0;
    } else {
      var init, last := order[..|order| - 1], order[|order| - 1];
      assert order == init + [last];
      assert multiset(order)[last] > 0;
      var left, right := Around(order', last);
      assert multiset(init) == multiset(order) - multiset{last};
      FanOutOrderIrrelevant(table, mine, init, left + right, message);
      CopiesWithout(table, mine, left, last, right, message);
      CopiesSnoc(table, mine, init, last, message);
    }
  }

  /** `order` visits every subscription of the table once. */
  ghost predicate Visits(order: seq<SubscriptionId>, ids: set<SubscriptionId>) {
    && (forall i, j :: 0 <= i < j < |order| ==> order[i] != order[j])
    && (forall id :: id in order <==> id in ids)
  }

  /** The subscriptions among `mine` that go by the name. */
  function Named<S>(table: Table<S>, mine: set<SubscriptionId>, name: SubscriptionId): set<SubscriptionId> {
    set id <- mine | id in table && table[id].subscriberSubId == Some(name)
  }

  /**
   Every subscription that the channel serves gets exactly one copy, whatever the order:
   under each name there are as many copies as subscriptions, and nothing else is sent.
   */
  lemma {:induction false} OneCopyEach<S>(table: Table<S>, mine: set<SubscriptionId>, order: seq<SubscriptionId>,
                                          ids: set<SubscriptionId>, message: OutboundMessage)
    requires Visits(order, ids) && mine <= ids && AllNamed(table) && ids <= table.Keys
    ensures |Copies(table, mine, order, message)| == |mine|
    ensures forall name :: multiset(Copies(table, mine, order, message))[ServerMessage(name, message)] == |Named(table, mine, name)|
    ensures forall event <- Copies(table, mine, order, message) :: event.ServerMessage? && event.message == message
  {
    if order == [] {
      assert mine == {} by { assert forall id <- mine :: id in order; }
      forall name ensures Named(table, mine, name) == {} {
      }
    } else {
      var init, last := order[..|order| - 1], order[|order| - 1];
      VisitsInit(order, ids);
      CopiesElsewhere(table, mine, init, last, message);
      OneCopyEach(table, mine - {last}, init, ids - {last}, message);
      forall name
        ensures multiset(Copies(table, mine, order, message))[ServerMessage(name, message)] == |Named(table, mine, name)|
      {
        OneMoreNamed(table, mine, last, name);
      }
    }
  }

  lemma OneMoreNamed<S>(table: Table<S>, mine: set<SubscriptionId>, id: SubscriptionId, name: SubscriptionId)
    requires id in table
    ensures |Named(table, mine, name)|
            == |Named(table, mine - {id}, name)| + if id in mine && table[id].subscriberSubId == Some(name) then 1 else 0
  {
    var rest := Named(table, mine - {id}, name);
    if id in mine && table[id].subscriberSubId == Some(name) {
      assert id !in rest && Named(table, mine, name) == rest + {id};
    } else {
      assert Named(table, mine, name) == rest;
    }
  }

  lemma VisitsInit(order: seq<SubscriptionId>, ids: set<SubscriptionId>)
    requires Visits(order, ids) && order != []
    ensures Visits(order[..|order| - 1], ids - {order[|order| - 1]}) && order[|order| - 1] !in order[..|order| - 1]
  {
    var init, last := order[..|order| - 1], order[|order| - 1];
    forall id ensures id in init <==> id in ids - {last} {
      if id in ids - {last} {
        var k :| 0 <= k < |order| && order[k] == id;
        assert init[k] == id;
      }
      if id in init {
        var k :| 0 <= k < |init| && init[k] == id;
        assert order[k] == id && order[|order| - 1] == last;
        assert id in order;
      }
    }
  }

  lemma {:induction false} CopiesElsewhere<S>(table: Table<S>, mine: set<SubscriptionId>, order: seq<SubscriptionId>,
                                              id: SubscriptionId, message: OutboundMessage)
    requires id !in order
    ensures Copies(table, mine - {id}, order, message) == Copies(table, mine, order, message)
  {
    if order != [] {
      var init, last := order[..|order| - 1], order[|order| - 1];
      assert last in order && forall other <- init :: other in order;
      CopiesElsewhere(table, mine, init, id, message);
    }
  }
}

/**
 The registry of destinations. A subscription goes through a spawned task that gets or
 creates its destination; a send or an unsubscription goes to a destination only if it is
 present, at once.
 */
module DestinationRegistry {
  import opened Types
  import opened Channels
  import opened UnboundedChannels
  import opened Actions
  import opened Calls
  import opened ClientProxy
  import opened InMemory

  /** A spawned task: it waits for its destination, then subscribes to it. */
  datatype PendingSubscribe = PendingSubscribe(
    destination: DestinationId, subscriberSubId: Option<SubscriptionId>, subscriber: AsyncStompClient)

  class AsyncDestinations {
    var destinations: map<DestinationId, InMemDestination>
    var tasks: seq<PendingSubscribe>

    constructor ()
      ensures Valid() && QueuesNow() == map[] && tasks == []
    {
      destinations := map[];
      tasks := [];
    }

    /** Each destination is filed under its own id and has a queue of its own. */
    ghost predicate Valid()
      reads this
    {
      && (forall d <- destinations :: destinations[d].id == d)
      && (forall d <- destinations, e <- destinations :: d != e ==> destinations[d].sender != destinations[e].sender)
    }

    ghost function Senders(): set<UnboundedChannel<Action>>
      reads this
    {
      set d <- destinations :: destinations[d].sender
    }

    ghost function QueuesNow(): Queues<AsyncStompClient>
      reads this, Senders()
    {
      map d <- destinations :: destinations[d].sender.state
    }

    /** Spawns the task, and that is all. */
    method Subscribe(destination: DestinationId, subscriberSubId: Option<SubscriptionId>, subscriber: AsyncStompClient)
      requires Valid()
      modifies this`tasks
      ensures Valid() && QueuesNow() == old(QueuesNow())
      ensures tasks == old(tasks) + [PendingSubscribe(destination, subscriberSubId, subscriber)]
    {
      tasks := tasks + [PendingSubscribe(destination, subscriberSubId, subscriber)];
    }

    /** One of the tasks gets its destination. The scheduler chooses which. */
    method RunTask(k: nat) returns (panicked: bool)
      requires Valid() && k < |tasks|
      modifies this, Senders(), tasks[k].subscriber.sender
      ensures Valid() && tasks == old(tasks[..k] + tasks[k + 1..])
      ensures var task, before := old(tasks[k]), Provided(old(QueuesNow()), old(tasks[k].destination));
        && QueuesNow() == Submitted(before, task.destination, DestinationAction.Subscribe(task.subscriberSubId, task.subscriber))
        && (panicked <==> !before[task.destination].open && task.subscriberSubId.None?)
        && (before[task.destination].open ==> task.subscriber.sender.state == old(task.subscriber.sender.state))
        && (!before[task.destination].open && !panicked ==>
              task.subscriber.sender.state
              == old(task.subscriber.sender.state).Push(
                   Subscribed(task.destination, task.subscriberSubId.value, Err("Subscribe failed"))))
    {
      var task := tasks[k];
      ghost var before := Provided(QueuesNow(), task.destination);
      tasks := tasks[..k] + tasks[k + 1..];
      if task.destination !in destinations {
        var created := new InMemDestination(task.destination);
        destinations := destinations[task.destination := created];
      }
      assert QueuesNow() == before;
      panicked := destinations[task.destination].Subscribe(task.subscriberSubId, task.subscriber);
    }

    method Send(destination: DestinationId, message: InboundMessage, sender: AsyncStompClient)
      requires Valid()
      modifies Senders()
      ensures Valid() && QueuesNow() == Submitted(old(QueuesNow()), destination, DestinationAction.Send(message, sender))
    {
      if destination in destinations {
        destinations[destination].Send(message, sender);
      } else {
        sender.SendCallback(message.senderMessageId, Err("Unknown destination '" + destination.text + "'"));
      }
    }

    method Unsubscribe(destination: DestinationId, subscription: SubscriptionId, subscriber: AsyncStompClient)
      returns (panicked: bool)
      requires Valid()
      modifies Senders(), subscriber.sender
      ensures Valid()
      ensures QueuesNow() == Submitted(old(QueuesNow()), destination, DestinationAction.Unsubscribe(subscription, subscriber))
      ensures panicked <==> destination in destinations && !old(QueuesNow())[destination].open
      ensures subscriber.sender.state == old(subscriber.sender.state)
    {
      panicked := false;
      if destination in destinations {
        panicked := destinations[destination].Unsubscribe(subscription, subscriber);
      }
    }
  }
}

/**
 An unbounded multi-producer channel. Its value keeps the whole history: everything ever
 sent, and how much of it the receiver has taken. `open` turns false when the receiver is
 closed or dropped; from then on a send fails and leaves the channel alone.
 */
module Channels {
  import opened Types

  datatype Chan<T> = Chan(sent: seq<T>, received: nat, open: bool) {

    predicate Valid() {
      received <= |sent|
    }

    function Queue(): seq<T>
      requires Valid()
    {
      sent[received..]
    }

    function Taken(): seq<T>
      requires Valid()
    {
      sent[..received]
    }

    function Push(x: T): Chan<T> {
      if open then this.(sent := sent + [x]) else this
    }

    function PushAll(xs: seq<T>): Chan<T> {
      if open then this.(sent := sent + xs) else this
    }

    function Pop(): Chan<T> {
      this.(received := received + 1)
    }

    function Shut(): Chan<T> {
      this.(open := false)
    }
  }

  function Empty<T>(): Chan<T> {
    Chan([], 0, true)
  }

  lemma PushBoth<T>(before: Chan<T>, xs: seq<T>, ys: seq<T>)
    ensures before.PushAll(xs).PushAll(ys) == before.PushAll(xs + ys)
  {
    assert before.sent + xs + ys == before.sent + (xs + ys);
  }

  /** What is left on the queue after some of it has been taken. */
  lemma QueueAfter<T>(before: Chan<T>, k: nat)
    requires before.Valid() && k <= |before.Queue()|
    ensures before.(received := before.received + k).Valid()
    ensures before.(received := before.received + k).Queue() == before.Queue()[k..]
  {
  }

  lemma Regroup<T>(a: seq<T>, b: seq<T>, c: seq<T>)
    ensures (a + b) + c == a + (b + c)
  {
  }

  lemma PushNothing<T>(before: Chan<T>)
    ensures before.PushAll([]) == before
  {
  }
}

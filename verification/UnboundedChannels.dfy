/** The channel as an object that senders share. */
module UnboundedChannels {
  import opened Types
  import opened Channels

  class UnboundedChannel<T> {
    var state: Chan<T>

    constructor ()
      ensures state == Empty()
    {
      state := Empty();
    }

    /** `UnboundedSender::send`: fails exactly when the receiver is gone. */
    method Send(x: T) returns (ok: bool)
      modifies this
      ensures ok == old(state.open)
      ensures state == old(state).Push(x)
    {
      ok := state.open;
      if ok {
        state := state.(sent := state.sent + [x]);
      }
    }

    /** `UnboundedReceiver::recv`, for a caller that would rather stop than wait: None when nothing is queued. */
    method TryRecv() returns (x: Option<T>)
      requires state.Valid()
      modifies this
      ensures state.Valid()
      ensures old(state.Queue()) == [] ==> x == None && state == old(state)
      ensures old(state.Queue()) != [] ==> x == Some(old(state.Queue())[0]) && state == old(state).Pop()
    {
      if state.received == |state.sent| {
        x := None;
      } else {
        x := Some(state.sent[state.received]);
        state := state.(received := state.received + 1);
      }
    }

    /** `UnboundedReceiver::close`, and what dropping the receiver does to the senders. */
    method Close()
      modifies this
      ensures state == old(state).Shut()
    {
      state := state.(open := false);
    }
  }
}

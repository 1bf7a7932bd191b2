/** The remote control of a resettable timer: the sending end of its command channel. */
module Resetters {
  import opened Types
  import opened Channels
  import opened UnboundedChannels

  /** A period is in milliseconds; zero means that the timer never fires. */
  datatype TimerCommand = Reset | ChangePeriod(period: nat)

  class ResettableTimerResetter {
    const sender: UnboundedChannel<TimerCommand>

    constructor (sender: UnboundedChannel<TimerCommand>)
      ensures this.sender == sender
    {
      this.sender := sender;
    }

    method Reset() returns (ok: bool)
      modifies sender
      ensures ok == old(sender.state.open)
      ensures sender.state == old(sender.state).Push(TimerCommand.Reset)
    {
      ok := sender.Send(TimerCommand.Reset);
    }

    method ChangePeriod(newPeriod: nat) returns (ok: bool)
      modifies sender
      ensures ok == old(sender.state.open)
      ensures sender.state == old(sender.state).Push(TimerCommand.ChangePeriod(newPeriod))
    {
      ok := sender.Send(TimerCommand.ChangePeriod(newPeriod));
    }
  }
}

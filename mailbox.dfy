/**
 * `FuturesMailbox` and its address (ludi-core/src/mailbox.rs).  This file comes from the
 * revision in which `send` awaits the reply and unwraps both the send and the reply: a closed
 * channel or a dropped reply sender is a panic, not a result.
 */
module Mailboxes {
  import opened Wrappers
  import opened Oneshot
  import opened Envelopes
  import opened Channel
  import opened Futures
  import Addresses

  /** The buffer size `FuturesMailbox::new` passes to the channel. */
  const Buffer: nat := 100

  /** What one poll of the mailbox's `send` future does. */
  datatype Step<T> = Waiting | Returned(value: T) | Panicked

  /** `FuturesAddress` of this revision: a clone of the channel's sender. */
  datatype MailboxAddress<M, R> = MailboxAddress(send: Chan<M, R>)
  {
    function Clone(): (a: MailboxAddress<M, R>)
      ensures a.send == send
    {
      MailboxAddress(send)
    }
  }

  class FuturesMailbox<M, R> {
    const addr: MailboxAddress<M, R>
    const recv: Chan<M, R>

    /** `new`: one bounded channel, its sender as the address and its receiver as the stream. */
    constructor ()
      ensures addr.send == recv && fresh(recv)
      ensures recv.State() == ChanState([], Some(Buffer), false)
    {
      var ch := new Chan<M, R>(Some(Buffer));
      addr, recv := MailboxAddress(ch), ch;
    }

    /** `Mailbox::address`: the address paired with this mailbox's stream. */
    function Address(): (a: MailboxAddress<M, R>)
      ensures a == addr
    {
      addr
    }

    /** `Stream::poll_next`: exactly what the receiver yields. */
    method PollNext() returns (p: Poll<Option<Envelope<M, R>>>)
      modifies recv
      ensures (p, recv.State()) == NextOutcome(old(recv.State()))
    {
      var r := Receiver.Bounded(recv);
      p := r.PollNext();
    }
  }

  /**
   * One poll of the mailbox's `send` future: the envelope is sent (an error panics), then the
   * reply is awaited (a dropped sender panics) and converted with `into`.
   */
  function MailboxSendStep<E, R, T>(phase: Addresses.Phase<E>, c: ChanState<E>, s: SlotState<R>, race: Race<E>, into: R -> T)
    : (r: (Step<T>, Addresses.Phase<E>, ChanState<E>))
    requires !phase.Finished?
    ensures r.0.Panicked? <==>
              (phase.Sending? && Addresses.SendStep(phase.item, c, race).0.Ready? && Addresses.SendStep(phase.item, c, race).0.value.Err?)
              || ((phase.Awaiting? || Addresses.SendStep(phase.item, c, race).0 == Ready(Ok(()))) && s.value.None? && s.senderDropped)
    ensures r.0.Returned? <==>
              (phase.Awaiting? || Addresses.SendStep(phase.item, c, race).0 == Ready(Ok(()))) && s.value.Some?
    ensures r.0.Returned? ==> r.0.value == into(s.value.value)
    ensures r.0.Waiting? <==> !r.1.Finished?
  {
    var reply := (c': ChanState<E>) =>
      match ResponseOutcome(s)
      case Pending => (Waiting, Addresses.Awaiting, c')
      case Ready(Err(_)) => (Panicked, Addresses.Finished, c')
      case Ready(Ok(v)) => (Returned(into(v)), Addresses.Finished, c');
    match phase
    case Awaiting => reply(c)
    case Sending(item) =>
      var (q, item', c') := Addresses.SendStep(item, c, race);
      if q.Pending? then (Waiting, Addresses.Sending(item'), c')
      else if q.value.Err? then (Panicked, Addresses.Finished, c')
      else reply(c')
  }

  /** The `send` future of this revision. */
  class MailboxSendFuture<M, R, T> {
    const addr: MailboxAddress<M, R>
    const response: ResponseFuture<R>
    const into: R -> T
    var phase: Addresses.Phase<Envelope<M, R>>

    constructor (addr: MailboxAddress<M, R>, env: Envelope<M, R>, response: ResponseFuture<R>, into: R -> T)
      ensures this.addr == addr && this.response == response && this.into == into
      ensures phase == Addresses.Sending(Some(env))
    {
      this.addr, this.response, this.into, this.phase := addr, response, into, Addresses.Sending(Some(env));
    }

    function HeldFootprint(): set<object>
      reads this
    {
      if phase.Sending? && phase.item.Some? then phase.item.value.Footprint() else {}
    }

    method Poll(race: Race<Envelope<M, R>>) returns (p: Step<T>)
      requires !phase.Finished?
      modifies this, addr.send, HeldFootprint(), response.slot
      ensures (p, phase, addr.send.State()) ==
                MailboxSendStep(old(phase), old(addr.send.State()), old(response.slot.State()), race, into)
      // the reply is polled, and taken out, exactly once the send has gone through
      ensures old(phase).Awaiting? || Addresses.SendStep(old(phase).item, old(addr.send.State()), race).0 == Ready(Ok(())) ==>
                response.slot.State() == AfterPoll(old(response.slot.State()))
      ensures old(phase).Sending? && Addresses.SendStep(old(phase).item, old(addr.send.State()), race).0.Pending? ==>
                response.slot.State() == old(response.slot.State())
    {
      if phase.Sending? {
        if phase.item.Some? {
          var e := phase.item.value;
          var a := Addresses.FuturesAddress(addr.send);
          var ready := a.SinkPollReady();
          if ready.Pending? {
            return Waiting;
          }
          if ready.value.Err? {
            phase := Addresses.Finished;
            return Panicked;
          }
          Interfere(addr.send, race);
          phase := Addresses.Sending(None);
          var sent := a.SinkStartSend(e);
          if sent.Err? {
            phase := Addresses.Finished;
            return Panicked;
          }
        }
        phase := Addresses.Awaiting;
      }
      var reply := response.Poll();
      match reply
      case Pending =>
        p := Waiting;
      case Ready(Err(_)) =>
        p := Panicked;
        phase := Addresses.Finished;
      case Ready(Ok(ret)) =>
        p := Returned(into(ret));
        phase := Addresses.Finished;
    }
  }

  /**
   * `send`: exactly one envelope that wants a response, sent through a clone of the address.
   * `msg` is already of the actor's message type: the `msg.into()` that converts it is not modelled.
   */
  method Send<M, R, T>(addr: MailboxAddress<M, R>, msg: M, into: R -> T) returns (f: MailboxSendFuture<M, R, T>)
    ensures fresh(f) && fresh(f.response.slot) && f.addr.send == addr.send && f.into == into
    ensures f.phase.Sending? && f.phase.item.Some?
    ensures var e := f.phase.item.value; e.ExpectsResponse() && e.msg == msg && e.sender.slot == f.response.slot
    ensures f.response.slot.State() == Initial()
  {
    var env, ret := NewWithResponse<M, R>(msg);
    f := new MailboxSendFuture(addr.Clone(), env, ret, into);
  }

  /** Sending on a mailbox whose channel has been closed panics. */
  lemma SendOnClosedPanics<E, R, T>(e: E, c: ChanState<E>, s: SlotState<R>, race: Race<E>, into: R -> T)
    requires c.closed
    ensures MailboxSendStep(Addresses.Sending(Some(e)), c, s, race, into).0 == Panicked
  {
  }
}

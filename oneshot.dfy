/**
 * The one-shot response channel: `new_response` and `ResponseSender` (ludi-core/src/channel.rs)
 * and `ResponseFuture` (ludi-core/src/futures.rs).  Both halves refer to one shared slot.
 */
module Oneshot {
  import opened Wrappers
  import Errors

  /** Abstract state of one response channel. */
  datatype SlotState<R> = SlotState(value: Option<R>, senderDropped: bool, receiverDropped: bool)

  /** The state of a channel just created by `new_response`. */
  function Initial<R>(): SlotState<R> { SlotState(None, false, false) }

  /** A value is stored only by `send`, which also consumes the sender. */
  predicate SlotInv<R>(s: SlotState<R>) { s.value.Some? ==> s.senderDropped }

  /** What one poll of the receiving half yields. */
  function ResponseOutcome<R>(s: SlotState<R>): Poll<Result<R, Errors.Error>>
  {
    if s.value.Some? then Ready(Ok(s.value.value))
    else if s.senderDropped then Ready(Err(Errors.Interrupted))
    else Pending
  }

  /** `ResponseSender::send`: store the value unless the receiver is gone, and consume the sender. */
  function AfterSend<R>(s: SlotState<R>, v: R): SlotState<R>
  {
    s.(value := if s.receiverDropped then s.value else Some(v), senderDropped := true)
  }

  /** The receiver takes the value out when it polls it. */
  function AfterPoll<R>(s: SlotState<R>): SlotState<R> { s.(value := None) }

  /** `is_terminated` of the receiving half: the sender is gone and nothing is left to take. */
  predicate Terminated<R>(s: SlotState<R>) { s.senderDropped && s.value.None? }

  lemma SendThenPollYieldsValue<R>(s: SlotState<R>, v: R)
    requires !s.receiverDropped
    ensures ResponseOutcome(AfterSend(s, v)) == Ready(Ok(v))
    ensures Terminated(AfterPoll(AfterSend(s, v)))
  {
  }

  lemma InterruptedIffDroppedUnsent<R>(s: SlotState<R>)
    ensures ResponseOutcome(s) == Ready(Err(Errors.Interrupted)) <==> s.value.None? && s.senderDropped
  {
  }

  /** Sending is defined in every state, including after the receiver was dropped: it never fails. */
  lemma SendToDroppedReceiverIsSilent<R>(s: SlotState<R>, v: R)
    requires s.receiverDropped
    ensures AfterSend(s, v) == s.(senderDropped := true)
  {
  }

  /** Once a poll is ready, the receiving half reports itself terminated. */
  lemma ReadyPollTerminates<R>(s: SlotState<R>)
    requires SlotInv(s)
    ensures ResponseOutcome(s).Ready? <==> Terminated(AfterPoll(s))
  {
  }

  /** Every step preserves the slot invariant. */
  lemma StepsPreserveInv<R>(s: SlotState<R>, v: R)
    requires SlotInv(s)
    ensures SlotInv(AfterSend(s, v)) && SlotInv(AfterPoll(s))
    ensures SlotInv(s.(senderDropped := true)) && SlotInv(s.(receiverDropped := true))
  {
  }

  /** The shared inner state of a `futures_channel::oneshot` channel. */
  class ResponseSlot<R> {
    var value: Option<R>
    var senderDropped: bool
    var receiverDropped: bool

    function State(): SlotState<R>
      reads this
    {
      SlotState(value, senderDropped, receiverDropped)
    }

    constructor ()
      ensures State() == Initial()
    {
      value, senderDropped, receiverDropped := None, false, false;
    }
  }

  /** The sending half, `ResponseSender`. */
  datatype ResponseSender<R> = ResponseSender(slot: ResponseSlot<R>)
  {
    /** `send` takes the sender by value; the error of a dropped receiver is ignored. */
    method Send(v: R)
      requires !slot.senderDropped
      modifies slot
      ensures slot.State() == AfterSend(old(slot.State()), v)
    {
      if !slot.receiverDropped {
        slot.value := Some(v);
      }
      slot.senderDropped := true;
    }

    /** Dropping the sender without sending. */
    method Drop()
      modifies slot
      ensures slot.State() == old(slot.State()).(senderDropped := true)
    {
      slot.senderDropped := true;
    }
  }

  /** The receiving half, `ResponseFuture`. */
  datatype ResponseFuture<R> = ResponseFuture(slot: ResponseSlot<R>)
  {
    /** `poll`: the value, `Interrupted` when the sender was dropped, or pending. */
    method Poll() returns (p: Poll<Result<R, Errors.Error>>)
      modifies slot
      ensures p == ResponseOutcome(old(slot.State()))
      ensures slot.State() == AfterPoll(old(slot.State()))
    {
      if slot.value.Some? {
        p := Ready(Ok(slot.value.value));
        slot.value := None;
      } else if slot.senderDropped {
        p := Ready(Err(Errors.Interrupted));
      } else {
        p := Pending;
      }
    }

    function IsTerminated(): (b: bool)
      reads slot
      ensures b <==> Terminated(slot.State())
    {
      slot.senderDropped && slot.value.None?
    }

    /** Dropping the receiver: later sends are discarded. */
    method Drop()
      modifies slot
      ensures slot.State() == old(slot.State()).(receiverDropped := true)
    {
      slot.receiverDropped := true;
    }
  }

  /** `new_response`: a fresh channel whose two halves share one slot. */
  method NewResponse<R>() returns (s: ResponseSender<R>, f: ResponseFuture<R>)
    ensures fresh(s.slot) && f.slot == s.slot
    ensures s.slot.State() == Initial()
  {
    var slot := new ResponseSlot<R>();
    s, f := ResponseSender(slot), ResponseFuture(slot);
  }
}

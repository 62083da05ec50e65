/** Envelopes: a message plus, optionally, the sending half of its response channel (ludi-core/src/envelope.rs). */
module Envelopes {
  import opened Wrappers
  import opened Oneshot
  import Errors

  datatype Envelope<M, R> = NoResponse(msg: M) | WantsResponse(msg: M, sender: ResponseSender<R>)
  {
    /** `wants_response`. */
    predicate ExpectsResponse() { WantsResponse? }

    /** The response slot the envelope owns, if any. */
    function Footprint(): set<object> { if WantsResponse? then {sender.slot} else {} }

    /** What happens to the response slot when the envelope is dropped unsent or undispatched. */
    method Drop()
      modifies Footprint()
      ensures WantsResponse? ==> sender.slot.State() == old(sender.slot.State()).(senderDropped := true)
    {
      if WantsResponse? {
        sender.Drop();
      }
    }

    /**
     * `dispatch`: the envelope is consumed and its message handed to the message's own
     * dispatch together with a one-shot callback.  `handle` stands for that dispatch: it gives the
     * actor's new state and the value passed to the callback, or None when the callback is
     * dropped uncalled.  A `NoResponse` callback discards the value; a `WantsResponse` callback
     * sends it, ignoring a dropped receiver.
     */
    method Dispatch<S>(actor: S, handle: (S, M) -> (S, Option<R>)) returns (actor': S)
      requires WantsResponse? ==> !sender.slot.senderDropped
      modifies Footprint()
      ensures actor' == handle(actor, msg).0
      ensures WantsResponse? ==> sender.slot.State() == DispatchedSlot(old(sender.slot.State()), handle(actor, msg).1)
    {
      var reply;
      actor', reply := handle(actor, msg).0, handle(actor, msg).1;
      match this
      case NoResponse(_) =>
      case WantsResponse(_, s) =>
        if reply.Some? {
          s.Send(reply.value);
        } else {
          s.Drop();
        }
    }
  }

  /** The response slot after a dispatch whose callback got `reply` (None: dropped uncalled). */
  function DispatchedSlot<R>(s: SlotState<R>, reply: Option<R>): SlotState<R>
  {
    if reply.Some? then AfterSend(s, reply.value) else s.(senderDropped := true)
  }

  /**
   * The future paired with a dispatched envelope resolves with exactly the callback's value,
   * or with `Interrupted` when the callback was dropped uncalled.
   */
  lemma DispatchResolvesPairedFuture<R>(reply: Option<R>)
    ensures ResponseOutcome(DispatchedSlot(Initial<R>(), reply))
         == if reply.Some? then Ready(Ok(reply.value)) else Ready(Err(Errors.Interrupted))
  {
  }

  /** `Envelope::new`: a fire-and-forget envelope. */
  function New<M, R>(msg: M): (e: Envelope<M, R>)
    ensures !e.ExpectsResponse() && e.msg == msg && e.Footprint() == {}
  {
    NoResponse(msg)
  }

  /** `Envelope::new_with_response`: the envelope holds the sender whose receiver is returned. */
  method NewWithResponse<M, R>(msg: M) returns (e: Envelope<M, R>, f: ResponseFuture<R>)
    ensures e.ExpectsResponse() && e.msg == msg && e.sender.slot == f.slot
    ensures fresh(f.slot) && f.slot.State() == Initial()
  {
    var s;
    s, f := NewResponse<R>();
    e := WantsResponse(msg, s);
  }

  /**
   * Request and reply through one envelope: build it with a response channel, dispatch it,
   * poll the paired future.  The future yields exactly the handler's reply, or `Interrupted`
   * when the handler never called back.
   */
  method RequestReply<S, M, R>(actor: S, msg: M, handle: (S, M) -> (S, Option<R>))
    returns (actor': S, p: Poll<Result<R, Errors.Error>>)
    ensures actor' == handle(actor, msg).0
    ensures p == if handle(actor, msg).1.Some? then Ready(Ok(handle(actor, msg).1.value))
                 else Ready(Err(Errors.Interrupted))
  {
    var e, f := NewWithResponse<M, R>(msg);
    actor' := e.Dispatch(actor, handle);
    p := f.Poll();
  }

  /**
   * When the caller dropped the response future first, dispatch still completes (its only
   * requirement is a live sender) and the reply is discarded.
   */
  lemma DispatchToAbandonedCaller<R>(reply: Option<R>)
    ensures DispatchedSlot(Initial<R>().(receiverDropped := true), reply).value == None
    ensures DispatchedSlot(Initial<R>().(receiverDropped := true), reply).senderDropped
  {
  }
}

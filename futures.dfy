/**
 * The send futures of ludi-core/src/futures.rs as explicit steps.  Each `Poll` method is one
 * call of the Rust `poll`; the waker is not modelled.  What other clones of the sender do to
 * the shared channel between the readiness check and the send is a `Race` parameter.
 */
module Futures {
  import opened Wrappers
  import opened Oneshot
  import opened Envelopes
  import opened Channel
  import Errors

  /** What other senders do to the shared channel between `poll_ready` and `try_send`. */
  datatype Race<E> = Quiet | ClosedMeanwhile | OthersSent(others: seq<E>)

  function Interference<E>(c: ChanState<E>, race: Race<E>): (c': ChanState<E>)
    ensures c'.cap == c.cap
    ensures race.Quiet? ==> c' == c
  {
    match race
    case Quiet => c
    case ClosedMeanwhile => c.(closed := true)
    case OthersSent(others) => SendAll(c, others)
  }

  /** Applies the interference to the shared channel. */
  method Interfere<M, R>(ch: Chan<M, R>, race: Race<Envelope<M, R>>)
    modifies ch
    ensures ch.State() == Interference(old(ch.State()), race)
  {
    match race
    case Quiet =>
    case ClosedMeanwhile =>
      ch.closed := true;
    case OthersSent(others) =>
      ch.queue := SendAll(ch.State(), others).queue;
  }

  /**
   * One poll of `QueueFuture`: with an envelope held, wait for readiness, take the envelope
   * out and try to send it; a full channel hands it back to be held again.
   */
  function QueueStep<E>(held: Option<E>, c: ChanState<E>, race: Race<E>): (r: (Poll<Result<(), Errors.Error>>, Option<E>, ChanState<E>))
    // the envelope is either still held, or queued, or gone because the channel closed
    ensures r.1.Some? ==> r.1 == held && r.0 != Ready(Ok(()))
    ensures held.Some? && r.1.None? ==>
              (r.0 == Ready(Ok(())) && r.2.queue == Interference(c, race).queue + [held.value]) ||
              (r.0 == Ready(Err(Errors.Disconnected)) && Interference(c, race).closed)
    // once done, the future stays done and sends nothing more
    ensures r.0 == Ready(Ok(())) ==> r.1.None?
    ensures held.None? ==> r == (Ready(Ok(())), None, c)
    // the only error is Disconnected
    ensures r.0.Ready? && r.0.value.Err? ==> r.0.value.error == Errors.Disconnected
  {
    if held.None? then (Ready(Ok(())), None, c)
    else match ReadyOutcome(c)
      case Pending => (Pending, held, c)
      case Ready(Err(_)) => (Ready(Err(Errors.Disconnected)), held, c)
      case Ready(Ok(_)) =>
        var c1 := Interference(c, race);
        match TrySendOutcome(c1, held.value)
        case (Ok(_), c2) => (Ready(Ok(())), None, c2)
        case (Err(Disconnected), c2) => (Ready(Err(Errors.Disconnected)), None, c2)
        case (Err(Full(e)), c2) => (Pending, Some(e), c2)
  }

  lemma QueueFullKeepsEnvelope<E>(e: E, c: ChanState<E>, race: Race<E>)
    requires ReadyOutcome(c) == Ready(Ok(()))
    requires !Interference(c, race).closed && IsFull(Interference(c, race))
    ensures QueueStep(Some(e), c, race) == (Pending, Some(e), Interference(c, race))
  {
  }

  lemma QueueReadinessFailureKeepsEnvelope<E>(e: E, c: ChanState<E>, race: Race<E>)
    requires c.closed
    ensures QueueStep(Some(e), c, race) == (Ready(Err(Errors.Disconnected)), Some(e), c)
  {
  }

  lemma QueueDisconnectedConsumesEnvelope<E>(e: E, c: ChanState<E>)
    requires ReadyOutcome(c) == Ready(Ok(()))
    ensures QueueStep(Some(e), c, ClosedMeanwhile) == (Ready(Err(Errors.Disconnected)), None, c.(closed := true))
  {
  }

  /** Without interference a ready channel takes the envelope at once. */
  lemma QueueReadyQuietSends<E>(e: E, c: ChanState<E>)
    requires ReadyOutcome(c) == Ready(Ok(()))
    ensures QueueStep(Some(e), c, Quiet) == (Ready(Ok(())), None, c.(queue := c.queue + [e]))
  {
  }

  /** `QueueFuture`: a sender and the envelope still to be queued. */
  class QueueFuture<M, R> {
    const sender: Sender<M, R>
    var msg: Option<Envelope<M, R>>

    constructor (sender: Sender<M, R>, msg: Envelope<M, R>)
      ensures this.sender == sender && this.msg == Some(msg)
    {
      this.sender, this.msg := sender, Some(msg);
    }

    /** The response slot of the held envelope, if any. */
    function HeldFootprint(): set<object>
      reads this
    {
      if msg.Some? then msg.value.Footprint() else {}
    }

    /** `FusedFuture::is_terminated`: nothing left to queue. */
    function IsTerminated(): (b: bool)
      reads this
      ensures b <==> msg.None?
    {
      msg.None?
    }

    /** A terminated future's poll, on any channel state and whatever other senders do, is `Ok` and sends nothing. */
    lemma TerminatedPollSendsNothing(c: ChanState<Envelope<M, R>>, race: Race<Envelope<M, R>>)
      requires IsTerminated()
      ensures QueueStep(msg, c, race) == (Ready(Ok(())), None, c)
    {
    }

    method Poll(race: Race<Envelope<M, R>>) returns (p: Poll<Result<(), Errors.Error>>)
      requires sender.Valid()
      modifies this, sender.ch, HeldFootprint()
      ensures (p, msg, sender.ch.State()) == QueueStep(old(msg), old(sender.ch.State()), race)
      ensures msg.Some? || p == Ready(Ok(())) ==> unchanged(old(HeldFootprint()))
      // a message dropped by a closed channel drops its response sender
      ensures old(msg).Some? && msg.None? && p.Ready? && p.value.Err? && old(msg).value.WantsResponse? ==>
                old(msg).value.sender.slot.State() == old(msg.value.sender.slot.State()).(senderDropped := true)
    {
      if msg.None? {
        return Ready(Ok(()));
      }
      var ready := sender.PollReady();
      if ready.Pending? {
        return Pending;
      }
      if ready.value.Err? {
        return Ready(Err(Errors.Disconnected));
      }
      Interfere(sender.ch, race);
      var e := msg.value;
      msg := None;
      var r := sender.TrySend(e);
      match r
      case Ok(_) =>
        p := Ready(Ok(()));
      case Err(Disconnected) =>
        p := Ready(Err(Errors.Disconnected));
      case Err(Full(back)) =>
        msg := Some(back);
        p := Pending;
    }
  }

  /** The two modes of `MessageFuture`. */
  datatype Mode = Wait | Detach

  /**
   * One poll of `MessageFuture<Wait>` while the queue future still holds `held`: the response
   * is polled (the last component) only once queueing has finished successfully.
   */
  function WaitStep<E, R>(held: Option<E>, c: ChanState<E>, s: SlotState<R>, race: Race<E>): (r: (Poll<Result<R, Errors.Error>>, Option<E>, ChanState<E>, bool))
    // a queue error or pending queue is returned without polling the response
    ensures !r.3 ==> (r.0.Pending? <==> QueueStep(held, c, race).0.Pending?)
    ensures !r.3 && r.0.Ready? ==> r.0 == Ready(Err(Errors.Disconnected))
    ensures r.3 <==> QueueStep(held, c, race).0 == Ready(Ok(()))
    // once the response is polled, the result is the response's result
    ensures r.3 ==> r.0 == ResponseOutcome(s) && r.1.None?
    ensures (r.1, r.2) == (QueueStep(held, c, race).1, QueueStep(held, c, race).2)
  {
    var (q, h, c') := QueueStep(held, c, race);
    if q == Ready(Ok(())) then (ResponseOutcome(s), h, c', true)
    else if q.Pending? then (Pending, h, c', false)
    else (Ready(Err(q.value.error)), h, c', false)
  }

  /** The Wait result is the value sent on the response channel, or `Interrupted`. */
  lemma WaitYieldsSentValueOrInterrupted<E, R>(held: Option<E>, c: ChanState<E>, s: SlotState<R>, race: Race<E>)
    requires SlotInv(s) && WaitStep(held, c, s, race).3
    ensures WaitStep(held, c, s, race).0 ==
              if s.value.Some? then Ready(Ok(s.value.value))
              else if s.senderDropped then Ready(Err(Errors.Interrupted))
              else Pending
  {
  }

  /**
   * One poll of `MessageFuture<Detach>`: once queueing has finished, the response future is
   * handed out (the last component says so).
   */
  function DetachStep<E, F>(held: Option<E>, c: ChanState<E>, response: F, race: Race<E>): (r: (Poll<Result<F, Errors.Error>>, Option<E>, ChanState<E>, bool))
    ensures r.3 <==> r.0 == Ready(Ok(response))
    ensures r.3 <==> QueueStep(held, c, race).0 == Ready(Ok(()))
    ensures !r.3 ==> r.0.Pending? || r.0 == Ready(Err(Errors.Disconnected))
    ensures (r.1, r.2) == (QueueStep(held, c, race).1, QueueStep(held, c, race).2)
  {
    var (q, h, c') := QueueStep(held, c, race);
    if q == Ready(Ok(())) then (Ready(Ok(response)), h, c', true)
    else if q.Pending? then (Pending, h, c', false)
    else (Ready(Err(q.value.error)), h, c', false)
  }

  /** `MessageFuture<Mode>`: a queue future and the response future of the same message. */
  class MessageFuture<M, R> {
    const queue: QueueFuture<M, R>
    var response: Option<ResponseFuture<R>>
    const mode: Mode

    /** `MessageFuture::new`: Wait mode with the response present. */
    constructor (queue: QueueFuture<M, R>, response: ResponseFuture<R>)
      ensures this.queue == queue && this.response == Some(response) && mode == Wait
    {
      this.queue, this.response, this.mode := queue, Some(response), Wait;
    }

    constructor Detached(queue: QueueFuture<M, R>, response: Option<ResponseFuture<R>>)
      ensures this.queue == queue && this.response == response && mode == Detach
    {
      this.queue, this.response, this.mode := queue, response, Detach;
    }

    /** `detach`: the same queue and response, in Detach mode. */
    method DetachMode() returns (d: MessageFuture<M, R>)
      requires mode == Wait
      ensures fresh(d) && d.mode == Detach && d.queue == queue && d.response == response
    {
      d := new MessageFuture.Detached(queue, response);
    }

    /** `FusedFuture::is_terminated` of the Wait mode. */
    function IsTerminated(): (b: bool)
      requires mode == Wait
      reads this, queue, if response.Some? then {response.value.slot} else {}
      ensures b <==> queue.msg.None? && (response.None? || Terminated(response.value.slot.State()))
    {
      queue.IsTerminated() && (response.None? || response.value.IsTerminated())
    }

    /** `poll` in Wait mode: finish queueing, then poll the response. */
    method PollWait(race: Race<Envelope<M, R>>) returns (p: Poll<Result<R, Errors.Error>>)
      requires mode == Wait && response.Some? && queue.sender.Valid()
      modifies queue, queue.sender.ch, queue.HeldFootprint(), response.value.slot
      ensures (p, queue.msg, queue.sender.ch.State()) ==
                (var w := WaitStep(old(queue.msg), old(queue.sender.ch.State()), old(response.value.slot.State()), race);
                 (w.0, w.1, w.2))
      ensures WaitStep(old(queue.msg), old(queue.sender.ch.State()), old(response.value.slot.State()), race).3 ==>
                response.value.slot.State() == AfterPoll(old(response.value.slot.State()))
      // the response is not polled before queueing has finished
      ensures !WaitStep(old(queue.msg), old(queue.sender.ch.State()), old(response.value.slot.State()), race).3 ==>
                response.value.slot.value == old(response.value.slot.value)
      ensures var w := WaitStep(old(queue.msg), old(queue.sender.ch.State()), old(response.value.slot.State()), race);
              !w.3 && w.0.Pending? ==> response.value.slot.State() == old(response.value.slot.State())
      ensures SlotInv(old(response.value.slot.State())) && p.Ready? && p.value.Ok? ==> IsTerminated()
    {
      if !queue.IsTerminated() {
        var q := queue.Poll(race);
        if q.Pending? {
          return Pending;
        }
        if q.value.Err? {
          return Ready(Err(q.value.error));
        }
      }
      p := response.value.Poll();
      if SlotInv(old(response.value.slot.State())) && p.Ready? {
        ReadyPollTerminates(old(response.value.slot.State()));
      }
    }

    /** `poll` in Detach mode: finish queueing, then hand out the response future once. */
    method PollDetach(race: Race<Envelope<M, R>>) returns (p: Poll<Result<ResponseFuture<R>, Errors.Error>>)
      requires mode == Detach && response.Some? && queue.sender.Valid()
      modifies this, queue, queue.sender.ch, queue.HeldFootprint()
      ensures (p, queue.msg, queue.sender.ch.State(), response.None?) ==
                DetachStep(old(queue.msg), old(queue.sender.ch.State()), old(response.value), race)
      ensures response.Some? ==> response == old(response)
    {
      if !queue.IsTerminated() {
        var q := queue.Poll(race);
        if q.Pending? {
          return Pending;
        }
        if q.value.Err? {
          return Ready(Err(q.value.error));
        }
      }
      p := Ready(Ok(response.value));
      response := None;
    }
  }
}

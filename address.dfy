/**
 * `FuturesAddress` (ludi-core/src/address.rs): a clone of a bounded channel's sender, its
 * `Sink` implementation, and the `send_await` / `send` futures as explicit steps.
 * The mailbox's message type is a wrapper enum (`Tagged<V>`) and its return type the
 * matching `…Return` enum (`Tagged<W>`); the caller's message is one payload type `ty`
 * of the wrapper `w`.
 */
module Addresses {
  import opened Wrappers
  import opened Oneshot
  import opened Envelopes
  import opened Channel
  import opened Futures
  import opened MessageErrors
  import opened WrapDerive
  import Syn

  /** Every `Sink` error of the address is reported as `Closed`. */
  function ClosedErr<T, X>(r: Result<T, X>): (m: Result<T, MessageError>)
    ensures m.Ok? <==> r.Ok?
    ensures r.Ok? ==> m.value == r.value
    ensures m.Err? ==> m.error == Closed
  {
    match r
    case Ok(v) => Ok(v)
    case Err(_) => Err(Closed)
  }

  function ClosedPoll<T, X>(p: Poll<Result<T, X>>): (m: Poll<Result<T, MessageError>>)
    ensures m.Pending? <==> p.Pending?
    ensures p.Ready? ==> m == Ready(ClosedErr(p.value))
  {
    match p
    case Pending => Pending
    case Ready(r) => Ready(ClosedErr(r))
  }

  /** `FuturesAddress`: the sending side of the mailbox's bounded channel. */
  datatype FuturesAddress<M, R> = FuturesAddress(send: Chan<M, R>)
  {
    /** `clone`: shares the same channel. */
    function Clone(): (a: FuturesAddress<M, R>)
      ensures a.send == send
    {
      FuturesAddress(send)
    }

    /** `Sink::poll_ready`. */
    function SinkPollReady(): (p: Poll<Result<(), MessageError>>)
      reads send
      ensures p.Pending? <==> ReadyOutcome(send.State()).Pending?
      ensures p == Ready(Err(Closed)) <==> send.closed
      ensures p == Ready(Ok(())) <==> !send.closed && !IsFull(send.State())
      ensures p.Ready? && p.value.Err? ==> p.value.error == Closed
    {
      ClosedPoll(ReadyOutcome(send.State()))
    }

    /** `Sink::start_send`: a full or closed channel rejects the envelope, which is dropped. */
    method SinkStartSend(e: Envelope<M, R>) returns (r: Result<(), MessageError>)
      modifies send, e.Footprint()
      ensures r == ClosedErr(TrySendOutcome(old(send.State()), e).0)
      ensures send.State() == TrySendOutcome(old(send.State()), e).1
      ensures r.Err? && e.WantsResponse? ==> e.sender.slot.senderDropped
      ensures r.Ok? ==> unchanged(e.Footprint())
    {
      if send.closed || (send.cap.Some? && |send.queue| >= send.cap.value) {
        e.Drop();
        r := Err(Closed);
      } else {
        send.queue := send.queue + [e];
        r := Ok(());
      }
    }
  }

  /**
   * One poll of the `SinkExt::send` future with the item still held (flushing a
   * `futures_channel` sender is taken to complete at once): wait for readiness, then hand the
   * item to `start_send`.
   */
  function SendStep<E>(item: Option<E>, c: ChanState<E>, race: Race<E>): (r: (Poll<Result<(), MessageError>>, Option<E>, ChanState<E>))
    ensures r.0.Pending? ==> r.1 == item && r.2 == c
    ensures r.0 == Ready(Ok(())) ==> r.1.None?
    ensures r.0.Ready? && r.0.value.Err? ==> r.0.value.error == Closed
    ensures item.Some? && r.0 == Ready(Ok(())) ==> r.2.queue == Interference(c, race).queue + [item.value]
    ensures item.Some? && c.closed ==> r.0 == Ready(Err(Closed))
    // ready, and still room after what others did: the item is queued
    ensures item.Some? && ReadyOutcome(c) == Ready(Ok(())) && ReadyOutcome(Interference(c, race)) == Ready(Ok(())) ==>
              r == (Ready(Ok(())), None, Interference(c, race).(queue := Interference(c, race).queue + [item.value]))
  {
    if item.None? then (Ready(Ok(())), None, c)
    else match ReadyOutcome(c)
      case Pending => (Pending, item, c)
      case Ready(Err(_)) => (Ready(Err(Closed)), item, c)
      case Ready(Ok(_)) =>
        var (r, c2) := TrySendOutcome(Interference(c, race), item.value);
        (Ready(ClosedErr(r)), None, c2)
  }

  /** On a ready channel that no other sender touches, the send succeeds and queues the item. */
  lemma SendReadyQuietSends<E>(e: E, c: ChanState<E>)
    requires ReadyOutcome(c) == Ready(Ok(()))
    ensures SendStep(Some(e), c, Quiet) == (Ready(Ok(())), None, c.(queue := c.queue + [e]))
  {
  }

  /** Where `send_await` is: sending the envelope, awaiting the reply, or finished. */
  datatype Phase<E> = Sending(item: Option<E>) | Awaiting | Finished

  /** The reply once it has arrived: `Interrupted` if the sender was dropped, else `unwrap_return`. */
  function ReplyOutcome<W>(w: WrapInput, ty: Syn.Type, s: SlotState<Tagged<W>>): (p: Poll<Result<W, MessageError>>)
    requires ty in VariantTypes(w.variants)
    ensures p.Pending? <==> ResponseOutcome(s).Pending?
    ensures s.value.Some? ==> p == Ready(UnwrapReturn(w, ty, s.value.value))
    ensures s.value.None? && s.senderDropped ==> p == Ready(Err(Interrupted))
  {
    match ResponseOutcome(s)
    case Pending => Pending
    case Ready(Err(_)) => Ready(Err(Interrupted))
    case Ready(Ok(ret)) => Ready(UnwrapReturn(w, ty, ret))
  }

  /** One poll of the `send_await` future; the last component says whether the reply was polled. */
  function SendAwaitStep<E, W>(w: WrapInput, ty: Syn.Type, phase: Phase<E>, c: ChanState<E>, s: SlotState<Tagged<W>>, race: Race<E>)
    : (r: (Poll<Result<W, MessageError>>, Phase<E>, ChanState<E>, bool))
    requires ty in VariantTypes(w.variants) && !phase.Finished?
    ensures r.3 ==> r.0 == ReplyOutcome(w, ty, s)
    ensures r.3 <==> phase.Awaiting? || SendStep(phase.item, c, race).0 == Ready(Ok(()))
    ensures !r.3 ==> (r.0.Pending? <==> SendStep(phase.item, c, race).0.Pending?)
    ensures !r.3 && r.0.Ready? ==> r.0 == Ready(Err(Closed))
    ensures r.0.Ready? <==> r.1.Finished?
    ensures r.1.Awaiting? ==> r.3
  {
    var reply := (p: Poll<Result<W, MessageError>>, c': ChanState<E>) =>
      (p, if p.Pending? then Awaiting else Finished, c', true);
    match phase
    case Awaiting => reply(ReplyOutcome(w, ty, s), c)
    case Sending(item) =>
      var (q, item', c') := SendStep(item, c, race);
      if q.Pending? then (Pending, Sending(item'), c', false)
      else if q.value.Err? then (Ready(Err(Closed)), Finished, c', false)
      else reply(ReplyOutcome(w, ty, s), c')
  }

  /** A closed channel makes `send_await` fail with `Closed` at once. */
  lemma SendAwaitClosed<E, W>(w: WrapInput, ty: Syn.Type, e: E, c: ChanState<E>, s: SlotState<Tagged<W>>, race: Race<E>)
    requires ty in VariantTypes(w.variants) && c.closed
    ensures SendAwaitStep(w, ty, Sending(Some(e)), c, s, race) == (Ready(Err(Closed)), Finished, c, false)
  {
  }

  /** A reply sender dropped before replying makes `send_await` fail with `Interrupted`. */
  lemma SendAwaitInterrupted<E, W>(w: WrapInput, ty: Syn.Type, c: ChanState<E>, s: SlotState<Tagged<W>>, race: Race<E>)
    requires ty in VariantTypes(w.variants) && s.value.None? && s.senderDropped
    ensures SendAwaitStep(w, ty, Awaiting, c, s, race).0 == Ready(Err(Interrupted))
  {
  }

  /** A reply tagged for the caller's message comes back as its payload. */
  lemma SendAwaitUnwraps<E, W>(w: WrapInput, i: nat, c: ChanState<E>, reply: W, race: Race<E>)
    requires DistinctTypes(w.variants) && i < |w.variants|
    ensures var s := SlotState(Some(Tagged(w.variants[i].ident, reply)), true, false);
      SendAwaitStep(w, w.variants[i].ty, Awaiting, c, s, race).0 == Ready(Ok(reply))
  {
    VariantForUnique(w, i);
  }

  /** The `send_await` future. */
  class SendAwaitFuture<V, W> {
    const addr: FuturesAddress<Tagged<V>, Tagged<W>>
    const wrap: WrapInput
    const ty: Syn.Type
    const response: ResponseFuture<Tagged<W>>
    var phase: Phase<Envelope<Tagged<V>, Tagged<W>>>

    constructor (addr: FuturesAddress<Tagged<V>, Tagged<W>>, wrap: WrapInput, ty: Syn.Type,
                 env: Envelope<Tagged<V>, Tagged<W>>, response: ResponseFuture<Tagged<W>>)
      ensures this.addr == addr && this.wrap == wrap && this.ty == ty
      ensures this.response == response && phase == Sending(Some(env))
    {
      this.addr, this.wrap, this.ty, this.response, this.phase := addr, wrap, ty, response, Sending(Some(env));
    }

    /** Objects the held envelope owns. */
    function HeldFootprint(): set<object>
      reads this
    {
      if phase.Sending? && phase.item.Some? then phase.item.value.Footprint() else {}
    }

    method Poll(race: Race<Envelope<Tagged<V>, Tagged<W>>>) returns (p: Poll<Result<W, MessageError>>)
      requires ty in VariantTypes(wrap.variants) && !phase.Finished?
      modifies this, addr.send, HeldFootprint(), response.slot
      ensures (p, phase, addr.send.State()) ==
        (var r := SendAwaitStep(wrap, ty, old(phase), old(addr.send.State()), old(response.slot.State()), race); (r.0, r.1, r.2))
      ensures SendAwaitStep(wrap, ty, old(phase), old(addr.send.State()), old(response.slot.State()), race).3 ==>
                response.slot.State() == AfterPoll(old(response.slot.State()))
      // while the send is pending, the reply slot is untouched
      ensures var r := SendAwaitStep(wrap, ty, old(phase), old(addr.send.State()), old(response.slot.State()), race);
              !r.3 && r.0.Pending? ==> response.slot.State() == old(response.slot.State())
    {
      if phase.Sending? {
        if phase.item.Some? {
          var e := phase.item.value;
          var ready := addr.SinkPollReady();
          if ready.Pending? {
            return Pending;
          }
          if ready.value.Err? {
            // the error returns from the async fn, dropping the envelope with it
            e.Drop();
            phase := Finished;
            return Ready(Err(Closed));
          }
          Interfere(addr.send, race);
          phase := Sending(None);
          var sent := addr.SinkStartSend(e);
          if sent.Err? {
            phase := Finished;
            return Ready(Err(Closed));
          }
        }
        phase := Awaiting;
      }
      var reply := response.Poll();
      match reply
      case Pending =>
        p := Pending;
      case Ready(Err(_)) =>
        p := Ready(Err(Interrupted));
        phase := Finished;
      case Ready(Ok(ret)) =>
        p := Ready(UnwrapReturn(wrap, ty, ret));
        phase := Finished;
    }
  }

  /**
   * `send_await`: inject the payload into the wrapper, put it in an envelope that wants a
   * response, and start sending it through a clone of the address.
   */
  method SendAwait<V, W>(addr: FuturesAddress<Tagged<V>, Tagged<W>>, w: WrapInput, ty: Syn.Type, v: V)
    returns (f: SendAwaitFuture<V, W>)
    requires ty in VariantTypes(w.variants)
    ensures fresh(f) && fresh(f.response.slot) && f.addr.send == addr.send
    ensures f.wrap == w && f.ty == ty
    ensures f.phase.Sending? && f.phase.item.Some?
    ensures var e := f.phase.item.value;
      e.ExpectsResponse() && e.msg == From(w, ty, v) && e.sender.slot == f.response.slot
    ensures f.response.slot.State() == Initial()
  {
    var env, ret := NewWithResponse<Tagged<V>, Tagged<W>>(From(w, ty, v));
    f := new SendAwaitFuture(addr.Clone(), w, ty, env, ret);
  }

  /** The `send` future: send a no-response envelope and report only whether it was taken. */
  class SendFuture<V, W> {
    const addr: FuturesAddress<Tagged<V>, Tagged<W>>
    var item: Option<Envelope<Tagged<V>, Tagged<W>>>
    var done: bool

    constructor (addr: FuturesAddress<Tagged<V>, Tagged<W>>, env: Envelope<Tagged<V>, Tagged<W>>)
      ensures this.addr == addr && item == Some(env) && !done
    {
      this.addr, this.item, this.done := addr, Some(env), false;
    }

    method Poll(race: Race<Envelope<Tagged<V>, Tagged<W>>>) returns (p: Poll<Result<(), MessageError>>)
      requires !done && (item.Some? ==> item.value.NoResponse?)
      modifies this, addr.send
      ensures (p, addr.send.State()) ==
        (var r := SendStep(old(item), old(addr.send.State()), race); (r.0, r.2))
      ensures done <==> p.Ready?
      ensures p.Pending? ==> item == old(item)
    {
      if item.Some? {
        var e := item.value;
        var ready := addr.SinkPollReady();
        if ready.Pending? {
          return Pending;
        }
        if ready.value.Err? {
          item, done := None, true;
          return Ready(Err(Closed));
        }
        Interfere(addr.send, race);
        item := None;
        var sent := addr.SinkStartSend(e);
        done := true;
        return Ready(sent);
      }
      done := true;
      p := Ready(Ok(()));
    }
  }

  /** `send`: a no-response envelope holding the injected payload. */
  method Send<V, W>(addr: FuturesAddress<Tagged<V>, Tagged<W>>, w: WrapInput, ty: Syn.Type, v: V)
    returns (f: SendFuture<V, W>)
    requires ty in VariantTypes(w.variants)
    ensures fresh(f) && f.addr.send == addr.send && !f.done
    ensures f.item.Some? && !f.item.value.ExpectsResponse() && f.item.value.msg == From(w, ty, v)
  {
    f := new SendFuture(addr.Clone(), New(From(w, ty, v)));
  }

  /**
   * A complete request and reply over a fresh bounded channel: the caller's first poll queues
   * the envelope and waits; the actor takes it off the channel and dispatches it through the
   * wrapper's composed dispatch; the caller's next poll returns the handler's reply.
   */
  method RequestReply<V, W>(w: WrapInput, i: nat, v: V, capacity: nat, handler: (string, V) -> W)
    returns (first: Poll<Result<W, MessageError>>, second: Poll<Result<W, MessageError>>)
    requires DistinctTypes(w.variants) && i < |w.variants| && capacity > 0
    ensures first == Pending
    ensures second == Ready(Ok(handler(w.variants[i].ident, v)))
  {
    var ty := w.variants[i].ty;
    var ch := new Chan<Tagged<V>, Tagged<W>>(Some(capacity));
    var addr := FuturesAddress(ch);
    var f := SendAwait(addr, w, ty, v);
    var env0 := f.phase.item.value;
    first := f.Poll(Quiet);
    assert ch.queue == [env0] && f.phase.Awaiting?;
    var receiver := Receiver.Bounded(ch);
    var next := receiver.PollNext();
    var env := next.value.value;
    var _ := env.Dispatch(0, (s: int, m: Tagged<V>) => (s, Some(WrapDerive.Dispatch(m, handler))));
    second := f.Poll(Quiet);
    InjectDispatchUnwrap(w, i, v, handler);
  }
}

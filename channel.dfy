/**
 * The message channel wrapper (ludi-core/src/channel.rs): a sender that is either bounded or
 * unbounded, its receiver, and the mapping of their errors.  All clones of a sender refer to
 * one shared channel object, so they share its queue, capacity and closed flag.
 */
module Channel {
  import opened Wrappers
  import opened Envelopes
  import Errors

  /** `ChannelError`: the channel is closed, or full (handing back the rejected item). */
  datatype ChannelError<T> = Disconnected | Full(item: T)

  /** Abstract state of one channel: queued items, capacity (None: unbounded), closed flag. */
  datatype ChanState<T> = ChanState(queue: seq<T>, cap: Option<nat>, closed: bool)

  predicate IsFull<T>(c: ChanState<T>) { c.cap.Some? && |c.queue| >= c.cap.value }

  /** `poll_ready`: an error once closed, pending while a bounded channel is at capacity. */
  function ReadyOutcome<T>(c: ChanState<T>): Poll<Result<(), ()>>
  {
    if c.closed then Ready(Err(()))
    else if IsFull(c) then Pending
    else Ready(Ok(()))
  }

  /** `try_send`: enqueue at the back, or fail without touching the queue. */
  function TrySendOutcome<T>(c: ChanState<T>, e: T): (Result<(), ChannelError<T>>, ChanState<T>)
  {
    if c.closed then (Err(Disconnected), c)
    else if IsFull(c) then (Err(Full(e)), c)
    else (Ok(()), c.(queue := c.queue + [e]))
  }

  /** `poll_next` of the receiver: the front item; None once closed and drained; else pending. */
  function NextOutcome<T>(c: ChanState<T>): (Poll<Option<T>>, ChanState<T>)
  {
    if |c.queue| > 0 then (Ready(Some(c.queue[0])), c.(queue := c.queue[1..]))
    else if c.closed then (Ready(None), c)
    else (Pending, c)
  }

  lemma TrySendFullReturnsSameItem<T>(c: ChanState<T>, e: T)
    requires !c.closed && IsFull(c)
    ensures TrySendOutcome(c, e) == (Err(Full(e)), c)
  {
  }

  lemma TrySendClosedIsDisconnected<T>(c: ChanState<T>, e: T)
    requires c.closed
    ensures TrySendOutcome(c, e) == (Err(Disconnected), c)
  {
  }

  lemma UnboundedNeverFull<T>(c: ChanState<T>, e: T)
    requires c.cap.None?
    ensures TrySendOutcome(c, e).0 != Err(Full(e))
    ensures !c.closed ==> TrySendOutcome(c, e).0 == Ok(())
  {
  }

  /** How many of `n` further sends an open channel accepts before it is full. */
  function Accepted<T>(c: ChanState<T>, n: nat): (k: nat)
    ensures k <= n
  {
    if c.cap.None? then n
    else if |c.queue| >= c.cap.value then 0
    else if n <= c.cap.value - |c.queue| then n
    else c.cap.value - |c.queue|
  }

  /** `try_send` of each item in turn, keeping the channel state. */
  function SendAll<T>(c: ChanState<T>, es: seq<T>): (c': ChanState<T>)
    ensures c'.cap == c.cap && c'.closed == c.closed
    decreases |es|
  {
    if es == [] then c else SendAll(TrySendOutcome(c, es[0]).1, es[1..])
  }

  /**
   * Capacity: from an open channel, a run of sends accepts exactly the first `Accepted` items,
   * appended in order; every later one is rejected as full.
   */
  lemma {:induction false} SendAllAcceptsPrefix<T>(c: ChanState<T>, es: seq<T>)
    requires !c.closed
    ensures SendAll(c, es) == c.(queue := c.queue + es[..Accepted(c, |es|)])
    decreases |es|
  {
    if es != [] {
      var c1 := TrySendOutcome(c, es[0]).1;
      SendAllAcceptsPrefix(c1, es[1..]);
      if IsFull(c) {
        assert c1 == c;
      } else {
        assert es[..Accepted(c, |es|)] == [es[0]] + es[1..][..Accepted(c1, |es| - 1)];
      }
    }
  }

  /** A bounded channel of capacity `n` takes `n` items without blocking; the next one is full. */
  lemma BoundedTakesExactlyCapacity<T>(n: nat, es: seq<T>, extra: T)
    requires |es| == n
    ensures SendAll(ChanState([], Some(n), false), es).queue == es
    ensures TrySendOutcome(SendAll(ChanState([], Some(n), false), es), extra).0 == Err(Full(extra))
    ensures ReadyOutcome(SendAll(ChanState([], Some(n), false), es)) == Pending
  {
    SendAllAcceptsPrefix(ChanState([], Some(n), false), es);
    assert es[..n] == es;
  }

  /** An interleaving of sends and receives on one channel, as seen by its single consumer. */
  datatype Op<T> = SendOp(item: T) | RecvOp

  /** Runs the operations; gives the items received, the items accepted, and the final state. */
  function Exec<T>(c: ChanState<T>, ops: seq<Op<T>>): (seq<T>, seq<T>, ChanState<T>)
    decreases |ops|
  {
    if ops == [] then ([], [], c)
    else match ops[0]
      case SendOp(e) =>
        var (r, c1) := TrySendOutcome(c, e);
        var (recv, acc, c2) := Exec(c1, ops[1..]);
        (recv, (if r.Ok? then [e] else []) + acc, c2)
      case RecvOp =>
        var (p, c1) := NextOutcome(c);
        var (recv, acc, c2) := Exec(c1, ops[1..]);
        ((if p.Ready? && p.value.Some? then [p.value.value] else []) + recv, acc, c2)
  }

  /**
   * FIFO: whatever the interleaving, the items received followed by those still queued are
   * exactly the items queued at the start followed by the accepted sends, in send order.
   */
  lemma {:induction false} ExecIsFifo<T>(c: ChanState<T>, ops: seq<Op<T>>)
    ensures Exec(c, ops).0 + Exec(c, ops).2.queue == c.queue + Exec(c, ops).1
    decreases |ops|
  {
    if ops != [] {
      match ops[0]
      case SendOp(e) =>
        var (r, c1) := TrySendOutcome(c, e);
        ExecIsFifo(c1, ops[1..]);
      case RecvOp =>
        var (p, c1) := NextOutcome(c);
        ExecIsFifo(c1, ops[1..]);
        if |c.queue| > 0 {
          assert p == Ready(Some(c.queue[0]));
          assert c.queue == [c.queue[0]] + c1.queue;
          var (recv, acc, c2) := Exec(c1, ops[1..]);
          assert Exec(c, ops) == ([c.queue[0]] + recv, acc, c2);
          calc {
            ([c.queue[0]] + recv) + c2.queue;
            [c.queue[0]] + (recv + c2.queue);
            [c.queue[0]] + (c1.queue + acc);
            c.queue + acc;
          }
        } else {
          assert c1 == c;
        }
    }
  }

  /** The shared inner state of a `futures_channel::mpsc` channel of envelopes. */
  class Chan<M, R> {
    var queue: seq<Envelope<M, R>>
    const cap: Option<nat>
    var closed: bool

    function State(): ChanState<Envelope<M, R>>
      reads this
    {
      ChanState(queue, cap, closed)
    }

    constructor (cap: Option<nat>)
      ensures State() == ChanState([], cap, false)
    {
      this.queue, this.cap, this.closed := [], cap, false;
    }
  }

  /** `Sender`: bounded or unbounded, over one shared channel. */
  datatype Sender<M, R> = Bounded(ch: Chan<M, R>) | Unbounded(ch: Chan<M, R>)
  {
    /** The variant agrees with the channel's capacity. */
    predicate Valid() { Bounded? <==> ch.cap.Some? }

    /** `clone`: the same variant over the same channel. */
    function Clone(): (r: Sender<M, R>)
      ensures r.Bounded? == Bounded? && r.ch == ch
    {
      match this
      case Bounded(c) => Sender.Bounded(c)
      case Unbounded(c) => Sender.Unbounded(c)
    }

    /** `close`: closes the channel for every clone; queued items stay. */
    method Close()
      modifies ch
      ensures ch.State() == old(ch.State()).(closed := true)
    {
      ch.closed := true;
    }

    function IsClosed(): (b: bool)
      reads ch
      ensures b == ch.closed
    {
      ch.closed
    }

    /** `poll_ready`, with the channel's error mapped to `Disconnected`. */
    function PollReady(): (p: Poll<Result<(), ()>>)
      requires Valid()
      reads ch
      ensures p == ReadyOutcome(ch.State())
    {
      if ch.closed then Ready(Err(()))
      else if Bounded? && |ch.queue| >= ch.cap.value then Pending
      else Ready(Ok(()))
    }

    /**
     * `try_send`: on `Disconnected` the envelope is dropped (and with it any response sender
     * it holds); on `Full` it is handed back untouched.
     */
    method TrySend(e: Envelope<M, R>) returns (r: Result<(), ChannelError<Envelope<M, R>>>)
      requires Valid()
      modifies ch, e.Footprint()
      ensures (r, ch.State()) == TrySendOutcome(old(ch.State()), e)
      ensures r == Err(Disconnected) && e.WantsResponse? ==>
                e.sender.slot.State() == old(e.sender.slot.State()).(senderDropped := true)
      ensures r != Err(Disconnected) ==> unchanged(e.Footprint())
    {
      match this
      case Bounded(c) =>
        if c.closed {
          e.Drop();
          r := Err(Disconnected);
        } else if |c.queue| >= c.cap.value {
          r := Err(Full(e));
        } else {
          c.queue := c.queue + [e];
          r := Ok(());
        }
      case Unbounded(c) =>
        // an unbounded channel is never full
        if c.closed {
          e.Drop();
          r := Err(Disconnected);
        } else {
          c.queue := c.queue + [e];
          r := Ok(());
        }
    }

    /** `Sink::poll_ready`: every error becomes `Error::Disconnected`. */
    function SinkPollReady(): (p: Poll<Result<(), Errors.Error>>)
      requires Valid()
      reads ch
      ensures p == SinkPollErr(ReadyOutcome(ch.State()))
    {
      SinkPollErr(PollReady())
    }

    /** `Sink::start_send`: a full or closed channel both become `Error::Disconnected`. */
    method SinkStartSend(e: Envelope<M, R>) returns (r: Result<(), Errors.Error>)
      requires Valid()
      modifies ch, e.Footprint()
      ensures r == SinkErr(TrySendOutcome(old(ch.State()), e).0)
      ensures ch.State() == TrySendOutcome(old(ch.State()), e).1
    {
      var inner := TrySend(e);
      r := SinkErr(inner);
    }
  }

  /** The error mapping of every `Sink` operation of `Sender`. */
  function SinkErr<T, X>(r: Result<T, X>): (m: Result<T, Errors.Error>)
    ensures m.Ok? <==> r.Ok?
    ensures r.Ok? ==> m.value == r.value
    ensures m.Err? ==> m.error == Errors.Disconnected
  {
    match r
    case Ok(v) => Ok(v)
    case Err(_) => Err(Errors.Disconnected)
  }

  function SinkPollErr<T, X>(p: Poll<Result<T, X>>): (m: Poll<Result<T, Errors.Error>>)
    ensures m.Pending? <==> p.Pending?
    ensures p.Ready? ==> m == Ready(SinkErr(p.value))
  {
    match p
    case Pending => Pending
    case Ready(r) => Ready(SinkErr(r))
  }

  /** `Receiver`: the single consumer of a channel. */
  datatype Receiver<M, R> = Bounded(ch: Chan<M, R>) | Unbounded(ch: Chan<M, R>)
  {
    /** `Stream::poll_next`. */
    method PollNext() returns (p: Poll<Option<Envelope<M, R>>>)
      modifies ch
      ensures (p, ch.State()) == NextOutcome(old(ch.State()))
    {
      if |ch.queue| > 0 {
        p := Ready(Some(ch.queue[0]));
        ch.queue := ch.queue[1..];
      } else if ch.closed {
        p := Ready(None);
      } else {
        p := Pending;
      }
    }
  }

  /** `new_channel`: a bounded pair over one fresh channel. */
  method NewChannel<M, R>(capacity: nat) returns (s: Sender<M, R>, r: Receiver<M, R>)
    ensures fresh(s.ch) && s == Sender.Bounded(s.ch) && r == Receiver.Bounded(s.ch)
    ensures s.Valid() && s.ch.State() == ChanState([], Some(capacity), false)
  {
    var c := new Chan<M, R>(Some(capacity));
    s, r := Sender.Bounded(c), Receiver.Bounded(c);
  }

  /** `new_unbounded_channel`: an unbounded pair over one fresh channel. */
  method NewUnboundedChannel<M, R>() returns (s: Sender<M, R>, r: Receiver<M, R>)
    ensures fresh(s.ch) && s == Sender.Unbounded(s.ch) && r == Receiver.Unbounded(s.ch)
    ensures s.Valid() && s.ch.State() == ChanState([], None, false)
  {
    var c := new Chan<M, R>(None);
    s, r := Sender.Unbounded(c), Receiver.Unbounded(c);
  }

  /** After `close` on a clone of any sender, in any channel state, the sender itself reports closed and its sends fail. */
  method CloseIsShared<M, R>(s: Sender<M, R>, e: Envelope<M, R>) returns (closedSeen: bool, r: Result<(), ChannelError<Envelope<M, R>>>)
    requires s.Valid()
    modifies s.ch, e.Footprint()
    ensures closedSeen && r == Err(Disconnected)
  {
    var t := s.Clone();
    t.Close();
    closedSeen := s.IsClosed();
    r := s.TrySend(e);
  }
}

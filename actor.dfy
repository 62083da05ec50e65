/**
 * The actor life cycle of ludi-core/src/lib.rs: `Actor::run`, `Actor::started` and `Context`.
 *
 * The actor's state is a value `S`; its hooks are functions of that state.  The mailbox is the
 * finite sequence of messages its stream yields before it ends.  A message handler reports
 * whether it called `stop` on the context it was given.
 */
module Actors {
  import opened Wrappers

  /** `Context`: the per-message flag that a handler clears with `stop`. */
  class Context {
    var running: bool

    /** `Context::new`: every context starts out running. */
    constructor ()
      ensures running
    {
      running := true;
    }

    /** `Context::stop`: afterwards the context reports stopped, whatever it was before. */
    method Stop()
      modifies this
      ensures Stopped() && !running
    {
      running := false;
    }

    /** `Context::stopped`. */
    predicate Stopped()
      reads this
    {
      !running
    }
  }

  /** The default `Actor::started`: succeed, change nothing and leave the context running. */
  function DefaultStarted<S, T>(s: S): (r: (S, Result<(), T>, bool))
    ensures r.0 == s && r.1.Ok? && !r.2
  {
    (s, Ok(()), false)
  }

  /**
   * The message loop of `run` from state `s`: the final state, how many messages were pulled
   * from the mailbox, and whether a handler stopped the loop.
   */
  function Loop<S, M>(s: S, ms: seq<M>, handle: (S, M) -> (S, bool)): (r: (S, nat, bool))
    ensures r.1 <= |ms|
    ensures r.2 ==> 1 <= r.1
    ensures !r.2 ==> r.1 == |ms|
    decreases |ms|
  {
    if ms == [] then (s, 0, false)
    else
      var (s1, stop) := handle(s, ms[0]);
      if stop then (s1, 1, true)
      else
        var (s2, n, stopped) := Loop(s1, ms[1..], handle);
        (s2, n + 1, stopped)
  }

  /**
   * `run`: the value it returns, the actor's final state and how many messages it pulled.
   * `started` also reports whether it stopped its context.
   */
  function RunOutcome<S, M, T>(s: S, ms: seq<M>, started: S -> (S, Result<(), T>, bool),
                               handle: (S, M) -> (S, bool), stopped: S -> (S, T)): (r: (T, S, nat))
    ensures started(s).1.Err? ==> r == (started(s).1.error, started(s).0, 0)
    ensures started(s).1.Ok? ==> r.1 == stopped(Loop(started(s).0, ms, handle).0).0
    ensures started(s).1.Ok? ==> r.0 == stopped(Loop(started(s).0, ms, handle).0).1
  {
    var (s1, res, _) := started(s);
    if res.Err? then (res.error, s1, 0)
    else
      var (s2, n, _) := Loop(s1, ms, handle);
      var (s3, t) := stopped(s2);
      (t, s3, n)
  }

  /** A handler that never stops the actor sees every message the mailbox yields. */
  lemma {:induction false} LoopDrainsMailbox<S, M>(s: S, ms: seq<M>, handle: (S, M) -> (S, bool))
    requires forall s', m :: !handle(s', m).1
    ensures Loop(s, ms, handle).1 == |ms| && !Loop(s, ms, handle).2
    decreases |ms|
  {
    if ms != [] {
      LoopDrainsMailbox(handle(s, ms[0]).0, ms[1..], handle);
    }
  }

  /** Once a handler has stopped the actor, no later message is pulled or handled. */
  lemma {:induction false} LoopIgnoresRest<S, M>(s: S, ms: seq<M>, rest: seq<M>, handle: (S, M) -> (S, bool))
    requires Loop(s, ms, handle).2
    ensures Loop(s, ms + rest, handle) == Loop(s, ms, handle)
    decreases |ms|
  {
    assert ms != [];
    assert (ms + rest)[0] == ms[0];
    var (s1, stop) := handle(s, ms[0]);
    if !stop {
      assert (ms + rest)[1..] == ms[1..] + rest;
      LoopIgnoresRest(s1, ms[1..], rest, handle);
    }
  }

  /** A loop that was not stopped carries on with the rest of the mailbox from the state it reached. */
  lemma {:induction false} LoopComposes<S, M>(s: S, ms: seq<M>, rest: seq<M>, handle: (S, M) -> (S, bool))
    requires !Loop(s, ms, handle).2
    ensures var (s1, n1, _) := Loop(s, ms, handle);
            var (s2, n2, st2) := Loop(s1, rest, handle);
            Loop(s, ms + rest, handle) == (s2, n1 + n2, st2)
    decreases |ms|
  {
    if ms == [] {
      assert ms + rest == rest;
    } else {
      assert (ms + rest)[0] == ms[0];
      assert (ms + rest)[1..] == ms[1..] + rest;
      LoopComposes(handle(s, ms[0]).0, ms[1..], rest, handle);
    }
  }

  /** A failing `started` ends `run` with its error: no message is pulled and `stopped` is not called. */
  lemma StartFailureSkipsMailbox<S, M, T>(s: S, ms: seq<M>, started: S -> (S, Result<(), T>, bool),
                                          handle: (S, M) -> (S, bool), stopped: S -> (S, T))
    requires started(s).1.Err?
    ensures RunOutcome(s, ms, started, handle, stopped).2 == 0
    ensures RunOutcome(s, ms, started, handle, stopped).0 == started(s).1.error
  {
  }

  /**
   * Calling `stop` on the context given to `started` has no effect: `run` gives every message
   * its own fresh context and never looks at the first one.
   */
  lemma StopDuringStartIsIgnored<S, M, T>(s: S, ms: seq<M>, started: S -> (S, Result<(), T>, bool),
                                          started': S -> (S, Result<(), T>, bool),
                                          handle: (S, M) -> (S, bool), stopped: S -> (S, T))
    requires started(s).0 == started'(s).0 && started(s).1 == started'(s).1
    ensures RunOutcome(s, ms, started, handle, stopped) == RunOutcome(s, ms, started', handle, stopped)
  {
  }

  /** `Actor::run`, as a loop that pulls one message at a time and gives each a fresh context. */
  method Run<S, M, T>(s: S, mailbox: seq<M>, started: S -> (S, Result<(), T>, bool),
                      handle: (S, M) -> (S, bool), stopped: S -> (S, T))
    returns (stop: T, s': S, pulled: nat)
    ensures (stop, s', pulled) == RunOutcome(s, mailbox, started, handle, stopped)
  {
    var ctx := new Context();
    var (s0, res, stopRequested) := started(s);
    if stopRequested {
      ctx.Stop();
    }
    if res.Err? {
      return res.error, s0, 0;
    }
    var cur := s0;
    var i := 0;
    while i < |mailbox|
      invariant 0 <= i <= |mailbox|
      invariant var (sf, n, st) := Loop(cur, mailbox[i..], handle);
                Loop(s0, mailbox, handle) == (sf, n + i, st)
      decreases |mailbox| - i
    {
      ctx := new Context();
      var (next, stopCalled) := handle(cur, mailbox[i]);
      if stopCalled {
        ctx.Stop();
      }
      assert mailbox[i..][0] == mailbox[i];
      assert mailbox[i..][1..] == mailbox[i + 1..];
      cur := next;
      i := i + 1;
      if ctx.Stopped() {
        break;
      }
    }
    pulled := i;
    stop, s' := stopped(cur).1, stopped(cur).0;
  }
}

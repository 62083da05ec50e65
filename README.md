# ludi, modelled in Dafny

ludi is an actor library for Rust.

- **Runtime (`ludi-core`).** Senders push envelopes into a bounded or unbounded multi-producer channel. An envelope is a message, plus the sending half of a one-shot response channel when a reply is wanted. Futures queue an envelope, then wait for the reply or hand out the response future. An actor runs a loop: `started`, then each message with a fresh `Context` until the mailbox ends or a handler calls `stop`, then `stopped`.
- **Macros (`ludi-macros`).** Procedural macros generate message structs, wrapper enums, handlers and controllers from impl blocks and traits. They also derive `Wrap` for a wrapper enum.

This project models that core in Dafny and proves what the code promises.

**Runtime model**
- **Shared state is objects.** Each channel is a `Chan` object holding `ChanState(queue, cap, closed)`; `cap == None` means unbounded. Each one-shot response channel is a `ResponseSlot` holding `SlotState(value, senderDropped, receiverDropped)`.
- **Handles reference the objects.** Senders, receivers, response senders and response futures are datatypes that hold a reference to the shared object. So clones share the queue, the capacity and the closed flag by construction.
- **Every state change is a method.** A Rust `poll` is one call of a `Poll` method. Each such method is proved equal to a step function on the old state (`QueueStep`, `WaitStep`, `DetachStep`, `SendStep`, `SendAwaitStep`, `MailboxSendStep`). The lemmas about those functions state the protocol.
- **Other senders are a parameter.** What other clones of a sender do to the shared channel, between the readiness check and the send, is the parameter `race`. It is either nothing, closing the channel, or sending some envelopes.
- **The actor is a pure state.** Its state is a value. Its hooks are functions of that state, and the mailbox is the finite sequence of messages the stream yields. `Actors.Run` is the loop itself, proved equal to the function `RunOutcome`.

**Macro model**
- **Syntax trees.** The macros work on a small syntax tree (module `Syn`) holding the fields they read.
- **Parsing and casing are parameters.** darling's `from_meta` is a parameter `Meta -> Option<T>`: `None` is a parse error. `heck`'s `to_upper_camel_case` is a parameter `upperCamel`.
- **Diagnostics.** The errors the macros emit and carry on after (`emit_error!`) are a list of `Diagnostic`s. An `abort!`, or a failed `expect`/`unwrap`, is a `Failure`.
- **Generated code.** What a macro generates is described by a datatype (`WrapEnum`, `CtrlMethod`, `HandlerExpansion`, `Emitted`, `Part`). For `Wrap`, it is the meaning of the generated `From`, `unwrap_return` and `dispatch` over tagged values (`Tagged(tag, value)`).

**Source revisions.** The runtime files come from different revisions of the repository. Each file is modelled as written:
- `mailbox.rs` unwraps the send and the reply (a panic).
- `address.rs` maps them to `MessageError`.
- `futures.rs` and `channel.rs` use `Error`.
- `lib.rs` has no error propagation through `Context`.
- `Envelope::new_returning`, called by `address.rs` and `mailbox.rs`, is not part of this model. It is taken to be `new_with_response`.

**Definitions the contracts are stated in.** These pure definitions model source code directly, and the rows below state their properties:
- `Channel.ReadyOutcome`: `poll_ready` of the channel (ludi-core/src/channel.rs:96-101).
- `Channel.TrySendOutcome`: `try_send` (ludi-core/src/channel.rs:103-123).
- `Channel.NextOutcome`: `poll_next` of the receiver (ludi-core/src/channel.rs:172-181).
- `Oneshot.AfterSend`: the slot after `ResponseSender::send` (ludi-core/src/channel.rs:39-42).
- `Oneshot.AfterPoll`: the slot after the response future takes the value (ludi-core/src/futures.rs:158-162).
- `Options.MergeWrap`: the wrap part of `MsgOptions::merge` (ludi-macros/src/options.rs:49-55).
- `MacroUtils.IsLudiAttr`: `is_ludi_attr` (ludi-macros/src/utils.rs:67-76).
- `Methods.GeneratesMessage`: whether `expand_message` emits a struct (ludi-macros/src/items/method.rs:245-251).
- `Items.ParamsOf`: the wrap enum's type parameters (ludi-macros/src/items/item_impl.rs:183-186).

## Model

| member | source | states |
|---|---|---|
| Errors.Display | ludi-core/src/error.rs:16-24 | each variant displays as its own message, and each of the three messages identifies its variant |
| Errors.DisplayInjective | ludi-core/src/error.rs:4-13 | distinct variants never display alike |
| Oneshot.SendThenPollYieldsValue | ludi-core/src/channel.rs:39-42 | after a send to a live receiver, the response future yields exactly `Ok(v)` and is then terminated |
| Oneshot.InterruptedIffDroppedUnsent | ludi-core/src/futures.rs:158-162 | the response future yields `Interrupted` if and only if the sender is gone without having sent |
| Oneshot.SendToDroppedReceiverIsSilent | ludi-core/src/channel.rs:39-42 | sending to a dropped receiver does not fail; it only consumes the sender and stores nothing |
| Oneshot.ReadyPollTerminates | ludi-core/src/futures.rs:165-169 | a poll returns `Ready` if and only if the future is terminated afterwards |
| Oneshot.StepsPreserveInv | ludi-core/src/channel.rs:39-42 | "a stored value implies the sender is consumed" is kept by send, poll and either drop |
| Oneshot.ResponseSlot.constructor | ludi-core/src/channel.rs:19-23 | a new slot is empty with both halves alive |
| Oneshot.ResponseSender.Send | ludi-core/src/channel.rs:39-42 | the slot becomes `AfterSend` of its old state: value stored only if the receiver is alive, sender consumed |
| Oneshot.ResponseSender.Drop | ludi-core/src/channel.rs:26 | dropping the sender marks it dropped and changes nothing else |
| Oneshot.ResponseFuture.Poll | ludi-core/src/futures.rs:158-162 | result is `ResponseOutcome` of the old slot (value, `Interrupted` or pending); a delivered value is taken out |
| Oneshot.ResponseFuture.IsTerminated | ludi-core/src/futures.rs:165-169 | terminated if and only if the sender is gone and no value is waiting |
| Oneshot.ResponseFuture.Drop | ludi-core/src/futures.rs:146 | dropping the future marks the receiver dropped and changes nothing else |
| Oneshot.NewResponse | ludi-core/src/channel.rs:19-23 | both halves share one fresh, empty slot |
| Envelopes.Envelope.Drop | ludi-core/src/envelope.rs:3-8 | dropping a response-bearing envelope drops its response sender |
| Envelopes.Envelope.Dispatch | ludi-core/src/envelope.rs:41-57 | the handler runs on the message; a `WantsResponse` envelope sends the handler's reply on its own sender, a `NoResponse` one touches no channel |
| Envelopes.DispatchResolvesPairedFuture | ludi-core/src/envelope.rs:50-54 | after dispatch the paired future yields exactly the reply, or `Interrupted` when the handler gave none |
| Envelopes.New | ludi-core/src/envelope.rs:16-18 | a plain envelope does not want a response and holds no channel |
| Envelopes.NewWithResponse | ludi-core/src/envelope.rs:22-25 | the envelope wants a response, and its sender shares a fresh, empty slot with the returned future |
| Envelopes.RequestReply | ludi-core/src/envelope.rs:22-57 | the round trip: create with response, dispatch, then poll the future gives the handler's reply, or `Interrupted` |
| Envelopes.DispatchToAbandonedCaller | ludi-core/src/envelope.rs:52 | dispatch to a caller that dropped its future completes, stores nothing and consumes the sender |
| Channel.TrySendFullReturnsSameItem | ludi-core/src/channel.rs:108-111 | on a full, open channel `try_send` returns `Full` carrying the very envelope and leaves the channel unchanged |
| Channel.TrySendClosedIsDisconnected | ludi-core/src/channel.rs:112-119 | on a closed channel `try_send` returns `Disconnected` and enqueues nothing, bounded or not |
| Channel.UnboundedNeverFull | ludi-core/src/channel.rs:115-118 | an unbounded channel never reports `Full`, and accepts every envelope while open |
| Channel.SendAllAcceptsPrefix | ludi-core/src/channel.rs:103-123 | repeated `try_send`s on an open channel append exactly the prefix that fits, in order |
| Channel.BoundedTakesExactlyCapacity | ludi-core/src/channel.rs:45-49 | a new bounded channel of capacity n takes n envelopes in order, then reports `Full` and not ready |
| Channel.ExecIsFifo | ludi-core/src/channel.rs:172-181 | over any sequence of sends and receives, what was received followed by what is still queued equals what was queued before followed by what was accepted: first in, first out |
| Channel.Chan.constructor | ludi-core/src/channel.rs:45-49 | a new channel is empty, open, with the given capacity |
| Channel.Sender.Clone | ludi-core/src/channel.rs:63-70 | a clone keeps the variant and shares the same channel |
| Channel.Sender.Close | ludi-core/src/channel.rs:82-87 | the shared channel becomes closed; queue and capacity unchanged |
| Channel.Sender.IsClosed | ludi-core/src/channel.rs:89-94 | reads the shared closed flag |
| Channel.Sender.PollReady | ludi-core/src/channel.rs:96-101 | closed gives an error, full gives pending, otherwise ready |
| Channel.Sender.TrySend | ludi-core/src/channel.rs:103-123 | the result and the new channel state are `TrySendOutcome` of the old state; an envelope refused as `Disconnected` drops its response sender, and any other outcome leaves the envelope's slot untouched |
| Channel.Sender.SinkPollReady | ludi-core/src/channel.rs:129-134 | readiness with every error reported as `Error::Disconnected` |
| Channel.Sender.SinkStartSend | ludi-core/src/channel.rs:136-141 | `try_send` with every error, `Full` included, reported as `Error::Disconnected` |
| Channel.SinkErr | ludi-core/src/channel.rs:136-141 | success is kept with its value; any error becomes `Disconnected` |
| Channel.SinkPollErr | ludi-core/src/channel.rs:129-163 | pending stays pending; a ready result is mapped by `SinkErr` |
| Channel.Receiver.PollNext | ludi-core/src/channel.rs:172-181 | yields the oldest queued envelope and removes it; an empty closed channel ends the stream; an empty open one is pending |
| Channel.NewChannel | ludi-core/src/channel.rs:45-49 | a bounded sender and its receiver share one fresh, empty, open channel of that capacity |
| Channel.NewUnboundedChannel | ludi-core/src/channel.rs:51-55 | an unbounded sender and its receiver share one fresh, empty, open channel without capacity |
| Channel.CloseIsShared | ludi-core/src/channel.rs:82-94 | for any sender over a channel in any state, closing a clone of it makes the sender itself report closed and its `try_send` fail with `Disconnected` |
| Futures.QueueStep | ludi-core/src/futures.rs:119-136 | an envelope stays held only on pending or readiness failure; success releases it; nothing held means `Ok` and no change; every error is `Disconnected` |
| Futures.QueueFullKeepsEnvelope | ludi-core/src/futures.rs:126-129 | a channel that fills up between the readiness check and the send gives pending with the same envelope held |
| Futures.QueueReadinessFailureKeepsEnvelope | ludi-core/src/futures.rs:122 | on a closed channel the poll fails with `Disconnected` and the envelope stays held |
| Futures.QueueDisconnectedConsumesEnvelope | ludi-core/src/futures.rs:123-125 | a channel closed after the readiness check gives `Disconnected` with the envelope consumed |
| Futures.QueueReadyQuietSends | ludi-core/src/futures.rs:123-134 | a ready channel with no interference takes the envelope at the end of its queue and the poll succeeds |
| Futures.QueueFuture.constructor | ludi-core/src/futures.rs:108-113 | the future holds the sender and the envelope |
| Futures.QueueFuture.IsTerminated | ludi-core/src/futures.rs:138-142 | terminated if and only if no envelope is held |
| Futures.QueueFuture.TerminatedPollSendsNothing | ludi-core/src/futures.rs:116-142 | a terminated future's poll, on any channel state and whatever other senders do, is `Ok`, sends nothing and leaves the channel as it was |
| Futures.QueueFuture.Poll | ludi-core/src/futures.rs:119-135 | result, held envelope and channel state are `QueueStep` of the old ones; a consumed envelope that failed drops its response sender |
| Futures.WaitStep | ludi-core/src/futures.rs:58-70 | the response is polled only once queueing succeeded; until then the queue's pending or error is returned |
| Futures.WaitYieldsSentValueOrInterrupted | ludi-core/src/futures.rs:69 | once queued, the Wait future yields the sent value, or `Interrupted` if the sender was dropped, else pending |
| Futures.DetachStep | ludi-core/src/futures.rs:76-86 | yields the response future if and only if queueing succeeded; otherwise pending or `Disconnected` |
| Futures.MessageFuture.constructor | ludi-core/src/futures.rs:36-42 | Wait mode with the queue future and the response future |
| Futures.MessageFuture.Detached | ludi-core/src/futures.rs:46-52 | Detach mode with the given queue and response |
| Futures.MessageFuture.DetachMode | ludi-core/src/futures.rs:46-52 | `detach` keeps the same queue and response and switches to Detach mode |
| Futures.MessageFuture.IsTerminated | ludi-core/src/futures.rs:89-98 | only in waiting mode: terminated if and only if the queue is terminated and the response is absent or terminated |
| Futures.MessageFuture.PollWait | ludi-core/src/futures.rs:58-70 | follows `WaitStep`; the reply value is kept until queueing succeeded, and the whole response slot is untouched while queueing is pending; a successful reply leaves the future terminated |
| Futures.MessageFuture.PollDetach | ludi-core/src/futures.rs:76-86 | follows `DetachStep`; the response future is handed out once and removed |
| Addresses.ClosedErr | ludi-core/src/address.rs:66-73 | success kept; any error becomes `MessageError::Closed` |
| Addresses.ClosedPoll | ludi-core/src/address.rs:57-64 | pending stays pending; a ready result is mapped by `ClosedErr` |
| Addresses.FuturesAddress.Clone | ludi-core/src/address.rs:43-49 | a clone shares the same channel sender |
| Addresses.FuturesAddress.SinkPollReady | ludi-core/src/address.rs:57-64 | pending exactly when the channel is full and open; `Closed` exactly when it is closed; ready exactly when it is open with room; every error is `Closed` |
| Addresses.FuturesAddress.SinkStartSend | ludi-core/src/address.rs:66-73 | `try_send` with every error reported as `Closed`; a rejected envelope drops its response sender |
| Addresses.SendStep | ludi-core/src/address.rs:107-111 | on a closed channel the send fails with `Closed`; on success the envelope is appended after what others sent; when the channel is ready and still has room after what others did, the send succeeds and queues the envelope |
| Addresses.SendReadyQuietSends | ludi-core/src/address.rs:107-111 | on a ready channel no other sender touches, the send succeeds and the envelope is the last in the queue |
| Addresses.ReplyOutcome | ludi-core/src/address.rs:113-115 | a reply is passed through `unwrap_return`; a dropped sender gives `Interrupted` |
| Addresses.SendAwaitStep | ludi-core/src/address.rs:100-116 | the reply is awaited only after the send succeeded; a send error ends with `Closed` |
| Addresses.SendAwaitClosed | ludi-core/src/address.rs:107-111 | `send_await` on a closed channel ends with `Err(Closed)` |
| Addresses.SendAwaitInterrupted | ludi-core/src/address.rs:113 | a reply sender dropped before replying ends `send_await` with `Err(Interrupted)` |
| Addresses.SendAwaitUnwraps | ludi-core/src/address.rs:115 | a reply tagged with the message's own variant is returned as `Ok(reply)` |
| Addresses.SendAwaitFuture.constructor | ludi-core/src/address.rs:105 | the future starts by sending the envelope |
| Addresses.SendAwaitFuture.Poll | ludi-core/src/address.rs:100-116 | result, phase and channel follow `SendAwaitStep`; the reply slot is taken from exactly when the reply is polled, and untouched while the send is pending |
| Addresses.SendAwait | ludi-core/src/address.rs:100-105 | the envelope wants a response, carries the injected message and is paired with a fresh, empty slot |
| Addresses.SendFuture.constructor | ludi-core/src/address.rs:123-125 | the future holds the plain envelope and has not finished |
| Addresses.SendFuture.Poll | ludi-core/src/address.rs:118-128 | result and channel follow `SendStep`; the future finishes exactly when ready |
| Addresses.Send | ludi-core/src/address.rs:118-128 | the envelope wants no response and carries the injected message |
| Addresses.RequestReply | ludi-core/src/address.rs:100-116 | the round trip through a mailbox: the first poll waits, and after the handler runs the second yields exactly its reply |
| Mailboxes.MailboxAddress.Clone | ludi-core/src/mailbox.rs:44-50 | a clone shares the same channel sender |
| Mailboxes.FuturesMailbox.constructor | ludi-core/src/mailbox.rs:11-18 | one fresh, empty, open channel of capacity 100, whose sender is the address and whose receiver is the stream |
| Mailboxes.FuturesMailbox.Address | ludi-core/src/mailbox.rs:24-26 | returns that paired address |
| Mailboxes.FuturesMailbox.PollNext | ludi-core/src/mailbox.rs:32-37 | yields exactly what the receiver yields |
| Mailboxes.MailboxSendStep | ludi-core/src/mailbox.rs:53-70 | a failed send or a dropped reply is a panic; a reply is returned converted by `into`; otherwise it keeps waiting |
| Mailboxes.MailboxSendFuture.constructor | ludi-core/src/mailbox.rs:59-61 | the future starts by sending the envelope |
| Mailboxes.MailboxSendFuture.Poll | ludi-core/src/mailbox.rs:53-70 | result, phase and channel follow `MailboxSendStep`; the reply slot is taken from once the send has gone through, and untouched while the send is pending |
| Mailboxes.Send | ludi-core/src/mailbox.rs:53-63 | exactly one response-bearing envelope of the message, paired with a fresh, empty slot |
| Mailboxes.SendOnClosedPanics | ludi-core/src/mailbox.rs:65 | sending to a closed mailbox panics |
| Actors.Context.constructor | ludi-core/src/lib.rs:96-102 | a new context is running |
| Actors.Context.Stop | ludi-core/src/lib.rs:108-114 | afterwards `stopped()` holds |
| Actors.DefaultStarted | ludi-core/src/lib.rs:28-33 | the default `started` returns `Ok(())`, leaves the state alone and does not stop |
| Actors.Loop | ludi-core/src/lib.rs:44-51 | pulls at most the whole mailbox; a stop means at least one message was handled; without a stop the mailbox is drained |
| Actors.RunOutcome | ludi-core/src/lib.rs:37-55 | a failed `started` returns its stop value with nothing pulled; otherwise `stopped()` runs on the state the loop leaves, and its value is returned |
| Actors.LoopDrainsMailbox | ludi-core/src/lib.rs:44 | handlers that never stop make the loop pull every message |
| Actors.LoopIgnoresRest | ludi-core/src/lib.rs:48-50 | after a stop, later messages are never pulled |
| Actors.LoopComposes | ludi-core/src/lib.rs:44-51 | without a stop, running over `ms + rest` is running over `ms`, then over `rest` |
| Actors.StartFailureSkipsMailbox | ludi-core/src/lib.rs:40-42 | a failing `started` pulls no message and returns its own stop value |
| Actors.StopDuringStartIsIgnored | ludi-core/src/lib.rs:39-46 | a `stop` during `started` changes nothing, because each message gets a fresh context |
| Actors.Run | ludi-core/src/lib.rs:37-55 | the loop, with a fresh `Context` per message and a `break` on stop, returns exactly `RunOutcome` |
| Syn.GetIdent | ludi-macros/src/utils.rs:68 | a path is an identifier if and only if it has one segment, no leading `::` and no arguments |
| Syn.LifetimeCount | ludi-macros/src/wrap.rs:36 | zero if and only if there is no lifetime parameter |
| Syn.ConstCount | ludi-macros/src/wrap.rs:43 | zero if and only if there is no const parameter |
| Syn.TypeParams | ludi-macros/src/wrap.rs:63 | exactly the declared type parameters' names |
| Syn.UsesTypeParams | ludi-macros/src/items/method.rs:211-219 | the declared parameters a type mentions, through paths and their arguments, references, slices, arrays, pointers, tuples, parentheses, groups, bare fn types, `Fn(..) -> T` outputs and trait bounds: always a subset of the declared ones |
| Syn.BareParamUsesItself | ludi-macros/src/items/method.rs:211-219 | a bare parameter type uses exactly that parameter |
| Syn.ArrayOfParamUsesIt | ludi-macros/src/items/method.rs:211-219 | an array `[T; n]` of a parameter uses exactly that parameter |
| WrapDerive.VariantTypes | ludi-macros/src/wrap.rs:55 | contains every variant's payload type, and has at most one element per variant |
| WrapDerive.VariantTypesMembers | ludi-macros/src/wrap.rs:55 | a type is in the set if and only if some variant carries it |
| WrapDerive.DistinctIffSameCount | ludi-macros/src/wrap.rs:55-61 | the set has as many elements as there are variants if and only if the payload types are pairwise distinct |
| WrapDerive.NoViolationIffValid | ludi-macros/src/wrap.rs:33-81 | no rule is broken if and only if there are no lifetime or const generics, payloads are distinct and none is a bare type parameter |
| WrapDerive.CollectTypes | ludi-macros/src/wrap.rs:55 | the loop builds exactly the set of payload types |
| WrapDerive.GenericVariantErrors | ludi-macros/src/wrap.rs:63-76 | one error for each payload type that is a bare type parameter, each reported once |
| WrapDerive.FixedErrors | ludi-macros/src/wrap.rs:36-61 | the lifetime, const and duplicate errors, each present exactly when its check fails |
| WrapDerive.ErrorsAreViolations | ludi-macros/src/wrap.rs:33-78 | the accumulated errors are exactly the rules broken, each once |
| WrapDerive.Validate | ludi-macros/src/wrap.rs:33-81 | `Ok` with the input unchanged if and only if no rule is broken; otherwise the errors are exactly the broken rules, without repeats |
| WrapDerive.ReturnIdent | ludi-macros/src/wrap.rs:106 | the return enum is named `{Ident}Return` |
| WrapDerive.ReturnVariants | ludi-macros/src/wrap.rs:122-126 | one return variant per message variant, same tag, carrying that payload's return type |
| WrapDerive.VariantFor | ludi-macros/src/wrap.rs:129-134 | finds the first variant carrying the type, and finds one exactly when the type is a payload |
| WrapDerive.VariantForUnique | ludi-macros/src/wrap.rs:129-134 | with distinct payloads, each variant's type leads back to that variant |
| WrapDerive.From | ludi-macros/src/wrap.rs:129-134 | injection tags the value with the variant that carries the type, and keeps the value |
| WrapDerive.UnwrapReturn | ludi-macros/src/wrap.rs:137-145 | `Ok` with the value if and only if the tag is the type's own; otherwise `Err(Wrapper)` |
| WrapDerive.Dispatch | ludi-macros/src/wrap.rs:172-178 | the reply is re-wrapped in the message's own tag |
| WrapDerive.InjectDispatchUnwrap | ludi-macros/src/wrap.rs:128-145 | inject, dispatch, then unwrap gives `Ok` of the inner handler's reply |
| WrapDerive.MismatchedTagIsWrapperError | ludi-macros/src/wrap.rs:141 | a reply carrying another variant's tag unwraps to `Err(Wrapper)` |
| Options.MergeAttrs | ludi-macros/src/options.rs:29-35 | absent only when both are absent; the lists are concatenated, self's first |
| Options.Later | ludi-macros/src/options.rs:37-47 | other's value wins when present, else self's is kept |
| Options.WrapOptions.Merge | ludi-macros/src/options.rs:100-113 | attrs concatenated; name replaced only when other has one |
| Options.MsgOptions.Merge | ludi-macros/src/options.rs:28-60 | attrs concatenated; vis, name and path replaced only when present; wrap merged when both are explicit, kept when only self's is, else taken from other (even when absent); flags copied from other |
| Options.MsgOptions.WrapInForce | ludi-macros/src/items/item_impl.rs:151-158 | absent if and only if no wrap option; a bare `wrap` means the default options |
| Options.CtrlOptions.Merge | ludi-macros/src/options.rs:128-149 | attrs concatenated; name, path and err replaced only when present |
| Options.CtrlOptions.ErrorStrategy | ludi-macros/src/options.rs:151-160 | no err gives `Panic`, bare `err` gives `Try`, `err = e` gives `Map(e)`, in both directions |
| Options.StrategyFor | ludi-macros/src/items/method.rs:393-396 | no controller options means the default, `Panic` |
| Options.Combine | ludi-macros/src/items/method.rs:69-85 | own options merged over inherited ones, or either alone; absent only when both are |
| Options.MergeAttrsAssociative | ludi-macros/src/options.rs:29-35 | merging attribute lists is associative |
| Options.MergeWrapAssociative | ludi-macros/src/options.rs:49-55 | merging wrap options is associative |
| Options.MsgMergeAssociative | ludi-macros/src/options.rs:28-60 | `MsgOptions::merge` is associative, so repeated attributes may be folded in any grouping |
| Options.MsgDefaultIsNeutralOnTheLeft | ludi-macros/src/options.rs:62-74 | merging into the defaults gives the merged options unchanged |
| Options.MsgMergeOfNothingClearsFlags | ludi-macros/src/options.rs:57-59 | merging empty options clears the three flags and drops a bare `wrap`, keeping the rest |
| Options.CtrlMergeStrategy | ludi-macros/src/options.rs:146-160 | after a merge, the error strategy is other's when other sets `err`, else self's |
| Options.ScanAttributes | ludi-macros/src/options.rs:62-89 | no attributes gives no match and the defaults |
| Options.FromAttributes | ludi-macros/src/options.rs:62-89 | a result is the options the scan accumulated over at least one matching attribute |
| Options.ScanOutcome | ludi-macros/src/options.rs:62-89 | the scan fails if and only if some matching attribute does not parse; otherwise it has matched if and only if some attribute names the option |
| Options.FromAttributesSomeIff | ludi-macros/src/options.rs:84-88 | a result exists if and only if some attribute names the option and all such attributes parse |
| Options.ScanIgnoresOthers | ludi-macros/src/options.rs:66 | non-matching attributes do not affect the scan |
| Options.InvalidIsFinal | ludi-macros/src/options.rs:75-78 | once an attribute fails to parse, no later attribute changes the failure |
| Options.MaybeFromAttributes | ludi-macros/src/options.rs:62-89 | the loop with the `any` flag and early return equals `FromAttributes` |
| Options.MsgFromAttributes | ludi-macros/src/options.rs:62-89 | `MsgOptions::maybe_from_attributes` is the scan for `msg` with `MsgOptions::merge` |
| Options.CtrlFromAttributes | ludi-macros/src/options.rs:162-188 | `CtrlOptions::maybe_from_attributes` is the scan for `ctrl` with `CtrlOptions::merge` |
| Options.LaterMsgNameWins | ludi-macros/src/options.rs:252-267 | with names Foo then Bar and a vis, the name is Bar, the vis is set and attrs stay absent |
| MacroUtils.CtrlIdent | ludi-macros/src/utils.rs:5-10 | the actor's name followed by `Ctrl` |
| MacroUtils.CtrlIdentInjective | ludi-macros/src/utils.rs:5-10 | distinct actors get distinct controller names |
| MacroUtils.LudiAttrIff | ludi-macros/src/utils.rs:67-76 | an attribute is ludi's if and only if its path is the single identifier `msg` or `ctrl` |
| MacroUtils.FirstOutput | ludi-macros/src/utils.rs:56-64 | finds an `Output = T` binding if and only if there is one, and returns the type of the first |
| MacroUtils.FutOutput | ludi-macros/src/utils.rs:46-65 | only a bound whose last segment is `Future` with angle-bracketed arguments counts, and then its `Output` binding is the result |
| MacroUtils.FirstFutureOutput | ludi-macros/src/utils.rs:29-35 | no result for an empty bound list |
| MacroUtils.FirstFutureOutputSpec | ludi-macros/src/utils.rs:29-35 | none if and only if no trait bound has a future output; otherwise the output of one of them |
| MacroUtils.ExtractOutput | ludi-macros/src/utils.rs:13-44 | async: the declared type, or `()`; not async: the output of an `impl` bound list, and none for every other return type |
| MacroUtils.ImplFutureOutput | ludi-macros/src/utils.rs:28-35 | `-> impl … + Future<Output = T> + …` yields `T` when no earlier bound is a future |
| MacroUtils.FirstFutureOutputSkips | ludi-macros/src/utils.rs:29-35 | bounds without a future output are skipped |
| Methods.CheckSignature | ludi-macros/src/items/method.rs:141-152 | a type-parameter error exactly for generic methods, a const error exactly for const ones, nothing else |
| Methods.ArgOf | ludi-macros/src/items/method.rs:160-184 | receivers are dropped silently; unnamed patterns are an error; a named argument is kept, with an error when its type is a reference, slice or trait object |
| Methods.ArgsOf | ludi-macros/src/items/method.rs:156-185 | the kept arguments are exactly the named typed inputs, and each input's error is reported |
| Methods.ExtractArgs | ludi-macros/src/items/method.rs:155-203 | the output type when there is one, else `()` with a not-async error; an unsized return type is an error; nothing else is reported |
| Methods.UsesInTypesIff | ludi-macros/src/items/method.rs:211-216 | a parameter is used by the arguments if and only if some argument type uses it |
| Methods.ExtractTypeParams | ludi-macros/src/items/method.rs:206-232 | the parameters used by the arguments, with an error exactly when the return type uses one they do not |
| Methods.ArrayArgumentCoversReturn | ludi-macros/src/items/method.rs:206-232 | `fn m(&mut self, xs: [T; 4]) -> T`: the method uses exactly `T` and returning `T` is no error |
| Methods.Replace | ludi-macros/src/items/method.rs:91-92 | a string shorter than the pattern is unchanged |
| Methods.ReplaceAbsent | ludi-macros/src/items/method.rs:91-92 | a string without the pattern is unchanged |
| Methods.ReplaceFirstOccurrence | ludi-macros/src/items/method.rs:91-92 | the first occurrence of the pattern is replaced, and replacement goes on after it |
| Methods.StructIdent | ludi-macros/src/items/method.rs:87-104 | the name template with `{item}` and `{name}` filled in, else `{Parent}Msg{Method}` |
| Methods.NameTemplateFilled | ludi-macros/src/items/method.rs:87-94 | a template `pre{name}post` names the struct `pre`, the method in upper camel case, then `post` |
| Methods.ItemTemplateFilled | ludi-macros/src/items/method.rs:87-94 | a template `pre{item}post` names the struct `pre`, the parent, then `post` |
| Methods.DefaultNameDiffersFromParent | ludi-macros/src/items/method.rs:96-111 | the default name never equals the parent's |
| Methods.ItemTemplateClashes | ludi-macros/src/items/method.rs:106-111 | the template `{item}` yields the parent's own name, which is the clash the macro reports |
| Methods.PlainNameIsVerbatim | ludi-macros/src/items/method.rs:87-94 | a name without placeholders is used as given |
| Methods.StructPath | ludi-macros/src/items/method.rs:113-118 | `path::Name` when a path option is set, else `Name` |
| Methods.DocAttrs | ludi-macros/src/items/method.rs:120-122 | exactly the `doc` attributes |
| Methods.ForwardedAttrs | ludi-macros/src/items/method.rs:120-123 | exactly the attributes that are neither `doc` nor ludi's |
| Methods.NonLudiAttrs | ludi-macros/src/items/item_impl.rs:56 | exactly the attributes that are not ludi's |
| Methods.AttrDiagnostics | ludi-macros/src/options.rs:75-78 | an error exactly when an option attribute fails to parse |
| Methods.NewMethod | ludi-macros/src/items/method.rs:49-139 | the options in force (own merged over inherited), the arguments and return type, exactly the parent's parameters that the argument types use, the struct name and path, and the doc/forwarded attribute split |
| Methods.SignatureDiagnostics | ludi-macros/src/items/method.rs:60-67 | all signature, argument and return errors, with a return-parameter error exactly when the return type uses a parameter the arguments do not |
| Methods.NamingDiagnostics | ludi-macros/src/items/method.rs:69-111 | a clash error exactly when the struct name equals the parent's; an attribute error exactly when that attribute fails to parse |
| Methods.NewMethodDiagnostics | ludi-macros/src/items/method.rs:49-139 | all the diagnostics of `Method::new`, and nothing else; none is about the enclosing item |
| Methods.SignatureDiagnosticsAreMethodLevel | ludi-macros/src/items/method.rs:60-67 | the signature's errors never report an item of the enclosing impl block or trait |
| Methods.OwnFlagsOverrideInherited | ludi-macros/src/items/method.rs:69-76 | a method's own `msg` attributes decide its `skip`, `skip_handler` and `foreign` flags |
| Methods.DefaultStructName | ludi-macros/src/items/method.rs:96-111 | without a name option the struct is `{Parent}Msg{Method}` and no clash is reported |
| Methods.ExpandHandler | ludi-macros/src/items/method.rs:319-329 | no handler exactly with `skip_handler`; otherwise a missing body is the panic |
| Methods.CtrlInputs | ludi-macros/src/items/method.rs:372-377 | outside a trait, a reference receiver becomes `&self`; all other inputs are kept |
| Methods.ExpandCtrl | ludi-macros/src/items/method.rs:357-411 | a controller method exactly when controller options exist, with the method's visibility, the adjusted signature, the error strategy, the struct path, the argument fields and the attributes |
| Items.ItemDiagnostic | ludi-macros/src/items/item_impl.rs:98-111 | only fn items pass; const, type and other items are each an error |
| Items.SplitItems | ludi-macros/src/items/item_impl.rs:94-113 | keeps exactly the fn items and reports one error for each other item |
| Items.VariantsOf | ludi-macros/src/items/item_impl.rs:183-195 | one wrap variant per method, tagged by its struct name, with its parameters |
| Items.ParamsOfIff | ludi-macros/src/items/item_impl.rs:183-186 | the wrap's parameters are exactly those some method uses |
| Items.CollectVariants | ludi-macros/src/items/item_impl.rs:183-195 | the loop builds exactly those variants and that parameter union |
| Items.WrapOptionsOf | ludi-macros/src/items/item_impl.rs:151-158 | the wrap options in force, absent without a wrap option |
| Items.MessageStructs | ludi-macros/src/items/method.rs:245-251 | every method without `path` or `skip` gets a message struct |
| Items.MessageStructsSound | ludi-macros/src/items/method.rs:245-251 | every message struct emitted comes from such a method |
| ItemImpls.ImplTraitOf | ludi-macros/src/items/item_impl.rs:75-84 | the implemented trait is named by its path's last segment; an empty path fails the `expect` |
| ItemImpls.ParentIdent | ludi-macros/src/items/item_impl.rs:86-90 | the trait's name for trait impls, else the actor's |
| ItemImpls.NewMethods | ludi-macros/src/items/item_impl.rs:114-127 | each fn item becomes a method under the impl's options, always with its block as body |
| ItemImpls.FromItemImpl | ludi-macros/src/items/item_impl.rs:31-140 | aborts on a non-path self type or parenthesized arguments; otherwise impl options merged over the arguments, ludi attributes stripped, actor name, path and generic arguments, trait, and one method per fn item |
| ItemImpls.ImplDiagnostics | ludi-macros/src/items/item_impl.rs:38-127 | reports each non-fn item, each option attribute that fails to parse, and every error `Method::new` reports for a method; and reports nothing else |
| Items.MethodsDiagnostics | ludi-macros/src/items/item_impl.rs:114-127 | every method's diagnostics are reported, nothing else is, and none of them is about the enclosing item |
| ItemImpls.TraitImplNamesAfterTrait | ludi-macros/src/items/item_impl.rs:86-90 | in a trait impl without a name option, every message is `{Trait}Msg{Method}` |
| ItemImpls.ImplHandlersHaveBodies | ludi-macros/src/items/item_impl.rs:124 | every method of any impl block has a body, so handler expansion never panics |
| ItemImpls.ImplWrapName | ludi-macros/src/items/item_impl.rs:165-181 | the explicit name, else `{Actor}{Trait}Msg` for trait impls, else `{Actor}Msg` |
| ItemImpls.ExpandWrap | ludi-macros/src/items/item_impl.rs:150-206 | no enum without a wrap option; otherwise one named by `ImplWrapName`, public, with the wrap attributes, one variant per method and the union of their parameters |
| ItemImpls.CtrlPath | ludi-macros/src/items/item_impl.rs:232-246 | the `ctrl` path or `{Actor}Ctrl`, whose last segment gets the actor's generic arguments followed by `A`; an empty path panics |
| ItemImpls.ExpandController | ludi-macros/src/items/item_impl.rs:216-299 | nothing exactly when no method has controller options; a panic exactly when some method has them and the controller path is empty; otherwise one trait impl holding every method's controller method for trait impls, one block per method for inherent impls, under `CtrlPath` |
| ItemImpls.ExpandParts | ludi-macros/src/items/item_impl.rs:301-319 | messages and wrap only for inherent impls or with `foreign`; handlers and controller always, last |
| ItemTraits.FromItemTrait | ludi-macros/src/items/item_trait.rs:18-65 | one method per fn item, named after the trait, with the trait's visibility, no body and no inherited controller options |
| ItemTraits.TraitDiagnostics | ludi-macros/src/items/item_trait.rs:18-56 | a lifetime error exactly for lifetime-generic traits, one error per non-fn item, and every error `Method::new` reports for a method under the trait's name, type parameters and `msg` options; and nothing else |
| ItemTraits.TraitMethodsHaveNoBody | ludi-macros/src/items/item_trait.rs:44-56 | trait methods have no body, take controller options only from their own attributes, and get no handler |
| ItemTraits.TraitMessageNames | ludi-macros/src/items/item_trait.rs:45-47 | without a name option, a trait method's message is `{Trait}Msg{Method}` |
| ItemTraits.TraitWrapName | ludi-macros/src/items/item_trait.rs:90-92 | the explicit name, else `{Trait}Msg` |
| ItemTraits.TraitWrap | ludi-macros/src/items/item_trait.rs:75-118 | no enum without a wrap option; otherwise one with the trait's visibility, the wrap attributes, one variant per method and their parameters |
| ItemTraits.ExpandWrap | ludi-macros/src/items/item_trait.rs:94-106 | the loop builds exactly `TraitWrap` |
| ItemTraits.Expand | ludi-macros/src/items/item_trait.rs:120-125 | the message structs first, then the wrap enum if any |

## Left out

- Wakers, `Pin`, `task::Context` and scheduling are not modelled. A `poll` is one deterministic step, and what concurrent senders do to the channel is the `race` parameter.
- futures_channel's internals are not modelled. In particular, the bounded capacity is an abstract `cap`, not buffer plus the number of senders.
- Sender reference counting is not modelled. A receiver or the last sender being dropped closes the channel; only the `closed` flag that results is modelled.
- `Sink::poll_flush` and `poll_close` (ludi-core/src/channel.rs:143-163, ludi-core/src/address.rs:75-91) are not modelled. This is a deliberate simplification: `poll_flush` forwards to futures_channel's (ludi-core/src/channel.rs:143-151), which for the bounded sender waits like `poll_ready`, so a real `.send().await` can stay pending after `start_send` until the channel has room again.
- Addresses.SendStep, Addresses.SendAwaitStep and Mailboxes.MailboxSendStep: the send finishes as soon as `start_send` succeeds. The wait for the flush that `SinkExt::send` performs afterwards is dropped.
- `Handler::after` is not modelled. Its default does nothing, and `run` in this revision never calls it.
- `Context::mailbox` (ludi-core/src/lib.rs:104-106) is not modelled. It hands the handler `&mut M`, so a handler can pull messages from the mailbox itself. The model's message sequence is what the run loop itself receives; messages a handler takes out are not in it.
- The `Debug` implementations are not modelled.
- Token emission (`quote!`), spans and diagnostic texts are not modelled. A generated item is a datatype, and the emitted errors are an unordered list.
- syn parsing and darling's `FromMeta`/`FromDeriveInput` are not modelled. `from_meta` is an uninterpreted parameter, and so is `to_upper_camel_case`.
- `Wrap::to_tokens`'s where clauses and generics plumbing are not modelled.
- `Method::expand_message` struct bodies and `expand_handler` destructuring are not modelled; only whether each expansion happens is.
- Modules not part of this model: ludi-macros/src/controller.rs, message.rs, interface.rs, implement.rs and lib.rs (token glue); types.rs (unused); ludi/src/lib.rs and ludi/examples/simple.rs; the test crates.
- Options.MsgOptions.Merge: `merge` changes `&mut self` in place. It is modelled as a function returning the merged copy, because every caller merges into an owned clone. The same holds for `WrapOptions::merge` and `CtrlOptions::merge`.
- Diagnostic texts are abstracted to their kind. `CtrlOptions::maybe_from_attributes` reports a failed `ctrl` parse with the text "invalid `msg` attribute" (ludi-macros/src/options.rs:175); the model's `InvalidAttribute("ctrl")` names `ctrl` and does not carry that text.
- Syn.UsesTypeParams: qualified-self paths (`<T as Trait>::X`), associated-type constraints and associated constants in path arguments, and macro types are not walked. A type parameter mentioned only there is not counted as used.
- Methods.ExtractTypeParams: the fold over argument types is the recursive `UsesInTypes`, not a loop. The set of parameters a type uses is the structural walk of `Syn.UsesTypeParams`, standing in for darling's `uses_type_params`.
- Envelopes.Envelope.Dispatch: Rust takes the envelope by value, so it is dispatched at most once. Here that rule is the precondition that its response sender is still live, which the first dispatch consumes.
- Mailboxes.Send: the message is taken already converted. The `msg.into()` into the actor's message type (ludi-core/src/mailbox.rs:59) is not modelled.
- Mailboxes.MailboxSendStep: `into` is an uninterpreted conversion, and a panic is the outcome `Panicked` rather than an unwinding.

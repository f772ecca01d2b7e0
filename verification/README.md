# ws-queue-web event routing, in Dafny

This project models the event-routing core of `ws-queue-web`, a small
browser WebSocket client. The client holds two handler cells, one for
messages and one for errors.

- A message that arrives while no message handler is installed is queued.
  Installing a handler later drains the queue into it, front first.
- An error that arrives while no error handler is installed is latched in a
  one-value slot. Installing a handler later hands it the latched error once.
- A handler may call `set_onmessage` from inside its own invocation. The
  cell then defers the replacement and applies it when the invocation
  returns.

The model is pure. Handlers are ids that append to a per-channel delivery
log. The socket is a parameter: each send attempt comes with its outcome,
and each event comes with its data. Every payload the socket accepts is
recorded; a send the socket rejects records nothing.

- `wrappers.dfy` (`Wrappers`): `Option` and `Result`.
- `messages.dfy` (`Messages`): `Message`, the `message` event's payload and
  its classification, and the frame an outbound message is sent as.
- `handler_cell.dfy` (`HandlerCells`): `HandlerCell`. The `RefCell` borrow is
  an explicit `inUse` flag, and the `replacement` field is a one-place
  pending swap. `Borrow` and `Release` are `borrow_mut` and the drop of the
  returned `HandlerRef`.
- `client.dfy` (`WebSocketClient`): the message channel (cell, queue, log),
  the error channel (cell, latch, log), the four listeners, `send`,
  `set_onmessage`, `set_onerror` and `report_error`. It also defines the
  inputs (`Input`), one step (`Step`) and a run over a sequence of inputs
  (`Run`).
- `client_loop.dfy` (`ClientLoop`): the `while let` drain loop of
  `set_onmessage`, written as a loop and proved equal to the recursive
  definition.
- `properties.dfy` (`ClientProperties`): properties over whole input
  sequences, and concrete scenarios.

Between inputs, the client satisfies `Client.Valid`:

- both cells are idle: not borrowed, nothing pending;
- a message handler being installed implies the queue is empty;
- an error handler being installed implies the latch is empty.

`Step` preserves `Client.Valid`. So every deferred replacement has landed
before the next input is routed. Buffered messages are never overtaken by
newer ones, and a latched error waits only while no error handler is
installed.

A message handler's own call to `set_onmessage` goes through
`SetOnMessage` while its cell is borrowed, so the install is deferred and
lands when the invocation returns.

The error latch keeps the latest error: `Option::replace` at
`src/lib.rs:118` and `src/lib.rs:231`, and plain assignment at
`src/lib.rs:156`, `181` and `189`, overwrite any earlier error.
`LatchKeepsLatestError` states the resulting scenario: errors E1 then E2
with no handler, then `set_onerror`, delivers E2 alone.

## Model

| member | source | states |
|---|---|---|
| HandlerCells.New | src/lib.rs:34-39 | A new cell has no handler, nothing pending, and is not borrowed. |
| HandlerCells.Borrow | src/lib.rs:40-45 | Borrowing requires a free cell and marks it borrowed; the handler and the pending replacement are kept. |
| HandlerCells.Replace | src/lib.rs:46-57 | Succeeds exactly when the cell is not borrowed. On success the handler becomes `h`. Otherwise the handler is untouched and `h` becomes the pending replacement. Borrow state and consistency are preserved. |
| HandlerCells.Release | src/lib.rs:71-76 | Ending a borrow leaves the cell idle. The handler becomes the pending replacement if there is one; otherwise it stays. |
| HandlerCells.ReplaceWhenFree | src/lib.rs:47-51 | On a free cell, replace installs the handler at once, leaves nothing pending and returns true. |
| HandlerCells.LatestDeferredWins | src/lib.rs:52-55 | Two replacements requested during one borrow act like the second alone. |
| HandlerCells.DeferredAppliedOnce | src/lib.rs:71-76 | A deferred replacement lands when the borrow ends. A later borrow-and-release with no new request changes nothing. |
| HandlerCells.BorrowReleaseIdentity | src/lib.rs:40-45 | A borrow with no replacement request leaves an idle cell exactly as it was. |
| Messages.Classify | src/lib.rs:132-140 | An array buffer becomes a binary message and a string a text message. A payload is discarded exactly when it is neither. |
| Messages.Frame | src/lib.rs:110-113 | A text message is sent as a string and a binary one as a byte array; never as anything else. |
| Messages.ClassifyFrame | src/lib.rs:110-113 | Classifying the frame a message is sent as gives the message back. |
| Messages.FrameClassify | src/lib.rs:132-140 | Every payload the listener accepts is the frame of the message it becomes. |
| WebSocketClient.New | src/lib.rs:91-101 | Fails exactly when the socket constructor fails, with that error. Otherwise the client is valid and has no handlers, an empty queue, an empty latch and nothing sent. |
| WebSocketClient.Invoke | src/lib.rs:141-142 | Invoking the handler delivers the message to it. The cell ends idle, holding the handler's successor: itself, or the one it installed from inside. The queue is untouched. |
| WebSocketClient.RouteMessage | src/lib.rs:141-145 | With no handler the message goes to the back of the queue and nothing else changes. With a handler it is delivered and the queue is untouched. |
| WebSocketClient.Drain | src/lib.rs:210-214 | The drain ends with an idle cell. Messages remain queued only if no handler is installed. |
| WebSocketClient.DrainDeliversPrefix | src/lib.rs:210-214 | The drain delivers a prefix of the queue in order and leaves exactly the matching suffix queued. With no handler it changes nothing. |
| WebSocketClient.SetOnMessage | src/lib.rs:208-216 | From inside a handler, the install is deferred: only the pending replacement changes and the queue is left alone. Otherwise the cell ends idle, and messages remain queued only if the new handler is `None` or uninstalled itself. |
| WebSocketClient.SetOnMessageDrains | src/lib.rs:208-216 | An immediate install delivers a prefix of the queue in order and keeps the rest queued in order. Installing `None` changes only the handler. |
| ClientLoop.SetOnMessageLoop | src/lib.rs:208-216 | The `while let` loop, pop front and invoke, computes the same channel as `SetOnMessage`. |
| WebSocketClient.OnMessageEvent | src/lib.rs:127-146 | An unrecognised payload changes nothing. With no handler the message joins the back of the queue and nothing is delivered; with a handler it is delivered to that handler and the queue is untouched. The cell ends idle. |
| WebSocketClient.ReportError | src/lib.rs:227-233 | With an error handler, the error is delivered and the latch untouched. Without one, the latch holds this error (the latest wins) and nothing is delivered. The cell is unchanged. |
| WebSocketClient.SetOnError | src/lib.rs:218-225 | Installs the handler. If it is `Some` and an error is latched, that error is delivered once and the latch emptied; otherwise nothing else changes. |
| WebSocketClient.Send | src/lib.rs:202-206 | When the socket accepts it, the text is transmitted as a string and the error channel is untouched. When the socket rejects it, nothing is transmitted and the failure is reported through the error channel. Messages are untouched. |
| WebSocketClient.OnOpen | src/lib.rs:103-123 | With no init message there is no open listener, so nothing changes. Otherwise the init message is transmitted as its frame when the socket accepts it; a rejection transmits nothing and is reported through the error channel. |
| WebSocketClient.OnClose | src/lib.rs:165-183 | A clean close adds a text message carrying the reason to delivered-then-queued and leaves the error channel alone. An unclean one leaves the message channel alone and delivers the event to the error handler, or, with none, latches it. |
| WebSocketClient.Step | src/lib.rs:124-233 | Every input takes a valid client to a valid one: both cells idle, no message buffered while a message handler is installed, no error latched while an error handler is installed. |
| WebSocketClient.Run | src/lib.rs:124-233 | A run of inputs keeps the client valid and never changes its init message. |
| ClientProperties.StepConservesMessages | src/lib.rs:124-216 | One input extends delivered-then-queued by exactly the messages it brings in, at the end. |
| WebSocketClient.RouteConserves | src/lib.rs:141-145 | Routing one message appends it to delivered-then-queued. |
| ClientProperties.RunConservesMessages | src/lib.rs:124-216 | Over any input sequence, each arriving message ends up delivered or queued exactly once, in arrival order. |
| ClientProperties.NoMessageLost | src/lib.rs:91-216 | From a new client, delivered-then-queued equals the arrivals, in order. |
| ClientProperties.DrainIntoSteadyHandler | src/lib.rs:210-214 | A handler that keeps itself installed receives the whole queue, in order, and the queue ends empty. |
| ClientProperties.DrainIntoOneShotHandler | src/lib.rs:210-214 | A handler that uninstalls itself takes the front message; the rest stays queued in order. |
| ClientProperties.InboundRouting | src/lib.rs:127-146 | A message event leaves the error channel alone. An unrecognised payload changes nothing. With no handler the message is queued, not dropped; with a handler it is delivered. |
| ClientProperties.StepRoutesErrors | src/lib.rs:103-233 | For every input except `set_onerror`: with an error handler, the raised errors are delivered; without one, the latest raised error overwrites the latch. |
| ClientProperties.RunDeliversErrors | src/lib.rs:148-233 | With an error handler and no `set_onerror`, every raised error is delivered in the order raised, and the latch is untouched. |
| ClientProperties.RunLatchesLatestError | src/lib.rs:148-233 | With no error handler and no `set_onerror`, nothing is delivered and the latch ends holding the latest raised error. |
| ClientProperties.SetOnErrorDeliversOnce | src/lib.rs:218-225 | The latched error is delivered once: installing the same handler again delivers nothing more. Installing `None` keeps the latch. |
| ClientProperties.CleanCloseIsAMessage | src/lib.rs:168-175 | A clean close adds a text message carrying the reason to the message channel and leaves the error channel alone. |
| ClientProperties.UncleanCloseIsAnError | src/lib.rs:176-191 | An unclean close, or a close event that is not a `CloseEvent`, reports the event as an error and leaves the message channel alone. |
| ClientProperties.StepTransmits | src/lib.rs:103-206 | One input transmits exactly the payloads it gets the socket to accept. |
| ClientProperties.RunTransmits | src/lib.rs:103-206 | Over any input sequence, the socket is sent the init message at each open event and the text of each `send`, in order, whenever it accepts them, and nothing else. |
| ClientProperties.NoTransmissions | src/lib.rs:103-206 | A run of inputs that are neither open events nor sends transmits nothing. |
| ClientProperties.InitMessageSentAtOpen | src/lib.rs:103-113 | A client created with init message "hello" sends nothing before the socket opens, and "hello" as a string when it does. |
| ClientProperties.InstallWithEmptyQueue | src/lib.rs:208-216 | Installing a handler while nothing is queued installs it and does nothing else. |
| ClientProperties.InstallSteadyHandler | src/lib.rs:208-216 | Installing a handler that keeps itself installed delivers the whole queue to it, in order, and empties it. |
| ClientProperties.BufferedInArrivalOrder | src/lib.rs:141-145 | Binary [1, 2, 3] and then text "hi", arriving with no handler, are queued in that order and not delivered. |
| ClientProperties.BufferedUntilInstalled | src/lib.rs:208-216 | A handler installed after those two arrivals receives both during the install, binary first. |
| ClientProperties.SelfReplacement | src/lib.rs:46-57 | A handler that installs a successor from inside its invocation still receives the current message; the successor receives the next one. |
| ClientProperties.LatchKeepsLatestError | src/lib.rs:151-158 | Errors E1 then E2 with no handler, then `set_onerror`: the handler receives E2 alone and the latch is emptied. |

## Left out

- `EventListener` (`src/lib.rs:236-264`): registering listeners on the socket and removing them on drop is browser glue. The model treats the four listeners as always attached to the client. The open listener exists only with an init message (`OnOpen`).
- The `web_sys::WebSocket` transport: connecting, `set_binary_type`, and the sends themselves. A send's outcome is a parameter (`SendResult`), and the payloads handed over are recorded in `transmitted`.
- JavaScript casts (`dyn_into`, `Uint8Array::to_vec`, `JsString` to `String`): these are a classification of the payload (`Payload`). UTF-16 to UTF-8 conversion is the identity on `string`.
- The first cast in the message listener is not modelled: an event that is not a `MessageEvent` makes the listener panic.
- `Rc` sharing: each channel is one value, not shared pointers.
- Closure state: a handler's behaviour is fixed by its id and its `reentry`.
- A message handler's calls to `send` or `set_onerror` from inside its invocation are not modelled. The only reentry modelled is `set_onmessage`.
- An error handler that calls `set_onerror` or a failing `send` from inside its invocation is not modelled either. The source ignores `replace`'s result in `set_onerror` and then takes `borrow_mut`, and `report_error` also takes `borrow_mut`. So such calls panic at the nested borrow in the source. The model's error handlers are plain ids.
- SetOnError: requires an idle error cell, because a call made while the cell is borrowed panics in the source. The deferred-replacement path of `replace` is not reached on this channel.
- Borrow panics in general: every `RefCell` borrow that would panic in the source is excluded by a precondition (`Borrow` requires a free cell). `Step` keeps both cells idle between inputs.
- Events are assumed to reach the listeners one at a time, as the browser's event loop delivers them. No event arrives while a handler is running.
- The event objects converted into errors (`error.into()`, `event.into()`) are opaque `JsValue`s; their contents are not modelled.

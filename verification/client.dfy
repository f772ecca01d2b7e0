/** The client's event routing as a state machine. The message cell and its
    FIFO queue form one channel, the error cell and its one-value latch
    another; the socket's listeners (open, message, error, close) and the
    public operations (`send`, `set_onmessage`, `set_onerror`) are pure
    transitions. Handlers are opaque ids; invoking one appends the id and
    the argument to its channel's delivery log. */
module WebSocketClient {
  import opened Wrappers
  import opened Messages
  import opened HandlerCells

  /** A message handler: its id, and what it does besides receiving the
      message — nothing, or a call to `set_onmessage(next)` from inside its
      own invocation. */
  datatype MessageHandler = MessageHandler(id: nat, reentry: Reentry)

  datatype Reentry = Returns | CallsSetOnMessage(next: Option<MessageHandler>)

  /** An error handler: an id. It never calls back into the client. */
  datatype ErrorHandler = ErrorHandler(id: nat)

  /** One invocation of a handler: the handler's id and its argument. */
  datatype Delivery<T> = Delivery(handler: nat, value: T)

  /** What the socket reports for one send attempt. */
  datatype SendResult = Sent | SendFailed(error: JsValue)

  /** The message cell, the queue of messages that arrived while no handler
      was installed, and the deliveries made so far. */
  datatype MessageChannel = MessageChannel(
    cell: HandlerCell<MessageHandler>,
    queue: seq<Message>,
    log: seq<Delivery<Message>>)
  {
    /** The state between inputs: the cell is idle, and no message is
        buffered while a handler is installed (so buffered messages are
        never overtaken by newer ones). */
    predicate Valid() {
      cell.Idle() && (cell.handler.Some? ==> queue == [])
    }
  }

  /** The error cell, the latched error, and the deliveries made so far. */
  datatype ErrorChannel = ErrorChannel(
    cell: HandlerCell<ErrorHandler>,
    latched: Option<JsValue>,
    log: seq<Delivery<JsValue>>)
  {
    /** The state between inputs: the cell is idle, and an error is latched
        only while no handler is installed (installing one takes it). */
    predicate Valid() {
      cell.Idle() && (cell.handler.Some? ==> latched.None?)
    }
  }

  /** The client: both channels, the init message the open listener sends,
      and the payloads the socket has accepted so far (a send the socket
      rejects transmits nothing). */
  datatype Client = Client(
    messages: MessageChannel,
    errors: ErrorChannel,
    initMessage: Option<Message>,
    transmitted: seq<Payload>)
  {
    /** The state every input starts from and returns to. */
    predicate Valid() {
      messages.Valid() && errors.Valid()
    }
  }

  /** The values handed to handlers, in delivery order. */
  function Values<T>(log: seq<Delivery<T>>): seq<T>
  {
    if |log| == 0 then [] else Values(log[..|log| - 1]) + [log[|log| - 1].value]
  }

  /** Logging one more delivery adds its value at the end. */
  lemma ValuesAppend<T>(log: seq<Delivery<T>>, d: Delivery<T>)
    ensures Values(log + [d]) == Values(log) + [d.value]
  {
    assert (log + [d])[..|log|] == log;
  }

  /** The handler that is installed after `h` has run once: `h` itself, or
      the one it asked `set_onmessage` to install. */
  function Successor(h: MessageHandler): Option<MessageHandler>
  {
    match h.reentry
    case Returns => Some(h)
    case CallsSetOnMessage(next) => next
  }

  /** `WebSocketClient::new`: fails with the socket constructor's error, or
      yields a client with empty cells, queue and latch. The open listener
      exists only when an init message is given (see `OnOpen`). */
  function New(initMessage: Option<Message>, socketError: Option<JsValue>): (r: Result<Client, JsValue>)
    ensures socketError.Some? <==> r.Err?
    ensures r.Err? ==> r.error == socketError.value
    ensures r.Ok? ==> r.value.Valid() && r.value.initMessage == initMessage && r.value.transmitted == []
    ensures r.Ok? ==> r.value.messages.cell.handler.None? && r.value.messages.queue == [] && r.value.messages.log == []
    ensures r.Ok? ==> r.value.errors.cell.handler.None? && r.value.errors.latched.None? && r.value.errors.log == []
  {
    match socketError
    case Some(e) => Err(e)
    case None => Ok(Client(MessageChannel(HandlerCells.New(), [], []), ErrorChannel(HandlerCells.New(), None, []), initMessage, []))
  }

  // ---------------------------------------------------------------------
  // The message channel

  /** Invokes the installed message handler on `m` under a borrow of the
      cell; the handler's own call to `set_onmessage` finds the cell
      borrowed, so the install is deferred and lands when the borrow ends. */
  function Invoke(ch: MessageChannel, m: Message): (r: MessageChannel)
    requires ch.cell.Idle() && ch.cell.handler.Some?
    ensures r.cell.Idle()
    ensures r.cell.handler == Successor(ch.cell.handler.value)
    ensures r.log == ch.log + [Delivery(ch.cell.handler.value.id, m)]
    ensures r.queue == ch.queue
    decreases |ch.queue|, 2
  {
    var h := ch.cell.handler.value;
    var guard := Borrow(ch.cell);
    var guard' := match h.reentry
      case Returns => guard
      case CallsSetOnMessage(next) => SetOnMessage(ch.(cell := guard), next).cell;
    ch.(cell := Release(guard'), log := ch.log + [Delivery(h.id, m)])
  }

  /** Routes a message: to the installed handler, or to the back of the
      queue when there is none. */
  function RouteMessage(ch: MessageChannel, m: Message): (r: MessageChannel)
    requires ch.cell.Idle()
    ensures r.cell.Idle()
    ensures ch.cell.handler.None? ==> r == ch.(queue := ch.queue + [m])
    ensures ch.cell.handler.Some? ==>
      && r.queue == ch.queue
      && r.log == ch.log + [Delivery(ch.cell.handler.value.id, m)]
      && r.cell.handler == Successor(ch.cell.handler.value)
  {
    if ch.cell.handler.Some? then Invoke(ch, m)
    else ch.(cell := Release(Borrow(ch.cell)), queue := ch.queue + [m])
  }

  /** In a valid channel, routing a message appends it to what has been
      delivered followed by what is queued: it is neither lost nor
      overtaken. */
  lemma RouteConserves(ch: MessageChannel, m: Message)
    requires ch.Valid()
    ensures Values(RouteMessage(ch, m).log) + RouteMessage(ch, m).queue == Values(ch.log) + ch.queue + [m]
  {
    if ch.cell.handler.Some? {
      ValuesAppend(ch.log, Delivery(ch.cell.handler.value.id, m));
    }
  }

  /** One turn of the drain: delivering the front of `q` and then a prefix
      of the rest delivers a prefix of `q` and leaves the matching suffix. */
  lemma DrainStep<T>(q: seq<T>, before: seq<T>, middle: seq<T>, after: seq<T>, rest: seq<T>)
    requires 0 < |q| && middle == before + [q[0]]
    requires |rest| <= |q| - 1 && rest == q[1..][|q| - 1 - |rest|..]
    requires after == middle + q[1..][..|q| - 1 - |rest|]
    ensures rest == q[|q| - |rest|..]
    ensures after == before + q[..|q| - |rest|]
  {
    assert [q[0]] + q[1..][..|q| - 1 - |rest|] == q[..|q| - |rest|];
  }

  /** Pops queued messages into the installed handler, front first, while a
      handler is installed and the queue is not empty. It stops with an
      empty queue or with no handler installed. */
  function Drain(ch: MessageChannel): (r: MessageChannel)
    requires ch.cell.Idle()
    ensures r.cell.Idle()
    ensures r.queue != [] ==> r.cell.handler.None?
    decreases |ch.queue|, 0
  {
    if ch.cell.handler.None? || |ch.queue| == 0 then ch
    else Drain(Invoke(ch.(queue := ch.queue[1..]), ch.queue[0]))
  }

  /** One turn of the drain, as the loop in `set_onmessage` takes it. */
  lemma DrainUnfold(ch: MessageChannel)
    requires ch.cell.Idle() && ch.cell.handler.Some? && |ch.queue| > 0
    ensures Drain(ch) == Drain(Invoke(ch.(queue := ch.queue[1..]), ch.queue[0]))
  {
  }

  /** What the drain does to the queue: it hands a prefix of the queue, in
      order, to the handlers and leaves the matching suffix queued. A
      handler that replaces itself passes the rest of the queue on to its
      successor; one that uninstalls itself leaves the rest queued in order.
      With no handler installed it changes nothing. */
  lemma {:induction false} DrainDeliversPrefix(ch: MessageChannel)
    requires ch.cell.Idle()
    ensures var r := Drain(ch);
      && |r.queue| <= |ch.queue|
      && r.queue == ch.queue[|ch.queue| - |r.queue|..]
      && Values(r.log) == Values(ch.log) + ch.queue[..|ch.queue| - |r.queue|]
    ensures ch.cell.handler.None? ==> Drain(ch) == ch
    decreases |ch.queue|
  {
    if ch.cell.handler.Some? && |ch.queue| > 0 {
      var next := Invoke(ch.(queue := ch.queue[1..]), ch.queue[0]);
      DrainDeliversPrefix(next);
      var r := Drain(next);
      ValuesAppend(ch.log, Delivery(ch.cell.handler.value.id, ch.queue[0]));
      DrainStep(ch.queue, Values(ch.log), Values(next.log), Values(r.log), r.queue);
    }
  }

  /** `set_onmessage`: when the cell is free the handler is installed and the
      queue drained into it; from inside a message handler the install is
      deferred (it lands when that handler returns) and the queue is left
      alone. */
  function SetOnMessage(ch: MessageChannel, h: Option<MessageHandler>): (r: MessageChannel)
    requires ch.cell.Consistent()
    ensures ch.cell.inUse ==> r == ch.(cell := ch.cell.(replacement := Some(h)))
    ensures !ch.cell.inUse ==> r.cell.Idle() && (r.queue != [] ==> r.cell.handler.None?)
    decreases |ch.queue|, 1
  {
    var (cell, installed) := Replace(ch.cell, h);
    if installed then Drain(ch.(cell := cell)) else ch.(cell := cell)
  }

  /** An immediate install drains the queue in FIFO order: a prefix of the
      queue is delivered, in order, and the rest stays queued in its
      original order. Installing `None` changes nothing but the cell. */
  lemma SetOnMessageDrains(ch: MessageChannel, h: Option<MessageHandler>)
    requires ch.cell.Idle()
    ensures var r := SetOnMessage(ch, h);
      && |r.queue| <= |ch.queue|
      && r.queue == ch.queue[|ch.queue| - |r.queue|..]
      && Values(r.log) == Values(ch.log) + ch.queue[..|ch.queue| - |r.queue|]
    ensures h.None? ==> SetOnMessage(ch, h) == ch.(cell := ch.cell.(handler := None))
  {
    DrainDeliversPrefix(ch.(cell := Replace(ch.cell, h).0));
  }

  /** The `message` listener: a classified payload is routed; an
      unrecognised one is dropped and changes nothing. */
  function OnMessageEvent(ch: MessageChannel, p: Payload): (r: MessageChannel)
    requires ch.cell.Idle()
    ensures r.cell.Idle()
    ensures Classify(p).None? ==> r == ch
    ensures Classify(p).Some? && ch.cell.handler.None? ==>
      r.log == ch.log && r.queue == ch.queue + [Classify(p).value]
    ensures Classify(p).Some? && ch.cell.handler.Some? ==>
      r.queue == ch.queue && r.log == ch.log + [Delivery(ch.cell.handler.value.id, Classify(p).value)]
  {
    match Classify(p)
    case None => ch
    case Some(m) => RouteMessage(ch, m)
  }

  // ---------------------------------------------------------------------
  // The error channel

  /** Routes an error: to the installed handler, or into the latch,
      overwriting whatever it held (the latest error wins). */
  function ReportError(ch: ErrorChannel, e: JsValue): (r: ErrorChannel)
    requires ch.cell.Idle()
    ensures r.cell == ch.cell
    ensures ch.cell.handler.Some? ==>
      r.latched == ch.latched && r.log == ch.log + [Delivery(ch.cell.handler.value.id, e)]
    ensures ch.cell.handler.None? ==> r.latched == Some(e) && r.log == ch.log
  {
    var guard := Borrow(ch.cell);
    var ch' := ch.(cell := Release(guard));
    match guard.handler
    case Some(h) => ch'.(log := ch.log + [Delivery(h.id, e)])
    case None => ch'.(latched := Some(e))
  }

  /** `set_onerror`: installs the handler and, if one is installed, hands it
      the latched error once and empties the latch. The source ignores
      `replace`'s result and then borrows the cell, which panics when called
      from inside the error handler; hence the precondition. */
  function SetOnError(ch: ErrorChannel, h: Option<ErrorHandler>): (r: ErrorChannel)
    requires ch.cell.Idle()
    ensures r.cell.Idle() && r.cell.handler == h
    ensures h.Some? && ch.latched.Some? ==>
      r.latched.None? && r.log == ch.log + [Delivery(h.value.id, ch.latched.value)]
    ensures h.None? || ch.latched.None? ==> r.latched == ch.latched && r.log == ch.log
  {
    var guard := Borrow(Replace(ch.cell, h).0);
    var ch' := ch.(cell := Release(guard));
    if guard.handler.Some? && ch.latched.Some? then
      ch'.(latched := None, log := ch.log + [Delivery(guard.handler.value.id, ch.latched.value)])
    else ch'
  }

  // ---------------------------------------------------------------------
  // The client

  /** `send`: one text frame goes to the socket; a synchronous failure is
      reported through the error channel. */
  function Send(c: Client, text: string, result: SendResult): (r: Client)
    requires c.errors.cell.Idle()
    ensures result.Sent? ==> r.transmitted == c.transmitted + [StringData(text)] && r.errors == c.errors
    ensures result.SendFailed? ==>
      r.transmitted == c.transmitted && r.errors == ReportError(c.errors, result.error)
    ensures r.messages == c.messages && r.initMessage == c.initMessage
  {
    match result
    case Sent => c.(transmitted := c.transmitted + [StringData(text)])
    case SendFailed(e) => c.(errors := ReportError(c.errors, e))
  }

  /** The `open` listener, registered only when an init message was given:
      sends that message, reporting a failure through the error channel. */
  function OnOpen(c: Client, result: SendResult): (r: Client)
    requires c.errors.cell.Idle()
    ensures c.initMessage.None? ==> r == c
    ensures c.initMessage.Some? && result.Sent? ==>
      r.transmitted == c.transmitted + [Frame(c.initMessage.value)] && r.errors == c.errors
    ensures c.initMessage.Some? && result.SendFailed? ==>
      r.transmitted == c.transmitted && r.errors == ReportError(c.errors, result.error)
    ensures r.messages == c.messages && r.initMessage == c.initMessage
  {
    match c.initMessage
    case None => c
    case Some(m) =>
      var guard := Borrow(c.errors.cell);
      match result
      case Sent => c.(transmitted := c.transmitted + [Frame(m)], errors := c.errors.(cell := Release(guard)))
      case SendFailed(e) => c.(errors := ReportError(c.errors, e))
  }

  /** The `close` listener for a genuine close event: a clean close becomes a
      text message carrying the reason, on the message channel; an unclean
      one an error carrying the event, on the error channel. */
  function OnClose(c: Client, wasClean: bool, reason: string, event: JsValue): (r: Client)
    requires c.Valid()
    ensures r.transmitted == c.transmitted && r.initMessage == c.initMessage
    ensures wasClean ==>
      && r.errors == c.errors
      && Values(r.messages.log) + r.messages.queue == Values(c.messages.log) + c.messages.queue + [Text(reason)]
    ensures !wasClean ==> r.messages == c.messages && r.errors.cell == c.errors.cell
    ensures !wasClean && c.errors.cell.handler.None? ==>
      r.errors.latched == Some(event) && r.errors.log == c.errors.log
    ensures !wasClean && c.errors.cell.handler.Some? ==>
      r.errors.latched == c.errors.latched && r.errors.log == c.errors.log + [Delivery(c.errors.cell.handler.value.id, event)]
  {
    if wasClean then
      RouteConserves(c.messages, Text(reason));
      c.(messages := RouteMessage(c.messages, Text(reason)))
    else c.(errors := ReportError(c.errors, event))
  }

  /** Every input the client reacts to: the socket's events and the public
      operations. `ForeignCloseEvent` is a `close` event that is not a
      `CloseEvent`. */
  datatype Input =
    | OpenEvent(result: SendResult)
    | MessageEvent(payload: Payload)
    | ErrorEvent(event: JsValue)
    | CloseEvent(wasClean: bool, reason: string, event: JsValue)
    | ForeignCloseEvent(event: JsValue)
    | SendCall(text: string, result: SendResult)
    | SetOnMessageCall(handler: Option<MessageHandler>)
    | SetOnErrorCall(errorHandler: Option<ErrorHandler>)

  /** One input, from and back to a valid state: every deferred replacement
      has landed before the next input is routed. */
  function Step(c: Client, i: Input): (r: Client)
    requires c.Valid()
    ensures r.Valid()
    ensures r.initMessage == c.initMessage
  {
    match i
    case OpenEvent(result) => OnOpen(c, result)
    case MessageEvent(p) => c.(messages := OnMessageEvent(c.messages, p))
    case ErrorEvent(e) => c.(errors := ReportError(c.errors, e))
    case CloseEvent(wasClean, reason, e) => OnClose(c, wasClean, reason, e)
    case ForeignCloseEvent(e) => c.(errors := ReportError(c.errors, e))
    case SendCall(text, result) => Send(c, text, result)
    case SetOnMessageCall(h) => c.(messages := SetOnMessage(c.messages, h))
    case SetOnErrorCall(h) => c.(errors := SetOnError(c.errors, h))
  }

  /** A sequence of inputs, in order. */
  function Run(c: Client, inputs: seq<Input>): (r: Client)
    requires c.Valid()
    ensures r.Valid()
    ensures r.initMessage == c.initMessage
    decreases |inputs|
  {
    if |inputs| == 0 then c else Run(Step(c, inputs[0]), inputs[1..])
  }
}

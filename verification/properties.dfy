/** What the client promises over whole sequences of inputs: no message is
    lost, duplicated or reordered; errors are delivered in order or the
    latest one is latched; clean and unclean closes take different
    channels; the socket is handed exactly the payloads asked for. */
module ClientProperties {
  import opened Wrappers
  import opened Messages
  import HandlerCells
  import opened WebSocketClient

  /** The messages an input brings in: a recognised payload, or the reason of
      a clean close. */
  function Arrivals(i: Input): seq<Message>
  {
    match i
    case MessageEvent(p) => (match Classify(p) case Some(m) => [m] case None => [])
    case CloseEvent(wasClean, reason, _) => if wasClean then [Text(reason)] else []
    case _ => []
  }

  function AllArrivals(inputs: seq<Input>): seq<Message>
  {
    if |inputs| == 0 then [] else Arrivals(inputs[0]) + AllArrivals(inputs[1..])
  }

  /** The errors an input raises, given the client's init message. */
  function Raised(i: Input, initMessage: Option<Message>): seq<JsValue>
  {
    match i
    case OpenEvent(result) => if initMessage.Some? && result.SendFailed? then [result.error] else []
    case ErrorEvent(e) => [e]
    case CloseEvent(wasClean, _, e) => if wasClean then [] else [e]
    case ForeignCloseEvent(e) => [e]
    case SendCall(_, result) => if result.SendFailed? then [result.error] else []
    case _ => []
  }

  function AllRaised(inputs: seq<Input>, initMessage: Option<Message>): seq<JsValue>
  {
    if |inputs| == 0 then [] else Raised(inputs[0], initMessage) + AllRaised(inputs[1..], initMessage)
  }

  /** The payloads an input gets the socket to accept: the init message at
      an open event, the text of a `send`, each only when the socket takes
      it. */
  function Transmissions(i: Input, initMessage: Option<Message>): seq<Payload>
  {
    match i
    case OpenEvent(result) =>
      (match initMessage case Some(m) => if result.Sent? then [Frame(m)] else [] case None => [])
    case SendCall(text, result) => if result.Sent? then [StringData(text)] else []
    case _ => []
  }

  function AllTransmissions(inputs: seq<Input>, initMessage: Option<Message>): seq<Payload>
  {
    if |inputs| == 0 then [] else Transmissions(inputs[0], initMessage) + AllTransmissions(inputs[1..], initMessage)
  }

  /** The latest of `s`, or `d` when `s` is empty. */
  function LatestOr(s: seq<JsValue>, d: Option<JsValue>): Option<JsValue>
  {
    if |s| == 0 then d else Some(s[|s| - 1])
  }

  /** No input in the sequence installs an error handler. */
  predicate NoSetOnError(inputs: seq<Input>)
  {
    forall k :: 0 <= k < |inputs| ==> !inputs[k].SetOnErrorCall?
  }

  /** `ms` delivered one after another to the handler with id `id`. */
  function DeliveriesTo(id: nat, ms: seq<Message>): seq<Delivery<Message>>
  {
    if |ms| == 0 then [] else [Delivery(id, ms[0])] + DeliveriesTo(id, ms[1..])
  }

  lemma Associative<T>(x: seq<T>, y: seq<T>, z: seq<T>)
    ensures (x + y) + z == x + (y + z)
  {
  }

  /** Running a non-empty sequence is one step and then the rest. */
  lemma RunUnfold(c: Client, inputs: seq<Input>)
    requires c.Valid() && |inputs| > 0
    ensures Run(c, inputs) == Run(Step(c, inputs[0]), inputs[1..])
  {
  }

  // ---------------------------------------------------------------------
  // Messages

  /** One input: what has been delivered plus what is queued grows by
      exactly the messages the input brings in, at the end. */
  lemma StepConservesMessages(c: Client, i: Input)
    requires c.Valid()
    ensures var r := Step(c, i).messages;
      Values(r.log) + r.queue == Values(c.messages.log) + c.messages.queue + Arrivals(i)
  {
    var ch := c.messages;
    match i
    case MessageEvent(p) =>
      if Classify(p).Some? {
        RouteConserves(ch, Classify(p).value);
      }
    case CloseEvent(wasClean, reason, e) =>
      if wasClean {
        RouteConserves(ch, Text(reason));
      }
    case SetOnMessageCall(h) =>
      var r := SetOnMessage(ch, h);
      SetOnMessageDrains(ch, h);
      var k := |ch.queue| - |r.queue|;
      assert ch.queue == ch.queue[..k] + ch.queue[k..];
    case _ =>
  }

  /** Any input sequence: every message that arrives is delivered or still
      queued, exactly once, and in arrival order. */
  lemma {:induction false} RunConservesMessages(c: Client, inputs: seq<Input>)
    requires c.Valid()
    ensures var r := Run(c, inputs).messages;
      Values(r.log) + r.queue == Values(c.messages.log) + c.messages.queue + AllArrivals(inputs)
    decreases |inputs|
  {
    if |inputs| > 0 {
      var c' := Step(c, inputs[0]);
      RunUnfold(c, inputs);
      StepConservesMessages(c, inputs[0]);
      RunConservesMessages(c', inputs[1..]);
      Associative(Values(c.messages.log) + c.messages.queue, Arrivals(inputs[0]), AllArrivals(inputs[1..]));
    }
  }

  /** From a new client, the messages delivered so far followed by the queue
      are exactly the messages that arrived. */
  lemma NoMessageLost(initMessage: Option<Message>, inputs: seq<Input>)
    ensures var r := Run(New(initMessage, None).value, inputs).messages;
      Values(r.log) + r.queue == AllArrivals(inputs)
  {
    var c := New(initMessage, None).value;
    RunConservesMessages(c, inputs);
    assert Values(c.messages.log) == [];
  }

  /** A handler that keeps itself installed drains the whole queue, in
      order, into itself. */
  lemma {:induction false} DrainIntoSteadyHandler(ch: MessageChannel, h: MessageHandler)
    requires ch.cell.Idle() && ch.cell.handler == Some(h) && h.reentry.Returns?
    ensures Drain(ch).queue == []
    ensures Drain(ch).cell.handler == Some(h)
    ensures Drain(ch).log == ch.log + DeliveriesTo(h.id, ch.queue)
    decreases |ch.queue|
  {
    if |ch.queue| > 0 {
      var next := Invoke(ch.(queue := ch.queue[1..]), ch.queue[0]);
      DrainIntoSteadyHandler(next, h);
      Associative(ch.log, [Delivery(h.id, ch.queue[0])], DeliveriesTo(h.id, ch.queue[1..]));
    }
  }

  /** A handler that uninstalls itself ("call me once") takes the front
      message and leaves the rest queued, in order. */
  lemma DrainIntoOneShotHandler(ch: MessageChannel, h: MessageHandler)
    requires ch.cell.Idle() && ch.cell.handler == Some(h) && h.reentry == CallsSetOnMessage(None)
    requires |ch.queue| > 0
    ensures Drain(ch).queue == ch.queue[1..]
    ensures Drain(ch).cell.handler.None?
    ensures Drain(ch).log == ch.log + [Delivery(h.id, ch.queue[0])]
  {
  }

  /** The `message` listener: a message arriving while no handler is
      installed (for instance after `set_onmessage(None)`) is queued, not
      dropped; one arriving while a handler is installed goes to it; an
      unrecognised payload changes nothing. The error channel is untouched. */
  lemma InboundRouting(c: Client, p: Payload)
    requires c.Valid()
    ensures Step(c, MessageEvent(p)).errors == c.errors
    ensures Classify(p).None? ==> Step(c, MessageEvent(p)) == c
    ensures Classify(p).Some? && c.messages.cell.handler.None? ==>
      && Step(c, MessageEvent(p)).messages.queue == c.messages.queue + [Classify(p).value]
      && Step(c, MessageEvent(p)).messages.log == c.messages.log
    ensures Classify(p).Some? && c.messages.cell.handler.Some? ==>
      && Step(c, MessageEvent(p)).messages.queue == []
      && Step(c, MessageEvent(p)).messages.log
         == c.messages.log + [Delivery(c.messages.cell.handler.value.id, Classify(p).value)]
  {
  }

  // ---------------------------------------------------------------------
  // Errors

  /** One input other than `set_onerror`: with an error handler installed
      the raised error is delivered; without one it overwrites the latch. */
  lemma StepRoutesErrors(c: Client, i: Input)
    requires c.Valid() && !i.SetOnErrorCall?
    ensures Step(c, i).errors.cell == c.errors.cell
    ensures c.errors.cell.handler.Some? ==>
      && Values(Step(c, i).errors.log) == Values(c.errors.log) + Raised(i, c.initMessage)
      && Step(c, i).errors.latched == c.errors.latched
    ensures c.errors.cell.handler.None? ==>
      && Step(c, i).errors.log == c.errors.log
      && Step(c, i).errors.latched == LatestOr(Raised(i, c.initMessage), c.errors.latched)
  {
    if c.errors.cell.handler.Some? && |Raised(i, c.initMessage)| > 0 {
      ValuesAppend(c.errors.log, Delivery(c.errors.cell.handler.value.id, Raised(i, c.initMessage)[0]));
    }
  }

  /** Dropping the first input keeps a sequence free of `set_onerror`. */
  lemma NoSetOnErrorTail(inputs: seq<Input>)
    requires |inputs| > 0 && NoSetOnError(inputs)
    ensures !inputs[0].SetOnErrorCall? && NoSetOnError(inputs[1..])
  {
    assert forall k :: 0 <= k < |inputs[1..]| ==> inputs[1..][k] == inputs[k + 1];
  }

  /** Any input sequence without `set_onerror`, with an error handler
      installed: every raised error is delivered, in the order raised. */
  lemma {:induction false} RunDeliversErrors(c: Client, inputs: seq<Input>)
    requires c.Valid() && NoSetOnError(inputs) && c.errors.cell.handler.Some?
    ensures Run(c, inputs).errors.cell == c.errors.cell
    ensures Values(Run(c, inputs).errors.log) == Values(c.errors.log) + AllRaised(inputs, c.initMessage)
    ensures Run(c, inputs).errors.latched == c.errors.latched
    decreases |inputs|
  {
    if |inputs| > 0 {
      NoSetOnErrorTail(inputs);
      var c' := Step(c, inputs[0]);
      RunUnfold(c, inputs);
      StepRoutesErrors(c, inputs[0]);
      RunDeliversErrors(c', inputs[1..]);
      Associative(Values(c.errors.log), Raised(inputs[0], c.initMessage), AllRaised(inputs[1..], c.initMessage));
    }
  }

  /** Any input sequence without `set_onerror`, with no error handler:
      nothing is delivered and the latch ends up holding the latest raised
      error; earlier ones are overwritten. */
  lemma {:induction false} RunLatchesLatestError(c: Client, inputs: seq<Input>)
    requires c.Valid() && NoSetOnError(inputs) && c.errors.cell.handler.None?
    ensures Run(c, inputs).errors.cell == c.errors.cell
    ensures Run(c, inputs).errors.log == c.errors.log
    ensures Run(c, inputs).errors.latched == LatestOr(AllRaised(inputs, c.initMessage), c.errors.latched)
    decreases |inputs|
  {
    if |inputs| > 0 {
      NoSetOnErrorTail(inputs);
      var c' := Step(c, inputs[0]);
      RunUnfold(c, inputs);
      StepRoutesErrors(c, inputs[0]);
      RunLatchesLatestError(c', inputs[1..]);
      var a := Raised(inputs[0], c.initMessage);
      var b := AllRaised(inputs[1..], c.initMessage);
      if |b| > 0 {
        assert (a + b)[|a + b| - 1] == b[|b| - 1];
      }
    }
  }

  /** `set_onerror` with a handler hands it the latched error once: a second
      call with the same handler delivers nothing more. With no handler the
      latched error stays. */
  lemma SetOnErrorDeliversOnce(ch: ErrorChannel, h: ErrorHandler)
    requires ch.cell.Idle() && ch.latched.Some?
    ensures var r := SetOnError(SetOnError(ch, Some(h)), Some(h));
      r.log == ch.log + [Delivery(h.id, ch.latched.value)] && r.latched.None?
    ensures SetOnError(ch, None).latched == ch.latched
  {
  }

  // ---------------------------------------------------------------------
  // Close routing

  /** A clean close is a text message carrying the reason, on the message
      channel; the error channel is untouched. */
  lemma CleanCloseIsAMessage(c: Client, reason: string, e: JsValue)
    requires c.Valid()
    ensures Step(c, CloseEvent(true, reason, e)).errors == c.errors
    ensures var r := Step(c, CloseEvent(true, reason, e)).messages;
      Values(r.log) + r.queue == Values(c.messages.log) + c.messages.queue + [Text(reason)]
  {
    RouteConserves(c.messages, Text(reason));
  }

  /** An unclean close, or a close event that is not a `CloseEvent`, is an
      error carrying the event, on the error channel; the message channel is
      untouched. */
  lemma UncleanCloseIsAnError(c: Client, i: Input)
    requires c.Valid()
    requires (i.CloseEvent? && !i.wasClean) || i.ForeignCloseEvent?
    ensures Step(c, i).messages == c.messages
    ensures Step(c, i).errors == ReportError(c.errors, i.event)
  {
  }

  // ---------------------------------------------------------------------
  // Transmissions

  /** One input hands the socket exactly its own transmissions. */
  lemma StepTransmits(c: Client, i: Input)
    requires c.Valid()
    ensures Step(c, i).transmitted == c.transmitted + Transmissions(i, c.initMessage)
  {
    match i
    case OpenEvent(result) =>
    case SendCall(text, result) =>
    case _ =>
  }

  /** Any input sequence: the socket is handed the init message at each open
      event and the text of each `send`, in order, and nothing else. */
  lemma {:induction false} RunTransmits(c: Client, inputs: seq<Input>)
    requires c.Valid()
    ensures Run(c, inputs).transmitted == c.transmitted + AllTransmissions(inputs, c.initMessage)
    decreases |inputs|
  {
    if |inputs| > 0 {
      var c' := Step(c, inputs[0]);
      RunUnfold(c, inputs);
      StepTransmits(c, inputs[0]);
      RunTransmits(c', inputs[1..]);
      Associative(c.transmitted, Transmissions(inputs[0], c.initMessage), AllTransmissions(inputs[1..], c.initMessage));
    }
  }

  /** Inputs that are neither open events nor `send` get nothing onto the
      socket. */
  lemma {:induction false} NoTransmissions(c: Client, inputs: seq<Input>)
    requires c.Valid()
    requires forall k :: 0 <= k < |inputs| ==> !inputs[k].OpenEvent? && !inputs[k].SendCall?
    ensures Run(c, inputs).transmitted == c.transmitted
    decreases |inputs|
  {
    if |inputs| > 0 {
      assert forall k :: 0 <= k < |inputs[1..]| ==> inputs[1..][k] == inputs[k + 1];
      RunUnfold(c, inputs);
      StepTransmits(c, inputs[0]);
      NoTransmissions(Step(c, inputs[0]), inputs[1..]);
    }
  }

  /** A client created with init message "hello" hands it to the socket
      when the socket opens, and nothing before. */
  lemma InitMessageSentAtOpen(inputs: seq<Input>)
    requires forall k :: 0 <= k < |inputs| ==> !inputs[k].OpenEvent? && !inputs[k].SendCall?
    ensures var c := New(Some(Text("hello")), None).value;
      && Run(c, inputs).transmitted == []
      && Step(Run(c, inputs), OpenEvent(Sent)).transmitted == [StringData("hello")]
  {
    var c := New(Some(Text("hello")), None).value;
    NoTransmissions(c, inputs);
  }

  // ---------------------------------------------------------------------
  // Scenarios

  /** Three inputs run one after another. */
  lemma RunThree(c: Client, a: Input, b: Input, d: Input)
    requires c.Valid()
    ensures Run(c, [a, b, d]) == Step(Step(Step(c, a), b), d)
  {
    RunUnfold(c, [a, b, d]);
    assert [a, b, d][1..] == [b, d];
    RunUnfold(Step(c, a), [b, d]);
    assert [b, d][1..] == [d];
    RunUnfold(Step(Step(c, a), b), [d]);
  }

  /** Installing a handler while nothing is queued installs it and does
      nothing else. */
  lemma InstallWithEmptyQueue(ch: MessageChannel, h: Option<MessageHandler>)
    requires ch.cell.Idle() && ch.queue == []
    ensures SetOnMessage(ch, h) == ch.(cell := HandlerCells.HandlerCell(h, None, false))
  {
  }

  /** Installing a handler that keeps itself installed delivers the whole
      queue to it, in order. */
  lemma InstallSteadyHandler(ch: MessageChannel, h: MessageHandler)
    requires ch.cell.Idle() && h.reentry.Returns?
    ensures SetOnMessage(ch, Some(h)).queue == []
    ensures SetOnMessage(ch, Some(h)).log == ch.log + DeliveriesTo(h.id, ch.queue)
  {
    DrainIntoSteadyHandler(ch.(cell := HandlerCells.Replace(ch.cell, Some(h)).0), h);
  }

  /** Binary [1, 2, 3] and then text "hi" arriving with no handler are
      queued in that order. */
  lemma BufferedInArrivalOrder()
    ensures var r := Run(New(None, None).value,
      [MessageEvent(ArrayBufferData([1, 2, 3])), MessageEvent(StringData("hi"))]).messages;
      r.queue == [Binary([1, 2, 3]), Text("hi")] && r.log == [] && r.cell.Idle()
  {
    var c0 := New(None, None).value;
    var inputs := [MessageEvent(ArrayBufferData([1, 2, 3])), MessageEvent(StringData("hi"))];
    RunUnfold(c0, inputs);
    assert inputs[1..] == [MessageEvent(StringData("hi"))];
    var c1 := Step(c0, inputs[0]);
    RunUnfold(c1, inputs[1..]);
    assert c1.messages == c0.messages.(queue := [Binary([1, 2, 3])]);
  }

  /** Binary [1, 2, 3] and then text "hi" arrive before any handler; the
      handler installed afterwards receives both, in that order, during the
      install. */
  lemma BufferedUntilInstalled(h: MessageHandler)
    requires h.reentry.Returns?
    ensures var c := Run(New(None, None).value,
      [MessageEvent(ArrayBufferData([1, 2, 3])), MessageEvent(StringData("hi"))]);
      var r := Step(c, SetOnMessageCall(Some(h))).messages;
      && r.log == [Delivery(h.id, Binary([1, 2, 3])), Delivery(h.id, Text("hi"))]
      && r.queue == []
  {
    BufferedInArrivalOrder();
    var c := Run(New(None, None).value,
      [MessageEvent(ArrayBufferData([1, 2, 3])), MessageEvent(StringData("hi"))]);
    InstallSteadyHandler(c.messages, h);
    assert DeliveriesTo(h.id, [Text("hi")]) == [Delivery(h.id, Text("hi"))];
  }

  /** A handler that installs a successor from inside its invocation keeps
      the message it is handling; the successor takes the next one. */
  lemma SelfReplacement(ch: MessageChannel, a: Message, b: Message)
    requires ch.Valid() && ch.cell.handler.None? && ch.queue == []
    ensures var h2 := MessageHandler(2, Returns);
      var h1 := MessageHandler(1, CallsSetOnMessage(Some(h2)));
      var r := RouteMessage(RouteMessage(SetOnMessage(ch, Some(h1)), a), b);
      && r.log == ch.log + [Delivery(1, a), Delivery(2, b)]
      && r.cell.handler == Some(h2)
  {
    var h2 := MessageHandler(2, Returns);
    var h1 := MessageHandler(1, CallsSetOnMessage(Some(h2)));
    InstallWithEmptyQueue(ch, Some(h1));
    var ch1 := SetOnMessage(ch, Some(h1));
    assert Successor(h1) == Some(h2);
    var ch2 := RouteMessage(ch1, a);
    assert ch2.cell.handler == Some(h2) && ch2.log == ch.log + [Delivery(1, a)];
    Associative(ch.log, [Delivery(1, a)], [Delivery(2, b)]);
  }

  /** With no error handler, errors E1 and then E2 leave only E2 latched;
      installing a handler afterwards delivers E2 alone. */
  lemma LatchKeepsLatestError(c: Client, e1: JsValue, e2: JsValue, h: ErrorHandler)
    requires c.Valid() && c.errors.cell.handler.None?
    ensures var r := Run(c, [ErrorEvent(e1), ErrorEvent(e2), SetOnErrorCall(Some(h))]).errors;
      && r.log == c.errors.log + [Delivery(h.id, e2)]
      && r.latched.None?
  {
    RunThree(c, ErrorEvent(e1), ErrorEvent(e2), SetOnErrorCall(Some(h)));
    var c1 := Step(c, ErrorEvent(e1));
    assert c1.errors == ReportError(c.errors, e1);
    var c2 := Step(c1, ErrorEvent(e2));
    assert c2.errors == ReportError(c1.errors, e2);
    assert c2.errors.latched == Some(e2) && c2.errors.log == c.errors.log;
  }
}

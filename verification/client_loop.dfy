/** `set_onmessage` written the way the source writes it: a `while let` loop
    that, on each turn, borrows the message cell, stops if no handler is
    installed or the queue is empty, and otherwise pops the front message
    into the handler before the borrow ends. */
module ClientLoop {
  import opened Wrappers
  import opened Messages
  import opened HandlerCells
  import opened WebSocketClient

  /** The loop computes exactly the recursive `SetOnMessage`. */
  method SetOnMessageLoop(ch: MessageChannel, h: Option<MessageHandler>) returns (r: MessageChannel)
    requires ch.cell.Consistent()
    ensures r == SetOnMessage(ch, h)
  {
    var replaced := Replace(ch.cell, h);
    r := ch.(cell := replaced.0);
    if replaced.1 {
      while r.cell.handler.Some? && |r.queue| > 0
        invariant r.cell.Idle()
        invariant Drain(r) == Drain(ch.(cell := replaced.0))
        decreases |r.queue|
      {
        DrainUnfold(r);
        r := Invoke(r.(queue := r.queue[1..]), r.queue[0]);
      }
    }
  }
}

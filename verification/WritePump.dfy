/** The write side of a session: a queue of packets and at most one write under way. */
module WritePump {
  import opened Prelude
  import opened MessageCodec
  import opened Framing

  /** `inFlight` counts started writes that have not completed; `written` is ghost history: the packets
      whose write completed, each taken to cover its whole packet. */
  datatype Pump = Pump(queue: seq<Bytes>, inFlight: nat, closed: bool, written: seq<Bytes>)

  datatype PumpEvent = Send(message: Message) | WriteDone | WriteFailed | Close

  function StartWrite(p: Pump): Pump {
    if p.closed || p.queue == [] then p else p.(inFlight := p.inFlight + 1)
  }

  function Sending(p: Pump, message: Message): Pump {
    var pushed := p.(queue := p.queue + [Packet(message)]);
    if p.queue == [] then StartWrite(pushed) else pushed
  }

  /** The completion handler; popping an empty deque would be undefined behaviour. */
  function Completing(p: Pump): Outcome<Pump> {
    if p.inFlight == 0 then Ok(p)
    else if p.queue == [] then Fault
    else
      var popped := p.(inFlight := p.inFlight - 1, queue := p.queue[1..], written := p.written + [p.queue[0]]);
      Ok(if popped.queue != [] then StartWrite(popped) else popped)
  }

  function Failing(p: Pump): Pump {
    if p.inFlight == 0 then p else p.(inFlight := p.inFlight - 1, closed := true)
  }

  function PumpStep(p: Pump, event: PumpEvent): Outcome<Pump> {
    match event
    case Send(m) => Ok(Sending(p, m))
    case WriteDone => Completing(p)
    case WriteFailed => Ok(Failing(p))
    case Close => Ok(p.(closed := true))
  }

  function PumpRun(events: seq<PumpEvent>): Outcome<Pump> {
    if events == [] then Ok(Pump([], 0, false, []))
    else
      var n := |events| - 1;
      match PumpRun(events[..n])
      case Fault => Fault
      case Ok(p) => PumpStep(p, events[n])
  }

  function SentIn(events: seq<PumpEvent>): seq<Message> {
    if events == [] then []
    else
      var n := |events| - 1;
      SentIn(events[..n]) + (match events[n] case Send(m) => [m] case _ => [])
  }

  /** Never two writes; while open, one exactly when something is queued; nothing lost or reordered. */
  ghost predicate PumpOk(p: Pump, sent: seq<Message>) {
    && p.inFlight <= 1
    && (p.inFlight == 1 ==> p.queue != [])
    && (!p.closed && p.queue != [] ==> p.inFlight == 1)
    && p.written + p.queue == Packets(sent)
  }

  lemma SendingOk(p: Pump, sent: seq<Message>, m: Message)
    requires PumpOk(p, sent)
    ensures PumpOk(Sending(p, m), sent + [m])
  {
    assert Packets(sent + [m]) == Packets(sent) + [Packet(m)];
    ConcatAssoc(p.written, p.queue, [Packet(m)]);
  }

  lemma CompletingOk(p: Pump, sent: seq<Message>)
    requires PumpOk(p, sent)
    ensures Completing(p).Ok? && PumpOk(Completing(p).value, sent)
  {
    if p.inFlight != 0 {
      assert p.queue == [p.queue[0]] + p.queue[1..];
      ConcatAssoc(p.written, [p.queue[0]], p.queue[1..]);
    }
  }

  lemma {:induction false} PumpInvariant(events: seq<PumpEvent>)
    ensures PumpRun(events).Ok? && PumpOk(PumpRun(events).value, SentIn(events))
  {
    if events != [] {
      var n := |events| - 1;
      PumpInvariant(events[..n]);
      var p, sent := PumpRun(events[..n]).value, SentIn(events[..n]);
      match events[n]
      case Send(m) => SendingOk(p, sent, m);
      case WriteDone => CompletingOk(p, sent); assert sent + [] == sent;
      case _ => assert sent + [] == sent;
    }
  }

  /** What the peer makes of the completed packets, however the network cuts them. */
  lemma PumpOkDelivers(p: Pump, sent: seq<Message>, chunks: seq<Bytes>)
    requires PumpOk(p, sent) && Flatten(chunks) == Flatten(p.written)
    ensures Feed([], chunks).messages <= Filter(sent, Fits)
    ensures p.queue == [] ==> Feed([], chunks) == Parsed(Filter(sent, Fits), [])
  {
    hide Feed, Parse;
    FlattenConcat(p.written, p.queue);
    EndToEndPrefix(sent, chunks);
    if p.queue == [] {
      assert p.written + [] == p.written;
      EndToEnd(sent, chunks);
    }
  }

  /** Over every run of sends, completions and errors, and every way the network delivers the completed
      packets, the peer dispatches a prefix of the sent messages that fit: all of them once the queue
      has drained. */
  lemma PumpDelivers(events: seq<PumpEvent>, chunks: seq<Bytes>)
    requires PumpRun(events).Ok? && Flatten(chunks) == Flatten(PumpRun(events).value.written)
    ensures Feed([], chunks).messages <= Filter(SentIn(events), Fits)
    ensures PumpRun(events).value.queue == [] ==> Feed([], chunks) == Parsed(Filter(SentIn(events), Fits), [])
  {
    PumpInvariant(events);
    PumpOkDelivers(PumpRun(events).value, SentIn(events), chunks);
  }

  // ---- Closing ends the writing ----

  /** What can still happen to `p`, once closed: nothing is started, and the write under way may complete. */
  ghost predicate WindsDown(p: Pump, later: Pump) {
    && later.closed && later.inFlight <= p.inFlight
    && (later.written != p.written ==>
          p.inFlight == 1 && p.queue != [] && later.inFlight == 0 && later.written == p.written + [p.queue[0]])
    && (later.written == p.written ==> p.queue <= later.queue)
  }

  lemma StepWindsDown(p: Pump, mid: Pump, event: PumpEvent)
    requires p.closed && p.inFlight <= 1 && (p.inFlight == 1 ==> p.queue != [])
    requires WindsDown(p, mid) && PumpStep(mid, event).Ok?
    ensures WindsDown(p, PumpStep(mid, event).value)
  {
  }

  /** Once a session is closed, in every continuation: it stays closed, no write starts, and the peer gets at
      most the one packet whose write was under way. */
  lemma {:induction false} ClosedForGood(events: seq<PumpEvent>, more: seq<PumpEvent>)
    requires PumpRun(events).Ok? && PumpRun(events).value.closed
    ensures PumpRun(events + more).Ok?
    ensures var p, later := PumpRun(events).value, PumpRun(events + more).value;
      WindsDown(p, later) && |later.written| <= |p.written| + 1
  {
    hide PumpStep;
    PumpInvariant(events);
    if more == [] {
      assert events + more == events;
      ItselfWindsDown(PumpRun(events).value);
    } else {
      var n := |more| - 1;
      assert (events + more)[..|events| + n] == events + more[..n];
      ClosedForGood(events, more[..n]);
      PumpInvariant(events + more);
      StepWindsDown(PumpRun(events).value, PumpRun(events + more[..n]).value, more[n]);
    }
    return;
  }

  lemma ItselfWindsDown(p: Pump)
    requires p.closed
    ensures WindsDown(p, p)
  {
  }
}

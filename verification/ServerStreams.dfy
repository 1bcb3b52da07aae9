/** From bytes to tables: what a connection's reads do to the whole server. */
module ServerStreams {
  import opened Prelude
  import opened MessageCodec
  import opened Framing
  import opened Ranking
  import opened ServerModel
  import opened Runs

  datatype Reading = Reading(server: Server, rest: Bytes)

  /** Reads arriving one after another on session `s`, each at its own time: each is appended to the receive
      buffer, and the parse loop hands every complete message to its handler. */
  function ReadAll(sv: Server, s: Sid, buffer: Bytes, chunks: seq<Bytes>, choices: seq<Choice>, times: seq<int>)
    : Outcome<Reading>
    requires s in sv.sessions && |times| == |chunks| && |choices| == |Feed(buffer, chunks).messages|
    decreases |chunks|
  {
    if chunks == [] then Ok(Reading(sv, buffer))
    else
      var first := Parse(buffer + chunks[0]);
      var k := |first.messages|;
      match HandleAll(sv, s, first.messages, choices[..k], times[0])
      case Fault => Fault
      case Ok(next) => ReadAll(next, s, first.rest, chunks[1..], choices[k..], times[1..])
  }

  lemma {:induction false} HandleAllConcat(
    sv: Server, s: Sid, a: seq<Message>, b: seq<Message>, ca: seq<Choice>, cb: seq<Choice>, now: int)
    requires s in sv.sessions && |ca| == |a| && |cb| == |b|
    ensures HandleAll(sv, s, a + b, ca + cb, now)
         == match HandleAll(sv, s, a, ca, now)
            case Fault => Fault
            case Ok(mid) => HandleAll(mid, s, b, cb, now)
  {
    hide Handle;
    if b == [] {
      assert a + b == a && ca + cb == ca;
    } else {
      var n := |b| - 1;
      assert (a + b)[..|a + b| - 1] == a + b[..n] && (ca + cb)[..|a + b| - 1] == ca + cb[..n];
      HandleAllConcat(sv, s, a, b[..n], ca, cb[..n], now);
    }
  }

  /** Every choice on the way is one the environment may make. */
  ghost predicate Obeyed(sv: Server, s: Sid, messages: seq<Message>, choices: seq<Choice>, now: int)
    requires s in sv.sessions && |choices| == |messages|
  {
    messages == []
    || (var n := |messages| - 1;
        && Obeyed(sv, s, messages[..n], choices[..n], now)
        && var before := HandleAll(sv, s, messages[..n], choices[..n], now);
           before.Ok? ==> Allowed(before.value, messages[n], choices[n]))
  }

  lemma HandleOneMore(sv: Server, s: Sid, messages: seq<Message>, choices: seq<Choice>, here: Server,
                      message: Message, choice: Choice, now: int)
    requires s in sv.sessions && s in here.sessions && |choices| == |messages|
    requires HandleAll(sv, s, messages, choices, now) == Ok(here) && Obeyed(sv, s, messages, choices, now)
    requires Allowed(Touched(here, s, now), message, choice)
    ensures HandleAll(sv, s, messages + [message], choices + [choice], now)
         == Handle(here, s, message, choice, now)
    ensures Obeyed(sv, s, messages + [message], choices + [choice], now)
  {
    hide Handle, IsTopN;
    assert (messages + [message])[..|messages|] == messages && (choices + [choice])[..|messages|] == choices;
  }

  /** After a handler has thrown, the rest of the buffer makes no difference. */
  lemma {:induction false} FaultEndsTheRead(
    sv: Server, s: Sid, done: seq<Message>, unread: seq<Message>, choices: seq<Choice>, padding: seq<Choice>, now: int)
    requires s in sv.sessions && |choices| == |done| && |padding| == |unread|
    requires HandleAll(sv, s, done, choices, now).Fault? && Obeyed(sv, s, done, choices, now)
    ensures HandleAll(sv, s, done + unread, choices + padding, now).Fault?
    ensures Obeyed(sv, s, done + unread, choices + padding, now)
  {
    hide Handle, Allowed;
    if unread == [] {
      assert done + unread == done && choices + padding == choices;
    } else {
      var n := |unread| - 1;
      assert (done + unread)[..|done| + n] == done + unread[..n];
      assert (choices + padding)[..|done| + n] == choices + padding[..n];
      FaultEndsTheRead(sv, s, done, unread[..n], choices, padding[..n], now);
    }
  }

  function Receives(s: Sid, messages: seq<Message>, choices: seq<Choice>): seq<Event>
    requires |choices| == |messages|
  {
    seq(|messages|, i requires 0 <= i < |messages| => Receive(s, messages[i], choices[i]))
  }

  /** Handling the messages of a read is a run of one event per message; a handler that throws ends it. */
  lemma {:induction false} ReadIsARun(
    start: World, events: seq<Event>, w: World, s: Sid, messages: seq<Message>, choices: seq<Choice>)
    requires Run(start, events) == Some(w) && s in w.server.sessions && s !in w.server.gone
    requires |choices| == |messages|
    requires Obeyed(w.server, s, messages, choices, w.now)
    ensures Run(start, events + Receives(s, messages, choices))
         == match HandleAll(w.server, s, messages, choices, w.now)
            case Fault => None
            case Ok(after) => Some(w.(server := after))
  {
    hide Handle, Allowed;
    var more := Receives(s, messages, choices);
    if messages == [] {
      assert events + more == events;
    } else {
      var n := |messages| - 1;
      assert (events + more)[..|events| + n] == events + Receives(s, messages[..n], choices[..n]);
      ReadIsARun(start, events, w, s, messages[..n], choices[..n]);
    }
  }

  /** One read of `buffer` took the server from `sv` to `after` and left the bytes it says. */
  ghost predicate ReadBy(sv: Server, s: Sid, buffer: Bytes, choices: seq<Choice>, now: int, after: Outcome<Reading>)
    requires s in sv.sessions
  {
    var parsed := Parse(buffer);
    && |choices| == |parsed.messages|
    && Obeyed(sv, s, parsed.messages, choices, now)
    && after == match HandleAll(sv, s, parsed.messages, choices, now)
                case Fault => Fault
                case Ok(server) => Ok(Reading(server, parsed.rest))
  }

  /** The parse loop has handled `done` of the bytes `all` and has `buffer` left. */
  ghost predicate Midway(sv: Server, s: Sid, all: Bytes, done: seq<Message>, choices: seq<Choice>, now: int,
                         here: Server, buffer: Bytes)
    requires s in sv.sessions
  {
    && |choices| == |done| && Obeyed(sv, s, done, choices, now)
    && HandleAll(sv, s, done, choices, now) == Ok(here)
    && Parse(all) == Parsed(done + Parse(buffer).messages, Parse(buffer).rest)
  }

  lemma ReadStarts(sv: Server, s: Sid, all: Bytes, now: int)
    requires s in sv.sessions
    ensures Midway(sv, s, all, [], [], now, sv, all)
  {
    NothingToHandle(sv, s, now);
    assert [] + Parse(all).messages == Parse(all).messages;
  }

  lemma ReadEnds(sv: Server, s: Sid, all: Bytes, done: seq<Message>, choices: seq<Choice>, now: int,
                 here: Server, buffer: Bytes)
    requires s in sv.sessions && Midway(sv, s, all, done, choices, now, here, buffer) && FrameEnd(buffer).None?
    ensures ReadBy(sv, s, all, choices, now, Ok(Reading(here, buffer)))
  {
    ParseNothing(buffer);
    assert done + [] == done;
  }

  /** One more message leads to the next turn of the loop, or out of it if the handler throws. */
  lemma ReadGoesOn(sv: Server, s: Sid, all: Bytes, done: seq<Message>, choices: seq<Choice>, now: int,
                   here: Server, rest: Bytes, message: Message, choice: Choice, next: Outcome<Server>)
    returns (longer: seq<Choice>)
    requires s in sv.sessions && s in here.sessions && Framable(message)
    requires Midway(sv, s, all, done, choices, now, here, Frame(message) + rest)
    requires Allowed(Touched(here, s, now), message, choice) && next == Handle(here, s, message, choice, now)
    ensures next.Ok? ==> Midway(sv, s, all, done + [message], longer, now, next.value, rest)
    ensures next.Fault? ==> ReadBy(sv, s, all, longer, now, Fault)
  {
    hide Parse, Frame, Handle, HandleAll, Obeyed;
    var unread := Parse(rest).messages;
    ParseOne(message, rest);
    ConcatAssoc(done, [message], unread);
    HandleOneMore(sv, s, done, choices, here, message, choice, now);
    longer := choices + [choice];
    if next.Fault? {
      var padding := seq(|unread|, _ => choice);
      FaultEndsTheRead(sv, s, done + [message], unread, longer, padding, now);
      longer := longer + padding;
    }
    return;
  }

  lemma NothingToHandle(sv: Server, s: Sid, now: int)
    requires s in sv.sessions
    ensures HandleAll(sv, s, [], [], now) == Ok(sv) && Obeyed(sv, s, [], [], now)
  {
  }
}

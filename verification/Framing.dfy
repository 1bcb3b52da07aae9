/** What a receiver makes of a byte stream, however the network cuts it. */
module Framing {
  import opened Prelude
  import opened MessageCodec

  datatype Parsed = Parsed(messages: seq<Message>, rest: Bytes)

  /** The parse loop run to quiescence on one buffer. */
  function Parse(buffer: Bytes): (p: Parsed)
    decreases |buffer|
  {
    match FrameEnd(buffer)
    case None => Parsed([], buffer)
    case Some(end) =>
      var tail := Parse(buffer[end..]);
      Parsed([FirstMessage(buffer)] + tail.messages, tail.rest)
  }

  /** A receiver that starts with `buffer`, appends each read and runs the parse loop after it. */
  function Feed(buffer: Bytes, chunks: seq<Bytes>): (p: Parsed)
    decreases |chunks|
  {
    if chunks == [] then Parsed([], buffer)
    else
      var first := Parse(buffer + chunks[0]);
      var later := Feed(first.rest, chunks[1..]);
      Parsed(first.messages + later.messages, later.rest)
  }

  ghost predicate AllFramable(messages: seq<Message>) {
    forall m :: m in messages ==> Framable(m)
  }

  ghost function Frames(messages: seq<Message>): Bytes
    requires AllFramable(messages)
  {
    if messages == [] then [] else Frame(messages[0]) + Frames(messages[1..])
  }

  /** The packets of a sequence of messages, as `send` queues them. */
  function Packets(messages: seq<Message>): (packets: seq<Bytes>)
    ensures |packets| == |messages|
    ensures forall i :: 0 <= i < |messages| ==> packets[i] == Packet(messages[i])
  {
    seq(|messages|, i requires 0 <= i < |messages| => Packet(messages[i]))
  }

  lemma ParseNothing(buffer: Bytes)
    requires FrameEnd(buffer).None?
    ensures Parse(buffer) == Parsed([], buffer)
  {
  }

  lemma ParseOne(m: Message, rest: Bytes)
    requires Framable(m)
    ensures Parse(Frame(m) + rest) == Parsed([m] + Parse(rest).messages, Parse(rest).rest)
  {
    hide FrameEnd, FirstMessage, Frame;
    DecodeFrame(m, rest);
    assert (Frame(m) + rest)[|Frame(m)|..] == rest;
  }

  // ---- Nothing is lost, and the result is the only possible one ----

  lemma {:induction false} ParseLosesNothing(buffer: Bytes)
    ensures var p := Parse(buffer);
            AllFramable(p.messages) && buffer == Frames(p.messages) + p.rest && FrameEnd(p.rest).None?
    decreases |buffer|
  {
    hide FrameEnd, FirstMessage, Frame;
    if FrameEnd(buffer).Some? {
      hide Frames;
      var end := FrameEnd(buffer).value;
      var m, tail := FirstMessage(buffer), Parse(buffer[end..]);
      ParseLosesNothing(buffer[end..]);
      FrameDecoded(buffer);
      FramesFirst(m, tail.messages);
      assert Parse(buffer) == Parsed([m] + tail.messages, tail.rest);
      assert buffer == buffer[..end] + buffer[end..];
      assert buffer == Frame(m) + (Frames(tail.messages) + tail.rest);
      ConcatAssoc(Frame(m), Frames(tail.messages), tail.rest);
    }
  }

  lemma FramesFirst(m: Message, messages: seq<Message>)
    requires Framable(m) && AllFramable(messages)
    ensures AllFramable([m] + messages) && Frames([m] + messages) == Frame(m) + Frames(messages)
  {
    assert ([m] + messages)[1..] == messages;
  }

  lemma {:induction false} ParseFrames(messages: seq<Message>, tail: Bytes)
    requires AllFramable(messages)
    ensures Parse(Frames(messages) + tail)
         == Parsed(messages + Parse(tail).messages, Parse(tail).rest)
  {
    hide FrameEnd, FirstMessage, Frame;
    if messages == [] {
      assert Frames(messages) + tail == tail;
    } else {
      var later := Frames(messages[1..]) + tail;
      assert Frames(messages) + tail == Frame(messages[0]) + later;
      DecodeFrame(messages[0], later);
      assert (Frame(messages[0]) + later)[|Frame(messages[0])|..] == later;
      ParseFrames(messages[1..], tail);
      assert [messages[0]] + (messages[1..] + Parse(tail).messages) == messages + Parse(tail).messages;
    }
  }

  /** The parser's answer is exactly the one way to read a buffer as frames plus an incomplete tail. */
  lemma ParseIsTheOnlyReading(buffer: Bytes, messages: seq<Message>, rest: Bytes)
    ensures Parse(buffer) == Parsed(messages, rest)
       <==> AllFramable(messages) && buffer == Frames(messages) + rest && FrameEnd(rest).None?
  {
    ParseLosesNothing(buffer);
    if AllFramable(messages) && buffer == Frames(messages) + rest && FrameEnd(rest).None? {
      ParseFrames(messages, rest);
      assert messages + [] == messages;
    }
  }

  // ---- Independence from how the stream is cut ----

  lemma ParseResumes(buffer: Bytes, more: Bytes)
    ensures var first := Parse(buffer);
            var later := Parse(first.rest + more);
            Parse(buffer + more) == Parsed(first.messages + later.messages, later.rest)
  {
    hide FrameEnd, FirstMessage, Frame, Parse, Frames;
    var first := Parse(buffer);
    ParseLosesNothing(buffer);
    ParseFrames(first.messages, first.rest + more);
    assert buffer + more == Frames(first.messages) + (first.rest + more);
  }

  lemma {:induction false} CuttingIsIrrelevant(buffer: Bytes, chunks: seq<Bytes>)
    requires FrameEnd(buffer).None?
    ensures Feed(buffer, chunks) == Parse(buffer + Flatten(chunks))
    decreases |chunks|
  {
    hide FrameEnd, FirstMessage, Frame;
    if chunks == [] {
      assert buffer + [] == buffer;
    } else {
      var first := Parse(buffer + chunks[0]);
      ParseLosesNothing(buffer + chunks[0]);
      CuttingIsIrrelevant(first.rest, chunks[1..]);
      ParseResumes(buffer + chunks[0], Flatten(chunks[1..]));
      assert buffer + Flatten(chunks) == buffer + chunks[0] + Flatten(chunks[1..]);
    }
  }

  // ---- From the sender's packets to the receiver's messages ----

  lemma {:induction false} PacketsAreFrames(sent: seq<Message>)
    ensures AllFramable(Filter(sent, Fits))
    ensures Flatten(Packets(sent)) == Frames(Filter(sent, Fits))
  {
    hide Frame;
    if sent != [] {
      var n := |sent| - 1;
      PacketsAreFrames(sent[..n]);
      assert Packets(sent) == Packets(sent[..n]) + [Packet(sent[n])];
      FlattenOne(Packets(sent[..n]), Packet(sent[n]));
      var kept := Filter(sent[..n], Fits);
      if Fits(sent[n]) {
        FramesOne(kept, sent[n]);
      } else {
        assert kept + [] == kept;
      }
    }
  }

  lemma {:induction false} FramesOne(messages: seq<Message>, m: Message)
    requires AllFramable(messages) && Framable(m)
    ensures AllFramable(messages + [m]) && Frames(messages + [m]) == Frames(messages) + Frame(m)
  {
    if messages == [] {
      assert messages + [m] == [m];
      assert Frames([m]) == Frame(m) + Frames([m][1..]);
    } else {
      assert (messages + [m])[1..] == messages[1..] + [m];
      assert (messages + [m])[0] == messages[0];
      FramesOne(messages[1..], m);
    }
  }

  lemma ByLength(sent: seq<Message>)
    ensures forall m :: m in Filter(sent, Fits) <==> m in sent && |m.body| <= 1_048_576
  {
  }

  /** End to end: whatever was sent and however the stream arrives, the receiver dispatches exactly the
      sent messages of at most 1 MiB, in order, once each, and is left with nothing. */
  lemma EndToEnd(sent: seq<Message>, chunks: seq<Bytes>)
    requires Flatten(chunks) == Flatten(Packets(sent))
    ensures Feed([], chunks) == Parsed(Filter(sent, Fits), [])
    ensures forall m :: m in Feed([], chunks).messages <==> m in sent && |m.body| <= 1_048_576
  {
    hide Feed, Parse, Frames, FrameEnd, Flatten, Packets, Filter, Fits;
    NothingIsNoFrame();
    CuttingIsIrrelevant([], chunks);
    PacketsAreFrames(sent);
    var kept := Filter(sent, Fits);
    ParseIsTheOnlyReading(Frames(kept), kept, []);
    assert [] + Flatten(chunks) == Frames(kept) == Frames(kept) + [];
    ByLength(sent);
    return;
  }

  lemma NothingIsNoFrame()
    ensures FrameEnd([]).None?
  {
  }

  /** While part of the stream is still under way, the receiver has dispatched a prefix of the same. */
  lemma EndToEndPrefix(sent: seq<Message>, chunks: seq<Bytes>)
    requires Flatten(chunks) <= Flatten(Packets(sent))
    ensures Feed([], chunks).messages <= Filter(sent, Fits)
  {
    hide Feed, Parse, Frames, FrameEnd, Packets, Filter, Fits, Flatten;
    var arrived := Flatten(chunks);
    var missing := Flatten(Packets(sent))[|arrived|..];
    FlattenOne(chunks, missing);
    EndToEnd(sent, chunks + [missing]);
    FedAtOnce(chunks);
    FedAtOnce(chunks + [missing]);
    ParseResumes(arrived, missing);
    return;
  }

  lemma FedAtOnce(chunks: seq<Bytes>)
    ensures Feed([], chunks) == Parse(Flatten(chunks))
  {
    CuttingIsIrrelevant([], chunks);
    assert [] + Flatten(chunks) == Flatten(chunks);
  }
}

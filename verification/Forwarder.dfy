// Forwarding a streamed upstream response: every read is printed as one chunked frame and then shown to
// the observer, whose exceptions are not caught on the way.

module StreamForwarding {
  import opened Octets
  import opened ChunkedFraming
  import opened SseBuffers

  const FRESH := Observer(NOTHING, [])

  /** The reads up to the first empty one, which ends the upstream response. */
  function Chunks(replies: seq<seq<Byte>>): (chunks: seq<seq<Byte>>)
    ensures NonEmpty(chunks) && chunks <= replies
    ensures chunks == replies || replies[|chunks|] == []
  {
    if replies == [] || replies[0] == [] then [] else [replies[0]] + Chunks(replies[1..])
  }

  /** How many of n frames are written whole before the client is found gone at write number `hangup`. */
  function Served(n: nat, hangup: nat): nat {
    if hangup / 3 < n then hangup / 3 else n
  }

  // ---------------------------------------------------------------- when the observer raises

  /** The first chunk whose feed raises, or the number of chunks. */
  function FirstRaise(decode: Decoder, chunks: seq<seq<Byte>>): (n: nat)
    ensures n <= |chunks|
  {
    if chunks == [] then 0
    else
      var earlier := chunks[..|chunks| - 1];
      var n := FirstRaise(decode, earlier);
      if n < |earlier| then n
      else if FeedAll(decode, FRESH, chunks).seen.raised then |earlier|
      else |chunks|
  }

  lemma PrefixOfPrefix(s: seq<seq<Byte>>, n: nat, k: nat)
    requires k <= n <= |s|
    ensures s[..n][..k] == s[..k] && s[..|s|] == s
  {
  }

  lemma {:induction false} FirstRaiseIs(decode: Decoder, chunks: seq<seq<Byte>>)
    ensures var n := FirstRaise(decode, chunks);
      && (n < |chunks| <==> FeedAll(decode, FRESH, chunks).seen.raised)
      && (n < |chunks| ==> FeedAll(decode, FRESH, chunks) == FeedAll(decode, FRESH, chunks[..n + 1]))
      && !FeedAll(decode, FRESH, chunks[..n]).seen.raised
  {
    if chunks != [] {
      var last := |chunks| - 1;
      var earlier := chunks[..last];
      var n := FirstRaise(decode, earlier);
      FirstRaiseIs(decode, earlier);
      PrefixOfPrefix(chunks, last, n);
      if n < last {
        PrefixOfPrefix(chunks, last, n + 1);
        RaiseStops(decode, chunks);
      }
    }
  }

  lemma RaiseStops(decode: Decoder, chunks: seq<seq<Byte>>)
    requires chunks != [] && FeedAll(decode, FRESH, chunks[..|chunks| - 1]).seen.raised
    ensures FeedAll(decode, FRESH, chunks) == FeedAll(decode, FRESH, chunks[..|chunks| - 1])
  {
  }

  /** Up to the first raise every prefix is fed without one, and there it comes. */
  lemma {:induction false} FirstRaiseAt(decode: Decoder, chunks: seq<seq<Byte>>, i: nat)
    requires i < |chunks| && !FeedAll(decode, FRESH, chunks[..i]).seen.raised
    ensures FeedAll(decode, FRESH, chunks[..i + 1]).seen.raised <==> FirstRaise(decode, chunks) == i
    decreases |chunks|
  {
    var earlier := chunks[..|chunks| - 1];
    if i < |earlier| {
      assert earlier[..i] == chunks[..i] && earlier[..i + 1] == chunks[..i + 1];
      FirstRaiseAt(decode, earlier, i);
    } else {
      FirstRaiseIs(decode, earlier);
      assert chunks[..i] == earlier && chunks[..i + 1] == chunks;
    }
  }

  // ---------------------------------------------------------------- one frame

  lemma FrameCuts(size: seq<Byte>, chunk: seq<Byte>)
    ensures var frame := size + chunk + CRLF;
      && frame[..|[] + size|] == [] + size == size && frame[..|size + chunk|] == size + chunk
      && frame + [] == frame
  {
  }

  lemma DrainOneFrame(chunk: seq<Byte>)
    requires chunk != []
    ensures Drain(Frame(chunk)) == Drained([Payload(chunk)], [], true)
  {
    assert Frame(chunk) + [] == Frame(chunk);
    DrainFrame(chunk, []);
    DrainNothing();
  }

  lemma DrainNothing()
    ensures Drain([]) == Drained([], [], true)
  {
  }

  lemma WriteDrains(emitted: seq<Item>, buf: seq<Byte>, more: seq<Byte>, whole: seq<Byte>, d: Drained)
    requires more != [] && whole == buf + more && Drain(whole) == d
    ensures WriteStep(SinkState(buf, true, emitted), more) == SinkState(d.rest, d.unframe, emitted + d.items)
  {
  }

  lemma FrameCompletes(emitted: seq<Item>, chunk: seq<Byte>)
    requires chunk != []
    ensures WriteStep(SinkState(PrintHex(|chunk|) + CRLF + chunk, true, emitted), CRLF)
         == SinkState([], true, emitted + [Payload(chunk)])
  {
    DrainOneFrame(chunk);
    WriteDrains(emitted, PrintHex(|chunk|) + CRLF + chunk, CRLF, Frame(chunk), Drained([Payload(chunk)], [], true));
  }

  /** The three writes of a frame: nothing comes out before the last, and then the payload does. */
  lemma FrameIsWritten(emitted: seq<Item>, chunk: seq<Byte>)
    requires chunk != []
    ensures
      var size := PrintHex(|chunk|) + CRLF;
      && WriteStep(SinkState([], true, emitted), size) == SinkState(size, true, emitted)
      && WriteStep(SinkState(size, true, emitted), chunk) == SinkState(size + chunk, true, emitted)
      && WriteStep(SinkState(size + chunk, true, emitted), CRLF) == SinkState([], true, emitted + [Payload(chunk)])
  {
    var size := PrintHex(|chunk|) + CRLF;
    FrameCuts(size, chunk);
    CutIsKept(emitted, chunk, [], size);
    CutIsKept(emitted, chunk, size, chunk);
    FrameCompletes(emitted, chunk);
  }

  lemma CutIsKept(emitted: seq<Item>, chunk: seq<Byte>, buf: seq<Byte>, more: seq<Byte>)
    requires chunk != [] && more != [] && |buf + more| < |Frame(chunk)|
    requires Frame(chunk)[..|buf + more|] == buf + more
    ensures WriteStep(SinkState(buf, true, emitted), more) == SinkState(buf + more, true, emitted)
  {
    CutFrameWaits(chunk, |buf + more|);
    assert emitted + [] == emitted;
  }

  lemma TerminatorIsWritten(emitted: seq<Item>)
    ensures WriteStep(SinkState([], true, emitted), Stream([])) == SinkState([], true, emitted + [Sentinel])
  {
    assert [] + Stream([]) == Stream([]) && Stream([]) + [] == Stream([]);
    DrainTerminator(Stream([]), []);
  }

  /** One write; the client is marked gone just before write number `hangup`. */
  method Send(sink: WfileSink, data: seq<Byte>, number: nat, hangup: nat) returns (ok: bool)
    requires !sink.gone
    modifies sink
    ensures ok == !sink.gone == (number < hangup)
    ensures sink.State() == if ok then WriteStep(old(sink.State()), data) else old(sink.State())
  {
    if number >= hangup { sink.MarkClientGone(); }
    var r := sink.Write(data);
    ok := r.Written?;
  }

  method SendFrame(sink: WfileSink, chunk: seq<Byte>, number: nat, hangup: nat) returns (ok: bool)
    requires !sink.gone && sink.State() == SinkState([], true, sink.emitted) && chunk != []
    modifies sink
    ensures ok == !sink.gone == (number + 2 < hangup)
    ensures ok ==> sink.State() == SinkState([], true, old(sink.emitted) + [Payload(chunk)])
    ensures !ok ==> sink.emitted == old(sink.emitted)
  {
    FrameIsWritten(sink.emitted, chunk);
    ok := Send(sink, PrintHex(|chunk|) + CRLF, number, hangup);
    if !ok { return; }
    ok := Send(sink, chunk, number + 1, hangup);
    if !ok { return; }
    ok := Send(sink, CRLF, number + 2, hangup);
  }

  /** The terminator; a client that is gone does not get it. */
  method Terminate(sink: WfileSink, number: nat, hangup: nat)
    requires !sink.gone ==> sink.State() == SinkState([], true, sink.emitted)
    modifies sink
    ensures sink.emitted == old(sink.emitted) + if !old(sink.gone) && number < hangup then [Sentinel] else []
    ensures !sink.gone <==> !old(sink.gone) && number < hangup
  {
    if !sink.gone {
      TerminatorIsWritten(sink.emitted);
      var _ := Send(sink, [48] + CRLF + CRLF, number, hangup);
    } else {
      var _ := sink.Write([48] + CRLF + CRLF);
    }
  }

  lemma {:induction false} PayloadsSnoc(payloads: seq<seq<Byte>>, last: seq<Byte>)
    ensures Payloads(payloads + [last]) == Payloads(payloads) + [Payload(last)]
  {
    PayloadsSplit(payloads + [last], |payloads|);
    assert (payloads + [last])[..|payloads|] == payloads && (payloads + [last])[|payloads|..] == [last];
    assert [last][1..] == [];
  }

  lemma PayloadsNext(payloads: seq<seq<Byte>>, i: nat)
    requires i < |payloads|
    ensures Payloads(payloads[..i + 1]) == Payloads(payloads[..i]) + [Payload(payloads[i])]
  {
    assert payloads[..i + 1] == payloads[..i] + [payloads[i]];
    PayloadsSnoc(payloads[..i], payloads[i]);
  }

  // ---------------------------------------------------------------- the whole response

  /** The chunks that are written whole, and all of which are shown to the observer unless it raises. */
  function ServedChunks(replies: seq<seq<Byte>>, hangup: nat): seq<seq<Byte>> {
    Chunks(replies)[..Served(|Chunks(replies)|, hangup)]
  }

  /** What the client has received in the end. */
  function Received(replies: seq<seq<Byte>>, hangup: nat, raisesAt: nat): seq<Item> {
    var served := ServedChunks(replies, hangup);
    if raisesAt < |served| then Payloads(served[..raisesAt + 1])
    else Payloads(served) + if hangup > 3 * |Chunks(replies)| then [Sentinel] else []
  }

  /** The chunk at which the observer ends the forwarding of these chunks; without one, none. */
  ghost function RaisesAt(sse: SseLineBuffer?, chunks: seq<seq<Byte>>): nat
  {
    if sse == null then |chunks| else FirstRaise(sse.decode, chunks)
  }

  /** The loop over the reads, left with the observer's exception or when the client is gone. */
  method ForwardChunks(sink: WfileSink, replies: seq<seq<Byte>>, hangup: nat, sse: SseLineBuffer?)
    returns (raised: bool, count: nat)
    requires sink.State() == SinkState([], true, []) && !sink.gone
    requires sse != null ==> sse.State() == FRESH
    modifies sink, sse
    ensures
      var served := ServedChunks(replies, hangup);
      && (sse != null ==> sse.State() == FeedAll(sse.decode, FRESH, served) && raised == sse.seen.raised)
      && (raised ==>
            sse != null && !sink.gone && sink.emitted == Payloads(served[..FirstRaise(sse.decode, served) + 1]))
      && (!raised ==> sink.emitted == Payloads(served) && count == |served|)
      && (!raised && !sink.gone ==> served == Chunks(replies) && sink.State() == SinkState([], true, sink.emitted))
      && (!raised && sink.gone ==> hangup <= 3 * |Chunks(replies)|)
  {
    ghost var chunks, served := Chunks(replies), ServedChunks(replies, hangup);
    count, raised := 0, false;
    while count < |replies| && replies[count] != []
      invariant count <= |served| && 3 * count <= hangup && !sink.gone && !raised
      invariant sink.State() == SinkState([], true, Payloads(served[..count]))
      invariant sse != null ==> sse.State() == FeedAll(sse.decode, FRESH, served[..count]) && !sse.seen.raised
    {
      assert count < |chunks| && chunks[count] == replies[count];
      var ok := SendFrame(sink, replies[count], 3 * count, hangup);
      if !ok {
        assert served[..count] == served;
        return;
      }
      PayloadsNext(served, count);
      if sse != null {
        raised := FeedNext(sse, served, count, replies[count]);
        if raised { return; }
      }
      count := count + 1;
    }
    assert served[..count] == served == chunks;
  }

  method FeedNext(sse: SseLineBuffer, ghost served: seq<seq<Byte>>, ghost i: nat, chunk: seq<Byte>)
    returns (raised: bool)
    requires i < |served| && chunk == served[i]
    requires sse.State() == FeedAll(sse.decode, FRESH, served[..i]) && !sse.seen.raised
    modifies sse
    ensures sse.State() == FeedAll(sse.decode, FRESH, served[..i + 1]) && raised == sse.seen.raised
    ensures raised ==> FirstRaise(sse.decode, served) == i && sse.State() == FeedAll(sse.decode, FRESH, served)
  {
    assert Resumed(sse.State()) == sse.State();
    assert served[..i + 1][..i] == served[..i];
    raised := sse.Feed(chunk);
    FirstRaiseAt(sse.decode, served, i);
    if raised { FirstRaiseIs(sse.decode, served); }
  }

  /** Forwards the reads of an upstream response. The client gets exactly the frames that were written whole
      before it left or the observer raised, and the terminator exactly if neither has happened; the
      observer is flushed in any case, and its exceptions leave the method. */
  method PipeStreamResponse(sink: WfileSink, replies: seq<seq<Byte>>, hangup: nat, sse: SseLineBuffer?)
    returns (raised: bool)
    requires sink.State() == SinkState([], false, []) && !sink.gone
    requires sse != null ==> sse.State() == FRESH
    modifies sink, sse
    ensures hangup > 3 * |Chunks(replies)| ==> !sink.gone
    ensures
      var served := ServedChunks(replies, hangup);
      var raisesAt := RaisesAt(sse, served);
      && sink.emitted == Received(replies, hangup, raisesAt)
      && (sse != null ==> sse.seen == Recorded(sse.decode, served))
      && (raised <==> raisesAt < |served| || (sse != null && Recorded(sse.decode, served).raised))
  {
    sink.SetUnframe();
    ghost var served := ServedChunks(replies, hangup);
    if sse != null { FirstRaiseIs(sse.decode, served); }
    var count;
    raised, count := ForwardChunks(sink, replies, hangup, sse);
    if !raised { Terminate(sink, 3 * count, hangup); }
    assert sink.emitted == Received(replies, hangup, RaisesAt(sse, served));
    if sse != null {
      var flushRaised := sse.Flush();
      raised := raised || flushRaised;
    }
  }

  // ---------------------------------------------------------------- what the client is promised

  /** Whatever happens, the client has the first chunks in order, none of them torn, and the terminator
      only after all of them. */
  lemma NothingIsTorn(replies: seq<seq<Byte>>, hangup: nat, raisesAt: nat)
    ensures exists k: nat, all: bool :: Delivered([], Received(replies, hangup, raisesAt), Chunks(replies), k, all)
  {
    var chunks, served := Chunks(replies), ServedChunks(replies, hangup);
    var all := raisesAt >= |served| && hangup > 3 * |chunks|;
    var k := if raisesAt < |served| then raisesAt + 1 else |served|;
    PrefixOfPrefix(chunks, |served|, k);
    assert raisesAt >= |served| ==> served[..k] == served;
    assert Delivered([], Received(replies, hangup, raisesAt), chunks, k, all);
  }

  /** A client that stays gets all chunks and the terminator exactly if no chunk makes the observer raise;
      otherwise it gets the chunks up to that one, and its response never ends. */
  lemma StayingClientGetsAllIff(decode: Decoder, replies: seq<seq<Byte>>, hangup: nat)
    requires hangup > 3 * |Chunks(replies)|
    ensures
      var chunks := Chunks(replies);
      var raisesAt := FirstRaise(decode, chunks);
      && ServedChunks(replies, hangup) == chunks
      && (Received(replies, hangup, raisesAt) == Payloads(chunks) + [Sentinel]
          <==> !FeedAll(decode, FRESH, chunks).seen.raised)
      && (FeedAll(decode, FRESH, chunks).seen.raised ==>
            raisesAt < |chunks| && Received(replies, hangup, raisesAt) == Payloads(chunks[..raisesAt + 1]))
      && (!Raises(decode, Texts(Lines(Concat(chunks)))) ==> !FeedAll(decode, FRESH, chunks).seen.raised)
  {
    var chunks := Chunks(replies);
    var raisesAt := FirstRaise(decode, chunks);
    FirstRaiseIs(decode, chunks);
    assert chunks[..|chunks|] == chunks;
    if raisesAt < |chunks| {
      NoSentinel(chunks[..raisesAt + 1]);
      assert Sentinel in Payloads(chunks) + [Sentinel];
    }
    CutsDoNotMatter(decode, chunks);
    ObserveRaisesIff(decode, Texts(Lines(Concat(chunks))));
  }

  /** Such a response: one event whose data is no object. The client stays, gets the chunk and never the
      terminator. */
  method ObserverEndsResponse(decode: Decoder, bad: seq<Byte>)
    returns (sink: WfileSink, sse: SseLineBuffer, raised: bool)
    requires PlainEvent([32], bad) && decode(bad) == NotAnObject
    ensures fresh(sink) && fresh(sse) && sse.decode == decode && !sink.gone
    ensures raised && sink.emitted == [Payload(EventBytes([32], bad))]
  {
    var chunk := EventBytes([32], bad);
    sink := new WfileSink();
    sse := new SseLineBuffer(decode);
    assert chunk + [] == chunk;
    BadChunkRaises(decode, [32], bad, []);
    assert Chunks([chunk]) == [chunk] by { assert [chunk][1..] == []; }
    StayingClientGetsAllIff(decode, [chunk], 4);
    raised := PipeStreamResponse(sink, [chunk], 4, sse);
    assert [chunk][..1] == [chunk] && [chunk][1..] == [];
  }
}

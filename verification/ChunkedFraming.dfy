// Chunked transfer framing (section 7.1 of RFC 9112) as the forwarder prints it
// and as the streaming sink takes it apart again, for every way of cutting the
// bytes into writes.

module ChunkedFraming {
  import opened Wrappers
  import opened Octets

  // ---------------------------------------------------------------- hex sizes

  function HexDigit(d: nat): Byte
    requires d < 16
  {
    if d < 10 then (48 + d) as Byte else (87 + d) as Byte
  }

  function PrintHex(n: nat): (s: seq<Byte>)
    ensures s != []
    ensures CR !in s && LF !in s && 59 !in s
  {
    if n < 16 then [HexDigit(n)] else PrintHex(n / 16) + [HexDigit(n % 16)]
  }

  function DigitValue(b: Byte): Option<nat> {
    if 48 <= b <= 57 then Some((b - 48) as nat)
    else if 97 <= b <= 102 then Some((b - 87) as nat)
    else if 65 <= b <= 70 then Some((b - 55) as nat)
    else None
  }

  /** Value of the first n digits; None where the parser raises ValueError. */
  function HexPrefix(s: seq<Byte>, n: nat): Option<nat>
    requires n <= |s|
  {
    if n == 0 then Some(0)
    else
      match (HexPrefix(s, n - 1), DigitValue(s[n - 1]))
      case (Some(high), Some(d)) => Some(16 * high + d)
      case _ => None
  }

  /** Unsigned base-16 numeral. */
  function ParseHex(s: seq<Byte>): Option<nat> {
    if s == [] then None else HexPrefix(s, |s|)
  }

  lemma {:induction false} HexPrefixOnly(s: seq<Byte>, t: seq<Byte>, n: nat)
    requires n <= |s| && s <= t
    ensures HexPrefix(s, n) == HexPrefix(t, n)
  {
    if n > 0 { HexPrefixOnly(s, t, n - 1); }
  }

  lemma {:induction false} HexRoundTrip(n: nat)
    ensures ParseHex(PrintHex(n)) == Some(n)
  {
    var s := PrintHex(n);
    if n < 16 {
      assert HexPrefix(s, 0) == Some(0);
    } else {
      var high := PrintHex(n / 16);
      HexRoundTrip(n / 16);
      HexPrefixOnly(high, s, |high|);
    }
  }

  // ---------------------------------------------------------------- the parser

  datatype Item = Payload(bytes: seq<Byte>) | Sentinel

  /** Index of the first CRLF at or after i, or -1. */
  function CrlfFrom(buf: seq<Byte>, i: nat): (nl: int)
    ensures nl == -1 || (i <= nl && nl + 2 <= |buf| && buf[nl] == CR && buf[nl + 1] == LF)
    decreases |buf| - i
  {
    if i + 2 > |buf| then -1
    else if buf[i] == CR && buf[i + 1] == LF then i
    else CrlfFrom(buf, i + 1)
  }

  function FindCrlf(buf: seq<Byte>): int {
    CrlfFrom(buf, 0)
  }

  lemma {:induction false} NoEarlierCrlf(buf: seq<Byte>, i: nat)
    ensures var nl := CrlfFrom(buf, i);
      forall j :: i <= j < |buf| - 1 && (nl < 0 || j < nl) ==> !(buf[j] == CR && buf[j + 1] == LF)
    decreases |buf| - i
  {
    if i + 2 <= |buf| && !(buf[i] == CR && buf[i + 1] == LF) {
      NoEarlierCrlf(buf, i + 1);
    }
  }

  lemma FirstCrlfIs(buf: seq<Byte>, at: nat)
    requires at + 2 <= |buf| && buf[at] == CR && buf[at + 1] == LF
    requires forall i :: 0 <= i < at ==> buf[i] != CR
    ensures FindCrlf(buf) == at
  {
    NoEarlierCrlf(buf, 0);
    var nl := FindCrlf(buf);
    assert nl >= 0;
  }

  lemma SameFirstCrlf(a: seq<Byte>, b: seq<Byte>)
    requires FindCrlf(a) >= 0
    ensures FindCrlf(a + b) == FindCrlf(a)
  {
    NoEarlierCrlf(a, 0);
    NoEarlierCrlf(a + b, 0);
    var nl, whole := FindCrlf(a), FindCrlf(a + b);
    assert (a + b)[nl] == CR && (a + b)[nl + 1] == LF;
    assert 0 <= whole <= nl;
    assert (a + b)[whole] == a[whole] && (a + b)[whole + 1] == a[whole + 1];
  }

  function SemicolonFrom(s: seq<Byte>, i: nat): (k: nat)
    requires i <= |s|
    ensures i <= k <= |s|
    ensures k == |s| || s[k] == 59
    decreases |s| - i
  {
    if i == |s| || s[i] == 59 then i else SemicolonFrom(s, i + 1)
  }

  /** The size token without its chunk extension. */
  function BeforeSemicolon(s: seq<Byte>): seq<Byte> {
    s[..SemicolonFrom(s, 0)]
  }

  lemma NoSemicolon(s: seq<Byte>)
    requires 59 !in s
    ensures BeforeSemicolon(s) == s
  {
  }

  /** What stands at the front of the buffer. */
  datatype Head =
    | Incomplete
    | BlankLine
    | Malformed
    | ZeroFrame
    | Whole(payload: seq<Byte>, end: nat)

  function ReadHead(buf: seq<Byte>): (h: Head)
    ensures h.BlankLine? ==> |buf| >= 2
    ensures h.Whole? ==> 0 < h.end <= |buf|
  {
    var nl := FindCrlf(buf);
    if nl < 0 then Incomplete
    else if nl == 0 then BlankLine
    else
      match ParseHex(BeforeSemicolon(buf[..nl]))
      case None => Malformed
      case Some(size) =>
        var end := nl + 2 + size + 2;
        if size == 0 then ZeroFrame
        else if |buf| < end then Incomplete
        else Whole(buf[nl + 2..nl + 2 + size], end)
  }

  /** Bytes that arrive later never change what a recognised head is. */
  lemma HeadIsStable(a: seq<Byte>, b: seq<Byte>)
    requires !ReadHead(a).Incomplete?
    ensures ReadHead(a + b) == ReadHead(a)
  {
    SameFirstCrlf(a, b);
    var nl := FindCrlf(a);
    assert (a + b)[..nl] == a[..nl];
    if ReadHead(a).Whole? {
      var end := ReadHead(a).end;
      assert (a + b)[nl + 2..end - 2] == a[nl + 2..end - 2];
    }
  }

  datatype Drained = Drained(items: seq<Item>, rest: seq<Byte>, unframe: bool)

  /** What one pass over the buffer emits, keeps, and whether unframing goes on. */
  function Drain(buf: seq<Byte>): Drained
    decreases |buf|
  {
    match ReadHead(buf)
    case Incomplete => Drained([], buf, true)
    case BlankLine => Drain(buf[2..])
    case Malformed => Drained([Payload(buf)], [], false)
    case ZeroFrame => Drained([Sentinel], [], true)
    case Whole(payload, end) =>
      var d := Drain(buf[end..]);
      Drained([Payload(payload)] + d.items, d.rest, d.unframe)
  }

  /** The pass met neither the terminator nor a malformed size line. */
  ghost predicate MidStream(d: Drained) {
    d.unframe && Sentinel !in d.items
  }

  /** What a pass keeps is exhausted: draining it again emits nothing. */
  lemma {:induction false} DrainSettles(buf: seq<Byte>)
    requires MidStream(Drain(buf))
    ensures Drain(Drain(buf).rest) == Drained([], Drain(buf).rest, true)
    decreases |buf|
  {
    match ReadHead(buf)
    case BlankLine => DrainSettles(buf[2..]);
    case Whole(payload, end) => DrainSettles(buf[end..]);
    case _ =>
  }

  /** The pass that had already emitted `earlier`. */
  ghost function Before(earlier: seq<Item>, d: Drained): Drained {
    Drained(earlier + d.items, d.rest, d.unframe)
  }

  lemma BeforeStep(earlier: seq<Item>, item: Item, d: Drained)
    ensures Before(earlier, Before([item], d)) == Before(earlier + [item], d)
  {
    assert earlier + ([item] + d.items) == earlier + [item] + d.items;
  }

  lemma DrainWhole(buf: seq<Byte>)
    requires ReadHead(buf).Whole?
    ensures Drain(buf) == Before([Payload(ReadHead(buf).payload)], Drain(buf[ReadHead(buf).end..]))
  {
  }

  lemma DrainEnds(out: seq<Item>, buf: seq<Byte>)
    requires !ReadHead(buf).BlankLine? && !ReadHead(buf).Whole?
    ensures Before(out, Drain(buf)) ==
      match ReadHead(buf)
      case Malformed => Drained(out + [Payload(buf)], [], false)
      case ZeroFrame => Drained(out + [Sentinel], [], true)
      case _ => Drained(out, buf, true)
  {
    assert out + [] == out;
  }

  lemma DrainBlank(buf: seq<Byte>)
    requires FindCrlf(buf) == 0
    ensures Drain(buf) == Drain(buf[2..])
  {
  }

  lemma DrainTakes(out: seq<Item>, buf: seq<Byte>, payload: seq<Byte>, end: nat)
    requires end <= |buf| && ReadHead(buf) == Whole(payload, end)
    ensures Before(out, Drain(buf)) == Before(out + [Payload(payload)], Drain(buf[end..]))
  {
    DrainWhole(buf);
    BeforeStep(out, Payload(payload), Drain(buf[end..]));
  }

  lemma MidStreamTail(item: Item, d: Drained)
    requires MidStream(Before([item], d))
    ensures MidStream(d)
  {
    assert forall x :: x in d.items ==> x in [item] + d.items;
  }

  /** As long as no terminator and no malformed size line was met, cutting any byte stream
      anywhere changes neither the items nor their order. */
  lemma {:induction false} DrainSplits(a: seq<Byte>, b: seq<Byte>)
    requires MidStream(Drain(a))
    ensures Drain(a + b) == Before(Drain(a).items, Drain(Drain(a).rest + b))
    decreases |a|
  {
    var head := ReadHead(a);
    if head.Incomplete? { return; }
    HeadIsStable(a, b);
    if head.BlankLine? {
      DropOfSum(a, b, 2);
      DrainSplits(a[2..], b);
    } else if head.Whole? {
      DrainSplitsAfter(a, b, head.payload, head.end);
    }
  }

  lemma {:induction false} DrainSplitsAfter(a: seq<Byte>, b: seq<Byte>, payload: seq<Byte>, end: nat)
    requires 0 < end <= |a|
    requires ReadHead(a) == ReadHead(a + b) == Whole(payload, end)
    requires MidStream(Drain(a))
    ensures Drain(a + b) == Before(Drain(a).items, Drain(Drain(a).rest + b))
    decreases |a|, 0
  {
    var item, tail := Payload(payload), a[end..];
    DrainWhole(a);
    DrainWhole(a + b);
    DropOfSum(a, b, end);
    MidStreamTail(item, Drain(tail));
    DrainSplits(tail, b);
    BeforeJoin(item, Drain(tail).items, Drain(Drain(tail).rest + b));
  }

  lemma BeforeJoin(item: Item, items: seq<Item>, d: Drained)
    ensures Before([item], Before(items, d)) == Before([item] + items, d)
  {
    assert [item] + (items + d.items) == [item] + items + d.items;
  }

  // ---------------------------------------------------------------- the printer

  function Frame(payload: seq<Byte>): seq<Byte> {
    PrintHex(|payload|) + CRLF + payload + CRLF
  }

  /** The frames of all payloads followed by the zero frame. */
  function Stream(payloads: seq<seq<Byte>>): seq<Byte> {
    if payloads == [] then [48] + CRLF + CRLF else Frame(payloads[0]) + Stream(payloads[1..])
  }

  function Payloads(payloads: seq<seq<Byte>>): seq<Item> {
    if payloads == [] then [] else [Payload(payloads[0])] + Payloads(payloads[1..])
  }

  lemma {:induction false} PayloadsSplit(payloads: seq<seq<Byte>>, k: nat)
    requires k <= |payloads|
    ensures Payloads(payloads) == Payloads(payloads[..k]) + Payloads(payloads[k..])
  {
    if k > 0 {
      PayloadsSplit(payloads[1..], k - 1);
      assert payloads[..k][1..] == payloads[1..][..k - 1];
      assert payloads[k..] == payloads[1..][k - 1..];
    } else {
      assert payloads[0..] == payloads;
    }
  }

  ghost predicate NonEmpty(payloads: seq<seq<Byte>>) {
    forall i :: 0 <= i < |payloads| ==> payloads[i] != []
  }

  lemma FrameParts(hex: seq<Byte>, payload: seq<Byte>, after: seq<Byte>)
    ensures var buf := hex + CRLF + payload + CRLF + after; var n := |hex|;
      && buf[..n] == hex && buf[n] == CR && buf[n + 1] == LF
      && buf[n + 2..n + 2 + |payload|] == payload
      && forall i :: 0 <= i < n ==> buf[i] == hex[i]
  {
  }

  lemma FrameIsRead(payload: seq<Byte>, after: seq<Byte>)
    requires payload != []
    ensures ReadHead(Frame(payload) + after) == Whole(payload, |Frame(payload)|)
  {
    var hex := PrintHex(|payload|);
    FrameParts(hex, payload, after);
    FirstCrlfIs(Frame(payload) + after, |hex|);
    NoSemicolon(hex);
    HexRoundTrip(|payload|);
  }

  /** Chunk extensions behind the size are skipped. */
  lemma ExtensionIsIgnored(payload: seq<Byte>, extension: seq<Byte>, after: seq<Byte>)
    requires payload != [] && CR !in extension
    ensures var line := PrintHex(|payload|) + ([59] + extension);
      ReadHead(line + CRLF + payload + CRLF + after) == Whole(payload, |line| + |payload| + 4)
  {
    var hex := PrintHex(|payload|);
    var line := hex + ([59] + extension);
    FrameParts(line, payload, after);
    assert forall i :: 0 <= i < |line| ==> line[i] != CR;
    FirstCrlfIs(line + CRLF + payload + CRLF + after, |line|);
    SemicolonAfter(hex, extension, 0);
    HexRoundTrip(|payload|);
  }

  lemma {:induction false} SemicolonAfter(s: seq<Byte>, extension: seq<Byte>, i: nat)
    requires 59 !in s && i <= |s|
    ensures SemicolonFrom(s + ([59] + extension), i) == |s|
    ensures (s + ([59] + extension))[..|s|] == s
    decreases |s| - i
  {
    if i < |s| {
      assert (s + ([59] + extension))[i] == s[i];
      SemicolonAfter(s, extension, i + 1);
    }
  }

  /** A full read of 8192 bytes is announced as 2000. */
  lemma FullReadSize()
    ensures PrintHex(8192) == [50, 48, 48, 48]
  {
    assert PrintHex(2) == [50] && PrintHex(32) == [50, 48] && PrintHex(512) == [50, 48, 48];
  }

  /** Letters in upper case. */
  function Upper(s: seq<Byte>): seq<Byte> {
    seq(|s|, i requires 0 <= i < |s| => if 97 <= s[i] <= 102 then s[i] - 32 else s[i])
  }

  /** The case of a size does not matter. */
  lemma UpperCaseParses(s: seq<Byte>)
    ensures ParseHex(Upper(s)) == ParseHex(s)
  {
    UpperPrefix(s, |s|);
  }

  lemma {:induction false} UpperPrefix(s: seq<Byte>, n: nat)
    requires n <= |s|
    ensures HexPrefix(Upper(s), n) == HexPrefix(s, n)
  {
    if n > 0 { UpperPrefix(s, n - 1); }
  }

  /** A proper prefix of one frame is kept whole, wherever it was cut. */
  lemma CutFrameWaits(payload: seq<Byte>, cut: nat)
    requires payload != [] && cut < |Frame(payload)|
    ensures ReadHead(Frame(payload)[..cut]) == Incomplete
  {
    var hex, buf := PrintHex(|payload|), Frame(payload)[..cut];
    if cut < |hex| + 2 {
      assert forall i :: 0 <= i < |buf| && i < |hex| ==> buf[i] == hex[i];
      assert FindCrlf(buf) < 0;
    } else {
      FirstCrlfIs(buf, |hex|);
      assert buf[..|hex|] == hex;
      NoSemicolon(hex);
      HexRoundTrip(|payload|);
    }
  }

  lemma DrainTerminator(buf: seq<Byte>, tail: seq<Byte>)
    requires buf + tail == Stream([])
    ensures |tail| > 2 ==> Drain(buf) == Drained([], buf, true)
    ensures |tail| <= 2 ==> Drain(buf) == Drained([Sentinel], [], true)
  {
    var whole := buf + tail;
    assert forall i :: 0 <= i < |buf| ==> buf[i] == whole[i];
    if |tail| > 2 {
      assert FindCrlf(buf) < 0;
    } else {
      FirstCrlfIs(buf, 1);
      assert buf[..1] == [48];
      NoSemicolon([48]);
    }
  }

  /** A prefix of a framed stream was drained: the first k frames came out and the cut one is kept. */
  ghost predicate Stopped(payloads: seq<seq<Byte>>, d: Drained, tail: seq<Byte>, k: nat) {
    && k <= |payloads|
    && d.items == Payloads(payloads[..k]) && d.unframe
    && d.rest + tail == Stream(payloads[k..])
  }

  /** Everything came out with the sentinel; at most the last CRLF is still to come. */
  ghost predicate Finished(payloads: seq<seq<Byte>>, d: Drained, tail: seq<Byte>) {
    && d == Drained(Payloads(payloads) + [Sentinel], [], true)
    && (tail == [] || tail == [LF] || tail == CRLF)
  }

  lemma {:induction false} DrainPrefix(payloads: seq<seq<Byte>>, buf: seq<Byte>, tail: seq<Byte>)
    returns (k: nat)
    requires NonEmpty(payloads)
    requires buf + tail == Stream(payloads)
    ensures Stopped(payloads, Drain(buf), tail, k) || Finished(payloads, Drain(buf), tail)
    ensures tail == [] ==> Finished(payloads, Drain(buf), tail)
  {
    k := 0;
    if payloads == [] {
      DrainTerminator(buf, tail);
      TakeOfSum(buf, tail);
      return;
    }
    var frame, later := Frame(payloads[0]), payloads[1..];
    CutOfSum(buf, tail, frame, Stream(later));
    if |buf| < |frame| {
      CutFrameWaits(payloads[0], |buf|);
      StoppedAtOnce(payloads, buf, tail);
    } else {
      var after := buf[|frame|..];
      var more := DrainPrefix(later, after, tail);
      DrainFrame(payloads[0], after);
      if Stopped(later, Drain(after), tail, more) {
        k := more + 1;
        StoppedCons(payloads, Drain(after), tail, more);
      } else {
        FinishedCons(payloads, Drain(after), tail);
      }
    }
  }

  lemma DrainFrame(payload: seq<Byte>, after: seq<Byte>)
    requires payload != []
    ensures Drain(Frame(payload) + after) == Before([Payload(payload)], Drain(after))
  {
    FrameIsRead(payload, after);
    DrainWhole(Frame(payload) + after);
    TakeOfSum(Frame(payload), after);
  }

  lemma StoppedAtOnce(payloads: seq<seq<Byte>>, buf: seq<Byte>, tail: seq<Byte>)
    requires ReadHead(buf) == Incomplete && buf + tail == Stream(payloads)
    ensures Stopped(payloads, Drain(buf), tail, 0)
  {
    assert payloads[0..] == payloads;
  }

  lemma FinishedCons(payloads: seq<seq<Byte>>, d: Drained, tail: seq<Byte>)
    requires payloads != [] && Finished(payloads[1..], d, tail)
    ensures Finished(payloads, Before([Payload(payloads[0])], d), tail)
  {
  }

  lemma CutOfSum(a: seq<Byte>, b: seq<Byte>, c: seq<Byte>, d: seq<Byte>)
    requires a + b == c + d
    ensures |a| < |c| ==> a == c[..|a|]
    ensures |a| >= |c| ==> a == c + a[|c|..] && a[|c|..] + b == d
  {
    var whole := a + b;
    if |a| < |c| {
      assert a == whole[..|a|] == c[..|a|];
    } else {
      assert a[..|c|] == whole[..|c|] == c;
      assert a[|c|..] + b == whole[|c|..] == d;
    }
  }

  lemma StoppedCons(payloads: seq<seq<Byte>>, d: Drained, tail: seq<Byte>, k: nat)
    requires payloads != [] && Stopped(payloads[1..], d, tail, k)
    ensures Stopped(payloads, Before([Payload(payloads[0])], d), tail, k + 1)
  {
    assert payloads[k + 1..] == payloads[1..][k..];
    assert payloads[..k + 1][1..] == payloads[1..][..k];
  }

  // ---------------------------------------------------------------- the sink

  datatype SinkState = SinkState(buf: seq<Byte>, unframe: bool, emitted: seq<Item>)

  function WriteStep(st: SinkState, data: seq<Byte>): SinkState {
    if data == [] then st
    else if !st.unframe then st.(emitted := st.emitted + [Payload(data)])
    else
      var d := Drain(st.buf + data);
      SinkState(d.rest, d.unframe, st.emitted + d.items)
  }

  function Writes(st: SinkState, pieces: seq<seq<Byte>>): SinkState
    decreases |pieces|
  {
    if pieces == [] then st else Writes(WriteStep(st, pieces[0]), pieces[1..])
  }

  lemma {:induction false} WritesSnoc(st: SinkState, pieces: seq<seq<Byte>>, last: seq<Byte>)
    ensures Writes(st, pieces + [last]) == WriteStep(Writes(st, pieces), last)
    decreases |pieces|
  {
    if pieces == [] {
      assert [last][1..] == [];
    } else {
      assert (pieces + [last])[1..] == pieces[1..] + [last];
      WritesSnoc(WriteStep(st, pieces[0]), pieces[1..], last);
    }
  }

  lemma DrainTrailer(buf: seq<Byte>)
    requires buf == [] || buf == [LF] || buf == [CR] || buf == CRLF
    ensures Drain(buf) == Drained([], if buf == CRLF then [] else buf, true)
  {
    if buf == CRLF { assert buf[2..] == []; }
  }

  ghost predicate Trailer(s: seq<Byte>) {
    s == [] || s == [LF] || s == CRLF
  }

  lemma TrailerStep(st: SinkState, piece: seq<Byte>, coming: seq<Byte>)
    requires st.unframe && Trailer(st.buf + (piece + coming))
    ensures var next := WriteStep(st, piece);
            next.unframe && next.emitted == st.emitted && Trailer(next.buf + coming)
  {
    var buf, whole := st.buf + piece, st.buf + (piece + coming);
    assert whole == buf + coming;
    assert buf == whole[..|buf|] && coming == whole[|buf|..];
    assert piece == [] ==> buf == st.buf;
    DrainTrailer(buf);
  }

  /** After the sentinel the rest of the last CRLF is swallowed, however it is cut. */
  lemma {:induction false} TrailerIsSilent(st: SinkState, pieces: seq<seq<Byte>>, owed: seq<Byte>)
    requires st.unframe && Trailer(st.buf + (Concat(pieces) + owed))
    ensures Writes(st, pieces).emitted == st.emitted
    decreases |pieces|
  {
    if pieces != [] {
      var coming := Concat(pieces[1..]) + owed;
      assert Concat(pieces) + owed == pieces[0] + coming;
      TrailerStep(st, pieces[0], coming);
      TrailerIsSilent(WriteStep(st, pieces[0]), pieces[1..], owed);
    }
  }

  /** The sink waits for more of the stream of these payloads. */
  ghost predicate Waiting(st: SinkState, payloads: seq<seq<Byte>>, coming: seq<Byte>) {
    && NonEmpty(payloads) && st.unframe
    && st.buf + coming == Stream(payloads)
    && Drain(st.buf) == Drained([], st.buf, true)
  }

  /** One write moves on by the frames it completes. */
  lemma WriteAdvances(st: SinkState, payloads: seq<seq<Byte>>, piece: seq<Byte>, coming: seq<Byte>)
    returns (k: nat, finished: bool)
    requires Waiting(st, payloads, piece + coming)
    ensures k <= |payloads|
    ensures !finished ==>
      WriteStep(st, piece).emitted == st.emitted + Payloads(payloads[..k])
      && Waiting(WriteStep(st, piece), payloads[k..], coming)
    ensures finished ==>
      k == |payloads| && Trailer(coming)
      && WriteStep(st, piece) == SinkState([], true, st.emitted + Payloads(payloads) + [Sentinel])
  {
    var buf := st.buf + piece;
    assert buf + coming == st.buf + (piece + coming);
    if piece == [] {
      k, finished := 0, false;
      assert payloads[0..] == payloads;
      assert [] + coming == coming;
      return;
    }
    k := DrainPrefix(payloads, buf, coming);
    finished := !Stopped(payloads, Drain(buf), coming, k);
    if !finished {
      NoSentinel(payloads[..k]);
      DrainSettles(buf);
    } else {
      k := |payloads|;
      assert st.emitted + (Payloads(payloads) + [Sentinel]) == st.emitted + Payloads(payloads) + [Sentinel];
    }
  }

  lemma PayloadsJoin(payloads: seq<seq<Byte>>, done: nat, k: nat)
    requires done <= k <= |payloads|
    ensures Payloads(payloads[..k]) == Payloads(payloads[..done]) + Payloads(payloads[done..][..k - done])
  {
    var first := payloads[..k];
    PayloadsSplit(first, done);
    assert first[..done] == payloads[..done];
    assert first[done..] == payloads[done..][..k - done];
  }

  /** The first k payloads were emitted in order, or all of them and then the sentinel. */
  ghost predicate Delivered(before: seq<Item>, after: seq<Item>, payloads: seq<seq<Byte>>, k: nat, all: bool) {
    && k <= |payloads| && (all ==> k == |payloads|)
    && after == before + Payloads(payloads[..k]) + if all then [Sentinel] else []
  }

  /** Whatever was received so far, the emitted items are the first payloads, uncorrupted and in order;
      the sentinel only comes after all of them, and it has come once the whole stream was received. */
  lemma {:induction false} DeliversPrefix(st: SinkState, payloads: seq<seq<Byte>>, pieces: seq<seq<Byte>>,
                                         tail: seq<Byte>)
    returns (k: nat, all: bool)
    requires Waiting(st, payloads, Concat(pieces) + tail)
    ensures Delivered(st.emitted, Writes(st, pieces).emitted, payloads, k, all)
    ensures tail == [] ==> all
    decreases |pieces|
  {
    if pieces == [] {
      k, all := 0, false;
      if tail == [] {
        assert st.buf + (Concat(pieces) + tail) == st.buf;
        WholeStreamIsNotKept(payloads, st.buf);
      }
      return;
    }
    var coming := Concat(pieces[1..]) + tail;
    assert Concat(pieces) + tail == pieces[0] + coming;
    var done, finished := WriteAdvances(st, payloads, pieces[0], coming);
    var next := WriteStep(st, pieces[0]);
    if finished {
      k, all := |payloads|, true;
      assert next.buf + coming == coming;
      TrailerIsSilent(next, pieces[1..], tail);
      assert payloads[..k] == payloads;
      return;
    } else {
      var later;
      later, all := DeliversPrefix(next, payloads[done..], pieces[1..], tail);
      k := done + later;
      DeliveredJoin(st.emitted, next.emitted, Writes(next, pieces[1..]).emitted, payloads, done, later, all);
    }
  }

  lemma SumOfFour(a: seq<Item>, b: seq<Item>, c: seq<Item>, d: seq<Item>)
    ensures a + b + c + d == a + (b + c) + d
  {
  }

  lemma DeliveredJoin(before: seq<Item>, middle: seq<Item>, after: seq<Item>, payloads: seq<seq<Byte>>,
                      done: nat, later: nat, all: bool)
    requires done <= |payloads| && middle == before + Payloads(payloads[..done])
    requires Delivered(middle, after, payloads[done..], later, all)
    ensures Delivered(before, after, payloads, done + later, all)
  {
    PayloadsJoin(payloads, done, done + later);
    SumOfFour(before, Payloads(payloads[..done]), Payloads(payloads[done..][..later]), if all then [Sentinel] else []);
  }

  lemma WholeStreamIsNotKept(payloads: seq<seq<Byte>>, buf: seq<Byte>)
    requires NonEmpty(payloads) && buf == Stream(payloads)
    ensures Drain(buf) != Drained([], buf, true)
  {
    assert buf + [] == buf;
    var _ := DrainPrefix(payloads, buf, []);
  }

  lemma NoSentinel(payloads: seq<seq<Byte>>)
    ensures Sentinel !in Payloads(payloads)
  {
  }

  /** The inverse law: however the framed stream is cut, including inside a size line or a CRLF,
      exactly the payloads come out, then one sentinel. */
  lemma UnframingInvertsFraming(payloads: seq<seq<Byte>>, pieces: seq<seq<Byte>>)
    requires NonEmpty(payloads)
    requires Concat(pieces) == Stream(payloads)
    ensures Writes(SinkState([], true, []), pieces).emitted == Payloads(payloads) + [Sentinel]
  {
    var st := SinkState([], true, []);
    assert st.buf + (Concat(pieces) + []) == Stream(payloads);
    var k, _ := DeliversPrefix(st, payloads, pieces, []);
    assert payloads[..k] == payloads;
  }

  // ---------------------------------------------------------------- bytes that are passed through

  /** The bytes that reach the client. */
  function Bytes(items: seq<Item>): seq<Byte> {
    if items == [] then []
    else
      var first := match items[0] case Payload(bytes) => bytes case Sentinel => [];
      first + Bytes(items[1..])
  }

  lemma {:induction false} BytesOfSum(a: seq<Item>, b: seq<Item>)
    ensures Bytes(a + b) == Bytes(a) + Bytes(b)
  {
    if a == [] {
      assert a + b == b;
    } else {
      assert (a + b)[1..] == a[1..] + b;
      BytesOfSum(a[1..], b);
    }
  }

  lemma BytesOfOne(bytes: seq<Byte>)
    ensures Bytes([Payload(bytes)]) == bytes
  {
    assert [Payload(bytes)][1..] == [];
  }

  lemma BytesCons(bytes: seq<Byte>, items: seq<Item>)
    ensures Bytes([Payload(bytes)] + items) == bytes + Bytes(items)
    ensures Sentinel in [Payload(bytes)] + items <==> Sentinel in items
  {
    assert ([Payload(bytes)] + items)[1..] == items;
  }

  lemma Glued(a: seq<Byte>, b: seq<Byte>, c: seq<Byte>)
    ensures a + b + c == a + (b + c)
  {
  }

  lemma PassStep(st: SinkState, piece: seq<Byte>)
    requires !st.unframe
    ensures var next := WriteStep(st, piece);
      && !next.unframe && next.buf == st.buf && st.emitted <= next.emitted
      && Bytes(next.emitted) == Bytes(st.emitted) + piece
      && (Sentinel in next.emitted <==> Sentinel in st.emitted)
  {
    if piece == [] {
      assert Bytes(st.emitted) + [] == Bytes(st.emitted);
    } else {
      BytesOfSum(st.emitted, [Payload(piece)]);
      BytesOfOne(piece);
    }
  }

  /** With unframing off every byte comes through unchanged and in order, and the mode stays off. */
  lemma {:induction false} PassthroughKeepsBytes(st: SinkState, pieces: seq<seq<Byte>>)
    requires !st.unframe
    ensures var now := Writes(st, pieces);
      && !now.unframe && now.buf == st.buf && st.emitted <= now.emitted
      && Bytes(now.emitted) == Bytes(st.emitted) + Concat(pieces)
      && (Sentinel in now.emitted <==> Sentinel in st.emitted)
    decreases |pieces|
  {
    if pieces == [] {
      assert Bytes(st.emitted) + [] == Bytes(st.emitted);
    } else {
      PassStep(st, pieces[0]);
      PassthroughKeepsBytes(WriteStep(st, pieces[0]), pieces[1..]);
      Glued(Bytes(st.emitted), pieces[0], Concat(pieces[1..]));
    }
  }

  /** Bytes behind a malformed size line are passed through with it. */
  lemma {:induction false} DrainMalformed(a: seq<Byte>, b: seq<Byte>)
    requires !Drain(a).unframe
    ensures !Drain(a + b).unframe && Bytes(Drain(a + b).items) == Bytes(Drain(a).items) + b
    decreases |a|
  {
    HeadIsStable(a, b);
    match ReadHead(a)
    case BlankLine =>
      DropOfSum(a, b, 2);
      DrainMalformed(a[2..], b);
    case Malformed =>
      BytesOfOne(a);
      BytesOfOne(a + b);
    case Whole(payload, end) =>
      DropOfSum(a, b, end);
      DrainMalformed(a[end..], b);
      MalformedBehindFrame(a, payload, end);
      MalformedBehindFrame(a + b, payload, end);
      Glued(payload, Bytes(Drain(a[end..]).items), b);
  }

  lemma MalformedBehindFrame(buf: seq<Byte>, payload: seq<Byte>, end: nat)
    requires end <= |buf| && ReadHead(buf) == Whole(payload, end)
    ensures Drain(buf).unframe == Drain(buf[end..]).unframe
    ensures Bytes(Drain(buf).items) == payload + Bytes(Drain(buf[end..]).items)
  {
    DrainWhole(buf);
    BytesCons(payload, Drain(buf[end..]).items);
  }

  /** A terminator that was met is met however long the buffer is. */
  lemma {:induction false} DrainSentinel(a: seq<Byte>, b: seq<Byte>)
    requires Sentinel in Drain(a).items
    ensures Sentinel in Drain(a + b).items
    decreases |a|
  {
    HeadIsStable(a, b);
    match ReadHead(a)
    case BlankLine =>
      DropOfSum(a, b, 2);
      DrainSentinel(a[2..], b);
    case Whole(payload, end) =>
      DropOfSum(a, b, end);
      DrainSentinel(a[end..], b);
    case _ =>
  }

  /** The sink is where one pass with this outcome leaves it: in the same mode, with the same bytes passed on,
      and as long as no size line is malformed with the same items and the same rest. */
  ghost predicate AsAfterPass(st: SinkState, now: SinkState, d: Drained) {
    && now.unframe == d.unframe
    && Bytes(now.emitted) == Bytes(st.emitted) + Bytes(d.items)
    && (d.unframe ==> now.emitted == st.emitted + d.items && now.buf == d.rest)
  }

  /** Up to a terminator, any bytes in any pieces are one pass over the whole stream. */
  lemma {:induction false} WritesAreOnePass(st: SinkState, pieces: seq<seq<Byte>>)
    requires st.unframe && Drain(st.buf) == Drained([], st.buf, true)
    requires Sentinel !in Drain(st.buf + Concat(pieces)).items
    ensures AsAfterPass(st, Writes(st, pieces), Drain(st.buf + Concat(pieces)))
    decreases |pieces|
  {
    if pieces == [] {
      assert st.buf + [] == st.buf && st.emitted + [] == st.emitted;
      assert Bytes(st.emitted) + [] == Bytes(st.emitted);
    } else {
      var buf, later := st.buf + pieces[0], Concat(pieces[1..]);
      Glued(st.buf, pieces[0], later);
      if pieces[0] == [] {
        assert buf == st.buf;
        WritesAreOnePass(st, pieces[1..]);
      } else if Drain(buf).unframe {
        if Sentinel in Drain(buf).items { DrainSentinel(buf, later); }
        DrainSettles(buf);
        DrainSplits(buf, later);
        SplitPass(buf, later);
        WritesAreOnePass(WriteStep(st, pieces[0]), pieces[1..]);
        PassContinues(st, WriteStep(st, pieces[0]), Writes(st, pieces), Drain(buf).items,
                      Drain(Drain(buf).rest + later));
      } else {
        DrainMalformed(buf, later);
        PassthroughKeepsBytes(WriteStep(st, pieces[0]), pieces[1..]);
        BytesOfSum(st.emitted, Drain(buf).items);
        Glued(Bytes(st.emitted), Bytes(Drain(buf).items), later);
      }
    }
  }

  lemma SplitPass(buf: seq<Byte>, later: seq<Byte>)
    requires MidStream(Drain(buf)) && Sentinel !in Drain(buf + later).items
    ensures Sentinel !in Drain(Drain(buf).rest + later).items
  {
    DrainSplits(buf, later);
    var rest := Drain(Drain(buf).rest + later);
    assert forall x :: x in rest.items ==> x in Drain(buf).items + rest.items;
  }

  lemma PassContinues(st: SinkState, next: SinkState, now: SinkState, first: seq<Item>, rest: Drained)
    requires next.emitted == st.emitted + first && AsAfterPass(next, now, rest)
    ensures AsAfterPass(st, now, Before(first, rest))
  {
    BytesRegrouped(st.emitted, first, rest.items);
    ItemsRegrouped(st.emitted, first, rest.items);
  }

  lemma BytesRegrouped(a: seq<Item>, b: seq<Item>, c: seq<Item>)
    ensures Bytes(a + b) + Bytes(c) == Bytes(a) + Bytes(b + c)
  {
    BytesOfSum(a, b);
    BytesOfSum(b, c);
    Glued(Bytes(a), Bytes(b), Bytes(c));
  }

  lemma ItemsRegrouped(a: seq<Item>, b: seq<Item>, c: seq<Item>)
    ensures a + b + c == a + (b + c)
  {
  }

  /** The frames of some payloads, and other bytes behind them. */
  function Framed(payloads: seq<seq<Byte>>, behind: seq<Byte>): seq<Byte> {
    if payloads == [] then behind else Frame(payloads[0]) + Framed(payloads[1..], behind)
  }

  lemma {:induction false} DrainFramed(payloads: seq<seq<Byte>>, behind: seq<Byte>)
    requires NonEmpty(payloads) && ReadHead(behind).Malformed?
    ensures var d := Drain(Framed(payloads, behind));
      !d.unframe && Sentinel !in d.items && Bytes(d.items) == Concat(payloads) + behind
  {
    if payloads == [] {
      BytesOfOne(behind);
    } else {
      var later := Drain(Framed(payloads[1..], behind));
      DrainFramed(payloads[1..], behind);
      DrainFrame(payloads[0], Framed(payloads[1..], behind));
      BytesCons(payloads[0], later.items);
      Glued(payloads[0], Concat(payloads[1..]), behind);
    }
  }

  /** A malformed size line ends the unframing: for every cut the client gets the payloads before it and then
      that line and every byte after it, unchanged. */
  lemma MalformedComesThrough(payloads: seq<seq<Byte>>, bad: seq<Byte>, pieces: seq<seq<Byte>>)
    requires NonEmpty(payloads) && ReadHead(bad).Malformed? && Concat(pieces) == Framed(payloads, bad)
    ensures var now := Writes(SinkState([], true, []), pieces);
      !now.unframe && Bytes(now.emitted) == Concat(payloads) + bad
  {
    var st := SinkState([], true, []);
    assert st.buf + Concat(pieces) == Framed(payloads, bad);
    DrainFramed(payloads, bad);
    WritesAreOnePass(st, pieces);
    assert Bytes(st.emitted) == [];
  }

  datatype WriteResult = Written(count: nat) | BrokenPipe

  /** The parsing loop: takes complete frames off the front of the buffer. */
  method DrainFrames(buf: seq<Byte>) returns (out: seq<Item>, rest: seq<Byte>, unframe: bool)
    ensures Drained(out, rest, unframe) == Drain(buf)
  {
    out, rest, unframe := [], buf, true;
    while true
      invariant unframe && Drain(buf) == Before(out, Drain(rest))
      decreases |rest|
    {
      var nl := FindCrlf(rest);
      if nl < 0 {
        DrainEnds(out, rest);
        return;
      }
      var token := rest[..nl];
      if token == [] {
        DrainBlank(rest);
        rest := rest[2..];
        continue;
      }
      var parsed := ParseHex(BeforeSemicolon(token));
      if parsed == None {
        DrainEnds(out, rest);
        out := out + [Payload(rest)];
        rest, unframe := [], false;
        return;
      }
      var size := parsed.value;
      if size == 0 {
        DrainEnds(out, rest);
        rest := [];
        out := out + [Sentinel];
        return;
      }
      var end := nl + 2 + size + 2;
      if |rest| < end {
        DrainEnds(out, rest);
        return;
      }
      var payload := rest[nl + 2..nl + 2 + size];
      assert ReadHead(rest) == Whole(payload, end);
      DrainTakes(out, rest, payload, end);
      out := out + [Payload(payload)];
      rest := rest[end..];
    }
  }

  class WfileSink {
    var buf: seq<Byte>
    var unframe: bool
    var gone: bool
    var emitted: seq<Item>

    constructor ()
      ensures State() == SinkState([], false, []) && !gone
    {
      buf, unframe, gone, emitted := [], false, false, [];
    }

    function State(): SinkState
      reads this
    {
      SinkState(buf, unframe, emitted)
    }

    method SetUnframe()
      modifies this
      ensures State() == old(State()).(unframe := true) && gone == old(gone)
    {
      unframe := true;
    }

    method MarkClientGone()
      modifies this
      ensures State() == old(State()) && gone
    {
      gone := true;
    }

    method Enqueue(items: seq<Item>)
      modifies this`emitted
      ensures emitted == old(emitted) + items
    {
      for i := 0 to |items|
        invariant emitted + items[i..] == old(emitted) + items
      {
        assert items[i..] == [items[i]] + items[i + 1..];
        emitted := emitted + [items[i]];
      }
    }

    method Write(data: seq<Byte>) returns (r: WriteResult)
      modifies this
      ensures gone == old(gone)
      ensures gone ==> r == BrokenPipe && State() == old(State())
      ensures !gone ==> r == Written(|data|) && State() == WriteStep(old(State()), data)
    {
      if gone { return BrokenPipe; }
      if data == [] { return Written(0); }
      var items;
      if !unframe {
        items := [Payload(data)];
      } else {
        items, buf, unframe := DrainFrames(buf + data);
      }
      Enqueue(items);
      r := Written(|data|);
    }
  }
}

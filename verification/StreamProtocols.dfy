// The streams of the two protocols that the observer reads: what their events mean, and that the observer
// finds the first generated text and the counts of the request in either of them.

module StreamProtocols {
  import opened Wrappers
  import opened Octets
  import opened JsonValues
  import opened TokenUsage
  import opened SseBuffers

  /** A choice of a chunk in the OpenAI form; parts that are not sent are None. */
  datatype Delta = Delta(role: Option<string>, content: Option<string>, reasoning: Option<string>)

  datatype Said =
    | Silent                                    // a comment, an event name, the end mark
    | Chunk(deltas: seq<Delta>)                 // OpenAI
    | Counted(uncached: nat, read: nat, created: nat, output: nat)
    | MessageStart(uncached: nat, read: nat, created: nat, output: nat)
    | TextDelta(text: string)                   // Anthropic
    | ThinkingDelta(text: string)
    | ContentDelta(text: string)
    | MessageDelta(reason: string, output: nat)

  function Part(key: string, text: Option<string>): map<string, Json> {
    if text.Some? then map[key := Str(text.value)] else map[]
  }

  function DeltaFields(d: Delta): map<string, Json> {
    Part("role", d.role) + Part("content", d.content) + Part("reasoning_content", d.reasoning)
  }

  function Choice(d: Delta): Json {
    Obj(map["index" := Num(0.0), "delta" := Obj(DeltaFields(d))])
  }

  /** The object that is sent. */
  function Fields(s: Said): map<string, Json> {
    match s
    case Silent => map[]
    case Chunk(deltas) => map["choices" := Arr(seq(|deltas|, i requires 0 <= i < |deltas| => Choice(deltas[i])))]
    case Counted(u, r, c, o) => map["choices" := Arr([]), "usage" := Obj(OpenAiReport(u, r, c, o))]
    case MessageStart(u, r, c, o) =>
      map["type" := Str("message_start"),
          "message" := Obj(map["role" := Str("assistant"), "usage" := Obj(AnthropicReport(u, r, c, o))])]
    case TextDelta(text) =>
      map["type" := Str("content_block_delta"), "delta" := Obj(map["type" := Str("text_delta"), "text" := Str(text)])]
    case ThinkingDelta(text) =>
      map["type" := Str("content_block_delta"),
          "delta" := Obj(map["type" := Str("thinking_delta"), "thinking" := Str(text)])]
    case ContentDelta(text) => map["delta" := Obj(map["content" := Str(text)])]
    case MessageDelta(reason, o) =>
      map["type" := Str("message_delta"), "delta" := Obj(map["stop_reason" := Str(reason)]),
          "usage" := Obj(map["output_tokens" := Num(o as real)])]
  }

  predicate NonEmptyText(text: Option<string>) {
    text.Some? && text.value != ""
  }

  /** The event carries generated text; roles, counts and the frame of a message do not. */
  predicate Generates(s: Said) {
    match s
    case Chunk(deltas) =>
      exists i :: 0 <= i < |deltas| && (NonEmptyText(deltas[i].content) || NonEmptyText(deltas[i].reasoning))
    case TextDelta(text) => text != ""
    case ThinkingDelta(text) => text != ""
    case ContentDelta(text) => text != ""
    case _ => false
  }

  /** The counts it reports: whole prompt, cached part, output. */
  function ReportOf(s: Said): Usage {
    match s
    case Counted(u, r, c, o) => Usage(u + r + c, r, o)
    case MessageStart(u, r, c, o) => Usage(u + r + c, r, o)
    case MessageDelta(_, o) => Usage(0, 0, o)
    case _ => NO_USAGE
  }

  // ---------------------------------------------------------------- one event

  lemma ContentOfDelta(d: Delta)
    ensures IsContentChoice(Choice(d)) <==> NonEmptyText(d.content) || NonEmptyText(d.reasoning)
  {
    var fields := DeltaFields(d);
    assert Choice(d).fields["delta"] == Obj(fields);
    assert "content" in fields <==> d.content.Some?;
    assert "reasoning_content" in fields <==> d.reasoning.Some?;
  }

  /** The observer's test for a content token finds exactly the generated text. */
  lemma ContentIff(s: Said)
    ensures HasContentToken(Fields(s)) <==> Generates(s)
  {
    match s
    case Chunk(deltas) =>
      var items := Fields(s)["choices"].items;
      forall i | 0 <= i < |deltas|
        ensures IsContentChoice(items[i]) <==> NonEmptyText(deltas[i].content) || NonEmptyText(deltas[i].reasoning)
      {
        ContentOfDelta(deltas[i]);
      }
      if i :| 0 <= i < |deltas| && (NonEmptyText(deltas[i].content) || NonEmptyText(deltas[i].reasoning)) {
        assert items[i] in items;
      }
    case _ =>
  }

  /** The normalised counts of an event, if it has any. */
  function ReadReport(event: map<string, Json>): Usage {
    var found := UsageOf(event);
    if found.Some? then NormalizeUsage(found.value) else NO_USAGE
  }

  lemma UsageAtTop(event: map<string, Json>, usage: map<string, Json>)
    requires "usage" in event && event["usage"] == Obj(usage) && usage != map[]
    ensures ReadReport(event) == NormalizeUsage(usage)
  {
  }

  lemma UsageInMessage(event: map<string, Json>, message: map<string, Json>, usage: map<string, Json>)
    requires "usage" !in event && "message" in event && event["message"] == Obj(message)
    requires "usage" in message && message["usage"] == Obj(usage) && usage != map[]
    ensures ReadReport(event) == NormalizeUsage(usage)
  {
  }

  lemma OutputOnly(o: nat)
    ensures NormalizeUsage(map["output_tokens" := Num(o as real)]) == Usage(0, 0, o)
  {
    WholeNumbers(o);
    WholeNumbers(0);
    var usage := map["output_tokens" := Num(o as real)];
    assert Count(usage, "output_tokens") == o as real;
  }

  /** ... and it reads exactly the reported counts. */
  lemma ReportIs(s: Said)
    ensures ReadReport(Fields(s)) == ReportOf(s)
  {
    match s
    case Counted(u, r, c, o) =>
      ProtocolsAgree(u, r, c, o);
      assert "prompt_tokens" in OpenAiReport(u, r, c, o);
      UsageAtTop(Fields(s), OpenAiReport(u, r, c, o));
    case MessageStart(u, r, c, o) =>
      ProtocolsAgree(u, r, c, o);
      assert "input_tokens" in AnthropicReport(u, r, c, o);
      UsageInMessage(Fields(s), Fields(s)["message"].fields, AnthropicReport(u, r, c, o));
    case MessageDelta(_, o) =>
      OutputOnly(o);
      var usage := map["output_tokens" := Num(o as real)];
      assert "output_tokens" in usage;
      UsageAtTop(Fields(s), usage);
    case _ =>
      assert "usage" !in Fields(s) && "message" !in Fields(s);
  }

  // ---------------------------------------------------------------- whole streams

  /** These texts are the lines of a stream that says this. */
  ghost predicate Tells(decode: Decoder, texts: seq<seq<Byte>>, said: seq<Said>) {
    |texts| == |said|
    && forall i :: 0 <= i < |said| ==>
         EventOf(decode, texts[i]) == if said[i].Silent? then NotJson else Event(Fields(said[i]))
  }

  /** The first event with generated text, or the number of events. */
  function FirstGenerated(said: seq<Said>): (n: nat)
    ensures n <= |said| && (n < |said| ==> Generates(said[n]))
    ensures forall i :: 0 <= i < n ==> !Generates(said[i])
  {
    if said == [] then 0
    else
      var n := FirstGenerated(said[..|said| - 1]);
      if n < |said| - 1 || Generates(said[|said| - 1]) then n else |said|
  }

  /** The counts after all reports. */
  function Measured(said: seq<Said>): Usage {
    if said == [] then NO_USAGE else MergeUsage(Measured(said[..|said| - 1]), ReportOf(said[|said| - 1]))
  }

  lemma OneEventIsRead(decode: Decoder, seen: Seen, text: seq<Byte>, s: Said)
    requires !seen.raised && EventOf(decode, text) == if s.Silent? then NotJson else Event(Fields(s))
    ensures
      var first := !seen.firstToken && Generates(s);
      OnText(decode, seen, text) == Seen(MergeUsage(seen.usage, ReportOf(s)), seen.firstToken || first,
                                         if first then seen.fired + [text] else seen.fired, false)
  {
    ContentIff(s);
    ReportIs(s);
    assert MergeUsage(seen.usage, NO_USAGE) == seen.usage;
  }

  lemma OneMoreSaid(said: seq<Said>)
    requires said != []
    ensures var init, last := said[..|said| - 1], |said| - 1;
      && FirstGenerated(said) == (if FirstGenerated(init) < last || Generates(said[last]) then FirstGenerated(init)
                                  else |said|)
      && Measured(said) == MergeUsage(Measured(init), ReportOf(said[last]))
  {
  }

  /** The callback runs once, on the first event with generated text, and not without one; the counts are
      those of the reports. */
  lemma {:induction false} StreamIsRead(decode: Decoder, texts: seq<seq<Byte>>, said: seq<Said>)
    requires Tells(decode, texts, said)
    ensures
      var seen, n := Observe(decode, texts), FirstGenerated(said);
      && !seen.raised && (seen.firstToken <==> n < |said|)
      && seen.fired == (if n < |said| then [texts[n]] else [])
      && seen.usage == Measured(said)
  {
    if said != [] {
      var last := |said| - 1;
      StreamIsRead(decode, texts[..last], said[..last]);
      OneEventIsRead(decode, Observe(decode, texts[..last]), texts[last], said[last]);
      OneMoreSaid(said);
    }
  }

  lemma StreamDoesNotRaise(decode: Decoder, texts: seq<seq<Byte>>, said: seq<Said>)
    requires Tells(decode, texts, said)
    ensures !Raises(decode, texts)
  {
  }

  /** So it is however the stream is cut into chunks, the flush at the end included. */
  lemma CutStreamIsRead(decode: Decoder, chunks: seq<seq<Byte>>, said: seq<Said>)
    requires Tells(decode, Texts(Lines(Concat(chunks))), said)
    ensures
      var texts, n := Texts(Lines(Concat(chunks))), FirstGenerated(said);
      Recorded(decode, chunks) == Seen(Measured(said), n < |said|, if n < |said| then [texts[n]] else [], false)
  {
    var texts := Texts(Lines(Concat(chunks)));
    StreamDoesNotRaise(decode, texts, said);
    RecordedWhole(decode, chunks);
    StreamIsRead(decode, texts, said);
  }

  // ---------------------------------------------------------------- the two protocols

  ghost predicate ReportsNothing(said: seq<Said>) {
    forall i :: 0 <= i < |said| ==> ReportOf(said[i]) == NO_USAGE
  }

  lemma {:induction false} NothingMeasured(before: seq<Said>, said: seq<Said>)
    requires ReportsNothing(said)
    ensures Measured(before + said) == Measured(before)
    decreases |said|
  {
    if said == [] {
      assert before + said == before;
    } else {
      var last := |said| - 1;
      assert (before + said)[..|before + said| - 1] == before + said[..last];
      NothingMeasured(before, said[..last]);
    }
  }

  lemma MeasuredSnoc(said: seq<Said>, s: Said)
    ensures Measured(said + [s]) == MergeUsage(Measured(said), ReportOf(s))
  {
    assert (said + [s])[..|said|] == said;
  }

  /** A stream of either protocol about one request is measured alike: the whole prompt, its cached part and
      the final output. */
  lemma BothAreMeasured(uncached: nat, read: nat, created: nat, first: nat, output: nat, reason: string,
                        openAi: seq<Said>, anthropic: seq<Said>)
    requires ReportsNothing(openAi) && ReportsNothing(anthropic) && first <= output
    ensures Measured(openAi + [Counted(uncached, read, created, output)] + [Silent])
         == Usage(uncached + read + created, read, output)
    ensures Measured([MessageStart(uncached, read, created, first)] + anthropic + [MessageDelta(reason, output)])
         == Usage(uncached + read + created, read, output)
  {
    var start := [MessageStart(uncached, read, created, first)];
    NothingMeasured([], openAi);
    assert [] + openAi == openAi;
    MeasuredSnoc(openAi, Counted(uncached, read, created, output));
    MeasuredSnoc(openAi + [Counted(uncached, read, created, output)], Silent);
    assert start[..0] == [];
    NothingMeasured(start, anthropic);
    MeasuredSnoc(start + anthropic, MessageDelta(reason, output));
  }

  // ---------------------------------------------------------------- single lines

  /** A data line that is decoded, and lines that say nothing: the end mark, comments and other fields. */
  lemma LinesSay(decode: Decoder, payload: seq<Byte>, text: seq<Byte>)
    ensures PlainEvent([32], payload) ==> EventOf(decode, DataLine([32], payload)) == decode(payload)
    ensures EventOf(decode, DataLine([32], DONE)) == NotJson
    ensures text != [] && text[0] == 58 ==> EventOf(decode, text) == NotJson
    ensures !(DATA <= text) ==> EventOf(decode, text) == NotJson
  {
    if PlainEvent([32], payload) { DataLineIsEvent(decode, [32], payload); }
    var line := DataLine([32], DONE);
    assert line[..5] == DATA && line[5..] == [32] + DONE;
    assert TextStart([32] + DONE, 0) == 1;
    assert ([32] + DONE)[1..] == DONE;
    PlainStrips(DONE);
  }
}

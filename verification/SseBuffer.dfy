// The observer of a server-sent event stream (section 9.2 of the WHATWG HTML standard):
// line buffering, CRLF normalisation, token counts and first-token detection.

module TokenUsage {
  import opened Wrappers
  import opened JsonValues

  datatype Usage = Usage(prompt: int, cached: int, completion: int)

  const NO_USAGE := Usage(0, 0, 0)

  function Truncate(x: real): int {
    if x >= 0.0 then x.Floor else -((-x).Floor)
  }

  /** A numeric field; missing, null and zero are the same to every reader here. */
  function Count(obj: map<string, Json>, key: string): real {
    if key in obj && obj[key].Num? then obj[key].value else 0.0
  }

  function FirstCount(obj: map<string, Json>, key: string, other: string): real {
    if Count(obj, key) != 0.0 then Count(obj, key) else Count(obj, other)
  }

  /** Both protocols mapped to: whole prompt, its cached part, completion. */
  function NormalizeUsage(usage: map<string, Json>): Usage {
    var prompt := FirstCount(usage, "prompt_tokens", "input_tokens");
    var completion := FirstCount(usage, "completion_tokens", "output_tokens");
    if "prompt_tokens" in usage then
      var cached :=
        if "prompt_tokens_details" in usage && usage["prompt_tokens_details"].Obj?
        then Count(usage["prompt_tokens_details"].fields, "cached_tokens") else 0.0;
      Usage(Truncate(prompt), Truncate(cached), Truncate(completion))
    else
      var cached := Count(usage, "cache_read_input_tokens");
      var whole := prompt + cached + Count(usage, "cache_creation_input_tokens");
      Usage(Truncate(whole), Truncate(cached), Truncate(completion))
  }

  /** The report of a request in the OpenAI form, where the prompt already includes its cached part. */
  function OpenAiReport(uncached: nat, read: nat, created: nat, output: nat): map<string, Json> {
    map["prompt_tokens" := Num((uncached + read + created) as real), "completion_tokens" := Num(output as real),
        "prompt_tokens_details" := Obj(map["cached_tokens" := Num(read as real)])]
  }

  /** The same in the Anthropic form, where the input counts neither what was read from the cache nor what
      was written to it. */
  function AnthropicReport(uncached: nat, read: nat, created: nat, output: nat): map<string, Json> {
    map["input_tokens" := Num(uncached as real), "output_tokens" := Num(output as real),
        "cache_read_input_tokens" := Num(read as real), "cache_creation_input_tokens" := Num(created as real)]
  }

  /** Both protocols' reports of one request are normalised to the same counts: the whole prompt, the part
      of it read from the cache, the output. */
  lemma ProtocolsAgree(uncached: nat, read: nat, created: nat, output: nat)
    ensures NormalizeUsage(OpenAiReport(uncached, read, created, output))
         == Usage(uncached + read + created, read, output)
    ensures NormalizeUsage(AnthropicReport(uncached, read, created, output))
         == Usage(uncached + read + created, read, output)
  {
    WholeNumbers(uncached + read + created);
    WholeNumbers(read);
    WholeNumbers(output);
    var openAi := OpenAiReport(uncached, read, created, output);
    var anthropic := AnthropicReport(uncached, read, created, output);
    assert Count(openAi, "prompt_tokens") == (uncached + read + created) as real;
    assert Count(openAi, "completion_tokens") == output as real;
    assert "prompt_tokens" !in anthropic && "completion_tokens" !in anthropic;
    assert Count(anthropic, "input_tokens") == uncached as real && Count(anthropic, "output_tokens") == output as real;
  }

  lemma WholeNumbers(n: nat)
    ensures Truncate(n as real) == n
  {
  }

  function Max(a: int, b: int): int {
    if a >= b then a else b
  }

  /** Field-wise maximum; the cached part only counts with a prompt. */
  function MergeUsage(u: Usage, n: Usage): Usage {
    Usage(if n.prompt != 0 then Max(u.prompt, n.prompt) else u.prompt,
          if n.prompt != 0 then Max(u.cached, n.cached) else u.cached,
          if n.completion != 0 then Max(u.completion, n.completion) else u.completion)
  }

  ghost predicate AtMost(u: Usage, v: Usage) {
    u.prompt <= v.prompt && u.cached <= v.cached && u.completion <= v.completion
  }

  function IsTruthy(v: Json): bool {
    match v
    case Null => false
    case Bool(flag) => flag
    case Num(value) => value != 0.0
    case Str(text) => text != ""
    case Arr(items) => items != []
    case Obj(fields) => fields != map[]
  }

  /** The usage object of an event, or the one nested under its message. */
  function UsageOf(event: map<string, Json>): Option<map<string, Json>> {
    var found :=
      if "usage" in event && IsTruthy(event["usage"]) then event["usage"]
      else if "message" in event && event["message"].Obj? && "usage" in event["message"].fields
      then event["message"].fields["usage"]
      else Null;
    if found.Obj? && IsTruthy(found) then Some(found.fields) else None
  }

  predicate HasText(obj: map<string, Json>, key: string) {
    key in obj && obj[key].Str? && obj[key].text != ""
  }

  predicate IsContentChoice(choice: Json) {
    && choice.Obj? && "delta" in choice.fields && choice.fields["delta"].Obj?
    && (|| HasText(choice.fields["delta"].fields, "content")
        || HasText(choice.fields["delta"].fields, "reasoning_content"))
  }

  predicate HasContentToken(event: map<string, Json>) {
    || ("choices" in event && event["choices"].Arr? && exists c :: c in event["choices"].items && IsContentChoice(c))
    || ("delta" in event && event["delta"].Obj?
        && (var delta := event["delta"].fields;
            HasText(delta, "text") || HasText(delta, "thinking") || HasText(delta, "content")))
  }
}

module SseBuffers {
  import opened Wrappers
  import opened Octets
  import opened JsonValues
  import opened TokenUsage

  /** What decoding a data line gives; a value that is no object makes the observer raise. */
  datatype Decoded = NotJson | NotAnObject | Event(fields: map<string, Json>)

  type Decoder = seq<Byte> -> Decoded

  // ---------------------------------------------------------------- lines

  predicate IsSpace(b: Byte) {
    9 <= b <= 13 || b == 32
  }

  function TextStart(s: seq<Byte>, i: nat): (k: nat)
    requires i <= |s|
    ensures i <= k <= |s|
    decreases |s| - i
  {
    if i < |s| && IsSpace(s[i]) then TextStart(s, i + 1) else i
  }

  function TextEnd(s: seq<Byte>, n: nat): (k: nat)
    requires n <= |s|
    ensures k <= n
  {
    if n > 0 && IsSpace(s[n - 1]) then TextEnd(s, n - 1) else n
  }

  function StripLeft(s: seq<Byte>): seq<Byte> {
    s[TextStart(s, 0)..]
  }

  /** Without the white space at either end. */
  function Strip(s: seq<Byte>): seq<Byte> {
    StripLeft(s[..TextEnd(s, |s|)])
  }

  lemma {:induction false} TextEndOnly(s: seq<Byte>, t: seq<Byte>, n: nat)
    requires n <= |s| && s <= t
    ensures TextEnd(s, n) == TextEnd(t, n)
  {
    if n > 0 { TextEndOnly(s, t, n - 1); }
  }

  lemma StripIgnoresTrailingSpace(s: seq<Byte>, b: Byte)
    requires IsSpace(b)
    ensures Strip(s + [b]) == Strip(s)
  {
    TextEndOnly(s, s + [b], |s|);
    assert (s + [b])[..TextEnd(s, |s|)] == s[..TextEnd(s, |s|)];
  }

  lemma {:induction false} StripBlank(s: seq<Byte>)
    requires forall i :: 0 <= i < |s| ==> IsSpace(s[i])
    ensures Strip(s) == []
  {
    if s != [] {
      var init := s[..|s| - 1];
      assert s == init + [s[|s| - 1]];
      StripIgnoresTrailingSpace(init, s[|s| - 1]);
      StripBlank(init);
    }
  }

  lemma {:induction false} StripsToNothing(s: seq<Byte>, n: nat)
    requires n <= |s|
    ensures forall i :: TextEnd(s, n) <= i < n ==> IsSpace(s[i])
    ensures TextEnd(s, n) > 0 ==> !IsSpace(s[TextEnd(s, n) - 1])
  {
    if n > 0 && IsSpace(s[n - 1]) { StripsToNothing(s, n - 1); }
  }

  lemma {:induction false} StartReaches(s: seq<Byte>, i: nat, k: nat)
    requires i <= k < |s| && !IsSpace(s[k])
    ensures TextStart(s, i) <= k
    decreases k - i
  {
    if i < k && IsSpace(s[i]) { StartReaches(s, i + 1, k); }
  }

  /** A text that strips to nothing is white space throughout. */
  lemma BlankIsAllSpace(s: seq<Byte>)
    requires Strip(s) == []
    ensures forall i :: 0 <= i < |s| ==> IsSpace(s[i])
  {
    var end := TextEnd(s, |s|);
    StripsToNothing(s, |s|);
    if end > 0 {
      StartReaches(s[..end], 0, end - 1);
    }
  }

  /** The text split at every LF. */
  function Lines(s: seq<Byte>): (lines: seq<seq<Byte>>)
    ensures lines != []
  {
    if s == [] then [[]]
    else
      var before, b := Lines(s[..|s| - 1]), s[|s| - 1];
      if b == LF then before + [[]]
      else before[..|before| - 1] + [before[|before| - 1] + [b]]
  }

  function Join(lines: seq<seq<Byte>>): seq<Byte>
    requires lines != []
  {
    if |lines| == 1 then lines[0]
    else Join(lines[..|lines| - 1]) + [LF] + lines[|lines| - 1]
  }

  lemma JoinNewLine(lines: seq<seq<Byte>>)
    requires lines != []
    ensures Join(lines + [[]]) == Join(lines) + [LF]
  {
    assert (lines + [[]])[..|lines|] == lines;
  }

  lemma JoinLonger(init: seq<seq<Byte>>, last: seq<Byte>, b: Byte)
    ensures Join(init + [last + [b]]) == Join(init + [last]) + [b]
  {
    JoinLast(init, last);
    JoinLast(init, last + [b]);
    if init != [] { Regrouped(Join(init) + [LF], last, [b]); }
  }

  lemma JoinLast(init: seq<seq<Byte>>, last: seq<Byte>)
    ensures Join(init + [last]) == if init == [] then last else Join(init) + [LF] + last
  {
    assert (init + [last])[..|init|] == init;
  }

  lemma Regrouped(a: seq<Byte>, b: seq<Byte>, c: seq<Byte>)
    ensures a + (b + c) == a + b + c
  {
  }

  /** Splitting loses nothing: the lines hold no LF, and joined again they are the text. */
  lemma {:induction false} LinesAndJoin(s: seq<Byte>)
    ensures Join(Lines(s)) == s && NoBreaks(Lines(s))
  {
    if s != [] {
      var init, b := s[..|s| - 1], s[|s| - 1];
      LinesAndJoin(init);
      assert s == init + [b];
      OneMoreByte(init, b);
    }
  }

  lemma LinesSnoc(init: seq<Byte>, b: Byte)
    ensures var lines := Lines(init);
      Lines(init + [b])
      == if b == LF then lines + [[]] else lines[..|lines| - 1] + [lines[|lines| - 1] + [b]]
  {
    assert (init + [b])[..|init|] == init;
  }

  lemma JoinOneMore(lines: seq<seq<Byte>>, b: Byte)
    requires lines != []
    ensures Join(lines[..|lines| - 1] + [lines[|lines| - 1] + [b]]) == Join(lines) + [b]
  {
    var front, last := lines[..|lines| - 1], lines[|lines| - 1];
    FrontAndLast(lines);
    JoinLonger(front, last, b);
  }

  lemma FrontAndLast(lines: seq<seq<Byte>>)
    requires lines != []
    ensures lines[..|lines| - 1] + [lines[|lines| - 1]] == lines
  {
  }

  ghost predicate NoBreaks(lines: seq<seq<Byte>>) {
    forall i :: 0 <= i < |lines| ==> LF !in lines[i]
  }

  lemma NoBreaksLonger(lines: seq<seq<Byte>>, b: Byte)
    requires lines != [] && NoBreaks(lines)
    ensures NoBreaks(lines + [[]])
    ensures b != LF ==> NoBreaks(lines[..|lines| - 1] + [lines[|lines| - 1] + [b]])
  {
  }

  lemma OneMoreByte(init: seq<Byte>, b: Byte)
    requires Join(Lines(init)) == init && NoBreaks(Lines(init))
    ensures Join(Lines(init + [b])) == init + [b] && NoBreaks(Lines(init + [b]))
  {
    LinesSnoc(init, b);
    NoBreaksLonger(Lines(init), b);
    if b == LF { JoinNewLine(Lines(init)); } else { JoinOneMore(Lines(init), b); }
  }

  // ---------------------------------------------------------------- the observation

  /** What the observer has learned; `fired` lists the lines on which the first-token callback ran, and
      `raised` says that an exception has ended the observation. */
  datatype Seen = Seen(usage: Usage, firstToken: bool, fired: seq<seq<Byte>>, raised: bool)

  const NOTHING := Seen(NO_USAGE, false, [], false)

  const DATA: seq<Byte> := [100, 97, 116, 97, 58]
  const DONE: seq<Byte> := [91, 68, 79, 78, 69, 93]

  /** The event carried by a stripped line, if any. */
  function EventOf(decode: Decoder, text: seq<Byte>): Decoded {
    if text == [] || text[0] == 58 then NotJson
    else if !(DATA <= text) then NotJson
    else
      var data := StripLeft(text[5..]);
      if Strip(data) == DONE then NotJson else decode(data)
  }

  function OnText(decode: Decoder, seen: Seen, text: seq<Byte>): Seen {
    if seen.raised then seen
    else
      match EventOf(decode, text)
      case NotJson => seen
      case NotAnObject => seen.(raised := true)
      case Event(event) =>
        var usage :=
          match UsageOf(event)
          case None => seen.usage
          case Some(found) => MergeUsage(seen.usage, NormalizeUsage(found));
        if !seen.firstToken && HasContentToken(event)
        then Seen(usage, true, seen.fired + [text], false)
        else Seen(usage, seen.firstToken, seen.fired, false)
  }

  function OnLine(decode: Decoder, seen: Seen, line: seq<Byte>): Seen {
    OnText(decode, seen, Strip(line))
  }

  function OnLines(decode: Decoder, seen: Seen, lines: seq<seq<Byte>>): Seen {
    if lines == [] then seen
    else OnLine(decode, OnLines(decode, seen, lines[..|lines| - 1]), lines[|lines| - 1])
  }

  /** The lines of a stream that matter: stripped, and without the blank ones. */
  function Texts(lines: seq<seq<Byte>>): seq<seq<Byte>> {
    if lines == [] then []
    else
      var text := Strip(lines[|lines| - 1]);
      Texts(lines[..|lines| - 1]) + if text == [] then [] else [text]
  }

  /** The reference: one fold over those lines. */
  function Observe(decode: Decoder, texts: seq<seq<Byte>>): Seen {
    if texts == [] then NOTHING
    else OnText(decode, Observe(decode, texts[..|texts| - 1]), texts[|texts| - 1])
  }

  lemma {:induction false} LinesAreTexts(decode: Decoder, lines: seq<seq<Byte>>)
    ensures OnLines(decode, NOTHING, lines) == Observe(decode, Texts(lines))
  {
    if lines != [] {
      var init := lines[..|lines| - 1];
      LinesAreTexts(decode, init);
      var text := Strip(lines[|lines| - 1]);
      if text == [] {
        assert Texts(lines) == Texts(init);
      } else {
        assert Texts(lines)[..|Texts(lines)| - 1] == Texts(init);
      }
    }
  }

  // ---------------------------------------------------------------- byte by byte

  /** What was learned from the complete lines, and the line that is still open. */
  datatype Scan = Scan(seen: Seen, line: seq<Byte>)

  function Step(decode: Decoder, st: Scan, b: Byte): Scan {
    if st.seen.raised then st
    else if b == LF then Scan(OnLine(decode, st.seen, st.line), [])
    else Scan(st.seen, st.line + [b])
  }

  function Run(decode: Decoder, st: Scan, bytes: seq<Byte>): Scan {
    if bytes == [] then st else Step(decode, Run(decode, st, bytes[..|bytes| - 1]), bytes[|bytes| - 1])
  }

  function Close(decode: Decoder, st: Scan): Seen {
    OnLine(decode, st.seen, st.line)
  }

  lemma {:induction false} RunJoins(decode: Decoder, st: Scan, a: seq<Byte>, b: seq<Byte>)
    ensures Run(decode, st, a + b) == Run(decode, Run(decode, st, a), b)
  {
    if b == [] {
      assert a + b == a;
    } else {
      assert (a + b)[..|a + b| - 1] == a + b[..|b| - 1];
      RunJoins(decode, st, a, b[..|b| - 1]);
    }
  }

  lemma RunOne(decode: Decoder, st: Scan, b: Byte)
    ensures Run(decode, st, [b]) == Step(decode, st, b)
  {
    assert [b][..0] == [];
    assert Run(decode, st, [b][..0]) == st;
  }

  /** Splitting into lines and running byte by byte learn the same. */
  lemma {:induction false} RunIsLines(decode: Decoder, seen: Seen, s: seq<Byte>)
    ensures var lines := Lines(s); var last := |lines| - 1; var learned := OnLines(decode, seen, lines[..last]);
            Run(decode, Scan(seen, []), s) == Scan(learned, if learned.raised then [] else lines[last])
  {
    if s != [] {
      var init, b := s[..|s| - 1], s[|s| - 1];
      RunIsLines(decode, seen, init);
      var before, lines := Lines(init), Lines(s);
      if b == LF {
        assert lines[..|lines| - 1] == before;
      } else {
        assert lines[..|lines| - 1] == before[..|before| - 1];
      }
    }
  }

  lemma {:induction false} RaisedStays(decode: Decoder, st: Scan, s: seq<Byte>)
    requires st.seen.raised
    ensures Run(decode, st, s) == st
  {
    if s != [] { RaisedStays(decode, st, s[..|s| - 1]); }
  }

  lemma CloseIsLines(decode: Decoder, seen: Seen, s: seq<Byte>)
    ensures Close(decode, Run(decode, Scan(seen, []), s)) == OnLines(decode, seen, Lines(s))
  {
    RunIsLines(decode, seen, s);
  }

  // ---------------------------------------------------------------- CRLF and event boundaries

  /** Every CRLF in the chunk replaced by LF. */
  function Normalize(s: seq<Byte>): seq<Byte> {
    if s == [] then []
    else
      var n := |s| - 1;
      if n > 0 && s[n - 1] == CR && s[n] == LF then Normalize(s[..n - 1]) + [LF]
      else Normalize(s[..n]) + [s[n]]
  }

  lemma RunSnoc(decode: Decoder, st: Scan, s: seq<Byte>, b: Byte)
    ensures Run(decode, st, s + [b]) == Step(decode, Run(decode, st, s), b)
  {
    assert (s + [b])[..|s|] == s;
  }

  /** A CR before an LF only trails its line, and stripping removes it. */
  lemma CarriageReturnIsInvisible(decode: Decoder, st: Scan)
    ensures Step(decode, Step(decode, st, CR), LF) == Step(decode, st, LF)
  {
    StripIgnoresTrailingSpace(st.line, CR);
  }

  lemma SameAfterByte(decode: Decoder, st: Scan, a: seq<Byte>, b: seq<Byte>, x: Byte)
    requires Run(decode, st, a) == Run(decode, st, b)
    ensures Run(decode, st, a + [x]) == Run(decode, st, b + [x])
  {
    RunSnoc(decode, st, a, x);
    RunSnoc(decode, st, b, x);
  }

  lemma SameAfterLineEnd(decode: Decoder, st: Scan, a: seq<Byte>, b: seq<Byte>)
    requires Run(decode, st, a) == Run(decode, st, b)
    ensures Run(decode, st, a + [LF]) == Run(decode, st, b + [CR] + [LF])
  {
    RunSnoc(decode, st, a, LF);
    RunSnoc(decode, st, b, CR);
    RunSnoc(decode, st, b + [CR], LF);
    CarriageReturnIsInvisible(decode, Run(decode, st, b));
  }

  lemma InitAndLast(s: seq<Byte>)
    requires s != []
    ensures s == s[..|s| - 1] + [s[|s| - 1]]
  {
  }

  lemma EndsInLineEnd(s: seq<Byte>)
    requires |s| >= 2 && s[|s| - 2] == CR && s[|s| - 1] == LF
    ensures s == s[..|s| - 2] + [CR] + [LF]
  {
  }

  lemma {:induction false} NormalizingIsInvisible(decode: Decoder, st: Scan, s: seq<Byte>)
    ensures Run(decode, st, Normalize(s)) == Run(decode, st, s)
  {
    if s != [] {
      var n := |s| - 1;
      if n > 0 && s[n - 1] == CR && s[n] == LF {
        var init := s[..n - 1];
        NormalizingIsInvisible(decode, st, init);
        EndsInLineEnd(s);
        SameAfterLineEnd(decode, st, Normalize(init), init);
      } else {
        NormalizingIsInvisible(decode, st, s[..n]);
        InitAndLast(s);
        SameAfterByte(decode, st, Normalize(s[..n]), s[..n], s[n]);
      }
    }
  }

  /** The blank line that ends an event adds nothing to what its lines say. */
  lemma EventEnds(decode: Decoder, seen: Seen, event: seq<Byte>, rest: seq<Byte>)
    ensures Run(decode, Scan(seen, []), event + [LF, LF] + rest)
         == Run(decode, Scan(OnLines(decode, seen, Lines(event)), []), rest)
  {
    var start := Scan(seen, []);
    RunJoins(decode, start, event + [LF, LF], rest);
    RunJoins(decode, start, event, [LF, LF]);
    RunJoins(decode, Run(decode, start, event), [LF], [LF]);
    assert [LF] + [LF] == [LF, LF];
    RunOne(decode, Run(decode, start, event), LF);
    CloseIsLines(decode, seen, event);
    RunIsLines(decode, seen, event);
    var ended := Scan(OnLines(decode, seen, Lines(event)), []);
    RunOne(decode, ended, LF);
    assert Strip([]) == [];
  }

  lemma {:induction false} BlankRunsToNothing(decode: Decoder, seen: Seen, s: seq<Byte>)
    requires forall i :: 0 <= i < |s| ==> IsSpace(s[i])
    ensures var st := Run(decode, Scan(seen, []), s);
            st.seen == seen && forall i :: 0 <= i < |st.line| ==> IsSpace(st.line[i])
  {
    if s != [] {
      BlankRunsToNothing(decode, seen, s[..|s| - 1]);
      StripBlank(Run(decode, Scan(seen, []), s[..|s| - 1]).line);
    }
  }

  // ---------------------------------------------------------------- the buffer

  function BlankLineFrom(buf: seq<Byte>, i: nat): (k: int)
    ensures k == -1 || (i <= k && k + 2 <= |buf| && buf[k] == LF && buf[k + 1] == LF)
    decreases |buf| - i
  {
    if i + 2 > |buf| then -1
    else if buf[i] == LF && buf[i + 1] == LF then i
    else BlankLineFrom(buf, i + 1)
  }

  datatype Observer = Observer(seen: Seen, pending: seq<Byte>)

  /** Takes the complete events off the buffer, up to the first that raises. */
  function Parse(decode: Decoder, seen: Seen, buf: seq<Byte>): Observer
    decreases |buf|
  {
    var k := BlankLineFrom(buf, 0);
    if k < 0 || seen.raised then Observer(seen, buf)
    else Parse(decode, OnLines(decode, seen, Lines(buf[..k])), buf[k + 2..])
  }

  function FeedStep(decode: Decoder, obs: Observer, chunk: seq<Byte>): Observer {
    Parse(decode, obs.seen, obs.pending + Normalize(chunk))
  }

  /** The chunks are fed until a call raises. */
  function FeedAll(decode: Decoder, obs: Observer, chunks: seq<seq<Byte>>): Observer {
    if chunks == [] then obs
    else
      var before := FeedAll(decode, obs, chunks[..|chunks| - 1]);
      if before.seen.raised then before else FeedStep(decode, before, chunks[|chunks| - 1])
  }

  /** A flush that raises leaves the buffer. */
  function FlushStep(decode: Decoder, obs: Observer): Observer {
    if Strip(obs.pending) == [] then Observer(obs.seen, [])
    else
      var seen := OnLines(decode, obs.seen, Lines(obs.pending));
      Observer(seen, if seen.raised then obs.pending else [])
  }

  /** A call after one that raised starts anew with what is in the buffer. */
  function Resumed(obs: Observer): Observer {
    obs.(seen := obs.seen.(raised := false))
  }

  /** What is known after all chunks and the flush, or when a call has raised. */
  function Learned(decode: Decoder, chunks: seq<seq<Byte>>): Seen {
    var obs := FeedAll(decode, Observer(NOTHING, []), chunks);
    if obs.seen.raised then obs.seen else FlushStep(decode, obs).seen
  }

  lemma {:induction false} ParseIsInvisible(decode: Decoder, seen: Seen, buf: seq<Byte>)
    ensures var obs := Parse(decode, seen, buf);
            Run(decode, Scan(obs.seen, []), obs.pending) == Run(decode, Scan(seen, []), buf)
    decreases |buf|
  {
    var k := BlankLineFrom(buf, 0);
    if k >= 0 && !seen.raised {
      var event, rest := buf[..k], buf[k + 2..];
      assert buf == event + [LF, LF] + rest;
      EventEnds(decode, seen, event, rest);
      ParseIsInvisible(decode, OnLines(decode, seen, Lines(event)), rest);
    }
  }

  /** After any chunks the observer stands where a byte-by-byte scan of the whole stream stands. */
  lemma {:induction false} FeedFollowsStream(decode: Decoder, chunks: seq<seq<Byte>>)
    ensures var obs := FeedAll(decode, Observer(NOTHING, []), chunks);
            Run(decode, Scan(obs.seen, []), obs.pending) == Run(decode, Scan(NOTHING, []), Concat(chunks))
  {
    if chunks != [] {
      var earlier, chunk := chunks[..|chunks| - 1], chunks[|chunks| - 1];
      assert chunks == earlier + [chunk];
      FeedFollowsStream(decode, earlier);
      var obs := FeedAll(decode, Observer(NOTHING, []), earlier);
      RunJoins(decode, Scan(NOTHING, []), Concat(earlier), chunk);
      ConcatSnoc(earlier, chunk);
      if obs.seen.raised {
        RaisedStays(decode, Scan(obs.seen, []), obs.pending);
        RaisedStays(decode, Scan(obs.seen, []), chunk);
        return;
      }
      ParseIsInvisible(decode, obs.seen, obs.pending + Normalize(chunk));
      RunJoins(decode, Scan(obs.seen, []), obs.pending, Normalize(chunk));
      NormalizingIsInvisible(decode, Run(decode, Scan(obs.seen, []), obs.pending), chunk);
    }
  }

  lemma FlushCloses(decode: Decoder, obs: Observer)
    ensures FlushStep(decode, obs).seen == Close(decode, Run(decode, Scan(obs.seen, []), obs.pending))
  {
    if Strip(obs.pending) == [] {
      BlankIsAllSpace(obs.pending);
      BlankRunsToNothing(decode, obs.seen, obs.pending);
      StripBlank(Run(decode, Scan(obs.seen, []), obs.pending).line);
    } else {
      CloseIsLines(decode, obs.seen, obs.pending);
    }
  }

  /** However the stream was cut, also inside a CRLF or between the two line ends of a blank line: when all
      calls are through, or when the first has raised, the observer has learned what one fold over the
      stripped non-blank lines of the whole learns, up to the exception if there is one. */
  lemma CutsDoNotMatter(decode: Decoder, chunks: seq<seq<Byte>>)
    ensures Learned(decode, chunks) == Observe(decode, Texts(Lines(Concat(chunks))))
  {
    FeedFollowsStream(decode, chunks);
    var obs := FeedAll(decode, Observer(NOTHING, []), chunks);
    if obs.seen.raised {
      RaisedStays(decode, Scan(obs.seen, []), obs.pending);
    } else {
      FlushCloses(decode, obs);
    }
    CloseIsLines(decode, NOTHING, Concat(chunks));
    LinesAreTexts(decode, Lines(Concat(chunks)));
  }

  /** A data line that decodes to something else than an object. */
  predicate Raises(decode: Decoder, texts: seq<seq<Byte>>) {
    exists i :: 0 <= i < |texts| && EventOf(decode, texts[i]).NotAnObject?
  }

  lemma {:induction false} ObserveRaisesIff(decode: Decoder, texts: seq<seq<Byte>>)
    ensures Observe(decode, texts).raised <==> Raises(decode, texts)
  {
    if texts != [] {
      var init, last := texts[..|texts| - 1], |texts| - 1;
      ObserveRaisesIff(decode, init);
      if i :| 0 <= i < |init| && EventOf(decode, init[i]).NotAnObject? {
        assert EventOf(decode, texts[i]).NotAnObject?;
      }
      if i :| 0 <= i < |texts| && EventOf(decode, texts[i]).NotAnObject? {
        assert i < last ==> EventOf(decode, init[i]).NotAnObject?;
      }
    }
  }

  /** The same fold over the lines, in a reader that passes over such lines instead of raising. */
  function Tolerant(decode: Decoder): Decoder {
    (data: seq<Byte>) => if decode(data).NotAnObject? then NotJson else decode(data)
  }

  lemma {:induction false} ToleranceIsInvisible(decode: Decoder, texts: seq<seq<Byte>>)
    requires !Raises(decode, texts)
    ensures Observe(decode, texts) == Observe(Tolerant(decode), texts)
  {
    if texts != [] {
      var init, last := texts[..|texts| - 1], texts[|texts| - 1];
      assert forall i :: 0 <= i < |init| ==> init[i] == texts[i];
      ToleranceIsInvisible(decode, init);
      assert !EventOf(decode, last).NotAnObject?;
      assert EventOf(Tolerant(decode), last) == EventOf(decode, last);
    }
  }

  lemma {:induction false} ToleranceNeverRaises(decode: Decoder, texts: seq<seq<Byte>>)
    ensures !Observe(Tolerant(decode), texts).raised
  {
    if texts != [] { ToleranceNeverRaises(decode, texts[..|texts| - 1]); }
  }

  /** The calls go through, and have then learned the fold over all data lines that carry an object,
      exactly if no data line decodes to anything else. */
  lemma LearnsAllIff(decode: Decoder, chunks: seq<seq<Byte>>)
    ensures var texts := Texts(Lines(Concat(chunks)));
      && (!Learned(decode, chunks).raised <==> !Raises(decode, texts))
      && (Learned(decode, chunks) == Observe(Tolerant(decode), texts) <==> !Raises(decode, texts))
  {
    var texts := Texts(Lines(Concat(chunks)));
    CutsDoNotMatter(decode, chunks);
    ObserveRaisesIff(decode, texts);
    ToleranceNeverRaises(decode, texts);
    if !Raises(decode, texts) { ToleranceIsInvisible(decode, texts); }
  }

  // ---------------------------------------------------------------- the flush after an exception

  /** What the observer holds in the end: the callers flush it whatever has happened, also when a feed has
      raised. */
  function Recorded(decode: Decoder, chunks: seq<seq<Byte>>): Seen {
    FlushStep(decode, Resumed(FeedAll(decode, Observer(NOTHING, []), chunks))).seen
  }

  /** The text reports no count above those known and is no first token. */
  predicate Known(decode: Decoder, seen: Seen, text: seq<Byte>) {
    match EventOf(decode, text)
    case NotJson => true
    case NotAnObject => true
    case Event(event) =>
      && (seen.firstToken || !HasContentToken(event))
      && match UsageOf(event)
         case None => true
         case Some(found) =>
           var n := NormalizeUsage(found);
           && (n.prompt != 0 ==> n.prompt <= seen.usage.prompt && n.cached <= seen.usage.cached)
           && (n.completion != 0 ==> n.completion <= seen.usage.completion)
  }

  /** No text up to the first that raises says anything new. */
  predicate TeachesNothing(decode: Decoder, seen: Seen, texts: seq<seq<Byte>>) {
    texts == [] ||
    (var init, last := texts[..|texts| - 1], texts[|texts| - 1];
     TeachesNothing(decode, seen, init) && (Raises(decode, init) || Known(decode, seen, last)))
  }

  function ObserveFrom(decode: Decoder, seen: Seen, texts: seq<seq<Byte>>): Seen {
    if texts == [] then seen
    else OnText(decode, ObserveFrom(decode, seen, texts[..|texts| - 1]), texts[|texts| - 1])
  }

  lemma {:induction false} LinesAreTextsFrom(decode: Decoder, seen: Seen, lines: seq<seq<Byte>>)
    ensures OnLines(decode, seen, lines) == ObserveFrom(decode, seen, Texts(lines))
  {
    if lines != [] {
      var init, text := lines[..|lines| - 1], Strip(lines[|lines| - 1]);
      LinesAreTextsFrom(decode, seen, init);
      if text == [] {
        assert Texts(lines) == Texts(init);
      } else {
        assert Texts(lines)[..|Texts(lines)| - 1] == Texts(init);
      }
    }
  }

  lemma {:induction false} ObserveFromRaisesIff(decode: Decoder, seen: Seen, texts: seq<seq<Byte>>)
    requires !seen.raised
    ensures ObserveFrom(decode, seen, texts).raised <==> Raises(decode, texts)
  {
    if texts != [] {
      ObserveFromRaisesIff(decode, seen, texts[..|texts| - 1]);
      RaisesSnoc(decode, texts);
    }
  }

  lemma RaisesSnoc(decode: Decoder, texts: seq<seq<Byte>>)
    requires texts != []
    ensures Raises(decode, texts) <==>
      Raises(decode, texts[..|texts| - 1]) || EventOf(decode, texts[|texts| - 1]).NotAnObject?
  {
    var init, last := texts[..|texts| - 1], |texts| - 1;
    if i :| 0 <= i < |init| && EventOf(decode, init[i]).NotAnObject? {
      assert EventOf(decode, texts[i]).NotAnObject?;
    }
    if i :| 0 <= i < |texts| && EventOf(decode, texts[i]).NotAnObject? {
      assert i < last ==> EventOf(decode, init[i]).NotAnObject?;
    }
  }

  /** Equal but for the exception. */
  predicate SameCounts(a: Seen, b: Seen) {
    a.usage == b.usage && a.firstToken == b.firstToken && a.fired == b.fired
  }

  lemma {:induction false} ObserveFromGrows(decode: Decoder, seen: Seen, texts: seq<seq<Byte>>)
    ensures AtMost(seen.usage, ObserveFrom(decode, seen, texts).usage)
    ensures seen.firstToken ==> ObserveFrom(decode, seen, texts).firstToken
    ensures seen.fired <= ObserveFrom(decode, seen, texts).fired
  {
    if texts != [] { ObserveFromGrows(decode, seen, texts[..|texts| - 1]); }
  }

  lemma KnownIff(decode: Decoder, seen: Seen, text: seq<Byte>)
    requires !seen.raised
    ensures SameCounts(OnText(decode, seen, text), seen) <==> Known(decode, seen, text)
  {
  }

  lemma {:induction false} TeachesNothingIff(decode: Decoder, seen: Seen, texts: seq<seq<Byte>>)
    requires !seen.raised
    ensures SameCounts(ObserveFrom(decode, seen, texts), seen) <==> TeachesNothing(decode, seen, texts)
  {
    if texts != [] {
      var init, last := texts[..|texts| - 1], texts[|texts| - 1];
      var before := ObserveFrom(decode, seen, init);
      TeachesNothingIff(decode, seen, init);
      ObserveFromRaisesIff(decode, seen, init);
      if SameCounts(before, seen) {
        if !before.raised {
          assert before == seen;
          KnownIff(decode, seen, last);
        }
      } else {
        ObserveFromGrows(decode, seen, init);
        OnTextGrows(decode, before, last);
        GrownFurther(seen, before, OnText(decode, before, last));
      }
    }
  }

  lemma GrownFurther(a: Seen, b: Seen, c: Seen)
    requires AtMost(a.usage, b.usage) && (a.firstToken ==> b.firstToken) && a.fired <= b.fired
    requires Grown(b, c) && !SameCounts(b, a)
    ensures !SameCounts(c, a)
  {
  }

  /** What is recorded is the fold over the whole stream as long as no feed raises. After one has, it is the
      fold up to the exception exactly if what was left in the buffer teaches nothing. */
  lemma RecordedIff(decode: Decoder, chunks: seq<seq<Byte>>)
    ensures
      var obs, fold := FeedAll(decode, Observer(NOTHING, []), chunks), Observe(decode, Texts(Lines(Concat(chunks))));
      && (!obs.seen.raised ==> Recorded(decode, chunks) == fold)
      && (obs.seen.raised ==>
            (SameCounts(Recorded(decode, chunks), fold) <==>
             TeachesNothing(decode, Resumed(obs).seen, Texts(Lines(obs.pending)))))
  {
    CutsDoNotMatter(decode, chunks);
    var obs := FeedAll(decode, Observer(NOTHING, []), chunks);
    if obs.seen.raised {
      var seen := Resumed(obs).seen;
      LinesAreTextsFrom(decode, seen, Lines(obs.pending));
      TeachesNothingIff(decode, seen, Texts(Lines(obs.pending)));
      if Strip(obs.pending) == [] {
        FlushCloses(decode, Resumed(obs));
        CloseIsLines(decode, seen, obs.pending);
      }
    } else {
      assert Resumed(obs) == obs;
    }
  }

  /** In particular a stream without such lines is recorded as a whole, however it was cut. */
  lemma RecordedWhole(decode: Decoder, chunks: seq<seq<Byte>>)
    requires !Raises(decode, Texts(Lines(Concat(chunks))))
    ensures Recorded(decode, chunks) == Observe(decode, Texts(Lines(Concat(chunks))))
  {
    RecordedIff(decode, chunks);
    CutsDoNotMatter(decode, chunks);
    ObserveRaisesIff(decode, Texts(Lines(Concat(chunks))));
  }

  // ---------------------------------------------------------------- one event, byte for byte

  /** Bytes that are neither stripped nor a line end. */
  ghost predicate Plain(s: seq<Byte>) {
    forall i :: 0 <= i < |s| ==> !IsSpace(s[i])
  }

  function DataLine(gap: seq<Byte>, payload: seq<Byte>): seq<Byte> {
    DATA + gap + payload
  }

  function EventBytes(gap: seq<Byte>, payload: seq<Byte>): seq<Byte> {
    DataLine(gap, payload) + [LF, LF]
  }

  ghost predicate PlainEvent(gap: seq<Byte>, payload: seq<Byte>) {
    (gap == [] || gap == [32]) && payload != [] && Plain(payload) && payload != DONE
  }

  lemma PlainStrips(s: seq<Byte>)
    requires s != [] && !IsSpace(s[0]) && !IsSpace(s[|s| - 1])
    ensures StripLeft(s) == s && Strip(s) == s
  {
  }

  lemma DataLineIsEvent(decode: Decoder, gap: seq<Byte>, payload: seq<Byte>)
    requires PlainEvent(gap, payload)
    ensures var line := DataLine(gap, payload);
      Strip(line) == line && LF !in line && EventOf(decode, line) == decode(payload)
  {
    var line := DataLine(gap, payload);
    NoLineFeed(gap, payload);
    LineStrips(gap, payload);
    GapIsSkipped(gap, payload);
    LineParts(gap, payload);
  }

  lemma LineStrips(gap: seq<Byte>, payload: seq<Byte>)
    requires PlainEvent(gap, payload)
    ensures Strip(DataLine(gap, payload)) == DataLine(gap, payload) && Strip(payload) == payload
  {
    var line := DataLine(gap, payload);
    assert line[0] == DATA[0] && line[|line| - 1] == payload[|payload| - 1];
    PlainStrips(line);
    PlainStrips(payload);
  }

  lemma LineParts(gap: seq<Byte>, payload: seq<Byte>)
    ensures var line := DataLine(gap, payload);
      line != [] && line[0] != 58 && DATA <= line && line[5..] == gap + payload
  {
    var line := DataLine(gap, payload);
    assert line == DATA + (gap + payload);
    assert line[..5] == DATA;
  }

  lemma GapIsSkipped(gap: seq<Byte>, payload: seq<Byte>)
    requires PlainEvent(gap, payload)
    ensures StripLeft(gap + payload) == payload
  {
    assert (gap + payload)[|gap|..] == payload;
    assert TextStart(gap + payload, |gap|) == |gap|;
  }

  lemma NoLineFeed(gap: seq<Byte>, payload: seq<Byte>)
    requires PlainEvent(gap, payload)
    ensures LF !in DataLine(gap, payload)
  {
    var line := DataLine(gap, payload);
    assert forall i :: 0 <= i < |line| ==> line[i] == 32 || !IsSpace(line[i]);
  }

  lemma {:induction false} FirstBlankLine(buf: seq<Byte>, i: nat, k: nat)
    requires i <= k && k + 2 <= |buf| && buf[k] == LF && buf[k + 1] == LF
    requires forall j :: i <= j < k ==> buf[j] != LF
    ensures BlankLineFrom(buf, i) == k
    decreases k - i
  {
    if i < k { FirstBlankLine(buf, i + 1, k); }
  }

  lemma {:induction false} OneLine(s: seq<Byte>)
    requires LF !in s
    ensures Lines(s) == [s]
  {
    if s != [] {
      assert s[|s| - 1] in s;
      OneLine(s[..|s| - 1]);
      assert s[..|s| - 1] + [s[|s| - 1]] == s;
    }
  }

  lemma {:induction false} NothingToNormalize(s: seq<Byte>)
    requires CR !in s
    ensures Normalize(s) == s
  {
    if s != [] {
      NothingToNormalize(s[..|s| - 1]);
      assert s[..|s| - 1] + [s[|s| - 1]] == s;
    }
  }

  lemma OneLineRead(decode: Decoder, seen: Seen, s: seq<Byte>)
    requires LF !in s
    ensures OnLines(decode, seen, Lines(s)) == OnLine(decode, seen, s)
  {
    OneLine(s);
    assert [s][..0] == [];
    assert OnLines(decode, seen, [s][..0]) == seen;
  }

  lemma EventIsParsed(decode: Decoder, seen: Seen, gap: seq<Byte>, payload: seq<Byte>, rest: seq<Byte>)
    requires PlainEvent(gap, payload) && !seen.raised
    ensures Parse(decode, seen, EventBytes(gap, payload) + rest)
         == Parse(decode, OnText(decode, seen, DataLine(gap, payload)), rest)
  {
    var line := DataLine(gap, payload);
    var buf := EventBytes(gap, payload) + rest;
    DataLineIsEvent(decode, gap, payload);
    assert forall j :: 0 <= j < |line| ==> buf[j] == line[j];
    FirstBlankLine(buf, 0, |line|);
    assert buf[..|line|] == line && buf[|line| + 2..] == rest;
    OneLineRead(decode, seen, line);
  }

  lemma EventIsFlushed(decode: Decoder, seen: Seen, gap: seq<Byte>, payload: seq<Byte>)
    requires PlainEvent(gap, payload) && !seen.raised
    ensures FlushStep(decode, Observer(seen, EventBytes(gap, payload))).seen
         == OnText(decode, seen, DataLine(gap, payload))
  {
    var line, bytes := DataLine(gap, payload), EventBytes(gap, payload);
    DataLineIsEvent(decode, gap, payload);
    FlushCloses(decode, Observer(seen, bytes));
    assert line + [LF, LF] + [] == bytes;
    EventEnds(decode, seen, line, []);
    OneLineRead(decode, seen, line);
    CloseNothing(decode, OnLine(decode, seen, line));
  }

  lemma CloseNothing(decode: Decoder, seen: Seen)
    ensures Close(decode, Run(decode, Scan(seen, []), [])) == seen
  {
    assert Strip([]) == [];
  }

  lemma FeedOne(decode: Decoder, chunk: seq<Byte>)
    requires CR !in chunk
    ensures FeedAll(decode, Observer(NOTHING, []), [chunk]) == Parse(decode, NOTHING, chunk)
  {
    NothingToNormalize(chunk);
    assert [chunk][..0] == [] && [] + chunk == chunk;
  }

  /** A chunk that starts with a data line of no object ends the observation at once. */
  lemma BadChunkRaises(decode: Decoder, gap: seq<Byte>, bad: seq<Byte>, rest: seq<Byte>)
    requires PlainEvent(gap, bad) && decode(bad) == NotAnObject && CR !in rest
    ensures FeedAll(decode, Observer(NOTHING, []), [EventBytes(gap, bad) + rest])
         == Observer(NOTHING.(raised := true), rest)
  {
    NothingToNormalizeIn(gap, bad);
    FeedOne(decode, EventBytes(gap, bad) + rest);
    EventIsParsed(decode, NOTHING, gap, bad, rest);
    BadLineRaises(decode, gap, bad);
    assert Parse(decode, NOTHING.(raised := true), rest) == Observer(NOTHING.(raised := true), rest);
  }

  lemma NothingToNormalizeIn(gap: seq<Byte>, payload: seq<Byte>)
    requires PlainEvent(gap, payload)
    ensures CR !in EventBytes(gap, payload)
  {
    assert forall i :: 0 <= i < |payload| ==> payload[i] != CR;
  }

  lemma BadLineRaises(decode: Decoder, gap: seq<Byte>, bad: seq<Byte>)
    requires PlainEvent(gap, bad) && decode(bad) == NotAnObject
    ensures OnText(decode, NOTHING, DataLine(gap, bad)) == NOTHING.(raised := true)
  {
    DataLineIsEvent(decode, gap, bad);
  }

  function CompletionReport(n: nat): map<string, Json> {
    map["usage" := Obj(map["completion_tokens" := Num(n as real)])]
  }

  lemma CompletionIsCounted(decode: Decoder, text: seq<Byte>, n: nat)
    requires n > 0 && EventOf(decode, text) == Event(CompletionReport(n))
    ensures OnText(decode, NOTHING, text).usage.completion == n
  {
    WholeNumbers(n);
    var usage := map["completion_tokens" := Num(n as real)];
    assert "completion_tokens" in usage && Count(usage, "completion_tokens") == n as real;
    assert UsageOf(CompletionReport(n)) == Some(usage);
  }

  /** After an exception the record does depend on the cut: the same two events, fed together, leave the
      second for the flush; fed one by one, the second never reaches the buffer. */
  lemma RecordDependsOnCut(decode: Decoder, bad: seq<Byte>, good: seq<Byte>, n: nat)
    requires n > 0 && PlainEvent([], bad) && PlainEvent([], good)
    requires decode(bad) == NotAnObject && decode(good) == Event(CompletionReport(n))
    ensures var first, second := EventBytes([], bad), EventBytes([], good);
      && Recorded(decode, [first + second]).usage.completion == n
      && Recorded(decode, [first, second]).usage.completion == 0
  {
    var first, second := EventBytes([], bad), EventBytes([], good);
    NothingToNormalizeIn([], good);
    BadChunkRaises(decode, [], bad, second);
    DataLineIsEvent(decode, [], good);
    EventIsFlushed(decode, NOTHING, [], good);
    CompletionIsCounted(decode, DataLine([], good), n);
    BadChunkRaises(decode, [], bad, []);
    assert first + [] == first && [first, second][..1] == [first];
  }

  // ---------------------------------------------------------------- what the fold learns

  /** Counts only grow, and the callback never runs twice. */
  ghost predicate Grown(before: Seen, after: Seen) {
    && AtMost(before.usage, after.usage)
    && (before.firstToken ==> after.firstToken && after.fired == before.fired)
    && (before.raised ==> after == before)
    && before.fired <= after.fired
  }

  lemma OnTextGrows(decode: Decoder, seen: Seen, text: seq<Byte>)
    ensures Grown(seen, OnText(decode, seen, text))
  {
  }

  lemma {:induction false} OnLinesGrow(decode: Decoder, seen: Seen, lines: seq<seq<Byte>>)
    ensures Grown(seen, OnLines(decode, seen, lines))
  {
    if lines != [] {
      OnLinesGrow(decode, seen, lines[..|lines| - 1]);
      OnTextGrows(decode, OnLines(decode, seen, lines[..|lines| - 1]), Strip(lines[|lines| - 1]));
    }
  }

  lemma {:induction false} ParseGrows(decode: Decoder, seen: Seen, buf: seq<Byte>)
    ensures Grown(seen, Parse(decode, seen, buf).seen)
    decreases |buf|
  {
    var k := BlankLineFrom(buf, 0);
    if k >= 0 && !seen.raised {
      OnLinesGrow(decode, seen, Lines(buf[..k]));
      ParseGrows(decode, OnLines(decode, seen, Lines(buf[..k])), buf[k + 2..]);
    }
  }

  /** The texts whose event carries generated content, in order, up to an exception. */
  function ContentTexts(decode: Decoder, texts: seq<seq<Byte>>): seq<seq<Byte>> {
    if texts == [] then []
    else
      var event := EventOf(decode, texts[|texts| - 1]);
      ContentTexts(decode, texts[..|texts| - 1])
      + if !Raises(decode, texts) && event.Event? && HasContentToken(event.fields) then [texts[|texts| - 1]] else []
  }

  /** The callback runs on the first content line and on no other. */
  lemma {:induction false} FiresOnFirstContent(decode: Decoder, texts: seq<seq<Byte>>)
    ensures var seen := Observe(decode, texts); var content := ContentTexts(decode, texts);
      && (seen.firstToken <==> content != [])
      && seen.fired == if content == [] then [] else [content[0]]
  {
    if texts != [] {
      FiresOnFirstContent(decode, texts[..|texts| - 1]);
      ObserveRaisesIff(decode, texts);
      ObserveRaisesIff(decode, texts[..|texts| - 1]);
    }
  }

  /** The normalised counts reported by the events, in order, up to an exception. */
  function Reports(decode: Decoder, texts: seq<seq<Byte>>): seq<Usage> {
    if texts == [] then []
    else
      var event := EventOf(decode, texts[|texts| - 1]);
      Reports(decode, texts[..|texts| - 1])
      + if !Raises(decode, texts) && event.Event? && UsageOf(event.fields).Some?
        then [NormalizeUsage(UsageOf(event.fields).value)] else []
  }

  ghost predicate IsMaximum(usage: Usage, reports: seq<Usage>) {
    && usage.prompt >= 0 && usage.cached >= 0 && usage.completion >= 0
    && (forall n :: n in reports ==> n.prompt <= usage.prompt && n.completion <= usage.completion)
    && (forall n :: n in reports && n.prompt != 0 ==> n.cached <= usage.cached)
    && (usage.prompt != 0 ==> exists n :: n in reports && n.prompt == usage.prompt)
    && (usage.completion != 0 ==> exists n :: n in reports && n.completion == usage.completion)
    && (usage.cached != 0 ==> exists n :: n in reports && n.prompt != 0 && n.cached == usage.cached)
  }

  lemma MergeKeepsMaximum(usage: Usage, reports: seq<Usage>, n: Usage)
    requires IsMaximum(usage, reports)
    ensures IsMaximum(MergeUsage(usage, n), reports + [n])
  {
    var merged := MergeUsage(usage, n);
    assert n in reports + [n];
    if merged.prompt != 0 {
      if merged.prompt == usage.prompt {
        var m :| m in reports && m.prompt == usage.prompt;
        assert m in reports + [n];
      }
    }
    if merged.completion != 0 {
      if merged.completion == usage.completion {
        var m :| m in reports && m.completion == usage.completion;
        assert m in reports + [n];
      }
    }
    if merged.cached != 0 {
      if merged.cached == usage.cached {
        var m :| m in reports && m.prompt != 0 && m.cached == usage.cached;
        assert m in reports + [n];
      }
    }
  }

  /** Each count ends at the largest value any event reported, whatever the order of the events. */
  lemma {:induction false} UsageIsMaximum(decode: Decoder, texts: seq<seq<Byte>>)
    ensures IsMaximum(Observe(decode, texts).usage, Reports(decode, texts))
  {
    if texts != [] {
      var init, event := texts[..|texts| - 1], EventOf(decode, texts[|texts| - 1]);
      UsageIsMaximum(decode, init);
      ObserveRaisesIff(decode, texts);
      ObserveRaisesIff(decode, init);
      if !Raises(decode, texts) && event.Event? && UsageOf(event.fields).Some? {
        MergeKeepsMaximum(Observe(decode, init).usage, Reports(decode, init),
                          NormalizeUsage(UsageOf(event.fields).value));
      }
    }
  }

  // ---------------------------------------------------------------- the object

  class SseLineBuffer {
    const decode: Decoder
    var buffer: seq<Byte>
    var seen: Seen

    constructor (decode: Decoder)
      ensures this.decode == decode && State() == Observer(NOTHING, [])
    {
      this.decode, buffer, seen := decode, [], NOTHING;
    }

    function State(): Observer
      reads this
    {
      Observer(seen, buffer)
    }

    /** One line of an event. */
    method ParseLine(raw: seq<Byte>)
      requires !seen.raised
      modifies this`seen
      ensures seen == OnLine(decode, old(seen), raw)
    {
      var line := Strip(raw);
      if line == [] || line[0] == 58 { return; }
      if !(DATA <= line) { return; }
      var data := StripLeft(line[5..]);
      if Strip(data) == DONE { return; }
      var decoded := decode(data);
      if decoded == NotJson { return; }
      if decoded == NotAnObject {
        seen := seen.(raised := true);
        return;
      }
      var usage := UsageOf(decoded.fields);
      if usage.Some? {
        seen := seen.(usage := MergeUsage(seen.usage, NormalizeUsage(usage.value)));
      }
      if !seen.firstToken && HasContentToken(decoded.fields) {
        seen := seen.(firstToken := true, fired := seen.fired + [line]);
      }
    }

    /** Leaves the loop with the exception at a data line that carries no object. */
    method ParseEvent(event: seq<Byte>)
      requires !seen.raised
      modifies this`seen
      ensures seen == OnLines(decode, old(seen), Lines(event))
    {
      var lines := Lines(event);
      for i := 0 to |lines|
        invariant seen == OnLines(decode, old(seen), lines[..i]) && !seen.raised
      {
        assert lines[..i + 1][..i] == lines[..i];
        ParseLine(lines[i]);
        if seen.raised {
          RaisedKeeps(decode, seen, lines, old(seen), i + 1);
          return;
        }
      }
      assert lines[..|lines|] == lines;
    }

    method Feed(chunk: seq<Byte>) returns (raised: bool)
      modifies this
      ensures State() == FeedStep(decode, Resumed(old(State())), chunk) && raised == seen.raised
      ensures Grown(Resumed(old(State())).seen, seen)
    {
      seen := seen.(raised := false);
      buffer := buffer + Normalize(chunk);
      ghost var whole := Parse(decode, seen, buffer);
      ParseGrows(decode, seen, buffer);
      while BlankLineFrom(buffer, 0) >= 0 && !seen.raised
        invariant Parse(decode, seen, buffer) == whole
        decreases |buffer|
      {
        var k := BlankLineFrom(buffer, 0);
        var event := buffer[..k];
        buffer := buffer[k + 2..];
        ParseEvent(event);
      }
      raised := seen.raised;
    }

    method Flush() returns (raised: bool)
      modifies this
      ensures State() == FlushStep(decode, Resumed(old(State()))) && raised == seen.raised
      ensures Grown(Resumed(old(State())).seen, seen)
    {
      seen := seen.(raised := false);
      OnLinesGrow(decode, seen, Lines(buffer));
      if Strip(buffer) != [] { ParseEvent(buffer); }
      raised := seen.raised;
      if !raised { buffer := []; }
    }
  }

  lemma {:induction false} RaisedKeeps(decode: Decoder, seen: Seen, lines: seq<seq<Byte>>, start: Seen, i: nat)
    requires i <= |lines| && seen.raised && OnLines(decode, start, lines[..i]) == seen
    ensures OnLines(decode, start, lines) == seen
    decreases |lines| - i
  {
    if i == |lines| {
      assert lines[..i] == lines;
    } else {
      assert lines[..i + 1][..i] == lines[..i];
      RaisedKeeps(decode, seen, lines, start, i + 1);
    }
  }
}

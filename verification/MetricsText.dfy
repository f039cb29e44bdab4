// The metrics page: the exporter prints counters in the Prometheus text exposition format, and the
// parser used for engine metrics reads such pages.

module TextTools {
  import opened Wrappers

  /** Characters at which a text is split into lines. */
  predicate IsBreak(c: char) {
    || '\n' <= c <= '\r' || '\U{1c}' <= c <= '\U{1e}' || c == '\U{85}' || c == '\U{2028}' || c == '\U{2029}'
  }

  predicate IsSpace(c: char) {
    || '\t' <= c <= '\r' || '\U{1c}' <= c <= ' ' || c == '\U{85}' || c == '\U{a0}' || c == '\U{1680}'
    || '\U{2000}' <= c <= '\U{200a}' || c == '\U{2028}' || c == '\U{2029}' || c == '\U{202f}' || c == '\U{205f}'
    || c == '\U{3000}'
  }

  predicate OneLine(s: string) {
    forall i :: 0 <= i < |s| ==> !IsBreak(s[i])
  }

  /** The lines of a text. A carriage return with its line feed leaves an empty line in between, which the
      parser skips like any other. */
  function Lines(text: string): (lines: seq<string>)
    ensures lines != []
  {
    if text == [] then [[]]
    else
      var rest := Lines(text[1..]);
      if IsBreak(text[0]) then [[]] + rest else [[text[0]] + rest[0]] + rest[1..]
  }

  function Join(lines: seq<string>): string {
    if lines == [] then [] else if |lines| == 1 then lines[0] else lines[0] + "\n" + Join(lines[1..])
  }

  lemma {:induction false} LinesOfSum(a: string, b: string)
    requires OneLine(a)
    ensures Lines(a + "\n" + b) == [a] + Lines(b) && Lines(a) == [a]
  {
    var text := a + "\n" + b;
    if a == [] {
      assert text == ['\n'] + b && text[1..] == b && IsBreak(text[0]);
    } else {
      assert text[0] == a[0] && text[1..] == a[1..] + "\n" + b;
      LinesOfSum(a[1..], b);
      assert [a[0]] + a[1..] == a;
      assert ([a[1..]] + Lines(b))[1..] == Lines(b);
      assert [a[1..]][1..] == [];
    }
  }

  /** Joining lines and splitting the text again gives the lines. */
  lemma {:induction false} SplitInvertsJoin(lines: seq<string>)
    requires lines != [] && forall i :: 0 <= i < |lines| ==> OneLine(lines[i])
    ensures Lines(Join(lines)) == lines
  {
    LinesOfSum(lines[0], Join(lines[1..]));
    if |lines| == 1 {
      assert lines == [lines[0]];
    } else {
      SplitInvertsJoin(lines[1..]);
      assert lines == [lines[0]] + lines[1..];
    }
  }

  function StripLeft(s: string): string {
    if s != [] && IsSpace(s[0]) then StripLeft(s[1..]) else s
  }

  function StripRight(s: string): string {
    if s != [] && IsSpace(s[|s| - 1]) then StripRight(s[..|s| - 1]) else s
  }

  function Strip(s: string): string {
    StripRight(StripLeft(s))
  }

  /** The position of the first c, or the length. */
  function Find(s: string, c: char): (i: nat)
    ensures i <= |s|
  {
    if s == [] || s[0] == c then 0 else 1 + Find(s[1..], c)
  }

  /** The position after the last c, or zero. */
  function AfterLast(s: string, c: char): (i: nat)
    ensures i <= |s|
  {
    if s == [] then 0 else if s[|s| - 1] == c then |s| else AfterLast(s[..|s| - 1], c)
  }

  lemma {:induction false} FindInSum(a: string, c: char, b: string)
    requires c !in a
    ensures Find(a + [c] + b, c) == |a|
  {
    if a != [] {
      assert (a + [c] + b)[1..] == a[1..] + [c] + b;
      FindInSum(a[1..], c, b);
    }
  }

  lemma {:induction false} FindNothing(s: string, c: char)
    requires c !in s
    ensures Find(s, c) == |s|
  {
    if s != [] { FindNothing(s[1..], c); }
  }

  lemma {:induction false} AfterLastInSum(a: string, c: char, b: string)
    requires c !in b
    ensures AfterLast(a + [c] + b, c) == |a| + 1
  {
    var s := a + [c] + b;
    if b == [] {
      assert s[|s| - 1] == c;
    } else {
      assert s[|s| - 1] == b[|b| - 1] && b[|b| - 1] in b;
      assert s[..|s| - 1] == a + [c] + b[..|b| - 1];
      AfterLastInSum(a, c, b[..|b| - 1]);
    }
  }

  predicate EndsWith(s: string, t: string) {
    |t| <= |s| && s[|s| - |t|..] == t
  }

  predicate Occurs(s: string, t: string, i: nat) {
    i + |t| <= |s| && s[i..i + |t|] == t
  }

  /** The position of the last t at i or before. */
  function LastAt(s: string, t: string, i: nat): (at: Option<nat>)
    ensures at.Some? ==> at.value <= i && Occurs(s, t, at.value)
  {
    if Occurs(s, t, i) then Some(i) else if i == 0 then None else LastAt(s, t, i - 1)
  }

  function LastOf(s: string, t: string): (at: Option<nat>)
    ensures at.Some? ==> at.value + |t| <= |s|
  {
    if |t| <= |s| then LastAt(s, t, |s| - |t|) else None
  }

  /** The words of a text, split at spaces. */
  function Words(s: string): seq<string> {
    if s == [] then []
    else if IsSpace(s[0]) then Words(s[1..])
    else
      var n := WordLength(s);
      [s[..n]] + Words(s[n..])
  }

  function WordLength(s: string): (n: nat)
    ensures n <= |s| && (s != [] && !IsSpace(s[0]) ==> n > 0)
    ensures forall i :: 0 <= i < n ==> !IsSpace(s[i])
    ensures n < |s| ==> IsSpace(s[n])
  {
    if s == [] || IsSpace(s[0]) then 0 else 1 + WordLength(s[1..])
  }

  function Glue(parts: seq<string>): string {
    if parts == [] then "" else parts[0] + Glue(parts[1..])
  }

  // ---------------------------------------------------------------- decimal numbers

  function Digit(d: nat): char
    requires d < 10
  {
    (('0' as int) + d) as char
  }

  function Decimal(n: nat): string {
    if n < 10 then [Digit(n)] else Decimal(n / 10) + [Digit(n % 10)]
  }

  predicate IsDigit(c: char) {
    '0' <= c <= '9'
  }

  predicate AllDigits(s: string) {
    s != [] && forall i :: 0 <= i < |s| ==> IsDigit(s[i])
  }

  function Value(s: string): nat
    requires forall i :: 0 <= i < |s| ==> IsDigit(s[i])
  {
    if s == [] then 0
    else
      assert IsDigit(s[|s| - 1]);
      10 * Value(s[..|s| - 1]) + (s[|s| - 1] as int - '0' as int)
  }

  lemma {:induction false} DecimalRoundTrip(n: nat)
    ensures AllDigits(Decimal(n)) && Value(Decimal(n)) == n
  {
    if n < 10 {
      assert Decimal(n)[..0] == [];
    } else {
      DecimalRoundTrip(n / 10);
      assert Decimal(n)[..|Decimal(n)| - 1] == Decimal(n / 10);
    }
  }
}

module Prometheus {
  import opened Wrappers
  import opened TextTools

  datatype Bound = Finite(value: real) | Infinite

  datatype Histogram = Histogram(buckets: seq<(Bound, int)>, sum: real, count: int)

  datatype Metrics = Metrics(gauges: map<string, real>, counters: map<string, real>, histos: map<string, Histogram>)

  const EMPTY := Metrics(map[], map[], map[])
  const NEW_HISTOGRAM := Histogram([], 0.0, 0)

  /** How numbers are read that are not plain decimal digits. */
  type OtherNumbers = string -> Option<real>

  function Number(other: OtherNumbers, s: string): Option<real> {
    if AllDigits(s) then Some(Value(s) as real) else other(s)
  }

  function Counter(m: Metrics, base: string): real {
    if base in m.counters then m.counters[base] else 0.0
  }

  function HistogramOf(m: Metrics, base: string): Histogram {
    if base in m.histos then m.histos[base] else NEW_HISTOGRAM
  }

  function Truncated(x: real): int {
    if x >= 0.0 then x.Floor else -((-x).Floor)
  }

  /** Name and value text of a sample line. */
  function NameAndValue(line: string): Option<(string, string)> {
    var bracket := Find(line, '{');
    if bracket < |line| then
      var close := AfterLast(line, '}');
      Some((line[..bracket], if close > bracket + 1 then Strip(line[close..]) else ""))
    else
      var parts := Words(line);
      if |parts| < 2 then None else Some((parts[0], parts[1]))
  }

  const LE := "le=\""

  /** The upper bound label of a bucket; None when it is no number. */
  function BoundOf(other: OtherNumbers, line: string, bracket: nat): Option<Bound>
    requires bracket <= |line|
  {
    var at := FirstAt(line, LE, bracket);
    if bracket == |line| || at == None then Some(Infinite)
    else
      var rest := line[at.value + |LE|..];
      var quote := Find(rest, '"');
      var text := if quote < |rest| then rest[..quote] else if rest == [] then [] else rest[..|rest| - 1];
      if text == "+Inf" then Some(Infinite)
      else match Number(other, text) case None => None case Some(x) => Some(Finite(x))
  }

  function FirstAt(s: string, t: string, i: nat): (at: Option<nat>)
    requires i <= |s|
    ensures at.Some? ==> at.value + |t| <= |s|
    decreases |s| - i
  {
    if Occurs(s, t, i) then Some(i) else if i == |s| then None else FirstAt(s, t, i + 1)
  }

  /** What a line does to the metrics read so far. */
  datatype Effect =
    | Nothing
    | AddBucket(base: string, bound: Bound, count: int)
    | SetSum(base: string, x: real)
    | SetCount(base: string, count: int)
    | Raise(base: string, x: real)
    | SetGauge(name: string, x: real)
    | Failure                                   // an unreadable bucket bound is not caught

  function ReadLine(other: OtherNumbers, raw: string): Effect {
    var line := Strip(raw);
    if line == "" || line[0] == '#' then Nothing
    else
      match NameAndValue(line)
      case None => Nothing
      case Some((name, text)) =>
        match Number(other, text)
        case None => Nothing
        case Some(x) => SampleEffect(other, line, name, x)
  }

  function SampleEffect(other: OtherNumbers, line: string, name: string, x: real): Effect {
    if EndsWith(name, "_bucket") then
      match BoundOf(other, line, Find(line, '{'))
      case None => Failure
      case Some(le) => AddBucket(name[..|name| - 7], le, Truncated(x))
    else if EndsWith(name, "_sum") then SetSum(name[..|name| - 4], x)
    else if EndsWith(name, "_count") then SetCount(name[..|name| - 6], Truncated(x))
    else
      match LastOf(name, "_total")
      case Some(at) => Raise(name[..at], x)
      case None => SetGauge(name, x)
  }

  function Apply(m: Metrics, e: Effect): Option<Metrics> {
    match e
    case Nothing => Some(m)
    case AddBucket(base, le, n) =>
      var h := HistogramOf(m, base);
      Some(m.(histos := m.histos[base := h.(buckets := h.buckets + [(le, n)])]))
    case SetSum(base, x) => Some(m.(histos := m.histos[base := HistogramOf(m, base).(sum := x)]))
    case SetCount(base, n) => Some(m.(histos := m.histos[base := HistogramOf(m, base).(count := n)]))
    case Raise(base, x) => Some(Raised(m, base, x))
    case SetGauge(name, x) => Some(m.(gauges := m.gauges[name := x]))
    case Failure => None
  }

  function Raised(m: Metrics, base: string, x: real): Metrics {
    m.(counters := m.counters[base := Counter(m, base) + x])
  }

  function ApplyAll(m: Metrics, effects: seq<Effect>): Option<Metrics> {
    if effects == [] then Some(m)
    else
      match ApplyAll(m, effects[..|effects| - 1])
      case None => None
      case Some(before) => Apply(before, effects[|effects| - 1])
  }

  function Effects(other: OtherNumbers, lines: seq<string>): (effects: seq<Effect>)
    ensures |effects| == |lines|
  {
    seq(|lines|, i requires 0 <= i < |lines| => ReadLine(other, lines[i]))
  }

  /** The metrics of a page; None stands for the exception. */
  function Parsed(other: OtherNumbers, text: string): Option<Metrics> {
    ApplyAll(EMPTY, Effects(other, Lines(text)))
  }

  lemma OneMoreEffect(m: Metrics, effects: seq<Effect>, i: nat)
    requires i < |effects|
    ensures ApplyAll(m, effects[..i + 1]) ==
      match ApplyAll(m, effects[..i]) case None => None case Some(before) => Apply(before, effects[i])
  {
    assert effects[..i + 1][..i] == effects[..i];
  }

  method ParsePrometheusText(other: OtherNumbers, text: string) returns (r: Option<Metrics>)
    ensures r == Parsed(other, text)
  {
    var lines, m := Lines(text), EMPTY;
    ghost var effects := Effects(other, lines);
    for i := 0 to |lines|
      invariant ApplyAll(EMPTY, effects[..i]) == Some(m)
    {
      OneMoreEffect(EMPTY, effects, i);
      var next := Apply(m, ReadLine(other, lines[i]));
      if next == None {
        NeverRecovers(EMPTY, effects, i + 1);
        return None;
      }
      m := next.value;
    }
    assert effects[..|lines|] == effects;
    r := Some(m);
  }

  lemma {:induction false} NeverRecovers(m: Metrics, effects: seq<Effect>, i: nat)
    requires i <= |effects| && ApplyAll(m, effects[..i]) == None
    ensures ApplyAll(m, effects) == None
    decreases |effects| - i
  {
    if i < |effects| {
      OneMoreEffect(m, effects, i);
      NeverRecovers(m, effects, i + 1);
    } else {
      assert effects[..i] == effects;
    }
  }

  lemma {:induction false} OneByOne(m: Metrics, a: seq<Effect>, b: seq<Effect>)
    ensures ApplyAll(m, a + b) ==
      match ApplyAll(m, a) case None => None case Some(before) => ApplyAll(before, b)
    decreases |b|
  {
    if b == [] {
      assert a + b == a;
    } else {
      assert (a + b)[..|a + b| - 1] == a + b[..|b| - 1];
      OneByOne(m, a, b[..|b| - 1]);
    }
  }

  lemma EffectsOfSum(other: OtherNumbers, a: seq<string>, b: seq<string>)
    ensures Effects(other, a + b) == Effects(other, a) + Effects(other, b)
  {
  }

  lemma RaisedTwice(m: Metrics, base: string, x: real, y: real)
    ensures Raised(Raised(m, base, x), base, y) == Raised(m, base, x + y)
  {
    assert m.counters[base := Counter(m, base) + x][base := Counter(m, base) + x + y]
        == m.counters[base := Counter(m, base) + (x + y)];
  }

  function Sum(counts: seq<nat>): nat {
    if counts == [] then 0 else Sum(counts[..|counts| - 1]) + counts[|counts| - 1]
  }

  function Raises(base: string, counts: seq<nat>): seq<Effect> {
    seq(|counts|, i requires 0 <= i < |counts| => Raise(base, counts[i] as real))
  }

  /** The samples of one counter add up. */
  lemma {:induction false} RaisesAddUp(m: Metrics, base: string, counts: seq<nat>)
    ensures ApplyAll(m, Raises(base, counts)) == Some(if counts == [] then m else Raised(m, base, Sum(counts) as real))
  {
    if counts != [] {
      var last := |counts| - 1;
      RaisesAddUp(m, base, counts[..last]);
      assert Raises(base, counts)[..last] == Raises(base, counts[..last]);
      if last == 0 {
        assert Sum(counts) == counts[0];
      } else {
        RaisedTwice(m, base, Sum(counts[..last]) as real, counts[last] as real);
      }
    }
  }

  // ---------------------------------------------------------------- printed lines

  /** A sample of a counter. */
  function SampleLine(base: string, labels: string, n: nat): string {
    Glue([base + "_total", "{", labels, "}", " " + Decimal(n)])
  }

  lemma SampleLineIs(base: string, labels: string, n: nat)
    ensures SampleLine(base, labels, n) == base + "_total" + "{" + labels + "} " + Decimal(n)
  {
    var name, tail := base + "_total", " " + Decimal(n);
    var parts := [name, "{", labels, "}", tail];
    assert parts[1..][1..][1..][1..] == [tail] && [tail][1..] == [];
    assert Glue([tail]) == tail;
    assert parts[1..][1..][1..] == ["}", tail] && Glue(["}", tail]) == "}" + tail;
    assert parts[1..][1..] == [labels, "}", tail] && Glue([labels, "}", tail]) == labels + ("}" + tail);
    assert parts[1..] == ["{", labels, "}", tail];
    assert Glue(parts[1..]) == "{" + (labels + ("}" + tail));
  }

  predicate PlainName(base: string) {
    base != [] && '{' !in base && !IsSpace(base[0]) && base[0] != '#'
  }

  lemma StripKeeps(s: string)
    requires s != [] && !IsSpace(s[0]) && !IsSpace(s[|s| - 1])
    ensures Strip(s) == s
  {
  }

  lemma DigitsAreNotSpecial(n: nat)
    ensures var s := Decimal(n); s != [] && '}' !in s && !IsSpace(s[0]) && !IsSpace(s[|s| - 1])
    ensures OneLine(Decimal(n))
  {
    DecimalRoundTrip(n);
  }

  lemma StripNumber(n: nat)
    ensures Strip(" " + Decimal(n)) == Decimal(n)
  {
    DigitsAreNotSpecial(n);
    assert (" " + Decimal(n))[1..] == Decimal(n);
    StripKeeps(Decimal(n));
    assert StripLeft(" " + Decimal(n)) == StripLeft(Decimal(n)) == Decimal(n);
  }

  lemma SampleLineStrips(base: string, labels: string, n: nat)
    requires PlainName(base)
    ensures var line := SampleLine(base, labels, n); line[0] == base[0] && Strip(line) == line
  {
    var line := SampleLine(base, labels, n);
    SampleLineIs(base, labels, n);
    DigitsAreNotSpecial(n);
    assert line[|line| - 1] == Decimal(n)[|Decimal(n)| - 1];
    StripKeeps(line);
  }

  lemma SampleLineName(base: string, labels: string, n: nat)
    requires PlainName(base)
    ensures var line, name := SampleLine(base, labels, n), base + "_total";
      Find(line, '{') == |name| < |line| && line[..|name|] == name
  {
    SampleLineIs(base, labels, n);
    var rest := labels + "} " + Decimal(n);
    assert SampleLine(base, labels, n) == (base + "_total") + ['{'] + rest;
    FindInSum(base + "_total", '{', rest);
  }

  lemma SampleLineValue(base: string, labels: string, n: nat)
    ensures var line, front := SampleLine(base, labels, n), base + "_total" + "{" + labels;
      && AfterLast(line, '}') == |front| + 1 <= |line|
      && line[|front| + 1..] == " " + Decimal(n)
  {
    var front, tail := base + "_total" + "{" + labels, " " + Decimal(n);
    SampleLineIs(base, labels, n);
    DigitsAreNotSpecial(n);
    assert SampleLine(base, labels, n) == front + ['}'] + tail;
    AfterLastInSum(front, '}', tail);
  }

  /** Quotes and braces in the labels do no harm: the name ends at the first opening brace and the value
      starts after the last closing one. */
  lemma SampleLineReads(base: string, labels: string, n: nat)
    requires PlainName(base)
    ensures NameAndValue(SampleLine(base, labels, n)) == Some((base + "_total", Decimal(n)))
  {
    SampleLineName(base, labels, n);
    SampleLineValue(base, labels, n);
    StripNumber(n);
  }

  lemma NameOfCounter(base: string)
    ensures var name := base + "_total";
      && !EndsWith(name, "_bucket") && !EndsWith(name, "_sum") && !EndsWith(name, "_count")
      && LastOf(name, "_total") == Some(|base|) && name[..|base|] == base
  {
    var name := base + "_total";
    assert name[|name| - 1] == 'l';
    assert name[|base|..|base| + 6] == "_total";
    LastCharDecides(name, "_bucket");
    LastCharDecides(name, "_sum");
    LastCharDecides(name, "_count");
  }

  lemma LastCharDecides(s: string, t: string)
    requires s != [] && t != [] && s[|s| - 1] != t[|t| - 1]
    ensures !EndsWith(s, t)
  {
    if |t| <= |s| { assert s[|s| - |t|..][|t| - 1] == s[|s| - 1]; }
  }

  lemma DecimalIsRead(other: OtherNumbers, n: nat)
    ensures Number(other, Decimal(n)) == Some(n as real)
  {
    DecimalRoundTrip(n);
  }

  lemma ReadsAs(other: OtherNumbers, line: string, name: string, text: string, x: real)
    requires line != "" && line[0] != '#' && Strip(line) == line
    requires NameAndValue(line) == Some((name, text)) && Number(other, text) == Some(x)
    ensures ReadLine(other, line) == SampleEffect(other, line, name, x)
  {
  }

  lemma SampleLineRaises(other: OtherNumbers, base: string, labels: string, n: nat)
    requires PlainName(base)
    ensures ReadLine(other, SampleLine(base, labels, n)) == Raise(base, n as real)
  {
    SampleLineStrips(base, labels, n);
    SampleLineReads(base, labels, n);
    DecimalIsRead(other, n);
    ReadsAs(other, SampleLine(base, labels, n), base + "_total", Decimal(n), n as real);
    NameOfCounter(base);
  }

  lemma CommentIsSkipped(other: OtherNumbers, line: string)
    requires line != "" && line[0] == '#' && !IsSpace(line[|line| - 1])
    ensures ReadLine(other, line) == Nothing
  {
    StripKeeps(line);
  }

  // ---------------------------------------------------------------- a gauge line

  predicate NoSpaces(s: string) {
    forall i :: 0 <= i < |s| ==> !IsSpace(s[i])
  }

  lemma {:induction false} WordLengthIs(s: string, n: nat)
    requires n <= |s| && NoSpaces(s[..n]) && (n < |s| ==> IsSpace(s[n]))
    ensures WordLength(s) == n
  {
    if n > 0 {
      assert !IsSpace(s[..n][0]);
      assert s[1..][..n - 1] == s[..n][1..];
      WordLengthIs(s[1..], n - 1);
    }
  }

  lemma WordsOfOne(b: string)
    requires b != [] && NoSpaces(b)
    ensures Words(b) == [b]
  {
    assert b[..|b|] == b && b[|b|..] == [];
    WordLengthIs(b, |b|);
    assert Words(b) == [b] + Words([]);
  }

  lemma WordsOfTwo(a: string, b: string)
    requires a != [] && b != [] && NoSpaces(a) && NoSpaces(b)
    ensures Words(a + " " + b) == [a, b]
  {
    var s := a + " " + b;
    assert s[..|a|] == a && s[|a|..] == [' '] + b && s[|a|] == ' ' && s[0] == a[0];
    WordLengthIs(s, |a|);
    assert ([' '] + b)[1..] == b;
    WordsOfOne(b);
    assert Words(s) == [a] + Words([' '] + b);
  }

  lemma {:induction false} NeverAt(s: string, t: string, i: nat)
    requires forall k :: 0 <= k <= i ==> !Occurs(s, t, k)
    ensures LastAt(s, t, i) == None
  {
    if i > 0 { NeverAt(s, t, i - 1); }
  }

  lemma DigitsHaveNoSpace(n: nat)
    ensures Decimal(n) != [] && NoSpaces(Decimal(n)) && '{' !in Decimal(n)
  {
    DecimalRoundTrip(n);
  }

  predicate GaugeName(name: string) {
    && name != [] && name[0] != '#' && NoSpaces(name) && '{' !in name
    && !EndsWith(name, "_bucket") && !EndsWith(name, "_sum") && !EndsWith(name, "_count")
    && LastOf(name, "_total") == None
  }

  lemma PlainLineReads(other: OtherNumbers, name: string, n: nat)
    requires name != [] && name[0] != '#' && NoSpaces(name) && '{' !in name
    ensures ReadLine(other, name + " " + Decimal(n)) == SampleEffect(other, name + " " + Decimal(n), name, n as real)
  {
    var line := name + " " + Decimal(n);
    DigitsHaveNoSpace(n);
    DigitsAreNotSpecial(n);
    assert line[0] == name[0] && line[|line| - 1] == Decimal(n)[|Decimal(n)| - 1];
    StripKeeps(line);
    WordsOfTwo(name, Decimal(n));
    FindNothing(line, '{');
    DecimalIsRead(other, n);
    ReadsAs(other, line, name, Decimal(n), n as real);
  }

  lemma GaugeLineReads(other: OtherNumbers, name: string, n: nat)
    requires GaugeName(name)
    ensures ReadLine(other, name + " " + Decimal(n)) == SetGauge(name, n as real)
  {
    PlainLineReads(other, name, n);
  }

  // ---------------------------------------------------------------- a printed histogram

  function BucketLine(base: string, bound: string, n: nat): string {
    base + "_bucket" + ("{" + (LE + bound + "\"} " + Decimal(n)))
  }

  lemma {:induction false} FirstAtSkips(s: string, t: string, i: nat)
    requires t != [] && i + 1 + |t| <= |s| && s[i] != t[0] && s[i + 1..i + 1 + |t|] == t
    ensures FirstAt(s, t, i) == Some(i + 1)
  {
    assert s[i..i + |t|][0] == s[i];
    assert Occurs(s, t, i + 1);
  }

  lemma GroupedAtBrace(name: string, le: string, bound: string, digits: string)
    ensures name + ("{" + (le + bound + "\"} " + digits)) == name + ['{'] + (le + bound + "\"} " + digits)
  {
  }

  lemma GroupedAtEnd(name: string, le: string, bound: string, digits: string)
    ensures name + ("{" + (le + bound + "\"} " + digits)) == (name + "{" + le + bound + "\"") + ['}'] + (" " + digits)
  {
  }

  lemma BucketLineStrips(base: string, bound: string, n: nat)
    requires PlainName(base)
    ensures var line := BucketLine(base, bound, n); line[0] == base[0] && Strip(line) == line
  {
    var line := BucketLine(base, bound, n);
    DigitsAreNotSpecial(n);
    GroupedAtEnd(base + "_bucket", LE, bound, Decimal(n));
    assert line[|line| - 1] == Decimal(n)[|Decimal(n)| - 1];
    StripKeeps(line);
  }

  lemma BucketLineName(base: string, bound: string, n: nat)
    requires PlainName(base)
    ensures var line, name := BucketLine(base, bound, n), base + "_bucket";
      && Find(line, '{') == |name| < |line| && line[..|name|] == name
      && line[|name|] == '{' && line[|name| + 1..] == LE + bound + "\"} " + Decimal(n)
  {
    var name, rest := base + "_bucket", LE + bound + "\"} " + Decimal(n);
    GroupedAtBrace(name, LE, bound, Decimal(n));
    assert '{' !in name;
    FindInSum(name, '{', rest);
    Behind(name, rest);
  }

  lemma Behind(name: string, rest: string)
    ensures var s := name + ['{'] + rest; s[..|name|] == name && s[|name|] == '{' && s[|name| + 1..] == rest
  {
  }

  lemma BucketLineValue(base: string, bound: string, n: nat)
    requires PlainName(base)
    ensures NameAndValue(BucketLine(base, bound, n)) == Some((base + "_bucket", Decimal(n)))
  {
    var front, tail := base + "_bucket" + "{" + LE + bound + "\"", " " + Decimal(n);
    BucketLineName(base, bound, n);
    DigitsAreNotSpecial(n);
    GroupedAtEnd(base + "_bucket", LE, bound, Decimal(n));
    AfterLastInSum(front, '}', tail);
    TailOf(front, tail);
    StripNumber(n);
  }

  lemma TailOf(front: string, tail: string)
    ensures (front + ['}'] + tail)[|front| + 1..] == tail
  {
  }

  /** The bound between the quotes behind the position of the brace. */
  lemma BoundAfterBrace(other: OtherNumbers, line: string, at: nat, bound: string, behind: string)
    requires at < |line| && line[at] == '{' && line[at + 1..] == LE + (bound + ['"'] + behind) && '"' !in bound
    ensures BoundOf(other, line, at) ==
      if bound == "+Inf" then Some(Infinite)
      else match Number(other, bound) case None => None case Some(x) => Some(Finite(x))
  {
    var rest := bound + ['"'] + behind;
    assert line[at + 1..at + 1 + |LE|] == line[at + 1..][..|LE|] == LE;
    FirstAtSkips(line, LE, at);
    assert line[at + 1 + |LE|..] == line[at + 1..][|LE|..] == rest;
    FindInSum(bound, '"', behind);
    assert rest[..|bound|] == bound;
  }

  lemma QuotedBound(le: string, bound: string, digits: string)
    ensures le + bound + "\"} " + digits == le + (bound + ['"'] + ("} " + digits))
  {
  }

  lemma NameOfBucket(base: string)
    ensures var name := base + "_bucket"; EndsWith(name, "_bucket") && name[..|name| - 7] == base
  {
  }

  lemma BucketLineEffect(other: OtherNumbers, base: string, bound: string, n: nat)
    requires PlainName(base) && '"' !in bound
    ensures ReadLine(other, BucketLine(base, bound, n)) ==
      if bound == "+Inf" then AddBucket(base, Infinite, n)
      else match Number(other, bound) case None => Failure case Some(x) => AddBucket(base, Finite(x), n)
  {
    var line, name := BucketLine(base, bound, n), base + "_bucket";
    BucketLineStrips(base, bound, n);
    BucketLineValue(base, bound, n);
    DecimalIsRead(other, n);
    ReadsAs(other, line, name, Decimal(n), n as real);
    BucketLineName(base, bound, n);
    QuotedBound(LE, bound, Decimal(n));
    BoundAfterBrace(other, line, |name|, bound, "} " + Decimal(n));
    NameOfBucket(base);
  }

  /** A bucket line adds its bucket to its histogram. */
  lemma BucketLineReads(other: OtherNumbers, base: string, bound: nat, n: nat)
    requires PlainName(base)
    ensures ReadLine(other, BucketLine(base, Decimal(bound), n)) == AddBucket(base, Finite(bound as real), n)
    ensures ReadLine(other, BucketLine(base, "+Inf", n)) == AddBucket(base, Infinite, n)
  {
    DecimalRoundTrip(bound);
    DecimalIsRead(other, bound);
    assert Decimal(bound)[0] != '+';
    BucketLineEffect(other, base, Decimal(bound), n);
    BucketLineEffect(other, base, "+Inf", n);
  }

  lemma SumIsRead(other: OtherNumbers, base: string, sum: nat)
    requires PlainName(base) && NoSpaces(base)
    ensures ReadLine(other, base + "_sum" + " " + Decimal(sum)) == SetSum(base, sum as real)
  {
    PlainLineReads(other, base + "_sum", sum);
    SuffixIs(base, "_sum");
    LastCharDecides(base + "_sum", "_bucket");
  }

  lemma CountIsRead(other: OtherNumbers, base: string, total: nat)
    requires PlainName(base) && NoSpaces(base)
    ensures ReadLine(other, base + "_count" + " " + Decimal(total)) == SetCount(base, total)
  {
    PlainLineReads(other, base + "_count", total);
    SuffixIs(base, "_count");
    LastCharDecides(base + "_count", "_sum");
    NoBucketCount(base);
  }

  lemma SuffixIs(base: string, suffix: string)
    ensures EndsWith(base + suffix, suffix) && (base + suffix)[..|base + suffix| - |suffix|] == base
  {
  }

  lemma NoBucketCount(base: string)
    ensures !EndsWith(base + "_count", "_bucket")
  {
    var s := base + "_count";
    if |s| >= 7 { assert s[|s| - 7..][5] == s[|s| - 2] == 'n' && "_bucket"[5] == 'e'; }
  }

  function BucketLines(base: string, bounds: seq<nat>, counts: seq<nat>): seq<string>
    requires |bounds| == |counts|
  {
    seq(|bounds|, i requires 0 <= i < |bounds| => BucketLine(base, Decimal(bounds[i]), counts[i]))
  }

  function FiniteBuckets(bounds: seq<nat>, counts: seq<nat>): seq<(Bound, int)>
    requires |bounds| == |counts|
  {
    seq(|bounds|, i requires 0 <= i < |bounds| => (Finite(bounds[i] as real), counts[i] as int))
  }

  function AddBuckets(base: string, bounds: seq<nat>, counts: seq<nat>): seq<Effect>
    requires |bounds| == |counts|
  {
    seq(|bounds|, i requires 0 <= i < |bounds| => AddBucket(base, Finite(bounds[i] as real), counts[i]))
  }

  lemma BucketLinesAdd(other: OtherNumbers, base: string, bounds: seq<nat>, counts: seq<nat>)
    requires PlainName(base) && |bounds| == |counts|
    ensures Effects(other, BucketLines(base, bounds, counts)) == AddBuckets(base, bounds, counts)
  {
    forall i | 0 <= i < |bounds|
      ensures ReadLine(other, BucketLines(base, bounds, counts)[i]) == AddBuckets(base, bounds, counts)[i]
    {
      BucketLineReads(other, base, bounds[i], counts[i]);
    }
  }

  /** The metrics of a single histogram. */
  function Only(base: string, h: Histogram): Metrics {
    EMPTY.(histos := map[base := h])
  }

  lemma OnlyStep(base: string, h: Histogram, le: Bound, x: real, n: int)
    ensures Apply(Only(base, h), AddBucket(base, le, n)) == Some(Only(base, h.(buckets := h.buckets + [(le, n)])))
    ensures Apply(Only(base, h), SetSum(base, x)) == Some(Only(base, h.(sum := x)))
    ensures Apply(Only(base, h), SetCount(base, n)) == Some(Only(base, h.(count := n)))
  {
    assert forall g: Histogram :: map[base := h][base := g] == map[base := g];
  }

  lemma {:induction false} BucketsAreAdded(base: string, bounds: seq<nat>, counts: seq<nat>)
    requires |bounds| == |counts| > 0
    ensures ApplyAll(EMPTY, AddBuckets(base, bounds, counts))
         == Some(Only(base, Histogram(FiniteBuckets(bounds, counts), 0.0, 0)))
  {
    var last := |bounds| - 1;
    assert AddBuckets(base, bounds, counts)[..last] == AddBuckets(base, bounds[..last], counts[..last]);
    assert FiniteBuckets(bounds, counts)
        == FiniteBuckets(bounds[..last], counts[..last]) + [(Finite(bounds[last] as real), counts[last] as int)];
    if last == 0 {
      assert AddBuckets(base, bounds[..last], counts[..last]) == [];
      assert FiniteBuckets(bounds[..last], counts[..last]) == [];
    } else {
      BucketsAreAdded(base, bounds[..last], counts[..last]);
      OnlyStep(base, Histogram(FiniteBuckets(bounds[..last], counts[..last]), 0.0, 0), Finite(bounds[last] as real),
               0.0, counts[last]);
    }
  }

  /** The lines of a histogram: its buckets, the infinite one, the sum and the count. */
  function HistogramLines(base: string, bounds: seq<nat>, counts: seq<nat>, sum: nat, total: nat): seq<string>
    requires |bounds| == |counts|
  {
    BucketLines(base, bounds, counts)
    + [BucketLine(base, "+Inf", total), base + "_sum" + " " + Decimal(sum), base + "_count" + " " + Decimal(total)]
  }

  /** A printed histogram is read back, bucket by bucket and in order. */
  lemma HistogramIsRead(other: OtherNumbers, base: string, bounds: seq<nat>, counts: seq<nat>, sum: nat, total: nat)
    requires PlainName(base) && NoSpaces(base) && |bounds| == |counts| > 0
    ensures ApplyAll(EMPTY, Effects(other, HistogramLines(base, bounds, counts, sum, total)))
         == Some(Only(base, Histogram(FiniteBuckets(bounds, counts) + [(Infinite, total as int)], sum as real, total)))
  {
    var buckets, inf := BucketLines(base, bounds, counts), BucketLine(base, "+Inf", total);
    var sumLine, countLine := base + "_sum" + " " + Decimal(sum), base + "_count" + " " + Decimal(total);
    BucketLinesAdd(other, base, bounds, counts);
    BucketsAreAdded(base, bounds, counts);
    BucketLineReads(other, base, 0, total);
    SumIsRead(other, base, sum);
    CountIsRead(other, base, total);
    EffectsOfSum(other, buckets, [inf, sumLine, countLine]);
    ThreeEffects(other, inf, sumLine, countLine);
    OneByOne(EMPTY, Effects(other, buckets), Effects(other, [inf, sumLine, countLine]));
    ThreeMore(base, FiniteBuckets(bounds, counts), sum, total);
  }

  lemma ThreeEffects(other: OtherNumbers, a: string, b: string, c: string)
    ensures Effects(other, [a, b, c]) == [ReadLine(other, a), ReadLine(other, b), ReadLine(other, c)]
  {
  }

  lemma ThreeMore(base: string, buckets: seq<(Bound, int)>, sum: nat, total: nat)
    ensures
      ApplyAll(Only(base, Histogram(buckets, 0.0, 0)),
               [AddBucket(base, Infinite, total), SetSum(base, sum as real), SetCount(base, total)])
      == Some(Only(base, Histogram(buckets + [(Infinite, total as int)], sum as real, total)))
  {
    var a, b, c := AddBucket(base, Infinite, total), SetSum(base, sum as real), SetCount(base, total);
    var h := Histogram(buckets, 0.0, 0);
    var added := h.(buckets := buckets + [(Infinite, total as int)]);
    OnlyStep(base, h, Infinite, 0.0, total);
    OnlyStep(base, added, Infinite, sum as real, 0);
    OnlyStep(base, added.(sum := sum as real), Infinite, 0.0, total);
    assert [a, b, c][..2] == [a, b] && [a, b][..1] == [a] && [a][..0] == [];
    assert ApplyAll(Only(base, h), [a]) == Some(Only(base, added));
    assert ApplyAll(Only(base, h), [a, b]) == Some(Only(base, added.(sum := sum as real)));
  }
}

module MetricsExporter {
  import opened Wrappers
  import opened TextTools
  import opened Prometheus

  /** A row of the request log; absent fields and empty texts fall back to defaults. */
  datatype Row = Row(model: Option<string>, route: Option<string>, status: Status, error: Option<string>,
                     tokensIn: Option<nat>, tokensOut: Option<nat>)

  /** The status column; a stored NULL is neither absent nor a code. */
  datatype Status = Absent | Null | Code(code: nat)

  datatype Anomaly = Anomaly(category: string, severity: string)

  /** Counts by key, in the order in which the keys first appeared. */
  type Table<K> = seq<(K, nat)>

  function Add<K(==)>(table: Table<K>, key: K, n: nat): Table<K> {
    if table == [] then [(key, n)]
    else if table[0].0 == key then [(key, table[0].1 + n)] + table[1..]
    else [table[0]] + Add(table[1..], key, n)
  }

  function Total<K>(table: Table<K>): nat {
    if table == [] then 0 else table[0].1 + Total(table[1..])
  }

  lemma {:induction false} TotalOfAdd<K>(table: Table<K>, key: K, n: nat)
    ensures Total(Add(table, key, n)) == Total(table) + n
  {
    if table == [] {
      assert [(key, n)][1..] == [];
    } else if table[0].0 == key {
      assert ([(key, table[0].1 + n)] + table[1..])[1..] == table[1..];
    } else {
      TotalOfAdd(table[1..], key, n);
      assert ([table[0]] + Add(table[1..], key, n))[1..] == Add(table[1..], key, n);
    }
  }

  ghost predicate KeysFit<K>(table: Table<K>, labels: K -> string) {
    forall i :: 0 <= i < |table| ==> OneLine(labels(table[i].0))
  }

  lemma {:induction false} AddFits<K>(table: Table<K>, key: K, n: nat, labels: K -> string)
    requires KeysFit(table, labels) && OneLine(labels(key))
    ensures KeysFit(Add(table, key, n), labels)
  {
    if table != [] && table[0].0 != key {
      assert KeysFit(table[1..], labels);
      AddFits(table[1..], key, n, labels);
    }
  }

  // ---------------------------------------------------------------- counting rows

  function Or(text: Option<string>, default: string): string {
    if text == None || text.value == "" then default else text.value
  }

  function OrZero(n: Option<nat>): nat {
    if n == None then 0 else n.value
  }

  function StatusText(status: Status): string {
    match status
    case Absent => "0"
    case Null => "None"
    case Code(n) => Decimal(n)
  }

  function RequestKey(r: Row): (string, string, string) {
    (Or(r.model, "unknown"), Or(r.route, "local"), StatusText(r.status))
  }

  /** Only an absent status counts as 200. */
  predicate Failed(r: Row) {
    r.status.Null? || (r.status.Code? && r.status.code != 200)
  }

  function ErrorKey(r: Row): (string, string) {
    (Or(r.model, "unknown"), Or(r.error, "unknown"))
  }

  function ModelKey(r: Row): string {
    Or(r.model, "unknown")
  }

  function AnomalyKey(a: Anomaly): (string, string) {
    (Or(Some(a.category), "unknown"), Or(Some(a.severity), "unknown"))
  }

  function RequestTable(rows: seq<Row>): Table<(string, string, string)> {
    if rows == [] then [] else Add(RequestTable(rows[..|rows| - 1]), RequestKey(rows[|rows| - 1]), 1)
  }

  function ErrorTable(rows: seq<Row>): Table<(string, string)> {
    if rows == [] then []
    else
      var before, r := ErrorTable(rows[..|rows| - 1]), rows[|rows| - 1];
      if Failed(r) then Add(before, ErrorKey(r), 1) else before
  }

  function TokenTable(rows: seq<Row>, tokens: Row -> nat): Table<string> {
    if rows == [] then []
    else Add(TokenTable(rows[..|rows| - 1], tokens), ModelKey(rows[|rows| - 1]), tokens(rows[|rows| - 1]))
  }

  function AnomalyTable(events: seq<Anomaly>): Table<(string, string)> {
    if events == [] then [] else Add(AnomalyTable(events[..|events| - 1]), AnomalyKey(events[|events| - 1]), 1)
  }

  function TokensIn(r: Row): nat { OrZero(r.tokensIn) }

  function TokensOut(r: Row): nat { OrZero(r.tokensOut) }

  function FailedRows(rows: seq<Row>): nat {
    if rows == [] then 0 else FailedRows(rows[..|rows| - 1]) + if Failed(rows[|rows| - 1]) then 1 else 0
  }

  function Tokens(rows: seq<Row>, tokens: Row -> nat): nat {
    if rows == [] then 0 else Tokens(rows[..|rows| - 1], tokens) + tokens(rows[|rows| - 1])
  }

  /** Grouping by labels loses nothing. */
  lemma {:induction false} RequestsAreCounted(rows: seq<Row>)
    ensures Total(RequestTable(rows)) == |rows|
  {
    if rows != [] {
      RequestsAreCounted(rows[..|rows| - 1]);
      TotalOfAdd(RequestTable(rows[..|rows| - 1]), RequestKey(rows[|rows| - 1]), 1);
    }
  }

  lemma {:induction false} ErrorsAreCounted(rows: seq<Row>)
    ensures Total(ErrorTable(rows)) == FailedRows(rows)
  {
    if rows != [] {
      ErrorsAreCounted(rows[..|rows| - 1]);
      TotalOfAdd(ErrorTable(rows[..|rows| - 1]), ErrorKey(rows[|rows| - 1]), 1);
    }
  }

  lemma {:induction false} TokensAreCounted(rows: seq<Row>, tokens: Row -> nat)
    ensures Total(TokenTable(rows, tokens)) == Tokens(rows, tokens)
  {
    if rows != [] {
      var earlier, r := rows[..|rows| - 1], rows[|rows| - 1];
      TokensAreCounted(earlier, tokens);
      TotalOfAdd(TokenTable(earlier, tokens), ModelKey(r), tokens(r));
    }
  }

  lemma {:induction false} AnomaliesAreCounted(events: seq<Anomaly>)
    ensures Total(AnomalyTable(events)) == |events|
  {
    if events != [] {
      AnomaliesAreCounted(events[..|events| - 1]);
      TotalOfAdd(AnomalyTable(events[..|events| - 1]), AnomalyKey(events[|events| - 1]), 1);
    }
  }

  // ---------------------------------------------------------------- counts by label

  function CountFor<K(==)>(table: Table<K>, key: K): nat {
    if table == [] then 0 else (if table[0].0 == key then table[0].1 else 0) + CountFor(table[1..], key)
  }

  lemma {:induction false} CountForAdd<K>(table: Table<K>, key: K, n: nat, k: K)
    ensures CountFor(Add(table, key, n), k) == CountFor(table, k) + if k == key then n else 0
  {
    if table == [] {
      assert [(key, n)][1..] == [];
    } else if table[0].0 == key {
      assert ([(key, table[0].1 + n)] + table[1..])[1..] == table[1..];
    } else {
      CountForAdd(table[1..], key, n, k);
      assert ([table[0]] + Add(table[1..], key, n))[1..] == Add(table[1..], key, n);
    }
  }

  /** A field that is shown like this; what is absent or empty is shown as its default. */
  predicate Shown(field: Option<string>, default: string, text: string) {
    if field.Some? && field.value != "" then text == field.value else text == default
  }

  predicate ShownStatus(status: Status, text: string) {
    || (status.Absent? && text == "0")
    || (status.Null? && text == "None")
    || (status.Code? && text == Decimal(status.code))
  }

  function RequestsWith(rows: seq<Row>, model: string, route: string, status: string): nat {
    if rows == [] then 0
    else
      var r := rows[|rows| - 1];
      RequestsWith(rows[..|rows| - 1], model, route, status)
      + if Shown(r.model, "unknown", model) && Shown(r.route, "local", route) && ShownStatus(r.status, status)
        then 1 else 0
  }

  /** Every label set has the number of the rows that show it. */
  lemma {:induction false} RequestsByLabel(rows: seq<Row>, model: string, route: string, status: string)
    ensures CountFor(RequestTable(rows), (model, route, status)) == RequestsWith(rows, model, route, status)
  {
    if rows != [] {
      var earlier, r := rows[..|rows| - 1], rows[|rows| - 1];
      RequestsByLabel(earlier, model, route, status);
      CountForAdd(RequestTable(earlier), RequestKey(r), 1, (model, route, status));
    }
  }

  function ErrorsWith(rows: seq<Row>, model: string, error: string): nat {
    if rows == [] then 0
    else
      var r := rows[|rows| - 1];
      ErrorsWith(rows[..|rows| - 1], model, error)
      + if (r.status.Null? || (r.status.Code? && r.status.code != 200))
           && Shown(r.model, "unknown", model) && Shown(r.error, "unknown", error) then 1 else 0
  }

  lemma {:induction false} ErrorsByLabel(rows: seq<Row>, model: string, error: string)
    ensures CountFor(ErrorTable(rows), (model, error)) == ErrorsWith(rows, model, error)
  {
    if rows != [] {
      var earlier, r := rows[..|rows| - 1], rows[|rows| - 1];
      ErrorsByLabel(earlier, model, error);
      if Failed(r) { CountForAdd(ErrorTable(earlier), ErrorKey(r), 1, (model, error)); }
    }
  }

  function TokensWith(rows: seq<Row>, model: string, tokens: Row -> nat): nat {
    if rows == [] then 0
    else
      var r := rows[|rows| - 1];
      TokensWith(rows[..|rows| - 1], model, tokens) + if Shown(r.model, "unknown", model) then tokens(r) else 0
  }

  lemma {:induction false} TokensByModel(rows: seq<Row>, model: string, tokens: Row -> nat)
    ensures CountFor(TokenTable(rows, tokens), model) == TokensWith(rows, model, tokens)
  {
    if rows != [] {
      var earlier, r := rows[..|rows| - 1], rows[|rows| - 1];
      TokensByModel(earlier, model, tokens);
      CountForAdd(TokenTable(earlier, tokens), ModelKey(r), tokens(r), model);
    }
  }

  function AnomaliesWith(events: seq<Anomaly>, category: string, severity: string): nat {
    if events == [] then 0
    else
      var a := events[|events| - 1];
      AnomaliesWith(events[..|events| - 1], category, severity)
      + if Shown(Some(a.category), "unknown", category) && Shown(Some(a.severity), "unknown", severity) then 1 else 0
  }

  lemma {:induction false} AnomaliesByLabel(events: seq<Anomaly>, category: string, severity: string)
    ensures CountFor(AnomalyTable(events), (category, severity)) == AnomaliesWith(events, category, severity)
  {
    if events != [] {
      var earlier, a := events[..|events| - 1], events[|events| - 1];
      AnomaliesByLabel(earlier, category, severity);
      CountForAdd(AnomalyTable(earlier), AnomalyKey(a), 1, (category, severity));
    }
  }

  method RequestCounts(rows: seq<Row>) returns (counts: Table<(string, string, string)>)
    ensures counts == RequestTable(rows)
  {
    counts := [];
    for i := 0 to |rows|
      invariant counts == RequestTable(rows[..i])
    {
      assert rows[..i + 1][..i] == rows[..i];
      counts := Add(counts, RequestKey(rows[i]), 1);
    }
    assert rows[..|rows|] == rows;
  }

  method ErrorCounts(rows: seq<Row>) returns (counts: Table<(string, string)>)
    ensures counts == ErrorTable(rows)
  {
    counts := [];
    for i := 0 to |rows|
      invariant counts == ErrorTable(rows[..i])
    {
      assert rows[..i + 1][..i] == rows[..i];
      if Failed(rows[i]) { counts := Add(counts, ErrorKey(rows[i]), 1); }
    }
    assert rows[..|rows|] == rows;
  }

  method TokenCounts(rows: seq<Row>, tokens: Row -> nat) returns (counts: Table<string>)
    ensures counts == TokenTable(rows, tokens)
  {
    counts := [];
    for i := 0 to |rows|
      invariant counts == TokenTable(rows[..i], tokens)
    {
      assert rows[..i + 1][..i] == rows[..i];
      counts := Add(counts, ModelKey(rows[i]), tokens(rows[i]));
    }
    assert rows[..|rows|] == rows;
  }

  method AnomalyCounts(events: seq<Anomaly>) returns (counts: Table<(string, string)>)
    ensures counts == AnomalyTable(events)
  {
    counts := [];
    for i := 0 to |events|
      invariant counts == AnomalyTable(events[..i])
    {
      assert events[..i + 1][..i] == events[..i];
      counts := Add(counts, AnomalyKey(events[i]), 1);
    }
    assert events[..|events|] == events;
  }

  // ---------------------------------------------------------------- the page

  function Label(name: string, text: string): string {
    name + "=\"" + text + "\""
  }

  function RequestLabels(k: (string, string, string)): string {
    Label("model", k.0) + "," + Label("route", k.1) + "," + Label("status", k.2)
  }

  function ErrorLabels(k: (string, string)): string {
    Label("model", k.0) + "," + Label("error", k.1)
  }

  function ModelLabels(model: string): string {
    Label("model", model)
  }

  function AnomalyLabels(k: (string, string)): string {
    Label("category", k.0) + "," + Label("severity", k.1)
  }

  lemma OneLabelPrinted(base: string, name: string, text: string, n: nat)
    ensures SampleLine(base, Label(name, text), n)
         == base + "_total" + "{" + name + "=\"" + text + "\"} " + Decimal(n)
  {
    SampleLineIs(base, Label(name, text), n);
  }

  lemma TwoLabelsPrinted(base: string, name: string, text: string, name2: string, text2: string, n: nat)
    ensures SampleLine(base, Label(name, text) + "," + Label(name2, text2), n)
         == base + "_total" + "{" + name + "=\"" + text + "\"," + name2 + "=\"" + text2 + "\"} " + Decimal(n)
  {
    SampleLineIs(base, Label(name, text) + "," + Label(name2, text2), n);
  }

  lemma ThreeLabelsPrinted(base: string, name: string, text: string, name2: string, text2: string, name3: string,
                           text3: string, n: nat)
    ensures SampleLine(base, Label(name, text) + "," + Label(name2, text2) + "," + Label(name3, text3), n)
         == base + "_total" + "{" + name + "=\"" + text + "\"," + name2 + "=\"" + text2 + "\"," + name3 + "=\""
            + text3 + "\"} " + Decimal(n)
  {
    SampleLineIs(base, Label(name, text) + "," + Label(name2, text2) + "," + Label(name3, text3), n);
  }

  /** The lines as they are printed. */
  lemma LinesArePrinted(model: string, text: string, status: string, n: nat)
    ensures SampleLine("iff_requests", RequestLabels((model, text, status)), n)
         == "iff_requests" + "_total" + "{" + "model" + "=\"" + model + "\"," + "route" + "=\"" + text + "\","
            + "status" + "=\"" + status + "\"} " + Decimal(n)
    ensures SampleLine("iff_errors", ErrorLabels((model, text)), n)
         == "iff_errors" + "_total" + "{" + "model" + "=\"" + model + "\"," + "error" + "=\"" + text + "\"} "
            + Decimal(n)
    ensures SampleLine("iff_tokens_in", ModelLabels(model), n)
         == "iff_tokens_in" + "_total" + "{" + "model" + "=\"" + model + "\"} " + Decimal(n)
    ensures SampleLine("iff_anomalies", AnomalyLabels((model, text)), n)
         == "iff_anomalies" + "_total" + "{" + "category" + "=\"" + model + "\"," + "severity" + "=\"" + text + "\"} "
            + Decimal(n)
  {
    ThreeLabelsPrinted("iff_requests", "model", model, "route", text, "status", status, n);
    TwoLabelsPrinted("iff_errors", "model", model, "error", text, n);
    OneLabelPrinted("iff_tokens_in", "model", model, n);
    TwoLabelsPrinted("iff_anomalies", "category", model, "severity", text, n);
  }

  function TableLines<K>(base: string, table: Table<K>, labels: K -> string): seq<string> {
    seq(|table|, i requires 0 <= i < |table| => SampleLine(base, labels(table[i].0), table[i].1))
  }

  function Heading(base: string, help: string): seq<string> {
    ["# HELP " + base + "_total " + help, "# TYPE " + base + "_total counter"]
  }

  function Section<K>(base: string, help: string, table: Table<K>, labels: K -> string): seq<string> {
    Heading(base, help) + TableLines(base, table, labels)
  }

  const UPTIME := "iff_uptime_seconds"

  function UptimeLines(uptime: nat): seq<string> {
    ["# HELP " + UPTIME + " Process uptime in seconds", "# TYPE " + UPTIME + " gauge", UPTIME + " " + Decimal(uptime)]
  }

  /** What the exporter reads: the log is queried once for each table, and may have grown in between. */
  datatype Log = Log(requests: seq<Row>, errors: seq<Row>, tokensIn: seq<Row>, tokensOut: seq<Row>)

  function RequestLines(uptime: nat, log: Log): seq<string> {
    UptimeLines(uptime)
    + Section("iff_requests", "Total requests served", RequestTable(log.requests), RequestLabels)
    + Section("iff_errors", "Total erroneous requests", ErrorTable(log.errors), ErrorLabels)
  }

  function RowLines(uptime: nat, log: Log): seq<string> {
    RequestLines(uptime, log)
    + Section("iff_tokens_in", "Input tokens", TokenTable(log.tokensIn, TokensIn), ModelLabels)
    + Section("iff_tokens_out", "Output tokens", TokenTable(log.tokensOut, TokensOut), ModelLabels)
  }

  function PageLines(uptime: nat, log: Log, events: seq<Anomaly>): seq<string> {
    RowLines(uptime, log)
    + Section("iff_anomalies", "Total anomaly events", AnomalyTable(events), AnomalyLabels)
    + [""]
  }

  method AppendSection<K>(lines: seq<string>, base: string, help: string, table: Table<K>, labels: K -> string)
    returns (longer: seq<string>)
    ensures longer == lines + Section(base, help, table, labels)
  {
    longer := lines + ["# HELP " + base + "_total " + help];
    longer := longer + ["# TYPE " + base + "_total counter"];
    for i := 0 to |table|
      invariant longer == lines + Heading(base, help) + TableLines(base, table[..i], labels)
    {
      longer := longer + [SampleLine(base, labels(table[i].0), table[i].1)];
      assert TableLines(base, table[..i + 1], labels)
          == TableLines(base, table[..i], labels) + [SampleLine(base, labels(table[i].0), table[i].1)];
    }
    assert table[..|table|] == table;
  }

  method Generate(uptime: nat, log: Log, events: seq<Anomaly>) returns (text: string)
    ensures text == Join(PageLines(uptime, log, events))
  {
    var lines := ["# HELP " + UPTIME + " Process uptime in seconds"];
    lines := lines + ["# TYPE " + UPTIME + " gauge"];
    lines := lines + [UPTIME + " " + Decimal(uptime)];
    assert lines == UptimeLines(uptime);
    var requests := RequestCounts(log.requests);
    lines := AppendSection(lines, "iff_requests", "Total requests served", requests, RequestLabels);
    var errors := ErrorCounts(log.errors);
    lines := AppendSection(lines, "iff_errors", "Total erroneous requests", errors, ErrorLabels);
    var tokensIn := TokenCounts(log.tokensIn, TokensIn);
    lines := AppendSection(lines, "iff_tokens_in", "Input tokens", tokensIn, ModelLabels);
    var tokensOut := TokenCounts(log.tokensOut, TokensOut);
    lines := AppendSection(lines, "iff_tokens_out", "Output tokens", tokensOut, ModelLabels);
    var anomalies := AnomalyCounts(events);
    lines := AppendSection(lines, "iff_anomalies", "Total anomaly events", anomalies, AnomalyLabels);
    lines := lines + [""];
    text := Join(lines);
  }

  // ---------------------------------------------------------------- reading the page back

  function Counts<K>(table: Table<K>): seq<nat> {
    seq(|table|, i requires 0 <= i < |table| => table[i].1)
  }

  lemma {:induction false} SumFromFront(x: nat, counts: seq<nat>)
    ensures Sum([x] + counts) == x + Sum(counts)
  {
    if counts == [] {
      assert [x] + counts == [x] && [x][..0] == [];
    } else {
      assert ([x] + counts)[..|counts|] == [x] + counts[..|counts| - 1];
      SumFromFront(x, counts[..|counts| - 1]);
    }
  }

  lemma {:induction false} TotalIsSum<K>(table: Table<K>)
    ensures Total(table) == Sum(Counts(table))
  {
    if table != [] {
      TotalIsSum(table[1..]);
      assert Counts(table) == [table[0].1] + Counts(table[1..]);
      SumFromFront(table[0].1, Counts(table[1..]));
    }
  }

  function After<K>(m: Metrics, base: string, table: Table<K>): Metrics {
    if table == [] then m else Raised(m, base, Total(table) as real)
  }

  lemma CounterAfter<K>(m: Metrics, base: string, table: Table<K>, b: string)
    ensures Counter(After(m, base, table), b) == Counter(m, b) + if b == base then Total(table) as real else 0.0
    ensures After(m, base, table).gauges == m.gauges
  {
  }

  lemma TableRaises<K>(other: OtherNumbers, base: string, table: Table<K>, labels: K -> string)
    requires PlainName(base)
    ensures Effects(other, TableLines(base, table, labels)) == Raises(base, Counts(table))
  {
    forall i | 0 <= i < |table|
      ensures Effects(other, TableLines(base, table, labels))[i] == Raises(base, Counts(table))[i]
    {
      SampleLineRaises(other, base, labels(table[i].0), table[i].1);
    }
  }

  lemma HeadingIsSkipped(other: OtherNumbers, base: string, help: string)
    requires help != "" && !IsSpace(help[|help| - 1])
    ensures Effects(other, Heading(base, help)) == [Nothing, Nothing]
  {
    var first, second := "# HELP " + base + "_total " + help, "# TYPE " + base + "_total counter";
    assert first[|first| - 1] == help[|help| - 1] && second[|second| - 1] == 'r';
    CommentIsSkipped(other, first);
    CommentIsSkipped(other, second);
  }

  lemma NothingTwice(m: Metrics, effects: seq<Effect>)
    ensures ApplyAll(m, [Nothing, Nothing] + effects) == ApplyAll(m, effects)
  {
    OneByOne(m, [Nothing, Nothing], effects);
    assert [Nothing, Nothing][..1] == [Nothing] && [Nothing][..0] == [];
    assert ApplyAll(m, [Nothing]) == Some(m);
  }

  lemma SectionIsRead<K>(other: OtherNumbers, m: Metrics, base: string, help: string, table: Table<K>,
                         labels: K -> string)
    requires PlainName(base) && help != "" && !IsSpace(help[|help| - 1])
    ensures ApplyAll(m, Effects(other, Section(base, help, table, labels))) == Some(After(m, base, table))
  {
    EffectsOfSum(other, Heading(base, help), TableLines(base, table, labels));
    HeadingIsSkipped(other, base, help);
    TableRaises(other, base, table, labels);
    NothingTwice(m, Raises(base, Counts(table)));
    RaisesAddUp(m, base, Counts(table));
    TotalIsSum(table);
  }

  lemma Then(other: OtherNumbers, m: Metrics, a: seq<string>, b: seq<string>, before: Metrics)
    requires ApplyAll(m, Effects(other, a)) == Some(before)
    ensures ApplyAll(m, Effects(other, a + b)) == ApplyAll(before, Effects(other, b))
  {
    EffectsOfSum(other, a, b);
    OneByOne(m, Effects(other, a), Effects(other, b));
  }

  lemma NoTotalInUptime(i: nat)
    ensures !Occurs(UPTIME, "_total", i)
  {
    if i + 6 <= |UPTIME| {
      assert "_total"[0] == '_' && "_total"[1] == 't';
      assert UPTIME[i] != '_' || UPTIME[i + 1] != 't';
      assert UPTIME[i..i + 6][0] == UPTIME[i] && UPTIME[i..i + 6][1] == UPTIME[i + 1];
    }
  }

  lemma UptimeIsPlain()
    ensures NoSpaces(UPTIME) && '{' !in UPTIME && OneLine(UPTIME)
  {
    assert forall i :: 0 <= i < |UPTIME| ==> UPTIME[i] == '_' || 'a' <= UPTIME[i] <= 'z';
  }

  lemma UptimeIsGauge()
    ensures GaugeName(UPTIME)
  {
    UptimeIsPlain();
    assert UPTIME[|UPTIME| - 1] == 's';
    LastCharDecides(UPTIME, "_bucket");
    LastCharDecides(UPTIME, "_sum");
    LastCharDecides(UPTIME, "_count");
    UptimeHasNoTotal();
  }

  lemma UptimeHasNoTotal()
    ensures LastOf(UPTIME, "_total") == None
  {
    forall i: nat ensures !Occurs(UPTIME, "_total", i) { NoTotalInUptime(i); }
    NeverAt(UPTIME, "_total", |UPTIME| - 6);
  }

  lemma CommentEndingIn(other: OtherNumbers, front: string, tail: string)
    requires front != "" && front[0] == '#' && tail != "" && !IsSpace(tail[|tail| - 1])
    ensures ReadLine(other, front + tail) == Nothing
  {
    assert (front + tail)[0] == front[0] && (front + tail)[|front + tail| - 1] == tail[|tail| - 1];
    CommentIsSkipped(other, front + tail);
  }

  lemma UptimeIsRead(other: OtherNumbers, uptime: nat)
    ensures ApplyAll(EMPTY, Effects(other, UptimeLines(uptime)))
         == Some(EMPTY.(gauges := map[UPTIME := uptime as real]))
  {
    CommentEndingIn(other, "# HELP " + UPTIME, " Process uptime in seconds");
    CommentEndingIn(other, "# TYPE " + UPTIME, " gauge");
    UptimeIsGauge();
    GaugeLineReads(other, UPTIME, uptime);
    EffectsOfThree(other, "# HELP " + UPTIME + " Process uptime in seconds", "# TYPE " + UPTIME + " gauge",
                   UPTIME + " " + Decimal(uptime));
    OneGauge(UPTIME, uptime as real);
  }

  lemma OneGauge(name: string, x: real)
    ensures ApplyAll(EMPTY, [Nothing, Nothing] + [SetGauge(name, x)]) == Some(EMPTY.(gauges := map[name := x]))
  {
    NothingTwice(EMPTY, [SetGauge(name, x)]);
    assert [SetGauge(name, x)][..0] == [];
  }

  lemma EffectsOfThree(other: OtherNumbers, a: string, b: string, c: string)
    ensures Effects(other, [a, b, c]) == [ReadLine(other, a), ReadLine(other, b)] + [ReadLine(other, c)]
  {
  }

  function AfterUptime(uptime: nat): Metrics {
    EMPTY.(gauges := map[UPTIME := uptime as real])
  }

  function AfterRequests(uptime: nat, log: Log): Metrics {
    After(After(AfterUptime(uptime), "iff_requests", RequestTable(log.requests)), "iff_errors", ErrorTable(log.errors))
  }

  function AfterRows(uptime: nat, log: Log): Metrics {
    After(After(AfterRequests(uptime, log),
      "iff_tokens_in", TokenTable(log.tokensIn, TokensIn)), "iff_tokens_out", TokenTable(log.tokensOut, TokensOut))
  }

  /** One section more. */
  lemma ThenSection<K>(other: OtherNumbers, lines: seq<string>, m: Metrics, base: string, help: string, table: Table<K>,
                       labels: K -> string)
    requires ApplyAll(EMPTY, Effects(other, lines)) == Some(m)
    requires PlainName(base) && help != "" && !IsSpace(help[|help| - 1])
    ensures ApplyAll(EMPTY, Effects(other, lines + Section(base, help, table, labels))) == Some(After(m, base, table))
  {
    Then(other, EMPTY, lines, Section(base, help, table, labels), m);
    SectionIsRead(other, m, base, help, table, labels);
  }

  lemma RequestsAreRead(other: OtherNumbers, uptime: nat, log: Log)
    ensures ApplyAll(EMPTY, Effects(other, RequestLines(uptime, log))) == Some(AfterRequests(uptime, log))
  {
    UptimeIsRead(other, uptime);
    var m, lines := AfterUptime(uptime), UptimeLines(uptime);
    ThenSection(other, lines, m, "iff_requests", "Total requests served", RequestTable(log.requests), RequestLabels);
    lines := lines + Section("iff_requests", "Total requests served", RequestTable(log.requests), RequestLabels);
    m := After(m, "iff_requests", RequestTable(log.requests));
    ThenSection(other, lines, m, "iff_errors", "Total erroneous requests", ErrorTable(log.errors), ErrorLabels);
  }

  lemma RowsAreRead(other: OtherNumbers, uptime: nat, log: Log)
    ensures ApplyAll(EMPTY, Effects(other, RowLines(uptime, log))) == Some(AfterRows(uptime, log))
  {
    RequestsAreRead(other, uptime, log);
    var m, lines := AfterRequests(uptime, log), RequestLines(uptime, log);
    ThenSection(other, lines, m, "iff_tokens_in", "Input tokens", TokenTable(log.tokensIn, TokensIn), ModelLabels);
    lines := lines + Section("iff_tokens_in", "Input tokens", TokenTable(log.tokensIn, TokensIn), ModelLabels);
    m := After(m, "iff_tokens_in", TokenTable(log.tokensIn, TokensIn));
    ThenSection(other, lines, m, "iff_tokens_out", "Output tokens", TokenTable(log.tokensOut, TokensOut), ModelLabels);
  }

  lemma PageIsRead(other: OtherNumbers, uptime: nat, log: Log, events: seq<Anomaly>)
    ensures ApplyAll(EMPTY, Effects(other, PageLines(uptime, log, events)))
         == Some(After(AfterRows(uptime, log), "iff_anomalies", AnomalyTable(events)))
  {
    RowsAreRead(other, uptime, log);
    var m, lines := AfterRows(uptime, log), RowLines(uptime, log);
    ThenSection(other, lines, m, "iff_anomalies", "Total anomaly events", AnomalyTable(events), AnomalyLabels);
    lines := lines + Section("iff_anomalies", "Total anomaly events", AnomalyTable(events), AnomalyLabels);
    m := After(m, "iff_anomalies", AnomalyTable(events));
    Then(other, EMPTY, lines, [""], m);
    EmptyLine(other, m);
  }

  lemma EmptyLine(other: OtherNumbers, m: Metrics)
    ensures ApplyAll(m, Effects(other, [""])) == Some(m)
  {
    assert Effects(other, [""]) == [Nothing] && [Nothing][..0] == [];
  }

  // ---------------------------------------------------------------- labels without line breaks

  predicate PlainRow(r: Row) {
    && (r.model.Some? ==> OneLine(r.model.value))
    && (r.route.Some? ==> OneLine(r.route.value))
    && (r.error.Some? ==> OneLine(r.error.value))
  }

  predicate PlainAnomaly(a: Anomaly) {
    OneLine(a.category) && OneLine(a.severity)
  }

  ghost predicate PlainRows(rows: seq<Row>) {
    forall i :: 0 <= i < |rows| ==> PlainRow(rows[i])
  }

  ghost predicate AllPlain(log: Log, events: seq<Anomaly>) {
    && PlainRows(log.requests) && PlainRows(log.errors) && PlainRows(log.tokensIn) && PlainRows(log.tokensOut)
    && (forall i :: 0 <= i < |events| ==> PlainAnomaly(events[i]))
  }

  lemma OneLineSum(a: string, b: string)
    requires OneLine(a) && OneLine(b)
    ensures OneLine(a + b)
  {
  }

  lemma LabelIsOneLine(name: string, text: string)
    requires OneLine(name) && OneLine(text)
    ensures OneLine(Label(name, text))
  {
  }

  lemma TwoLabels(name: string, text: string, more: string)
    requires OneLine(name) && OneLine(text) && OneLine(more)
    ensures OneLine(Label(name, text) + "," + more)
  {
    LabelIsOneLine(name, text);
    OneLineSum(Label(name, text), ",");
    OneLineSum(Label(name, text) + ",", more);
  }

  lemma StatusIsOneLine(status: Status)
    ensures OneLine(StatusText(status))
  {
    if status.Code? { DigitsAreNotSpecial(status.code); }
  }

  lemma RowLabelsAreOneLine(r: Row)
    requires PlainRow(r)
    ensures OneLine(RequestLabels(RequestKey(r))) && OneLine(ErrorLabels(ErrorKey(r)))
    ensures OneLine(ModelLabels(ModelKey(r)))
  {
    var k, e := RequestKey(r), ErrorKey(r);
    StatusIsOneLine(r.status);
    LabelIsOneLine("status", k.2);
    TwoLabels("model", k.0, Label("route", k.1));
    LabelIsOneLine("route", k.1);
    OneLineSum(Label("model", k.0) + "," + Label("route", k.1), ",");
    OneLineSum(Label("model", k.0) + "," + Label("route", k.1) + ",", Label("status", k.2));
    LabelIsOneLine("error", e.1);
    TwoLabels("model", e.0, Label("error", e.1));
    LabelIsOneLine("model", ModelKey(r));
  }

  lemma AnomalyLabelsAreOneLine(a: Anomaly)
    requires PlainAnomaly(a)
    ensures OneLine(AnomalyLabels(AnomalyKey(a)))
  {
    var k := AnomalyKey(a);
    LabelIsOneLine("severity", k.1);
    TwoLabels("category", k.0, Label("severity", k.1));
  }

  lemma {:induction false} RequestsFit(rows: seq<Row>)
    requires PlainRows(rows)
    ensures KeysFit(RequestTable(rows), RequestLabels)
  {
    if rows != [] {
      var earlier, r := rows[..|rows| - 1], rows[|rows| - 1];
      RequestsFit(earlier);
      RowLabelsAreOneLine(r);
      AddFits(RequestTable(earlier), RequestKey(r), 1, RequestLabels);
    }
  }

  lemma {:induction false} ErrorsFit(rows: seq<Row>)
    requires PlainRows(rows)
    ensures KeysFit(ErrorTable(rows), ErrorLabels)
  {
    if rows != [] {
      var earlier, r := rows[..|rows| - 1], rows[|rows| - 1];
      ErrorsFit(earlier);
      RowLabelsAreOneLine(r);
      AddFits(ErrorTable(earlier), ErrorKey(r), 1, ErrorLabels);
    }
  }

  lemma {:induction false} TokensFit(rows: seq<Row>, tokens: Row -> nat)
    requires PlainRows(rows)
    ensures KeysFit(TokenTable(rows, tokens), ModelLabels)
  {
    if rows != [] {
      var earlier, r := rows[..|rows| - 1], rows[|rows| - 1];
      TokensFit(earlier, tokens);
      RowLabelsAreOneLine(r);
      AddFits(TokenTable(earlier, tokens), ModelKey(r), tokens(r), ModelLabels);
    }
  }

  lemma {:induction false} AnomaliesFit(events: seq<Anomaly>)
    requires forall i :: 0 <= i < |events| ==> PlainAnomaly(events[i])
    ensures KeysFit(AnomalyTable(events), AnomalyLabels)
  {
    if events != [] {
      var earlier, a := events[..|events| - 1], events[|events| - 1];
      AnomaliesFit(earlier);
      AnomalyLabelsAreOneLine(a);
      AddFits(AnomalyTable(earlier), AnomalyKey(a), 1, AnomalyLabels);
    }
  }

  ghost predicate AllOneLine(lines: seq<string>) {
    forall i :: 0 <= i < |lines| ==> OneLine(lines[i])
  }

  lemma SectionIsOneLine<K>(base: string, help: string, table: Table<K>, labels: K -> string)
    requires OneLine(base) && OneLine(help) && KeysFit(table, labels)
    ensures AllOneLine(Section(base, help, table, labels))
  {
    assert OneLine("# HELP " + base + "_total " + help) && OneLine("# TYPE " + base + "_total counter");
    forall i | 0 <= i < |table| ensures OneLine(TableLines(base, table, labels)[i]) {
      SampleIsOneLine(base, labels(table[i].0), table[i].1);
    }
  }

  lemma SampleIsOneLine(base: string, labels: string, n: nat)
    requires OneLine(base) && OneLine(labels)
    ensures OneLine(SampleLine(base, labels, n))
  {
    SampleLineIs(base, labels, n);
    DigitsAreNotSpecial(n);
  }

  lemma UptimeIsOneLine(uptime: nat)
    ensures AllOneLine(UptimeLines(uptime))
  {
    UptimeIsPlain();
    DigitsAreNotSpecial(uptime);
    assert OneLine("# HELP " + UPTIME + " Process uptime in seconds");
    assert OneLine("# TYPE " + UPTIME + " gauge");
    assert OneLine(UPTIME + " " + Decimal(uptime));
  }

  lemma AllOneLineSum(a: seq<string>, b: seq<string>)
    requires AllOneLine(a) && AllOneLine(b)
    ensures AllOneLine(a + b)
  {
  }

  lemma PlusSection<K>(lines: seq<string>, base: string, help: string, table: Table<K>, labels: K -> string)
    requires AllOneLine(lines) && OneLine(base) && OneLine(help) && KeysFit(table, labels)
    ensures AllOneLine(lines + Section(base, help, table, labels))
  {
    SectionIsOneLine(base, help, table, labels);
    AllOneLineSum(lines, Section(base, help, table, labels));
  }

  lemma RequestTextsAreOneLine()
    ensures OneLine("iff_requests") && OneLine("Total requests served")
    ensures OneLine("iff_errors") && OneLine("Total erroneous requests")
  {
  }

  lemma TokenTextsAreOneLine()
    ensures OneLine("iff_tokens_in") && OneLine("Input tokens")
    ensures OneLine("iff_tokens_out") && OneLine("Output tokens")
  {
  }

  lemma RequestLinesAreOneLine(uptime: nat, log: Log)
    requires KeysFit(RequestTable(log.requests), RequestLabels) && KeysFit(ErrorTable(log.errors), ErrorLabels)
    ensures AllOneLine(RequestLines(uptime, log))
  {
    UptimeIsOneLine(uptime);
    RequestTextsAreOneLine();
    var lines := UptimeLines(uptime);
    PlusSection(lines, "iff_requests", "Total requests served", RequestTable(log.requests), RequestLabels);
    lines := lines + Section("iff_requests", "Total requests served", RequestTable(log.requests), RequestLabels);
    PlusSection(lines, "iff_errors", "Total erroneous requests", ErrorTable(log.errors), ErrorLabels);
  }

  lemma RowLinesAreOneLine(uptime: nat, log: Log, events: seq<Anomaly>)
    requires AllPlain(log, events)
    ensures AllOneLine(RowLines(uptime, log))
  {
    RequestsFit(log.requests);
    ErrorsFit(log.errors);
    TokensFit(log.tokensIn, TokensIn);
    TokensFit(log.tokensOut, TokensOut);
    RequestLinesAreOneLine(uptime, log);
    TokenTextsAreOneLine();
    var lines := RequestLines(uptime, log);
    PlusSection(lines, "iff_tokens_in", "Input tokens", TokenTable(log.tokensIn, TokensIn), ModelLabels);
    lines := lines + Section("iff_tokens_in", "Input tokens", TokenTable(log.tokensIn, TokensIn), ModelLabels);
    PlusSection(lines, "iff_tokens_out", "Output tokens", TokenTable(log.tokensOut, TokensOut), ModelLabels);
  }

  lemma AnomalyTextsAreOneLine()
    ensures OneLine("iff_anomalies") && OneLine("Total anomaly events") && AllOneLine([""])
  {
  }

  lemma PageIsLines(uptime: nat, log: Log, events: seq<Anomaly>)
    requires AllPlain(log, events)
    ensures Lines(Join(PageLines(uptime, log, events))) == PageLines(uptime, log, events)
  {
    RowLinesAreOneLine(uptime, log, events);
    AnomaliesFit(events);
    AnomalyTextsAreOneLine();
    var section := Section("iff_anomalies", "Total anomaly events", AnomalyTable(events), AnomalyLabels);
    PlusSection(RowLines(uptime, log), "iff_anomalies", "Total anomaly events", AnomalyTable(events), AnomalyLabels);
    AllOneLineSum(RowLines(uptime, log) + section, [""]);
    SplitInvertsJoin(PageLines(uptime, log, events));
  }

  /** Parsing the printed page gives back the totals of the rows and events that each table was made from. */
  lemma ParserInvertsExporter(other: OtherNumbers, uptime: nat, log: Log, events: seq<Anomaly>)
    requires AllPlain(log, events)
    ensures var r := Parsed(other, Join(PageLines(uptime, log, events)));
      && r.Some?
      && Counter(r.value, "iff_requests") == |log.requests| as real
      && Counter(r.value, "iff_errors") == FailedRows(log.errors) as real
      && Counter(r.value, "iff_tokens_in") == Tokens(log.tokensIn, TokensIn) as real
      && Counter(r.value, "iff_tokens_out") == Tokens(log.tokensOut, TokensOut) as real
      && Counter(r.value, "iff_anomalies") == |events| as real
      && r.value.gauges == map[UPTIME := uptime as real]
  {
    PageIsLines(uptime, log, events);
    PageIsRead(other, uptime, log, events);
    RowCounters(uptime, log, "iff_requests");
    RowCounters(uptime, log, "iff_errors");
    RowCounters(uptime, log, "iff_tokens_in");
    RowCounters(uptime, log, "iff_tokens_out");
    RowCounters(uptime, log, "iff_anomalies");
    RequestsAreCounted(log.requests);
    ErrorsAreCounted(log.errors);
    TokensAreCounted(log.tokensIn, TokensIn);
    TokensAreCounted(log.tokensOut, TokensOut);
    AnomaliesAreCounted(events);
    var m := AfterRows(uptime, log);
    CounterAfter(m, "iff_anomalies", AnomalyTable(events), "iff_requests");
    CounterAfter(m, "iff_anomalies", AnomalyTable(events), "iff_errors");
    CounterAfter(m, "iff_anomalies", AnomalyTable(events), "iff_tokens_in");
    CounterAfter(m, "iff_anomalies", AnomalyTable(events), "iff_tokens_out");
    CounterAfter(m, "iff_anomalies", AnomalyTable(events), "iff_anomalies");
    NamesDiffer();
  }

  lemma {:induction false} NothingAfterLast(s: string, c: char)
    requires c !in s
    ensures AfterLast(s, c) == 0
  {
    if s != [] {
      assert s[|s| - 1] in s;
      NothingAfterLast(s[..|s| - 1], c);
    }
  }

  /** A line whose labels do not end says nothing. */
  lemma OpenLineIsSkipped(other: OtherNumbers, front: string, tail: string)
    requires front != [] && !IsSpace(front[0]) && front[0] != '#' && '{' !in front
    requires '}' !in front && '}' !in tail && (tail != [] ==> !IsSpace(tail[|tail| - 1])) && other("") == None
    ensures ReadLine(other, front + ['{'] + tail) == Nothing
  {
    var line := front + ['{'] + tail;
    assert line[0] == front[0] && line[|line| - 1] == if tail == [] then '{' else tail[|tail| - 1];
    StripKeeps(line);
    FindInSum(front, '{', tail);
    NothingAfterLast(line, '}');
    assert NameAndValue(line).Some? && NameAndValue(line).value.1 == "";
  }

  lemma TwoLines(a: string, b: string)
    requires OneLine(a) && OneLine(b)
    ensures Lines(a + "\n" + b) == [a, b]
  {
    LinesOfSum(a, b);
    LinesOfSum(b, "");
    assert [a] + [b] == [a, b];
  }

  /** The labels of an error up to the end of the first line of its text. */
  function OpenLabels(model: string, first: string): string {
    Label("model", model) + ",error=\"" + first
  }

  lemma OpenLabelsArePlain(model: string, first: string)
    requires OneLine(model) && OneLine(first) && '}' !in model && '}' !in first
    requires first != [] ==> !IsSpace(first[|first| - 1])
    ensures var tail := OpenLabels(model, first);
      && OneLine(tail) && '}' !in tail && tail != [] && !IsSpace(tail[|tail| - 1])
      && OneLine("iff_errors_total{" + tail)
  {
    LabelIsOneLine("model", model);
    var front := Label("model", model) + ",error=\"";
    assert '}' !in Label("model", model) && '}' !in front;
    assert OpenLabels(model, first)[|front| - 1] == '"';
    OneLineSum("iff_errors_total{", OpenLabels(model, first));
  }

  lemma LabelsOfTwoLines(model: string, first: string, second: string)
    ensures ErrorLabels((model, first + "\n" + second)) == OpenLabels(model, first) + ("\n" + (second + "\""))
  {
  }

  lemma Regrouped(a: string, b: string, c: string, d: string)
    ensures a + "_total" + "{" + (b + ("\n" + (c + "\""))) + "} " + d
         == (a + "_total" + "{" + b) + "\n" + ((c + "\"}") + " " + d)
  {
  }

  lemma ErrorLineInTwo(model: string, first: string, second: string, n: nat)
    ensures SampleLine("iff_errors", ErrorLabels((model, first + "\n" + second)), n)
         == "iff_errors_total{" + OpenLabels(model, first) + "\n" + (second + "\"}" + " " + Decimal(n))
  {
    SampleLineIs("iff_errors", ErrorLabels((model, first + "\n" + second)), n);
    LabelsOfTwoLines(model, first, second);
    Regrouped("iff_errors", OpenLabels(model, first), second, Decimal(n));
    assert "iff_errors" + "_total" + "{" == "iff_errors_total{";
  }

  lemma GaugeLineIsOneLine(name: string, n: nat)
    requires OneLine(name)
    ensures OneLine(name + " " + Decimal(n))
  {
    DigitsAreNotSpecial(n);
    OneLineSum(name, " ");
    OneLineSum(name + " ", Decimal(n));
  }

  lemma ErrorLineIsSkipped(other: OtherNumbers, labels: string)
    requires labels != [] && !IsSpace(labels[|labels| - 1]) && '}' !in labels && other("") == None
    ensures ReadLine(other, "iff_errors_total{" + labels) == Nothing
  {
    OpenLineIsSkipped(other, "iff_errors_total", labels);
    assert "iff_errors_total" + ['{'] + labels == "iff_errors_total{" + labels;
  }

  lemma ErrorLineSplits(model: string, first: string, second: string, n: nat)
    requires OneLine("iff_errors_total{" + OpenLabels(model, first)) && OneLine(second)
    ensures Lines(SampleLine("iff_errors", ErrorLabels((model, first + "\n" + second)), n))
         == ["iff_errors_total{" + OpenLabels(model, first), second + "\"}" + " " + Decimal(n)]
  {
    ErrorLineInTwo(model, first, second, n);
    OneLineSum(second, "\"}");
    GaugeLineIsOneLine(second + "\"}", n);
    TwoLines("iff_errors_total{" + OpenLabels(model, first), second + "\"}" + " " + Decimal(n));
  }

  lemma EffectsOfTwo(other: OtherNumbers, a: string, b: string)
    ensures Effects(other, [a, b]) == [ReadLine(other, a), ReadLine(other, b)]
  {
  }

  /** What may stand on the second line to be read as a name. */
  predicate WordWithoutUnderscore(s: string) {
    NoSpaces(s) && '{' !in s && '_' !in s && (s != [] ==> s[0] != '#')
  }

  lemma EndOfTextIsGauge(second: string)
    requires WordWithoutUnderscore(second)
    ensures GaugeName(second + "\"}")
  {
    var name := second + "\"}";
    assert name[|name| - 1] == '}' && '_' !in name;
    LastCharDecides(name, "_bucket");
    LastCharDecides(name, "_sum");
    LastCharDecides(name, "_count");
    if |name| >= 6 {
      forall k | 0 <= k <= |name| - 6 ensures !Occurs(name, "_total", k) {
        assert name[k] in name;
        assert name[k..k + 6][0] == name[k] && "_total"[0] == '_';
      }
      NeverAt(name, "_total", |name| - 6);
    }
  }

  lemma WordIsOneLine(s: string)
    requires NoSpaces(s)
    ensures OneLine(s)
  {
  }

  /** Without that condition the counts are not given back: an error text of two lines loses its count and
      leaves a gauge named after the end of the text. */
  lemma TwoLineErrorIsLost(other: OtherNumbers, model: string, first: string, second: string, n: nat)
    requires OneLine(model) && '}' !in model && OneLine(first) && '}' !in first
    requires first != [] ==> !IsSpace(first[|first| - 1])
    requires WordWithoutUnderscore(second) && other("") == None
    ensures Effects(other, Lines(SampleLine("iff_errors", ErrorLabels((model, first + "\n" + second)), n)))
         == [Nothing, SetGauge(second + "\"}", n as real)]
  {
    var labels, name := OpenLabels(model, first), second + "\"}";
    OpenLabelsArePlain(model, first);
    EndOfTextIsGauge(second);
    WordIsOneLine(second);
    ErrorLineSplits(model, first, second, n);
    EffectsOfTwo(other, "iff_errors_total{" + labels, name + " " + Decimal(n));
    ErrorLineIsSkipped(other, labels);
    GaugeLineReads(other, name, n);
  }

  lemma NamesDiffer()
    ensures "iff_requests" != "iff_errors" && "iff_requests" != "iff_tokens_in" && "iff_requests" != "iff_tokens_out"
    ensures "iff_requests" != "iff_anomalies" && "iff_errors" != "iff_tokens_in" && "iff_errors" != "iff_tokens_out"
    ensures "iff_errors" != "iff_anomalies" && "iff_tokens_in" != "iff_tokens_out" && "iff_tokens_in" != "iff_anomalies"
    ensures "iff_tokens_out" != "iff_anomalies"
  {
    assert "iff_tokens_in"[4] == 't' && "iff_anomalies"[4] == 'a';
  }

  lemma RowCounters(uptime: nat, log: Log, b: string)
    ensures var m := AfterRows(uptime, log);
      && Counter(m, b)
         == (if b == "iff_requests" then Total(RequestTable(log.requests)) as real else 0.0)
          + (if b == "iff_errors" then Total(ErrorTable(log.errors)) as real else 0.0)
          + (if b == "iff_tokens_in" then Total(TokenTable(log.tokensIn, TokensIn)) as real else 0.0)
          + (if b == "iff_tokens_out" then Total(TokenTable(log.tokensOut, TokensOut)) as real else 0.0)
      && m.gauges == map[UPTIME := uptime as real]
  {
    var m0 := AfterUptime(uptime);
    var m1 := After(m0, "iff_requests", RequestTable(log.requests));
    var m2 := After(m1, "iff_errors", ErrorTable(log.errors));
    var m3 := After(m2, "iff_tokens_in", TokenTable(log.tokensIn, TokensIn));
    CounterAfter(m0, "iff_requests", RequestTable(log.requests), b);
    CounterAfter(m1, "iff_errors", ErrorTable(log.errors), b);
    CounterAfter(m2, "iff_tokens_in", TokenTable(log.tokensIn, TokensIn), b);
    CounterAfter(m3, "iff_tokens_out", TokenTable(log.tokensOut, TokensOut), b);
  }
}

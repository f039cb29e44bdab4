// Recognising client agents by their request headers: rule files of a built-in and a user directory are
// folded into a list of agents, and the first agent one of whose rules matches names the request.

module AgentRules {
  import opened Wrappers

  datatype Rule = Rule(header: Option<string>, value: Option<string>, regex: Option<string>, protocol: Option<string>)

  datatype Request = Request(protocol: string, headers: seq<(string, string)>)

  /** Whether the pattern is found in a text. */
  type Search = (string, string) -> bool

  const HEADER_WHITELIST := {"x-app", "user-agent", "x-client-version"}

  function Lower(s: string): string {
    seq(|s|, i requires 0 <= i < |s| =>
          if 'A' <= s[i] <= 'Z' then ((s[i] as int) - ('A' as int) + ('a' as int)) as char else s[i])
  }

  /** The first header of that name, whatever its case. */
  function HeaderValue(headers: seq<(string, string)>, name: string): string {
    if headers == [] then "" else if Lower(headers[0].0) == name then headers[0].1 else HeaderValue(headers[1..], name)
  }

  predicate Matches(search: Search, rule: Rule, request: Request) {
    if rule.protocol.Some? && rule.protocol.value != request.protocol then false
    else if rule.header == None then true
    else
      var text := HeaderValue(request.headers, rule.header.value);
      if rule.value.Some? then Lower(text) == Lower(rule.value.value)
      else rule.regex.Some? && search(rule.regex.value, text)
  }

  /** The first header of this name, whatever the case, has this text; without one the text is empty. */
  ghost predicate Carries(headers: seq<(string, string)>, name: string, text: string) {
    || (text == "" && forall i :: 0 <= i < |headers| ==> Lower(headers[i].0) != name)
    || exists i :: 0 <= i < |headers| && Lower(headers[i].0) == name && headers[i].1 == text
                   && forall j :: 0 <= j < i ==> Lower(headers[j].0) != name
  }

  lemma {:induction false} HeaderValueIff(headers: seq<(string, string)>, name: string, text: string)
    ensures HeaderValue(headers, name) == text <==> Carries(headers, name, text)
  {
    if headers != [] {
      var rest := headers[1..];
      assert forall i :: 0 < i < |headers| ==> headers[i] == rest[i - 1];
      if Lower(headers[0].0) != name {
        HeaderValueIff(rest, name, text);
        if i :| 0 <= i < |rest| && Lower(rest[i].0) == name && rest[i].1 == text
                && forall j :: 0 <= j < i ==> Lower(rest[j].0) != name {
          assert Lower(headers[i + 1].0) == name && headers[i + 1].1 == text;
        }
        if i :| 0 <= i < |headers| && Lower(headers[i].0) == name && headers[i].1 == text
                && forall j :: 0 <= j < i ==> Lower(headers[j].0) != name {
          assert i > 0 && Lower(rest[i - 1].0) == name && rest[i - 1].1 == text;
          assert forall j :: 0 <= j < i - 1 ==> rest[j] == headers[j + 1];
        }
      }
    }
  }

  /** When a rule takes a request: the protocol is its own, and the text of its header equals its value whatever
      the case, or without a value contains its pattern. A rule without a header looks at the protocol only. */
  lemma MatchesIff(search: Search, rule: Rule, request: Request)
    ensures Matches(search, rule, request) <==>
      && (rule.protocol.Some? ==> rule.protocol.value == request.protocol)
      && (rule.header.Some? ==>
            exists text ::
              && Carries(request.headers, rule.header.value, text)
              && (rule.value.Some? ==> Lower(text) == Lower(rule.value.value))
              && (rule.value == None ==> rule.regex.Some? && search(rule.regex.value, text)))
  {
    if rule.header.Some? {
      var found := HeaderValue(request.headers, rule.header.value);
      HeaderValueIff(request.headers, rule.header.value, found);
      forall text | Carries(request.headers, rule.header.value, text) ensures text == found {
        HeaderValueIff(request.headers, rule.header.value, text);
      }
    }
  }

  /** Equal but for the case of the letters A to Z. */
  ghost predicate SameLetters(a: string, b: string) {
    |a| == |b| && forall i :: 0 <= i < |a| ==>
      || a[i] == b[i]
      || ('A' <= a[i] <= 'Z' && b[i] as int == a[i] as int + 32)
      || ('A' <= b[i] <= 'Z' && a[i] as int == b[i] as int + 32)
  }

  lemma LowerIff(a: string, b: string)
    ensures Lower(a) == Lower(b) <==> SameLetters(a, b)
  {
    if Lower(a) == Lower(b) {
      assert |a| == |Lower(a)| == |b|;
      forall i | 0 <= i < |a|
        ensures a[i] == b[i] || ('A' <= a[i] <= 'Z' && b[i] as int == a[i] as int + 32)
                || ('A' <= b[i] <= 'Z' && a[i] as int == b[i] as int + 32)
      {
        assert Lower(a)[i] == Lower(b)[i];
      }
    }
  }

  /** The case of a header's name does not matter, nor that of its text to a rule with a value. */
  lemma CaseDoesNotMatter(search: Search, rule: Rule, protocol: string, a: (string, string), b: (string, string))
    requires SameLetters(a.0, b.0) && SameLetters(a.1, b.1) && (rule.value.Some? || a.1 == b.1)
    ensures Matches(search, rule, Request(protocol, [a])) <==> Matches(search, rule, Request(protocol, [b]))
  {
    LowerIff(a.0, b.0);
    LowerIff(a.1, b.1);
    assert [a][1..] == [] && [b][1..] == [];
  }
}

/** File names in directory order. */
module NameOrder {

  predicate Less(a: string, b: string) {
    b != [] && (a == [] || a[0] < b[0] || (a[0] == b[0] && Less(a[1..], b[1..])))
  }

  lemma {:induction false} LessIsTotal(a: string, b: string)
    ensures Less(a, b) || a == b || Less(b, a)
  {
    if a != [] && b != [] && a[0] == b[0] {
      LessIsTotal(a[1..], b[1..]);
      assert a == [a[0]] + a[1..] && b == [b[0]] + b[1..];
    }
  }

  lemma {:induction false} LessIsTransitive(a: string, b: string, c: string)
    requires Less(a, b) && Less(b, c)
    ensures Less(a, c)
  {
    if a != [] && a[0] == b[0] == c[0] { LessIsTransitive(a[1..], b[1..], c[1..]); }
  }

  lemma {:induction false} LessIsStrict(a: string)
    ensures !Less(a, a)
  {
    if a != [] { LessIsStrict(a[1..]); }
  }
}

module AgentRegistries {
  import opened Wrappers
  import opened AgentRules
  import opened NameOrder

  datatype Source = Builtin | User

  datatype Def = Def(id: string, name: string, color: string, rules: seq<Rule>, source: Source, aliases: seq<Rule>)

  /** What a file holds; None stands for a rule that cannot be built. */
  datatype Raw =
    | Broken
    | Mapping(id: string, name: string, color: string, rules: seq<Option<Rule>>, aliases: seq<Option<Rule>>)

  datatype File = File(name: string, source: Source, raw: Raw)

  const UNKNOWN_ID := "unknown"
  const UNKNOWN_NAME := "未识别"
  const UNKNOWN_COLOR := "#9ca3af"

  datatype Hit = Hit(agent: string, name: string, color: string)

  // ---------------------------------------------------------------- reading the files

  predicate IdChar(c: char) {
    'a' <= c <= 'z' || '0' <= c <= '9'
  }

  predicate IdBody(s: string) {
    0 < |s| <= 64 && IdChar(s[0]) && forall i :: 0 < i < |s| ==> IdChar(s[i]) || s[i] == '-'
  }

  /** The pattern's end anchor also lets one final line feed pass. */
  predicate ValidId(s: string) {
    (IdBody(s) || (s != [] && s[|s| - 1] == '\n' && IdBody(s[..|s| - 1]))) && s != UNKNOWN_ID
  }

  function Usable(rules: seq<Option<Rule>>): seq<Rule> {
    if rules == [] then []
    else Usable(rules[..|rules| - 1]) + match rules[|rules| - 1] case None => [] case Some(r) => [r]
  }

  function ReadDef(f: File): Option<Def> {
    match f.raw
    case Broken => None
    case Mapping(id, name, color, rules, aliases) =>
      if !ValidId(id) || (Usable(rules) == [] && Usable(aliases) == []) then None
      else
        var shown := if name == "" then id else name;
        Some(Def(id, if |shown| > 40 then shown[..40] else shown, if color == "" then UNKNOWN_COLOR else color,
                 Usable(rules), f.source, Usable(aliases)))
  }

  /** What a file that defines an agent shows of it: at most forty characters of its name, or of its id. */
  lemma ShownName(f: File)
    requires ReadDef(f).Some?
    ensures
      var d, shown := ReadDef(f).value, if f.raw.name != "" then f.raw.name else f.raw.id;
      && d.id == f.raw.id && d.name <= shown && |d.name| <= 40 && (|shown| <= 40 ==> d.name == shown)
      && (|shown| > 40 ==> |d.name| == 40)
  {
  }

  /** An id has one to sixty-four characters. */
  lemma LongestId(n: nat)
    ensures ValidId(seq(n, i => 'a')) <==> 1 <= n <= 64
  {
    var id: string := seq(n, i => 'a');
    assert n == 7 ==> id[0] != UNKNOWN_ID[0];
  }

  /** A later definition with rules replaces an earlier one of its id; one with aliases only adds them. */
  function Combined(earlier: Def, later: Def): Def {
    if later.rules == [] && later.aliases != [] then earlier.(aliases := earlier.aliases + later.aliases) else later
  }

  function Overlay(defs: seq<Def>, d: Def): seq<Def> {
    if defs == [] then [d]
    else if defs[0].id == d.id then [Combined(defs[0], d)] + defs[1..]
    else [defs[0]] + Overlay(defs[1..], d)
  }

  function WithFile(defs: seq<Def>, f: File): seq<Def> {
    match ReadDef(f)
    case None => defs
    case Some(d) => Overlay(defs, d)
  }

  function Collected(files: seq<File>): seq<Def> {
    if files == [] then [] else WithFile(Collected(files[..|files| - 1]), files[|files| - 1])
  }

  predicate Knows(defs: seq<Def>, id: string) {
    exists i :: 0 <= i < |defs| && defs[i].id == id
  }

  ghost predicate UniqueIds(defs: seq<Def>) {
    forall i, j :: 0 <= i < j < |defs| ==> defs[i].id != defs[j].id
  }

  lemma {:induction false} OverlayAt(defs: seq<Def>, d: Def, i: nat)
    requires UniqueIds(defs)
    requires i < |defs| && defs[i].id == d.id
    ensures Overlay(defs, d) == defs[i := Combined(defs[i], d)]
  {
    if i > 0 { OverlayAt(defs[1..], d, i - 1); }
  }

  lemma {:induction false} OverlayAppends(defs: seq<Def>, d: Def)
    requires !Knows(defs, d.id)
    ensures Overlay(defs, d) == defs + [d]
  {
    if defs != [] {
      assert forall i :: 0 <= i < |defs[1..]| ==> defs[1..][i] == defs[i + 1];
      OverlayAppends(defs[1..], d);
    }
  }

  ghost predicate Agrees(defs: seq<Def>, index: map<string, nat>) {
    && (forall i :: 0 <= i < |defs| ==> defs[i].id in index && index[defs[i].id] == i)
    && (forall id :: id in index ==> index[id] < |defs| && defs[index[id]].id == id)
  }

  lemma AgreesMeansUnique(defs: seq<Def>, index: map<string, nat>)
    requires Agrees(defs, index)
    ensures UniqueIds(defs) && forall id :: Knows(defs, id) <==> id in index
  {
    forall id | id in index ensures Knows(defs, id) { assert defs[index[id]].id == id; }
  }

  /** Ids are unique, and the index agrees with the list, whatever the files are. */
  method CollectDefs(files: seq<File>) returns (defs: seq<Def>, index: map<string, nat>)
    ensures defs == Collected(files)
    ensures Agrees(defs, index) && UniqueIds(defs) && forall id :: Knows(defs, id) <==> id in index
  {
    defs, index := [], map[];
    for i := 0 to |files|
      invariant defs == Collected(files[..i]) && Agrees(defs, index)
    {
      assert files[..i + 1][..i] == files[..i];
      AgreesMeansUnique(defs, index);
      var read := ReadDef(files[i]);
      if read.Some? {
        var d := read.value;
        if d.id in index {
          OverlayAt(defs, d, index[d.id]);
          if d.rules != [] {
            defs := defs[index[d.id] := d];
          } else if d.aliases != [] {
            var was := defs[index[d.id]];
            defs := defs[index[d.id] := was.(aliases := was.aliases + d.aliases)];
          } else {
            defs := defs[index[d.id] := d];
          }
        } else {
          OverlayAppends(defs, d);
          index := index[d.id := |defs|];
          defs := defs + [d];
        }
      }
    }
    assert files[..|files|] == files;
    AgreesMeansUnique(defs, index);
  }

  // ---------------------------------------------------------------- classifying

  /** All rules under which requests count as this agent's, its own and its aliases. */
  function RuleSet(d: Def): set<Rule> {
    set rule | rule in d.rules + d.aliases
  }

  predicate Claims(search: Search, d: Def, request: Request) {
    exists rule :: rule in RuleSet(d) && Matches(search, rule, request)
  }

  function FirstHit(search: Search, defs: seq<Def>, request: Request): Option<Def> {
    if defs == [] then None
    else if Claims(search, defs[0], request) then Some(defs[0])
    else FirstHit(search, defs[1..], request)
  }

  function HitOf(d: Option<Def>): Hit {
    match d
    case None => Hit(UNKNOWN_ID, UNKNOWN_NAME, UNKNOWN_COLOR)
    case Some(d) => Hit(d.id, d.name, d.color)
  }

  function Classified(search: Search, defs: seq<Def>, request: Request): Hit {
    HitOf(FirstHit(search, defs, request))
  }

  lemma {:induction false} FirstHitOfSum(search: Search, a: seq<Def>, b: seq<Def>, request: Request)
    ensures FirstHit(search, a + b, request)
         == if FirstHit(search, a, request).Some? then FirstHit(search, a, request) else FirstHit(search, b, request)
  {
    if a == [] {
      assert a + b == b;
    } else {
      assert (a + b)[1..] == a[1..] + b;
      FirstHitOfSum(search, a[1..], b, request);
    }
  }

  lemma FirstHitOfOne(search: Search, d: Def, request: Request)
    ensures FirstHit(search, [d], request) == if Claims(search, d, request) then Some(d) else None
  {
    assert [d][1..] == [];
  }

  // ---------------------------------------------------------------- sums of sequences

  lemma SnocOfSum<T>(a: seq<T>, m: seq<T>, b: seq<T>, last: T)
    ensures a + m + (b + [last]) == a + m + b + [last]
  {
  }

  lemma InitAndLast<T>(s: seq<T>)
    requires s != []
    ensures s == s[..|s| - 1] + [s[|s| - 1]]
  {
  }

  lemma NothingAfter<T>(a: seq<T>, m: seq<T>)
    ensures a + m + [] == a + m && a + [] == a && [] + a == a
  {
  }

  lemma HeadOfSum<T>(x: T, a: seq<T>, b: seq<T>)
    ensures [x] + (a + b) == [x] + a + b
  {
  }

  lemma HeadOfThree<T>(x: T, a: seq<T>, m: seq<T>, b: seq<T>)
    ensures [x] + (a + m + b) == [x] + a + m + b
  {
  }

  lemma HeadAndRest<T>(s: seq<T>)
    requires s != []
    ensures s == [s[0]] + s[1..]
  {
  }

  lemma UpdateSplits<T>(s: seq<T>, i: nat, x: T)
    requires i < |s|
    ensures s[i := x] == s[..i] + ([x] + s[i + 1..])
  {
  }

  // ---------------------------------------------------------------- two lists that differ in one agent

  /** Two lists with the same agents in the same order, except for one: the right list has it, perhaps
      earlier, and unless a later definition has replaced it, with one more rule; the left list may lack it. */
  datatype Shape = Shape(head: seq<Def>, mid: seq<Def>, tail: seq<Def>, was: seq<Def>, now: Def, added: Rule,
                         kept: bool)

  function Left(s: Shape): seq<Def> {
    s.head + (s.mid + (s.was + s.tail))
  }

  function Right(s: Shape): seq<Def> {
    s.head + ([s.now] + (s.mid + s.tail))
  }

  function WasRules(s: Shape): set<Rule> {
    if s.was == [] then {} else RuleSet(s.was[0])
  }

  function Added(s: Shape): set<Rule> {
    if s.kept then {s.added} else {}
  }

  ghost predicate GoodShape(s: Shape, p: string) {
    && !Knows(s.head, p) && !Knows(s.mid, p) && !Knows(s.tail, p)
    && s.now.id == p && |s.was| <= 1 && (s.was != [] ==> s.was[0].id == p)
    && RuleSet(s.now) == WasRules(s) + Added(s)
  }

  /** A definition that replaces an earlier one of its id. */
  predicate Replaces(e: Def) {
    e.rules != [] || e.aliases == []
  }

  /** What reading one more definition leaves of the added rule. */
  predicate Followed(s: Shape, s': Shape, p: string, e: Def) {
    s'.added == s.added && (s'.kept <==> s.kept && !(e.id == p && Replaces(e)))
  }

  lemma KnowsHeadOrTail(a: seq<Def>, id: string)
    requires a != []
    ensures Knows(a, id) <==> a[0].id == id || Knows(a[1..], id)
  {
    if Knows(a[1..], id) {
      var i :| 0 <= i < |a[1..]| && a[1..][i].id == id;
      assert a[i + 1].id == id;
    }
    assert forall i :: 0 < i < |a| ==> a[i] == a[1..][i - 1];
  }

  lemma HeadAndTail<T>(a: seq<T>, b: seq<T>)
    requires a != []
    ensures (a + b)[0] == a[0] && (a + b)[1..] == a[1..] + b
    ensures a == [a[0]] + a[1..]
  {
  }

  lemma {:induction false} OverlaySum(a: seq<Def>, b: seq<Def>, d: Def)
    ensures Overlay(a + b, d) == if Knows(a, d.id) then Overlay(a, d) + b else a + Overlay(b, d)
  {
    if a == [] {
      NothingAfter(b, []);
      NothingAfter(Overlay(b, d), []);
    } else {
      HeadAndTail(a, b);
      KnowsHeadOrTail(a, d.id);
      if a[0].id != d.id {
        OverlaySum(a[1..], b, d);
        HeadOfSum(a[0], a[1..], Overlay(b, d));
        HeadOfSum(a[0], Overlay(a[1..], d), b);
      } else {
        HeadOfSum(Combined(a[0], d), a[1..], b);
      }
    }
  }

  lemma {:induction false} OverlayKnows(a: seq<Def>, d: Def, id: string)
    ensures Knows(Overlay(a, d), id) ==> Knows(a, id) || id == d.id
  {
    if a != [] && a[0].id != d.id {
      OverlayKnows(a[1..], d, id);
      assert forall i :: 0 <= i < |a[1..]| ==> a[1..][i] == a[i + 1];
    }
  }

  lemma NotAmong(a: seq<Def>, b: seq<Def>, id: string)
    requires !Knows(a, id) && !Knows(b, id)
    ensures !Knows(a + b, id)
  {
  }

  lemma OverlayLeft(s: Shape, p: string, e: Def)
    requires GoodShape(s, p)
    ensures Overlay(Left(s), e) ==
      if Knows(s.head, e.id) then Overlay(s.head, e) + (s.mid + (s.was + s.tail))
      else if Knows(s.mid, e.id) then s.head + (Overlay(s.mid, e) + (s.was + s.tail))
      else if Knows(s.was, e.id) then s.head + (s.mid + (Overlay(s.was, e) + s.tail))
      else s.head + (s.mid + (s.was + Overlay(s.tail, e)))
  {
    OverlaySum(s.head, s.mid + (s.was + s.tail), e);
    OverlaySum(s.mid, s.was + s.tail, e);
    OverlaySum(s.was, s.tail, e);
  }

  lemma OverlayRight(s: Shape, p: string, e: Def)
    requires GoodShape(s, p)
    ensures Overlay(Right(s), e) ==
      if Knows(s.head, e.id) then Overlay(s.head, e) + ([s.now] + (s.mid + s.tail))
      else if e.id == p then s.head + ([Combined(s.now, e)] + (s.mid + s.tail))
      else if Knows(s.mid, e.id) then s.head + ([s.now] + (Overlay(s.mid, e) + s.tail))
      else s.head + ([s.now] + (s.mid + Overlay(s.tail, e)))
  {
    OverlaySum(s.head, [s.now] + (s.mid + s.tail), e);
    OverlaySum([s.now], s.mid + s.tail, e);
    assert [s.now][0].id == p;
    assert Knows([s.now], e.id) <==> e.id == p;
    OverlaySum(s.mid, s.tail, e);
    assert e.id == p ==> Overlay([s.now], e) == [Combined(s.now, e)];
  }

  lemma CombinedRules(x: Def, e: Def)
    ensures RuleSet(Combined(x, e)) == if Replaces(e) then RuleSet(e) else RuleSet(x) + RuleSet(e)
  {
  }

  lemma {:induction false} OverlayKeepsOthers(a: seq<Def>, d: Def, p: string)
    requires !Knows(a, p) && d.id != p
    ensures !Knows(Overlay(a, d), p)
  {
    OverlayKnows(a, d, p);
  }

  /** One more definition read on both sides keeps the shape. */
  lemma ShapeStep(s: Shape, p: string, e: Def) returns (s': Shape)
    requires GoodShape(s, p)
    ensures GoodShape(s', p) && Left(s') == Overlay(Left(s), e) && Right(s') == Overlay(Right(s), e)
    ensures Followed(s, s', p, e)
  {
    OverlayLeft(s, p, e);
    OverlayRight(s, p, e);
    if e.id != p {
      assert !Knows(s.was, e.id);
      if Knows(s.head, e.id) {
        OverlayKeepsOthers(s.head, e, p);
        s' := s.(head := Overlay(s.head, e));
      } else if Knows(s.mid, e.id) {
        OverlayKeepsOthers(s.mid, e, p);
        s' := s.(mid := Overlay(s.mid, e));
      } else {
        OverlayKeepsOthers(s.tail, e, p);
        s' := s.(tail := Overlay(s.tail, e));
      }
    } else {
      s' := ShapeStepOwn(s, p, e);
    }
  }

  lemma OverlayOne(d: Def, e: Def)
    requires d.id == e.id
    ensures Knows([d], e.id) && Overlay([d], e) == [Combined(d, e)]
  {
    assert [d][0].id == e.id;
  }

  lemma ShapeStepOwn(s: Shape, p: string, e: Def) returns (s': Shape)
    requires GoodShape(s, p) && e.id == p
    ensures GoodShape(s', p) && Left(s') == Overlay(Left(s), e) && Right(s') == Overlay(Right(s), e)
    ensures Followed(s, s', p, e)
  {
    if s.was != [] {
      OverlayLeft(s, p, e);
      OverlayRight(s, p, e);
      assert s.was == [s.was[0]];
      OverlayOne(s.was[0], e);
      CombinedRules(s.now, e);
      CombinedRules(s.was[0], e);
      s' := s.(was := [Combined(s.was[0], e)], now := Combined(s.now, e), kept := s.kept && !Replaces(e));
    } else {
      s' := ShapeStepNew(s, p, e);
    }
  }

  lemma ShapeStepNew(s: Shape, p: string, e: Def) returns (s': Shape)
    requires GoodShape(s, p) && e.id == p && s.was == []
    ensures GoodShape(s', p) && Left(s') == Overlay(Left(s), e) && Right(s') == Overlay(Right(s), e)
    ensures Followed(s, s', p, e)
  {
    OverlayRight(s, p, e);
    CombinedRules(s.now, e);
    NotAmong(s.mid, s.tail, p);
    NotAmong(s.head, s.mid + s.tail, p);
    s' := Shape(s.head, s.mid + s.tail, [], [e], Combined(s.now, e), s.added, s.kept && !Replaces(e));
    NothingAfter(s.mid + s.tail, []);
    NothingAfter(s.tail, []);
    NothingAfter([e], []);
    assert Left(s) == s.head + (s.mid + s.tail);
    OverlayAppends(s.head + (s.mid + s.tail), e);
    SnocOfSum([], s.head, s.mid + s.tail, e);
    NothingAfter(s.head, []);
    assert Left(s') == s.head + ((s.mid + s.tail) + [e]);
  }

  /** What the right list changes for a request, it changes to that agent. */
  lemma ShapeClassifies(search: Search, s: Shape, p: string, request: Request)
    requires GoodShape(s, p)
    ensures Classified(search, Right(s), request) == Classified(search, Left(s), request)
            || Classified(search, Right(s), request).agent == p
  {
    FirstHitOfSum(search, s.head, s.mid + (s.was + s.tail), request);
    FirstHitOfSum(search, s.mid, s.was + s.tail, request);
    FirstHitOfSum(search, s.was, s.tail, request);
    FirstHitOfSum(search, s.head, [s.now] + (s.mid + s.tail), request);
    FirstHitOfSum(search, [s.now], s.mid + s.tail, request);
    FirstHitOfSum(search, s.mid, s.tail, request);
    FirstHitOfOne(search, s.now, request);
    if s.was != [] {
      assert s.was == [s.was[0]];
      FirstHitOfOne(search, s.was[0], request);
      MoreRulesClaimMore(search, s.now, s.was[0], request);
    }
  }

  lemma MoreRulesClaimMore(search: Search, stronger: Def, weaker: Def, request: Request)
    requires RuleSet(weaker) <= RuleSet(stronger)
    ensures Claims(search, weaker, request) ==> Claims(search, stronger, request)
  {
  }

  /** A request that nobody claims on the left is claimed on the right exactly if it matches the added rule
      and that rule was kept, and then by that agent. */
  lemma ShapeRecognises(search: Search, s: Shape, p: string, request: Request)
    requires GoodShape(s, p) && FirstHit(search, Left(s), request) == None
    ensures var hit := FirstHit(search, Right(s), request);
      && (hit.Some? <==> s.kept && Matches(search, s.added, request))
      && (hit.Some? ==> hit.value.id == p)
  {
    FirstHitOfSum(search, s.head, s.mid + (s.was + s.tail), request);
    FirstHitOfSum(search, s.mid, s.was + s.tail, request);
    FirstHitOfSum(search, s.was, s.tail, request);
    FirstHitOfSum(search, s.head, [s.now] + (s.mid + s.tail), request);
    FirstHitOfSum(search, [s.now], s.mid + s.tail, request);
    FirstHitOfSum(search, s.mid, s.tail, request);
    FirstHitOfOne(search, s.now, request);
    if s.was != [] {
      assert s.was == [s.was[0]];
      FirstHitOfOne(search, s.was[0], request);
    }
    AddedRuleDecides(search, s, p, request);
  }

  lemma AddedRuleDecides(search: Search, s: Shape, p: string, request: Request)
    requires GoodShape(s, p) && (s.was != [] ==> !Claims(search, s.was[0], request))
    ensures Claims(search, s.now, request) <==> s.kept && Matches(search, s.added, request)
  {
    if s.kept { assert s.added in RuleSet(s.now); }
  }

  /** The new definition of the agent does what the old one did, if there was one, and has this rule more. */
  predicate Extends(new_: Def, old_: Option<Def>, p: string, rule: Rule) {
    && new_.id == p && (new_.rules != [] || new_.aliases != [])
    && match old_
       case None => RuleSet(new_) == {rule}
       case Some(d) =>
         d.id == p && new_.rules == d.rules && (d.rules != [] || d.aliases != []) && new_.aliases == d.aliases + [rule]
  }

  function MaybeOverlay(defs: seq<Def>, d: Option<Def>): seq<Def> {
    if d.Some? then Overlay(defs, d.value) else defs
  }

  lemma ExtendedRules(new_: Def, old_: Def, p: string, rule: Rule)
    requires Extends(new_, Some(old_), p, rule)
    ensures RuleSet(new_) == RuleSet(old_) + {rule}
  {
  }

  lemma CombinedExtends(x: Def, new_: Def, old_: Option<Def>, p: string, rule: Rule)
    requires Extends(new_, old_, p, rule) && (old_ == None ==> new_.rules == [])
    ensures RuleSet(Combined(x, new_)) == RuleSet(if old_.Some? then Combined(x, old_.value) else x) + {rule}
  {
    CombinedRules(x, new_);
    if old_.Some? {
      CombinedRules(x, old_.value);
      ExtendedRules(new_, old_.value, p, rule);
    }
  }

  lemma FirstShape(defs: seq<Def>, p: string, new_: Def, old_: Option<Def>, rule: Rule) returns (s: Shape)
    requires UniqueIds(defs) && Extends(new_, old_, p, rule)
    requires old_ == None && Knows(defs, p) ==> new_.rules == []
    ensures GoodShape(s, p) && Left(s) == MaybeOverlay(defs, old_) && Right(s) == Overlay(defs, new_)
    ensures s.added == rule && s.kept
  {
    if Knows(defs, p) {
      s := FirstShapeKnown(defs, p, new_, old_, rule);
    } else {
      s := FirstShapeNew(defs, p, new_, old_, rule);
    }
  }

  lemma FirstShapeNew(defs: seq<Def>, p: string, new_: Def, old_: Option<Def>, rule: Rule) returns (s: Shape)
    requires Extends(new_, old_, p, rule) && !Knows(defs, p)
    ensures GoodShape(s, p) && Left(s) == MaybeOverlay(defs, old_) && Right(s) == Overlay(defs, new_)
    ensures s.added == rule && s.kept
  {
    var was := if old_.Some? then [old_.value] else [];
    s := Shape(defs, [], [], was, new_, rule, true);
    OverlayAppends(defs, new_);
    NothingAfter([new_], []);
    NothingAfter(was, []);
    NothingAfter(defs, []);
    assert Right(s) == defs + [new_] && Left(s) == defs + was;
    if old_.Some? {
      OverlayAppends(defs, old_.value);
      ExtendedRules(new_, old_.value, p, rule);
    }
  }

  lemma OthersAround(defs: seq<Def>, i: nat, p: string)
    requires UniqueIds(defs) && i < |defs| && defs[i].id == p
    ensures !Knows(defs[..i], p) && !Knows(defs[i + 1..], p)
  {
  }

  lemma FirstShapeKnown(defs: seq<Def>, p: string, new_: Def, old_: Option<Def>, rule: Rule) returns (s: Shape)
    requires UniqueIds(defs) && Extends(new_, old_, p, rule) && Knows(defs, p)
    requires old_ == None ==> new_.rules == []
    ensures GoodShape(s, p) && Left(s) == MaybeOverlay(defs, old_) && Right(s) == Overlay(defs, new_)
    ensures s.added == rule && s.kept
  {
    var i :| 0 <= i < |defs| && defs[i].id == p;
    OverlayAt(defs, new_, i);
    if old_.Some? { OverlayAt(defs, old_.value, i); }
    var was := if old_.Some? then Combined(defs[i], old_.value) else defs[i];
    var now := Combined(defs[i], new_);
    UpdateSplits(defs, i, was);
    UpdateSplits(defs, i, now);
    OthersAround(defs, i, p);
    CombinedExtends(defs[i], new_, old_, p, rule);
    s := Shape(defs[..i], [], defs[i + 1..], [was], now, rule, true);
    NothingAfter(defs[i + 1..], []);
    NothingAfter([was] + defs[i + 1..], []);
    assert MaybeOverlay(defs, old_) == defs[i := was];
  }

  // ---------------------------------------------------------------- one file changes

  lemma {:induction false} CollectedIsUnique(files: seq<File>)
    ensures UniqueIds(Collected(files))
  {
    if files != [] {
      var before := Collected(files[..|files| - 1]);
      CollectedIsUnique(files[..|files| - 1]);
      match ReadDef(files[|files| - 1])
      case None =>
      case Some(d) =>
        if Knows(before, d.id) {
          var i :| 0 <= i < |before| && before[i].id == d.id;
          OverlayAt(before, d, i);
        } else {
          OverlayAppends(before, d);
        }
    }
  }

  lemma {:induction false} CollectedIsValid(files: seq<File>, id: string)
    ensures Knows(Collected(files), id) ==> ValidId(id)
  {
    if files != [] {
      CollectedIsValid(files[..|files| - 1], id);
      if ReadDef(files[|files| - 1]).Some? {
        OverlayKnows(Collected(files[..|files| - 1]), ReadDef(files[|files| - 1]).value, id);
      }
    }
  }

  /** The file defines the agent with rules, so it replaces what was read before. */
  predicate Redefines(f: File, p: string) {
    var d := ReadDef(f);
    d.Some? && d.value.id == p && d.value.rules != []
  }

  predicate Redefined(files: seq<File>, p: string) {
    exists i :: 0 <= i < |files| && Redefines(files[i], p)
  }

  lemma RedefinedSnoc(files: seq<File>, last: File, p: string)
    ensures Redefined(files + [last], p) <==> Redefined(files, p) || Redefines(last, p)
  {
    var all := files + [last];
    assert all[|files|] == last;
    assert forall i :: 0 <= i < |files| ==> all[i] == files[i];
  }

  lemma CollectedOfSum(a: seq<File>, f: File)
    ensures Collected(a + [f]) == WithFile(Collected(a), f)
  {
    assert (a + [f])[..|a|] == a;
  }

  lemma ShapeOfFile(before: seq<File>, old_: seq<File>, new_: File, p: string, rule: Rule) returns (s: Shape)
    requires |old_| <= 1 && ReadDef(new_).Some?
    requires Extends(ReadDef(new_).value, if old_ == [] then None else ReadDef(old_[0]), p, rule)
    requires (old_ == [] || ReadDef(old_[0]) == None) && Knows(Collected(before), p) ==> ReadDef(new_).value.rules == []
    ensures GoodShape(s, p) && s.added == rule && s.kept
    ensures Left(s) == Collected(before + old_) && Right(s) == Collected(before + [new_])
  {
    CollectedIsUnique(before);
    s := FirstShape(Collected(before), p, ReadDef(new_).value, if old_ == [] then None else ReadDef(old_[0]), rule);
    CollectedOfSum(before, new_);
    if old_ == [] {
      NothingAfter(before, old_);
    } else {
      assert old_ == [old_[0]];
      CollectedOfSum(before, old_[0]);
    }
  }

  /** The definitions read after the changed file keep the shape. */
  lemma {:induction false} ShapeOfFiles(before: seq<File>, old_: seq<File>, new_: File, after: seq<File>, p: string,
                                       rule: Rule)
    returns (s: Shape)
    requires |old_| <= 1 && ReadDef(new_).Some?
    requires Extends(ReadDef(new_).value, if old_ == [] then None else ReadDef(old_[0]), p, rule)
    requires (old_ == [] || ReadDef(old_[0]) == None) && Knows(Collected(before), p) ==> ReadDef(new_).value.rules == []
    ensures GoodShape(s, p)
    ensures Left(s) == Collected(before + old_ + after) && Right(s) == Collected(before + [new_] + after)
    ensures s.added == rule && (s.kept <==> !Redefined(after, p))
    decreases |after|
  {
    if after == [] {
      s := ShapeOfFile(before, old_, new_, p, rule);
      NothingAfter(before, old_);
      NothingAfter(before, [new_]);
    } else {
      var init, last := after[..|after| - 1], after[|after| - 1];
      s := ShapeOfFiles(before, old_, new_, init, p, rule);
      RedefinedSnoc(init, last, p);
      CollectedOfSum(before + old_ + init, last);
      CollectedOfSum(before + [new_] + init, last);
      InitAndLast(after);
      SnocOfSum(before, old_, init, last);
      SnocOfSum(before, [new_], init, last);
      if ReadDef(last).Some? { s := ShapeStep(s, p, ReadDef(last).value); }
    }
  }

  lemma {:induction false} UnreadFiles(before: seq<File>, old_: seq<File>, new_: File, after: seq<File>)
    requires |old_| <= 1 && ReadDef(new_) == if old_ == [] then None else ReadDef(old_[0])
    ensures Collected(before + old_ + after) == Collected(before + [new_] + after)
    decreases |after|
  {
    if after == [] {
      CollectedOfSum(before, new_);
      NothingAfter(before, old_);
      NothingAfter(before, [new_]);
      if old_ != [] {
        assert old_ == [old_[0]];
        CollectedOfSum(before, old_[0]);
      }
    } else {
      var init, last := after[..|after| - 1], after[|after| - 1];
      UnreadFiles(before, old_, new_, init);
      CollectedOfSum(before + old_ + init, last);
      CollectedOfSum(before + [new_] + init, last);
      InitAndLast(after);
      SnocOfSum(before, old_, init, last);
      SnocOfSum(before, [new_], init, last);
    }
  }

  // ---------------------------------------------------------------- the user directory

  ghost predicate Ordered(files: seq<File>) {
    forall i, j :: 0 <= i < j < |files| ==> Less(files[i].name, files[j].name)
  }

  ghost predicate UserDirectory(files: seq<File>) {
    Ordered(files) && forall f :: f in files ==> f.source == User
  }

  /** Writes a file: replaces the one of that name, or appears at its place in the order. */
  function Put(files: seq<File>, f: File): seq<File> {
    if files == [] then [f]
    else if files[0].name == f.name then [f] + files[1..]
    else if Less(f.name, files[0].name) then [f] + files
    else [files[0]] + Put(files[1..], f)
  }

  /** The directory without the file of this name. */
  function WithoutFile(files: seq<File>, name: string): seq<File> {
    if files == [] then []
    else if files[0].name == name then files[1..]
    else [files[0]] + WithoutFile(files[1..], name)
  }

  function Find(files: seq<File>, name: string): Option<File> {
    if files == [] then None else if files[0].name == name then Some(files[0]) else Find(files[1..], name)
  }

  /** The files that are read before one of this name. */
  function FilesBefore(files: seq<File>, name: string): seq<File> {
    if files != [] && Less(files[0].name, name) then [files[0]] + FilesBefore(files[1..], name) else []
  }

  /** The files that are read after one of this name. */
  function FilesAfter(files: seq<File>, name: string): seq<File> {
    if files == [] then [] else if Less(name, files[0].name) then files else FilesAfter(files[1..], name)
  }

  function ListOf(f: Option<File>): seq<File> {
    if f.Some? then [f.value] else []
  }

  lemma {:induction false} NotFound(files: seq<File>, name: string)
    requires forall i :: 0 <= i < |files| ==> files[i].name != name
    ensures Find(files, name) == None
  {
    if files != [] { NotFound(files[1..], name); }
  }

  lemma BeforeAll(files: seq<File>, name: string)
    requires Ordered(files) && files != [] && Less(name, files[0].name)
    ensures forall i :: 0 <= i < |files| ==> files[i].name != name
    ensures forall i :: 0 <= i < |files| ==> Less(name, files[i].name)
  {
    forall i | 0 <= i < |files| ensures files[i].name != name && Less(name, files[i].name) {
      if i > 0 { LessIsTransitive(name, files[0].name, files[i].name); }
      LessIsStrict(name);
    }
  }

  lemma {:induction false} NothingToDrop(files: seq<File>, name: string)
    requires forall i :: 0 <= i < |files| ==> files[i].name != name
    ensures WithoutFile(files, name) == files
  {
    if files != [] { NothingToDrop(files[1..], name); }
  }

  lemma JoinOfSum(x: seq<File>, a: seq<File>, m: seq<File>, b: seq<File>)
    ensures x + (a + m + b) == (x + a) + m + b == (x + a) + (m + b)
  {
  }

  lemma {:induction false} PutSplits(files: seq<File>, f: File) returns (a: seq<File>, b: seq<File>)
    requires Ordered(files)
    ensures files == a + ListOf(Find(files, f.name)) + b && Put(files, f) == a + [f] + b
    ensures WithoutFile(files, f.name) == a + b
    ensures a == FilesBefore(files, f.name) && b == FilesAfter(files, f.name)
    ensures Find(files, f.name).Some? ==> Find(files, f.name).value.name == f.name
  {
    LessIsStrict(f.name);
    if files == [] {
      a, b := [], [];
    } else if files[0].name == f.name {
      a, b := [], files[1..];
    } else if Less(f.name, files[0].name) {
      BeforeAll(files, f.name);
      NotFound(files, f.name);
      NothingToDrop(files, f.name);
      if Less(files[0].name, f.name) { LessIsTransitive(f.name, files[0].name, f.name); }
      a, b := [], files;
    } else {
      LessIsTotal(f.name, files[0].name);
      var rest;
      rest, b := PutSplits(files[1..], f);
      a := [files[0]] + rest;
      HeadOfThree(files[0], rest, ListOf(Find(files, f.name)), b);
      HeadOfThree(files[0], rest, [f], b);
      HeadOfSum(files[0], rest, b);
      HeadAndRest(files);
    }
  }

  lemma {:induction false} PutKeepsOrder(files: seq<File>, f: File)
    requires Ordered(files)
    ensures Ordered(Put(files, f))
    ensures forall g :: g in Put(files, f) ==> g == f || g in files
  {
    if files != [] && files[0].name != f.name {
      if Less(f.name, files[0].name) {
        BeforeAll(files, f.name);
      } else {
        PutKeepsOrder(files[1..], f);
        LessIsTotal(f.name, files[0].name);
        var rest := Put(files[1..], f);
        forall i | 0 <= i < |rest| ensures Less(files[0].name, rest[i].name) {
          assert rest[i] in rest;
          if rest[i] != f {
            var j :| 0 <= j < |files[1..]| && files[1..][j] == rest[i];
            assert files[j + 1] == rest[i];
          }
        }
      }
    }
  }

  // ---------------------------------------------------------------- claiming from the dashboard

  /** The rule of a claimed header pattern; an empty pattern makes none. */
  function NewRule(header: string, pattern: string): Option<Rule> {
    if pattern == "" then None else Some(Rule(Some(header), None, Some(pattern), None))
  }

  function FileName(id: string): string {
    id + ".yaml"
  }

  function ClaimFile(id: string, name: string, color: string, rule: Option<Rule>): File {
    File(FileName(id), User, Mapping(id, name, color, [rule], []))
  }

  /** The file an alias claim writes over what is there; the claim fails on a file it cannot read. */
  function AliasFile(existing: Option<File>, parent: string, rule: Option<Rule>): Option<File> {
    match existing
    case None => Some(File(FileName(parent), User, Mapping(parent, "", "", [], [rule])))
    case Some(f) =>
      if f.raw.Broken? then None
      else Some(File(FileName(parent), User, f.raw.(aliases := f.raw.aliases + [rule])))
  }

  lemma UsableSnoc(rules: seq<Option<Rule>>, rule: Option<Rule>)
    ensures Usable(rules + [rule]) == Usable(rules) + if rule.Some? then [rule.value] else []
  {
    assert (rules + [rule])[..|rules|] == rules;
  }

  lemma UsableOne(rule: Option<Rule>)
    ensures Usable([rule]) == if rule.Some? then [rule.value] else []
  {
    UsableSnoc([], rule);
    assert [] + [rule] == [rule];
  }

  /** The agent whose aliases an alias claim really extends: the one named inside the file. */
  function AliasOwner(existing: Option<File>, parent: string): string {
    if existing.Some? && existing.value.raw.Mapping? then existing.value.raw.id else parent
  }

  lemma {:induction false} HitIsKnown(search: Search, defs: seq<Def>, request: Request)
    ensures var hit := FirstHit(search, defs, request); hit.Some? ==> Knows(defs, hit.value.id)
  {
    if defs != [] {
      HitIsKnown(search, defs[1..], request);
      if FirstHit(search, defs, request).Some? { KnowsHeadOrTail(defs, FirstHit(search, defs, request).value.id); }
    }
  }

  lemma UnknownIffUnclaimed(search: Search, files: seq<File>, request: Request)
    ensures Classified(search, Collected(files), request).agent == UNKNOWN_ID
      <==> FirstHit(search, Collected(files), request) == None
  {
    var hit := FirstHit(search, Collected(files), request);
    HitIsKnown(search, Collected(files), request);
    if hit.Some? { CollectedIsValid(files, hit.value.id); }
  }

  /** What one more rule in one file changes. */
  lemma OneMoreRule(search: Search, before: seq<File>, old_: seq<File>, new_: File, after: seq<File>, p: string,
                    rule: Rule, request: Request)
    requires |old_| <= 1 && ReadDef(new_).Some?
    requires Extends(ReadDef(new_).value, if old_ == [] then None else ReadDef(old_[0]), p, rule)
    requires (old_ == [] || ReadDef(old_[0]) == None) && Knows(Collected(before), p) ==> ReadDef(new_).value.rules == []
    ensures
      var was := Classified(search, Collected(before + old_ + after), request);
      var now := Classified(search, Collected(before + [new_] + after), request);
      && (now == was || now.agent == p)
      && (was.agent == UNKNOWN_ID ==>
            (now.agent != UNKNOWN_ID <==> Matches(search, rule, request) && !Redefined(after, p)))
  {
    var s := ShapeOfFiles(before, old_, new_, after, p, rule);
    ShapeClassifies(search, s, p, request);
    UnknownIffUnclaimed(search, before + old_ + after, request);
    UnknownIffUnclaimed(search, before + [new_] + after, request);
    if FirstHit(search, Left(s), request) == None { ShapeRecognises(search, s, p, request); }
  }

  /** The claimed rule reaches the request: it can be built and matches, its owner's id is valid, and no file
      that is read later defines the owner anew. */
  predicate TakesEffect(search: Search, user: seq<File>, name: string, owner: string, rule: Option<Rule>,
                        request: Request) {
    rule.Some? && Matches(search, rule.value, request) && ValidId(owner) && !Redefined(FilesAfter(user, name), owner)
  }

  /** An alias claim changes the classification of a request only to the agent the file names; and a request
      that was unknown is recognised after it exactly if the rule takes effect. */
  lemma AliasGoesToOwner(search: Search, builtin: seq<File>, user: seq<File>, parent: string, rule: Option<Rule>,
                         request: Request)
    requires UserDirectory(user)
    requires ValidId(parent) && AliasFile(Find(user, FileName(parent)), parent, rule).Some?
    ensures
      var existing := Find(user, FileName(parent));
      var f, owner := AliasFile(existing, parent, rule).value, AliasOwner(existing, parent);
      var before, after := Classified(search, Collected(builtin + user), request),
                           Classified(search, Collected(builtin + Put(user, f)), request);
      && (after == before || after.agent == owner)
      && (before.agent == UNKNOWN_ID ==>
            (after.agent != UNKNOWN_ID <==> TakesEffect(search, user, FileName(parent), owner, rule, request)))
  {
    var existing := Find(user, FileName(parent));
    var f, p := AliasFile(existing, parent, rule).value, AliasOwner(existing, parent);
    var a, b := PutSplits(user, f);
    JoinOfSum(builtin, a, ListOf(existing), b);
    JoinOfSum(builtin, a, [f], b);
    if existing.Some? {
      assert user[|a|] == existing.value;
      assert existing.value in user;
    }
    AliasFileExtends(existing, parent, rule);
    if rule == None || !ValidId(p) {
      UnreadFiles(builtin + a, ListOf(existing), f, b);
    } else {
      OneMoreRule(search, builtin + a, ListOf(existing), f, b, p, rule.value, request);
    }
  }

  /** What the written file defines, against what was there. */
  lemma AliasFileExtends(existing: Option<File>, parent: string, rule: Option<Rule>)
    requires AliasFile(existing, parent, rule).Some? && (existing.Some? ==> existing.value.source == User)
    ensures
      var f, p := AliasFile(existing, parent, rule).value, AliasOwner(existing, parent);
      var was := if existing == None then None else ReadDef(existing.value);
      && (rule == None || !ValidId(p) ==> ReadDef(f) == was)
      && (rule.Some? && ValidId(p) ==>
            && ReadDef(f).Some? && Extends(ReadDef(f).value, was, p, rule.value)
            && (was == None ==> ReadDef(f).value.rules == []))
  {
    if existing.Some? {
      AliasAppended(existing.value, parent, rule);
    } else {
      UsableOne(rule);
      if rule.Some? { OneAliasOnly([], [rule.value]); }
    }
  }

  lemma OneAliasOnly(rules: seq<Rule>, aliases: seq<Rule>)
    requires rules == [] && |aliases| == 1
    ensures (set r | r in rules + aliases) == {aliases[0]}
  {
  }

  lemma AliasAppended(f: File, parent: string, rule: Option<Rule>)
    requires f.raw.Mapping? && f.source == User
    ensures
      var g, p := AliasFile(Some(f), parent, rule).value, f.raw.id;
      && (rule == None || !ValidId(p) ==> ReadDef(g) == ReadDef(f))
      && (rule.Some? && ValidId(p) ==>
            && ReadDef(g).Some? && Extends(ReadDef(g).value, ReadDef(f), p, rule.value)
            && (ReadDef(f) == None ==> ReadDef(g).value.rules == []))
  {
    UsableSnoc(f.raw.aliases, rule);
    NothingAfter(Usable(f.raw.aliases), []);
    if rule.Some? && Usable(f.raw.rules) == [] && Usable(f.raw.aliases) == [] {
      OneAliasOnly(Usable(f.raw.rules), Usable(f.raw.aliases) + [rule.value]);
    }
  }

  /** So for a parent stored under its own name, or not in the user directory yet, the claim changes a
      classification only to the parent, and an unknown request that matches goes there exactly if no file
      that is read later defines the parent anew. */
  lemma AliasGoesToParent(search: Search, builtin: seq<File>, user: seq<File>, parent: string, rule: Option<Rule>,
                          request: Request)
    requires UserDirectory(user)
    requires Knows(Collected(builtin + user), parent)
    requires var existing := Find(user, FileName(parent));
      existing.Some? ==> existing.value.raw.Mapping? && existing.value.raw.id == parent
    ensures
      var f := AliasFile(Find(user, FileName(parent)), parent, rule).value;
      var before, after := Classified(search, Collected(builtin + user), request),
                           Classified(search, Collected(builtin + Put(user, f)), request);
      && (after == before || after.agent == parent)
      && (before.agent == UNKNOWN_ID && rule.Some? && Matches(search, rule.value, request) ==>
            (after.agent == parent <==> !Redefined(FilesAfter(user, FileName(parent)), parent)))
  {
    CollectedIsValid(builtin + user, parent);
    AliasGoesToOwner(search, builtin, user, parent, rule, request);
  }

  lemma {:induction false} OverlayKeeps(defs: seq<Def>, d: Def, id: string)
    requires Knows(defs, id)
    ensures Knows(Overlay(defs, d), id)
  {
    var i :| 0 <= i < |defs| && defs[i].id == id;
    var out := Overlay(defs, d);
    if defs[0].id == d.id {
      assert out[i].id == id;
    } else if i == 0 {
      assert out[0].id == id;
    } else {
      assert defs[1..][i - 1].id == id;
      OverlayKeeps(defs[1..], d, id);
      var j :| 0 <= j < |Overlay(defs[1..], d)| && Overlay(defs[1..], d)[j].id == id;
      assert out[j + 1].id == id;
    }
  }

  lemma OverlayKnowsNew(defs: seq<Def>, d: Def)
    ensures Knows(Overlay(defs, d), d.id)
  {
    if !Knows(defs, d.id) {
      OverlayAppends(defs, d);
      assert (defs + [d])[|defs|].id == d.id;
    } else {
      OverlayKeeps(defs, d, d.id);
    }
  }

  predicate Defines(f: File, id: string) {
    var d := ReadDef(f);
    d.Some? && d.value.id == id
  }

  predicate Defined(files: seq<File>, id: string) {
    exists i :: 0 <= i < |files| && Defines(files[i], id)
  }

  lemma DefinedOfSum(a: seq<File>, b: seq<File>, id: string)
    ensures Defined(a + b, id) <==> Defined(a, id) || Defined(b, id)
  {
    var all := a + b;
    assert forall i :: 0 <= i < |a| ==> all[i] == a[i];
    assert forall i :: 0 <= i < |b| ==> all[|a| + i] == b[i];
    if i :| 0 <= i < |all| && Defines(all[i], id) {
      if i >= |a| { assert Defines(b[i - |a|], id); }
    }
  }

  /** An id is known exactly if some file defines it. */
  lemma {:induction false} KnownIffDefined(files: seq<File>, id: string)
    ensures Knows(Collected(files), id) <==> Defined(files, id)
  {
    if files != [] {
      var init, last := files[..|files| - 1], files[|files| - 1];
      KnownIffDefined(init, id);
      InitAndLast(files);
      DefinedOfSum(init, [last], id);
      assert Defined([last], id) <==> Defines([last][0], id);
      if ReadDef(last).Some? {
        OverlayKnows(Collected(init), ReadDef(last).value, id);
        OverlayKnowsNew(Collected(init), ReadDef(last).value);
        if Knows(Collected(init), id) { OverlayKeeps(Collected(init), ReadDef(last).value, id); }
      }
    }
  }

  lemma MoreFilesKnowMore(a: seq<File>, b: seq<File>, id: string)
    ensures Knows(Collected(a + b), id) <==> Knows(Collected(a), id) || Defined(b, id)
  {
    KnownIffDefined(a, id);
    KnownIffDefined(a + b, id);
    DefinedOfSum(a, b, id);
  }

  /** The list without the claimed agent, and where it appears: after all agents of the earlier files. */
  lemma {:induction false} ClaimSplits(before: seq<File>, f: File, after: seq<File>, d: Def)
    returns (head: seq<Def>, tail: seq<Def>)
    requires ReadDef(f) == Some(d) && !Knows(Collected(before + after), d.id)
    ensures Collected(before + after) == head + tail && Collected(before + [f] + after) == head + ([d] + tail)
    ensures forall id :: Knows(head, id) <==> Knows(Collected(before), id)
    decreases |after|
  {
    if after == [] {
      head, tail := Collected(before), [];
      NothingAfter(before, [f]);
      NothingAfter(head, [d]);
      NothingAfter([d], []);
      CollectedOfSum(before, f);
      OverlayAppends(head, d);
    } else {
      var init, last := after[..|after| - 1], after[|after| - 1];
      InitAndLast(after);
      SnocOfSum([], before, init, last);
      NothingAfter(before, []);
      SnocOfSum(before, [f], init, last);
      MoreFilesKnowMore(before + init, [last], d.id);
      CollectedOfSum(before + init, last);
      CollectedOfSum(before + [f] + init, last);
      head, tail := ClaimSplits(before, f, init, d);
      if ReadDef(last).Some? {
        OverlayKnowsNew(head + tail, ReadDef(last).value);
        head, tail := SplitStep(head, tail, d, ReadDef(last).value);
      }
    }
  }

  lemma SplitStep(head: seq<Def>, tail: seq<Def>, d: Def, e: Def) returns (head': seq<Def>, tail': seq<Def>)
    requires d.id != e.id
    ensures Overlay(head + tail, e) == head' + tail'
    ensures Overlay(head + ([d] + tail), e) == head' + ([d] + tail')
    ensures forall id :: Knows(head', id) <==> Knows(head, id)
  {
    OverlaySum(head, tail, e);
    OverlaySum(head, [d] + tail, e);
    OverlaySum([d], tail, e);
    if Knows(head, e.id) {
      head', tail' := Overlay(head, e), tail;
      forall id ensures Knows(head', id) <==> Knows(head, id) {
        OverlayKnows(head, e, id);
        if Knows(head, id) { OverlayKeeps(head, e, id); }
      }
    } else {
      head', tail' := head, Overlay(tail, e);
    }
  }

  lemma KnownOnce(a: seq<Def>, b: seq<Def>, id: string)
    requires UniqueIds(a + b) && Knows(b, id)
    ensures !Knows(a, id)
  {
    var j :| 0 <= j < |b| && b[j].id == id;
    forall i | 0 <= i < |a| ensures a[i].id != id {
      assert (a + b)[i] == a[i] && (a + b)[|a| + j] == b[j];
    }
  }

  /** A new agent takes a request it claims, unless one of the agents before it does. */
  lemma NewAgentTakes(search: Search, head: seq<Def>, tail: seq<Def>, d: Def, request: Request)
    requires UniqueIds(head + tail) && !Knows(head + tail, d.id) && d.id != UNKNOWN_ID && !Knows(head, UNKNOWN_ID)
    ensures
      var bare := Classified(search, head + tail, request);
      && bare.agent != d.id
      && Classified(search, head + ([d] + tail), request)
         == if Claims(search, d, request) && !Knows(head, bare.agent) then HitOf(Some(d)) else bare
  {
    FirstHitOfSum(search, head, tail, request);
    FirstHitOfSum(search, head, [d] + tail, request);
    FirstHitOfSum(search, [d], tail, request);
    FirstHitOfOne(search, d, request);
    HitIsKnown(search, head + tail, request);
    HitIsKnown(search, head, request);
    HitIsKnown(search, tail, request);
    var later := FirstHit(search, tail, request);
    if later.Some? { KnownOnce(head, tail, later.value.id); }
  }

  /** What would be classified if the file that a claim overwrites were not there. */
  function BareHit(search: Search, builtin: seq<File>, user: seq<File>, id: string, request: Request): Hit {
    Classified(search, Collected(builtin + WithoutFile(user, FileName(id))), request)
  }

  /** A claimed rule gets the request: it can be built and matches, and without the overwritten file no agent
      known from the files read before that one would have got it. */
  predicate GetsRequest(search: Search, builtin: seq<File>, user: seq<File>, id: string, rule: Option<Rule>,
                        request: Request) {
    && rule.Some? && Matches(search, rule.value, request)
    && !Knows(Collected(builtin + FilesBefore(user, FileName(id))), BareHit(search, builtin, user, id, request).agent)
  }

  lemma ClaimAppears(search: Search, before: seq<File>, f: File, after: seq<File>, rule: Option<Rule>, request: Request)
    requires f.raw.Mapping? && f.raw.rules == [rule] && f.raw.aliases == []
    requires ValidId(f.raw.id) && !Knows(Collected(before + after), f.raw.id)
    ensures
      var bare := Classified(search, Collected(before + after), request);
      var gets := rule.Some? && Matches(search, rule.value, request) && !Knows(Collected(before), bare.agent);
      && bare.agent != f.raw.id
      && Classified(search, Collected(before + [f] + after), request) == if gets then HitOf(ReadDef(f)) else bare
  {
    NothingAfter(before, []);
    UsableOne(rule);
    if rule == None {
      UnreadFiles(before, [], f, after);
      HitIsKnown(search, Collected(before + after), request);
    } else {
      var d := ReadDef(f).value;
      var head, tail := ClaimSplits(before, f, after, d);
      CollectedIsUnique(before + after);
      CollectedIsValid(before, UNKNOWN_ID);
      assert RuleSet(d) == {rule.value};
      NewAgentTakes(search, head, tail, d, request);
    }
  }

  /** The directory around the file that is written. */
  lemma DirectoryAround(builtin: seq<File>, user: seq<File>, f: File)
    requires Ordered(user)
    ensures
      var before, after := builtin + FilesBefore(user, f.name), FilesAfter(user, f.name);
      && builtin + user == before + ListOf(Find(user, f.name)) + after
      && builtin + WithoutFile(user, f.name) == before + after
      && builtin + Put(user, f) == before + [f] + after
  {
    var a, b := PutSplits(user, f);
    JoinOfSum(builtin, a, ListOf(Find(user, f.name)), b);
    JoinOfSum(builtin, a, [f], b);
    JoinOfSum(builtin, a, [], b);
    NothingAfter(a, []);
    NothingAfter(builtin + a, []);
  }

  lemma StaysFresh(before: seq<File>, old_: seq<File>, after: seq<File>, id: string)
    requires !Knows(Collected(before + old_ + after), id)
    ensures !Knows(Collected(before + after), id)
  {
    MoreFilesKnowMore(before + old_, after, id);
    MoreFilesKnowMore(before, old_, id);
    MoreFilesKnowMore(before, after, id);
  }

  /** Who gets a request after a claim: the new agent if its rule gets it, else whoever would get it without
      the overwritten file. So the claim takes no request away from the others exactly where the new agent
      gets it or that file did not matter, and unknown requests go to the new agent if they match. */
  predicate ClaimMoves(search: Search, builtin: seq<File>, user: seq<File>, id: string, name: string, color: string,
                       rule: Option<Rule>, request: Request, now: Hit) {
    var was := Classified(search, Collected(builtin + user), request);
    var bare := BareHit(search, builtin, user, id, request);
    var gets := GetsRequest(search, builtin, user, id, rule, request);
    && now == (if gets then HitOf(ReadDef(ClaimFile(id, name, color, rule))) else bare)
    && (now.agent == id <==> gets)
    && (now == was || now.agent == id <==> gets || bare == was)
    && (bare.agent == UNKNOWN_ID ==> (gets <==> rule.Some? && Matches(search, rule.value, request)))
  }

  /** This is what claiming a fresh id does, whatever file is overwritten. */
  lemma ClaimGoesToNewAgent(search: Search, builtin: seq<File>, user: seq<File>, id: string, name: string,
                            color: string, rule: Option<Rule>, request: Request)
    requires UserDirectory(user) && ValidId(id) && !Knows(Collected(builtin + user), id)
    ensures
      var files := builtin + Put(user, ClaimFile(id, name, color, rule));
      ClaimMoves(search, builtin, user, id, name, color, rule, request, Classified(search, Collected(files), request))
  {
    var f := ClaimFile(id, name, color, rule);
    var before, after := builtin + FilesBefore(user, f.name), FilesAfter(user, f.name);
    DirectoryAround(builtin, user, f);
    StaysFresh(before, ListOf(Find(user, f.name)), after, id);
    UsableOne(rule);
    ClaimAppears(search, before, f, after, rule, request);
    CollectedIsValid(before, UNKNOWN_ID);
    HitIsKnown(search, Collected(builtin + user), request);
  }

  /** If the overwritten file defines nothing, it did not matter for any request. */
  lemma UselessFileIsNotMissed(search: Search, builtin: seq<File>, user: seq<File>, id: string, request: Request)
    requires UserDirectory(user)
    requires var existing := Find(user, FileName(id)); existing.Some? ==> ReadDef(existing.value) == None
    ensures BareHit(search, builtin, user, id, request) == Classified(search, Collected(builtin + user), request)
  {
    var existing := Find(user, FileName(id));
    var before, after := builtin + FilesBefore(user, FileName(id)), FilesAfter(user, FileName(id));
    DirectoryAround(builtin, user, ClaimFile(id, "", "", None));
    NothingAfter(before, []);
    if existing.Some? { UnreadFiles(before, [], existing.value, after); }
  }

  lemma CollectedOfOne(f: File)
    ensures Collected([f]) == if ReadDef(f).Some? then [ReadDef(f).value] else []
  {
    CollectedOfSum([], f);
    assert [] + [f] == [f];
  }

  /** A claim can take requests from another agent without getting them: here from "b", whose definition was
      stored in the file that the claim of "a" overwrites. */
  lemma ClaimCanDropAnotherAgent(search: Search, pattern: string)
    requires pattern != "" && !search(pattern, "")
    ensures
      var any := Some(Rule(None, None, None, Some("openai")));
      var user := [File("a.yaml", User, Mapping("b", "b", "", [any], []))];
      var request := Request("openai", []);
      var f := ClaimFile("a", "a", "", NewRule("x-app", pattern));
      && !Knows(Collected(user), "a")
      && Classified(search, Collected(user), request).agent == "b"
      && Classified(search, Collected(Put(user, f)), request).agent == UNKNOWN_ID
  {
    var any := Rule(None, None, None, Some("openai"));
    var file := File("a.yaml", User, Mapping("b", "b", "", [Some(any)], []));
    var f := ClaimFile("a", "a", "", NewRule("x-app", pattern));
    OneRuleDefines(search, file, any, Request("openai", []));
    OneRuleDefines(search, f, NewRule("x-app", pattern).value, Request("openai", []));
    PutReplaces(file, f);
  }

  lemma PutReplaces(f: File, g: File)
    requires f.name == g.name
    ensures Put([f], g) == [g]
  {
  }

  /** A claimed alias can be lost: here the parent is stored in a file that is read after the new one and
      replaces it, so that the request stays unknown. */
  lemma AliasCanBeLost(search: Search, rule: Rule, alias: Rule, request: Request)
    requires !Matches(search, rule, request) && Matches(search, alias, request)
    ensures
      var user := [File("z.yaml", User, Mapping("p", "p", "", [Some(rule)], []))];
      var f := AliasFile(Find(user, FileName("p")), "p", Some(alias));
      && Knows(Collected(user), "p") && f.Some?
      && Classified(search, Collected(user), request).agent == UNKNOWN_ID
      && Classified(search, Collected(Put(user, f.value)), request).agent == UNKNOWN_ID
  {
    var file := File("z.yaml", User, Mapping("p", "p", "", [Some(rule)], []));
    OneRuleDefines(search, file, rule, request);
    LaterFile(file, "p");
    AliasInOneFile(search, file, "p", alias, request);
  }

  lemma LaterFile(f: File, parent: string)
    requires Less(FileName(parent), f.name)
    ensures Find([f], FileName(parent)) == None && FilesAfter([f], FileName(parent)) == [f]
  {
    LessIsStrict(f.name);
    assert [f][1..] == [];
  }

  /** The claim in a user directory of one file. */
  lemma AliasInOneFile(search: Search, f: File, parent: string, alias: Rule, request: Request)
    requires f.source == User && ValidId(parent) && AliasFile(Find([f], FileName(parent)), parent, Some(alias)).Some?
    ensures
      var existing := Find([f], FileName(parent));
      var owner := AliasOwner(existing, parent);
      var after := Classified(search, Collected(Put([f], AliasFile(existing, parent, Some(alias)).value)), request);
      Classified(search, Collected([f]), request).agent == UNKNOWN_ID ==>
        && (after.agent != UNKNOWN_ID <==> TakesEffect(search, [f], FileName(parent), owner, Some(alias), request))
        && (after.agent != UNKNOWN_ID ==> after.agent == owner)
  {
    AliasGoesToOwner(search, [], [f], parent, Some(alias), request);
    NothingBefore([f]);
    NothingBefore(Put([f], AliasFile(Find([f], FileName(parent)), parent, Some(alias)).value));
  }

  /** It can also go to another agent: here the file of the parent's name defines "q", while the parent is
      built in. */
  lemma AliasCanGoElsewhere(search: Search, rule: Rule, alias: Rule, request: Request)
    requires !Matches(search, rule, request) && Matches(search, alias, request)
    ensures
      var builtin := [File("p.yaml", Builtin, Mapping("p", "p", "", [Some(rule)], []))];
      var user := [File("p.yaml", User, Mapping("q", "q", "", [Some(rule)], []))];
      var f := AliasFile(Find(user, FileName("p")), "p", Some(alias));
      && Knows(Collected(builtin + user), "p") && f.Some?
      && Classified(search, Collected(builtin + user), request).agent == UNKNOWN_ID
      && Classified(search, Collected(builtin + Put(user, f.value)), request).agent == "q"
  {
    var builtin := File("p.yaml", Builtin, Mapping("p", "p", "", [Some(rule)], []));
    var file := File("p.yaml", User, Mapping("q", "q", "", [Some(rule)], []));
    OneRuleDefines(search, builtin, rule, request);
    OneRuleDefines(search, file, rule, request);
    MoreFilesKnowMore([builtin], [file], "p");
    TwoAgents(search, builtin, file, request);
    SameFile(file, "p");
    AliasGoesToOwner(search, [builtin], [file], "p", Some(alias), request);
  }

  lemma SameFile(f: File, parent: string)
    requires FileName(parent) == f.name
    ensures Find([f], FileName(parent)) == Some(f) && FilesAfter([f], FileName(parent)) == []
  {
    LessIsStrict(f.name);
    assert [f][1..] == [];
  }

  lemma TwoAgents(search: Search, f: File, g: File, request: Request)
    requires ReadDef(f).Some? && ReadDef(g).Some? && ReadDef(f).value.id != ReadDef(g).value.id
    requires !Claims(search, ReadDef(f).value, request) && !Claims(search, ReadDef(g).value, request)
    ensures Classified(search, Collected([f] + [g]), request).agent == UNKNOWN_ID
  {
    var d, e := ReadDef(f).value, ReadDef(g).value;
    CollectedOfOne(f);
    CollectedOfSum([f], g);
    OverlayAppends([d], e);
    FirstHitOfSum(search, [d], [e], request);
    FirstHitOfOne(search, d, request);
    FirstHitOfOne(search, e, request);
  }

  lemma NothingBefore(files: seq<File>)
    ensures [] + files == files
  {
  }

  lemma OneRuleDefines(search: Search, f: File, rule: Rule, request: Request)
    requires f.raw.Mapping? && f.raw.rules == [Some(rule)] && f.raw.aliases == [] && ValidId(f.raw.id)
    ensures ReadDef(f).Some? && ReadDef(f).value.id == f.raw.id && ReadDef(f).value.rules == [rule]
    ensures Collected([f]) == [ReadDef(f).value] && Knows(Collected([f]), f.raw.id)
    ensures Claims(search, ReadDef(f).value, request) <==> Matches(search, rule, request)
    ensures Classified(search, Collected([f]), request).agent
         == if Matches(search, rule, request) then f.raw.id else UNKNOWN_ID
  {
    UsableOne(Some(rule));
    CollectedOfOne(f);
    var d := ReadDef(f).value;
    assert [d][0].id == f.raw.id;
    assert RuleSet(d) == {rule};
    FirstHitOfOne(search, d, request);
  }

  // ---------------------------------------------------------------- the object

  datatype Change = Changed(d: Option<Def>) | Refused | AlreadyThere

  class AgentRegistry {
    const search: Search
    const compiles: string -> bool
    const builtin: seq<File>
    var user: seq<File>
    var defs: seq<Def>

    ghost predicate Valid()
      reads this
    {
      UserDirectory(user) && defs == Collected(builtin + user)
    }

    constructor (search: Search, compiles: string -> bool, builtin: seq<File>, user: seq<File>)
      requires UserDirectory(user)
      ensures Valid() && this.user == user && this.builtin == builtin
      ensures this.search == search && this.compiles == compiles
    {
      this.search, this.compiles, this.builtin, this.user := search, compiles, builtin, user;
      new;
      var index;
      defs, index := CollectDefs(builtin + user);
    }

    /** The first agent with a matching rule or alias, else the unknown one. */
    method Classify(request: Request) returns (hit: Hit)
      ensures hit == Classified(search, defs, request)
    {
      for i := 0 to |defs|
        invariant FirstHit(search, defs, request) == FirstHit(search, defs[i..], request)
      {
        assert defs[i..][1..] == defs[i + 1..];
        var d := defs[i];
        var claimed := AnyMatches(d.rules, request);
        if !claimed { claimed := AnyMatches(d.aliases, request); }
        ClaimsIsEither(search, d, request);
        if claimed { return Hit(d.id, d.name, d.color); }
      }
      assert defs[|defs|..] == [];
      hit := Hit(UNKNOWN_ID, UNKNOWN_NAME, UNKNOWN_COLOR);
    }

    method AnyMatches(rules: seq<Rule>, request: Request) returns (found: bool)
      ensures found <==> exists i :: 0 <= i < |rules| && Matches(search, rules[i], request)
    {
      for i := 0 to |rules|
        invariant forall k :: 0 <= k < i ==> !Matches(search, rules[k], request)
      {
        if Matches(search, rules[i], request) { return true; }
      }
      found := false;
    }

    /** Claims a fresh id, whatever file is overwritten. */
    method AddFromUi(id: string, name: string, header: string, pattern: string, color: string) returns (r: Change)
      requires Valid()
      modifies this
      ensures Valid()
      ensures r.Refused? <==> !ValidId(id) || header !in HEADER_WHITELIST || !compiles(pattern)
      ensures r.AlreadyThere? <==> !r.Refused? && Knows(old(defs), id)
      ensures !r.Changed? ==> user == old(user) && defs == old(defs)
      ensures r.Changed? ==> user == Put(old(user), ClaimFile(id, name, color, NewRule(header, pattern)))
      ensures
        r.Changed? ==>
          forall request ::
            ClaimMoves(search, builtin, old(user), id, name, color, NewRule(header, pattern), request,
                       Classified(search, defs, request))
      ensures
        var existing := Find(old(user), FileName(id));
        r.Changed? && (existing.Some? ==> ReadDef(existing.value) == None) ==>
          forall request :: BareHit(search, builtin, old(user), id, request) == Classified(search, old(defs), request)
    {
      if !ValidId(id) || header !in HEADER_WHITELIST || !compiles(pattern) { return Refused; }
      var known := IsKnown(id);
      if known { return AlreadyThere; }
      var rule := NewRule(header, pattern);
      var f := ClaimFile(id, name, color, rule);
      ghost var then_ := Collected(builtin + Put(user, f));
      forall request
        ensures ClaimMoves(search, builtin, user, id, name, color, rule, request, Classified(search, then_, request))
      {
        ClaimGoesToNewAgent(search, builtin, user, id, name, color, rule, request);
      }
      if Find(user, FileName(id)).Some? ==> ReadDef(Find(user, FileName(id)).value) == None {
        forall request ensures BareHit(search, builtin, user, id, request) == Classified(search, defs, request) {
          UselessFileIsNotMissed(search, builtin, user, id, request);
        }
      }
      PutKeepsOrder(user, f);
      user := Put(user, f);
      var index;
      defs, index := CollectDefs(builtin + user);
      r := Changed(if id in index then Some(defs[index[id]]) else None);
    }

    method IsKnown(id: string) returns (known: bool)
      ensures known <==> Knows(defs, id)
    {
      for i := 0 to |defs|
        invariant forall k :: 0 <= k < i ==> defs[k].id != id
      {
        if defs[i].id == id { return true; }
      }
      known := false;
    }

    /** Adds an alias to an agent. Requests only move to the agent that the parent's file names. */
    method AddAlias(parent: string, header: string, pattern: string) returns (r: Change)
      requires Valid()
      modifies this
      ensures Valid() && !r.AlreadyThere?
      ensures
        var existing := Find(old(user), FileName(parent));
        r.Refused? <==>
          || header !in HEADER_WHITELIST || !compiles(pattern) || !Knows(old(defs), parent)
          || AliasFile(existing, parent, NewRule(header, pattern)) == None
      ensures r.Refused? ==> user == old(user) && defs == old(defs)
      ensures
        var existing := Find(old(user), FileName(parent));
        r.Changed? ==>
          && user == Put(old(user), AliasFile(existing, parent, NewRule(header, pattern)).value)
          && forall request ::
               var was, now := Classified(search, old(defs), request), Classified(search, defs, request);
               && (now == was || now.agent == AliasOwner(existing, parent))
               && (was.agent == UNKNOWN_ID ==>
                     (now.agent != UNKNOWN_ID <==>
                      TakesEffect(search, old(user), FileName(parent), AliasOwner(existing, parent),
                                  NewRule(header, pattern), request)))
    {
      if header !in HEADER_WHITELIST || !compiles(pattern) { return Refused; }
      var known := IsKnown(parent);
      if !known { return Refused; }
      var rule := NewRule(header, pattern);
      var file := AliasFile(Find(user, FileName(parent)), parent, rule);
      if file == None { return Refused; }
      CollectedIsValid(builtin + user, parent);
      forall request {
        AliasGoesToOwner(search, builtin, user, parent, rule, request);
      }
      PutKeepsOrder(user, file.value);
      user := Put(user, file.value);
      var index;
      defs, index := CollectDefs(builtin + user);
      r := Changed(if parent in index then Some(defs[index[parent]]) else None);
    }
  }

  lemma ClaimsIsEither(search: Search, d: Def, request: Request)
    ensures Claims(search, d, request) <==>
      || (exists i :: 0 <= i < |d.rules| && Matches(search, d.rules[i], request))
      || (exists i :: 0 <= i < |d.aliases| && Matches(search, d.aliases[i], request))
  {
    if i :| 0 <= i < |d.rules| && Matches(search, d.rules[i], request) { assert d.rules[i] in RuleSet(d); }
    if i :| 0 <= i < |d.aliases| && Matches(search, d.aliases[i], request) { assert d.aliases[i] in RuleSet(d); }
  }
}

// The registry of routable cloud models: which models a provider contributes after discovery rounds
// and curation calls (ticking, unticking, manual entries, dropping a provider).

module CloudNames {

  /** The part of a name after its last slash. */
  function ShortName(name: string): (short: string)
    ensures '/' !in short
  {
    if name == [] || name[|name| - 1] == '/' then []
    else ShortName(name[..|name| - 1]) + [name[|name| - 1]]
  }

  function Prefixed(provider: string, id: string): string {
    provider + "/" + id
  }

  lemma ShortOfSnoc(name: string, c: char)
    ensures ShortName(name + [c]) == if c == '/' then "" else ShortName(name) + [c]
  {
    assert (name + [c])[..|name|] == name;
  }

  lemma PrefixedSnoc(provider: string, init: string, last: char)
    ensures Prefixed(provider, init + [last]) == Prefixed(provider, init) + [last]
  {
  }

  lemma InitAndLast(id: string)
    requires id != []
    ensures id[..|id| - 1] + [id[|id| - 1]] == id
    ensures forall c :: c !in id ==> c !in id[..|id| - 1]
  {
  }

  lemma {:induction false} ShortOfPrefixed(provider: string, id: string)
    requires '/' !in id
    ensures ShortName(Prefixed(provider, id)) == id
  {
    if id == [] {
      ShortOfSnoc(provider, '/');
      assert Prefixed(provider, id) == provider + ['/'];
    } else {
      var init, last := id[..|id| - 1], id[|id| - 1];
      InitAndLast(id);
      ShortOfPrefixed(provider, init);
      PrefixedSnoc(provider, init, last);
      ShortOfSnoc(Prefixed(provider, init), last);
    }
  }

  lemma {:induction false} ShortOfSlashFree(name: string)
    requires '/' !in name
    ensures ShortName(name) == name
  {
    if name != [] {
      InitAndLast(name);
      ShortOfSlashFree(name[..|name| - 1]);
    }
  }

  /** Slash-free ids can be read back from their prefixed keys, and so can the provider. */
  lemma PrefixedIsInjective(p: string, id: string, q: string, id': string)
    requires '/' !in id && '/' !in id' && Prefixed(p, id) == Prefixed(q, id')
    ensures p == q && id == id'
  {
    ShortOfPrefixed(p, id);
    ShortOfPrefixed(q, id');
    assert p == Prefixed(p, id)[..|p|];
    assert q == Prefixed(q, id')[..|q|];
  }

  lemma PrefixedHasSlash(p: string, id: string)
    ensures '/' in Prefixed(p, id)
  {
    assert Prefixed(p, id)[|p|] == '/';
  }
}

module CloudRegistries {
  import opened Wrappers
  import opened CloudNames

  datatype CloudModel = CloudModel(id: string, provider: string)

  type Registry = map<string, CloudModel>

  /** The whitelist may hold an id twice; specs are the keys of a dictionary. */
  datatype Provider = Provider(enabled: bool, discovery: bool, whitelist: seq<string>, specs: seq<string>)

  type Providers = map<string, Provider>

  datatype Route = Local | Cloud(provider: string) | NoRoute

  // ---------------------------------------------------------------- building the registry

  /** The short key belongs to the first provider, the prefixed key always to this one. */
  function AddDiscovered(reg: Registry, p: string, id: string): Registry {
    var m := CloudModel(id, p);
    (if id in reg then reg else reg[id := m])[Prefixed(p, id) := m]
  }

  function AddSpec(reg: Registry, p: string, id: string): Registry {
    var m := CloudModel(id, p);
    if id in reg then reg else reg[id := m][Prefixed(p, id) := m]
  }

  function AddAllDiscovered(reg: Registry, p: string, ids: seq<string>, whitelist: seq<string>): Registry {
    if ids == [] then reg
    else
      var before, id := AddAllDiscovered(reg, p, ids[..|ids| - 1], whitelist), ids[|ids| - 1];
      if id in whitelist then AddDiscovered(before, p, id) else before
  }

  function AddSpecs(reg: Registry, p: string, specs: seq<string>): Registry {
    if specs == [] then reg else AddSpec(AddSpecs(reg, p, specs[..|specs| - 1]), p, specs[|specs| - 1])
  }

  /** Registers the specs of all enabled providers that have no short key yet. */
  function AddSpecsOf(reg: Registry, order: seq<string>, providers: Providers): Registry {
    if order == [] then reg
    else
      var before, p := AddSpecsOf(reg, order[..|order| - 1], providers), order[|order| - 1];
      if p in providers && providers[p].enabled then AddSpecs(before, p, providers[p].specs) else before
  }

  function Dropped(reg: Registry, p: string): Registry {
    map k | k in reg && reg[k].provider != p :: reg[k]
  }

  /** What a curation call makes of the registry. */
  function Rebuilt(reg: Registry, p: string, order: seq<string>, providers: Providers,
                   candidates: map<string, seq<string>>): Registry
    requires p in providers
  {
    var found := if p in candidates then candidates[p] else [];
    AddSpecsOf(AddAllDiscovered(Dropped(reg, p), p, found, providers[p].whitelist), order, providers)
  }

  /** The answer of a provider's model list in a round; None when asking it failed. */
  type Answers = map<string, Option<seq<string>>>

  function AnswerOf(answers: Answers, p: string, cfg: Provider): seq<string> {
    if cfg.enabled && cfg.discovery && p in answers && answers[p].Some? then answers[p].value else []
  }

  /** Only an enabled provider with discovery is asked, and only what it answers counts. */
  lemma AnswerIff(answers: Answers, p: string, cfg: Provider, ids: seq<string>)
    requires ids != []
    ensures AnswerOf(answers, p, cfg) == ids <==>
      cfg.enabled && cfg.discovery && p in answers && answers[p] == Some(ids)
  {
  }

  function Polled(order: seq<string>, providers: Providers, answers: Answers): Registry {
    if order == [] then map[]
    else
      var before, p := Polled(order[..|order| - 1], providers, answers), order[|order| - 1];
      if p in providers
      then AddAllDiscovered(before, p, AnswerOf(answers, p, providers[p]), providers[p].whitelist)
      else before
  }

  /** The candidates after a round: an answer without models replaces nothing. */
  function Remembered(was: map<string, seq<string>>, order: seq<string>, providers: Providers, answers: Answers)
    : (now: map<string, seq<string>>)
    ensures forall p :: p in was ==> p in now
  {
    if order == [] then was
    else
      var before, p := Remembered(was, order[..|order| - 1], providers, answers), order[|order| - 1];
      if p in providers && AnswerOf(answers, p, providers[p]) != []
      then before[p := AnswerOf(answers, p, providers[p])] else before
  }

  lemma {:induction false} CandidatesSurviveBlips(was: map<string, seq<string>>, order: seq<string>,
                                                  providers: Providers,
                                                 answers: Answers, p: string)
    requires p in providers && p in order
    ensures var now, found := Remembered(was, order, providers, answers), AnswerOf(answers, p, providers[p]);
      if found != [] then p in now && now[p] == found
      else (p in now <==> p in was) && (p in was ==> now[p] == was[p])
  {
    var earlier, q := order[..|order| - 1], order[|order| - 1];
    assert p in order <==> p in earlier || p == q;
    if p in earlier {
      CandidatesSurviveBlips(was, earlier, providers, answers, p);
    } else {
      UnaskedCandidates(was, earlier, providers, answers, p);
    }
  }

  lemma {:induction false} UnaskedCandidates(was: map<string, seq<string>>, order: seq<string>, providers: Providers,
                                            answers: Answers, p: string)
    requires p !in order
    ensures var now := Remembered(was, order, providers, answers);
      (p in now <==> p in was) && (p in was ==> now[p] == was[p])
  {
    if order != [] { UnaskedCandidates(was, order[..|order| - 1], providers, answers, p); }
  }

  /** What a discovery round collects. */
  function Discovered(order: seq<string>, providers: Providers, answers: Answers): Registry {
    AddSpecsOf(Polled(order, providers, answers), order, providers)
  }

  /** A round that collects nothing at all keeps the registry. */
  function AfterRound(was: Registry, order: seq<string>, providers: Providers, answers: Answers): Registry {
    var found := Discovered(order, providers, answers);
    if found == map[] then was else found
  }

  // ---------------------------------------------------------------- every entry is allowed

  predicate Allowed(cfg: Provider, id: string) {
    id in cfg.whitelist || id in cfg.specs
  }

  predicate SoundEntry(k: string, m: CloudModel, providers: Providers) {
    && (k == m.id || k == Prefixed(m.provider, m.id))
    && m.provider in providers && Allowed(providers[m.provider], m.id)
  }

  ghost predicate SoundRegistry(reg: Registry, providers: Providers) {
    forall k :: k in reg ==> SoundEntry(k, reg[k], providers)
  }

  lemma {:induction false} DiscoveredIsSound(reg: Registry, p: string, ids: seq<string>, providers: Providers)
    requires SoundRegistry(reg, providers) && p in providers
    ensures SoundRegistry(AddAllDiscovered(reg, p, ids, providers[p].whitelist), providers)
  {
    if ids != [] { DiscoveredIsSound(reg, p, ids[..|ids| - 1], providers); }
  }

  lemma {:induction false} SpecsAreSound(reg: Registry, p: string, specs: seq<string>, providers: Providers)
    requires SoundRegistry(reg, providers) && p in providers
    requires forall id :: id in specs ==> id in providers[p].specs
    ensures SoundRegistry(AddSpecs(reg, p, specs), providers)
  {
    if specs != [] { SpecsAreSound(reg, p, specs[..|specs| - 1], providers); }
  }

  lemma {:induction false} AllSpecsAreSound(reg: Registry, order: seq<string>, providers: Providers)
    requires SoundRegistry(reg, providers)
    ensures SoundRegistry(AddSpecsOf(reg, order, providers), providers)
  {
    if order != [] {
      AllSpecsAreSound(reg, order[..|order| - 1], providers);
      var before, p := AddSpecsOf(reg, order[..|order| - 1], providers), order[|order| - 1];
      if p in providers { SpecsAreSound(before, p, providers[p].specs, providers); }
    }
  }

  lemma {:induction false} PolledIsSound(order: seq<string>, providers: Providers, answers: Answers)
    ensures SoundRegistry(Polled(order, providers, answers), providers)
  {
    if order != [] {
      PolledIsSound(order[..|order| - 1], providers, answers);
      var before, p := Polled(order[..|order| - 1], providers, answers), order[|order| - 1];
      if p in providers { DiscoveredIsSound(before, p, AnswerOf(answers, p, providers[p]), providers); }
    }
  }

  lemma RoundIsSound(order: seq<string>, providers: Providers, answers: Answers)
    ensures SoundRegistry(Discovered(order, providers, answers), providers)
  {
    PolledIsSound(order, providers, answers);
    AllSpecsAreSound(Polled(order, providers, answers), order, providers);
  }

  /** The entries of other providers need no check: only this provider's configuration changed. */
  lemma RebuiltIsSound(reg: Registry, p: string, order: seq<string>, was: Providers, providers: Providers,
                       candidates: map<string, seq<string>>)
    requires SoundRegistry(reg, was) && p in providers
    requires forall q :: q in was && q != p ==> q in providers && providers[q] == was[q]
    ensures SoundRegistry(Rebuilt(reg, p, order, providers, candidates), providers)
  {
    var found := if p in candidates then candidates[p] else [];
    assert SoundRegistry(Dropped(reg, p), providers);
    DiscoveredIsSound(Dropped(reg, p), p, found, providers);
    AllSpecsAreSound(AddAllDiscovered(Dropped(reg, p), p, found, providers[p].whitelist), order, providers);
  }

  // ---------------------------------------------------------------- a provider's part, exactly

  function Chosen(ids: seq<string>, whitelist: seq<string>): set<string> {
    set id | id in ids && id in whitelist
  }

  function SpecSet(cfg: Provider): set<string> {
    if cfg.enabled then set id | id in cfg.specs else {}
  }

  predicate KeyOf(k: string, p: string, id: string) {
    k == id || k == Prefixed(p, id)
  }

  /** Ids without slashes, and none of this provider's allowed by another. */
  ghost predicate Separate(p: string, providers: Providers) {
    && (forall q, id :: q in providers && Allowed(providers[q], id) ==> '/' !in id)
    && (p in providers ==>
        forall q, id :: q in providers && q != p && Allowed(providers[q], id) ==> !Allowed(providers[p], id))
  }

  /** The provider's entries are two keys for each of these ids and nothing else. */
  ghost predicate PartIs(reg: Registry, p: string, ids: set<string>) {
    && (forall k :: k in reg && reg[k].provider == p ==> reg[k].id in ids && KeyOf(k, p, reg[k].id))
    && (forall id :: id in ids ==>
          && id in reg && reg[id] == CloudModel(id, p)
          && Prefixed(p, id) in reg && reg[Prefixed(p, id)] == CloudModel(id, p))
  }

  /** Under separation an allowed id of this provider can only be a key of its own entries. */
  lemma OwnKeys(reg: Registry, p: string, providers: Providers, id: string)
    requires SoundRegistry(reg, providers) && Separate(p, providers) && p in providers && Allowed(providers[p], id)
    ensures id in reg ==> reg[id] == CloudModel(id, p)
    ensures Prefixed(p, id) in reg ==> reg[Prefixed(p, id)] == CloudModel(id, p)
  {
    PrefixedHasSlash(p, id);
    if id in reg {
      var m := reg[id];
      assert SoundEntry(id, m, providers);
      PrefixedHasSlash(m.provider, m.id);
    }
    if Prefixed(p, id) in reg {
      var m := reg[Prefixed(p, id)];
      assert SoundEntry(Prefixed(p, id), m, providers);
      if m.id != Prefixed(p, id) { PrefixedIsInjective(p, id, m.provider, m.id); }
    }
  }

  /** Another provider's id is none of the keys of this provider's ids. */
  lemma ForeignKeys(p: string, providers: Providers, id: string, q: string, other: string)
    requires Separate(p, providers) && p in providers && q in providers && q != p
    requires Allowed(providers[p], id) && Allowed(providers[q], other)
    ensures !KeyOf(other, p, id) && !KeyOf(Prefixed(q, other), p, id)
  {
    PrefixedHasSlash(p, id);
    PrefixedHasSlash(q, other);
    if Prefixed(q, other) == Prefixed(p, id) { PrefixedIsInjective(q, other, p, id); }
  }

  /** Registering one id of this provider, found or from a spec, adds it to its part. */
  lemma OwnIdIsAdded(reg: Registry, p: string, providers: Providers, ids: set<string>, id: string)
    requires SoundRegistry(reg, providers) && Separate(p, providers) && p in providers && Allowed(providers[p], id)
    requires PartIs(reg, p, ids) && forall i :: i in ids ==> Allowed(providers[p], i)
    ensures PartIs(AddDiscovered(reg, p, id), p, ids + {id})
    ensures PartIs(AddSpec(reg, p, id), p, ids + {id})
  {
    OwnKeys(reg, p, providers, id);
    PrefixedHasSlash(p, id);
    var reg' := AddDiscovered(reg, p, id);
    forall i | i in ids + {id}
      ensures i in reg' && reg'[i] == CloudModel(i, p)
      ensures Prefixed(p, i) in reg' && reg'[Prefixed(p, i)] == CloudModel(i, p)
    {
      PrefixedHasSlash(p, i);
      if Prefixed(p, i) == Prefixed(p, id) { PrefixedIsInjective(p, i, p, id); }
    }
    if id in reg {
      assert ids + {id} == ids;
    } else {
      assert AddSpec(reg, p, id) == reg';
    }
  }

  /** Registering another provider's id leaves this part alone. */
  lemma ForeignIdIsNotAdded(reg: Registry, p: string, providers: Providers, ids: set<string>, q: string, other: string)
    requires Separate(p, providers) && p in providers && q in providers && q != p && Allowed(providers[q], other)
    requires PartIs(reg, p, ids) && forall i :: i in ids ==> Allowed(providers[p], i)
    ensures PartIs(AddDiscovered(reg, q, other), p, ids)
    ensures PartIs(AddSpec(reg, q, other), p, ids)
  {
    var key := Prefixed(q, other);
    forall i | i in ids ensures !KeyOf(other, p, i) && !KeyOf(key, p, i) {
      ForeignKeys(p, providers, i, q, other);
    }
  }

  lemma {:induction false} FoundPart(reg: Registry, p: string, providers: Providers, ids: set<string>, q: string,
                                     found: seq<string>)
    requires SoundRegistry(reg, providers) && Separate(p, providers) && p in providers && q in providers
    requires PartIs(reg, p, ids) && forall i :: i in ids ==> Allowed(providers[p], i)
    ensures PartIs(AddAllDiscovered(reg, q, found, providers[q].whitelist), p,
                   if q == p then ids + Chosen(found, providers[p].whitelist) else ids)
  {
    var whitelist := providers[q].whitelist;
    if found == [] {
      assert q == p ==> ids + Chosen(found, whitelist) == ids;
    } else {
      var earlier, id := found[..|found| - 1], found[|found| - 1];
      FoundPart(reg, p, providers, ids, q, earlier);
      DiscoveredIsSound(reg, q, earlier, providers);
      var before := AddAllDiscovered(reg, q, earlier, whitelist);
      assert forall i :: i in found <==> i in earlier || i == id;
      if q == p {
        var sofar := ids + Chosen(earlier, whitelist);
        if id in whitelist {
          OwnIdIsAdded(before, p, providers, sofar, id);
          assert ids + Chosen(found, whitelist) == sofar + {id};
        } else {
          assert ids + Chosen(found, whitelist) == sofar;
        }
      } else if id in whitelist {
        ForeignIdIsNotAdded(before, p, providers, ids, q, id);
      }
    }
  }

  lemma {:induction false} SpecPart(reg: Registry, p: string, providers: Providers, ids: set<string>, q: string,
                                    specs: seq<string>)
    requires SoundRegistry(reg, providers) && Separate(p, providers) && p in providers && q in providers
    requires forall id :: id in specs ==> id in providers[q].specs
    requires PartIs(reg, p, ids) && forall i :: i in ids ==> Allowed(providers[p], i)
    ensures PartIs(AddSpecs(reg, q, specs), p, if q == p then ids + (set id | id in specs) else ids)
  {
    if specs == [] {
      assert ids + (set id | id in specs) == ids;
    } else {
      var earlier, id := specs[..|specs| - 1], specs[|specs| - 1];
      SpecPart(reg, p, providers, ids, q, earlier);
      SpecsAreSound(reg, q, earlier, providers);
      var before := AddSpecs(reg, q, earlier);
      assert forall i :: i in specs <==> i in earlier || i == id;
      if q == p {
        var sofar := ids + (set i | i in earlier);
        OwnIdIsAdded(before, p, providers, sofar, id);
        assert ids + (set i | i in specs) == sofar + {id};
      } else {
        ForeignIdIsNotAdded(before, p, providers, ids, q, id);
      }
    }
  }

  lemma {:induction false} AllSpecsPart(reg: Registry, p: string, providers: Providers, ids: set<string>,
                                        order: seq<string>)
    requires SoundRegistry(reg, providers) && Separate(p, providers) && p in providers
    requires PartIs(reg, p, ids) && forall i :: i in ids ==> Allowed(providers[p], i)
    ensures PartIs(AddSpecsOf(reg, order, providers), p, if p in order then ids + SpecSet(providers[p]) else ids)
  {
    if order != [] {
      var earlier, q := order[..|order| - 1], order[|order| - 1];
      AllSpecsPart(reg, p, providers, ids, earlier);
      AllSpecsAreSound(reg, earlier, providers);
      var before := AddSpecsOf(reg, earlier, providers);
      var sofar := if p in earlier then ids + SpecSet(providers[p]) else ids;
      assert p in order <==> p in earlier || p == q;
      if q in providers && providers[q].enabled {
        SpecPart(before, p, providers, sofar, q, providers[q].specs);
        if q == p { assert sofar + (set id | id in providers[p].specs) == ids + SpecSet(providers[p]); }
      } else if q == p {
        assert ids + SpecSet(providers[p]) == sofar;
      }
    }
  }

  lemma {:induction false} PolledPart(order: seq<string>, p: string, providers: Providers, answers: Answers)
    requires Separate(p, providers) && p in providers
    ensures PartIs(Polled(order, providers, answers), p,
                   if p in order then Chosen(AnswerOf(answers, p, providers[p]), providers[p].whitelist) else {})
  {
    if order != [] {
      var earlier, q := order[..|order| - 1], order[|order| - 1];
      PolledPart(earlier, p, providers, answers);
      PolledIsSound(earlier, providers, answers);
      var chosen := Chosen(AnswerOf(answers, p, providers[p]), providers[p].whitelist);
      assert p in order <==> p in earlier || p == q;
      if q in providers {
        var sofar := if p in earlier then chosen else {};
        FoundPart(Polled(earlier, providers, answers), p, providers, sofar, q, AnswerOf(answers, q, providers[q]));
        assert q == p ==> sofar + chosen == chosen;
      }
    }
  }

  /** Right after a curation call the provider's part of the registry is its whitelisted candidates and,
      while it is enabled, its specs: no more, no less, each under both of its keys. */
  lemma RebuiltIsExact(reg: Registry, p: string, order: seq<string>, was: Providers, providers: Providers,
                       candidates: map<string, seq<string>>)
    requires SoundRegistry(reg, was) && p in providers && p in order
    requires forall q :: q in was && q != p ==> q in providers && providers[q] == was[q]
    requires Separate(p, providers)
    ensures
      var found := if p in candidates then candidates[p] else [];
      PartIs(Rebuilt(reg, p, order, providers, candidates), p,
             Chosen(found, providers[p].whitelist) + SpecSet(providers[p]))
  {
    var found := if p in candidates then candidates[p] else [];
    var base := Dropped(reg, p);
    assert SoundRegistry(base, providers);
    assert PartIs(base, p, {});
    FoundPart(base, p, providers, {}, p, found);
    DiscoveredIsSound(base, p, found, providers);
    assert {} + Chosen(found, providers[p].whitelist) == Chosen(found, providers[p].whitelist);
    AllSpecsPart(AddAllDiscovered(base, p, found, providers[p].whitelist), p, providers,
                 Chosen(found, providers[p].whitelist), order);
  }

  /** After a round that collected anything, the part is the whitelisted part of this round's answer, not
      of the remembered candidates: a provider that fails to answer keeps its specs only. */
  lemma RoundIsExact(p: string, order: seq<string>, providers: Providers, answers: Answers)
    requires Separate(p, providers) && p in providers && p in order
    ensures PartIs(Discovered(order, providers, answers), p,
                   Chosen(AnswerOf(answers, p, providers[p]), providers[p].whitelist) + SpecSet(providers[p]))
  {
    PolledPart(order, p, providers, answers);
    PolledIsSound(order, providers, answers);
    AllSpecsPart(Polled(order, providers, answers), p, providers,
                 Chosen(AnswerOf(answers, p, providers[p]), providers[p].whitelist), order);
  }

  lemma PartIsUnique(reg: Registry, p: string, a: set<string>, b: set<string>)
    requires PartIs(reg, p, a) && PartIs(reg, p, b)
    ensures a == b
  {
    assert forall id :: id in a ==> reg[id].id in b;
    assert forall id :: id in b ==> reg[id].id in a;
  }

  /** The protection against a network blip holds for a provider that gives no answer exactly if it had
      nothing but its specs, or if the whole round collected nothing. */
  lemma SilentProviderKeepsPartIff(was: Registry, p: string, order: seq<string>, providers: Providers, answers: Answers,
                                   ids: set<string>)
    requires Separate(p, providers) && p in providers && p in order
    requires PartIs(was, p, ids) && AnswerOf(answers, p, providers[p]) == []
    ensures PartIs(AfterRound(was, order, providers, answers), p, ids) <==>
      ids == SpecSet(providers[p]) || Discovered(order, providers, answers) == map[]
  {
    RoundIsExact(p, order, providers, answers);
    var found := Discovered(order, providers, answers);
    assert Chosen([], providers[p].whitelist) + SpecSet(providers[p]) == SpecSet(providers[p]);
    if found != map[] && PartIs(found, p, ids) { PartIsUnique(found, p, ids, SpecSet(providers[p])); }
  }

  // ---------------------------------------------------------------- routing

  function RouteOf(reg: Registry, name: string, local: set<string>): Route {
    if ShortName(name) in local || name in local then Local
    else if ShortName(name) in reg then Cloud(reg[ShortName(name)].provider)
    else if name in reg then Cloud(reg[name].provider)
    else NoRoute
  }

  /** Nothing routes to a provider that does not list the model: an unticked candidate has no route. */
  lemma OnlyAllowedRoutes(reg: Registry, providers: Providers, name: string, local: set<string>)
    requires SoundRegistry(reg, providers)
    ensures var r := RouteOf(reg, name, local);
      r.Cloud? ==>
        && r.provider in providers
        && exists id :: Allowed(providers[r.provider], id)
                        && (KeyOf(name, r.provider, id) || KeyOf(ShortName(name), r.provider, id))
  {
    var short := ShortName(name);
    if short in reg {
      assert SoundEntry(short, reg[short], providers);
    } else if name in reg {
      assert SoundEntry(name, reg[name], providers);
    }
  }

  /** With slash-free ids the last part of the requested name is such an id. */
  lemma RouteServesShortName(reg: Registry, providers: Providers, name: string, local: set<string>)
    requires SoundRegistry(reg, providers)
    requires forall q, id :: q in providers && Allowed(providers[q], id) ==> '/' !in id
    ensures var r := RouteOf(reg, name, local);
      r.Cloud? ==> r.provider in providers && Allowed(providers[r.provider], ShortName(name))
  {
    OnlyAllowedRoutes(reg, providers, name, local);
    var r := RouteOf(reg, name, local);
    if r.Cloud? {
      var id :| Allowed(providers[r.provider], id)
                && (KeyOf(name, r.provider, id) || KeyOf(ShortName(name), r.provider, id));
      ShortOfPrefixed(r.provider, id);
      ShortOfSlashFree(id);
      PrefixedHasSlash(r.provider, id);
    }
  }

  /** Together: right after a curation call a slash-free name routes to the provider exactly if it is in
      the provider's part. */
  lemma PartRoutes(reg: Registry, p: string, ids: set<string>, name: string, local: set<string>)
    requires PartIs(reg, p, ids) && '/' !in name && name !in local
    ensures RouteOf(reg, name, local) == Cloud(p) <==> name in ids
  {
    ShortOfSlashFree(name);
    if name in reg && reg[name].provider == p { PrefixedHasSlash(p, reg[name].id); }
  }

  /** A model that runs here is never asked for in the cloud, by whichever of its names. */
  lemma LocalComesFirst(reg: Registry, provider: string, id: string, local: set<string>)
    requires '/' !in id
    ensures RouteOf(reg, id, local) == Local <==> id in local
    ensures RouteOf(reg, Prefixed(provider, id), local) == Local <==> id in local || Prefixed(provider, id) in local
  {
    ShortOfSlashFree(id);
    ShortOfPrefixed(provider, id);
  }

  /** A name with a provider in front routes to that provider exactly if it holds the short key, or if nobody
      does and it holds the prefixed one. */
  lemma PrefixedRoutesIff(reg: Registry, provider: string, id: string, local: set<string>)
    requires '/' !in id && id !in local && Prefixed(provider, id) !in local
    ensures RouteOf(reg, Prefixed(provider, id), local) == Cloud(provider) <==>
      var key := if id in reg then id else Prefixed(provider, id);
      key in reg && reg[key].provider == provider
  {
    ShortOfPrefixed(provider, id);
  }

  /** So the provider in front can be ignored: here both providers list the model, and the name that asks for
      the second leads to the first. */
  lemma ProviderInFrontIsIgnored(p: string, q: string, id: string)
    requires p != q && '/' !in id
    ensures
      var providers: Providers := map[p := Provider(true, true, [id], []), q := Provider(true, true, [id], [])];
      var reg := Discovered([p, q], providers, map[p := Some([id]), q := Some([id])]);
      && Prefixed(q, id) in reg && reg[Prefixed(q, id)].provider == q
      && RouteOf(reg, Prefixed(q, id), {}) == Cloud(p)
  {
    var providers: Providers := map[p := Provider(true, true, [id], []), q := Provider(true, true, [id], [])];
    var answers: Answers := map[p := Some([id]), q := Some([id])];
    var one, two := AddDiscovered(map[], p, id), AddDiscovered(AddDiscovered(map[], p, id), q, id);
    OneAnswer(map[], p, id);
    OneAnswer(one, q, id);
    assert [p, q][..1] == [p] && [p][..0] == [];
    assert Polled([p], providers, answers) == one;
    assert Polled([p, q], providers, answers) == two;
    NoSpecs(two, [p, q], providers);
    PrefixedHasSlash(p, id);
    PrefixedHasSlash(q, id);
    ShortOfPrefixed(q, id);
  }

  lemma {:induction false} NoSpecs(reg: Registry, order: seq<string>, providers: Providers)
    requires forall p :: p in providers ==> providers[p].specs == []
    ensures AddSpecsOf(reg, order, providers) == reg
  {
    if order != [] { NoSpecs(reg, order[..|order| - 1], providers); }
  }

  lemma OneAnswer(reg: Registry, p: string, id: string)
    ensures AddAllDiscovered(reg, p, [id], [id]) == AddDiscovered(reg, p, id)
  {
    assert [id][..0] == [];
  }

  /** Two providers with one whitelisted model each. */
  function TwoProviders(p: string, q: string, x: string, y: string): Providers {
    map[p := Provider(true, true, [x], []), q := Provider(true, true, [y], [])]
  }

  lemma TwoAreSeparate(p: string, q: string, x: string, y: string)
    requires p != q && x != y && '/' !in x && '/' !in y
    ensures Separate(p, TwoProviders(p, q, x, y)) && Separate(q, TwoProviders(p, q, x, y))
  {
  }

  lemma BothAnswer(p: string, q: string, x: string, y: string)
    requires p != q && x != y && '/' !in x && '/' !in y
    ensures var was := Discovered([p, q], TwoProviders(p, q, x, y), map[p := Some([x]), q := Some([y])]);
      PartIs(was, p, {x}) && RouteOf(was, x, {}) == Cloud(p)
  {
    var providers, answers: Answers := TwoProviders(p, q, x, y), map[p := Some([x]), q := Some([y])];
    TwoAreSeparate(p, q, x, y);
    RoundIsExact(p, [p, q], providers, answers);
    assert Chosen([x], [x]) + SpecSet(providers[p]) == {x};
    PartRoutes(Discovered([p, q], providers, answers), p, {x}, x, {});
  }

  lemma OneIsSilent(p: string, q: string, x: string, y: string)
    requires p != q && x != y && '/' !in x && '/' !in y
    ensures var now := Discovered([p, q], TwoProviders(p, q, x, y), map[p := None, q := Some([y])]);
      now != map[] && PartIs(now, p, {}) && RouteOf(now, x, {}) == NoRoute
  {
    var providers, answers: Answers := TwoProviders(p, q, x, y), map[p := None, q := Some([y])];
    var now := Discovered([p, q], providers, answers);
    TwoAreSeparate(p, q, x, y);
    RoundIsExact(p, [p, q], providers, answers);
    RoundIsExact(q, [p, q], providers, answers);
    assert Chosen([], [x]) + SpecSet(providers[p]) == {};
    assert Chosen([y], [y]) + SpecSet(providers[q]) == {y};
    assert y in now;
    PartRoutes(now, p, {}, x, {});
    RoundIsSound([p, q], providers, answers);
    RouteServesShortName(now, providers, x, {});
    ShortOfSlashFree(x);
  }

  /** Two providers answer, then one of them fails to: its model was routed and is not any more, although
      it is still remembered as a candidate. */
  lemma SilentProviderLosesPart(p: string, q: string, x: string, y: string)
    requires p != q && x != y && '/' !in x && '/' !in y
    ensures
      var order, providers := [p, q], TwoProviders(p, q, x, y);
      var both: Answers, silent: Answers := map[p := Some([x]), q := Some([y])], map[p := None, q := Some([y])];
      var was := AfterRound(map[], order, providers, both);
      var now := AfterRound(was, order, providers, silent);
      && RouteOf(was, x, {}) == Cloud(p) && PartIs(was, p, {x})
      && RouteOf(now, x, {}) == NoRoute && PartIs(now, p, {})
      && var candidates := Remembered(Remembered(map[], order, providers, both), order, providers, silent);
         p in candidates && candidates[p] == [x]
  {
    var order, providers := [p, q], TwoProviders(p, q, x, y);
    var both: Answers, silent: Answers := map[p := Some([x]), q := Some([y])], map[p := None, q := Some([y])];
    BothAnswer(p, q, x, y);
    OneIsSilent(p, q, x, y);
    CandidatesSurviveBlips(map[], order, providers, both, p);
    CandidatesSurviveBlips(Remembered(map[], order, providers, both), order, providers, silent, p);
  }

  function Routable(reg: Registry, p: string): set<string> {
    set k | k in reg && '/' !in k && reg[k].provider == p
  }

  lemma RoutableIsPart(reg: Registry, p: string, ids: set<string>)
    requires PartIs(reg, p, ids) && forall id :: id in ids ==> '/' !in id
    ensures Routable(reg, p) == ids
  {
    forall k | k in Routable(reg, p) ensures k in ids {
      PrefixedHasSlash(p, reg[k].id);
    }
  }

  // ---------------------------------------------------------------- the object

  function Ticked(whitelist: seq<string>, id: string): seq<string> {
    if id in whitelist then whitelist else whitelist + [id]
  }

  /** Removes the first occurrence. */
  function Removed(s: seq<string>, id: string): (left: seq<string>)
    ensures forall x :: x != id ==> (x in left <==> x in s)
    ensures |left| == if id in s then |s| - 1 else |s|
  {
    if s == [] then [] else if s[0] == id then s[1..] else [s[0]] + Removed(s[1..], id)
  }

  datatype Request =
    | Enable(provider: string, id: string)
    | Disable(provider: string, id: string)
    | AddManual(provider: string, id: string)
    | RemoveManual(provider: string, id: string)
    | Drop(provider: string)
    | Round(answers: Answers)

  class CloudDiscovery {
    var order: seq<string>
    var providers: Providers
    var candidates: map<string, seq<string>>
    var models: Registry

    ghost predicate Valid()
      reads this
    {
      && (forall p :: p in providers <==> p in order)
      && SoundRegistry(models, providers)
    }

    constructor (order: seq<string>, providers: Providers)
      requires forall p :: p in providers <==> p in order
      ensures Valid() && this.order == order && this.providers == providers && models == map[] && candidates == map[]
    {
      this.order, this.providers, candidates, models := order, providers, map[], map[];
    }

    method RegisterSpecOnly(reg: Registry) returns (merged: Registry)
      ensures merged == AddSpecsOf(reg, order, providers)
    {
      merged := reg;
      for i := 0 to |order|
        invariant merged == AddSpecsOf(reg, order[..i], providers)
      {
        assert order[..i + 1][..i] == order[..i];
        var p := order[i];
        if p in providers && providers[p].enabled {
          ghost var before := merged;
          var specs := providers[p].specs;
          for j := 0 to |specs|
            invariant merged == AddSpecs(before, p, specs[..j])
          {
            assert specs[..j + 1][..j] == specs[..j];
            if specs[j] !in merged {
              var m := CloudModel(specs[j], p);
              merged := merged[specs[j] := m];
              merged := merged[Prefixed(p, specs[j]) := m];
            }
          }
          assert specs[..|specs|] == specs;
        }
      }
      assert order[..|order|] == order;
    }

    method RegisterFound(reg: Registry, p: string, found: seq<string>, whitelist: seq<string>)
      returns (merged: Registry)
      ensures merged == AddAllDiscovered(reg, p, found, whitelist)
    {
      merged := reg;
      for i := 0 to |found|
        invariant merged == AddAllDiscovered(reg, p, found[..i], whitelist)
      {
        assert found[..i + 1][..i] == found[..i];
        if found[i] in whitelist {
          var m := CloudModel(found[i], p);
          if found[i] !in merged { merged := merged[found[i] := m]; }
          merged := merged[Prefixed(p, found[i]) := m];
        }
      }
      assert found[..|found|] == found;
    }

    method Rebuild(p: string)
      requires p in providers
      modifies this`models
      ensures models == Rebuilt(old(models), p, order, providers, candidates)
    {
      var reg := map k | k in models && models[k].provider != p :: models[k];
      var found := if p in candidates then candidates[p] else [];
      reg := RegisterFound(reg, p, found, providers[p].whitelist);
      reg := RegisterSpecOnly(reg);
      models := reg;
    }

    /** Stores the changed configuration of a provider, rebuilds its part and counts it. */
    method Curate(p: string, cfg: Provider) returns (count: nat)
      requires Valid() && p in providers
      modifies this`providers, this`models
      ensures Valid() && providers == old(providers)[p := cfg]
      ensures models == Rebuilt(old(models), p, order, providers, candidates)
      ensures count == |Routable(models, p)|
      ensures Separate(p, providers) ==>
        PartIs(models, p, Chosen(if p in candidates then candidates[p] else [], cfg.whitelist) + SpecSet(cfg))
    {
      providers := providers[p := cfg];
      Rebuild(p);
      RebuiltIsSound(old(models), p, order, old(providers), providers, candidates);
      if Separate(p, providers) { RebuiltIsExact(old(models), p, order, old(providers), providers, candidates); }
      count := |set k | k in models && '/' !in k && models[k].provider == p|;
    }

    method EnableModel(p: string, id: string) returns (count: Option<nat>)
      requires Valid()
      modifies this`providers, this`models
      ensures Valid()
      ensures p !in old(providers) ==> count == None && providers == old(providers) && models == old(models)
      ensures p in old(providers) ==>
        && var was := old(providers)[p];
        && providers == old(providers)[p := was.(whitelist := Ticked(was.whitelist, id))]
        && models == Rebuilt(old(models), p, order, providers, candidates)
        && count == Some(|Routable(models, p)|)
    {
      if p !in providers { return None; }
      var cfg := providers[p];
      if id !in cfg.whitelist { cfg := cfg.(whitelist := cfg.whitelist + [id]); }
      var n := Curate(p, cfg);
      count := Some(n);
    }

    method DisableModel(p: string, id: string) returns (count: Option<nat>)
      requires Valid()
      modifies this`providers, this`models
      ensures Valid()
      ensures p !in old(providers) ==> count == None && providers == old(providers) && models == old(models)
      ensures p in old(providers) ==>
        && var was := old(providers)[p];
        && providers == old(providers)[p := was.(whitelist := Removed(was.whitelist, id))]
        && models == Rebuilt(old(models), p, order, providers, candidates)
        && count == Some(|Routable(models, p)|)
    {
      if p !in providers { return None; }
      var cfg := providers[p];
      var n := Curate(p, cfg.(whitelist := Removed(cfg.whitelist, id)));
      count := Some(n);
    }

    method AddManualModel(p: string, id: string) returns (count: Option<nat>)
      requires Valid()
      modifies this`providers, this`models
      ensures Valid()
      ensures p !in old(providers) ==> count == None && providers == old(providers) && models == old(models)
      ensures p in old(providers) ==>
        && var was := old(providers)[p];
        && providers == old(providers)[p := was.(specs := Ticked(was.specs, id))]
        && models == Rebuilt(old(models), p, order, providers, candidates)
        && count == Some(|Routable(models, p)|)
    {
      if p !in providers { return None; }
      var cfg := providers[p];
      if id !in cfg.specs { cfg := cfg.(specs := cfg.specs + [id]); }
      var n := Curate(p, cfg);
      count := Some(n);
    }

    /** None stands for the two missing keys: the provider, or the id among its specs. */
    method RemoveManualModel(p: string, id: string) returns (count: Option<nat>)
      requires Valid()
      modifies this`providers, this`models
      ensures Valid()
      ensures count == None <==> p !in old(providers) || id !in old(providers)[p].specs
      ensures count == None ==> providers == old(providers) && models == old(models)
      ensures count.Some? ==>
        && var was := old(providers)[p];
        && providers == old(providers)[p := was.(specs := Removed(was.specs, id))]
        && models == Rebuilt(old(models), p, order, providers, candidates)
        && count == Some(|Routable(models, p)|)
    {
      if p !in providers || id !in providers[p].specs { return None; }
      var cfg := providers[p];
      var n := Curate(p, cfg.(specs := Removed(cfg.specs, id)));
      count := Some(n);
    }

    method DropProvider(p: string) returns (ok: bool)
      requires Valid()
      modifies this
      ensures Valid()
      ensures ok <==> p in old(providers)
      ensures !ok ==> order == old(order) && providers == old(providers)
      ensures !ok ==> candidates == old(candidates) && models == old(models)
      ensures ok ==>
        && providers == old(providers) - {p} && candidates == old(candidates) - {p}
        && models == Dropped(old(models), p)
        && forall k :: k in models ==> models[k].provider != p
    {
      if p !in providers { return false; }
      order := Others(order, p);
      providers := providers - {p};
      models := map k | k in models && models[k].provider != p :: models[k];
      candidates := candidates - {p};
      ok := true;
    }

    /** One discovery round. An answer without models does not replace the remembered candidates, and a
        round that yields nothing at all keeps the registry. */
    method DiscoverAll(answers: Answers) returns (result: Registry)
      requires Valid()
      modifies this`candidates, this`models
      ensures Valid() && result == models
      ensures models == AfterRound(old(models), order, providers, answers)
      ensures forall p, ids ::
        Separate(p, providers) && p in providers && PartIs(old(models), p, ids)
        && AnswerOf(answers, p, providers[p]) == [] ==>
          (PartIs(models, p, ids) <==>
           ids == SpecSet(providers[p]) || Discovered(order, providers, answers) == map[])
      ensures candidates == Remembered(old(candidates), order, providers, answers)
    {
      var merged := PollAll(answers);
      merged := RegisterSpecOnly(merged);
      RoundIsSound(order, providers, answers);
      ghost var was := models;
      if merged != map[] { models := merged; }
      result := models;
      forall p, ids |
        && Separate(p, providers) && p in providers && PartIs(was, p, ids)
        && AnswerOf(answers, p, providers[p]) == []
        ensures PartIs(models, p, ids) <==>
          ids == SpecSet(providers[p]) || Discovered(order, providers, answers) == map[]
      {
        SilentProviderKeepsPartIff(was, p, order, providers, answers, ids);
      }
    }

    method PollAll(answers: Answers) returns (merged: Registry)
      requires Valid()
      modifies this`candidates
      ensures Valid() && merged == Polled(order, providers, answers)
      ensures candidates == Remembered(old(candidates), order, providers, answers)
    {
      merged := map[];
      for i := 0 to |order|
        invariant merged == Polled(order[..i], providers, answers)
        invariant candidates == Remembered(old(candidates), order[..i], providers, answers)
      {
        assert order[..i + 1][..i] == order[..i];
        var p := order[i];
        var cfg := providers[p];
        if cfg.enabled && cfg.discovery && p in answers && answers[p].Some? {
          var found := answers[p].value;
          if found != [] { candidates := candidates[p := found]; }
          merged := RegisterFound(merged, p, found, cfg.whitelist);
        }
      }
      assert order[..|order|] == order;
    }

    method ResolveRoute(name: string, local: set<string>) returns (r: Route)
      requires Valid()
      ensures r == RouteOf(models, name, local)
      ensures r.Cloud? ==>
        && r.provider in providers
        && exists id :: Allowed(providers[r.provider], id)
                        && (KeyOf(name, r.provider, id) || KeyOf(ShortName(name), r.provider, id))
    {
      OnlyAllowedRoutes(models, providers, name, local);
      var short := ShortName(name);
      if short in local || name in local { return Local; }
      if short in models { return Cloud(models[short].provider); }
      if name in models { return Cloud(models[name].provider); }
      r := NoRoute;
    }

    /** After any sequence of curation calls, drops and discovery rounds, every key is its model's id or
        provider/id and that id is in the provider's whitelist or specs. */
    method Run(requests: seq<Request>)
      requires Valid()
      modifies this
      ensures Valid()
      ensures forall k :: k in models ==> SoundEntry(k, models[k], providers)
    {
      for i := 0 to |requests|
        invariant Valid()
      {
        match requests[i]
        case Enable(p, id) => var _ := EnableModel(p, id);
        case Disable(p, id) => var _ := DisableModel(p, id);
        case AddManual(p, id) => var _ := AddManualModel(p, id);
        case RemoveManual(p, id) => var _ := RemoveManualModel(p, id);
        case Drop(p) => var _ := DropProvider(p);
        case Round(answers) => var _ := DiscoverAll(answers);
      }
    }
  }

  function Others(order: seq<string>, p: string): (left: seq<string>)
    ensures forall q :: q in left <==> q in order && q != p
  {
    if order == [] then []
    else (if order[0] == p then [] else [order[0]]) + Others(order[1..], p)
  }
}

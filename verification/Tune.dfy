// Applying a tuning scenario: the YAML values (never written), the applied-scenario file and the
// values in memory, with rollback when the restart or the smoke request fails.

module ScenarioCaps {
  import opened Wrappers

  datatype Value = Flag(flag: bool) | Number(n: int)
  type Values = map<string, Value>

  datatype Cap = Cap(min: Option<int>, max: Option<int>, step: Option<int>)

  const NO_CAP := Cap(None, None, None)

  /** The hard limits of the engine. */
  function EngineCap(field: string): (cap: Cap)
    ensures cap.step.Some? ==> cap.step.value > 0
  {
    if field == "max_concurrency" then Cap(Some(1), Some(8), None)
    else if field == "draft_tokens" then Cap(Some(1), Some(5), None)
    else if field == "prefill_chunk" then Cap(None, None, Some(128))
    else if field == "max_context" then Cap(Some(16), Some(262144), None)
    else if field == "default_max_tokens" then Cap(Some(1), None, None)
    else if field == "kv_capacity" then Cap(Some(1), None, None)
    else NO_CAP
  }

  const SCENARIO_FIELDS: set<string> :=
    {"max_concurrency", "max_context", "default_max_tokens", "prefill_chunk", "enable_mtp", "draft_tokens",
     "kv_capacity"}

  function ClampNumber(n: int, cap: Cap): int
    requires cap.step.Some? ==> cap.step.value > 0
  {
    var low := if cap.min.Some? && n < cap.min.value then cap.min.value else n;
    var high := if cap.max.Some? && low > cap.max.value then cap.max.value else low;
    if cap.step.Some? && high % cap.step.value != 0 then high / cap.step.value * cap.step.value else high
  }

  function ClampField(field: string, v: Value): Value {
    if v.Number? then Number(ClampNumber(v.n, EngineCap(field))) else v
  }

  function Clamped(values: Values): Values {
    map k | k in values :: ClampField(k, values[k])
  }

  predicate Within(n: int, cap: Cap) {
    && (cap.min.Some? ==> cap.min.value <= n)
    && (cap.max.Some? ==> n <= cap.max.value)
    && (cap.step.Some? ==> cap.step.value > 0 && n % cap.step.value == 0)
  }

  /** Clamped values respect the engine's limits, values that did are left alone, and clamping again
      changes nothing. */
  lemma ClampMeetsCaps(field: string, n: int)
    ensures var m := ClampNumber(n, EngineCap(field));
      && Within(m, EngineCap(field))
      && (Within(n, EngineCap(field)) ==> m == n)
      && ClampNumber(m, EngineCap(field)) == m
  {
    if field == "prefill_chunk" {
      assert n / 128 * 128 % 128 == 0;
    }
  }

  function Between(low: int, n: int, high: int): int {
    if n < low then low else if n > high then high else n
  }

  /** The limits in numbers; flags are left alone. */
  lemma CapsInNumbers(n: int, flag: bool)
    ensures ClampField("max_concurrency", Number(n)) == Number(Between(1, n, 8))
    ensures ClampField("draft_tokens", Number(n)) == Number(Between(1, n, 5))
    ensures ClampField("max_context", Number(n)) == Number(Between(16, n, 262144))
    ensures ClampField("default_max_tokens", Number(n)) == Number(if n < 1 then 1 else n)
    ensures ClampField("kv_capacity", Number(n)) == Number(if n < 1 then 1 else n)
    ensures var m := ClampField("prefill_chunk", Number(n)); m.Number? && m.n % 128 == 0 && m.n <= n < m.n + 128
    ensures forall field :: ClampField(field, Flag(flag)) == Flag(flag)
    ensures forall field :: EngineCap(field) == NO_CAP ==> ClampField(field, Number(n)) == Number(n)
  {
    assert n / 128 * 128 % 128 == 0;
  }

  method Clamp(values: Values) returns (out: Values)
    ensures out == Clamped(values)
  {
    out := map[];
    var todo := values.Keys;
    while todo != {}
      invariant todo <= values.Keys
      invariant out.Keys == values.Keys - todo
      invariant forall k :: k in out ==> out[k] == ClampField(k, values[k])
    {
      var k :| k in todo;
      out := out[k := ClampField(k, values[k])];
      todo := todo - {k};
    }
  }

  /** The engine refuses a KV pool smaller than the context window. */
  function IsBlocked(after: Values, memory: Values): bool {
    var kv := if "kv_capacity" in after then Some(after["kv_capacity"])
              else if "kv_capacity" in memory then Some(memory["kv_capacity"]) else None;
    && "max_context" in after && after["max_context"].Number?
    && kv.Some? && kv.value.Number? && kv.value.n < after["max_context"].n
  }

  /** Refused is exactly the scenario that sets a context window larger than the pool there is with it. */
  lemma BlockedIff(after: Values, memory: Values)
    ensures IsBlocked(after, memory) <==>
      exists window, pool ::
        && "max_context" in after && after["max_context"] == Number(window)
        && "kv_capacity" in memory + after && (memory + after)["kv_capacity"] == Number(pool) && pool < window
  {
    if IsBlocked(after, memory) {
      var window, pool := after["max_context"].n, (memory + after)["kv_capacity"].n;
      assert after["max_context"] == Number(window) && (memory + after)["kv_capacity"] == Number(pool);
    }
  }
}

module Tuning {
  import opened Wrappers
  import opened ScenarioCaps

  datatype Entry = Entry(preset: string, overrides: Values)

  datatype RestartResult = RestartOk | RestartError | RestartRaises

  /** What the outside answers during one call. */
  datatype Outside = Outside(
    saveWorks: bool,
    restart: RestartResult,
    smokePasses: bool,
    restoreSaveWorks: bool,
    yamlReadable: bool,
    rollbackRestart: RestartResult)

  datatype Outcome =
    | TuneError
    | Preview
    | AlreadyDefault
    | Pending
    | Applied
    | SmokeRolledBack
    | FailedRolledBack
    | FailedRollbackFailed
    | FailedRollbackError
    | Raised

  /** The values a fresh load of the configuration gives: YAML under the applied overrides. */
  function Overlay(yaml: Values, entry: Option<Entry>): Values {
    match entry
    case None => yaml
    case Some(e) => yaml + map k | k in e.overrides && k in yaml :: e.overrides[k]
  }

  /** An override counts for the fields that the YAML has, and no other field appears. */
  lemma OverlayShows(yaml: Values, entry: Option<Entry>, k: string, v: Value)
    ensures k in Overlay(yaml, entry) && Overlay(yaml, entry)[k] == v <==>
      && k in yaml
      && v == if entry.Some? && k in entry.value.overrides then entry.value.overrides[k] else yaml[k]
  {
  }

  /** The values put back into memory by a rollback. */
  function RestoreValues(yaml: Values, previous: Option<Entry>): Values {
    match previous
    case None => yaml
    case Some(e) => e.overrides
  }

  function RestorePreset(previous: Option<Entry>): string {
    match previous
    case None => ""
    case Some(e) => e.preset
  }

  function EntryFor(preset: string, after: Values): Option<Entry> {
    if preset == "default" then None else Some(Entry(preset, after))
  }

  function Look(applied: map<string, Entry>, name: string): Option<Entry> {
    if name in applied then Some(applied[name]) else None
  }

  function Written(applied: map<string, Entry>, name: string, entry: Option<Entry>): map<string, Entry> {
    match entry
    case None => applied - {name}
    case Some(e) => applied[name := e]
  }

  /** Scenarios that draft more than one token are checked with one request after the restart. */
  predicate NeedsSmoke(preset: string, after: Values) {
    && preset != "default" && "draft_tokens" in after
    && after["draft_tokens"].Number? && after["draft_tokens"].n > 1
  }

  /** Tested is exactly the scenario, not the default, that drafts two tokens or more. */
  lemma SmokeIff(preset: string, after: Values)
    ensures NeedsSmoke(preset, after) <==>
      preset != "default" && exists n :: n >= 2 && "draft_tokens" in after && after["draft_tokens"] == Number(n)
  {
    if NeedsSmoke(preset, after) {
      var n := after["draft_tokens"].n;
      assert n >= 2 && after["draft_tokens"] == Number(n);
    }
  }

  /** A rollback gets as far as the values in memory: the file entry is written back and, when there was
      none, the YAML values can be read. */
  predicate CanRestore(previous: Option<Entry>, outside: Outside) {
    outside.restoreSaveWorks && (previous.Some? || outside.yamlReadable)
  }

  /** Writing an entry shows that entry and no change anywhere else; writing back what was there undoes
      the write. */
  lemma WriteAndUndo(applied: map<string, Entry>, name: string, entry: Option<Entry>)
    ensures Look(Written(applied, name, entry), name) == entry
    ensures forall other :: other != name ==> Look(Written(applied, name, entry), other) == Look(applied, other)
    ensures Written(Written(applied, name, entry), name, Look(applied, name)) == applied
  {
  }

  /** When memory shows what the previous state prescribes, a rollback brings it back exactly if every
      field the new scenario changed is one the previous overrides set; from default it always does. */
  lemma MemoryIsRestoredIff(yaml: Values, previous: Option<Entry>, memory: Values, after: Values)
    requires after.Keys <= yaml.Keys && (previous.Some? ==> previous.value.overrides.Keys <= yaml.Keys)
    requires memory == Overlay(yaml, previous)
    ensures memory + after + RestoreValues(yaml, previous) == memory <==>
      previous == None
      || forall k :: k in after && k !in previous.value.overrides ==> after[k] == yaml[k]
  {
    var back := memory + after + RestoreValues(yaml, previous);
    assert back.Keys == memory.Keys;
    match previous
    case None => assert back == memory;
    case Some(e) =>
      assert forall k :: k in back ==>
        back[k] == if k in e.overrides then e.overrides[k] else if k in after then after[k] else yaml[k];
      if forall k :: k in after && k !in e.overrides ==> after[k] == yaml[k] {
        assert forall k :: k in memory ==> back[k] == memory[k];
        assert back == memory;
      }
      if back == memory {
        forall k | k in after && k !in e.overrides ensures after[k] == yaml[k] {
          assert back[k] == memory[k];
        }
      }
  }

  /** In particular: whenever the previous overrides cover the fields of the new scenario. */
  lemma CoveringOverridesRestore(yaml: Values, previous: Entry, memory: Values, after: Values)
    requires after.Keys <= previous.overrides.Keys <= yaml.Keys
    requires memory == Overlay(yaml, Some(previous))
    ensures memory + after + RestoreValues(yaml, Some(previous)) == memory
  {
    MemoryIsRestoredIff(yaml, Some(previous), memory, after);
  }

  /** Where they do not, a rolled-back scenario leaves its value behind in memory: here a concurrency of
      four, although the YAML says two and the previous scenario only widened the context. */
  lemma RollbackCanLeaveResidue()
    ensures
      var yaml: Values := map["max_concurrency" := Number(2), "max_context" := Number(64)];
      var previous := Some(Entry("wide", map["max_context" := Number(128)]));
      var after: Values := map["max_concurrency" := Number(4)];
      Overlay(yaml, previous) + after + RestoreValues(yaml, previous) != Overlay(yaml, previous)
  {
    var yaml: Values := map["max_concurrency" := Number(2), "max_context" := Number(64)];
    var previous := Some(Entry("wide", map["max_context" := Number(128)]));
    var after: Values := map["max_concurrency" := Number(4)];
    assert "max_concurrency" != "max_context" by { assert |"max_concurrency"| != |"max_context"|; }
    MemoryIsRestoredIff(yaml, previous, Overlay(yaml, previous), after);
    assert "max_concurrency" in after && after["max_concurrency"] != yaml["max_concurrency"];
  }

  /** When the rollback to the default cannot read the YAML values, the file is back at the default but
      memory keeps the scenario: the two agree exactly if the scenario set nothing but YAML values. */
  lemma UnreadableYamlAgreesIff(yaml: Values, after: Values)
    requires after.Keys <= yaml.Keys
    ensures Overlay(yaml, None) + after == Overlay(yaml, None) <==> forall k :: k in after ==> after[k] == yaml[k]
  {
    var memory := yaml + after;
    if memory == yaml {
      forall k | k in after ensures after[k] == yaml[k] {
        assert memory[k] == after[k];
      }
    }
  }

  /** After a scenario is applied, memory is what a fresh load would give exactly if the overrides it
      replaces set nothing beside its own fields. */
  lemma MemoryMatchesDiskIff(yaml: Values, previous: Option<Entry>, preset: string, after: Values)
    requires preset != "default" && after.Keys <= yaml.Keys
    requires previous.Some? ==> previous.value.overrides.Keys <= yaml.Keys
    ensures Overlay(yaml, previous) + after == Overlay(yaml, EntryFor(preset, after)) <==>
      previous == None
      || forall k :: k in previous.value.overrides && k !in after ==> previous.value.overrides[k] == yaml[k]
  {
    var memory, disk := Overlay(yaml, previous) + after, Overlay(yaml, EntryFor(preset, after));
    assert memory.Keys == disk.Keys == yaml.Keys;
    assert forall k :: k in after ==> memory[k] == disk[k] == after[k];
    assert forall k :: k in yaml && k !in after ==> disk[k] == yaml[k];
    match previous
    case None => assert memory == disk;
    case Some(e) =>
      assert forall k :: k in yaml && k !in after ==> memory[k] == if k in e.overrides then e.overrides[k] else yaml[k];
      if forall k :: k in e.overrides && k !in after ==> e.overrides[k] == yaml[k] {
        assert forall k :: k in yaml ==> memory[k] == disk[k];
        assert memory == disk;
      }
      if memory == disk {
        forall k | k in e.overrides && k !in after ensures e.overrides[k] == yaml[k] {
          assert memory[k] == disk[k];
        }
      }
  }

  class Tuner {
    const name: string
    const yaml: Values
    const presets: map<string, Values>
    var applied: map<string, Entry>
    var memory: Values
    var activePreset: string

    constructor (name: string, yaml: Values, presets: map<string, Values>, applied: map<string, Entry>)
      ensures this.name == name && this.yaml == yaml && this.presets == presets && this.applied == applied
      ensures memory == Overlay(yaml, Look(applied, name)) && activePreset == RestorePreset(Look(applied, name))
    {
      this.name, this.yaml, this.presets, this.applied := name, yaml, presets, applied;
      memory := Overlay(yaml, Look(applied, name));
      activePreset := RestorePreset(Look(applied, name));
    }

    /** The clamped target values of a scenario; None for an unknown one. */
    function Target(preset: string): Option<Values> {
      if preset == "default" then Some(Clamped(yaml))
      else if preset in presets then
        Some(Clamped(map k | k in presets[preset] && k in SCENARIO_FIELDS :: presets[preset][k]))
      else None
    }

    /** Replaces the whole file atomically, or fails without touching it. */
    method SaveEntry(entry: Option<Entry>, works: bool) returns (ok: bool)
      modifies this`applied
      ensures ok == works
      ensures applied == if ok then Written(old(applied), name, entry) else old(applied)
    {
      if works {
        applied := match entry case None => applied - {name} case Some(e) => applied[name := e];
      }
      ok := works;
    }

    method SetMemory(values: Values, preset: string)
      modifies this`memory, this`activePreset
      ensures memory == old(memory) + values && activePreset == preset
    {
      var todo := values.Keys;
      while todo != {}
        invariant todo <= values.Keys
        invariant memory == old(memory) + (map k | k in values && k !in todo :: values[k])
      {
        var k :| k in todo;
        memory := memory[k := values[k]];
        todo := todo - {k};
      }
      assert (map k | k in values && k !in {} :: values[k]) == values;
      activePreset := preset;
    }

    /** Puts the previous file entry and values back, then restarts with them; RestartRaises stands for
        every exception on the way. */
    method RestorePrevious(previous: Option<Entry>, outside: Outside) returns (r: RestartResult)
      modifies this
      ensures applied == if outside.restoreSaveWorks then Written(old(applied), name, previous) else old(applied)
      ensures if CanRestore(previous, outside)
        then && r == outside.rollbackRestart
             && memory == old(memory) + RestoreValues(yaml, previous) && activePreset == RestorePreset(previous)
        else r == RestartRaises && memory == old(memory) && activePreset == old(activePreset)
    {
      var saved := SaveEntry(previous, outside.restoreSaveWorks);
      if !saved { return RestartRaises; }
      if previous.Some? {
        SetMemory(previous.value.overrides, previous.value.preset);
      } else {
        if !outside.yamlReadable { return RestartRaises; }
        SetMemory(yaml, "");
      }
      r := outside.rollbackRestart;
    }

    /** Applies a scenario. In every outcome the model's entry in the file is exactly the new or exactly
        the previous one, as the outcome says, and no other entry changes. */
    method Apply(preset: string, dry: bool, restart: bool, managed: bool, running: bool, outside: Outside)
      returns (r: Outcome)
      modifies this
      ensures r.TuneError? <==> Target(preset) == None || IsBlocked(Target(preset).value, old(memory))
      ensures r.TuneError? || r.Preview? || r.AlreadyDefault? ==>
        applied == old(applied) && memory == old(memory) && activePreset == old(activePreset)
      ensures dry ==> r.TuneError? || r.Preview?
      ensures r.AlreadyDefault? ==> preset == "default" && name !in old(applied) && !(restart && managed && running)
      ensures Target(preset).Some? ==>
        var before, after := Look(old(applied), name), Look(applied, name);
        var target := Target(preset).value;
        var put := EntryFor(preset, target);
        var undone := old(memory) + target + RestoreValues(yaml, before);
        match r
        case TuneError => true
        case Preview => dry
        case AlreadyDefault => true
        case Pending =>
          && !(restart && managed) && after == put
          && memory == old(memory) + target && activePreset == RestorePreset(put)
        case Applied =>
          && restart && managed && after == put && outside.restart == RestartOk
          && (NeedsSmoke(preset, target) ==> outside.smokePasses)
          && memory == old(memory) + target && activePreset == RestorePreset(put)
        case SmokeRolledBack =>
          && applied == old(applied) && memory == undone && activePreset == RestorePreset(before)
          && outside.restart == RestartOk && NeedsSmoke(preset, target) && !outside.smokePasses
          && CanRestore(before, outside) && outside.rollbackRestart != RestartRaises
        case FailedRolledBack =>
          && applied == old(applied) && memory == undone && activePreset == RestorePreset(before)
          && outside.restart != RestartOk && CanRestore(before, outside) && outside.rollbackRestart == RestartOk
        case FailedRollbackFailed =>
          && applied == old(applied) && memory == undone && activePreset == RestorePreset(before)
          && outside.restart != RestartOk && CanRestore(before, outside) && outside.rollbackRestart == RestartError
        case FailedRollbackError =>
          && outside.restart != RestartOk && (CanRestore(before, outside) ==> outside.rollbackRestart == RestartRaises)
          && after == (if outside.restoreSaveWorks then before else put)
          && if CanRestore(before, outside)
             then memory == undone && activePreset == RestorePreset(before)
             else memory == old(memory) + target && activePreset == RestorePreset(put)
        case Raised =>
          if !outside.saveWorks
          then applied == old(applied) && memory == old(memory) && activePreset == old(activePreset)
          else
            && outside.restart == RestartOk && NeedsSmoke(preset, target) && !outside.smokePasses
            && (CanRestore(before, outside) ==> outside.rollbackRestart == RestartRaises)
            && after == (if outside.restoreSaveWorks then before else put)
            && if CanRestore(before, outside)
               then memory == undone && activePreset == RestorePreset(before)
               else memory == old(memory) + target && activePreset == RestorePreset(put)
      ensures forall other :: other != name ==> Look(applied, other) == Look(old(applied), other)
    {
      var target := Target(preset);
      if target == None || IsBlocked(target.value, memory) { return TuneError; }
      if dry { return Preview; }
      var isDefault := preset == "default";
      var previous := Look(applied, name);
      if isDefault && previous == None && !(restart && managed && running) { return AlreadyDefault; }
      WriteAndUndo(applied, name, EntryFor(preset, target.value));
      var saved := SaveEntry(EntryFor(preset, target.value), outside.saveWorks);
      if !saved { return Raised; }
      SetMemory(target.value, if isDefault then "" else preset);
      if !restart || !managed { return Pending; }
      if outside.restart == RestartOk {
        if NeedsSmoke(preset, target.value) && !outside.smokePasses {
          var roll := RestorePrevious(previous, outside);
          if roll == RestartRaises { return Raised; }
          return SmokeRolledBack;
        }
        return Applied;
      }
      var roll := RestorePrevious(previous, outside);
      match roll {
        case RestartRaises => r := FailedRollbackError;
        case RestartOk => r := FailedRolledBack;
        case RestartError => r := FailedRollbackFailed;
      }
    }
  }

  /** Such a run: the scenario's restart fails, the YAML file cannot be read for the rollback, and the file
      has no entry any more while memory keeps a concurrency of four under the name of the scenario. */
  method RollbackWithoutYaml() returns (tuner: Tuner, r: Outcome)
    ensures r == FailedRollbackError && fresh(tuner)
    ensures tuner.yaml == map["max_concurrency" := Number(2)] && tuner.applied == map[]
    ensures tuner.memory == map["max_concurrency" := Number(4)] && tuner.activePreset == "busy"
  {
    var yaml: Values := map["max_concurrency" := Number(2)];
    var busy: Values := map["max_concurrency" := Number(4)];
    tuner := new Tuner("m", yaml, map["busy" := busy], map[]);
    ghost var target := tuner.Target("busy");
    assert target == Some(busy) by { BusyTarget(busy); }
    r := tuner.Apply("busy", false, true, true, true,
                     Outside(true, RestartError, true, true, false, RestartRaises));
    forall k ensures k !in tuner.applied { assert Look(tuner.applied, k) == None; }
  }

  lemma BusyTarget(busy: Values)
    requires busy == map["max_concurrency" := Number(4)]
    ensures Clamped(map k | k in busy && k in SCENARIO_FIELDS :: busy[k]) == busy
  {
  }
}

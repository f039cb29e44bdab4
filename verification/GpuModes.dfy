// The tri-state GPU mode, derived from the recorded services, and the link between
// that record and the processes that really run.

module GpuModes {

  datatype Role = Exclusive | Shared | CpuOnly
  datatype GpuMode = IdleMode | ExclusiveMode | SharedMode
  datatype Model = Model(role: Role, port: nat, isVllm: bool)
  type Registry = map<string, Model>

  predicate IsExclusive(models: Registry, name: string) {
    name in models && models[name].role == Exclusive
  }

  predicate IsCpuOnly(models: Registry, name: string) {
    name in models && models[name].role == CpuOnly
  }

  predicate IsGpu(models: Registry, name: string) {
    name in models && models[name].role != CpuOnly
  }

  /** The transition table; exclusive to exclusive is not in it. */
  function ValidateTransition(from: GpuMode, to: GpuMode): bool {
    match (from, to)
    case (IdleMode, _) => true
    case (ExclusiveMode, IdleMode) => true
    case (SharedMode, IdleMode) => true
    case (SharedMode, SharedMode) => true
    case (_, _) => false
  }

  function TargetMode(role: Role): GpuMode
    requires role != CpuOnly
  {
    if role == Exclusive then ExclusiveMode else SharedMode
  }

  /** The mode read off the record: an exclusive service wins, then any GPU service. */
  ghost function ModeOf(models: Registry, active: seq<string>): GpuMode {
    if exists s :: s in active && IsExclusive(models, s) then ExclusiveMode
    else if exists s :: s in active && IsGpu(models, s) then SharedMode
    else IdleMode
  }

  ghost function GpuPart(models: Registry, names: set<string>): set<string> {
    set n | n in names && IsGpu(models, n)
  }

  ghost function Recorded(models: Registry, active: seq<string>): set<string> {
    set n | n in active && IsGpu(models, n)
  }

  /** The recorded services that stay when the GPU is handed over, in record order. */
  function CpuOnlyOf(models: Registry, active: seq<string>): (kept: seq<string>)
    ensures forall s :: s in kept <==> s in active && IsCpuOnly(models, s)
  {
    if active == [] then []
    else (if IsCpuOnly(models, active[0]) then [active[0]] else []) + CpuOnlyOf(models, active[1..])
  }

  /** A running exclusive model is the only GPU process. */
  ghost predicate Safe(models: Registry, running: set<string>) {
    forall e, n :: e in running && IsExclusive(models, e) && n in running && IsGpu(models, n) ==> n == e
  }

  /** The inductive invariant: what the record promises about the processes. */
  ghost predicate Linked(models: Registry, active: seq<string>, running: set<string>) {
    && Safe(models, running)
    && (forall e, n :: e in active && IsExclusive(models, e) && n in active && IsGpu(models, n) ==> n == e)
    && (forall e, n :: e in active && IsExclusive(models, e) && n in running && IsGpu(models, n) ==> n == e)
    && (forall s, e :: s in active && IsGpu(models, s) && !IsExclusive(models, s) && e in running ==>
          !IsExclusive(models, e))
  }

  /** In a linked state the mode tells the recorded GPU services apart: none, exactly one exclusive,
      or shared ones only; and what may run beside the record. */
  lemma ModeDescribesRecord(models: Registry, active: seq<string>, running: set<string>)
    requires Linked(models, active, running)
    ensures ModeOf(models, active) == IdleMode <==> Recorded(models, active) == {}
    ensures ModeOf(models, active) == ExclusiveMode <==>
            exists e :: Recorded(models, active) == {e} && IsExclusive(models, e)
    ensures ModeOf(models, active) == ExclusiveMode ==> GpuPart(models, running) <= Recorded(models, active)
    ensures ModeOf(models, active) == SharedMode ==>
            forall n :: n in Recorded(models, active) + running ==> !IsExclusive(models, n)
  {
    match ModeOf(models, active)
    case ExclusiveMode =>
      var e :| e in active && IsExclusive(models, e);
      assert Recorded(models, active) == {e};
    case SharedMode =>
      var s :| s in active && IsGpu(models, s);
      assert s in Recorded(models, active);
    case IdleMode =>
  }

  /** Starting this model beside what runs now cannot break safety. */
  ghost predicate SafeToStart(models: Registry, name: string, running: set<string>) {
    if IsExclusive(models, name) then GpuPart(models, running) <= {name}
    else IsGpu(models, name) ==> forall e :: e in running ==> !IsExclusive(models, e)
  }

  /** ... and that is exact: whatever dies meanwhile, the outcome of the start is safe if and only if
      the start was. */
  lemma SafeToStartIsExact(models: Registry, name: string, running: set<string>)
    requires Safe(models, running)
    ensures SafeToStart(models, name, running) <==>
            forall after :: after <= running + {name} ==> Safe(models, after)
  {
    if SafeToStart(models, name, running) {
      forall after | after <= running + {name} ensures Safe(models, after) {
        forall e, n | e in after && IsExclusive(models, e) && n in after && IsGpu(models, n) ensures n == e {
          assert n in GpuPart(models, running) + {name};
        }
      }
    } else {
      assert !Safe(models, running + {name}) by {
        if IsExclusive(models, name) {
          var n :| n in GpuPart(models, running) && n != name;
          assert name in running + {name} && n in running + {name};
        } else {
          var e :| e in running && IsExclusive(models, e);
          assert name in running + {name} && e in running + {name};
        }
      }
    }
  }

  /** The occupancy guard: a port scan that misses no running GPU process and finds none but the target
      makes the start from an idle record safe. */
  lemma PortScanSuffices(models: Registry, active: seq<string>, running: set<string>, owners: set<string>,
                         target: string)
    requires Linked(models, active, running) && ModeOf(models, active) == IdleMode
    requires GpuPart(models, running) <= owners <= {target}
    ensures SafeToStart(models, target, running)
    ensures GpuPart(models, running) <= {target}
  {
    forall e | e in running && IsExclusive(models, e) ensures e == target {
      assert e in GpuPart(models, running);
    }
  }

  /** The health scan's half of the guard. */
  predicate ScanPasses(models: Registry, actual: seq<string>, target: string) {
    forall s :: s in actual && IsGpu(models, s) ==> s == target
  }

  /** A health scan alone would not do: with an unrecorded exclusive model running it lets a second one in
      exactly when it has missed the first. */
  lemma HealthScanDoesNotSuffice(models: Registry, busy: string, target: string, actual: seq<string>)
    requires busy != target && IsExclusive(models, busy) && IsExclusive(models, target)
    requires forall s :: s in actual ==> s == busy
    ensures Linked(models, [], {busy}) && ModeOf(models, []) == IdleMode
    ensures ScanPasses(models, actual, target) <==> busy !in actual
    ensures !SafeToStart(models, target, {busy}) && !Safe(models, {busy} + {target})
  {
    assert busy in GpuPart(models, {busy});
    assert busy in {busy} + {target} && target in {busy} + {target};
  }
}

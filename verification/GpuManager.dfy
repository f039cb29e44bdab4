// The GPU state machine: every public operation of the manager, over the recorded
// services and the processes that really run. Processes may die at any time, a health
// probe may miss a running one, and a start may leave something behind.

module Machines {
  import opened GpuModes

  datatype StartOutcome = Started | StartFailed | StartRaised

  /** What the manager asks of its environment. */
  datatype Question =
    | IsHealthy(name: string)
    | OwnsPort(name: string)
    | HasDrifted(name: string)
    | FitsBudget(name: string)
    | LockIsFree
    | GpuIsFree

  datatype Event =
    | Answered(question: Question, yes: bool)
    | StartAsked(name: string, outcome: StartOutcome)
    | StopAsked(name: string, raised: bool)

  /** The processes on the host, seen only through the engine adapters and the scans. */
  class Machine {
    const models: Registry
    var running: set<string>
    ghost var history: seq<set<string>>         // what ran at every moment
    ghost var events: seq<Event>                // what was asked for, with the answers

    constructor (models: Registry)
      ensures this.models == models && running == {} && history == [] && events == []
    {
      this.models, running, history, events := models, {}, [], [];
    }

    ghost predicate AlwaysSafe()
      reads this
    {
      Safe(models, running) && forall i :: 0 <= i < |history| ==> Safe(models, history[i])
    }

    /** The history only grows, and its last entry is what runs now. */
    ghost predicate Logged(before: seq<set<string>>)
      reads this
    {
      before < history && history[|history| - 1] == running
    }

    /** Any processes may end. */
    method Perish()
      modifies this
      ensures running <= old(running) && events == old(events)
      ensures Logged(old(history))
      ensures old(AlwaysSafe()) ==> AlwaysSafe()
    {
      var left: set<string> :| left <= running;
      running := left;
      history := history + [running];
    }

    /** Whatever it reports, a start adds at most the process it was asked for. */
    method Start(name: string) returns (outcome: StartOutcome)
      modifies this
      ensures running <= old(running) + {name}
      ensures events == old(events) + [StartAsked(name, outcome)]
      ensures Logged(old(history))
      ensures old(AlwaysSafe()) && SafeToStart(models, name, old(running)) ==> AlwaysSafe()
    {
      if * {
        running := running + {name};
        history := history + [running];
      }
      Perish();
      outcome := *;
      events := events + [StartAsked(name, outcome)];
    }

    /** A stop that returns has killed the process, and maybe more. */
    method Stop(name: string) returns (raised: bool)
      modifies this
      ensures running <= old(running)
      ensures events == old(events) + [StopAsked(name, raised)]
      ensures Logged(old(history))
      ensures !raised ==> name !in running
      ensures old(AlwaysSafe()) ==> AlwaysSafe()
    {
      Perish();
      raised := *;
      if !raised {
        running := running - {name};
        history := history + [running];
      }
      events := events + [StopAsked(name, raised)];
    }

    /** A health probe may miss a running process but never invents one; a running process owns its port,
        and another process may own it too. */
    method Ask(question: Question) returns (yes: bool)
      modifies this`events
      ensures events == old(events) + [Answered(question, yes)]
      ensures question.IsHealthy? && yes ==> question.name in running
      ensures question.OwnsPort? && question.name in running ==> yes
    {
      yes := *;
      if question.IsHealthy? { yes := yes && question.name in running; }
      if question.OwnsPort? { yes := yes || question.name in running; }
      events := events + [Answered(question, yes)];
    }
  }
}

module GpuManagers {
  import opened GpuModes
  import opened Machines

  datatype ServiceState = Switching | Healthy | IdleState | ErrorState

  datatype Result =
    | Switched(model: string, rolledBack: bool)
    | SwitchedToIdle(stopped: seq<string>)
    | AlreadyActive(name: string)
    | Stopped(name: string)
    | WasReset
    | Refused
    | Failed
    | Raised

  datatype Command =
    | SwitchTo(name: string)
    | SwitchIdle
    | StopService(name: string)
    | StopIndependent(name: string)
    | Reconcile
    | Cleanup
    | ForceReset

  // ---------------------------------------------------------------- what the log tells

  /** One probe of every known model, in order. */
  predicate HealthScan(names: seq<string>, log: seq<Event>) {
    |log| == |names| && forall i :: 0 <= i < |log| ==> log[i].Answered? && log[i].question == IsHealthy(names[i])
  }

  /** The names that were found healthy, in order. */
  function HealthyIn(log: seq<Event>): seq<string> {
    if log == [] then []
    else
      var last := log[|log| - 1];
      HealthyIn(log[..|log| - 1])
      + if last.Answered? && last.question.IsHealthy? && last.yes then [last.question.name] else []
  }

  lemma HealthySnoc(log: seq<Event>, e: Event)
    ensures HealthyIn(log + [e])
         == HealthyIn(log) + if e.Answered? && e.question.IsHealthy? && e.yes then [e.question.name] else []
  {
    assert (log + [e])[..|log|] == log;
  }

  /** The record after a scan; one that names the same services stays in its order. */
  function Reconciled(active: seq<string>, found: seq<string>): seq<string> {
    if Members(found) == Members(active) then active else found
  }

  predicate ToStop(models: Registry, name: string, includeCpuOnly: bool) {
    name in models && (IsGpu(models, name) || includeCpuOnly)
  }

  /** The stops of these services, all of which go through. */
  function StopsOf(models: Registry, services: seq<string>, includeCpuOnly: bool): seq<Event> {
    if services == [] then []
    else
      var last := services[|services| - 1];
      StopsOf(models, services[..|services| - 1], includeCpuOnly)
      + if ToStop(models, last, includeCpuOnly) then [StopAsked(last, false)] else []
  }

  lemma StopsSnoc(models: Registry, services: seq<string>, i: nat, includeCpuOnly: bool)
    requires i < |services|
    ensures StopsOf(models, services[..i + 1], includeCpuOnly)
         == StopsOf(models, services[..i], includeCpuOnly)
          + if ToStop(models, services[i], includeCpuOnly) then [StopAsked(services[i], false)] else []
  {
    assert services[..i + 1][..i] == services[..i];
  }

  /** All these services are stopped in order, up to the first stop that raises. */
  ghost predicate StopLog(models: Registry, services: seq<string>, includeCpuOnly: bool, log: seq<Event>,
                          raised: bool) {
    if !raised then log == StopsOf(models, services, includeCpuOnly)
    else
      exists i :: 0 <= i < |services| && ToStop(models, services[i], includeCpuOnly)
        && log == StopsOf(models, services[..i], includeCpuOnly) + [StopAsked(services[i], true)]
  }

  /** From the lock on: the GPU services are stopped, then the GPU is seen to be free, at the latest after
      everything was killed. */
  ghost predicate IdleLog(models: Registry, services: seq<string>, log: seq<Event>, r: Result) {
    var free, busy := Answered(GpuIsFree, true), Answered(GpuIsFree, false);
    if r == Refused then log == [Answered(LockIsFree, false)]
    else
      && log != [] && log[0] == Answered(LockIsFree, true)
      && var stops := StopsOf(models, services, false);
         if r.SwitchedToIdle? then log[1..] == stops + [free] || log[1..] == stops + [busy, free]
         else log[1..] == stops + [busy, busy] || StopLog(models, services, false, log[1..], true)
  }

  /** Going idle: the scan, then the lock and the stops. Success leaves the CPU-only services of the record. */
  ghost predicate WentIdle(models: Registry, names: seq<string>, was: seq<string>, now: seq<string>, log: seq<Event>,
                           r: Result) {
    && |names| < |log| && HealthScan(names, log[..|names|])
    && var services := Reconciled(was, HealthyIn(log[..|names|]));
       && IdleLog(models, services, log[|names|..], r)
       && (r.SwitchedToIdle? ==> r.stopped == services)
       && now == if r.SwitchedToIdle? then CpuOnlyOf(models, services) else services
  }

  lemma {:induction false} StopsOfIff(models: Registry, services: seq<string>, includeCpuOnly: bool, name: string)
    ensures StopAsked(name, false) in StopsOf(models, services, includeCpuOnly)
      <==> name in services && ToStop(models, name, includeCpuOnly)
  {
    if services != [] {
      StopsOfIff(models, services[..|services| - 1], includeCpuOnly, name);
      assert services == services[..|services| - 1] + [services[|services| - 1]];
    }
  }

  /** Going idle stops exactly the GPU services of the record that the scan left: a running one that the
      probe missed is not stopped. */
  lemma OnlyFoundIsStopped(models: Registry, names: seq<string>, was: seq<string>, now: seq<string>,
                           log: seq<Event>, services: seq<string>, name: string)
    requires WentIdle(models, names, was, now, log, SwitchedToIdle(services))
    ensures StopAsked(name, false) in log <==> name in services && IsGpu(models, name)
  {
    var e, scan, later := StopAsked(name, false), log[..|names|], log[|names|..];
    var stops := StopsOf(models, services, false);
    StopsOfIff(models, services, false, name);
    InParts(log, |names|, e);
    NoStopAsked(scan, name);
    IdleStops(models, services, later, e);
  }

  lemma NoStopAsked(log: seq<Event>, name: string)
    requires forall i :: 0 <= i < |log| ==> log[i].Answered?
    ensures StopAsked(name, false) !in log
  {
  }

  lemma IdleStops(models: Registry, services: seq<string>, log: seq<Event>, e: Event)
    requires IdleLog(models, services, log, SwitchedToIdle(services)) && e.StopAsked?
    ensures e in log <==> e in StopsOf(models, services, false)
  {
    var stops, waits := StopsOf(models, services, false), log[1..][|StopsOf(models, services, false)|..];
    InParts(log, 1, e);
    InParts(log[1..], |stops|, e);
    assert log[1..][..|stops|] == stops;
    assert waits == [Answered(GpuIsFree, true)]
        || waits == [Answered(GpuIsFree, false), Answered(GpuIsFree, true)];
  }

  lemma InParts(log: seq<Event>, i: nat, e: Event)
    requires i <= |log|
    ensures e in log <==> e in log[..i] || e in log[i..]
  {
    assert log == log[..i] + log[i..];
  }

  /** One service is stopped, and the GPU is given time twice at most. */
  predicate StoppedOnly(name: string, log: seq<Event>) {
    0 < |log| <= 3 && log[0] == StopAsked(name, false)
    && forall i :: 1 <= i < |log| ==> log[i].Answered? && log[i].question == GpuIsFree
  }

  /** A deploy: the budget, the start, and the stop of what failed to start. */
  predicate DeployLog(name: string, log: seq<Event>, r: Result) {
    var fits, failed := Answered(FitsBudget(name), true), StartAsked(name, StartFailed);
    match r
    case Refused => log == [Answered(FitsBudget(name), false)]
    case Switched(model, rolledBack) =>
      model == name && !rolledBack && log == [fits, StartAsked(name, Started)]
    case Failed => log == [fits, failed, StopAsked(name, false)]
    case Raised => log == [fits, StartAsked(name, StartRaised)] || log == [fits, failed, StopAsked(name, true)]
    case _ => false
  }

  /** An addition: what fails to start is not stopped. */
  predicate AddLog(name: string, log: seq<Event>, r: Result) {
    match r
    case AlreadyActive(n) => n == name && log == []
    case Refused => log == [Answered(FitsBudget(name), false)]
    case _ => |log| == 2 && log[0] == Answered(FitsBudget(name), true) && StartLog(name, log[1..], r)
  }

  predicate StartLog(name: string, log: seq<Event>, r: Result) {
    match r
    case Switched(model, rolledBack) => model == name && !rolledBack && log == [StartAsked(name, Started)]
    case Failed => log == [StartAsked(name, StartFailed)]
    case Raised => log == [StartAsked(name, StartRaised)]
    case _ => false
  }

  /** A GPU service was tried and did not start. */
  predicate GaveUp(models: Registry, name: string, log: seq<Event>) {
    IsGpu(models, name) ==> Answered(FitsBudget(name), false) in log || StartAsked(name, StartFailed) in log
  }

  /** A scan found another GPU model's process. */
  ghost predicate Occupied(models: Registry, target: string, log: seq<Event>) {
    exists n :: n != target && IsGpu(models, n)
      && (Answered(IsHealthy(n), true) in log || Answered(OwnsPort(n), true) in log)
  }

  predicate Declined(target: string, log: seq<Event>) {
    log != [] && (var last := log[|log| - 1];
                  last == Answered(LockIsFree, false) || last == Answered(FitsBudget(target), false))
  }

  /** No GPU model joins an exclusive one, and no exclusive model joins shared ones; an exclusive one may
      replace another. */
  predicate Forbidden(models: Registry, mode: GpuMode, target: string) {
    || (mode == ExclusiveMode && !IsExclusive(models, target))
    || (mode == SharedMode && IsExclusive(models, target))
  }

  /** Why a known model is not switched to: its mode does not fit the record, the GPU is occupied, or the
      lock or the budget said no. */
  ghost predicate RefusalReason(models: Registry, target: string, active: seq<string>, log: seq<Event>) {
    || Forbidden(models, ModeOf(models, active), target) || Occupied(models, target, log) || Declined(target, log)
  }

  /** What switching to a known model ends with. */
  ghost predicate SwitchOutcome(models: Registry, target: string, active: seq<string>, log: seq<Event>, r: Result) {
    match r
    case AlreadyActive(name) => name == target && target in active
    case Refused => RefusalReason(models, target, active, log)
    case Switched(model, rolledBack) =>
      && log != [] && log[|log| - 1] == StartAsked(model, Started)
      && (IsExclusive(models, model) ==> Recorded(models, active) == {model})
      && if rolledBack then IsExclusive(models, target) && GaveUp(models, target, log)
         else model == target && target in active
    case _ => true
  }

  lemma OutcomeStays(models: Registry, target: string, active: seq<string>, log: seq<Event>, more: seq<Event>,
                     r: Result)
    requires SwitchOutcome(models, target, active, more, r)
    ensures SwitchOutcome(models, target, active, log + more, r)
  {
    match r
    case Refused => ReasonStays(models, target, active, log, more);
    case Switched(_, _) => StillGaveUp(models, target, log, more);
    case _ =>
  }

  lemma AdditionIsOutcome(models: Registry, target: string, active: seq<string>, log: seq<Event>, r: Result)
    requires AddLog(target, log, r) && target in models && !IsExclusive(models, target)
    requires r.Switched? || r.AlreadyActive? ==> target in active
    ensures SwitchOutcome(models, target, active, log, r)
  {
  }

  /** Whether stopping this service concerns it alone. */
  ghost predicate StopsAlone(models: Registry, active: seq<string>, name: string) {
    IsCpuOnly(models, name) || ModeOf(models, active) != ExclusiveMode
  }

  /** Only GPU models are asked for their ports. */
  predicate PortScan(models: Registry, log: seq<Event>) {
    forall i :: 0 <= i < |log| ==>
      log[i].Answered? && log[i].question.OwnsPort? && IsGpu(models, log[i].question.name)
  }

  lemma {:induction false} HealthyIff(log: seq<Event>, name: string)
    ensures name in HealthyIn(log) <==> Answered(IsHealthy(name), true) in log
  {
    if log != [] {
      var last := log[|log| - 1];
      HealthyIff(log[..|log| - 1], name);
      assert log == log[..|log| - 1] + [last];
    }
  }

  /** The guard refuses exactly when a scan found another GPU model's process. */
  lemma OccupiedIff(models: Registry, target: string, names: seq<string>, scan: seq<Event>, ports: seq<Event>,
                    owners: set<string>)
    requires HealthScan(names, scan) && PortScan(models, ports)
    requires forall n :: n in owners <==> Answered(OwnsPort(n), true) in ports
    ensures Occupied(models, target, scan + ports) <==>
      !ScanPasses(models, HealthyIn(scan), target) || owners - {target} != {}
  {
    forall n ensures n in HealthyIn(scan) <==> Answered(IsHealthy(n), true) in scan { HealthyIff(scan, n); }
    if n :| n in owners - {target} {
      assert Answered(OwnsPort(n), true) in scan + ports;
    }
    if !ScanPasses(models, HealthyIn(scan), target) {
      var s :| s in HealthyIn(scan) && IsGpu(models, s) && s != target;
      assert Answered(IsHealthy(s), true) in scan + ports;
    }
    if n :| n != target && IsGpu(models, n)
            && (Answered(IsHealthy(n), true) in scan + ports || Answered(OwnsPort(n), true) in scan + ports) {
      if Answered(IsHealthy(n), true) in scan + ports {
        assert Answered(IsHealthy(n), true) in scan;
      } else {
        assert n in owners - {target};
      }
    }
  }

  lemma StillGaveUp(models: Registry, name: string, log: seq<Event>, more: seq<Event>)
    ensures GaveUp(models, name, log) ==> GaveUp(models, name, log + more)
    ensures GaveUp(models, name, more) ==> GaveUp(models, name, log + more)
  {
  }

  lemma DeployDidNotStart(name: string, log: seq<Event>, r: Result, s: string)
    requires DeployLog(name, log, r) && !r.Switched?
    ensures StartAsked(s, Started) !in log
  {
  }

  lemma ReasonStays(models: Registry, target: string, active: seq<string>, log: seq<Event>, more: seq<Event>)
    requires RefusalReason(models, target, active, more)
    ensures RefusalReason(models, target, active, log + more)
  {
    if n :| n != target && IsGpu(models, n)
            && (Answered(IsHealthy(n), true) in more || Answered(OwnsPort(n), true) in more) {
      assert Answered(IsHealthy(n), true) in log + more || Answered(OwnsPort(n), true) in log + more;
    }
  }

  lemma NotOccupiedLater(models: Registry, target: string, scan: seq<Event>, log: seq<Event>)
    requires !Occupied(models, target, scan)
    requires forall i :: 0 <= i < |log| && log[i].Answered? ==>
      !log[i].question.IsHealthy? && !log[i].question.OwnsPort?
    ensures !Occupied(models, target, scan + log)
  {
    forall n | n != target && IsGpu(models, n)
      ensures Answered(IsHealthy(n), true) !in scan + log && Answered(OwnsPort(n), true) !in scan + log
    {
      assert Answered(IsHealthy(n), true) !in scan && Answered(OwnsPort(n), true) !in scan;
    }
  }

  lemma Glued(a: seq<Event>, b: seq<Event>, c: seq<Event>)
    ensures a + b + c == a + (b + c)
  {
  }

  class GpuManager {
    const machine: Machine
    const models: Registry
    const names: seq<string>
    var active: seq<string>
    var profile: ServiceState

    /** Every GPU model listens on a port: the occupancy guard relies on it. */
    ghost predicate Registered() {
      && models == machine.models
      && (forall n :: n in models ==> n in names)
      && (forall n :: n in names ==> n in models)
      && (forall n :: IsGpu(models, n) ==> models[n].port != 0)
    }

    ghost predicate Sound()
      reads this, machine
    {
      && Registered()
      && machine.AlwaysSafe()
      && Linked(models, active, machine.running)
    }

    constructor (models: Registry, names: seq<string>)
      requires forall n :: n in models <==> n in names
      requires forall n :: IsGpu(models, n) ==> models[n].port != 0
      ensures Sound() && active == [] && this.models == models
      ensures fresh(machine)
    {
      machine := new Machine(models);
      this.models, this.names, active, profile := models, names, [], IdleState;
    }

    /** The derived mode: first look for an exclusive service, then for any GPU service. */
    method GpuMode() returns (mode: GpuMode)
      ensures mode == ModeOf(models, active)
    {
      for i := 0 to |active|
        invariant forall s :: s in active[..i] ==> !IsExclusive(models, s)
      {
        if IsExclusive(models, active[i]) { return ExclusiveMode; }
      }
      assert active[..|active|] == active;
      for i := 0 to |active|
        invariant forall s :: s in active[..i] ==> !IsGpu(models, s)
      {
        if IsGpu(models, active[i]) { return SharedMode; }
      }
      return IdleMode;
    }

    // -------------------------------------------------------------- scans

    method ScanActualServices() returns (actual: seq<string>, ghost log: seq<Event>)
      requires Registered()
      modifies machine`events
      ensures machine.events == old(machine.events) + log
      ensures HealthScan(names, log) && actual == HealthyIn(log)
      ensures forall s :: s in actual ==> s in machine.running && s in models
    {
      actual, log := [], [];
      for i := 0 to |names|
        invariant machine.events == old(machine.events) + log
        invariant HealthScan(names[..i], log) && actual == HealthyIn(log)
        invariant forall s :: s in actual ==> s in machine.running && s in models
      {
        var healthy := machine.Ask(IsHealthy(names[i]));
        HealthySnoc(log, Answered(IsHealthy(names[i]), healthy));
        log := log + [Answered(IsHealthy(names[i]), healthy)];
        if healthy { actual := actual + [names[i]]; }
      }
      assert names[..|names|] == names;
    }

    method ScanPortOwners() returns (owners: set<string>, ghost log: seq<Event>)
      requires Registered()
      modifies machine`events
      ensures machine.events == old(machine.events) + log
      ensures PortScan(models, log) && forall n :: n in owners <==> Answered(OwnsPort(n), true) in log
      ensures GpuPart(models, machine.running) <= owners
    {
      owners, log := {}, [];
      for i := 0 to |names|
        invariant machine.events == old(machine.events) + log
        invariant PortScan(models, log) && forall n :: n in owners <==> Answered(OwnsPort(n), true) in log
        invariant forall n :: n in names[..i] && n in GpuPart(models, machine.running) ==> n in owners
      {
        if !IsGpu(models, names[i]) || models[names[i]].port == 0 { continue; }
        var owned := machine.Ask(OwnsPort(names[i]));
        log := log + [Answered(OwnsPort(names[i]), owned)];
        if owned { owners := owners + {names[i]}; }
      }
    }

    // -------------------------------------------------------------- reconcile and cleanup

    /** The record becomes what the scan found healthy. */
    method ReconcileState() returns (ghost log: seq<Event>)
      requires Sound()
      modifies this, machine
      ensures Sound()
      ensures machine.events == old(machine.events) + log && HealthScan(names, log)
      ensures active == Reconciled(old(active), HealthyIn(log))
      ensures profile ==
        if HealthyIn(log) != [] then Healthy
        else if old(ModeOf(models, active)) == IdleMode then IdleState
        else old(profile)
      ensures machine.running <= old(machine.running)
      ensures Members(active) <= machine.running
    {
      machine.Perish();
      LinkSurvives(models, active, old(machine.running), machine.running);
      var mode := GpuMode();
      var actual;
      actual, log := ScanActualServices();
      if Members(actual) != Members(active) {
        active := actual;
      }
      if actual != [] {
        profile := Healthy;
      } else if mode == IdleMode {
        profile := IdleState;
      }
      RecordOfRunning(models, active, machine.running);
    }

    method FindDead() returns (dead: seq<string>, ghost log: seq<Event>)
      requires models == machine.models
      modifies machine`events
      ensures machine.events == old(machine.events) + log
      ensures forall s :: s in dead <==> s in active && (s !in models || Answered(IsHealthy(s), false) in log)
      ensures forall s :: s in active && s in models ==> exists yes :: Answered(IsHealthy(s), yes) in log
    {
      dead, log := [], [];
      for i := 0 to |active|
        invariant machine.events == old(machine.events) + log
        invariant forall s :: s in dead <==> s in active[..i] && (s !in models || Answered(IsHealthy(s), false) in log)
        invariant forall s :: s in active[..i] && s in models ==> exists yes :: Answered(IsHealthy(s), yes) in log
        invariant forall s :: Answered(IsHealthy(s), false) in log ==> s in dead
      {
        var healthy := false;
        if active[i] in models {
          healthy := machine.Ask(IsHealthy(active[i]));
          assert Answered(IsHealthy(active[i]), healthy) in log + [Answered(IsHealthy(active[i]), healthy)];
          log := log + [Answered(IsHealthy(active[i]), healthy)];
        }
        if !healthy { dead := dead + [active[i]]; }
      }
    }

    /** Removes the services that are unknown or were not found healthy, and no other. */
    method CleanupDeadServices() returns (dead: seq<string>, ghost log: seq<Event>)
      requires Sound()
      modifies this, machine
      ensures Sound() && profile == old(profile)
      ensures machine.events == old(machine.events) + log
      ensures active == Without(old(active), dead)
      ensures forall s :: s in dead <==> s in old(active) && (s !in models || Answered(IsHealthy(s), false) in log)
      ensures forall s :: s in old(active) && s in models ==> exists yes :: Answered(IsHealthy(s), yes) in log
    {
      machine.Perish();
      LinkSurvives(models, active, old(machine.running), machine.running);
      dead, log := FindDead();
      active := Without(active, dead);
    }

    // -------------------------------------------------------------- deploy

    /** Starts a GPU model if the budget allows it; one that fails to start is stopped again. */
    method DeployModel(name: string) returns (r: Result, ghost log: seq<Event>)
      requires Registered() && IsGpu(models, name)
      requires machine.AlwaysSafe() && SafeToStart(models, name, machine.running)
      modifies this, machine
      ensures machine.AlwaysSafe()
      ensures machine.events == old(machine.events) + log && DeployLog(name, log, r)
      ensures r.Switched? ==> active == [name] + CpuOnlyOf(models, old(active)) && profile == Healthy
      ensures r.Switched? || r.Raised? ==> machine.running <= old(machine.running) + {name}
      ensures r.Failed? ==> active == [] && machine.running <= old(machine.running) - {name} && profile == ErrorState
      ensures r.Refused? || r.Raised? ==> active == old(active)
      ensures r.Refused? ==> machine.running <= old(machine.running) && profile == old(profile)
    {
      var fits := machine.Ask(FitsBudget(name));
      log := [Answered(FitsBudget(name), fits)];
      if !fits { return Refused, log; }
      var services := [name] + CpuOnlyOf(models, active);
      var outcome := machine.Start(name);
      log := log + [StartAsked(name, outcome)];
      if outcome == StartRaised { return Raised, log; }
      if outcome == StartFailed {
        profile := ErrorState;
        var raised := machine.Stop(name);
        log := log + [StopAsked(name, raised)];
        if raised { return Raised, log; }
        active := [];
        return Failed, log;
      }
      active, profile := services, Healthy;
      r := Switched(name, false);
    }

    /** Adds a service beside the shared ones that already run. */
    method SharedAddService(name: string) returns (r: Result, ghost log: seq<Event>)
      requires Sound() && IsGpu(models, name) && !IsExclusive(models, name)
      requires ModeOf(models, active) == SharedMode
      modifies this, machine
      ensures Sound()
      ensures machine.events == old(machine.events) + log && AddLog(name, log, r)
      ensures r.Switched? ==> active == old(active) + [name] && profile == Healthy
      ensures !r.Switched? ==> active == old(active)
      ensures r.AlreadyActive? <==> name in old(active)
    {
      log := [];
      if name in active { return AlreadyActive(name), log; }
      var fits := machine.Ask(FitsBudget(name));
      log := [Answered(FitsBudget(name), fits)];
      if !fits { return Refused, log; }
      ModeDescribesRecord(models, active, machine.running);
      var outcome := machine.Start(name);
      log := log + [StartAsked(name, outcome)];
      assert forall e :: e in machine.running ==> !IsExclusive(models, e);
      if outcome == StartRaised { return Raised, log; }
      if outcome == StartFailed {
        profile := ErrorState;
        return Failed, log;
      }
      active, profile := active + [name], Healthy;
      r := Switched(name, false);
    }

    // -------------------------------------------------------------- stopping

    /** Stops the named services in order; CPU-only ones only when asked to, and none else. */
    method StopAllActive(services: seq<string>, includeCpuOnly: bool) returns (raised: bool, ghost log: seq<Event>)
      requires Registered() && machine.AlwaysSafe()
      modifies machine
      ensures machine.AlwaysSafe() && machine.running <= old(machine.running)
      ensures machine.events == old(machine.events) + log && StopLog(models, services, includeCpuOnly, log, raised)
      ensures !raised ==> forall s :: s in services && ToStop(models, s, includeCpuOnly) ==> s !in machine.running
    {
      log := [];
      for i := 0 to |services|
        invariant machine.AlwaysSafe() && machine.running <= old(machine.running)
        invariant machine.events == old(machine.events) + log
        invariant log == StopsOf(models, services[..i], includeCpuOnly)
        invariant forall s :: s in services[..i] && ToStop(models, s, includeCpuOnly) ==> s !in machine.running
      {
        StopsSnoc(models, services, i, includeCpuOnly);
        if services[i] in models && (IsGpu(models, services[i]) || includeCpuOnly) {
          var failed := machine.Stop(services[i]);
          log := log + [StopAsked(services[i], failed)];
          if failed { return true, log; }
        }
      }
      assert services[..|services|] == services;
      raised := false;
    }

    /** Waits for the GPU; if it does not get free, kills and waits once more. */
    method AwaitGpu() returns (freed: bool, ghost log: seq<Event>)
      requires Registered() && machine.AlwaysSafe()
      modifies machine
      ensures machine.AlwaysSafe() && machine.running <= old(machine.running)
      ensures machine.events == old(machine.events) + log
      ensures
        var free, busy := Answered(GpuIsFree, true), Answered(GpuIsFree, false);
        if freed then log == [free] || log == [busy, free] else log == [busy, busy]
    {
      freed := machine.Ask(GpuIsFree);
      log := [Answered(GpuIsFree, freed)];
      if freed { return; }
      machine.Perish();
      freed := machine.Ask(GpuIsFree);
      log := log + [Answered(GpuIsFree, freed)];
    }

    /** Under the lock: stops the GPU services and waits for the GPU. */
    method ReleaseGpu(services: seq<string>) returns (r: Result, ghost log: seq<Event>)
      requires Registered() && machine.AlwaysSafe()
      modifies machine
      ensures machine.AlwaysSafe() && machine.running <= old(machine.running)
      ensures machine.events == old(machine.events) + log && IdleLog(models, services, log, r)
      ensures r == SwitchedToIdle(services) || r == Refused || r == Failed
      ensures r.SwitchedToIdle? ==> forall s :: s in services && IsGpu(models, s) ==> s !in machine.running
    {
      var free := machine.Ask(LockIsFree);
      log := [Answered(LockIsFree, free)];
      if !free { return Refused, log; }
      var raised;
      ghost var stops;
      raised, stops := StopAllActive(services, false);
      Glued(old(machine.events), log, stops);
      log := log + stops;
      assert log[1..] == stops;
      if raised { return Failed, log; }
      var freed;
      ghost var waits;
      freed, waits := AwaitGpu();
      Glued(old(machine.events), log, waits);
      log := log + waits;
      assert log[1..] == stops + waits;
      r := if freed then SwitchedToIdle(services) else Failed;
    }

    /** Stops the GPU services that the scan finds, and keeps the CPU-only ones recorded. */
    method SwitchToIdle() returns (r: Result, ghost log: seq<Event>)
      requires Sound()
      modifies this, machine
      ensures Sound()
      ensures machine.events == old(machine.events) + log
      ensures r.SwitchedToIdle? || r.AlreadyActive? || r == Refused || r == Failed
      ensures r.AlreadyActive? <==> old(active) == []
      ensures r.AlreadyActive? ==> active == [] && log == []
      ensures !r.AlreadyActive? ==> WentIdle(models, names, old(active), active, log, r)
      ensures r.SwitchedToIdle? ==>
        && Members(r.stopped) <= old(machine.running) && Recorded(models, active) == {}
        && forall s :: s in r.stopped && IsGpu(models, s) ==> s !in machine.running
      ensures r.SwitchedToIdle? ==> profile == IdleState
      ensures r == Failed ==> profile == ErrorState
      ensures Members(active) <= old(machine.running)
    {
      log := [];
      var mode := GpuMode();
      if mode == IdleMode && active == [] { return AlreadyActive("idle"), log; }
      log := ReconcileState();
      ghost var scan, atReconcile, later := log, machine.running, [];
      var services := active;
      r, later := ReleaseGpu(services);
      LinkSurvives(models, active, atReconcile, machine.running);
      Glued(old(machine.events), scan, later);
      log := scan + later;
      assert log[..|names|] == scan && log[|names|..] == later;
      match r
      case SwitchedToIdle(_) => active, profile := CpuOnlyOf(models, services), IdleState;
      case Failed => profile := ErrorState;
      case _ =>
    }

    /** Stops one recorded service. An exclusive one is stopped by going idle, which stops it only if the
        scan finds it. */
    method StopService(name: string) returns (r: Result, ghost log: seq<Event>)
      requires Sound()
      modifies this, machine
      ensures Sound()
      ensures machine.events == old(machine.events) + log
      ensures name !in old(active) || name !in models ==> r == Refused && active == old(active) && log == []
      ensures r.Stopped? ==> r.name == name && name in old(active) && name !in active
      ensures r.Stopped? && old(StopsAlone(models, active, name)) ==>
        active == Without(old(active), [name]) && name !in machine.running && StoppedOnly(name, log)
      ensures r.Stopped? && old(!StopsAlone(models, active, name)) ==>
        |names| < |log|
        && var services := Reconciled(old(active), HealthyIn(log[..|names|]));
           && WentIdle(models, names, old(active), active, log, SwitchedToIdle(services))
           && (name in services ==> name !in machine.running)
    {
      log := [];
      if name !in active { return Refused, log; }
      if name !in models { return Refused, log; }
      if IsCpuOnly(models, name) {
        r, log := StopIndependent(name);
        return;
      }
      var mode := GpuMode();
      if mode == ExclusiveMode {
        r, log := SwitchToIdle();
        if r.SwitchedToIdle? {
          assert name !in CpuOnlyOf(models, r.stopped);
          r := Stopped(name);
        }
        return;
      }
      r, log := StopShared(name);
    }

    method StopShared(name: string) returns (r: Result, ghost log: seq<Event>)
      requires Sound()
      modifies this, machine
      ensures Sound()
      ensures r in {Stopped(name), Raised} && machine.events == old(machine.events) + log
      ensures r.Stopped? ==>
        active == Without(old(active), [name]) && name !in machine.running && StoppedOnly(name, log)
      ensures r.Raised? ==> log == [StopAsked(name, true)] && active == old(active)
    {
      var raised := machine.Stop(name);
      log := [StopAsked(name, raised)];
      LinkSurvives(models, active, old(machine.running), machine.running);
      if raised { return Raised, log; }
      var _, waits := AwaitGpu();
      LinkSurvives(models, active, old(machine.running), machine.running);
      Glued(old(machine.events), log, waits);
      log := log + waits;
      active := Without(active, [name]);
      if active == [] { profile := IdleState; }
      r := Stopped(name);
    }

    method StopIndependent(name: string) returns (r: Result, ghost log: seq<Event>)
      requires Sound()
      modifies this, machine
      ensures Sound() && profile == old(profile)
      ensures r in {Stopped(name), Refused, Raised}
      ensures r == Refused <==> name !in old(active) || !IsCpuOnly(models, name)
      ensures machine.events == old(machine.events) + log
      ensures log == if r == Refused then [] else [StopAsked(name, r == Raised)]
      ensures r.Stopped? ==> active == Without(old(active), [name]) && name !in machine.running
      ensures !r.Stopped? ==> active == old(active)
    {
      log := [];
      if name !in active || !IsCpuOnly(models, name) { return Refused, log; }
      var raised := machine.Stop(name);
      log := [StopAsked(name, raised)];
      LinkSurvives(models, active, old(machine.running), machine.running);
      if raised { return Raised, log; }
      active := Without(active, [name]);
      r := Stopped(name);
    }

    /** Stops every recorded service that is known, CPU-only ones too, and empties the record. */
    method ResetByForce() returns (r: Result, ghost log: seq<Event>)
      requires Sound()
      modifies this, machine
      ensures Sound()
      ensures r == WasReset || r == Raised
      ensures machine.events == old(machine.events) + log && StopLog(models, old(active), true, log, r == Raised)
      ensures r == WasReset ==> active == [] && profile == IdleState
      ensures r == WasReset ==> forall s :: s in old(active) && s in models ==> s !in machine.running
      ensures r == Raised ==> active == old(active) && profile == old(profile)
    {
      var raised;
      raised, log := StopAllActive(active, true);
      LinkSurvives(models, active, old(machine.running), machine.running);
      if raised { return Raised, log; }
      machine.Perish();
      active, profile := [], IdleState;
      r := WasReset;
    }

    // -------------------------------------------------------------- switching

    /** Stops the recorded GPU services and keeps the CPU-only ones recorded. */
    method HandOver() returns (raised: bool, ghost log: seq<Event>)
      requires Sound()
      modifies this, machine
      ensures machine.AlwaysSafe() && machine.running <= old(machine.running)
      ensures machine.events == old(machine.events) + log && StopLog(models, old(active), false, log, raised)
      ensures raised ==> active == old(active)
      ensures !raised ==> active == CpuOnlyOf(models, old(active))
      ensures !raised ==> GpuPart(models, machine.running) !! Recorded(models, old(active))
    {
      var services, kept := active, [];
      log := [];
      for i := 0 to |services|
        modifies machine
        invariant machine.AlwaysSafe() && machine.running <= old(machine.running)
        invariant machine.events == old(machine.events) + log && log == StopsOf(models, services[..i], false)
        invariant forall s :: s in services[..i] && IsGpu(models, s) ==> s !in machine.running
        invariant kept == CpuOnlyOf(models, services[..i])
      {
        var name := services[i];
        StopsSnoc(models, services, i, false);
        CpuOnlyNext(models, services, i);
        if IsCpuOnly(models, name) {
          kept := kept + [name];
        } else if name in models {
          var failed := machine.Stop(name);
          log := log + [StopAsked(name, failed)];
          if failed { return true, log; }
        }
      }
      assert services[..|services|] == services;
      active := kept;
      raised := false;
    }

    /** Tries the GPU services that were recorded before the swap, in order, until one comes back. */
    method RollBack(before: seq<string>) returns (r: Result, ghost log: seq<Event>)
      requires Registered() && machine.AlwaysSafe()
      requires GpuPart(models, machine.running) == {}
      requires Recorded(models, active) == {}
      modifies this, machine
      ensures machine.AlwaysSafe()
      ensures r.Switched? || r == Failed || r == Raised
      ensures machine.events == old(machine.events) + log
      ensures r.Switched? ==>
        && r.rolledBack && r.model in Recorded(models, before)
        && Recorded(models, active) == {r.model} && GpuPart(models, machine.running) <= {r.model}
        && log != [] && log[|log| - 1] == StartAsked(r.model, Started)
      ensures !r.Switched? ==> Recorded(models, active) == {} && forall s :: StartAsked(s, Started) !in log
      ensures r == Failed ==> GpuPart(models, machine.running) == {} && profile == ErrorState
      ensures r == Failed ==> forall s :: s in before ==> GaveUp(models, s, log)
    {
      log := [];
      for i := 0 to |before|
        invariant machine.AlwaysSafe()
        invariant machine.events == old(machine.events) + log
        invariant GpuPart(models, machine.running) == {} && Recorded(models, active) == {}
        invariant forall s :: StartAsked(s, Started) !in log
        invariant forall s :: s in before[..i] ==> GaveUp(models, s, log)
      {
        if IsGpu(models, before[i]) {
          assert forall n :: n in machine.running && IsGpu(models, n) ==> n in GpuPart(models, machine.running);
          var again;
          ghost var more;
          again, more := DeployModel(before[i]);
          Glued(old(machine.events), log, more);
          ghost var earlier := log;
          log := log + more;
          if again.Switched? { return Switched(before[i], true), log; }
          forall s ensures StartAsked(s, Started) !in log { DeployDidNotStart(before[i], more, again, s); }
          if again.Raised? { return Raised, log; }
          forall s | s in before[..i] ensures GaveUp(models, s, log) { StillGaveUp(models, s, earlier, more); }
        }
      }
      profile := ErrorState;
      r := Failed;
    }

    /** Swaps one exclusive model for another, with rollback: the record ends with the new model, the old
        one, or no GPU service, and `Switched` always names the one that was started last. */
    method SwitchExclusive(name: string) returns (r: Result, ghost log: seq<Event>)
      requires Sound() && IsExclusive(models, name)
      requires ModeOf(models, active) == ExclusiveMode
      modifies this, machine
      ensures Sound()
      ensures r.Switched? || r == Refused || r == Failed || r == Raised
      ensures machine.events == old(machine.events) + log
      ensures Recorded(models, active) in {{name}, Recorded(models, old(active)), {}}
      ensures r.Switched? ==> Recorded(models, active) == {r.model}
      ensures r.Switched? ==>
        && StopsOf(models, old(active), false) < log && log[|log| - 1] == StartAsked(r.model, Started)
      ensures r.Switched? && !r.rolledBack ==> r.model == name && active == [name] + CpuOnlyOf(models, old(active))
      ensures r.Switched? && r.rolledBack ==> {r.model} == Recorded(models, old(active)) && GaveUp(models, name, log)
      ensures r == Failed ==> Recorded(models, active) == {} && GaveUp(models, name, log)
      ensures r == Failed ==> forall s :: s in old(active) ==> GaveUp(models, s, log)
      ensures r != Refused
    {
      var before := active;
      ModeDescribesRecord(models, active, machine.running);
      var raised;
      raised, log := HandOver();
      if raised {
        LinkSurvives(models, active, old(machine.running), machine.running);
        return Raised, log;
      }
      NothingLeft(models, before, active, old(machine.running), machine.running);
      CpuOnlyTwice(models, before);
      ghost var deploy;
      r, deploy := DeployModel(name);
      Glued(old(machine.events), log, deploy);
      log := log + deploy;
      if r.Switched? {
        DeployedIsLinked(models, name, active, CpuOnlyOf(models, before), machine.running);
        return;
      }
      if r.Raised? {
        IdleIsLinked(models, active, machine.running);
        return;
      }
      assert GpuPart(models, machine.running) == {};
      assert GaveUp(models, name, log);
      ghost var tries;
      r, tries := RollBack(before);
      Glued(old(machine.events), log, tries);
      log := log + tries;
      if r.Switched? {
        OneGpuIsLinked(models, r.model, active, machine.running);
      } else {
        IdleIsLinked(models, active, machine.running);
      }
    }

    method SwitchIndependent(name: string) returns (r: Result, ghost log: seq<Event>)
      requires Sound() && IsCpuOnly(models, name)
      modifies this, machine
      ensures Sound()
      ensures machine.events == old(machine.events) + log && StartLog(name, log, r)
      ensures r.Switched? ==> active == (if name in old(active) then old(active) else old(active) + [name])
      ensures r.Switched? ==> profile == Healthy
      ensures !r.Switched? ==> active == old(active) && profile == old(profile)
      ensures ModeOf(models, active) == old(ModeOf(models, active))
    {
      var outcome := machine.Start(name);
      log := [StartAsked(name, outcome)];
      assert GpuPart(models, machine.running) <= GpuPart(models, old(machine.running));
      assert forall n :: n in machine.running && IsGpu(models, n) ==> n in GpuPart(models, machine.running);
      if outcome == StartRaised { return Raised, log; }
      if outcome == StartFailed { return Failed, log; }
      if name !in active { active := active + [name]; }
      profile := Healthy;
      r := Switched(name, false);
    }

    /** Switches to a model by its role: CPU-only ones beside the state machine, GPU ones through it. A
        refusal always has a reason, and a success is a start that worked. */
    method SwitchModel(target: string) returns (r: Result, ghost log: seq<Event>)
      requires Sound()
      modifies this, machine
      ensures Sound()
      ensures machine.events == old(machine.events) + log
      ensures target !in models ==> r == Refused && active == old(active) && log == []
      ensures target in models ==> SwitchOutcome(models, target, active, log, r)
      ensures target in models && target in old(active)
              && (!models[target].isVllm || log == [Answered(HasDrifted(target), false)]) ==>
        r == AlreadyActive(target) && active == old(active)
      ensures r.Switched? && r.rolledBack ==> r.model in old(active)
      ensures IsCpuOnly(models, target) && target !in old(active) ==> StartLog(target, log, r)
      ensures IsGpu(models, target) && target !in old(active) && r != Refused ==> Answered(LockIsFree, true) in log
      ensures target in models && target in old(active) && models[target].isVllm ==>
        && log != [] && log[0].Answered? && log[0].question == HasDrifted(target)
        && (log[0].yes ==> |names| + 1 < |log| && HealthScan(names, log[1..|names| + 1]))
      ensures
        IsGpu(models, target) && target !in old(active) && Forbidden(models, old(ModeOf(models, active)), target) ==>
        r == Refused && active == old(active) && machine.running == old(machine.running) && log == []
    {
      log := [];
      if target !in models { return Refused, log; }
      if target in active {
        if !models[target].isVllm { return AlreadyActive(target), log; }
        var drifted := machine.Ask(HasDrifted(target));
        log := [Answered(HasDrifted(target), drifted)];
        if !drifted { return AlreadyActive(target), log; }
        ghost var more;
        r, more := Restart(target);
        Glued(old(machine.events), log, more);
        OutcomeStays(models, target, active, log, more, r);
        log := log + more;
        assert log[1..|names| + 1] == more[..|names|];
        return;
      }
      r, log := Dispatch(target);
    }

    /** A service whose configuration has drifted is stopped by going idle, then started like any other. */
    method Restart(target: string) returns (r: Result, ghost log: seq<Event>)
      requires Sound() && target in models && target in active
      modifies this, machine
      ensures Sound()
      ensures machine.events == old(machine.events) + log
      ensures |names| < |log| && HealthScan(names, log[..|names|])
      ensures SwitchOutcome(models, target, active, log, r)
      ensures r.Switched? && r.rolledBack ==> r.model == target
    {
      var _, first := SwitchToIdle();
      OnlyTargetLeft(models, target, old(active), old(machine.running), active);
      ghost var more;
      r, more := Dispatch(target);
      Glued(old(machine.events), first, more);
      OutcomeStays(models, target, active, first, more, r);
      log := first + more;
      assert log[..|names|] == first[..|names|];
    }

    method Dispatch(target: string) returns (r: Result, ghost log: seq<Event>)
      requires Sound() && target in models
      modifies this, machine
      ensures Sound()
      ensures machine.events == old(machine.events) + log
      ensures SwitchOutcome(models, target, active, log, r)
      ensures r.Switched? && r.rolledBack ==> {r.model} == Recorded(models, old(active))
      ensures IsCpuOnly(models, target) ==> StartLog(target, log, r)
      ensures IsGpu(models, target) && r != Refused ==> Answered(LockIsFree, true) in log
      ensures IsGpu(models, target) && Forbidden(models, old(ModeOf(models, active)), target) ==>
        r == Refused && active == old(active) && machine.running == old(machine.running) && log == []
    {
      if IsCpuOnly(models, target) {
        r, log := SwitchIndependent(target);
        return;
      }
      log := [];
      var targetMode := TargetMode(models[target].role);
      var mode := GpuMode();
      if !ValidateTransition(mode, targetMode) && !(mode == ExclusiveMode && targetMode == ExclusiveMode) {
        return Refused, log;
      }
      if mode == IdleMode {
        r, log := DeployFromIdle(target);
        return;
      }
      var free := machine.Ask(LockIsFree);
      log := [Answered(LockIsFree, free)];
      if !free { return Refused, log; }
      profile := Switching;
      ghost var more;
      if mode == ExclusiveMode {
        r, more := SwitchExclusive(target);
      } else {
        r, more := SharedAddService(target);
        AdditionIsOutcome(models, target, active, more, r);
      }
      Glued(old(machine.events), log, more);
      OutcomeStays(models, target, active, log, more, r);
      log := log + more;
      if !r.Switched? && !r.AlreadyActive? { profile := ErrorState; }
    }

    /** Both scans: whether another GPU model's process was found. */
    method IsOccupied(target: string) returns (occupied: bool, ghost log: seq<Event>)
      requires Registered()
      modifies machine`events
      ensures machine.events == old(machine.events) + log
      ensures occupied <==> Occupied(models, target, log)
      ensures forall i :: 0 <= i < |log| ==> log[i].Answered?
      ensures !occupied ==> GpuPart(models, machine.running) <= {target}
    {
      var actual, owners;
      ghost var ports;
      actual, log := ScanActualServices();
      owners, ports := ScanPortOwners();
      Glued(old(machine.events), log, ports);
      OccupiedIff(models, target, names, log, ports, owners);
      log := log + ports;
      occupied := !ScanPasses(models, actual, target) || owners - {target} != {};
      assert !occupied ==> owners <= {target};
    }

    /** The occupancy guard, then a deploy on an idle GPU. */
    method DeployFromIdle(target: string) returns (r: Result, ghost log: seq<Event>)
      requires Sound() && IsGpu(models, target) && ModeOf(models, active) == IdleMode
      modifies this, machine
      ensures Sound()
      ensures r in {Switched(target, false), Refused, Failed, Raised}
      ensures machine.events == old(machine.events) + log
      ensures r == Refused ==> Occupied(models, target, log) || Declined(target, log)
      ensures Occupied(models, target, log) ==> r == Refused
      ensures r.Switched? ==> log != [] && log[|log| - 1] == StartAsked(target, Started)
      ensures r != Refused ==> Answered(LockIsFree, true) in log
      ensures r.Switched? ==> active == [target] + CpuOnlyOf(models, old(active))
      ensures r.Switched? ==> Recorded(models, active) == {target}
      ensures r.Refused? || r.Raised? ==> active == old(active)
      ensures r.Failed? ==> active == []
    {
      var occupied;
      occupied, log := IsOccupied(target);
      if occupied { return Refused, log; }
      var free := machine.Ask(LockIsFree);
      Glued(old(machine.events), log, [Answered(LockIsFree, free)]);
      ghost var scan, later := log, [Answered(LockIsFree, free)];
      log := scan + later;
      if !free { return Refused, log; }
      PortScanSuffices(models, active, machine.running, GpuPart(models, machine.running), target);
      profile := Switching;
      ghost var more;
      r, more := DeployModel(target);
      Glued(old(machine.events), log, more);
      Glued(scan, later, more);
      NotOccupiedLater(models, target, scan, later + more);
      log := log + more;
      if r.Switched? {
        DeployedIsLinked(models, target, active, CpuOnlyOf(models, old(active)), machine.running);
      } else {
        profile := ErrorState;
        IdleIsLinked(models, active, machine.running);
      }
    }

    // -------------------------------------------------------------- runs

    method Execute(command: Command)
      requires Sound()
      modifies this, machine
      ensures Sound()
    {
      match command
      case SwitchTo(name) => var _, _ := SwitchModel(name);
      case SwitchIdle => var _, _ := SwitchToIdle();
      case StopService(name) => var _, _ := this.StopService(name);
      case StopIndependent(name) => var _, _ := this.StopIndependent(name);
      case Reconcile => var _ := ReconcileState();
      case Cleanup => var _, _ := CleanupDeadServices();
      case ForceReset => var _, _ := ResetByForce();
    }

    /** Whatever is asked for, in whatever order, and whichever processes die in between: at no moment
        does a second GPU process run beside an exclusive model, and the record stays linked. */
    method Run(commands: seq<Command>)
      requires Sound()
      modifies this, machine
      ensures Sound()
      ensures forall i :: 0 <= i < |machine.history| ==> Safe(models, machine.history[i])
      ensures Safe(models, machine.running)
      ensures forall e, n :: e in active && IsExclusive(models, e) && n in active && IsGpu(models, n) ==> n == e
    {
      for i := 0 to |commands|
        invariant Sound()
      {
        ghost var before := machine.running;
        machine.Perish();
        LinkSurvives(models, active, before, machine.running);
        Execute(commands[i]);
      }
    }
  }

  function Members(names: seq<string>): set<string> {
    set s | s in names
  }

  function Without(names: seq<string>, gone: seq<string>): (left: seq<string>)
    ensures forall s :: s in left <==> s in names && s !in gone
    ensures gone == [] ==> left == names
  {
    if names == [] then []
    else (if names[0] in gone then [] else [names[0]]) + Without(names[1..], gone)
  }

  /** A record of nothing but running models is linked. */
  lemma RecordOfRunning(models: Registry, active: seq<string>, running: set<string>)
    requires Safe(models, running) && Members(active) <= running
    ensures Linked(models, active, running)
  {
    assert forall s :: s in active ==> s in Members(active);
  }

  lemma LinkSurvives(models: Registry, active: seq<string>, before: set<string>, after: set<string>)
    requires Linked(models, active, before) && after <= before
    ensures Linked(models, active, after)
  {
  }

  /** While an exclusive service is recorded, no other GPU service can be found running. */
  lemma OnlyTargetLeft(models: Registry, target: string, before: seq<string>, running: set<string>, after: seq<string>)
    requires Linked(models, before, running) && target in before && Members(after) <= running
    ensures IsExclusive(models, target) ==> Recorded(models, after) <= {target}
  {
    assert forall s :: s in after ==> s in Members(after);
  }

  lemma NothingLeft(models: Registry, before: seq<string>, active: seq<string>, wasRunning: set<string>,
                    running: set<string>)
    requires Linked(models, before, wasRunning) && ModeOf(models, before) == ExclusiveMode
    requires active == CpuOnlyOf(models, before) && running <= wasRunning
    requires GpuPart(models, running) !! Recorded(models, before)
    ensures GpuPart(models, running) == {} && Recorded(models, active) == {}
    ensures forall n :: n in running ==> !IsGpu(models, n)
  {
    ModeDescribesRecord(models, before, wasRunning);
    assert GpuPart(models, running) <= GpuPart(models, wasRunning);
    assert forall n :: n in running && IsGpu(models, n) ==> n in GpuPart(models, running);
  }

  lemma {:induction false} CpuOnlySnoc(models: Registry, active: seq<string>, name: string)
    ensures CpuOnlyOf(models, active + [name])
         == CpuOnlyOf(models, active) + if IsCpuOnly(models, name) then [name] else []
  {
    if active != [] {
      assert (active + [name])[1..] == active[1..] + [name];
      CpuOnlySnoc(models, active[1..], name);
    } else {
      assert [name][1..] == [];
    }
  }

  lemma CpuOnlyNext(models: Registry, active: seq<string>, i: nat)
    requires i < |active|
    ensures CpuOnlyOf(models, active[..i + 1])
         == CpuOnlyOf(models, active[..i]) + if IsCpuOnly(models, active[i]) then [active[i]] else []
  {
    CpuOnlySnoc(models, active[..i], active[i]);
    assert active[..i + 1] == active[..i] + [active[i]];
  }

  lemma {:induction false} CpuOnlyTwice(models: Registry, active: seq<string>)
    ensures CpuOnlyOf(models, CpuOnlyOf(models, active)) == CpuOnlyOf(models, active)
  {
    if active != [] {
      var later := CpuOnlyOf(models, active[1..]);
      CpuOnlyTwice(models, active[1..]);
      assert ([active[0]] + later)[1..] == later;
      assert CpuOnlyOf(models, active) == if IsCpuOnly(models, active[0]) then [active[0]] + later else later;
    }
  }

  /** The record names this GPU service only, and nothing else runs on the GPU. */
  lemma OneGpuIsLinked(models: Registry, name: string, active: seq<string>, running: set<string>)
    requires Safe(models, running)
    requires Recorded(models, active) == {name} && GpuPart(models, running) <= {name}
    ensures Linked(models, active, running)
  {
    assert forall n :: n in active && IsGpu(models, n) ==> n in Recorded(models, active);
    assert forall n :: n in running && IsGpu(models, n) ==> n in GpuPart(models, running);
  }

  lemma DeployedIsLinked(models: Registry, name: string, active: seq<string>, kept: seq<string>,
                         running: set<string>)
    requires Safe(models, running) && IsGpu(models, name)
    requires active == [name] + kept && forall s :: s in kept ==> IsCpuOnly(models, s)
    requires GpuPart(models, running) <= {name}
    ensures Linked(models, active, running) && Recorded(models, active) == {name}
  {
    assert name in active;
    assert Recorded(models, active) == {name};
    OneGpuIsLinked(models, name, active, running);
  }

  /** Without a recorded GPU service any safe GPU process may be left behind. */
  lemma IdleIsLinked(models: Registry, active: seq<string>, running: set<string>)
    requires Safe(models, running) && Recorded(models, active) == {}
    ensures Linked(models, active, running)
  {
    assert forall n :: n in active && IsGpu(models, n) ==> n in Recorded(models, active);
  }
}

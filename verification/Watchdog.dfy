// The health watchdog: counts failed checks per model and restarts a model that keeps failing, with
// exponential backoff and a cap. Checks and restart threads interleave at their lock regions.

module WatchdogLogs {
  import opened Wrappers

  /** What happened to a model: a healthy or a bad check, a restart launched, or a restart that
      brought the model back. */
  datatype Event =
    | Healthy(name: string)
    | Bad(name: string)
    | Launch(name: string, at: real)
    | Recovered(name: string)

  datatype Limits = Limits(alertAfter: nat, restartAfter: nat, autoRestart: bool, maxRestarts: nat, step: real)

  function Pow2(k: nat): (p: real)
    ensures p >= 1.0
  {
    if k == 0 then 1.0 else 2.0 * Pow2(k - 1)
  }

  /** Seconds to wait after the k-th restart, counted from zero. */
  function Backoff(limits: Limits, k: nat): real {
    var grown := limits.step * Pow2(k);
    if grown < 300.0 then grown else 300.0
  }

  lemma BackoffIsNonNegative(limits: Limits, k: nat)
    requires limits.step >= 0.0
    ensures Backoff(limits, k) >= 0.0
  {
    assert limits.step * Pow2(k) >= 0.0;
  }

  /** The first pause is the step, and each further one twice as long, never longer than five minutes. */
  lemma BackoffDoubles(limits: Limits, k: nat)
    requires limits.step >= 0.0
    ensures Backoff(limits, 0) == if limits.step < 300.0 then limits.step else 300.0
    ensures Backoff(limits, k + 1) == if 2.0 * Backoff(limits, k) < 300.0 then 2.0 * Backoff(limits, k) else 300.0
  {
    var grown := limits.step * Pow2(k);
    assert limits.step * Pow2(0) == limits.step;
    assert limits.step * Pow2(k + 1) == 2.0 * grown;
    assert grown >= 0.0;
  }

  /** Bad checks in a row since the last healthy check or successful restart. */
  function BadSince(log: seq<Event>, n: string): nat {
    if log == [] then 0
    else
      var e, before := log[|log| - 1], BadSince(log[..|log| - 1], n);
      if e.name != n || e.Launch? then before else if e.Bad? then before + 1 else 0
  }

  /** Restarts launched since the last healthy check. */
  function LaunchesSince(log: seq<Event>, n: string): nat {
    if log == [] then 0
    else
      var e, before := log[|log| - 1], LaunchesSince(log[..|log| - 1], n);
      if e.name != n then before else if e.Launch? then before + 1 else if e.Healthy? then 0 else before
  }

  /** When the last of them was. */
  function LastLaunch(log: seq<Event>, n: string): Option<real> {
    if log == [] then None
    else
      var e, before := log[|log| - 1], LastLaunch(log[..|log| - 1], n);
      if e.name != n then before else if e.Launch? then Some(e.at) else if e.Healthy? then None else before
  }

  lemma {:induction false} LaunchedIffCounted(log: seq<Event>, n: string)
    ensures LastLaunch(log, n).Some? <==> LaunchesSince(log, n) > 0
  {
    if log != [] { LaunchedIffCounted(log[..|log| - 1], n); }
  }

  /** The backoff after the last restart, if there was one since the last healthy check, has passed. */
  predicate CooledDown(limits: Limits, log: seq<Event>, n: string, now: real) {
    LastLaunch(log, n).Some? && LaunchesSince(log, n) > 0 ==>
      now >= LastLaunch(log, n).value + Backoff(limits, LaunchesSince(log, n) - 1)
  }

  /** A model that fails is reported when it may not be restarted again, or not yet. */
  predicate Alarms(limits: Limits, log: seq<Event>, n: string, now: real) {
    if limits.autoRestart && BadSince(log, n) >= limits.restartAfter
    then CooledDown(limits, log, n, now) && LaunchesSince(log, n) >= limits.maxRestarts
    else BadSince(log, n) >= limits.alertAfter
  }

  /** A restart of this model may be launched now. */
  predicate MayLaunch(limits: Limits, log: seq<Event>, n: string, now: real) {
    && limits.autoRestart
    && BadSince(log, n) >= limits.restartAfter
    && LaunchesSince(log, n) < limits.maxRestarts
    && CooledDown(limits, log, n, now)
  }

  /** Every restart in the log was allowed when it was launched. */
  predicate Lawful(limits: Limits, log: seq<Event>) {
    log == [] ||
    (var e, before := log[|log| - 1], log[..|log| - 1];
     Lawful(limits, before) && (e.Launch? ==> MayLaunch(limits, before, e.name, e.at)))
  }

  lemma {:induction false} LawfulPrefix(limits: Limits, log: seq<Event>, i: nat)
    requires Lawful(limits, log) && i <= |log|
    ensures Lawful(limits, log[..i])
    ensures i < |log| && log[i].Launch? ==> MayLaunch(limits, log[..i], log[i].name, log[i].at)
  {
    if i == |log| {
      assert log[..i] == log;
    } else {
      if i < |log| - 1 {
        LawfulPrefix(limits, log[..|log| - 1], i);
        assert log[..|log| - 1][..i] == log[..i];
      }
    }
  }

  // ---------------------------------------------------------------- what a lawful log promises

  predicate NoneHealthy(log: seq<Event>, n: string, lo: nat, hi: nat)
    requires lo <= hi <= |log|
  {
    forall i :: lo <= i < hi ==> !(log[i].Healthy? && log[i].name == n)
  }

  function CountLaunches(log: seq<Event>, n: string, lo: nat, hi: nat): nat
    requires lo <= hi <= |log|
    decreases hi
  {
    if lo == hi then 0
    else CountLaunches(log, n, lo, hi - 1) + if log[hi - 1].Launch? && log[hi - 1].name == n then 1 else 0
  }

  lemma {:induction false} WindowCounts(log: seq<Event>, n: string, lo: nat, hi: nat)
    requires lo <= hi <= |log| && NoneHealthy(log, n, lo, hi)
    ensures LaunchesSince(log[..hi], n) == LaunchesSince(log[..lo], n) + CountLaunches(log, n, lo, hi)
    decreases hi
  {
    if lo < hi {
      assert log[..hi][..hi - 1] == log[..hi - 1];
      WindowCounts(log, n, lo, hi - 1);
    }
  }

  lemma {:induction false} NeverOverTheCap(limits: Limits, log: seq<Event>, n: string)
    requires Lawful(limits, log)
    ensures LaunchesSince(log, n) <= limits.maxRestarts
  {
    if log != [] { NeverOverTheCap(limits, log[..|log| - 1], n); }
  }

  /** Between two healthy observations of a model at most maxRestarts restarts are launched. */
  lemma RestartsAreCapped(limits: Limits, log: seq<Event>, n: string, lo: nat, hi: nat)
    requires Lawful(limits, log) && lo <= hi <= |log| && NoneHealthy(log, n, lo, hi)
    ensures CountLaunches(log, n, lo, hi) <= limits.maxRestarts
  {
    LawfulPrefix(limits, log, hi);
    NeverOverTheCap(limits, log[..hi], n);
    WindowCounts(log, n, lo, hi);
  }

  /** The last launch before a position, when one is known at i and nothing healthy came between. */
  lemma {:induction false} LastLaunchIsLate(limits: Limits, log: seq<Event>, i: nat, j: nat)
    requires Lawful(limits, log) && limits.step >= 0.0
    requires i < j <= |log| && log[i].Launch? && NoneHealthy(log, log[i].name, i, j)
    ensures var n := log[i].name;
      && LaunchesSince(log[..j], n) > LaunchesSince(log[..i], n)
      && LastLaunch(log[..j], n).Some?
      && if LaunchesSince(log[..j], n) == LaunchesSince(log[..i], n) + 1
         then LastLaunch(log[..j], n).value == log[i].at
         else LastLaunch(log[..j], n).value >= log[i].at + Backoff(limits, LaunchesSince(log[..i], n))
    decreases j
  {
    var n := log[i].name;
    assert log[..j][..j - 1] == log[..j - 1];
    if i < j - 1 {
      LastLaunchIsLate(limits, log, i, j - 1);
      if log[j - 1].Launch? && log[j - 1].name == n {
        LawfulPrefix(limits, log, j - 1);
        BackoffIsNonNegative(limits, LaunchesSince(log[..j - 1], n) - 1);
      }
    }
  }

  /** A restart that follows the k-th since the last healthy check, directly or not, comes at least
      min(300, step * 2^k) seconds after it. */
  lemma RestartsAreSpaced(limits: Limits, log: seq<Event>, i: nat, j: nat)
    requires Lawful(limits, log) && limits.step >= 0.0
    requires i < j < |log| && log[i].Launch? && log[j].Launch? && log[i].name == log[j].name
    requires NoneHealthy(log, log[i].name, i, j)
    ensures log[j].at >= log[i].at + Backoff(limits, LaunchesSince(log[..i], log[i].name))
  {
    LastLaunchIsLate(limits, log, i, j);
    LawfulPrefix(limits, log, j);
    BackoffIsNonNegative(limits, LaunchesSince(log[..j], log[i].name) - 1);
  }

  predicate NoneGood(log: seq<Event>, n: string, lo: nat, hi: nat)
    requires lo <= hi <= |log|
  {
    forall i :: lo <= i < hi ==> !((log[i].Healthy? || log[i].Recovered?) && log[i].name == n)
  }

  function CountBad(log: seq<Event>, n: string, lo: nat, hi: nat): nat
    requires lo <= hi <= |log|
    decreases hi
  {
    if lo == hi then 0
    else CountBad(log, n, lo, hi - 1) + if log[hi - 1].Bad? && log[hi - 1].name == n then 1 else 0
  }

  lemma {:induction false} BadRun(log: seq<Event>, n: string, hi: nat) returns (lo: nat)
    requires hi <= |log|
    ensures lo <= hi && NoneGood(log, n, lo, hi) && CountBad(log, n, lo, hi) == BadSince(log[..hi], n)
    decreases hi
  {
    if hi == 0 {
      lo := 0;
    } else {
      assert log[..hi][..hi - 1] == log[..hi - 1];
      var e := log[hi - 1];
      if e.name == n && (e.Healthy? || e.Recovered?) {
        lo := hi;
      } else {
        lo := BadRun(log, n, hi - 1);
      }
    }
  }

  /** Every restart was preceded by a run of bad checks of at least the threshold, with no healthy check
      and no successful restart in it. */
  lemma RestartsNeedFailures(limits: Limits, log: seq<Event>, j: nat) returns (lo: nat)
    requires Lawful(limits, log) && j < |log| && log[j].Launch?
    ensures lo <= j && NoneGood(log, log[j].name, lo, j)
    ensures CountBad(log, log[j].name, lo, j) >= limits.restartAfter
  {
    LawfulPrefix(limits, log, j);
    lo := BadRun(log, log[j].name, j);
  }

  // ---------------------------------------------------------------- a model that keeps failing

  /** The log of a model whose checks all fail, at these times, and that no restart brings back. */
  function FailingLog(limits: Limits, n: string, times: seq<real>): seq<Event> {
    if times == [] then []
    else
      var now := times[|times| - 1];
      var log := FailingLog(limits, n, times[..|times| - 1]) + [Bad(n)];
      if MayLaunch(limits, log, n, now) then log + [Launch(n, now)] else log
  }

  /** Checks that are far enough apart for every cooldown. */
  ghost predicate FarApart(times: seq<real>) {
    forall i :: 0 < i < |times| ==> times[i] >= times[i - 1] + 300.0
  }

  /** How many restarts that many failures have earned. */
  function Earned(limits: Limits, failures: nat): nat {
    if failures < limits.restartAfter then 0
    else if failures - limits.restartAfter + 1 < limits.maxRestarts then failures - limits.restartAfter + 1
    else limits.maxRestarts
  }

  lemma AddBad(log: seq<Event>, n: string)
    ensures BadSince(log + [Bad(n)], n) == BadSince(log, n) + 1
    ensures LaunchesSince(log + [Bad(n)], n) == LaunchesSince(log, n)
    ensures LastLaunch(log + [Bad(n)], n) == LastLaunch(log, n)
  {
    assert (log + [Bad(n)])[..|log|] == log;
  }

  lemma AddLaunch(log: seq<Event>, n: string, now: real)
    ensures BadSince(log + [Launch(n, now)], n) == BadSince(log, n)
    ensures LaunchesSince(log + [Launch(n, now)], n) == LaunchesSince(log, n) + 1
    ensures LastLaunch(log + [Launch(n, now)], n) == Some(now)
  {
    assert (log + [Launch(n, now)])[..|log|] == log;
  }

  lemma CooledAfter300(limits: Limits, log: seq<Event>, n: string, now: real)
    requires LastLaunch(log, n).Some? ==> LastLaunch(log, n).value + 300.0 <= now
    ensures CooledDown(limits, log, n, now)
  {
  }

  lemma FailOnce(limits: Limits, n: string, earlier: seq<Event>, failures: nat, now: real)
    requires limits.autoRestart && limits.restartAfter > 0
    requires BadSince(earlier, n) == failures && LaunchesSince(earlier, n) == Earned(limits, failures)
    requires LastLaunch(earlier, n).Some? ==> LastLaunch(earlier, n).value + 300.0 <= now
    ensures
      var bad := earlier + [Bad(n)];
      var log := if MayLaunch(limits, bad, n, now) then bad + [Launch(n, now)] else bad;
      && BadSince(log, n) == failures + 1 && LaunchesSince(log, n) == Earned(limits, failures + 1)
      && (LastLaunch(log, n).Some? ==> LastLaunch(log, n) in {Some(now), LastLaunch(earlier, n)})
  {
    AddBad(earlier, n);
    AddLaunch(earlier + [Bad(n)], n, now);
    CooledAfter300(limits, earlier + [Bad(n)], n, now);
  }

  /** It is restarted at every check from the threshold on, until the cap is reached. */
  lemma {:induction false} FailingIsRestarted(limits: Limits, n: string, times: seq<real>)
    requires limits.autoRestart && limits.restartAfter > 0 && FarApart(times)
    ensures var log := FailingLog(limits, n, times);
      && BadSince(log, n) == |times| && LaunchesSince(log, n) == Earned(limits, |times|)
      && (times != [] && LastLaunch(log, n).Some? ==> LastLaunch(log, n).value <= times[|times| - 1])
      && (times == [] ==> LastLaunch(log, n) == None)
  {
    if times != [] {
      var before := times[..|times| - 1];
      FailingIsRestarted(limits, n, before);
      FailOnce(limits, n, FailingLog(limits, n, before), |before|, times[|times| - 1]);
    }
  }

  /** The alarm is raised at the failures from the first threshold to the restarts, and once the cap is reached
      at every further one. */
  lemma FailingAlarms(limits: Limits, n: string, times: seq<real>, now: real)
    requires limits.autoRestart && limits.restartAfter > 0 && FarApart(times + [now])
    ensures var failures := |times| + 1;
      Alarms(limits, FailingLog(limits, n, times) + [Bad(n)], n, now) <==>
        || limits.alertAfter <= failures < limits.restartAfter
        || failures >= limits.restartAfter + limits.maxRestarts
  {
    assert forall i :: 0 <= i < |times| ==> (times + [now])[i] == times[i];
    assert times != [] ==> (times + [now])[|times|] == now;
    FailingIsRestarted(limits, n, times);
    AddBad(FailingLog(limits, n, times), n);
    CooledAfter300(limits, FailingLog(limits, n, times) + [Bad(n)], n, now);
  }

  /** Without automatic restarts it is never restarted, and the alarm comes with the first threshold. */
  lemma {:induction false} WithoutRestarts(limits: Limits, n: string, times: seq<real>, now: real)
    requires !limits.autoRestart
    ensures var log := FailingLog(limits, n, times);
      && BadSince(log, n) == |times| && LaunchesSince(log, n) == 0
      && (Alarms(limits, log + [Bad(n)], n, now) <==> |times| + 1 >= limits.alertAfter)
  {
    if times != [] {
      WithoutRestarts(limits, n, times[..|times| - 1], now);
      AddBad(FailingLog(limits, n, times[..|times| - 1]), n);
    }
    AddBad(FailingLog(limits, n, times), n);
  }
}

module Watchdogs {
  import opened Wrappers
  import opened WatchdogLogs

  datatype Status = Ok | Starting | Down | Unknown

  datatype Step =
    | BeginCheck(name: string, wall: real)
    | Judged(name: string, status: Status, now: real)
    | RestartBegins(name: string, wall: real)
    | RestartSucceeds(name: string)
    | RestartEnds(name: string)

  function Count(counts: map<string, nat>, n: string): nat {
    if n in counts then counts[n] else 0
  }

  /** The counters of a model say what the log says. */
  predicate Tracked(limits: Limits, failCounts: map<string, nat>, totalRestarts: map<string, nat>,
                    cooldowns: map<string, real>, log: seq<Event>, n: string) {
    && Count(failCounts, n) == BadSince(log, n)
    && Count(totalRestarts, n) == LaunchesSince(log, n)
    && (n in cooldowns <==> LastLaunch(log, n).Some?)
    && (n in cooldowns ==>
          && LaunchesSince(log, n) > 0 && LastLaunch(log, n).value >= 0.0
          && cooldowns[n] == LastLaunch(log, n).value + Backoff(limits, LaunchesSince(log, n) - 1))
  }

  class ModelWatchdog {
    const limits: Limits
    var failCounts: map<string, nat>
    var totalRestarts: map<string, nat>
    var cooldowns: map<string, real>
    var restarting: set<string>
    var restartStarted: map<string, real>
    var profileError: bool
    ghost var log: seq<Event>

    function FailCount(n: string): nat
      reads this
    {
      Count(failCounts, n)
    }

    function Restarts(n: string): nat
      reads this
    {
      Count(totalRestarts, n)
    }

    ghost predicate Valid()
      reads this
    {
      && limits.step >= 0.0 && Lawful(limits, log)
      && forall n :: Tracked(limits, failCounts, totalRestarts, cooldowns, log, n)
    }

    constructor (limits: Limits)
      requires limits.step >= 0.0
      ensures Valid() && log == [] && this.limits == limits
    {
      this.limits := limits;
      failCounts, totalRestarts, cooldowns, restarting, restartStarted := map[], map[], map[], {}, map[];
      profileError, log := false, [];
    }

    /** A model whose restart began less than two minutes ago is not checked; an older one counts as stuck. */
    method Check(name: string, wall: real) returns (skip: bool)
      requires Valid()
      modifies this`restarting
      ensures Valid()
      ensures skip <==> name in old(restarting) && name in restartStarted && restartStarted[name] != 0.0
                        && wall - restartStarted[name] < 120.0
      ensures restarting == if skip then old(restarting) else old(restarting) - {name}
    {
      skip := false;
      if name in restarting {
        if name in restartStarted && restartStarted[name] != 0.0 && wall - restartStarted[name] < 120.0 { return true; }
        restarting := restarting - {name};
      }
    }

    /** Books the outcome of a check. A restart is launched exactly when the bad checks have reached the
        threshold, the cooldown is over and the cap is not reached. */
    method Judge(name: string, status: Status, now: real) returns (launched: bool)
      requires Valid() && now >= 0.0
      modifies this`failCounts, this`totalRestarts, this`cooldowns, this`restarting, this`profileError, this`log
      ensures Valid()
      ensures launched <==>
        (status.Starting? || status.Down?) && MayLaunch(limits, old(log) + [Bad(name)], name, now)
      ensures log == old(log)
        + (match status case Ok => [Healthy(name)] case Unknown => [] case _ => [Bad(name)])
        + (if launched then [Launch(name, now)] else [])
      ensures restarting == old(restarting) + (if launched then {name} else {})
      ensures profileError ==
        (old(profileError) || ((status.Starting? || status.Down?) && Alarms(limits, old(log) + [Bad(name)], name, now)))
    {
      launched := false;
      match status {
        case Unknown =>
          assert log == old(log) + [] + [];
        case Ok =>
          RecordHealthy(name);
          assert log == old(log) + [Healthy(name)] + [];
        case _ =>
          launched := JudgeBad(name, now);
          assert !launched ==> log == old(log) + [Bad(name)] + [];
      }
    }

    method JudgeBad(name: string, now: real) returns (launched: bool)
      requires Valid() && now >= 0.0
      modifies this`failCounts, this`totalRestarts, this`cooldowns, this`restarting, this`profileError, this`log
      ensures Valid()
      ensures launched <==> MayLaunch(limits, old(log) + [Bad(name)], name, now)
      ensures log == if launched then old(log) + [Bad(name)] + [Launch(name, now)] else old(log) + [Bad(name)]
      ensures restarting == old(restarting) + (if launched then {name} else {})
      ensures profileError <==> old(profileError) || Alarms(limits, old(log) + [Bad(name)], name, now)
    {
      RecordBad(name);
      assert Tracked(limits, failCounts, totalRestarts, cooldowns, log, name);
      LaunchedIffCounted(log, name);
      if FailCount(name) >= limits.restartAfter && limits.autoRestart {
        if name in cooldowns && cooldowns[name] != 0.0 && now < cooldowns[name] { return false; }
        if Restarts(name) >= limits.maxRestarts {
          profileError := true;
          return false;
        }
        if name in cooldowns { BackoffIsNonNegative(limits, Restarts(name) - 1); }
        RecordLaunch(name, now);
        return true;
      } else if FailCount(name) >= limits.alertAfter {
        profileError := true;
      }
      launched := false;
    }

    method RecordHealthy(name: string)
      requires Valid()
      modifies this`failCounts, this`totalRestarts, this`cooldowns, this`log
      ensures Valid() && log == old(log) + [Healthy(name)]
    {
      failCounts, totalRestarts, cooldowns := failCounts[name := 0], totalRestarts - {name}, cooldowns - {name};
      log := log + [Healthy(name)];
      assert log[..|log| - 1] == old(log);
      forall n ensures Tracked(limits, failCounts, totalRestarts, cooldowns, log, n) {
        assert Tracked(limits, old(failCounts), old(totalRestarts), old(cooldowns), old(log), n);
      }
    }

    method RecordBad(name: string)
      requires Valid()
      modifies this`failCounts, this`log
      ensures Valid() && log == old(log) + [Bad(name)]
    {
      failCounts := failCounts[name := FailCount(name) + 1];
      log := log + [Bad(name)];
      assert log[..|log| - 1] == old(log);
      forall n ensures Tracked(limits, failCounts, totalRestarts, cooldowns, log, n) {
        assert Tracked(limits, old(failCounts), old(totalRestarts), old(cooldowns), old(log), n);
      }
    }

    method RecordLaunch(name: string, now: real)
      requires Valid() && now >= 0.0 && MayLaunch(limits, log, name, now)
      modifies this`totalRestarts, this`cooldowns, this`restarting, this`log
      ensures Valid() && log == old(log) + [Launch(name, now)] && restarting == old(restarting) + {name}
    {
      var total := Restarts(name);
      restarting := restarting + {name};
      totalRestarts, cooldowns := totalRestarts[name := total + 1], cooldowns[name := now + Backoff(limits, total)];
      log := log + [Launch(name, now)];
      assert log[..|log| - 1] == old(log);
      forall n ensures Tracked(limits, failCounts, totalRestarts, cooldowns, log, n) {
        assert Tracked(limits, old(failCounts), old(totalRestarts), old(cooldowns), old(log), n);
      }
    }

    method BeginRestart(name: string, wall: real)
      requires Valid()
      modifies this`restartStarted
      ensures Valid() && restartStarted == old(restartStarted)[name := wall]
    {
      restartStarted := restartStarted[name := wall];
    }

    /** The restart thread got the model switched on again. */
    method RestartSucceeded(name: string)
      requires Valid()
      modifies this`failCounts, this`log
      ensures Valid() && log == old(log) + [Recovered(name)] && FailCount(name) == 0
    {
      failCounts := failCounts[name := 0];
      log := log + [Recovered(name)];
      assert log[..|log| - 1] == old(log);
      forall n ensures Tracked(limits, failCounts, totalRestarts, cooldowns, log, n) {
        assert Tracked(limits, old(failCounts), old(totalRestarts), old(cooldowns), old(log), n);
      }
    }

    method EndRestart(name: string)
      requires Valid()
      modifies this`restarting
      ensures Valid() && restarting == old(restarting) - {name}
    {
      restarting := restarting - {name};
    }

    /** Whatever the checks say and however the restart threads interleave with them, the log of launches
        stays lawful. */
    method Run(steps: seq<Step>)
      requires Valid() && forall i :: 0 <= i < |steps| && steps[i].Judged? ==> steps[i].now >= 0.0
      modifies this
      ensures Valid() && Lawful(limits, log)
    {
      for i := 0 to |steps|
        invariant Valid()
      {
        match steps[i]
        case BeginCheck(name, wall) => var _ := Check(name, wall);
        case Judged(name, status, now) => var _ := Judge(name, status, now);
        case RestartBegins(name, wall) => BeginRestart(name, wall);
        case RestartSucceeds(name) => RestartSucceeded(name);
        case RestartEnds(name) => EndRestart(name);
      }
    }
  }
}

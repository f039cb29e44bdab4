// The concurrency gate: an optional global semaphore and one semaphore per model, taken and given
// back by concurrent requests. Every semaphore operation is one step; requests interleave freely.

module DualGates {

  datatype Mode = Observe | Reject

  datatype Config = Config(mode: Mode, maxConcurrent: nat, globalMax: nat)

  /** A request on its way through the gate, and then the handle it got. */
  datatype Request =
    | Entering(model: string)
    | PastGlobal(model: string, globalHeld: bool)
    | Handle(model: string, ok: bool, modelHeld: bool, globalHeld: bool)
    | Released(model: string)

  datatype State = State(
    free: map<string, nat>,        // permits left per model, created on first use
    globalFree: nat,
    requests: map<nat, Request>,
    leaks: nat)                    // observe-mode model timeouts while the global permit was held

  datatype Action =
    | Arrive(id: nat, model: string, withinRate: bool)
    | TakeGlobal(id: nat)
    | SkipGlobal(id: nat)
    | GlobalTimeout(id: nat)
    | TakeModel(id: nat)
    | ModelTimeout(id: nat)
    | Release(id: nat)

  function Initial(c: Config): State {
    State(map[], c.globalMax, map[], 0)
  }

  function FreeFor(c: Config, st: State, model: string): nat {
    if model in st.free then st.free[model] else c.maxConcurrent
  }

  predicate Enabled(c: Config, st: State, a: Action) {
    match a
    case Arrive(id, _, _) => id !in st.requests
    case TakeGlobal(id) => id in st.requests && st.requests[id].Entering? && c.globalMax > 0 && st.globalFree > 0
    case SkipGlobal(id) => id in st.requests && st.requests[id].Entering? && c.globalMax == 0
    case GlobalTimeout(id) => id in st.requests && st.requests[id].Entering? && c.globalMax > 0 && st.globalFree == 0
    case TakeModel(id) =>
      id in st.requests && st.requests[id].PastGlobal? && FreeFor(c, st, st.requests[id].model) > 0
    case ModelTimeout(id) =>
      id in st.requests && st.requests[id].PastGlobal? && FreeFor(c, st, st.requests[id].model) == 0
    case Release(id) => id in st.requests && st.requests[id].Handle? && st.requests[id].ok
  }

  function Put(st: State, id: nat, r: Request): State {
    st.(requests := st.requests[id := r])
  }

  function Next(c: Config, st: State, a: Action): State
    requires Enabled(c, st, a)
  {
    match a
    case Arrive(id, model, withinRate) =>
      if c.mode == Reject && !withinRate then Put(st, id, Handle(model, false, true, false))
      else Put(st, id, Entering(model))
    case TakeGlobal(id) =>
      Put(st, id, PastGlobal(st.requests[id].model, true)).(globalFree := st.globalFree - 1)
    case SkipGlobal(id) =>
      Put(st, id, PastGlobal(st.requests[id].model, false))
    case GlobalTimeout(id) =>
      var model := st.requests[id].model;
      if c.mode == Observe then Put(st, id, Handle(model, true, false, false))
      else Put(st, id, Handle(model, false, true, false))
    case TakeModel(id) =>
      var r := st.requests[id];
      Put(st, id, Handle(r.model, true, true, r.globalHeld))
        .(free := st.free[r.model := FreeFor(c, st, r.model) - 1])
    case ModelTimeout(id) =>
      var r := st.requests[id];
      var back := if r.globalHeld then 1 else 0;
      var made := st.free[r.model := FreeFor(c, st, r.model)];
      if c.mode == Observe then
        Put(st, id, Handle(r.model, true, false, r.globalHeld))
          .(free := made, globalFree := st.globalFree + back, leaks := st.leaks + back)
      else
        Put(st, id, Handle(r.model, false, true, false)).(free := made, globalFree := st.globalFree + back)
    case Release(id) =>
      var r := st.requests[id];
      var free := if r.modelHeld && r.model in st.free then st.free[r.model := st.free[r.model] + 1] else st.free;
      Put(st, id, Released(r.model))
        .(free := free, globalFree := st.globalFree + if r.globalHeld && c.globalMax > 0 then 1 else 0)
  }

  // ---------------------------------------------------------------- who holds what

  predicate HoldsModel(r: Request, model: string) {
    r.Handle? && r.ok && r.modelHeld && r.model == model
  }

  predicate HoldsGlobal(r: Request) {
    (r.PastGlobal? && r.globalHeld) || (r.Handle? && r.ok && r.globalHeld)
  }

  predicate InFlight(r: Request) {
    r.Handle? && r.ok
  }

  function ModelHolders(st: State, model: string): set<nat> {
    set id | id in st.requests && HoldsModel(st.requests[id], model)
  }

  function GlobalHolders(st: State): set<nat> {
    set id | id in st.requests && HoldsGlobal(st.requests[id])
  }

  function Running(st: State): set<nat> {
    set id | id in st.requests && InFlight(st.requests[id])
  }

  function RunningOn(st: State, model: string): set<nat> {
    set id | id in st.requests && InFlight(st.requests[id]) && st.requests[id].model == model
  }

  function One(b: bool): int {
    if b then 1 else 0
  }

  predicate HeldModel(st: State, id: nat, model: string) {
    id in st.requests && HoldsModel(st.requests[id], model)
  }

  predicate HeldGlobal(st: State, id: nat) {
    id in st.requests && HoldsGlobal(st.requests[id])
  }

  /** One request changes; the holders change by at most this one. */
  lemma CountModel(st: State, st': State, id: nat, model: string)
    requires id in st'.requests && st'.requests == st.requests[id := st'.requests[id]]
    ensures |ModelHolders(st', model)|
         == |ModelHolders(st, model)| - One(HeldModel(st, id, model)) + One(HeldModel(st', id, model))
  {
    var before, after := ModelHolders(st, model), ModelHolders(st', model);
    assert before - {id} == after - {id};
    assert |before - {id}| == |before| - One(id in before);
    assert |after - {id}| == |after| - One(id in after);
  }

  lemma CountGlobal(st: State, st': State, id: nat)
    requires id in st'.requests && st'.requests == st.requests[id := st'.requests[id]]
    ensures |GlobalHolders(st')| == |GlobalHolders(st)| - One(HeldGlobal(st, id)) + One(HeldGlobal(st', id))
  {
    var before, after := GlobalHolders(st), GlobalHolders(st');
    assert before - {id} == after - {id};
    assert |before - {id}| == |before| - One(id in before);
    assert |after - {id}| == |after| - One(id in after);
  }

  /** Free permits of a model and the handles that hold one make up the configured maximum. */
  ghost predicate ModelConserved(c: Config, st: State) {
    && (forall m :: m in st.free ==> st.free[m] + |ModelHolders(st, m)| == c.maxConcurrent)
    && (forall m, id :: HeldModel(st, id, m) ==> m in st.free)
  }

  /** The same for the global semaphore, except that every observe-mode model timeout under a global
      permit adds one permit that was never configured. */
  ghost predicate GlobalConserved(c: Config, st: State) {
    st.globalFree + |GlobalHolders(st)| == c.globalMax + st.leaks
  }

  ghost predicate GoodRequest(c: Config, r: Request) {
    && (r.PastGlobal? ==> (r.globalHeld <==> c.globalMax > 0))
    && (r.Handle? && r.globalHeld ==> c.globalMax > 0)
    && (r.Handle? && r.ok && c.mode == Reject ==> r.modelHeld && (r.globalHeld <==> c.globalMax > 0))
  }

  ghost predicate Conserved(c: Config, st: State) {
    && ModelConserved(c, st) && GlobalConserved(c, st)
    && (c.mode == Reject ==> st.leaks == 0)
    && (forall id :: id in st.requests ==> GoodRequest(c, st.requests[id]))
  }

  lemma NewSemaphoreIsFull(c: Config, st: State, model: string)
    requires ModelConserved(c, st)
    ensures FreeFor(c, st, model) + |ModelHolders(st, model)| == c.maxConcurrent
  {
    if model !in st.free {
      assert forall id :: id in st.requests && HoldsModel(st.requests[id], model) ==> HeldModel(st, id, model);
      assert ModelHolders(st, model) == {};
    }
  }

  lemma StepConservesModels(c: Config, st: State, a: Action)
    requires ModelConserved(c, st) && Enabled(c, st, a)
    ensures ModelConserved(c, Next(c, st, a))
  {
    var id, st' := a.id, Next(c, st, a);
    forall m | m in st'.free ensures st'.free[m] + |ModelHolders(st', m)| == c.maxConcurrent {
      CountModel(st, st', id, m);
      NewSemaphoreIsFull(c, st, m);
    }
    forall m, i | HeldModel(st', i, m) ensures m in st'.free {
      if i != id { assert HeldModel(st, i, m); }
    }
  }

  lemma StepConservesGlobal(c: Config, st: State, a: Action)
    requires Conserved(c, st) && Enabled(c, st, a)
    ensures GlobalConserved(c, Next(c, st, a))
  {
    var id, st' := a.id, Next(c, st, a);
    CountGlobal(st, st', id);
    assert id in st.requests ==> GoodRequest(c, st.requests[id]);
  }

  lemma StepConserves(c: Config, st: State, a: Action)
    requires Conserved(c, st) && Enabled(c, st, a)
    ensures Conserved(c, Next(c, st, a))
  {
    StepConservesModels(c, st, a);
    StepConservesGlobal(c, st, a);
    var id, st' := a.id, Next(c, st, a);
    forall i | i in st'.requests ensures GoodRequest(c, st'.requests[i]) {
      if i in st.requests { assert GoodRequest(c, st.requests[i]); }
    }
  }

  datatype Outcome = Stuck | Reached(state: State)

  function Exec(c: Config, actions: seq<Action>): Outcome {
    if actions == [] then Reached(Initial(c))
    else
      match Exec(c, actions[..|actions| - 1])
      case Stuck => Stuck
      case Reached(st) =>
        var a := actions[|actions| - 1];
        if Enabled(c, st, a) then Reached(Next(c, st, a)) else Stuck
  }

  lemma {:induction false} EveryRunConserves(c: Config, actions: seq<Action>)
    ensures Exec(c, actions).Reached? ==> Conserved(c, Exec(c, actions).state)
  {
    if actions != [] {
      EveryRunConserves(c, actions[..|actions| - 1]);
      var before := Exec(c, actions[..|actions| - 1]);
      if before.Reached? && Enabled(c, before.state, actions[|actions| - 1]) {
        StepConserves(c, before.state, actions[|actions| - 1]);
      }
    }
  }

  /** In every run: at most maxConcurrent handles hold a permit of a model, in both modes. In reject mode
      these are all requests in flight, so neither limit is ever exceeded. */
  lemma LimitsHold(c: Config, actions: seq<Action>, model: string)
    requires Exec(c, actions).Reached?
    ensures var st := Exec(c, actions).state;
      && |ModelHolders(st, model)| <= c.maxConcurrent
      && (c.mode == Reject ==> RunningOn(st, model) == ModelHolders(st, model))
      && (c.mode == Reject && c.globalMax > 0 ==> |Running(st)| <= c.globalMax)
  {
    EveryRunConserves(c, actions);
    var st := Exec(c, actions).state;
    NewSemaphoreIsFull(c, st, model);
    if c.mode == Reject {
      assert forall id :: id in st.requests ==> GoodRequest(c, st.requests[id]);
      assert RunningOn(st, model) == ModelHolders(st, model);
      if c.globalMax > 0 {
        assert Running(st) <= GlobalHolders(st);
        SubsetIsSmaller(Running(st), GlobalHolders(st));
      }
    }
  }

  lemma {:induction false} SubsetIsSmaller(a: set<nat>, b: set<nat>)
    requires a <= b
    ensures |a| <= |b|
  {
    if a != {} {
      var x :| x in a;
      SubsetIsSmaller(a - {x}, b - {x});
    }
  }

  /** How often a request gave up waiting for its model. */
  function ModelTimeouts(actions: seq<Action>): nat {
    if actions == [] then 0
    else ModelTimeouts(actions[..|actions| - 1]) + if actions[|actions| - 1].ModelTimeout? then 1 else 0
  }

  lemma {:induction false} LeaksAreTimeouts(c: Config, actions: seq<Action>)
    requires Exec(c, actions).Reached?
    ensures Exec(c, actions).state.leaks
         == if c.mode == Observe && c.globalMax > 0 then ModelTimeouts(actions) else 0
  {
    if actions != [] {
      var before := actions[..|actions| - 1];
      LeaksAreTimeouts(c, before);
      EveryRunConserves(c, before);
      var st, a := Exec(c, before).state, actions[|actions| - 1];
      assert a.id in st.requests ==> GoodRequest(c, st.requests[a.id]);
    }
  }

  /** Free global permits and their holders make up the configured maximum exactly as long as no request
      has timed out on its model in observe mode with a global limit set; each such timeout adds one. */
  lemma GlobalConservationIff(c: Config, actions: seq<Action>)
    requires Exec(c, actions).Reached?
    ensures var st := Exec(c, actions).state;
      st.globalFree + |GlobalHolders(st)| == c.globalMax
      <==> c.mode == Reject || c.globalMax == 0 || ModelTimeouts(actions) == 0
  {
    EveryRunConserves(c, actions);
    LeaksAreTimeouts(c, actions);
  }

  // ---------------------------------------------------------------- who is refused

  predicate IsRefused(st: State, id: nat) {
    id in st.requests && st.requests[id].Handle? && !st.requests[id].ok
  }

  /** The step finds the request over the rate, or out of time at a semaphore. */
  predicate OverLimit(a: Action, id: nat) {
    match a
    case Arrive(i, _, withinRate) => i == id && !withinRate
    case GlobalTimeout(i) => i == id
    case ModelTimeout(i) => i == id
    case _ => false
  }

  lemma RefusedStep(c: Config, st: State, a: Action, id: nat)
    requires Enabled(c, st, a)
    ensures IsRefused(Next(c, st, a), id) <==> IsRefused(st, id) || (c.mode == Reject && OverLimit(a, id))
  {
  }

  /** Whom the gate refuses, in every run: in reject mode exactly the requests over the rate or out of time, in
      observe mode nobody. */
  lemma {:induction false} RefusedIff(c: Config, actions: seq<Action>, id: nat)
    requires Exec(c, actions).Reached?
    ensures IsRefused(Exec(c, actions).state, id) <==>
      c.mode == Reject && exists i :: 0 <= i < |actions| && OverLimit(actions[i], id)
  {
    if actions != [] {
      var init, a := actions[..|actions| - 1], actions[|actions| - 1];
      RefusedIff(c, init, id);
      RefusedStep(c, Exec(c, init).state, a, id);
      assert forall i :: 0 <= i < |init| ==> init[i] == actions[i];
      if i :| 0 <= i < |actions| && OverLimit(actions[i], id) {
        assert i < |init| ==> OverLimit(init[i], id);
      }
    }
  }

  lemma OneMore(c: Config, actions: seq<Action>, a: Action, st: State, st': State) returns (more: seq<Action>)
    requires Exec(c, actions) == Reached(st) && Enabled(c, st, a) && Next(c, st, a) == st'
    ensures Exec(c, more) == Reached(st')
  {
    more := actions + [a];
    assert more[..|actions|] == actions;
  }

  /** One request holds the only permit of a model, and one of two global permits. */
  lemma OneRequestRuns(model: string) returns (actions: seq<Action>)
    ensures Exec(Config(Observe, 1, 2), actions)
         == Reached(State(map[model := 0], 1, map[0 := Handle(model, true, true, true)], 0))
  {
    var c := Config(Observe, 1, 2);
    var s1 := State(map[], 2, map[0 := Entering(model)], 0);
    var s2 := State(map[], 1, map[0 := PastGlobal(model, true)], 0);
    actions := OneMore(c, [], Arrive(0, model, true), Initial(c), s1);
    actions := OneMore(c, actions, TakeGlobal(0), s1, s2);
    actions := OneMore(c, actions, TakeModel(0), s2,
                       State(map[model := 0], 1, map[0 := Handle(model, true, true, true)], 0));
  }

  /** A second one takes the other global permit ... */
  lemma SecondPassesGlobal(model: string) returns (actions: seq<Action>)
    ensures Exec(Config(Observe, 1, 2), actions)
         == Reached(State(map[model := 0], 0,
                          map[0 := Handle(model, true, true, true), 1 := PastGlobal(model, true)], 0))
  {
    var c, holder := Config(Observe, 1, 2), Handle(model, true, true, true);
    var s0 := State(map[model := 0], 1, map[0 := holder], 0);
    var s1 := State(map[model := 0], 1, map[0 := holder, 1 := Entering(model)], 0);
    actions := OneRequestRuns(model);
    actions := OneMore(c, actions, Arrive(1, model, true), s0, s1);
    actions := OneMore(c, actions, TakeGlobal(1), s1,
                       State(map[model := 0], 0, map[0 := holder, 1 := PastGlobal(model, true)], 0));
  }

  /** ... and times out on the model. */
  lemma SecondTimesOut(model: string) returns (actions: seq<Action>)
    ensures Exec(Config(Observe, 1, 2), actions)
         == Reached(State(map[model := 0], 1,
                          map[0 := Handle(model, true, true, true), 1 := Handle(model, true, false, true)], 1))
  {
    var c, holder := Config(Observe, 1, 2), Handle(model, true, true, true);
    actions := SecondPassesGlobal(model);
    actions := OneMore(c, actions, ModelTimeout(1),
                       State(map[model := 0], 0, map[0 := holder, 1 := PastGlobal(model, true)], 0),
                       State(map[model := 0], 1, map[0 := holder, 1 := Handle(model, true, false, true)], 1));
  }

  /** The late request returns its global permit a second time ... */
  lemma SecondReturns(model: string) returns (actions: seq<Action>)
    ensures Exec(Config(Observe, 1, 2), actions)
         == Reached(State(map[model := 0], 2, map[0 := Handle(model, true, true, true), 1 := Released(model)], 1))
  {
    var c, holder := Config(Observe, 1, 2), Handle(model, true, true, true);
    actions := SecondTimesOut(model);
    actions := OneMore(c, actions, Release(1),
                       State(map[model := 0], 1, map[0 := holder, 1 := Handle(model, true, false, true)], 1),
                       State(map[model := 0], 2, map[0 := holder, 1 := Released(model)], 1));
  }

  /** ... so that a run where both requests are done ends with more global permits than were configured. */
  lemma ObserveModeTimeoutLeaks(model: string)
    ensures exists actions ::
      Exec(Config(Observe, 1, 2), actions)
      == Reached(State(map[model := 1], 3, map[0 := Released(model), 1 := Released(model)], 1))
  {
    var gone := Released(model);
    var actions := SecondReturns(model);
    actions := OneMore(Config(Observe, 1, 2), actions, Release(0),
                       State(map[model := 0], 2, map[0 := Handle(model, true, true, true), 1 := gone], 1),
                       State(map[model := 1], 3, map[0 := gone, 1 := gone], 1));
  }
}

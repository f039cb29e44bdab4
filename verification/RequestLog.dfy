// The request-log buffer: producers append under a lock, one flusher swaps the buffer out and
// writes it without the lock. Every atomic step of either side is one action here; entries are
// numbered in the order they were appended.

module RequestLogs {

  const MAX_PENDING := 10000

  /** Where the flusher stands. `last` marks the flush that close() does after the thread has ended. */
  datatype Flusher =
    | Checking
    | Waiting
    | Clearing
    | Swapping(last: bool)
    | Writing(batch: seq<nat>, last: bool)
    | Reinserting(batch: seq<nat>, last: bool)
    | Guarding
    | Exited
    | Closed

  datatype State = State(
    stored: seq<nat>,      // rows in the database
    buffer: seq<nat>,      // rows waiting in memory
    flusher: Flusher,
    event: bool,           // the flush event
    stop: bool,            // the stop event
    setters: nat,          // producers that saw a full buffer and are about to set the event
    logged: nat,           // entries appended so far
    dropped: set<nat>,     // entries discarded on overflow
    during: nat)           // entries appended since the buffer was last swapped out

  datatype Action =
    | Append
    | SetEvent
    | Check
    | Wake
    | Clear
    | Swap
    | WriteOk
    | WriteFail
    | Reinsert
    | Guard
    | Stop
    | FinalFlush

  const INITIAL := State([], [], Checking, false, false, 0, 0, {}, 0)

  predicate Enabled(st: State, a: Action) {
    match a
    case Append => true
    case SetEvent => st.setters > 0
    case Check => st.flusher.Checking?
    case Wake => st.flusher.Waiting?          // the event or the interval
    case Clear => st.flusher.Clearing?
    case Swap => st.flusher.Swapping?
    case WriteOk => st.flusher.Writing?
    case WriteFail => st.flusher.Writing?
    case Reinsert => st.flusher.Reinserting?
    case Guard => st.flusher.Guarding?
    case Stop => !st.stop
    case FinalFlush => st.flusher.Exited?
  }

  function Min(a: nat, b: nat): nat {
    if a <= b then a else b
  }

  /** How many entries of a failed batch no longer fit. */
  function Overflow(st: State, batch: seq<nat>): nat {
    var all := |st.buffer| + |batch|;
    if all > MAX_PENDING then Min(all - MAX_PENDING, |batch|) else 0
  }

  function AfterFlush(last: bool): Flusher {
    if last then Closed else Guarding
  }

  function Next(st: State, a: Action, batchSize: nat): State
    requires Enabled(st, a)
  {
    match a
    case Append =>
      var buffer := st.buffer + [st.logged];
      st.(buffer := buffer, logged := st.logged + 1, during := st.during + 1,
          setters := st.setters + if |buffer| >= batchSize then 1 else 0)
    case SetEvent => st.(event := true, setters := st.setters - 1)
    case Check => st.(flusher := if st.stop then Exited else Waiting)
    case Wake => st.(flusher := Clearing)
    case Clear => st.(event := false, flusher := Swapping(false))
    case Swap =>
      if st.buffer == [] then st.(flusher := AfterFlush(st.flusher.last))
      else st.(flusher := Writing(st.buffer, st.flusher.last), buffer := [], during := 0)
    case WriteOk => st.(stored := st.stored + st.flusher.batch, flusher := AfterFlush(st.flusher.last))
    case WriteFail => st.(flusher := Reinserting(st.flusher.batch, st.flusher.last))
    case Reinsert =>
      var batch := st.flusher.batch;
      var k := Overflow(st, batch);
      st.(buffer := batch[k..] + st.buffer, dropped := st.dropped + Front(batch, k),
          flusher := AfterFlush(st.flusher.last))
    case Guard => st.(event := st.event || |st.buffer| >= batchSize, flusher := Checking)
    case Stop => st.(stop := true, event := true)
    case FinalFlush => st.(flusher := Swapping(true))
  }

  function InFlight(f: Flusher): seq<nat> {
    if f.Writing? || f.Reinserting? then f.batch else []
  }

  /** The entries 0..n that were not dropped, in order. */
  function Survivors(n: nat, dropped: set<nat>): seq<nat> {
    if n == 0 then []
    else Survivors(n - 1, dropped) + if n - 1 in dropped then [] else [n - 1]
  }

  ghost predicate Increasing(s: seq<nat>) {
    forall i, j :: 0 <= i < j < |s| ==> s[i] < s[j]
  }

  lemma {:induction false} SurvivorsIncrease(n: nat, dropped: set<nat>)
    ensures Increasing(Survivors(n, dropped))
    ensures forall i :: 0 <= i < |Survivors(n, dropped)| ==> Survivors(n, dropped)[i] < n
  {
    if n > 0 { SurvivorsIncrease(n - 1, dropped); }
  }

  lemma {:induction false} DroppingLaterEntries(n: nat, dropped: set<nat>, x: nat)
    requires n <= x
    ensures Survivors(n, dropped + {x}) == Survivors(n, dropped)
  {
    if n > 0 { DroppingLaterEntries(n - 1, dropped, x); }
  }

  lemma InitOfSum(before: seq<nat>, x: nat, init: seq<nat>, y: nat)
    ensures (before + [x] + (init + [y]))[..|before| + 1 + |init|] == before + [x] + init
    ensures (before + [x] + (init + [y]))[|before| + 1 + |init|] == y
    ensures before + init + [y] == before + (init + [y])
  {
  }

  lemma {:induction false} DropOne(n: nat, dropped: set<nat>, before: seq<nat>, x: nat, after: seq<nat>)
    requires Survivors(n, dropped) == before + [x] + after
    ensures Survivors(n, dropped + {x}) == before + after
    ensures x < n
  {
    assert n > 0;
    var all, earlier := Survivors(n, dropped), Survivors(n - 1, dropped);
    if n - 1 in dropped {
      DropOne(n - 1, dropped, before, x, after);
    } else if after == [] {
      assert all[|before|] == n - 1;
      assert all[..|all| - 1] == earlier == before;
      DroppingLaterEntries(n - 1, dropped, x);
    } else {
      var init := after[..|after| - 1];
      assert after == init + [after[|init|]];
      InitOfSum(before, x, init, after[|init|]);
      assert all[..|all| - 1] == earlier;
      DropOne(n - 1, dropped, before, x, init);
    }
  }

  /** Nothing is lost, duplicated or reordered: what is stored, in flight and buffered is exactly what
      was appended, without the dropped entries. */
  ghost predicate Conserved(st: State) {
    && st.stored + InFlight(st.flusher) + st.buffer == Survivors(st.logged, st.dropped)
    && (forall d :: d in st.dropped ==> d < st.logged)
  }

  /** A buffer that is full will be flushed without waiting for the interval. */
  ghost predicate NoLostWakeup(st: State, batchSize: nat) {
    |st.buffer| >= batchSize ==>
      || st.event
      || st.setters > 0
      || !(st.flusher.Waiting? || st.flusher.Checking?)
  }

  predicate IsLast(f: Flusher) {
    || f.Exited? || f.Closed?
    || ((f.Swapping? || f.Writing? || f.Reinserting?) && f.last)
  }

  ghost predicate Inv(st: State, batchSize: nat) {
    && Conserved(st)
    && NoLostWakeup(st, batchSize)
    && (st.flusher.Writing? || st.flusher.Reinserting? ==> |st.buffer| == st.during)
    && (IsLast(st.flusher) ==> st.stop)
  }

  lemma SurvivorsFrame(n: nat, dropped: set<nat>)
    requires forall d :: d in dropped ==> d < n
    ensures Survivors(n + 1, dropped) == Survivors(n, dropped) + [n]
  {
  }

  function Front(batch: seq<nat>, k: nat): set<nat>
    requires k <= |batch|
  {
    set d | d in batch[..k]
  }

  /** Dropping the front of a batch leaves the survivors in order. */
  lemma {:induction false} DropFront(n: nat, dropped: set<nat>, stored: seq<nat>, batch: seq<nat>,
                                    buffer: seq<nat>, k: nat)
    requires Survivors(n, dropped) == stored + batch + buffer && k <= |batch|
    ensures Survivors(n, dropped + Front(batch, k)) == stored + (batch[k..] + buffer)
    ensures forall d :: d in Front(batch, k) ==> d < n
  {
    if k == 0 {
      assert dropped + Front(batch, 0) == dropped;
      assert stored + (batch[0..] + buffer) == stored + batch + buffer;
    } else {
      DropFront(n, dropped, stored, batch, buffer, k - 1);
      var x := batch[k - 1];
      assert stored + (batch[k - 1..] + buffer) == stored + [x] + (batch[k..] + buffer);
      DropOne(n, dropped + Front(batch, k - 1), stored, x, batch[k..] + buffer);
      assert batch[..k] == batch[..k - 1] + [x];
      assert Front(batch, k) == Front(batch, k - 1) + {x};
      assert dropped + Front(batch, k) == dropped + Front(batch, k - 1) + {x};
    }
  }

  /** ... and the dropped ones are older than all that stay pending. */
  lemma FrontIsOldest(n: nat, dropped: set<nat>, stored: seq<nat>, batch: seq<nat>, buffer: seq<nat>, k: nat)
    requires Survivors(n, dropped) == stored + batch + buffer && k <= |batch|
    ensures forall d, p :: d in Front(batch, k) && p in batch[k..] + buffer ==> d < p
  {
    SurvivorsIncrease(n, dropped);
    var all, s := stored + batch + buffer, |stored|;
    var pending := batch[k..] + buffer;
    forall d, p | d in Front(batch, k) && p in pending ensures d < p {
      var i :| 0 <= i < k && batch[i] == d;
      var j :| 0 <= j < |pending| && pending[j] == p;
      assert all[s + i] == d && all[s + k + j] == p;
    }
  }

  lemma SwapKeepsOrder(stored: seq<nat>, batch: seq<nat>, buffer: seq<nat>)
    ensures stored + [] + buffer == stored + buffer + [] == stored + buffer
    ensures stored + batch + [] + buffer == stored + batch + buffer
  {
  }

  lemma AppendConserves(st: State, batchSize: nat)
    requires Conserved(st)
    ensures Conserved(Next(st, Append, batchSize))
  {
    SurvivorsFrame(st.logged, st.dropped);
    var earlier := st.stored + InFlight(st.flusher);
    assert earlier + (st.buffer + [st.logged]) == earlier + st.buffer + [st.logged];
  }

  lemma ReinsertConserves(st: State, batchSize: nat)
    requires Conserved(st) && st.flusher.Reinserting?
    ensures Conserved(Next(st, Reinsert, batchSize))
  {
    var k := Overflow(st, st.flusher.batch);
    DropFront(st.logged, st.dropped, st.stored, st.flusher.batch, st.buffer, k);
    SwapKeepsOrder(st.stored, [], st.flusher.batch[k..] + st.buffer);
  }

  lemma StepConserves(st: State, a: Action, batchSize: nat)
    requires Conserved(st) && Enabled(st, a)
    ensures Conserved(Next(st, a, batchSize))
  {
    match a
    case Append => AppendConserves(st, batchSize);
    case Swap => SwapKeepsOrder(st.stored, [], st.buffer);
    case WriteOk => SwapKeepsOrder(st.stored, st.flusher.batch, st.buffer);
    case Reinsert => ReinsertConserves(st, batchSize);
    case _ =>
  }

  /** Every step of every interleaving keeps the invariant. */
  lemma StepKeepsInv(st: State, a: Action, batchSize: nat)
    requires Inv(st, batchSize) && Enabled(st, a)
    ensures Inv(Next(st, a, batchSize), batchSize)
  {
    StepConserves(st, a, batchSize);
  }

  /** The state after a run of actions, if every one of them was enabled. */
  datatype Outcome = Stuck | Reached(state: State)

  function ExecFrom(start: State, actions: seq<Action>, batchSize: nat): Outcome {
    if actions == [] then Reached(start)
    else
      match ExecFrom(start, actions[..|actions| - 1], batchSize)
      case Stuck => Stuck
      case Reached(st) =>
        var a := actions[|actions| - 1];
        if Enabled(st, a) then Reached(Next(st, a, batchSize)) else Stuck
  }

  function Exec(actions: seq<Action>, batchSize: nat): Outcome {
    ExecFrom(INITIAL, actions, batchSize)
  }

  /** In every reachable state of every interleaving the entries are conserved and no wakeup is lost. */
  lemma {:induction false} EveryRunIsSound(actions: seq<Action>, batchSize: nat)
    requires batchSize > 0
    ensures Exec(actions, batchSize).Reached? ==> Inv(Exec(actions, batchSize).state, batchSize)
  {
    if actions != [] {
      EveryRunIsSound(actions[..|actions| - 1], batchSize);
      var before := Exec(actions[..|actions| - 1], batchSize);
      if before.Reached? && Enabled(before.state, actions[|actions| - 1]) {
        StepKeepsInv(before.state, actions[|actions| - 1], batchSize);
      }
    }
  }

  /** What a failed flush may discard, in every run: only the oldest pending entries, only when more than
      the limit is pending, and no more than needed; the buffer then holds at most the limit, or what was
      logged during the write. */
  lemma FailedFlush(actions: seq<Action>, batchSize: nat)
    requires batchSize > 0 && Exec(actions, batchSize).Reached?
    requires Exec(actions, batchSize).state.flusher.Reinserting?
    ensures var st := Exec(actions, batchSize).state; var st' := Next(st, Reinsert, batchSize);
      var gone := st'.dropped - st.dropped;
      && (forall d, p :: d in gone && p in st'.buffer ==> d < p)
      && (gone != {} ==> |st'.buffer| >= 10000)
      && (|st'.buffer| <= 10000 || |st'.buffer| == st.during)
      && st'.stored == st.stored
  {
    EveryRunIsSound(actions, batchSize);
    var st := Exec(actions, batchSize).state;
    var st' := Next(st, Reinsert, batchSize);
    var k := Overflow(st, st.flusher.batch);
    FrontIsOldest(st.logged, st.dropped, st.stored, st.flusher.batch, st.buffer, k);
    assert st'.dropped - st.dropped <= Front(st.flusher.batch, k);
    if k == 0 { assert st'.dropped == st.dropped; }
  }

  /** Once every producer is through and the flusher waits or is about to, a full buffer finds the event
      set, also after a stop. */
  lemma FullBufferWakesFlusher(actions: seq<Action>, batchSize: nat)
    requires batchSize > 0 && Exec(actions, batchSize).Reached?
    requires var st := Exec(actions, batchSize).state;
             (st.flusher.Waiting? || st.flusher.Checking?) && st.setters == 0 && |st.buffer| >= batchSize
    ensures Exec(actions, batchSize).state.event
  {
    EveryRunIsSound(actions, batchSize);
  }

  /** Entries reach the database in order and stay there. */
  lemma StoredOnlyGrows(st: State, a: Action, batchSize: nat)
    requires Inv(st, batchSize) && Enabled(st, a)
    ensures var next := Next(st, a, batchSize); st.stored <= next.stored <= Survivors(next.logged, next.dropped)
  {
    StepKeepsInv(st, a, batchSize);
  }

  // ---------------------------------------------------------------- what a flush achieves

  /** The actions of the producers and of a shutdown; all others are the flusher's. */
  predicate IsProducer(a: Action) {
    a.Append? || a.SetEvent? || a.Stop?
  }

  ghost predicate OnlyProducers(actions: seq<Action>) {
    forall i :: 0 <= i < |actions| ==> IsProducer(actions[i])
  }

  /** Meanwhile entries are only added at the end of the buffer. */
  lemma {:induction false} ProducersOnlyAdd(start: State, actions: seq<Action>, batchSize: nat)
    requires OnlyProducers(actions) && ExecFrom(start, actions, batchSize).Reached?
    ensures var st := ExecFrom(start, actions, batchSize).state;
      && st.stored == start.stored && st.flusher == start.flusher && st.dropped == start.dropped
      && start.buffer <= st.buffer && start.logged <= st.logged
      && (Append !in actions ==> st.buffer == start.buffer && st.logged == start.logged)
  {
    if actions != [] {
      var init := actions[..|actions| - 1];
      ProducersOnlyAdd(start, init, batchSize);
      assert forall a :: a in init ==> a in actions;
      assert actions[|actions| - 1] in actions;
    }
  }

  lemma ExecSnoc(start: State, actions: seq<Action>, a: Action, batchSize: nat)
    ensures ExecFrom(start, actions + [a], batchSize) ==
      match ExecFrom(start, actions, batchSize)
      case Stuck => Stuck
      case Reached(st) => if Enabled(st, a) then Reached(Next(st, a, batchSize)) else Stuck
  {
    assert (actions + [a])[..|actions|] == actions;
  }

  /** The flush of a buffer, whatever is logged meanwhile, with a write that succeeds. */
  function Flush(meanwhile: seq<Action>): seq<Action> {
    [Swap] + meanwhile + [WriteOk]
  }

  lemma FlushRuns(start: State, meanwhile: seq<Action>, batchSize: nat) returns (writing: State)
    requires start.flusher.Swapping? && OnlyProducers(meanwhile)
    requires ExecFrom(start, Flush(meanwhile), batchSize).Reached?
    ensures start.buffer != [] && writing.flusher == Writing(start.buffer, start.flusher.last)
    ensures writing.stored == start.stored && writing.dropped == start.dropped
    ensures Append !in meanwhile ==> writing.buffer == [] && writing.logged == start.logged
    ensures ExecFrom(start, Flush(meanwhile), batchSize) == Reached(Next(writing, WriteOk, batchSize))
  {
    ExecSnoc(start, [Swap] + meanwhile, WriteOk, batchSize);
    SwapFirst(start, meanwhile, batchSize);
    var swapped := Next(start, Swap, batchSize);
    ProducersOnlyAdd(swapped, meanwhile, batchSize);
    writing := ExecFrom(swapped, meanwhile, batchSize).state;
  }

  lemma {:induction false} SwapFirst(start: State, meanwhile: seq<Action>, batchSize: nat)
    requires start.flusher.Swapping?
    ensures ExecFrom(start, [Swap] + meanwhile, batchSize)
         == ExecFrom(Next(start, Swap, batchSize), meanwhile, batchSize)
    decreases |meanwhile|
  {
    if meanwhile == [] {
      ExecSnoc(start, [], Swap, batchSize);
      assert [Swap] + meanwhile == [] + [Swap];
    } else {
      var init, last := meanwhile[..|meanwhile| - 1], meanwhile[|meanwhile| - 1];
      SwapFirst(start, init, batchSize);
      ExecSnoc(start, [Swap] + init, last, batchSize);
      assert [Swap] + meanwhile == [Swap] + init + [last];
    }
  }

  /** After a successful write every entry that was logged before its buffer was swapped out is stored or
      dropped, in every run; of the final flush nothing is left unless something was logged during it. */
  lemma FlushStores(actions: seq<Action>, meanwhile: seq<Action>, batchSize: nat)
    requires batchSize > 0 && Exec(actions, batchSize).Reached? && OnlyProducers(meanwhile)
    requires var start := Exec(actions, batchSize).state;
             start.flusher.Swapping? && ExecFrom(start, Flush(meanwhile), batchSize).Reached?
    ensures
      var start := Exec(actions, batchSize).state;
      var st := ExecFrom(start, Flush(meanwhile), batchSize).state;
      && st.dropped == start.dropped && st.stored == Survivors(start.logged, st.dropped)
      && st.flusher == AfterFlush(start.flusher.last)
      && (Append !in meanwhile ==> st.buffer == [] && st.logged == start.logged)
  {
    EveryRunIsSound(actions, batchSize);
    var start := Exec(actions, batchSize).state;
    var _ := FlushRuns(start, meanwhile, batchSize);
    SwapKeepsOrder(start.stored, [], start.buffer);
  }

  /** An empty buffer is not written: all entries are stored or dropped already. */
  lemma NothingToFlush(actions: seq<Action>, batchSize: nat)
    requires batchSize > 0 && Exec(actions, batchSize).Reached?
    requires var st := Exec(actions, batchSize).state; st.flusher.Swapping? && st.buffer == []
    ensures var st := Exec(actions, batchSize).state; var next := Next(st, Swap, batchSize);
      && next.flusher == AfterFlush(st.flusher.last) && next.stored == Survivors(next.logged, next.dropped)
  {
    EveryRunIsSound(actions, batchSize);
    var st := Exec(actions, batchSize).state;
    SwapKeepsOrder(st.stored, [], st.buffer);
  }

  // ---------------------------------------------------------------- what a shutdown achieves

  /** The flusher's own next step, with a write that succeeds. */
  function OwnStep(st: State, batchSize: nat): State {
    match st.flusher
    case Checking => Next(st, Check, batchSize)
    case Waiting => Next(st, Wake, batchSize)
    case Clearing => Next(st, Clear, batchSize)
    case Swapping(_) => Next(st, Swap, batchSize)
    case Writing(_, _) => Next(st, WriteOk, batchSize)
    case Reinserting(_, _) => Next(st, Reinsert, batchSize)
    case Guarding => Next(st, Guard, batchSize)
    case Exited => Next(st, FinalFlush, batchSize)
    case Closed => st
  }

  function OwnSteps(st: State, n: nat, batchSize: nat): State
    decreases n
  {
    if n == 0 then st else OwnSteps(OwnStep(st, batchSize), n - 1, batchSize)
  }

  lemma OwnStepKeepsInv(st: State, batchSize: nat)
    requires Inv(st, batchSize)
    ensures Inv(OwnStep(st, batchSize), batchSize)
  {
    match st.flusher
    case Checking => StepKeepsInv(st, Check, batchSize);
    case Waiting => StepKeepsInv(st, Wake, batchSize);
    case Clearing => StepKeepsInv(st, Clear, batchSize);
    case Swapping(_) => StepKeepsInv(st, Swap, batchSize);
    case Writing(_, _) => StepKeepsInv(st, WriteOk, batchSize);
    case Reinserting(_, _) => StepKeepsInv(st, Reinsert, batchSize);
    case Guarding => StepKeepsInv(st, Guard, batchSize);
    case Exited => StepKeepsInv(st, FinalFlush, batchSize);
    case Closed =>
  }

  ghost predicate AllStored(st: State) {
    st.flusher.Closed? && st.buffer == [] && st.stored == Survivors(st.logged, st.dropped)
  }

  /** How many steps of its own the flusher is from the end, once it has been told to stop. */
  function StepsLeft(f: Flusher): nat {
    match f
    case Closed => 0
    case Writing(_, last) => if last then 1 else 6
    case Swapping(last) => if last then 2 else 7
    case Reinserting(_, last) => if last then 1 else 6
    case Exited => 3
    case Checking => 4
    case Guarding => 5
    case Clearing => 8
    case Waiting => 9
  }

  /** The final flush has not swapped out the buffer yet. */
  predicate BeforeFinalSwap(f: Flusher) {
    !f.Closed? && !((f.Writing? || f.Reinserting?) && f.last)
  }

  /** Told to stop, the flusher ends within nine steps, and if their writes succeed everything is stored. */
  lemma {:induction false} ShutdownStoresAll(st: State, batchSize: nat) returns (n: nat)
    requires Inv(st, batchSize) && st.stop && BeforeFinalSwap(st.flusher)
    ensures n <= StepsLeft(st.flusher) <= 9
    ensures AllStored(OwnSteps(st, n, batchSize)) && OwnSteps(st, n, batchSize).logged == st.logged
    decreases StepsLeft(st.flusher)
  {
    var next := OwnStep(st, batchSize);
    OwnStepKeepsInv(st, batchSize);
    if st.flusher == Swapping(true) {
      n := FinalFlushStoresAll(st, batchSize);
    } else {
      var m := ShutdownStoresAll(next, batchSize);
      n := m + 1;
    }
  }

  lemma FinalFlushStoresAll(st: State, batchSize: nat) returns (n: nat)
    requires Inv(st, batchSize) && st.flusher == Swapping(true)
    ensures n <= 2 && AllStored(OwnSteps(st, n, batchSize)) && OwnSteps(st, n, batchSize).logged == st.logged
  {
    var next := OwnStep(st, batchSize);
    SwapKeepsOrder(st.stored, [], st.buffer);
    assert OwnSteps(next, 0, batchSize) == next && OwnSteps(st, 1, batchSize) == next;
    if st.buffer == [] {
      n := 1;
    } else {
      var written := OwnStep(next, batchSize);
      assert OwnSteps(next, 1, batchSize) == OwnSteps(written, 0, batchSize) == written;
      assert OwnSteps(st, 2, batchSize) == written;
      n := 2;
    }
  }

  /** So from every state that a run reaches before the final flush a shutdown loses nothing. */
  lemma ShutdownLosesNothing(actions: seq<Action>, batchSize: nat) returns (n: nat)
    requires batchSize > 0 && Exec(actions, batchSize).Reached?
    requires var st := Exec(actions, batchSize).state; !st.stop && BeforeFinalSwap(st.flusher)
    ensures
      var st := Exec(actions, batchSize).state;
      var end := OwnSteps(Next(st, Stop, batchSize), n, batchSize);
      AllStored(end) && end.logged == st.logged && n <= 9
  {
    EveryRunIsSound(actions, batchSize);
    var st := Exec(actions, batchSize).state;
    StepKeepsInv(st, Stop, batchSize);
    n := ShutdownStoresAll(Next(st, Stop, batchSize), batchSize);
  }

  lemma OneMore(actions: seq<Action>, a: Action, batchSize: nat, st: State, next: State)
    returns (more: seq<Action>)
    requires Exec(actions, batchSize) == Reached(st) && Enabled(st, a) && Next(st, a, batchSize) == next
    ensures Exec(more, batchSize) == Reached(next)
  {
    more := actions + [a];
    ExecSnoc(INITIAL, actions, a, batchSize);
  }

  /** A shutdown does lose what its only write fails to store: here the one entry, which stays in memory. */
  lemma FailedFinalWriteLoses() returns (actions: seq<Action>)
    ensures Exec(actions, 50) == Reached(State([], [0], Closed, true, true, 0, 1, {}, 0))
  {
    var s1 := State([], [0], Checking, false, false, 0, 1, {}, 1);
    var s2 := s1.(stop := true, event := true);
    var s5 := State([], [], Writing([0], true), true, true, 0, 1, {}, 0);
    actions := OneMore([], Append, 50, INITIAL, s1);
    actions := OneMore(actions, Stop, 50, s1, s2);
    actions := OneMore(actions, Check, 50, s2, s2.(flusher := Exited));
    actions := OneMore(actions, FinalFlush, 50, s2.(flusher := Exited), s2.(flusher := Swapping(true)));
    actions := OneMore(actions, Swap, 50, s2.(flusher := Swapping(true)), s5);
    actions := OneMore(actions, WriteFail, 50, s5, s5.(flusher := Reinserting([0], true)));
    NothingDropped(s5.(flusher := Reinserting([0], true)));
    actions := OneMore(actions, Reinsert, 50, s5.(flusher := Reinserting([0], true)),
                       s5.(flusher := Closed, buffer := [0]));
  }

  lemma NothingDropped(st: State)
    requires st.flusher == Reinserting([0], true) && st.buffer == []
    ensures Next(st, Reinsert, 50) == st.(flusher := Closed, buffer := [0])
  {
    assert Overflow(st, [0]) == 0 && Front([0], 0) == {} && [0][0..] + [] == [0];
    assert st.dropped + {} == st.dropped;
  }
}

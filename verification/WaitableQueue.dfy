/** The waitable queue: operations are executed by the drains of an inner queue, or by the threads
    that wait for them.

    The inner queue runs one drain per added operation, each once, possibly many at the same time.
    Every section between taking and releasing the lock is one step or a few smaller ones; a wait on
    the condition variable is a step that is enabled when its predicate holds. */
module WaitableQueue {
  import opened Threads

  /** Who waits: one call of wait_for_one, or wait_for_all with the number of operations that had
      been added when it was called. */
  datatype Waiter = One | All(target: nat)

  /** Where drain_one returns to. */
  datatype Caller = FromQueue | Inline(w: Waiter)

  datatype Local =
    | Idle(waitedFor: nat)
    | AsyncInner
    | DrainEntry(caller: Caller)
    | Running(op: nat, caller: Caller)
    | Ended(caller: Caller)
    | WaitOne(w: Waiter)
    | WaitActive(w: Waiter)
    | AllTest(target: nat)

  /** `scheduled` counts the drains that the inner queue still has to start. Operations are numbered
      in the order of adding; `added`, `started`, `finished` and `waited` are history. */
  datatype State = State(
    operations: seq<nat>, completed: int, active: bool, scheduled: nat, threads: seq<Local>,
    added: nat, started: seq<nat>, finished: nat, waited: nat)

  datatype Event =
    | Async(t: nat)
    | WaitForOne(t: nat)
    | WaitForAll(t: nat)
    | Serve(t: nat)
    | Step(t: nat)

  function At(s: State, t: nat, l: Local): State
    requires t < |s.threads|
  {
    s.(threads := s.threads[t := l])
  }

  function Return(w: Waiter): Local {
    match w
    case One => Idle(0)
    case All(target) => AllTest(target)
  }

  function Back(caller: Caller): Local {
    match caller
    case FromQueue => Idle(0)
    case Inline(w) => WaitOne(w)
  }

  function Advance(s: State, t: nat): State
    requires t < |s.threads|
  {
    match s.threads[t]
    case Idle(_) => s
    case AsyncInner => At(s, t, Idle(0)).(scheduled := s.scheduled + 1)
    case DrainEntry(c) =>
      if s.active then s
      else if s.operations == [] then At(s, t, Back(c))
      else At(s, t, Running(s.operations[0], c)).(
        active := true, operations := s.operations[1..], started := s.started + [s.operations[0]])
    case Running(_, c) => At(s, t, Ended(c)).(finished := s.finished + 1)
    case Ended(c) => At(s, t, Back(c)).(completed := s.completed + 1, active := false)
    case WaitOne(w) =>
      if s.completed != 0 then At(s, t, Return(w)).(completed := s.completed - 1, waited := s.waited + 1)
      else if s.active then At(s, t, WaitActive(w))
      else if s.operations == [] then At(s, t, Return(w))
      else At(s, t, DrainEntry(Inline(w)))
    case WaitActive(w) => if s.active then s else At(s, t, WaitOne(w))
    case AllTest(target) =>
      if s.active || s.operations != [] then At(s, t, WaitOne(All(target))) else At(s, t, Idle(target))
  }

  function Next(s: State, e: Event): (s': State)
    ensures |s'.threads| == |s.threads|
  {
    if e.t >= |s.threads| then s
    else if e.Step? then Advance(s, e.t)
    else if !s.threads[e.t].Idle? then s
    else match e
         case Async(t) => At(s, t, AsyncInner).(operations := s.operations + [s.added], added := s.added + 1)
         case WaitForOne(t) => At(s, t, WaitOne(One))
         case WaitForAll(t) => At(s, t, AllTest(s.added))
         case Serve(t) => if s.scheduled > 0 then At(s, t, DrainEntry(FromQueue)).(scheduled := s.scheduled - 1) else s
         case Step(_) => s
  }

  function Start(threads: nat): State {
    State([], 0, false, 0, seq(threads, _ => Idle(0)), 0, [], 0, 0)
  }

  function Exec(threads: nat, run: seq<Event>): State {
    if run == [] then Start(threads) else Next(Exec(threads, run[..|run| - 1]), run[|run| - 1])
  }

  // ---- Invariant ----

  function Works(l: Local): int {
    Bit(l.Running? || l.Ended?)
  }

  function IsEnded(l: Local): int {
    Bit(l.Ended?)
  }

  /** Added an operation without having asked for a drain, or is about to start the drain. */
  function Owes(l: Local): int {
    Bit(l.AsyncInner? || l == DrainEntry(FromQueue))
  }

  /** What a waiter of wait_for_all knows: operations up to its target were added before. */
  predicate LocalOk(l: Local, added: nat, finished: nat) {
    match l
    case Idle(target) => target <= finished
    case AllTest(target) => target <= added
    case WaitOne(w) => w.All? ==> w.target <= added
    case WaitActive(w) => w.All? ==> w.target <= added
    case DrainEntry(c) => c.Inline? && c.w.All? ==> c.w.target <= added
    case Running(_, c) => c.Inline? && c.w.All? ==> c.w.target <= added
    case Ended(c) => c.Inline? && c.w.All? ==> c.w.target <= added
    case AsyncInner => true
  }

  ghost predicate LocalsOk(threads: seq<Local>, added: nat, finished: nat) {
    forall t :: 0 <= t < |threads| ==> LocalOk(threads[t], added, finished)
  }

  /** Operations are started in the order of adding, each once. */
  ghost predicate InOrder(operations: seq<nat>, started: seq<nat>, added: nat) {
    && |started| + |operations| == added
    && (forall i :: 0 <= i < |started| ==> started[i] == i)
    && (forall i :: 0 <= i < |operations| ==> operations[i] == |started| + i)
  }

  ghost predicate Counts(s: State) {
    && s.completed >= 0
    && Sum(s.threads, Works) == Bit(s.active)
    && s.finished == |s.started| - Sum(s.threads, Works) + Sum(s.threads, IsEnded)
    && s.completed + s.waited == s.finished - Sum(s.threads, IsEnded)
    && |s.operations| <= s.scheduled + Sum(s.threads, Owes)
  }

  ghost predicate Inv(s: State) {
    InOrder(s.operations, s.started, s.added) && Counts(s) && LocalsOk(s.threads, s.added, s.finished)
  }

  // ---- Every step keeps it ----

  lemma MoveOne(threads: seq<Local>, t: nat, l: Local)
    requires t < |threads|
    ensures Sum(threads[t := l], Works) == Sum(threads, Works) - Works(threads[t]) + Works(l)
    ensures Sum(threads[t := l], IsEnded) == Sum(threads, IsEnded) - IsEnded(threads[t]) + IsEnded(l)
    ensures Sum(threads[t := l], Owes) == Sum(threads, Owes) - Owes(threads[t]) + Owes(l)
  {
    SumUpdate(threads, t, l, Works);
    SumUpdate(threads, t, l, IsEnded);
    SumUpdate(threads, t, l, Owes);
  }

  /** The thread that works is the only one. */
  lemma OneWorks(threads: seq<Local>, t: nat, active: bool)
    requires t < |threads| && Sum(threads, Works) == Bit(active)
    ensures Works(threads[t]) <= Bit(active) && IsEnded(threads[t]) <= Sum(threads, IsEnded) <= Bit(active)
    ensures threads[t].Running? ==> Sum(threads, IsEnded) == 0
    ensures Sum(threads, Owes) >= Owes(threads[t])
  {
    SumAtLeast(threads, t, Works);
    SumAtLeast(threads, t, IsEnded);
    SumAtLeast(threads, t, Owes);
    SumMonotone(threads, IsEnded, Works);
    if threads[t].Running? && Sum(threads, IsEnded) > 0 {
      var u := SumWitness(threads, IsEnded);
      SumAtLeastTwo(threads, t, u, Works);
    }
  }

  /** What a step of one thread does to the counters. */
  ghost predicate Balanced(s: State, s': State, l: Local, l': Local) {
    && s'.completed >= 0
    && Bit(s'.active) - Works(l') == Bit(s.active) - Works(l)
    && s'.finished - |s'.started| + Works(l') - IsEnded(l') == s.finished - |s.started| + Works(l) - IsEnded(l)
    && s'.completed + s'.waited - s'.finished + IsEnded(l') == s.completed + s.waited - s.finished + IsEnded(l)
    && (s'.operations == [] || |s'.operations| - s'.scheduled - Owes(l') <= |s.operations| - s.scheduled - Owes(l))
  }

  lemma StepIsBalanced(s: State, e: Event)
    requires e.t < |s.threads| && Next(s, e) != s && s.completed >= 0 && Works(s.threads[e.t]) <= Bit(s.active)
    ensures var s' := Next(s, e);
            s'.threads == s.threads[e.t := s'.threads[e.t]] && Balanced(s, s', s.threads[e.t], s'.threads[e.t])
  {
    hide Sum;
    if e.Step? {
      AdvanceIsBalanced(s, e.t);
    }
  }

  lemma AdvanceIsBalanced(s: State, t: nat)
    requires t < |s.threads| && s.completed >= 0 && Works(s.threads[t]) <= Bit(s.active) && Advance(s, t) != s
    ensures var s' := Advance(s, t);
            |s'.threads| == |s.threads| && s'.threads == s.threads[t := s'.threads[t]]
            && Balanced(s, s', s.threads[t], s'.threads[t])
  {
    hide Sum;
    match s.threads[t]
    case Idle(_) =>
    case AsyncInner =>
    case DrainEntry(c) =>
    case Running(_, _) =>
    case Ended(_) =>
    case WaitOne(_) =>
    case WaitActive(_) =>
    case AllTest(_) =>
  }

  lemma CountsKeep(s: State, e: Event)
    requires Inv(s)
    ensures Counts(Next(s, e))
  {
    hide LocalOk, InOrder, Next, Works, IsEnded, Owes;
    var s' := Next(s, e);
    if s' != s {
      assert e.t < |s.threads| by {
        NextOutside(s, e);
      }
      OneWorks(s.threads, e.t, s.active);
      StepIsBalanced(s, e);
      MoveOne(s.threads, e.t, s'.threads[e.t]);
      OwesNonNegative(s'.threads);
    }
  }

  lemma NextOutside(s: State, e: Event)
    ensures e.t >= |s.threads| ==> Next(s, e) == s
  {
  }

  lemma OwesNonNegative(threads: seq<Local>)
    ensures Sum(threads, Owes) >= 0
  {
    SumNonNegative(threads, Owes);
  }

  lemma OrderKeeps(s: State, e: Event)
    requires Inv(s)
    ensures var s' := Next(s, e);
            && InOrder(s'.operations, s'.started, s'.added) && LocalsOk(s'.threads, s'.added, s'.finished)
            && s'.finished >= s.finished
  {
    if e.t < |s.threads| {
      OneWorks(s.threads, e.t, s.active);
      hide Sum;
      assert LocalOk(s.threads[e.t], s.added, s.finished);
      var s' := Next(s, e);
      forall t | 0 <= t < |s'.threads| ensures LocalOk(s'.threads[t], s'.added, s'.finished) {
        assert LocalOk(s.threads[t], s.added, s.finished);
      }
    }
  }

  lemma NextKeeps(s: State, e: Event)
    requires Inv(s)
    ensures Inv(Next(s, e))
  {
    hide Next, InOrder, Counts, LocalsOk;
    CountsKeep(s, e);
    OrderKeeps(s, e);
  }

  lemma {:induction false} EveryRunKeepsTheInvariant(threads: nat, run: seq<Event>)
    ensures Inv(Exec(threads, run)) && |Exec(threads, run).threads| == threads
  {
    if run == [] {
      SumZero(Start(threads).threads, Works);
      SumZero(Start(threads).threads, IsEnded);
      SumZero(Start(threads).threads, Owes);
    } else {
      hide Next, Inv;
      EveryRunKeepsTheInvariant(threads, run[..|run| - 1]);
      NextKeeps(Exec(threads, run[..|run| - 1]), run[|run| - 1]);
    }
  }

  // ---- What the queue guarantees ----

  /** For any interleaving of drains and waiters: the operations are started in the order of adding,
      each once, and none before the one before it has finished. */
  lemma OperationsRunOneAtATimeInOrder(threads: nat, run: seq<Event>)
    ensures var s := Exec(threads, run);
            && (forall i :: 0 <= i < |s.started| ==> s.started[i] == i)
            && |s.started| + |s.operations| == s.added
            && s.finished <= |s.started| <= s.finished + 1
            && Sum(s.threads, Works) == Bit(s.active)
  {
    EveryRunKeepsTheInvariant(threads, run);
    var s := Exec(threads, run);
    SumMonotone(s.threads, IsEnded, Works);
    SumNonNegative(s.threads, IsEnded);
  }

  /** The completion counter is what has finished and was not waited for yet (an operation that has
      just returned is counted when its thread has the lock again), and is never taken below zero. */
  lemma CompletionsAreCounted(threads: nat, run: seq<Event>)
    ensures var s := Exec(threads, run);
            s.completed >= 0 && s.completed == s.finished - s.waited - Sum(s.threads, IsEnded)
  {
    EveryRunKeepsTheInvariant(threads, run);
  }

  /** Every operation that is still to be started has a drain to come: one that is scheduled or
      about to begin, or one that its adder is about to schedule. */
  lemma NoOperationIsForgotten(threads: nat, run: seq<Event>)
    ensures var s := Exec(threads, run); |s.operations| <= s.scheduled + Sum(s.threads, Owes)
  {
    EveryRunKeepsTheInvariant(threads, run);
  }

  /** One round of wait_for_one returns exactly when a finished operation was not waited for yet, which it
      then accounts for, or when every operation ever added has finished and was waited for. */
  lemma WaitForOneReturnsExactly(threads: nat, run: seq<Event>, t: nat)
    requires t < |Exec(threads, run).threads| && Exec(threads, run).threads[t] == WaitOne(One)
    ensures var s := Exec(threads, run);
            var s' := Next(s, Step(t));
            var toWaitFor := s.finished - Sum(s.threads, IsEnded) - s.waited;
            && 0 <= toWaitFor
            && (s'.threads[t].Idle? <==> toWaitFor > 0 || s.waited == s.finished == s.added)
            && s'.waited == s.waited + Bit(toWaitFor > 0)
  {
    EveryRunKeepsTheInvariant(threads, run);
    var s := Exec(threads, run);
    SumMonotone(s.threads, IsEnded, Works);
    SumNonNegative(s.threads, IsEnded);
    hide Sum;
  }

  /** wait_for_all returns exactly when everything that was added so far has finished and has been
      counted by the thread that executed it. */
  lemma WaitForAllWaitsForAll(threads: nat, run: seq<Event>, t: nat)
    requires t < |Exec(threads, run).threads| && Exec(threads, run).threads[t].AllTest?
    ensures var s := Exec(threads, run);
            var s' := Next(s, Step(t));
            && s.threads[t].target <= s.added
            && (s'.threads[t].Idle? <==> s.finished == s.added && Sum(s.threads, IsEnded) == 0)
            && (s'.threads[t].Idle? ==> s'.threads[t] == Idle(s.threads[t].target))
  {
    EveryRunKeepsTheInvariant(threads, run);
    var s := Exec(threads, run);
    assert LocalOk(s.threads[t], s.added, s.finished);
    OneWorks(s.threads, t, s.active);
  }

  lemma ReturnedWaitersAreRight(threads: nat, run: seq<Event>, t: nat)
    requires t < |Exec(threads, run).threads| && Exec(threads, run).threads[t].Idle?
    ensures Exec(threads, run).threads[t].waitedFor <= Exec(threads, run).finished
  {
    EveryRunKeepsTheInvariant(threads, run);
    assert LocalOk(Exec(threads, run).threads[t], Exec(threads, run).added, Exec(threads, run).finished);
  }

  /** Work that wait_for_all may still have to do. */
  function Measure(s: State): int {
    3 * |s.operations| + 2 * Bit(s.active) + s.completed
  }

  /** Unless something is added, no step increases the measure, and every round of the waiting loop
      that took a completion has decreased it; a waiter that sleeps does so for a thread that works. */
  lemma WaitingEnds(threads: nat, run: seq<Event>, e: Event)
    requires !e.Async?
    ensures var s, s' := Exec(threads, run), Next(Exec(threads, run), e);
            && 0 <= Measure(s') <= Measure(s)
            && (s' != s && e.Step? && (s.threads[e.t].Ended? || s'.threads[e.t].Running? || s'.waited != s.waited)
                ==> Measure(s') < Measure(s))
            && (e.Step? && e.t < |s.threads| && (s.threads[e.t].WaitActive? || s.threads[e.t].DrainEntry?)
                  && s' == s ==>
                  exists u :: 0 <= u < |s.threads| && Works(s.threads[u]) == 1)
  {
    EveryRunKeepsTheInvariant(threads, run);
    MeasureDecreases(Exec(threads, run), e);
  }

  lemma MeasureDecreases(s: State, e: Event)
    requires Inv(s) && !e.Async?
    ensures var s' := Next(s, e);
            && 0 <= Measure(s') <= Measure(s)
            && (s' != s && e.Step? && (s.threads[e.t].Ended? || s'.threads[e.t].Running? || s'.waited != s.waited)
                ==> Measure(s') < Measure(s))
            && (e.Step? && e.t < |s.threads| && (s.threads[e.t].WaitActive? || s.threads[e.t].DrainEntry?)
                  && s' == s ==>
                  exists u :: 0 <= u < |s.threads| && Works(s.threads[u]) == 1)
  {
    hide LocalOk, InOrder;
    if e.t < |s.threads| {
      OneWorks(s.threads, e.t, s.active);
      NextKeeps(s, e);
      if s.active {
        var u := SumWitness(s.threads, Works);
        assert Works(s.threads[u]) == 1;
      }
    }
  }

  function Solo(s: State, t: nat, n: nat): (s': State)
    ensures |s'.threads| == |s.threads|
    decreases n
  {
    if n == 0 then s else Solo(Next(s, Step(t)), t, n - 1)
  }

  /** What a wait_for_all that runs alone needs at each place. */
  predicate WaitsAlone(s: State, t: nat, target: nat)
    requires t < |s.threads|
  {
    && (s.active <==> Works(s.threads[t]) == 1) && s.added == target
    && match s.threads[t]
       case Idle(waitedFor) => waitedFor == target && s.operations == []
       case AllTest(n) => n == target
       case WaitOne(w) => w == All(target) && (s.operations != [] || s.completed > 0)
       case DrainEntry(c) => c == Inline(All(target)) && s.operations != []
       case Running(_, c) => c == Inline(All(target))
       case Ended(c) => c == Inline(All(target))
       case _ => false
  }

  function StepsAlone(s: State, l: Local): int {
    6 * |s.operations| + 2 * s.completed
    + match l
      case AllTest(_) => 3
      case WaitOne(_) => 2
      case DrainEntry(_) => 1
      case Running(_, _) => 6
      case Ended(_) => 5
      case _ => 0
  }

  lemma AloneGoesOn(s: State, t: nat, target: nat)
    requires t < |s.threads| && s.completed >= 0 && WaitsAlone(s, t, target)
    ensures var s' := Next(s, Step(t));
            && WaitsAlone(s', t, target)
            && (if s.threads[t].Idle? then s' == s
                else 0 <= StepsAlone(s', s'.threads[t]) < StepsAlone(s, s.threads[t]))
  {
  }

  lemma {:induction false} AloneReturns(s: State, t: nat, target: nat, n: nat)
    requires Inv(s) && t < |s.threads| && WaitsAlone(s, t, target)
    requires s.threads[t].Idle? || StepsAlone(s, s.threads[t]) <= n
    ensures var s' := Solo(s, t, n);
            s'.threads[t] == Idle(target) && s'.operations == [] && s'.added == target && !s'.active && Inv(s')
    decreases n
  {
    assert s.completed >= 0;
    if n > 0 {
      AloneGoesOn(s, t, target);
      NextKeeps(s, Step(t));
      hide Inv, Next, WaitsAlone;
      AloneReturns(Next(s, Step(t)), t, target, n - 1);
    }
  }

  /** After any run in which nobody executes an operation: a wait_for_all that nobody disturbs returns
      within this many steps, having executed everything that was waiting, in order. */
  lemma UndisturbedWaitForAll(threads: nat, run: seq<Event>, t: nat)
    requires t < |Exec(threads, run).threads| && Exec(threads, run).threads[t].Idle? && !Exec(threads, run).active
    ensures var s := Exec(threads, run);
            && s.completed >= 0
            && var s' := Solo(Next(s, WaitForAll(t)), t, 6 * |s.operations| + 2 * s.completed + 3);
            && s'.threads[t] == Idle(s.added) && s'.operations == [] && s'.added == s.added
            && s'.finished == |s'.started| == s.added && (forall i :: 0 <= i < s.added ==> s'.started[i] == i)
  {
    EveryRunKeepsTheInvariant(threads, run);
    var s := Exec(threads, run);
    assert s.completed >= 0;
    NextKeeps(s, WaitForAll(t));
    hide Inv, Exec;
    WaitBegins(s, t);
    hide Next, WaitsAlone, StepsAlone, Solo;
    var s1, n := Next(s, WaitForAll(t)), 6 * |s.operations| + 2 * s.completed + 3;
    AloneReturns(s1, t, s.added, n);
    AllHasFinished(Solo(s1, t, n));
  }

  lemma WaitBegins(s: State, t: nat)
    requires t < |s.threads| && s.threads[t].Idle? && !s.active
    ensures var s1 := Next(s, WaitForAll(t));
            && WaitsAlone(s1, t, s.added)
            && StepsAlone(s1, s1.threads[t]) == 6 * |s.operations| + 2 * s.completed + 3
  {
  }

  lemma AllHasFinished(s: State)
    requires Inv(s) && s.operations == [] && !s.active
    ensures s.finished == |s.started| == s.added && forall i :: 0 <= i < s.added ==> s.started[i] == i
  {
    SumMonotone(s.threads, IsEnded, Works);
    SumNonNegative(s.threads, IsEnded);
  }

  /** Adding an operation and then serving one drain, undisturbed after any run: the drain that was asked
      for executes the operation that waited longest, and its completion is counted. */
  lemma AddedIsServed(threads: nat, run: seq<Event>, t: nat)
    requires t < |Exec(threads, run).threads| && Exec(threads, run).threads[t].Idle? && !Exec(threads, run).active
    ensures var s := Exec(threads, run);
            var added := Solo(Next(s, Async(t)), t, 1);
            var served := Solo(Next(added, Serve(t)), t, 3);
            && added == s.(operations := s.operations + [s.added], added := s.added + 1,
                           scheduled := s.scheduled + 1, threads := s.threads[t := Idle(0)])
            && s.operations + [s.added] == [|s.started|] + served.operations
            && served.started == s.started + [|s.started|] && served.finished == s.finished + 1
            && served.completed == s.completed + 1 && served.scheduled == s.scheduled
            && !served.active && served.threads == added.threads
  {
    EveryRunKeepsTheInvariant(threads, run);
    var s := Exec(threads, run);
    OldestWaits(s);
    hide Inv, Exec;
    var s1 := Next(s, Async(t));
    assert Solo(s1, t, 1) == Solo(Next(s1, Step(t)), t, 0);
    var added := Solo(s1, t, 1);
    assert added.threads == s.threads[t := Idle(0)];
    ServesOldest(added, t);
  }

  lemma OldestWaits(s: State)
    requires Inv(s)
    ensures (s.operations + [s.added])[0] == |s.started|
  {
  }

  lemma ServesOldest(s: State, t: nat)
    requires t < |s.threads| && s.threads[t] == Idle(0) && !s.active && s.scheduled > 0 && s.operations != []
    ensures Solo(Next(s, Serve(t)), t, 3)
            == s.(operations := s.operations[1..], started := s.started + [s.operations[0]],
                  finished := s.finished + 1, completed := s.completed + 1, scheduled := s.scheduled - 1)
  {
    var s0 := Next(s, Serve(t));
    var s1 := Next(s0, Step(t));
    var s2 := Next(s1, Step(t));
    var s3 := Next(s2, Step(t));
    assert Solo(s0, t, 3) == Solo(s1, t, 2) == Solo(s2, t, 1) == Solo(s3, t, 0);
    assert s3.threads == s.threads;
  }

  // ---- The queue's loops in place, while no other thread uses it ----

  /** Zero up to n. */
  function Indices(n: nat): seq<nat> {
    seq(n, i => i)
  }

  class Operations {
    var operations: seq<nat>
    var completed: nat
    var active: bool
    /** History: the operations added, those executed, and how many were waited for. */
    ghost var added: seq<nat>
    ghost var executed: seq<nat>
    ghost var waited: nat

    /** Operations are executed once, in the order of adding, and completions are counted. */
    ghost predicate Valid()
      reads this
    {
      !active && executed + operations == added && completed + waited == |executed|
    }

    constructor ()
      ensures Valid() && added == []
    {
      operations, completed, active, added, executed, waited := [], 0, false, [], [], 0;
    }

    method AddOne(op: nat)
      requires Valid()
      modifies this
      ensures Valid() && added == old(added) + [op] && executed == old(executed) && waited == old(waited)
    {
      operations := operations + [op];
      added := added + [op];
    }

    /** One more operation has been executed, unless none was left. */
    method DrainOne()
      requires Valid()
      modifies this
      ensures Valid() && added == old(added) && waited == old(waited)
      ensures executed == added[..|executed|] && |executed| == |old(executed)| + Bit(old(operations) != [])
    {
      active := true;
      if operations != [] {
        executed := executed + [operations[0]];
        operations := operations[1..];
        completed := completed + 1;
      }
      active := false;
      assert executed == (executed + operations)[..|executed|];
    }

    /** One completion is waited for: an old one, or the one of the next operation, which the waiting
        thread executes itself; without either it returns at once. */
    method WaitForOne()
      requires Valid()
      modifies this
      ensures Valid() && added == old(added)
      ensures waited == old(waited) + Bit(old(completed) > 0 || old(operations) != [])
      ensures executed == added[..|executed|]
      ensures |executed| == |old(executed)| + Bit(old(completed) == 0 && old(operations) != [])
    {
      assert executed == (executed + operations)[..|executed|];
      while 0 == completed
        invariant Valid() && added == old(added) && waited == old(waited) && executed == added[..|executed|]
        invariant if old(completed) > 0 || old(operations) == [] then executed == old(executed)
                  else |executed| == |old(executed)| + Bit(completed > 0)
        decreases |operations|
      {
        if operations == [] {
          return;
        }
        DrainOne();
      }
      completed := completed - 1;
      waited := waited + 1;
    }

    /** Everything that was added has been executed, in order. */
    method WaitForAll()
      requires Valid()
      modifies this
      ensures Valid() && added == old(added) && executed == added
    {
      while active || operations != []
        invariant Valid() && added == old(added)
        decreases 2 * |operations| + completed
      {
        WaitForOne();
      }
    }

    /** `apply`: one operation per index, then the wait for all. */
    method Apply(times: nat)
      requires Valid()
      modifies this
      ensures Valid() && executed == added && added == old(added) + Indices(times)
    {
      var i := 0;
      while i < times
        invariant 0 <= i <= times && Valid() && added == old(added) + Indices(i)
      {
        assert Indices(i + 1) == Indices(i) + [i];
        AddOne(i);
        i := i + 1;
      }
      WaitForAll();
    }
  }
}

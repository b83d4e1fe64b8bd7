/** apply on a queue: one operation per index, a consumable that counts them down, and a barrier
    that its last consumer completes.

    The operations are executed in any order and any interleaving, which covers parallel queues and,
    as a special case, serial ones. */
module Apply {
  import opened Threads
  import opened B = LightweightBarrier

  /** Operation number i of the call. `Subtract` is past the assertion of consume_resource. */
  datatype Task =
    | Waiting
    | Execute
    | Consume
    | Subtract
    | Last(c: Completing)
    | Finished

  /** The calling thread: submitting, in wait_for_consumed, or returned. */
  datatype Caller =
    | Submitting
    | LoadResources
    | Blocked(w: B.Waiting)
    | Returned

  /** `executed` is history: the indices in the order in which the operation was executed with them. */
  datatype State = State(times: nat, resources: int, barrier: Barrier, tasks: seq<Task>, caller: Caller,
      executed: seq<nat>)

  datatype Event = CallerStep | TaskStep(i: nat)

  function Start(times: nat): State {
    State.State(times, times, Fresh(), [], Submitting, [])
  }

  function CallerNext(s: State): State {
    match s.caller
    case Submitting =>
      if |s.tasks| < s.times then s.(tasks := s.tasks + [Waiting]) else s.(caller := LoadResources)
    case LoadResources => s.(caller := if s.resources == 0 then Returned else Blocked(WaitLoad))
    case Blocked(w) =>
      var (b, w') := WaitNext(s.barrier, w, false);
      s.(barrier := b, caller := if w'.WaitReturned? then Returned else Blocked(w'))
    case Returned => s
  }

  function At(s: State, i: nat, t: Task): State
    requires i < |s.tasks|
  {
    s.(tasks := s.tasks[i := t])
  }

  function TaskNext(s: State, i: nat): State
    requires i < |s.tasks|
  {
    match s.tasks[i]
    case Waiting => At(s, i, Execute)
    case Execute => At(s, i, Consume).(executed := s.executed + [i])
    case Consume => At(s, i, Subtract)
    case Subtract =>
      At(s, i, if s.resources == 1 then Last(CompleteCas) else Finished).(resources := s.resources - 1)
    case Last(c) =>
      var (b, c') := CompleteNext(s.barrier, c);
      At(s, i, if c'.CompleteReturned? then Finished else Last(c')).(barrier := b)
    case Finished => s
  }

  function Next(s: State, e: Event): State {
    match e
    case CallerStep => CallerNext(s)
    case TaskStep(i) => if i < |s.tasks| then TaskNext(s, i) else s
  }

  function Exec(times: nat, run: seq<Event>): State {
    if run == [] then Start(times) else Next(Exec(times, run[..|run| - 1]), run[|run| - 1])
  }

  // ---- Invariant ----

  /** Has not given its resource back. */
  function Holds(t: Task): int {
    Bit(!t.Last? && !t.Finished?)
  }

  function Completes(t: Task): int {
    Bit(t.Last?)
  }

  predicate HasExecuted(t: Task) {
    !t.Waiting? && !t.Execute?
  }

  ghost predicate ExecutedOnce(tasks: seq<Task>, executed: seq<nat>) {
    && (forall k :: 0 <= k < |executed| ==> executed[k] < |tasks| && HasExecuted(tasks[executed[k]]))
    && (forall i :: 0 <= i < |tasks| && HasExecuted(tasks[i]) ==> i in executed)
    && (forall k, l :: 0 <= k < l < |executed| ==> executed[k] != executed[l])
  }

  predicate CallerOk(s: State) {
    match s.caller
    case Submitting => |s.tasks| <= s.times
    case LoadResources => |s.tasks| == s.times
    case Blocked(w) => |s.tasks| == s.times && s.times > 0 && WaitOk(s.barrier, w) && !w.WaitReturned?
    case Returned => |s.tasks| == s.times && s.resources == 0
  }

  ghost predicate TasksOk(b: Barrier, tasks: seq<Task>) {
    forall i :: 0 <= i < |tasks| && tasks[i].Last? ==> CompleteOk(b, tasks[i].c) && !tasks[i].c.CompleteReturned?
  }

  /** The last resource is given back once, and whoever does it completes the barrier, or has. */
  ghost predicate Counted(s: State) {
    && Shape(s.barrier) && |s.tasks| <= s.times
    && s.resources == s.times - |s.tasks| + Sum(s.tasks, Holds)
    && s.resources >= 0 && Sum(s.tasks, Holds) >= 0 && Sum(s.tasks, Completes) >= 0
    && Bit(Satisfied(s.barrier)) + Sum(s.tasks, Completes) == Bit(s.resources == 0 && s.times > 0)
  }

  ghost predicate Inv(s: State) {
    Counted(s) && CallerOk(s) && TasksOk(s.barrier, s.tasks) && ExecutedOnce(s.tasks, s.executed)
  }

  lemma MoveOne(tasks: seq<Task>, i: nat, t: Task)
    requires i < |tasks|
    ensures Sum(tasks[i := t], Holds) == Sum(tasks, Holds) - Holds(tasks[i]) + Holds(t)
    ensures Sum(tasks[i := t], Completes) == Sum(tasks, Completes) - Completes(tasks[i]) + Completes(t)
    ensures Sum(tasks, Holds) >= Holds(tasks[i]) && Sum(tasks, Completes) >= Completes(tasks[i])
  {
    SumUpdate(tasks, i, t, Holds);
    SumUpdate(tasks, i, t, Completes);
    SumAtLeast(tasks, i, Holds);
    SumAtLeast(tasks, i, Completes);
  }

  lemma ExecuteOnce(s: State, i: nat)
    requires ExecutedOnce(s.tasks, s.executed) && i < |s.tasks|
    ensures ExecutedOnce(TaskNext(s, i).tasks, TaskNext(s, i).executed)
  {
    var s' := TaskNext(s, i);
    forall k | 0 <= k < |s'.tasks| && HasExecuted(s'.tasks[k]) ensures k in s'.executed {
      if k == i && s.tasks[i].Execute? {
        assert s'.executed[|s.executed|] == i;
      } else {
        assert k in s.executed;
      }
    }
  }

  lemma TaskKeeps(s: State, i: nat)
    requires Inv(s) && i < |s.tasks|
    ensures Inv(TaskNext(s, i))
  {
    hide ExecutedOnce, TaskNext, Counted, TasksOk, CallerOk;
    ExecuteOnce(s, i);
    TaskCounts(s, i);
    TaskBarrier(s, i);
  }

  lemma TaskCounts(s: State, i: nat)
    requires Counted(s) && TasksOk(s.barrier, s.tasks) && i < |s.tasks|
    ensures Counted(TaskNext(s, i))
  {
    var s' := TaskNext(s, i);
    MoveOne(s.tasks, i, s'.tasks[i]);
    MoveOne(s'.tasks, i, s'.tasks[i]);
    hide Sum;
    if s.tasks[i].Last? {
      assert CompleteOk(s.barrier, s.tasks[i].c);
      CompleteEvolves(s.barrier, s.tasks[i].c);
    }
  }

  lemma TaskBarrier(s: State, i: nat)
    requires Counted(s) && TasksOk(s.barrier, s.tasks) && CallerOk(s) && i < |s.tasks|
    ensures TasksOk(TaskNext(s, i).barrier, TaskNext(s, i).tasks) && CallerOk(TaskNext(s, i))
  {
    var s' := TaskNext(s, i);
    SumAtLeast(s.tasks, i, Holds);
    SumAtLeast(s.tasks, i, Completes);
    hide Sum;
    if s.tasks[i].Last? {
      assert CompleteOk(s.barrier, s.tasks[i].c);
      CompleteEvolves(s.barrier, s.tasks[i].c);
    }
    forall k | 0 <= k < |s'.tasks| && s'.tasks[k].Last?
      ensures CompleteOk(s'.barrier, s'.tasks[k].c) && !s'.tasks[k].c.CompleteReturned?
    {
      if k != i {
        assert CompleteOk(s.barrier, s.tasks[k].c);
      }
    }
  }

  lemma CallerKeeps(s: State)
    requires Inv(s)
    ensures Inv(CallerNext(s))
  {
    var s' := CallerNext(s);
    if s.caller.Submitting? && |s.tasks| < s.times {
      SumAppend(s.tasks, Waiting, Holds);
      SumAppend(s.tasks, Waiting, Completes);
      forall k | 0 <= k < |s'.tasks| && HasExecuted(s'.tasks[k]) ensures k in s'.executed {
        assert HasExecuted(s.tasks[k]);
      }
    } else if s.caller.Blocked? {
      hide ExecutedOnce, Sum;
      WaitEvolves(s.barrier, s.caller.w, false);
      forall k | 0 <= k < |s'.tasks| && s'.tasks[k].Last? ensures CompleteOk(s'.barrier, s'.tasks[k].c) {
        assert CompleteOk(s.barrier, s.tasks[k].c);
      }
    }
  }

  lemma {:induction false} EveryRunKeepsTheInvariant(times: nat, run: seq<Event>)
    ensures Inv(Exec(times, run)) && Exec(times, run).times == times
  {
    if run != [] {
      var s, e := Exec(times, run[..|run| - 1]), run[|run| - 1];
      EveryRunKeepsTheInvariant(times, run[..|run| - 1]);
      if e.CallerStep? {
        CallerKeeps(s);
      } else if e.i < |s.tasks| {
        TaskKeeps(s, e.i);
      }
    }
  }

  // ---- What apply guarantees ----

  /** When apply has returned, the operation was executed exactly once for each index, and for no
      other. */
  lemma ApplyRunsEveryIndexOnce(times: nat, run: seq<Event>, i: nat)
    requires Exec(times, run).caller.Returned?
    ensures var s := Exec(times, run);
            multiset(s.executed)[i] == (if i < times then 1 else 0)
            && (i < times ==> i < |s.tasks| && HasExecuted(s.tasks[i]))
  {
    EveryRunKeepsTheInvariant(times, run);
    var s := Exec(times, run);
    if i < times {
      assert Holds(s.tasks[i]) == 0 by {
        SumAtLeast(s.tasks, i, Holds);
      }
      assert i in s.executed;
    }
    OnceInMultiset(s.executed, i);
  }

  lemma {:induction false} OnceInMultiset(xs: seq<nat>, x: nat)
    requires forall k, l :: 0 <= k < l < |xs| ==> xs[k] != xs[l]
    ensures multiset(xs)[x] == if x in xs then 1 else 0
  {
    if xs != [] {
      var n := |xs| - 1;
      assert xs == xs[..n] + [xs[n]];
      assert forall k, l :: 0 <= k < l < n ==> xs[..n][k] != xs[..n][l];
      OnceInMultiset(xs[..n], x);
      assert forall k :: 0 <= k < n ==> xs[..n][k] == xs[k] != xs[n];
    }
  }

  /** The assertion in consume_resource holds, the resources are never negative, and they are exactly
      the indices that have not been executed and consumed. */
  lemma ResourcesAreCounted(times: nat, run: seq<Event>, i: nat)
    requires i < |Exec(times, run).tasks|
    ensures var s := Exec(times, run);
            && s.resources == times - |s.tasks| + Sum(s.tasks, Holds)
            && (s.tasks[i].Consume? || s.tasks[i].Subtract? ==> s.resources > 0)
  {
    EveryRunKeepsTheInvariant(times, run);
    var s := Exec(times, run);
    SumAtLeast(s.tasks, i, Holds);
  }

  /** One operation at most completes the barrier, exactly when the resources have reached zero. */
  lemma LastConsumerCompletes(times: nat, run: seq<Event>)
    ensures var s := Exec(times, run);
            && Sum(s.tasks, Completes) <= 1
            && (Satisfied(s.barrier) || Sum(s.tasks, Completes) == 1 <==> s.resources == 0 && times > 0)
            && (Satisfied(s.barrier) ==> Sum(s.tasks, Completes) == 0)
  {
    EveryRunKeepsTheInvariant(times, run);
  }

  function TaskLeft(t: Task): nat {
    match t
    case Waiting => 7
    case Execute => 6
    case Consume => 5
    case Subtract => 4
    case Last(c) => CompleteLeft(c)
    case Finished => 0
  }

  function CallerLeft(s: State): int {
    match s.caller
    case Submitting => s.times - |s.tasks| + 5
    case LoadResources => 4
    case Blocked(w) => WaitLeft(w)
    case Returned => 0
  }

  /** Each step of an operation brings it closer to its end, and each step of the caller brings it
      closer to its return, except that it sleeps exactly until the last consumer completed the barrier. */
  lemma OwnStepsAreBounded(times: nat, run: seq<Event>, i: nat)
    ensures var s := Exec(times, run);
            && (i < |s.tasks| && !s.tasks[i].Finished? ==>
                  var s' := Next(s, TaskStep(i)); i < |s'.tasks| && TaskLeft(s'.tasks[i]) < TaskLeft(s.tasks[i]))
            && (!s.caller.Returned? ==>
                  var s' := Next(s, CallerStep);
                  if s.caller.Blocked? && s.caller.w.WaitSleep? && !Satisfied(s.barrier) then s' == s
                  else 0 <= CallerLeft(s') < CallerLeft(s))
  {
    EveryRunKeepsTheInvariant(times, run);
  }

  /** The caller never sleeps for ever: once every operation has finished, its flag is set and its
      next step out of a sleep returns; and without indices it returns at once. */
  lemma CallerIsReleased(times: nat, run: seq<Event>)
    ensures var s := Exec(times, run);
            && (s.caller.Blocked? && s.caller.w.WaitSleep? && (forall i :: 0 <= i < |s.tasks| ==> s.tasks[i].Finished?)
                ==> Next(s, CallerStep).caller.Returned?)
            && (s.caller.LoadResources? && times == 0 ==> Next(s, CallerStep).caller.Returned?)
  {
    EveryRunKeepsTheInvariant(times, run);
    var s := Exec(times, run);
    if s.caller.Blocked? && forall i :: 0 <= i < |s.tasks| ==> s.tasks[i].Finished? {
      SumZero(s.tasks, Holds);
      SumZero(s.tasks, Completes);
      WaitEvolves(s.barrier, s.caller.w, false);
    }
  }

  // ---- apply in place ----

  /** The consumable of one call. */
  class Consumable {
    var resources: nat
    const barrier: B.Object

    ghost predicate Valid()
      reads this, barrier
    {
      Shape(barrier.Value()) && (Satisfied(barrier.Value()) ==> resources == 0)
    }

    constructor (n: nat)
      ensures Valid() && resources == n && fresh(barrier) && !Satisfied(barrier.Value())
    {
      resources := n;
      barrier := new B.Object();
    }

    /** The barrier is completed by the call that takes the last resource. */
    method ConsumeResource()
      requires Valid() && resources > 0
      modifies this, barrier
      ensures Valid() && resources == old(resources) - 1
      ensures Satisfied(barrier.Value()) <==> resources == 0
    {
      resources := resources - 1;
      if resources == 0 {
        barrier.Complete();
      }
    }

    /** Waiting up to the point where it would sleep. */
    method WaitForConsumed() returns (consumed: bool)
      requires Valid()
      modifies barrier
      ensures Valid() && resources == old(resources)
      ensures consumed <==> resources == 0 || old(Satisfied(barrier.Value()))
    {
      if 0 == resources {
        return true;
      }
      var w := barrier.Wait();
      consumed := w.WaitReturned?;
    }
  }

  /** `apply` on a queue that executes its operations in order: the loop that submits one operation
      per index, their execution, and the wait, which finds everything consumed. */
  method ApplyInOrder(times: nat) returns (executed: seq<nat>, consumed: bool)
    ensures consumed && |executed| == times && forall i :: 0 <= i < times ==> executed[i] == i
  {
    var completed := new Consumable(times);
    var queue: seq<nat> := [];
    var i := 0;
    while i < times
      invariant 0 <= i <= times && |queue| == i && forall k :: 0 <= k < i ==> queue[k] == k
      invariant completed.Valid() && completed.resources == times && fresh(completed) && fresh(completed.barrier)
    {
      queue := queue + [i];
      i := i + 1;
    }
    executed := [];
    while |executed| < |queue|
      invariant |executed| <= |queue| == times && executed == queue[..|executed|]
      invariant forall k :: 0 <= k < times ==> queue[k] == k
      invariant completed.Valid() && completed.resources == times - |executed|
      invariant fresh(completed) && fresh(completed.barrier)
    {
      executed := executed + [queue[|executed|]];
      completed.ConsumeResource();
    }
    consumed := completed.WaitForConsumed();
  }
}

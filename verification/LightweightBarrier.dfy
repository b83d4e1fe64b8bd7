/** The lightweight barrier: one atomic owner that is nobody, a waiter object, or the mark
    "completed".

    A barrier is completed at most once for good; waiting threads share the first waiter object.
    The steps of wait and complete are functions of the barrier's value, so that the objects built
    on barriers can interleave them with their own steps. */
module LightweightBarrier {
  import opened Threads

  /** A waiter object is named by its position in `done`, its flags. */
  datatype Owner = NoOwner | Completed | Waiter(u: nat)

  datatype Barrier = Barrier(owner: Owner, done: seq<bool>)

  datatype Waiting = WaitLoad | WaitCas | WaitSleep(u: nat) | WaitReturned(satisfied: bool)

  datatype Completing = CompleteCas | CompleteDone(u: nat) | CompleteReturned

  datatype Testing = TestLoad | TestDone(u: nat) | TestReturned(satisfied: bool)

  function Fresh(): Barrier {
    Barrier(NoOwner, [])
  }

  predicate IsDone(b: Barrier, u: nat) {
    u < |b.done| && b.done[u]
  }

  /** `timeout` lets a sleep with a timeout end although the flag is not set. */
  function WaitNext(b: Barrier, w: Waiting, timeout: bool): (Barrier, Waiting) {
    match w
    case WaitLoad => (b, if b.owner.Completed? then WaitReturned(true) else WaitCas)
    case WaitCas =>
      (match b.owner
       case NoOwner => (Barrier(Waiter(|b.done|), b.done + [false]), WaitSleep(|b.done|))
       case Completed => (b, WaitReturned(true))
       case Waiter(u) => (b, WaitSleep(u)))
    case WaitSleep(u) => (b, if IsDone(b, u) then WaitReturned(true) else if timeout then WaitReturned(false) else w)
    case WaitReturned(_) => (b, w)
  }

  function CompleteNext(b: Barrier, c: Completing): (Barrier, Completing) {
    match c
    case CompleteCas =>
      (match b.owner
       case NoOwner => (b.(owner := Completed), CompleteReturned)
       case Completed => (b, CompleteReturned)
       case Waiter(u) => (b, CompleteDone(u)))
    case CompleteDone(u) => (if u < |b.done| then b.(done := b.done[u := true]) else b, CompleteReturned)
    case CompleteReturned => (b, c)
  }

  function TestNext(b: Barrier, q: Testing): Testing {
    match q
    case TestLoad =>
      (match b.owner
       case NoOwner => TestReturned(false)
       case Completed => TestReturned(true)
       case Waiter(u) => TestDone(u))
    case TestDone(u) => TestReturned(IsDone(b, u))
    case TestReturned(_) => q
  }

  // ---- The barrier by itself ----

  datatype Local =
    | Idle
    | Waits(w: Waiting, timed: bool)
    | Completes(c: Completing)
    | Tests(q: Testing)

  /** `claimed` is history: some complete has begun; `finished` counts the completes that have returned. */
  datatype State = State(barrier: Barrier, threads: seq<Local>, claimed: bool, finished: nat)

  datatype Event =
    | Wait(t: nat, timed: bool)
    | Complete(t: nat)
    | Test(t: nat)
    | Step(t: nat, timeout: bool)
    | Return(t: nat)

  function At(s: State, t: nat, l: Local): State
    requires t < |s.threads|
  {
    s.(threads := s.threads[t := l])
  }

  function Next(s: State, e: Event): (s': State)
    ensures |s'.threads| == |s.threads|
  {
    if e.t >= |s.threads| then s else
    match (e, s.threads[e.t])
    case (Wait(t, timed), Idle) => At(s, t, Waits(WaitLoad, timed))
    case (Complete(t), Idle) => At(s, t, Completes(CompleteCas)).(claimed := true)
    case (Test(t), Idle) => At(s, t, Tests(TestLoad))
    case (Step(t, timeout), Waits(w, timed)) =>
      var (b, w') := WaitNext(s.barrier, w, timed && timeout);
      At(s, t, Waits(w', timed)).(barrier := b)
    case (Step(t, _), Completes(c)) =>
      var (b, c') := CompleteNext(s.barrier, c);
      At(s, t, Completes(c')).(
        barrier := b, finished := s.finished + Bit(c'.CompleteReturned? && !c.CompleteReturned?))
    case (Step(t, _), Tests(q)) => At(s, t, Tests(TestNext(s.barrier, q)))
    case (Return(t), Waits(WaitReturned(_), _)) => At(s, t, Idle)
    case (Return(t), Completes(CompleteReturned)) => At(s, t, Idle)
    case (Return(t), Tests(TestReturned(_))) => At(s, t, Idle)
    case (_, _) => s
  }

  function Exec(threads: nat, run: seq<Event>): State {
    if run == [] then State(Fresh(), seq(threads, _ => Idle), false, 0)
    else Next(Exec(threads, run[..|run| - 1]), run[|run| - 1])
  }

  /** There is at most one waiter object, and it stays the owner. */
  predicate Shape(b: Barrier) {
    match b.owner
    case NoOwner => b.done == []
    case Completed => b.done == []
    case Waiter(u) => u == 0 && |b.done| == 1
  }

  predicate Satisfied(b: Barrier) {
    b.owner.Completed? || IsDone(b, 0)
  }

  predicate WaitOk(b: Barrier, w: Waiting) {
    match w
    case WaitSleep(u) => u == 0 && b.owner == Waiter(0)
    case WaitReturned(satisfied) => satisfied ==> Satisfied(b)
    case _ => true
  }

  predicate CompleteOk(b: Barrier, c: Completing) {
    match c
    case CompleteCas => true
    case CompleteDone(u) => u == 0 && b.owner == Waiter(0)
    case CompleteReturned => Satisfied(b)
  }

  predicate TestOk(b: Barrier, q: Testing) {
    match q
    case TestLoad => true
    case TestDone(u) => u == 0 && b.owner == Waiter(0)
    case TestReturned(satisfied) => satisfied ==> Satisfied(b)
  }

  /** What one step of a barrier's user may change in the barrier. */
  predicate Evolves(b: Barrier, b': Barrier) {
    && Shape(b') && (Satisfied(b) ==> Satisfied(b'))
    && (b.owner == Waiter(0) ==> b'.owner == Waiter(0))
  }

  lemma WaitEvolves(b: Barrier, w: Waiting, timeout: bool)
    requires Shape(b) && WaitOk(b, w)
    ensures var (b', w') := WaitNext(b, w, timeout);
            && Evolves(b, b') && Satisfied(b') == Satisfied(b) && WaitOk(b', w')
            && (w.WaitSleep? && Satisfied(b) ==> w' == WaitReturned(true))
  {
  }

  lemma CompleteEvolves(b: Barrier, c: Completing)
    requires Shape(b) && CompleteOk(b, c)
    ensures var (b', c') := CompleteNext(b, c);
            && Evolves(b, b') && CompleteOk(b', c') && (c'.CompleteReturned? ==> Satisfied(b'))
            && (Satisfied(b') && !Satisfied(b) ==> c'.CompleteReturned?)
  {
  }

  predicate LocalOk(b: Barrier, claimed: bool, l: Local) {
    match l
    case Idle => true
    case Waits(w, timed) => WaitOk(b, w) && (w == WaitReturned(false) ==> timed)
    case Completes(c) => CompleteOk(b, c) && claimed
    case Tests(q) => TestOk(b, q)
  }

  ghost predicate Inv(s: State) {
    && Shape(s.barrier) && (Satisfied(s.barrier) ==> s.claimed) && (s.finished > 0 ==> Satisfied(s.barrier))
    && forall t :: 0 <= t < |s.threads| ==> LocalOk(s.barrier, s.claimed, s.threads[t])
  }

  lemma NextKeeps(s: State, e: Event)
    requires Inv(s)
    ensures Inv(Next(s, e)) && Evolves(s.barrier, Next(s, e).barrier)
  {
    if e.t < |s.threads| {
      var s' := Next(s, e);
      assert LocalOk(s.barrier, s.claimed, s.threads[e.t]);
      if e.Step? && s.threads[e.t].Waits? {
        WaitEvolves(s.barrier, s.threads[e.t].w, s.threads[e.t].timed && e.timeout);
      } else if e.Step? && s.threads[e.t].Completes? {
        CompleteEvolves(s.barrier, s.threads[e.t].c);
      }
      forall t | 0 <= t < |s'.threads| ensures LocalOk(s'.barrier, s'.claimed, s'.threads[t]) {
        assert LocalOk(s.barrier, s.claimed, s.threads[t]);
      }
    }
  }

  lemma {:induction false} EveryRunKeepsTheInvariant(threads: nat, run: seq<Event>)
    ensures Inv(Exec(threads, run))
  {
    if run != [] {
      EveryRunKeepsTheInvariant(threads, run[..|run| - 1]);
      NextKeeps(Exec(threads, run[..|run| - 1]), run[|run| - 1]);
    }
  }

  /** A wait or a test says "completed" only after some complete has begun, and only a wait with a
      timeout gives up. */
  lemma NobodyPassesEarly(threads: nat, run: seq<Event>, t: nat)
    requires t < |Exec(threads, run).threads|
    ensures var s := Exec(threads, run);
            && (s.threads[t].Waits? && s.threads[t].w == WaitReturned(true) ==> s.claimed)
            && (s.threads[t].Tests? && s.threads[t].q == TestReturned(true) ==> s.claimed)
            && (s.threads[t].Waits? && s.threads[t].w == WaitReturned(false) ==> s.threads[t].timed)
  {
    EveryRunKeepsTheInvariant(threads, run);
    var s := Exec(threads, run);
    assert LocalOk(s.barrier, s.claimed, s.threads[t]);
  }

  /** Once any complete has returned nobody sleeps on: the next step of every sleeping thread returns
      true, with or without a timeout, and a test or a new wait that begins then says "completed",
      with its third step at the latest. */
  lemma NobodySleepsOn(threads: nat, run: seq<Event>, t: nat, timeout: bool)
    requires t < |Exec(threads, run).threads| && Exec(threads, run).finished > 0
    ensures var s := Exec(threads, run);
            && (s.threads[t].Waits? && s.threads[t].w.WaitSleep? ==>
                  Next(s, Step(t, timeout)).threads[t] == Waits(WaitReturned(true), s.threads[t].timed))
            && (s.threads[t].Tests? && s.threads[t].q.TestDone? ==>
                  Next(s, Step(t, timeout)).threads[t] == Tests(TestReturned(true)))
            && (s.threads[t].Tests? && s.threads[t].q.TestLoad? ==>
                  Next(Next(s, Step(t, timeout)), Step(t, timeout)).threads[t] == Tests(TestReturned(true)))
            && (s.threads[t].Waits? && s.threads[t].w.WaitLoad? ==>
                  Next(Next(Next(s, Step(t, timeout)), Step(t, timeout)), Step(t, timeout)).threads[t]
                  == Waits(WaitReturned(true), s.threads[t].timed))
  {
    EveryRunKeepsTheInvariant(threads, run);
    var s := Exec(threads, run);
    assert LocalOk(s.barrier, s.claimed, s.threads[t]);
  }

  /** A barrier that let somebody pass lets everybody pass from then on. */
  lemma {:induction false} CompletedForGood(threads: nat, run: seq<Event>, more: seq<Event>)
    requires Satisfied(Exec(threads, run).barrier)
    ensures Satisfied(Exec(threads, run + more).barrier)
  {
    if more == [] {
      assert run + more == run;
    } else {
      var n := |more| - 1;
      assert (run + more)[..|run + more| - 1] == run + more[..n];
      CompletedForGood(threads, run, more[..n]);
      EveryRunKeepsTheInvariant(threads, run + more[..n]);
      NextKeeps(Exec(threads, run + more[..n]), more[n]);
    }
  }

  function WaitLeft(w: Waiting): nat {
    match w
    case WaitLoad => 3
    case WaitCas => 2
    case WaitSleep(_) => 1
    case WaitReturned(_) => 0
  }

  function CompleteLeft(c: Completing): nat {
    match c
    case CompleteCas => 2
    case CompleteDone(_) => 1
    case CompleteReturned => 0
  }

  /** How many own steps a call is away from its return at most, not counting those asleep. */
  function StepsLeft(l: Local): nat {
    match l
    case Idle => 0
    case Waits(w, _) => WaitLeft(w)
    case Completes(c) => CompleteLeft(c)
    case Tests(q) => (match q case TestLoad => 2 case TestDone(_) => 1 case TestReturned(_) => 0)
  }

  /** Each own step brings a call closer to its return, except that a wait sleeps on exactly as long as
      the barrier is not satisfied and no timeout ends the sleep; a timeout makes it give up. */
  lemma OwnStepsAreBounded(threads: nat, run: seq<Event>, t: nat, timeout: bool)
    requires t < |Exec(threads, run).threads| && StepsLeft(Exec(threads, run).threads[t]) > 0
    ensures var s := Exec(threads, run);
            var l, l' := s.threads[t], Next(s, Step(t, timeout)).threads[t];
            if l.Waits? && l.w.WaitSleep? && !Satisfied(s.barrier)
            then l' == if l.timed && timeout then Waits(WaitReturned(false), true) else l
            else StepsLeft(l') < StepsLeft(l)
  {
    EveryRunKeepsTheInvariant(threads, run);
    var s := Exec(threads, run);
    assert LocalOk(s.barrier, s.claimed, s.threads[t]);
  }

  function Steps(s: State, t: nat, n: nat): (s': State)
    ensures |s'.threads| == |s.threads|
  {
    if n == 0 then s else Next(Steps(s, t, n - 1), Step(t, false))
  }

  /** Calls that nobody disturbs, after any run: a test says exactly whether the barrier is satisfied, a
      complete satisfies it, a wait returns at once exactly when it is satisfied and sleeps otherwise. */
  lemma CallsAlone(threads: nat, run: seq<Event>, t: nat, timed: bool)
    requires t < |Exec(threads, run).threads| && Exec(threads, run).threads[t].Idle?
    ensures var s := Exec(threads, run);
            var tested := Steps(Next(s, Test(t)), t, 2);
            var completed := Steps(Next(s, Complete(t)), t, 2);
            var waited := Steps(Next(s, Wait(t, timed)), t, 3);
            && tested.barrier == s.barrier && tested.threads[t] == Tests(TestReturned(Satisfied(s.barrier)))
            && Satisfied(completed.barrier) && completed.finished == s.finished + 1
            && completed.threads[t] == Completes(CompleteReturned)
            && Satisfied(waited.barrier) == Satisfied(s.barrier)
            && waited.threads[t]
               == Waits(if Satisfied(s.barrier) then WaitReturned(true) else WaitSleep(0), timed)
            && Next(tested, Return(t)).threads[t] == Next(completed, Return(t)).threads[t] == Idle
  {
    EveryRunKeepsTheInvariant(threads, run);
    hide Exec;
    var s := Exec(threads, run);
    TestAlone(s, t);
    CompleteAlone(s, t);
    WaitAlone(s, t, timed);
  }

  lemma TestAlone(s: State, t: nat)
    requires Shape(s.barrier) && t < |s.threads| && s.threads[t].Idle?
    ensures var s' := Steps(Next(s, Test(t)), t, 2);
            && s'.barrier == s.barrier && s'.threads[t] == Tests(TestReturned(Satisfied(s.barrier)))
            && Next(s', Return(t)).threads[t] == Idle
  {
    assert Steps(Next(s, Test(t)), t, 0) == Next(s, Test(t));
    assert Steps(Next(s, Test(t)), t, 1) == Next(Next(s, Test(t)), Step(t, false));
  }

  lemma CompleteAlone(s: State, t: nat)
    requires Shape(s.barrier) && t < |s.threads| && s.threads[t].Idle?
    ensures var s' := Steps(Next(s, Complete(t)), t, 2);
            && Satisfied(s'.barrier) && s'.finished == s.finished + 1
            && s'.threads[t] == Completes(CompleteReturned) && Next(s', Return(t)).threads[t] == Idle
  {
    assert Steps(Next(s, Complete(t)), t, 0) == Next(s, Complete(t));
    assert Steps(Next(s, Complete(t)), t, 1) == Next(Next(s, Complete(t)), Step(t, false));
  }

  lemma WaitAlone(s: State, t: nat, timed: bool)
    requires Shape(s.barrier) && t < |s.threads| && s.threads[t].Idle?
    ensures var s' := Steps(Next(s, Wait(t, timed)), t, 3);
            && Satisfied(s'.barrier) == Satisfied(s.barrier)
            && s'.threads[t] == Waits(if Satisfied(s.barrier) then WaitReturned(true) else WaitSleep(0), timed)
  {
    var s0 := Next(s, Wait(t, timed));
    assert Steps(s0, t, 0) == s0;
    assert Steps(s0, t, 1) == Next(s0, Step(t, false));
    assert Steps(s0, t, 2) == Next(Steps(s0, t, 1), Step(t, false));
  }

  // ---- The barrier's methods in place ----

  class Object {
    var owner: Owner
    var done: seq<bool>

    function Value(): Barrier
      reads this
    {
      Barrier(owner, done)
    }

    constructor ()
      ensures Value() == Fresh()
    {
      owner, done := NoOwner, [];
    }

    /** Completing in one go is completing step by step, and it satisfies everybody. */
    method Complete()
      requires Shape(Value())
      modifies this
      ensures Satisfied(Value()) && Evolves(old(Value()), Value())
      ensures var (b, c) := CompleteNext(old(Value()), CompleteCas); Value() == CompleteNext(b, c).0
    {
      match owner
      case NoOwner => owner := Completed;
      case Completed =>
      case Waiter(u) => done := done[u := true];
    }

    method WasCompleted() returns (satisfied: bool)
      requires Shape(Value())
      ensures satisfied <==> Satisfied(Value())
      ensures TestReturned(satisfied) == TestNext(Value(), TestNext(Value(), TestLoad))
    {
      match owner
      case NoOwner => satisfied := false;
      case Completed => satisfied := true;
      case Waiter(u) => satisfied := done[u];
    }

    /** A wait up to the point where it would sleep. */
    method Wait() returns (w: Waiting)
      requires Shape(Value())
      modifies this
      ensures Evolves(old(Value()), Value()) && (Satisfied(Value()) <==> old(Satisfied(Value())))
      ensures w == if old(Satisfied(Value())) then WaitReturned(true) else WaitSleep(0)
      ensures w.WaitSleep? ==> Value().owner == Waiter(0)
    {
      match owner
      case Completed =>
        w := WaitReturned(true);
      case NoOwner =>
        owner, done := Waiter(|done|), done + [false];
        w := WaitSleep(0);
      case Waiter(u) =>
        w := if done[u] then WaitReturned(true) else WaitSleep(u);
    }
  }
}

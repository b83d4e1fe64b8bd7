/** The cancelable: a run is entered and left, and disabling waits for the active run.

    Any number of threads enter, leave and disable; `Inside` is a thread that has the cancelable in
    its thread-local set, so that disabling from there is recognised as recursion. */
module Cancelable {
  import opened Threads
  import opened B = LightweightBarrier

  datatype Active = Enabled | Running | Disabled

  datatype Place =
    | Out
    | Inside
    | Leaving
    | Finishing(c: Completing)
    | Disabling(w: Waiting)

  /** `entries` counts the successful enters. */
  datatype Object = Object(active: Active, barrier: Barrier, threads: seq<Place>, entries: nat)

  /** A disable is one atomic access, followed by a wait in the steps of Advance when it comes from
      outside and the run was active. Whether it comes from inside is what the thread-local set says. */
  datatype Action = Enter(t: nat) | Leave(t: nat) | Disable(t: nat) | Advance(t: nat)

  function Move(s: Object, t: nat, l: Place): Object
    requires t < |s.threads|
  {
    s.(threads := s.threads[t := l])
  }

  function Do(s: Object, e: Action): (s': Object)
    ensures |s'.threads| == |s.threads|
  {
    if e.t >= |s.threads| then s else
    match (e, s.threads[e.t])
    case (Enter(t), Out) =>
      if s.active.Enabled? then Move(s, t, Inside).(active := Running, entries := s.entries + 1) else s
    case (Enter(t), Inside) =>
      if s.active.Enabled? then s.(active := Running, entries := s.entries + 1) else s
    case (Leave(t), Inside) => Move(s, t, Leaving)
    case (Disable(t), Inside) => s.(active := Disabled)
    case (Disable(t), Out) =>
      Move(s, t, if s.active.Running? then Disabling(WaitLoad) else Out).(active := Disabled)
    case (Advance(t), Leaving) =>
      if s.active.Running? then Move(s, t, Out).(active := Enabled) else Move(s, t, Finishing(CompleteCas))
    case (Advance(t), Finishing(c)) =>
      var (b, c') := CompleteNext(s.barrier, c);
      Move(s, t, if c'.CompleteReturned? then Out else Finishing(c')).(barrier := b)
    case (Advance(t), Disabling(w)) =>
      var (b, w') := WaitNext(s.barrier, w, false);
      Move(s, t, if w'.WaitReturned? then Out else Disabling(w')).(barrier := b)
    case (_, _) => s
  }

  function Run(threads: nat, run: seq<Action>): Object {
    if run == [] then Object(Enabled, Fresh(), seq(threads, _ => Out), 0)
    else Do(Run(threads, run[..|run| - 1]), run[|run| - 1])
  }

  // ---- Invariant ----

  /** The thread is between its enter and the end of its leave's access to the state. */
  function InRun(l: Place): int {
    Bit(l.Inside? || l.Leaving?)
  }

  function Completes(l: Place): int {
    Bit(l.Finishing?)
  }

  predicate PlaceOk(active: Active, b: Barrier, l: Place) {
    match l
    case Finishing(c) => active.Disabled? && CompleteOk(b, c) && !c.CompleteReturned?
    case Disabling(w) => active.Disabled? && WaitOk(b, w) && !w.WaitReturned?
    case _ => true
  }

  ghost predicate PlacesOk(active: Active, b: Barrier, threads: seq<Place>) {
    forall t :: 0 <= t < |threads| ==> PlaceOk(active, b, threads[t])
  }

  /** At most one run; the barrier is completed only when there will not be one any more, and a
      disabler that waits has either that behind it or somebody who will complete the barrier. */
  ghost predicate OneRun(s: Object) {
    var running, completing := Sum(s.threads, InRun), Sum(s.threads, Completes);
    && Shape(s.barrier)
    && running + completing <= 1 && 0 <= running && 0 <= completing
    && (s.active.Enabled? ==> running + completing == 0)
    && (s.active.Running? ==> running == 1)
    && (!s.active.Disabled? ==> s.barrier == Fresh())
    && (Satisfied(s.barrier) ==> running + completing == 0)
    && ((exists t :: 0 <= t < |s.threads| && s.threads[t].Disabling?) ==>
          Satisfied(s.barrier) || running + completing == 1)
  }

  ghost predicate Valid(s: Object) {
    OneRun(s) && PlacesOk(s.active, s.barrier, s.threads)
  }

  // ---- Every step keeps it ----

  lemma MoveOne(threads: seq<Place>, t: nat, l: Place)
    requires t < |threads|
    ensures Sum(threads[t := l], InRun) == Sum(threads, InRun) - InRun(threads[t]) + InRun(l)
    ensures Sum(threads[t := l], Completes) == Sum(threads, Completes) - Completes(threads[t]) + Completes(l)
  {
    SumUpdate(threads, t, l, InRun);
    SumUpdate(threads, t, l, Completes);
  }

  lemma SeenBy(threads: seq<Place>, t: nat)
    requires t < |threads|
    ensures InRun(threads[t]) <= Sum(threads, InRun) && Completes(threads[t]) <= Sum(threads, Completes)
  {
    SumAtLeast(threads, t, InRun);
    SumAtLeast(threads, t, Completes);
  }

  lemma DoKeeps(s: Object, e: Action)
    requires Valid(s)
    ensures Valid(Do(s, e)) && Evolves(s.barrier, Do(s, e).barrier)
  {
    if e.t < |s.threads| {
      var s', l := Do(s, e), s.threads[e.t];
      assert PlaceOk(s.active, s.barrier, l);
      MoveOne(s.threads, e.t, s'.threads[e.t]);
      SeenBy(s.threads, e.t);
      BarrierMoves(s, e);
      hide Sum;
      DisablersStay(s, s', e.t);
      hide PlaceOk;
      PlacesStay(s, s', e.t);
    }
  }

  /** What the step does to the barrier. */
  lemma BarrierMoves(s: Object, e: Action)
    requires e.t < |s.threads| && PlaceOk(s.active, s.barrier, s.threads[e.t]) && Shape(s.barrier)
    requires InRun(s.threads[e.t]) == 1 ==> !s.active.Enabled?
    ensures var s' := Do(s, e);
            && Evolves(s.barrier, s'.barrier) && s'.threads == s.threads[e.t := s'.threads[e.t]]
            && PlaceOk(s'.active, s'.barrier, s'.threads[e.t])
            && (s.active.Disabled? ==> s'.active.Disabled?)
            && (s'.barrier == s.barrier || s.threads[e.t].Finishing? || s.threads[e.t].Disabling?)
            && (Satisfied(s'.barrier) && !Satisfied(s.barrier) ==> s.threads[e.t].Finishing? && s'.threads[e.t].Out?)
            && (s.threads[e.t].Finishing? && s'.threads[e.t].Out? ==> Satisfied(s'.barrier))
  {
    if e.Advance? && s.threads[e.t].Finishing? {
      CompleteEvolves(s.barrier, s.threads[e.t].c);
    } else if e.Advance? && s.threads[e.t].Disabling? {
      WaitEvolves(s.barrier, s.threads[e.t].w, false);
    }
  }

  lemma DisablersStay(s: Object, s': Object, t: nat)
    requires t < |s.threads| && |s'.threads| == |s.threads| && s'.threads == s.threads[t := s'.threads[t]]
    ensures (exists u :: 0 <= u < |s'.threads| && s'.threads[u].Disabling?) && !s'.threads[t].Disabling? ==>
              exists u :: 0 <= u < |s.threads| && s.threads[u].Disabling?
  {
    if u :| 0 <= u < |s'.threads| && s'.threads[u].Disabling? && u != t {
      assert s.threads[u].Disabling?;
    }
  }

  lemma PlacesStay(s: Object, s': Object, t: nat)
    requires t < |s.threads| && |s'.threads| == |s.threads| && s'.threads == s.threads[t := s'.threads[t]]
    requires PlacesOk(s.active, s.barrier, s.threads) && PlaceOk(s'.active, s'.barrier, s'.threads[t])
    requires Evolves(s.barrier, s'.barrier) && (s.active.Disabled? ==> s'.active.Disabled?)
    ensures PlacesOk(s'.active, s'.barrier, s'.threads)
  {
    forall u | 0 <= u < |s'.threads| ensures PlaceOk(s'.active, s'.barrier, s'.threads[u]) {
      assert PlaceOk(s.active, s.barrier, s.threads[u]);
    }
  }

  lemma {:induction false} EveryRunIsValid(threads: nat, run: seq<Action>)
    ensures Valid(Run(threads, run)) && |Run(threads, run).threads| == threads
  {
    if run == [] {
      SumZero(Run(threads, run).threads, InRun);
      SumZero(Run(threads, run).threads, Completes);
    } else {
      EveryRunIsValid(threads, run[..|run| - 1]);
      DoKeeps(Run(threads, run[..|run| - 1]), run[|run| - 1]);
    }
  }

  // ---- What disabling guarantees ----

  /** At no time are two runs active. */
  lemma RunsExclude(threads: nat, run: seq<Action>, t: nat, u: nat)
    requires t < |Run(threads, run).threads| && u < |Run(threads, run).threads| && t != u
    requires Run(threads, run).threads[t].Inside?
    ensures !Run(threads, run).threads[u].Inside?
  {
    EveryRunIsValid(threads, run);
    SumAtLeastTwo(Run(threads, run).threads, t, u, InRun);
  }

  /** Whether some thread called disable in this run. */
  predicate EverDisabled(threads: nat, run: seq<Action>) {
    run != []
    && (EverDisabled(threads, run[..|run| - 1])
        || CallsDisable(Run(threads, run[..|run| - 1]), run[|run| - 1]))
  }

  predicate CallsDisable(s: Object, e: Action) {
    e.Disable? && e.t < |s.threads| && (s.threads[e.t].Out? || s.threads[e.t].Inside?)
  }

  lemma {:induction false} DisabledExactly(threads: nat, run: seq<Action>)
    ensures Run(threads, run).active.Disabled? <==> EverDisabled(threads, run)
  {
    if run != [] {
      DisabledExactly(threads, run[..|run| - 1]);
    }
  }

  /** In every run an enter succeeds exactly when nobody ever called disable and no run is active or
      about to leave; it starts the one run then, and changes nothing otherwise. */
  lemma EnterSucceedsExactly(threads: nat, run: seq<Action>, t: nat)
    requires t < |Run(threads, run).threads| && Run(threads, run).threads[t].Out?
    ensures var s := Run(threads, run);
            var s' := Do(s, Enter(t));
            var succeeds := !EverDisabled(threads, run)
                            && forall u :: 0 <= u < |s.threads| ==> !s.threads[u].Inside? && !s.threads[u].Leaving?;
            && (s'.threads[t].Inside? <==> succeeds)
            && s'.entries == s.entries + Bit(succeeds)
            && (!succeeds ==> s' == s)
  {
    EveryRunIsValid(threads, run);
    DisabledExactly(threads, run);
    var s := Run(threads, run);
    if u :| 0 <= u < |s.threads| && (s.threads[u].Inside? || s.threads[u].Leaving?) {
      SeenBy(s.threads, u);
    } else {
      SumZero(s.threads, InRun);
    }
  }

  /** After any disable no enter succeeds ever again. */
  lemma {:induction false} DisabledForGood(threads: nat, run: seq<Action>, more: seq<Action>)
    requires Run(threads, run).active.Disabled?
    ensures Run(threads, run + more).active.Disabled? && Run(threads, run + more).entries == Run(threads, run).entries
  {
    if more == [] {
      assert run + more == run;
    } else {
      var n := |more| - 1;
      assert (run + more)[..|run + more| - 1] == run + more[..n];
      DisabledForGood(threads, run, more[..n]);
    }
  }

  /** A disable from outside that returns in one step returns while a run is active exactly when its
      exchange sees "disabled" during that run; one that sees "enabled" returns with no run active. */
  lemma DisableReturnsAtOnceExactly(threads: nat, run: seq<Action>, t: nat)
    requires t < |Run(threads, run).threads| && Run(threads, run).threads[t].Out?
    ensures var s := Run(threads, run);
            var s' := Do(s, Disable(t));
            var active := exists u :: 0 <= u < |s.threads| && s.threads[u].Inside?;
            && s'.active.Disabled?
            && (s'.threads[t].Out? <==> !s.active.Running?)
            && (s.active.Enabled? ==> !active)
            && (s'.threads[t].Out? && active <==> s.active.Disabled? && active)
  {
    EveryRunIsValid(threads, run);
    var s := Run(threads, run);
    if u :| 0 <= u < |s.threads| && s.threads[u].Inside? {
      SeenBy(s.threads, u);
    }
  }

  /** A disable that waits returns only after the run has left, and after the leave has completed
      the barrier; no run is active then, and none will be. */
  lemma DisableWaitsForTheRun(threads: nat, run: seq<Action>, t: nat, u: nat)
    requires t < |Run(threads, run).threads| && u < |Run(threads, run).threads|
    requires Run(threads, run).threads[t].Disabling? && Do(Run(threads, run), Advance(t)).threads[t].Out?
    ensures Run(threads, run).active.Disabled? && InRun(Run(threads, run).threads[u]) == 0
    ensures Satisfied(Run(threads, run).barrier)
  {
    EveryRunIsValid(threads, run);
    var s := Run(threads, run);
    assert PlaceOk(s.active, s.barrier, s.threads[t]);
    WaitEvolves(s.barrier, s.threads[t].w, false);
    SeenBy(s.threads, u);
  }

  /** It never waits in vain: while it waits, some thread is in the run or is completing the barrier,
      or its flag is set and its next step returns. */
  lemma WaitingDisableIsReleased(threads: nat, run: seq<Action>, t: nat)
    requires t < |Run(threads, run).threads| && Run(threads, run).threads[t].Disabling?
    ensures var s := Run(threads, run);
            || Sum(s.threads, InRun) + Sum(s.threads, Completes) == 1
            || (Satisfied(s.barrier) && (s.threads[t].w.WaitSleep? ==> Do(s, Advance(t)).threads[t].Out?))
  {
    EveryRunIsValid(threads, run);
    var s := Run(threads, run);
    assert PlaceOk(s.active, s.barrier, s.threads[t]);
    WaitEvolves(s.barrier, s.threads[t].w, false);
  }

  /** The leave of a run that was disabled meanwhile goes on to complete the barrier, and its last
      step does. */
  lemma LeaveCompletes(threads: nat, run: seq<Action>, t: nat)
    requires t < |Run(threads, run).threads|
    ensures var s := Run(threads, run);
            var s' := Do(s, Advance(t));
            && (s.threads[t].Leaving? ==> if s.active.Disabled? then s'.threads[t].Finishing?
                else s'.threads[t].Out? && s'.active.Enabled?)
            && (s.threads[t].Finishing? && s'.threads[t].Out? ==> Satisfied(s'.barrier))
            && (s.threads[t].Finishing? && !s'.threads[t].Out? ==> s'.threads[t] == Finishing(CompleteDone(0)))
  {
    EveryRunIsValid(threads, run);
    var s := Run(threads, run);
    assert PlaceOk(s.active, s.barrier, s.threads[t]);
    SeenBy(s.threads, t);
    BarrierMoves(s, Advance(t));
  }

  function Steps(s: Object, t: nat, n: nat): (s': Object)
    ensures |s'.threads| == |s.threads|
  {
    if n == 0 then s else Do(Steps(s, t, n - 1), Advance(t))
  }

  /** A leave that nobody disturbs, after any run: the thread is out after three steps, and the
      cancelable is enabled again exactly when nobody disabled it, satisfying the barrier otherwise. */
  lemma LeaveAlone(threads: nat, run: seq<Action>, t: nat)
    requires t < |Run(threads, run).threads| && Run(threads, run).threads[t].Inside?
    ensures var s := Run(threads, run);
            var s' := Steps(Do(s, Leave(t)), t, 3);
            && s'.threads == s.threads[t := Out] && s'.entries == s.entries
            && (if EverDisabled(threads, run) then s'.active.Disabled? && Satisfied(s'.barrier)
                else s'.active.Enabled? && s'.barrier == s.barrier)
  {
    EveryRunIsValid(threads, run);
    DisabledExactly(threads, run);
    var s := Run(threads, run);
    SeenBy(s.threads, t);
    hide Run, EverDisabled;
    var s0 := Do(s, Leave(t));
    assert Steps(s0, t, 0) == s0;
    assert Steps(s0, t, 1) == Do(s0, Advance(t));
    assert Steps(s0, t, 2) == Do(Steps(s0, t, 1), Advance(t));
    assert s.threads[t := Out] == s0.threads[t := Out];
  }

  /** How many own steps a leave or a disable is away from its return, not counting those asleep. */
  function StepsLeft(l: Place): nat {
    match l
    case Out => 0
    case Inside => 0
    case Leaving => 3
    case Finishing(c) => CompleteLeft(c)
    case Disabling(w) => WaitLeft(w)
  }

  /** Each step of a leave or of a waiting disable brings it closer to its return, except that the
      disable sleeps exactly until the leave has completed the barrier. */
  lemma OwnStepsAreBounded(threads: nat, run: seq<Action>, t: nat)
    requires t < |Run(threads, run).threads| && !Run(threads, run).threads[t].Out?
    requires !Run(threads, run).threads[t].Inside?
    ensures var s := Run(threads, run);
            var l, l' := s.threads[t], Do(s, Advance(t)).threads[t];
            if l.Disabling? && l.w.WaitSleep? && !Satisfied(s.barrier) then l' == l
            else StepsLeft(l') < StepsLeft(l)
  {
    EveryRunIsValid(threads, run);
    var s := Run(threads, run);
    assert PlaceOk(s.active, s.barrier, s.threads[t]);
  }

  /** What holds of a thread that has disabled from inside its run. */
  predicate Recursive(s: Object, t: nat) {
    && s.active.Disabled? && t < |s.threads|
    && !s.threads[t].Disabling?
    && (s.threads[t].Out? ==> Satisfied(s.barrier))
  }

  lemma RecursiveStep(s: Object, e: Action, t: nat)
    requires Valid(s) && Recursive(s, t)
    ensures Recursive(Do(s, e), t)
    ensures s.threads[t].Inside? && e != Leave(t) ==> Do(s, e).threads[t].Inside?
  {
    hide OneRun;
    DoKeeps(s, e);
    if e.t == t {
      assert PlaceOk(s.active, s.barrier, s.threads[t]);
      RecursiveMoves(s, e);
    }
  }

  lemma RecursiveMoves(s: Object, e: Action)
    requires e.t < |s.threads| && Recursive(s, e.t) && Valid(s)
    ensures Recursive(Do(s, e), e.t)
  {
    assert PlaceOk(s.active, s.barrier, s.threads[e.t]);
    SeenBy(s.threads, e.t);
    BarrierMoves(s, e);
  }

  /** Disabling from inside the run never blocks: whatever all threads do afterwards, the thread stays
      inside until it leaves, never waits for the barrier, and is out of the run only after its leave
      has completed the barrier, so that everybody who waits for this run is released. */
  lemma {:induction false} RecursiveDisableNeverBlocks(threads: nat, run: seq<Action>, more: seq<Action>, t: nat)
    requires t < |Run(threads, run).threads| && Run(threads, run).threads[t].Inside?
    ensures var s := Run(threads, run + [Disable(t)] + more);
            && s.active.Disabled? && t < |s.threads| && !s.threads[t].Disabling?
            && (s.threads[t].Out? ==> Satisfied(s.barrier))
            && (Leave(t) !in more ==> s.threads[t].Inside?)
  {
    var disabled := run + [Disable(t)];
    if more == [] {
      assert disabled + more == disabled;
      OneMore(threads, run, Disable(t));
    } else {
      hide Do, Valid, Satisfied;
      var n := |more| - 1;
      assert more == more[..n] + [more[n]];
      assert disabled + more == disabled + more[..n] + [more[n]];
      RecursiveDisableNeverBlocks(threads, run, more[..n], t);
      EveryRunIsValid(threads, disabled + more[..n]);
      OneMore(threads, disabled + more[..n], more[n]);
      RecursiveStep(Run(threads, disabled + more[..n]), more[n], t);
    }
  }

  lemma OneMore(threads: nat, run: seq<Action>, e: Action)
    ensures Run(threads, run + [e]) == Do(Run(threads, run), e)
  {
    assert (run + [e])[..|run + [e]| - 1] == run;
  }

  /** A run in which a second disable returns while the handler is still active: thread 0 is inside,
      thread 1 waits for it, thread 2 does not. */
  lemma SecondDisableDoesNotWait()
    ensures Run(3, [Enter(0), Disable(1), Disable(2)]).threads == [Inside, Disabling(WaitLoad), Out]
  {
    assert [Enter(0), Disable(1), Disable(2)] == [] + [Enter(0)] + [Disable(1)] + [Disable(2)];
    OneMore(3, [], Enter(0));
    OneMore(3, [] + [Enter(0)], Disable(1));
    OneMore(3, [] + [Enter(0)] + [Disable(1)], Disable(2));
  }

  // ---- The cancelable's methods in place ----

  /** One cancelable; `inside` are the threads that have it in their thread-local set. */
  class Handler {
    var active: Active
    var inside: set<nat>
    const barrier: B.Object

    /** At most one thread is inside, none while it is enabled; the barrier is completed only after
        the last run. */
    ghost predicate Valid()
      reads this, barrier
    {
      && Shape(barrier.Value())
      && (active.Enabled? ==> inside == {} && barrier.Value() == Fresh())
      && (active.Running? ==> (exists t :: inside == {t}) && barrier.Value() == Fresh())
      && (forall t, u :: t in inside && u in inside ==> t == u)
      && (Satisfied(barrier.Value()) ==> inside == {})
    }

    constructor ()
      ensures Valid() && active.Enabled? && inside == {} && fresh(barrier)
    {
      active, inside := Enabled, {};
      barrier := new B.Object();
    }

    method Enter(t: nat) returns (entered: bool)
      requires Valid()
      modifies this
      ensures Valid() && (entered <==> old(active).Enabled?)
      ensures active == (if entered then Running else old(active))
      ensures inside == if entered then {t} else old(inside)
    {
      entered := active.Enabled?;
      if entered {
        active := Running;
        inside := inside + {t};
      }
    }

    method Leave(t: nat)
      requires Valid() && t in inside
      modifies this, barrier
      ensures Valid() && inside == {}
      ensures active == if old(active).Running? then Enabled else Disabled
      ensures Satisfied(barrier.Value()) <==> old(active).Disabled?
    {
      assert inside == {t};
      inside := inside - {t};
      if active.Running? {
        active := Enabled;
      } else {
        assert active.Disabled?;
        barrier.Complete();
      }
    }

    /** Disabling up to the point where it would sleep: it has to exactly when it comes from outside
        and finds a run active; from inside it never does. */
    method Disable(t: nat) returns (sleeps: bool)
      requires Valid()
      modifies this, barrier
      ensures Valid() && active.Disabled? && inside == old(inside)
      ensures sleeps <==> old(active).Running? && t !in inside
      ensures !sleeps && t !in inside && inside != {} ==> old(active).Disabled?
    {
      sleeps := false;
      if t in inside {
        active := Disabled;
      } else {
        var current := active;
        active := Disabled;
        if current.Running? {
          var w := barrier.Wait();
          sleeps := w.WaitSleep?;
        }
      }
    }
  }
}

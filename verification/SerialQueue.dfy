/** The operation queue behind serial queues, its drains and its lifetime.

    Every critical section of the queue's lock is one step; the lock is released while a job runs,
    so anything may happen between taking a job and removing it. Drains are executed by the thread
    pool, each once, in any order. The queue registers with the manager and unregisters through
    its own last job. */
module SerialQueue {
  import opened Threads
  import Manager

  const MAX_OPS_PER_DRAIN: nat := 10

  /** This queue's name at the manager. */
  const SELF: nat := 0

  datatype Job = Work(id: nat) | DetachJob

  /** `ran` counts the jobs that this drain has taken. */
  datatype Drain =
    | Queued
    | Running(remaining: nat, ran: nat)
    | Ran(remaining: nat, ran: nat)
    | Done(ran: nat)

  datatype Phase = Created | Attached | Detached(before: nat, final: bool)

  /** `jobs` holds None in front while that job is being executed. `accepted`, `started` and
      `finished` are history. `stranded` says that a job was put into the empty list while the
      queue was not attached, `late` that a job was added after detaching. `Detached` remembers
      how many jobs were accepted before, and whether a final job was queued for unregistering. */
  datatype State = State(
    jobs: seq<Option<Job>>, activeDrain: bool, phase: Phase, drains: seq<Drain>, manager: Manager.State,
    accepted: seq<Job>, started: seq<Job>, finished: nat, stranded: bool, late: bool, destroyed: bool)

  datatype Event =
    | Attach
    | Detach
    | Async(id: nat)
    | DrainStep(d: nat)
    | PostOther(r: Manager.Request)
    | SwapRequests
    | HandleRequest
    | Destroy

  function Min(a: nat, b: nat): nat {
    if a <= b then a else b
  }

  function Notify(s: State): State {
    s.(drains := s.drains + [Queued])
  }

  function AsyncUnsafe(s: State, job: Job): State {
    var s' := s.(jobs := s.jobs + [Some(job)], accepted := s.accepted + [job]);
    if s.jobs != [] then s'
    else if s.phase.Attached? then Notify(s')
    else s'.(stranded := true)
  }

  function At(s: State, d: nat, drain: Drain): State
    requires d < |s.drains|
  {
    s.(drains := s.drains[d := drain])
  }

  /** The head of the drain loop, with the lock held: take the front job or leave. */
  function TakeOrLeave(s: State, d: nat, remaining: nat, ran: nat): State
    requires d < |s.drains|
  {
    if remaining != 0 && s.jobs != [] && s.jobs[0].Some? then
      At(s, d, Running(remaining, ran + 1)).(
        jobs := s.jobs[0 := None], started := s.started + [s.jobs[0].value], activeDrain := true)
    else
      var s' := At(s, d, Done(ran)).(activeDrain := false);
      if s.jobs != [] then Notify(s') else s'
  }

  function DrainNext(s: State, d: nat): State
    requires d < |s.drains|
  {
    match s.drains[d]
    case Queued => TakeOrLeave(s, d, Min(|s.jobs|, MAX_OPS_PER_DRAIN), 0)
    case Running(remaining, ran) =>
      var s' := At(s, d, Ran(remaining, ran)).(finished := s.finished + 1);
      if s.started != [] && s.started[|s.started| - 1] == DetachJob
      then s'.(manager := Manager.Post(s'.manager, Manager.Unregister(SELF))) else s'
    case Ran(remaining, ran) =>
      if remaining == 0 || s.jobs == [] then s
      else TakeOrLeave(s.(jobs := s.jobs[1..]), d, remaining - 1, ran)
    case Done(_) => s
  }

  /** Nobody holds a reference any more: neither the owner, nor the manager's vector, nor a
      registration that is still to be executed. */
  predicate Released(s: State) {
    && s.phase.Detached? && SELF !in s.manager.queues
    && Manager.Register(SELF) !in s.manager.batch && Manager.Register(SELF) !in s.manager.queued
  }

  function Next(s: State, e: Event): State {
    if s.destroyed && (e.Attach? || e.Detach? || e.Async? || e.Destroy?) then s else
    match e
    case Attach =>
      if s.phase.Created?
      then s.(manager := Manager.Post(s.manager, Manager.Register(SELF)), phase := Attached) else s
    case Detach =>
      if !s.phase.Attached? then s
      else if s.jobs == []
      then s.(manager := Manager.Post(s.manager, Manager.Unregister(SELF)), phase := Detached(|s.accepted|, false))
      else AsyncUnsafe(s, DetachJob).(phase := Detached(|s.accepted|, true))
    case Async(id) => AsyncUnsafe(s, Work(id)).(late := s.late || s.phase.Detached?)
    case DrainStep(d) => if d < |s.drains| then DrainNext(s, d) else s
    case PostOther(r) => if r.q != SELF then s.(manager := Manager.Post(s.manager, r)) else s
    case SwapRequests => s.(manager := Manager.Swap(s.manager))
    case HandleRequest => s.(manager := Manager.Handle(s.manager))
    case Destroy => if Released(s) && !s.activeDrain then s.(destroyed := true) else s
  }

  function Start(): State {
    State([], false, Created, [], Manager.State([], [], [], []), [], [], 0, false, false, false)
  }

  function Exec(run: seq<Event>): State {
    if run == [] then Start() else Next(Exec(run[..|run| - 1]), run[|run| - 1])
  }

  // ---- Invariant ----

  function Live(d: Drain): int {
    Bit(!d.Done?)
  }

  function Working(d: Drain): int {
    Bit(d.Running? || d.Ran?)
  }

  function RanNow(d: Drain): int {
    Bit(d.Ran?)
  }

  /** The list holds the accepted jobs that have not finished, with a hole for one that is executed;
      the started jobs are the accepted ones up to there. */
  ghost predicate InOrder(jobs: seq<Option<Job>>, activeDrain: bool, accepted: seq<Job>, started: seq<Job>) {
    var base := |accepted| - |jobs|;
    && base >= 0 && (activeDrain ==> jobs != [])
    && (forall i :: Bit(activeDrain) <= i < |jobs| ==> jobs[i] == Some(accepted[base + i]))
    && (activeDrain ==> jobs[0] == None)
    && started == accepted[..base + Bit(activeDrain)]
  }

  ghost predicate DrainsOk(jobs: seq<Option<Job>>, drains: seq<Drain>) {
    forall d :: 0 <= d < |drains| ==> DrainOk(jobs, drains[d])
  }

  predicate DrainOk(jobs: seq<Option<Job>>, d: Drain) {
    match d
    case Queued => true
    case Running(remaining, ran) => 0 < remaining <= |jobs| && 0 < ran && remaining + ran <= MAX_OPS_PER_DRAIN + 1
    case Ran(remaining, ran) => 0 < remaining <= |jobs| && 0 < ran && remaining + ran <= MAX_OPS_PER_DRAIN + 1
    case Done(ran) => ran <= MAX_OPS_PER_DRAIN
  }

  ghost predicate OneDrain(s: State) {
    && Sum(s.drains, Live) == Bit(s.jobs != [] && !s.stranded)
    && Sum(s.drains, Working) == Bit(s.activeDrain)
    && s.finished == |s.started| - Bit(s.activeDrain) + Sum(s.drains, RanNow)
    && 0 <= Sum(s.drains, RanNow) <= Bit(s.activeDrain)
    && (s.stranded ==> s.jobs != [])
  }

  /** The detach job is the first job accepted after detaching, if there is one. */
  ghost predicate PhaseOk(phase: Phase, accepted: seq<Job>, finished: nat, late: bool) {
    match phase
    case Detached(before, final) =>
      && before <= |accepted|
      && (forall i :: 0 <= i < |accepted| ==> (accepted[i] == DetachJob <==> final && i == before))
      && (if final then before < |accepted| else before <= finished)
      && (!late ==> |accepted| == before + Bit(final))
    case _ => !late && DetachJob !in accepted
  }

  /** The queue asks to be unregistered when it is empty at the time of detaching, or in its detach job. */
  predicate AsksToLeave(phase: Phase, finished: nat) {
    phase.Detached? && (phase.final ==> finished > phase.before)
  }

  ghost predicate Requests(posted: seq<Manager.Request>, phase: Phase, finished: nat) {
    && multiset(posted)[Manager.Register(SELF)] == Bit(!phase.Created?)
    && multiset(posted)[Manager.Unregister(SELF)] == Bit(AsksToLeave(phase, finished))
    && (forall j :: 0 <= j < |posted| && posted[j] == Manager.Unregister(SELF) ==>
        Manager.Register(SELF) in posted[..j])
  }

  ghost predicate Inv(s: State) {
    && InOrder(s.jobs, s.activeDrain, s.accepted, s.started)
    && DrainsOk(s.jobs, s.drains) && OneDrain(s)
    && PhaseOk(s.phase, s.accepted, s.finished, s.late)
    && Manager.Fifo(s.manager) && Requests(s.manager.posted, s.phase, s.finished)
    && (s.destroyed ==> s.phase.Detached? && (s.late || s.jobs == []))
  }

  // ---- Every step keeps it ----

  lemma MoveDrain(drains: seq<Drain>, d: nat, drain: Drain)
    requires d < |drains|
    ensures Sum(drains[d := drain], Live) == Sum(drains, Live) - Live(drains[d]) + Live(drain)
    ensures Sum(drains[d := drain], Working) == Sum(drains, Working) - Working(drains[d]) + Working(drain)
    ensures Sum(drains[d := drain], RanNow) == Sum(drains, RanNow) - RanNow(drains[d]) + RanNow(drain)
  {
    SumUpdate(drains, d, drain, Live);
    SumUpdate(drains, d, drain, Working);
    SumUpdate(drains, d, drain, RanNow);
  }

  lemma AddDrain(drains: seq<Drain>)
    ensures Sum(drains + [Queued], Live) == Sum(drains, Live) + 1
    ensures Sum(drains + [Queued], Working) == Sum(drains, Working)
    ensures Sum(drains + [Queued], RanNow) == Sum(drains, RanNow)
  {
    SumAppend(drains, Queued, Live);
    SumAppend(drains, Queued, Working);
    SumAppend(drains, Queued, RanNow);
  }

  /** A drain that is not done is the only one. */
  lemma OnlyDrain(s: State, d: nat)
    requires OneDrain(s) && d < |s.drains| && !s.drains[d].Done?
    ensures forall e :: 0 <= e < |s.drains| && e != d ==> s.drains[e].Done?
    ensures s.jobs != [] && !s.stranded && s.activeDrain == (Working(s.drains[d]) == 1)
    ensures Sum(s.drains, RanNow) == RanNow(s.drains[d])
  {
    forall e | 0 <= e < |s.drains| && e != d ensures s.drains[e].Done? {
      SumAtLeastTwo(s.drains, d, e, Live);
    }
    SumAtLeast(s.drains, d, Live);
    MoveDrain(s.drains, d, Done(0));
    var rest := s.drains[d := Done(0)];
    SumZero(rest, Working);
    SumZero(rest, RanNow);
  }

  /** A job at the end of the list. */
  lemma PushInOrder(jobs: seq<Option<Job>>, activeDrain: bool, accepted: seq<Job>, started: seq<Job>, job: Job)
    requires InOrder(jobs, activeDrain, accepted, started)
    ensures InOrder(jobs + [Some(job)], activeDrain, accepted + [job], started)
  {
  }

  lemma TakeInOrder(jobs: seq<Option<Job>>, accepted: seq<Job>, started: seq<Job>)
    requires InOrder(jobs, false, accepted, started) && jobs != []
    ensures jobs[0].Some? && InOrder(jobs[0 := None], true, accepted, started + [jobs[0].value])
  {
  }

  lemma PopInOrder(jobs: seq<Option<Job>>, accepted: seq<Job>, started: seq<Job>)
    requires InOrder(jobs, true, accepted, started)
    ensures jobs != [] && InOrder(jobs[1..], false, accepted, started)
  {
  }

  lemma AsyncKeeps(s: State, job: Job)
    requires InOrder(s.jobs, s.activeDrain, s.accepted, s.started) && DrainsOk(s.jobs, s.drains) && OneDrain(s)
    ensures var s' := AsyncUnsafe(s, job);
            && InOrder(s'.jobs, s'.activeDrain, s'.accepted, s'.started) && DrainsOk(s'.jobs, s'.drains) && OneDrain(s')
  {
    hide InOrder;
    PushInOrder(s.jobs, s.activeDrain, s.accepted, s.started, job);
    AddDrain(s.drains);
    hide Sum;
    forall d | 0 <= d < |s.drains| ensures DrainOk(s.jobs + [Some(job)], s.drains[d]) {
      assert DrainOk(s.jobs, s.drains[d]);
    }
  }

  lemma {:induction false} CountAppend<T>(log: seq<T>, r: T)
    ensures multiset(log + [r]) == multiset(log)[r := multiset(log)[r] + 1]
  {
  }

  lemma PostRequests(posted: seq<Manager.Request>, r: Manager.Request, phase: Phase, phase': Phase, finished: nat,
                     finished': nat)
    requires Requests(posted, phase, finished)
    requires Bit(!phase'.Created?) == Bit(!phase.Created?) + Bit(r == Manager.Register(SELF))
    requires Bit(AsksToLeave(phase', finished'))
             == Bit(AsksToLeave(phase, finished)) + Bit(r == Manager.Unregister(SELF))
    requires r == Manager.Unregister(SELF) ==> !phase.Created?
    ensures Requests(posted + [r], phase', finished')
  {
    CountAppend(posted, r);
    var posted' := posted + [r];
    forall j | 0 <= j < |posted'| && posted'[j] == Manager.Unregister(SELF)
      ensures Manager.Register(SELF) in posted'[..j]
    {
      assert posted'[..j] == posted[..j];
      if j == |posted| {
        assert posted[..j] == posted;
        assert multiset(posted)[Manager.Register(SELF)] == 1;
      }
    }
  }

  lemma AttachKeeps(s: State)
    requires Inv(s) && s.phase.Created? && !s.destroyed
    ensures Inv(Next(s, Attach))
  {
    hide InOrder, DrainsOk, Manager.Fifo;
    Manager.PostKeeps(s.manager, Manager.Register(SELF));
    PostRequests(s.manager.posted, Manager.Register(SELF), s.phase, Attached, s.finished, s.finished);
  }

  lemma DetachKeeps(s: State)
    requires Inv(s) && s.phase.Attached? && !s.destroyed
    ensures Inv(Next(s, Detach))
  {
    if s.jobs == [] {
      DetachEmpty(s);
    } else {
      DetachLater(s);
    }
  }

  lemma DetachEmpty(s: State)
    requires Inv(s) && s.phase.Attached? && !s.destroyed && s.jobs == []
    ensures Inv(Next(s, Detach))
  {
    hide DrainsOk, Manager.Fifo, OneDrain, InOrder, Requests, PhaseOk, Sum;
    var phase := Detached(|s.accepted|, false);
    EmptyIsFinished(s);
    NoDetachJob(s.accepted, s.finished, s.late);
    Manager.PostKeeps(s.manager, Manager.Unregister(SELF));
    PostRequests(s.manager.posted, Manager.Unregister(SELF), s.phase, phase, s.finished, s.finished);
    OneDrainFrame(s, s.(manager := Manager.Post(s.manager, Manager.Unregister(SELF)), phase := phase));
    hide AsksToLeave, AsyncUnsafe, Released;
  }

  lemma NoDetachJob(accepted: seq<Job>, finished: nat, late: bool)
    requires PhaseOk(Attached, accepted, finished, late)
    ensures |accepted| <= finished ==> PhaseOk(Detached(|accepted|, false), accepted, finished, late)
  {
  }

  lemma DetachLater(s: State)
    requires Inv(s) && s.phase.Attached? && !s.destroyed && s.jobs != []
    ensures Inv(Next(s, Detach))
  {
    hide DrainsOk, Manager.Fifo, OneDrain, InOrder, Sum;
    FinishedIsAccepted(s);
    AsyncKeeps(s, DetachJob);
    OneDrainFrame(AsyncUnsafe(s, DetachJob), Next(s, Detach));
  }

  /** What is not in the list any more has finished. */
  lemma FinishedIsAccepted(s: State)
    requires InOrder(s.jobs, s.activeDrain, s.accepted, s.started) && OneDrain(s)
    ensures |s.accepted| - |s.jobs| <= s.finished <= |s.accepted|
  {
  }

  lemma EmptyIsFinished(s: State)
    requires InOrder(s.jobs, s.activeDrain, s.accepted, s.started) && OneDrain(s) && s.jobs == []
    ensures s.finished == |s.accepted| == |s.started| && s.started == s.accepted
  {
  }

  lemma TakeOrLeaveKeeps(s: State, d: nat, remaining: nat, ran: nat)
    requires d < |s.drains| && InOrder(s.jobs, false, s.accepted, s.started)
    requires forall e :: 0 <= e < |s.drains| && e != d ==> s.drains[e].Done? && DrainOk(s.jobs, s.drains[e])
    requires remaining <= |s.jobs| && remaining + ran <= MAX_OPS_PER_DRAIN && !s.stranded && s.finished == |s.started|
    ensures var s' := TakeOrLeave(s, d, remaining, ran);
            && InOrder(s'.jobs, s'.activeDrain, s'.accepted, s'.started) && DrainsOk(s'.jobs, s'.drains) && OneDrain(s')
            && s'.manager == s.manager && s'.accepted == s.accepted && s'.finished == s.finished
            && s'.phase == s.phase && s'.late == s.late && s'.destroyed == s.destroyed
  {
    hide InOrder, DrainsOk, OneDrain;
    if remaining != 0 {
      TakeInOrder(s.jobs, s.accepted, s.started);
    }
    TakeOrLeaveDrains(s, d, remaining, ran);
  }

  /** Every other drain is done: the sums are this one's weights. */
  lemma OnlyWeights(drains: seq<Drain>, d: nat, drain: Drain)
    requires d < |drains| && forall e :: 0 <= e < |drains| && e != d ==> drains[e].Done?
    ensures Sum(drains[d := drain], Live) == Live(drain)
    ensures Sum(drains[d := drain], Working) == Working(drain)
    ensures Sum(drains[d := drain], RanNow) == RanNow(drain)
  {
    var rest := drains[d := Done(0)];
    SumZero(rest, Live);
    SumZero(rest, Working);
    SumZero(rest, RanNow);
    MoveDrain(rest, d, drain);
    assert rest[d := drain] == drains[d := drain];
  }

  lemma TakeOrLeaveDrains(s: State, d: nat, remaining: nat, ran: nat)
    requires d < |s.drains| && remaining <= |s.jobs| && (remaining != 0 ==> s.jobs[0].Some?)
    requires forall e :: 0 <= e < |s.drains| && e != d ==> s.drains[e].Done? && DrainOk(s.jobs, s.drains[e])
    requires remaining + ran <= MAX_OPS_PER_DRAIN && !s.stranded && s.finished == |s.started|
    ensures var s' := TakeOrLeave(s, d, remaining, ran); DrainsOk(s'.jobs, s'.drains) && OneDrain(s')
  {
    hide Sum;
    var s' := TakeOrLeave(s, d, remaining, ran);
    var drain := if remaining != 0 then Running(remaining, ran + 1) else Done(ran);
    var drains := s.drains[d := drain];
    OnlyWeights(s.drains, d, drain);
    AddDrain(drains);
    assert s'.drains == drains || s'.drains == drains + [Queued];
    forall e | 0 <= e < |s'.drains| ensures DrainOk(s'.jobs, s'.drains[e]) {
      if e < |s.drains| && e != d {
        assert DrainOk(s.jobs, s.drains[e]);
      }
    }
    assert s'.jobs == [] ==> s.jobs == [];
  }

  lemma DrainBegins(s: State, d: nat)
    requires Inv(s) && d < |s.drains| && s.drains[d].Queued?
    ensures Inv(DrainNext(s, d))
  {
    hide Requests, Manager.Fifo, PhaseOk;
    OnlyDrain(s, d);
    assert !s.activeDrain && s.finished == |s.started|;
    TakeOrLeaveKeeps(s, d, Min(|s.jobs|, MAX_OPS_PER_DRAIN), 0);
    assert s.destroyed ==> s.late;
  }

  lemma DrainContinues(s: State, d: nat)
    requires Inv(s) && d < |s.drains| && s.drains[d].Ran?
    ensures Inv(DrainNext(s, d))
  {
    hide Requests, Manager.Fifo, PhaseOk;
    OnlyDrain(s, d);
    assert DrainOk(s.jobs, s.drains[d]);
    PopInOrder(s.jobs, s.accepted, s.started);
    var s1 := s.(jobs := s.jobs[1..]);
    forall e | 0 <= e < |s.drains| && e != d ensures s.drains[e].Done? && DrainOk(s1.jobs, s.drains[e]) {
      assert DrainOk(s.jobs, s.drains[e]);
    }
    TakeOrLeaveKeeps(s1, d, s.drains[d].remaining - 1, s.drains[d].ran);
  }

  lemma JobFinishes(s: State, d: nat)
    requires Inv(s) && d < |s.drains| && s.drains[d].Running?
    ensures Inv(DrainNext(s, d))
  {
    hide Manager.Fifo, Requests, PhaseOk, InOrder;
    OnlyDrain(s, d);
    var s' := DrainNext(s, d);
    MoveDrain(s.drains, d, s'.drains[d]);
    assert DrainOk(s.jobs, s.drains[d]);
    hide Sum;
    JobRequests(s, s');
  }

  /** The job that finishes is the accepted job with the number of finished jobs; only the detach job
      posts a request. */
  lemma JobRequests(s: State, s': State)
    requires InOrder(s.jobs, s.activeDrain, s.accepted, s.started) && s.activeDrain && s.finished == |s.started| - 1
    requires PhaseOk(s.phase, s.accepted, s.finished, s.late) && Manager.Fifo(s.manager)
    requires Requests(s.manager.posted, s.phase, s.finished)
    requires s'.finished == s.finished + 1
    requires s'.manager == if s.started[|s.started| - 1] == DetachJob
        then Manager.Post(s.manager, Manager.Unregister(SELF)) else s.manager
    ensures Manager.Fifo(s'.manager) && Requests(s'.manager.posted, s.phase, s'.finished)
    ensures PhaseOk(s.phase, s.accepted, s'.finished, s.late)
  {
    hide Manager.Fifo;
    assert s.started[s.finished] == s.accepted[s.finished];
    if s.accepted[s.finished] == DetachJob {
      assert DetachJob in s.accepted;
      Manager.PostKeeps(s.manager, Manager.Unregister(SELF));
      PostRequests(s.manager.posted, Manager.Unregister(SELF), s.phase, s.phase, s.finished, s'.finished);
    }
  }

  lemma AsyncEventKeeps(s: State, id: nat)
    requires Inv(s) && !s.destroyed
    ensures Inv(Next(s, Async(id)))
  {
    hide Manager.Fifo, Requests, InOrder, DrainsOk, OneDrain;
    AsyncKeeps(s, Work(id));
    WorkKeepsPhase(s.phase, s.accepted, s.finished, s.late, id);
    OneDrainFrame(AsyncUnsafe(s, Work(id)), Next(s, Async(id)));
  }

  lemma OneDrainFrame(s: State, s': State)
    requires OneDrain(s) && s'.drains == s.drains && s'.jobs == s.jobs && s'.stranded == s.stranded
    requires s'.activeDrain == s.activeDrain && s'.finished == s.finished && s'.started == s.started
    ensures OneDrain(s')
  {
  }

  lemma WorkKeepsPhase(phase: Phase, accepted: seq<Job>, finished: nat, late: bool, id: nat)
    requires PhaseOk(phase, accepted, finished, late)
    ensures PhaseOk(phase, accepted + [Work(id)], finished, late || phase.Detached?)
  {
    var accepted' := accepted + [Work(id)];
    assert forall i :: 0 <= i < |accepted| ==> accepted'[i] == accepted[i];
    assert accepted'[|accepted|] == Work(id);
    if !phase.Detached? {
      assert DetachJob !in accepted';
    }
  }

  lemma PostOtherKeeps(s: State, r: Manager.Request)
    requires Inv(s) && r.q != SELF
    ensures Inv(Next(s, PostOther(r)))
  {
    hide InOrder, DrainsOk, PhaseOk, Manager.Fifo, Requests;
    Manager.PostKeeps(s.manager, r);
    PostRequests(s.manager.posted, r, s.phase, s.phase, s.finished, s.finished);
    OneDrainFrame(s, Next(s, PostOther(r)));
  }

  lemma ManagerStepKeeps(s: State, e: Event)
    requires Inv(s) && (e.SwapRequests? || e.HandleRequest?)
    ensures Inv(Next(s, e))
  {
    hide InOrder, DrainsOk, PhaseOk, Manager.Fifo, Requests, OneDrain;
    if e.SwapRequests? {
      Manager.SwapKeeps(s.manager);
    } else {
      Manager.HandleKeeps(s.manager);
    }
    OneDrainFrame(s, Next(s, e));
  }

  /** Nobody holds a reference: the request to unregister was posted and executed. */
  lemma ReleasedMeaning(s: State)
    requires Inv(s) && Released(s)
    ensures Manager.Unregister(SELF) in s.manager.posted[..Manager.Handled(s.manager)]
        && AsksToLeave(s.phase, s.finished)
  {
    hide InOrder, DrainsOk, OneDrain, PhaseOk;
    var posted, h := s.manager.posted, Manager.Handled(s.manager);
    assert Manager.Register(SELF) in multiset(posted);
    var i :| 0 <= i < |posted| && posted[i] == Manager.Register(SELF);
    assert posted == posted[..h] + s.manager.batch + s.manager.queued;
    assert i < h;
    assert posted[..h][i] == Manager.Register(SELF);
    Manager.RegisteredMeaning(posted[..h], SELF);
    assert Manager.Unregister(SELF) in posted[..h][i..];
    assert Manager.Unregister(SELF) in multiset(posted);
  }

  lemma DestroyKeeps(s: State)
    requires Inv(s) && Released(s) && !s.activeDrain && !s.destroyed
    ensures Inv(s.(destroyed := true))
  {
    hide DrainsOk, Manager.Fifo, Requests;
    ReleasedMeaning(s);
  }

  lemma DrainKeeps(s: State, d: nat)
    requires Inv(s) && d < |s.drains|
    ensures Inv(DrainNext(s, d))
  {
    hide Inv;
    match s.drains[d]
    case Queued => DrainBegins(s, d);
    case Running(_, _) => JobFinishes(s, d);
    case Ran(_, _) => DrainContinues(s, d);
    case Done(_) =>
  }

  lemma NextKeeps(s: State, e: Event)
    requires Inv(s)
    ensures Inv(Next(s, e))
  {
    hide Inv;
    if Next(s, e) != s {
      match e
      case Attach => AttachKeeps(s);
      case Detach => DetachKeeps(s);
      case Async(id) => AsyncEventKeeps(s, id);
      case DrainStep(d) => DrainKeeps(s, d);
      case PostOther(r) => PostOtherKeeps(s, r);
      case SwapRequests => ManagerStepKeeps(s, e);
      case HandleRequest => ManagerStepKeeps(s, e);
      case Destroy => DestroyKeeps(s);
    }
  }

  lemma {:induction false} EveryRunKeepsTheInvariant(run: seq<Event>)
    ensures Inv(Exec(run))
  {
    hide Next;
    if run != [] {
      hide Inv;
      EveryRunKeepsTheInvariant(run[..|run| - 1]);
      NextKeeps(Exec(run[..|run| - 1]), run[|run| - 1]);
    }
  }

  // ---- What the queue guarantees ----

  /** Whatever happens while the lock is released: the jobs are started in the order in which they
      were accepted, and at most the last started one is still being executed. */
  lemma JobsRunOneAtATimeInOrder(run: seq<Event>)
    ensures var s := Exec(run);
            && s.started <= s.accepted
            && s.finished <= |s.started| <= s.finished + 1
            && Sum(s.drains, Working) <= 1
  {
    EveryRunKeepsTheInvariant(run);
  }

  /** Between critical sections exactly one drain is queued or running while there are jobs, and none
      otherwise, unless a job was stranded. */
  lemma OneDrainWhileThereAreJobs(run: seq<Event>)
    ensures var s := Exec(run);
            && Sum(s.drains, Live) == (if s.jobs != [] && !s.stranded then 1 else 0)
            && |s.jobs| == |s.accepted| - |s.started| + Sum(s.drains, Working)
  {
    EveryRunKeepsTheInvariant(run);
  }

  function TakenBy(d: Drain): nat {
    match d
    case Queued => 0
    case Running(_, ran) => ran
    case Ran(_, ran) => ran
    case Done(ran) => ran
  }

  /** How many more steps a drain can make. */
  function StepsLeft(d: Drain): nat {
    match d
    case Queued => 2 * MAX_OPS_PER_DRAIN + 1
    case Running(remaining, _) => 2 * remaining
    case Ran(remaining, _) => if remaining == 0 then 0 else 2 * remaining - 1
    case Done(_) => 0
  }

  /** A drain takes at most ten jobs, and each of its steps brings it closer to its end although any
      number of jobs may be added meanwhile; nothing else touches it. */
  lemma DrainsAreBounded(run: seq<Event>, e: Event, d: nat)
    requires d < |Exec(run).drains|
    ensures TakenBy(Exec(run).drains[d]) <= 10
    ensures var s, s' := Exec(run), Next(Exec(run), e);
            && d < |s'.drains|
            && (if e == DrainStep(d) && !s.drains[d].Done? then StepsLeft(s'.drains[d]) < StepsLeft(s.drains[d])
                else s'.drains[d] == s.drains[d])
  {
    EveryRunKeepsTheInvariant(run);
    StepIsCloser(Exec(run), e, d);
  }

  lemma StepIsCloser(s: State, e: Event, d: nat)
    requires Inv(s) && d < |s.drains|
    ensures TakenBy(s.drains[d]) <= MAX_OPS_PER_DRAIN
    ensures var s' := Next(s, e);
            && d < |s'.drains|
            && (if e == DrainStep(d) && !s.drains[d].Done? then StepsLeft(s'.drains[d]) < StepsLeft(s.drains[d])
                else s'.drains[d] == s.drains[d])
  {
    hide Manager.Fifo, Requests, PhaseOk, Sum;
    assert DrainOk(s.jobs, s.drains[d]);
    if e.DrainStep? && e.d < |s.drains| && !s.drains[e.d].Done? {
      OnlyDrain(s, e.d);
      assert DrainOk(s.jobs, s.drains[e.d]);
      hide OneDrain, InOrder, DrainsOk;
      OwnStepIsCloser(s, e.d);
    }
  }

  lemma OwnStepIsCloser(s: State, d: nat)
    requires d < |s.drains| && !s.drains[d].Done? && s.jobs != [] && DrainOk(s.jobs, s.drains[d])
    ensures var s' := DrainNext(s, d);
            && |s.drains| <= |s'.drains| && StepsLeft(s'.drains[d]) < StepsLeft(s.drains[d])
            && forall e :: 0 <= e < |s.drains| && e != d ==> s'.drains[e] == s.drains[e]
  {
    var drain := s.drains[d];
    if drain.Queued? {
      TakenOrLeft(s, d, Min(|s.jobs|, MAX_OPS_PER_DRAIN), 0);
    } else if drain.Ran? {
      TakenOrLeft(s.(jobs := s.jobs[1..]), d, drain.remaining - 1, drain.ran);
    }
    hide TakeOrLeave;
  }

  lemma TakenOrLeft(s: State, d: nat, remaining: nat, ran: nat)
    requires d < |s.drains|
    ensures var s' := TakeOrLeave(s, d, remaining, ran);
            && |s.drains| <= |s'.drains|
            && (s'.drains[d] == Done(ran) || (remaining > 0 && s'.drains[d] == Running(remaining, ran + 1)))
            && forall e :: 0 <= e < |s.drains| && e != d ==> s'.drains[e] == s.drains[e]
  {
  }

  /** Some job of the run was added to the empty list while the queue was not attached. */
  predicate MetEmptyUnattached(run: seq<Event>) {
    run != [] &&
    var s := Exec(run[..|run| - 1]);
    || MetEmptyUnattached(run[..|run| - 1])
    || (run[|run| - 1].Async? && s.jobs == [] && !s.phase.Attached? && !s.destroyed)
  }

  lemma {:induction false} StrandedIsHistory(run: seq<Event>)
    ensures Exec(run).stranded <==> MetEmptyUnattached(run)
  {
    hide Next;
    if run != [] {
      StrandedIsHistory(run[..|run| - 1]);
      StrandedStep(Exec(run[..|run| - 1]), run[|run| - 1]);
    }
  }

  lemma StrandedStep(s: State, e: Event)
    ensures Next(s, e).stranded <==>
              s.stranded || (e.Async? && s.jobs == [] && !s.phase.Attached? && !s.destroyed)
  {
    if e.DrainStep? && e.d < |s.drains| {
      DrainKeepsStranded(s, e.d);
    }
    hide DrainNext;
  }

  lemma DrainKeepsStranded(s: State, d: nat)
    requires d < |s.drains|
    ensures DrainNext(s, d).stranded == s.stranded
  {
  }

  /** Jobs are in the list and no drain is queued or running that could execute them. */
  predicate Stuck(s: State) {
    s.jobs != [] && Sum(s.drains, Live) == 0
  }

  /** Jobs are left without a drain exactly when some job was added to the empty list while the queue
      was not attached: before attaching, or after detaching when everything else was done. */
  lemma StrandedExactly(run: seq<Event>)
    ensures Stuck(Exec(run)) <==> MetEmptyUnattached(run)
  {
    EveryRunKeepsTheInvariant(run);
    StrandedIsHistory(run);
  }

  /** From then on no job is started any more, and it stays so whatever is added. */
  lemma {:induction false} StrandedForever(run: seq<Event>, more: seq<Event>)
    requires Stuck(Exec(run))
    ensures Stuck(Exec(run + more)) && Exec(run + more).started == Exec(run).started
  {
    hide Next, Inv, Stuck;
    if more == [] {
      assert run + more == run;
    } else {
      var n := |more| - 1;
      assert (run + more)[..|run + more| - 1] == run + more[..n];
      StrandedForever(run, more[..n]);
      EveryRunKeepsTheInvariant(run + more[..n]);
      EveryRunKeepsTheInvariant(run + more);
      StuckStep(Exec(run + more[..n]), more[n]);
    }
  }

  lemma StuckStep(s: State, e: Event)
    requires Inv(s) && Stuck(s) && Inv(Next(s, e))
    ensures Stuck(Next(s, e)) && Next(s, e).started == s.started
  {
    assert s.stranded;
    StrandedStep(s, e);
    if e.DrainStep? && e.d < |s.drains| {
      NoDrainLives(s, e.d);
    }
    hide InOrder, DrainsOk, PhaseOk, Requests, DrainNext, Sum;
  }

  lemma NoDrainLives(s: State, d: nat)
    requires Sum(s.drains, Live) == 0 && d < |s.drains|
    ensures s.drains[d].Done? && DrainNext(s, d) == s
  {
    SumAtLeast(s.drains, d, Live);
  }

  /** Jobs are only added between attaching and detaching, as the documentation of the queue asks. */
  predicate OnTime(run: seq<Event>) {
    run != [] ==>
      && OnTime(run[..|run| - 1])
      && (run[|run| - 1].Async? ==> Exec(run[..|run| - 1]).phase.Attached?)
  }

  lemma {:induction false} OnTimeMeaning(run: seq<Event>)
    requires OnTime(run)
    ensures !Exec(run).stranded && !Exec(run).late
  {
    if run != [] {
      var s, e := Exec(run[..|run| - 1]), run[|run| - 1];
      OnTimeMeaning(run[..|run| - 1]);
      StrandedStep(s, e);
      OnTimeStep(s, e);
    }
  }

  lemma OnTimeStep(s: State, e: Event)
    requires e.Async? ==> s.phase.Attached?
    ensures Next(s, e).late == s.late
  {
    if e.DrainStep? && e.d < |s.drains| {
      DrainKeepsLate(s, e.d);
    }
    hide DrainNext;
  }

  lemma DrainKeepsLate(s: State, d: nat)
    requires d < |s.drains|
    ensures DrainNext(s, d).late == s.late
  {
  }

  /** After detaching: the request to unregister is posted at most once, not before every job that
      was accepted earlier has finished, and after the registration; once no drain is left, all of
      them have finished and it was posted. */
  lemma QueueLeavesAfterItsJobs(run: seq<Event>)
    requires OnTime(run) && Exec(run).phase.Detached?
    ensures var s := Exec(run);
            var posted := s.manager.posted;
            && multiset(posted)[Manager.Unregister(SELF)] <= 1
            && (Manager.Unregister(SELF) in posted ==> s.finished >= s.phase.before)
            && (forall j :: 0 <= j < |posted| && posted[j] == Manager.Unregister(SELF) ==>
                Manager.Register(SELF) in posted[..j])
            && (Sum(s.drains, Live) == 0 ==> s.finished == |s.accepted| && Manager.Unregister(SELF) in posted)
  {
    EveryRunKeepsTheInvariant(run);
    OnTimeMeaning(run);
    var s := Exec(run);
    if Manager.Unregister(SELF) in s.manager.posted {
      assert Manager.Unregister(SELF) in multiset(s.manager.posted);
    }
    if Sum(s.drains, Live) == 0 {
      EmptyIsFinished(s);
      assert Manager.Unregister(SELF) in multiset(s.manager.posted);
    }
  }

  /** The manager executes the requests in the order of posting, so when nobody holds the queue any
      more its unregistration was executed after its registration; then no drain waits in the pool
      that would use the queue, and after its destruction none is left at all. */
  lemma NoDrainOutlivesTheQueue(run: seq<Event>)
    requires OnTime(run) && (Released(Exec(run)) || Exec(run).destroyed)
    ensures var s := Exec(run);
            && Manager.Fifo(s.manager) && s.phase.Detached? && Queued !in s.drains && s.finished >= s.phase.before
            && (s.destroyed ==> Sum(s.drains, Live) == 0 && s.finished == |s.accepted|)
            && (Released(s) ==> Manager.Unregister(SELF) in s.manager.posted[..Manager.Handled(s.manager)])
  {
    EveryRunKeepsTheInvariant(run);
    OnTimeMeaning(run);
    LastDrainIsLeaving(Exec(run));
  }

  /** The manager's thread executes n requests. */
  function Handles(n: nat): seq<Event> {
    seq(n, _ => HandleRequest)
  }

  lemma {:induction false} HandlesMeaning(run: seq<Event>, n: nat)
    ensures Exec(run + Handles(n)) == Exec(run).(manager := Manager.HandleSome(Exec(run).manager, n))
    decreases n
  {
    if n == 0 {
      assert run + Handles(0) == run;
    } else {
      assert run + Handles(n) == (run + [HandleRequest]) + Handles(n - 1);
      OneMoreEvent(run, HandleRequest);
      hide Exec;
      HandlesMeaning(run + [HandleRequest], n - 1);
    }
  }

  lemma OneMoreEvent(run: seq<Event>, e: Event)
    ensures Exec(run + [e]) == Next(Exec(run), e)
  {
    assert (run + [e])[..|run + [e]| - 1] == run;
  }

  /** The manager's thread executes everything that was posted. */
  function ManagerCatchesUp(run: seq<Event>): seq<Event> {
    var m := Exec(run).manager;
    run + Handles(|m.batch|) + [SwapRequests] + Handles(|m.queued|)
  }

  /** A detached queue is destroyed in the end: once no drain is left, and the manager's thread has executed
      what was posted, the queue is not registered any more, nobody holds it, and its destruction takes place. */
  lemma DetachedQueueIsDestroyed(run: seq<Event>)
    requires OnTime(run) && Exec(run).phase.Detached? && Sum(Exec(run).drains, Live) == 0
    ensures var s := Exec(ManagerCatchesUp(run));
            SELF !in s.manager.queues && Released(s) && !s.activeDrain && Next(s, Destroy).destroyed
  {
    EveryRunKeepsTheInvariant(run);
    OnTimeMeaning(run);
    var s := Exec(run);
    var m := s.manager;
    var run1 := run + Handles(|m.batch|);
    HandlesMeaning(run, |m.batch|);
    OneMoreEvent(run1, SwapRequests);
    HandlesMeaning(run1 + [SwapRequests], |m.queued|);
    EveryRunKeepsTheInvariant(ManagerCatchesUp(run));
    hide OnTime, Exec, Next, Handles, Manager.HandleSome;
    CaughtUp(s, Exec(ManagerCatchesUp(run)), Exec(run1 + [SwapRequests]), Exec(run1));
  }

  lemma CaughtUp(s: State, s3: State, s2: State, s1: State)
    requires Inv(s) && !s.late && !s.stranded && s.phase.Detached? && Sum(s.drains, Live) == 0 && Inv(s3)
    requires s1 == s.(manager := Manager.HandleSome(s.manager, |s.manager.batch|))
    requires s2 == Next(s1, SwapRequests)
    requires s3 == s2.(manager := Manager.HandleSome(s2.manager, |s.manager.queued|))
    ensures SELF !in s3.manager.queues && Released(s3) && !s3.activeDrain && Next(s3, Destroy).destroyed
  {
    hide InOrder, DrainsOk, OneDrain, PhaseOk, Requests, Manager.HandleSome;
    Manager.EverythingIsExecuted(s.manager);
    LeavesForGood(s3);
  }

  lemma LeavesForGood(s: State)
    requires Inv(s) && !s.late && !s.stranded && s.phase.Detached? && Sum(s.drains, Live) == 0
    requires s.manager.batch == [] && s.manager.queued == []
    ensures SELF !in s.manager.queues && Released(s) && !s.activeDrain && Next(s, Destroy).destroyed
  {
    hide InOrder, DrainsOk, Requests;
    EmptyIsFinished(s);
    assert s.manager.posted[..|s.manager.posted|] == s.manager.posted;
    LeftAtTheManager(s.manager.posted, s.phase, s.finished);
    SumMonotone(s.drains, Working, Live);
  }

  /** One registration and, after it, one unregistration: not registered. */
  lemma LeftAtTheManager(posted: seq<Manager.Request>, phase: Phase, finished: nat)
    requires Requests(posted, phase, finished) && AsksToLeave(phase, finished)
    ensures SELF !in Manager.Registered(posted)
  {
    Manager.RegisteredMeaning(posted, SELF);
    hide Manager.Registered;
    assert multiset(posted)[Manager.Register(SELF)] == 1;
    assert Manager.Unregister(SELF) in multiset(posted);
    var j :| 0 <= j < |posted| && posted[j] == Manager.Unregister(SELF);
    assert Manager.Register(SELF) in posted[..j];
    hide Requests;
    forall i | 0 <= i < |posted| && posted[i] == Manager.Register(SELF)
      ensures Manager.Unregister(SELF) in posted[i..]
    {
      LeavesAfter(posted, i, j);
    }
  }

  /** The only registration is before the unregistration. */
  lemma LeavesAfter(posted: seq<Manager.Request>, i: nat, j: nat)
    requires i < |posted| && posted[i] == Manager.Register(SELF) && multiset(posted)[posted[i]] == 1
    requires j < |posted| && posted[j] == Manager.Unregister(SELF) && Manager.Register(SELF) in posted[..j]
    ensures Manager.Unregister(SELF) in posted[i..]
  {
    var k :| 0 <= k < j && posted[..j][k] == Manager.Register(SELF);
    assert posted[k] == posted[i];
    if i != k {
      PostedTwice(posted, if i < k then i else k, if i < k then k else i);
    } else {
      assert posted[i..][j - i] == Manager.Unregister(SELF);
    }
  }

  lemma PostedTwice(posted: seq<Manager.Request>, i: nat, j: nat)
    requires i < j < |posted| && posted[i] == posted[j]
    ensures multiset(posted)[posted[i]] >= 2
  {
    assert posted == posted[..j] + ([posted[j]] + posted[j + 1..]);
    assert posted[..j][i] == posted[i];
    assert posted[i] in posted[..j];
  }

  lemma LastDrainIsLeaving(s: State)
    requires Inv(s) && !s.late && !s.stranded && (Released(s) || s.destroyed)
    ensures s.phase.Detached? && Queued !in s.drains && s.finished >= s.phase.before
    ensures s.destroyed ==> Sum(s.drains, Live) == 0 && s.finished == |s.accepted|
    ensures Released(s) ==> Manager.Unregister(SELF) in s.manager.posted[..Manager.Handled(s.manager)]
  {
    hide Requests, DrainsOk, Manager.Fifo;
    FinishedIsAccepted(s);
    if Released(s) {
      ReleasedMeaning(s);
    }
    if s.destroyed {
      EmptyIsFinished(s);
    }
    if d :| 0 <= d < |s.drains| && s.drains[d] == Queued {
      OnlyDrain(s, d);
      assert false;
    }
  }

  // ---- The machine's steps, as the methods below make them ----

  /** The head of the drain loop: what the list and the number of remaining rounds are there, although
      the machine joins the end of one round and the begin of the next. */
  predicate AtHead(s: State, d: nat, remaining: nat, jobs: seq<Option<Job>>) {
    && d < |s.drains|
    && match s.drains[d]
       case Queued => jobs == s.jobs && remaining == Min(|jobs|, MAX_OPS_PER_DRAIN)
       case Ran(left, _) => s.jobs != [] && jobs == s.jobs[1..] && left == remaining + 1
       case _ => false
  }

  lemma HeadJobs(s: State, d: nat, remaining: nat, jobs: seq<Option<Job>>)
    requires Inv(s) && AtHead(s, d, remaining, jobs)
    ensures InOrder(jobs, false, s.accepted, s.started) && remaining <= |jobs|
    ensures remaining > 0 ==> jobs[0].Some?
  {
    hide Requests, PhaseOk, Manager.Fifo;
    OnlyDrain(s, d);
    assert DrainOk(s.jobs, s.drains[d]);
    hide OneDrain, DrainsOk;
    if s.drains[d].Ran? {
      PopInOrder(s.jobs, s.accepted, s.started);
    }
    hide Min;
  }

  lemma DrainTakes(s: State, d: nat, remaining: nat, jobs: seq<Option<Job>>)
    requires Inv(s) && AtHead(s, d, remaining, jobs) && remaining > 0
    ensures jobs != [] && jobs[0].Some?
    ensures var s' := DrainNext(s, d);
            && |s'.drains| == |s.drains| && s'.drains[d].Running? && s'.drains[d].remaining == remaining
            && s'.jobs == jobs[0 := None] && s'.activeDrain && s'.started == s.started + [jobs[0].value]
            && s'.manager == s.manager && s'.phase == s.phase && s'.destroyed == s.destroyed
  {
    HeadJobs(s, d, remaining, jobs);
    hide Inv, InOrder;
  }

  lemma DrainLeaves(s: State, d: nat, jobs: seq<Option<Job>>)
    requires Inv(s) && AtHead(s, d, 0, jobs)
    ensures var s' := DrainNext(s, d);
            && |s'.drains| == |s.drains| + Bit(jobs != []) && s'.drains[d].Done?
            && s'.jobs == jobs && !s'.activeDrain && s'.started == s.started
            && s'.manager == s.manager && s'.phase == s.phase && s'.destroyed == s.destroyed
  {
    HeadJobs(s, d, 0, jobs);
    hide Inv, InOrder;
  }

  lemma JobEnds(s: State, d: nat)
    requires Inv(s) && d < |s.drains| && s.drains[d].Running?
    ensures s.started != [] && s.jobs != [] && s.drains[d].remaining > 0
    ensures var s' := DrainNext(s, d);
            && |s'.drains| == |s.drains| && s'.drains[d].Ran? && s'.drains[d].remaining == s.drains[d].remaining
            && s'.jobs == s.jobs && s'.activeDrain == s.activeDrain && s'.started == s.started
            && s'.manager.posted == s.manager.posted + Leaving([s.started[|s.started| - 1]])
            && s'.phase == s.phase && s'.destroyed == s.destroyed
  {
    hide Requests, PhaseOk, Manager.Fifo;
    OnlyDrain(s, d);
    assert DrainOk(s.jobs, s.drains[d]);
    var job := s.started[|s.started| - 1];
    assert [job][..0] == [];
    hide Inv;
  }

  lemma AsyncWhileRunning(s: State, id: nat, d: nat)
    requires Inv(s) && !s.destroyed && d < |s.drains| && s.drains[d].Running?
    ensures var s' := Next(s, Event.Async(id));
            && s'.drains == s.drains && s'.jobs == s.jobs + [Some(Work(id))] && s'.activeDrain == s.activeDrain
            && s'.started == s.started && s'.manager == s.manager && s'.phase == s.phase && !s'.destroyed
  {
    hide Requests, PhaseOk, Manager.Fifo;
    OnlyDrain(s, d);
    hide Inv;
  }

  lemma DetachStep(s: State)
    requires Inv(s) && s.phase.Attached? && !s.destroyed
    ensures var s' := Next(s, Event.Detach);
            && s'.drains == s.drains && s'.activeDrain == s.activeDrain && !s'.phase.Attached? && !s'.destroyed
            && s'.jobs == s.jobs + (if s.jobs == [] then [] else [Some(DetachJob)])
            && s'.manager.posted == s.manager.posted + (if s.jobs == [] then [Manager.Unregister(SELF)] else [])
  {
    hide Inv;
  }

  // ---- The queue's methods in place ----

  function Somes(jobs: seq<Job>): seq<Option<Job>> {
    seq(|jobs|, i requires 0 <= i < |jobs| => Some(jobs[i]))
  }

  function Works(ids: seq<nat>): seq<Job> {
    seq(|ids|, i requires 0 <= i < |ids| => Work(ids[i]))
  }

  function Values(jobs: seq<Option<Job>>): seq<Job>
    requires forall i :: 0 <= i < |jobs| ==> jobs[i].Some?
  {
    seq(|jobs|, i requires 0 <= i < |jobs| => jobs[i].value)
  }

  /** Everything that is added while the first n jobs of a drain run. */
  function Arrived(arrivals: seq<seq<nat>>, n: nat): seq<Job>
    requires n <= |arrivals|
  {
    if n == 0 then [] else Arrived(arrivals, n - 1) + Works(arrivals[n - 1])
  }

  /** The requests that executing these jobs posts. */
  function Leaving(jobs: seq<Job>): seq<Manager.Request> {
    if jobs == [] then []
    else Leaving(jobs[..|jobs| - 1]) + (if jobs[|jobs| - 1] == DetachJob then [Manager.Unregister(SELF)] else [])
  }

  /** A queue whose methods are the machine's steps: `model` is the state of the machine that the
      methods so far have led to. */
  class OperationQueue {
    var jobs: seq<Option<Job>>
    var activeDrain: bool
    var attached: bool
    /** How often the notify operation was handed to the thread pool. */
    var notified: nat
    var posted: seq<Manager.Request>
    ghost var model: State

    /** The fields are the machine's, apart from the list, which the caller states. */
    ghost predicate Tied()
      reads this
    {
      && Inv(model) && !model.destroyed && model.phase.Attached? == attached
      && |model.drains| == notified && model.manager.posted == posted
    }

    ghost predicate Valid()
      reads this
    {
      Tied() && model.jobs == jobs && model.activeDrain == activeDrain
    }

    constructor ()
      ensures Valid() && model == Start() && jobs == [] && !attached && notified == 0 && posted == []
    {
      jobs, activeDrain, attached, notified, posted := [], false, false, 0, [];
      model := Start();
      new;
      EveryRunKeepsTheInvariant([]);
    }

    method NotifyUnsafe()
      modifies this`notified
      ensures notified == old(notified) + 1
    {
      notified := notified + 1;
    }

    /** The pool is only notified for the first job of an attached queue. */
    method AsyncUnsafe(job: Job)
      modifies this`jobs, this`notified
      ensures jobs == old(jobs) + [Some(job)]
      ensures notified == old(notified) + Bit(old(jobs) == [] && attached)
    {
      var notify := jobs == [];
      jobs := jobs + [Some(job)];
      if notify && attached {
        NotifyUnsafe();
      }
    }

    /** Adding a job is the machine's step, so it keeps everything that is proved of its runs. */
    method Async(id: nat)
      requires Valid()
      modifies this
      ensures Valid() && model == Next(old(model), Event.Async(id)) && attached == old(attached)
      ensures jobs == old(jobs) + [Some(Work(id))] && posted == old(posted)
      ensures notified == old(notified) + Bit(old(jobs) == [] && attached)
    {
      hide Inv;
      AsyncUnsafe(Work(id));
      NextKeeps(model, Event.Async(id));
      model := Next(model, Event.Async(id));
    }

    method AttachQueue()
      requires Valid() && model.phase.Created?
      modifies this
      ensures Valid() && model == Next(old(model), Event.Attach)
      ensures attached && posted == old(posted) + [Manager.Register(SELF)]
    {
      posted := posted + [Manager.Register(SELF)];
      attached := true;
      NextKeeps(model, Event.Attach);
      model := Next(model, Event.Attach);
    }

    /** An empty queue unregisters at once; otherwise a last job will do it. */
    method DetachQueue()
      requires Valid() && attached
      modifies this
      ensures Valid() && model == Next(old(model), Event.Detach)
      ensures !attached && activeDrain == old(activeDrain) && notified == old(notified)
      ensures jobs == old(jobs) + (if old(jobs) == [] then [] else [Some(DetachJob)])
      ensures posted == old(posted) + (if old(jobs) == [] then [Manager.Unregister(SELF)] else [])
    {
      hide Inv, Next;
      var empty := jobs == [];
      if empty {
        posted := posted + [Manager.Unregister(SELF)];
      } else {
        AsyncUnsafe(DetachJob);
      }
      attached := false;
      DetachStep(model);
      NextKeeps(model, Event.Detach);
      model := Next(model, Event.Detach);
    }

    /** Jobs added by others, or by the job itself, while the lock is released. */
    method Arrive(ghost d: nat, added: seq<nat>)
      requires Valid() && d < |model.drains| && model.drains[d].Running?
      modifies this
      ensures Valid() && model.drains == old(model.drains) && model.started == old(model.started)
      ensures jobs == old(jobs) + Somes(Works(added)) && notified == old(notified) && posted == old(posted)
      ensures attached == old(attached) && activeDrain == old(activeDrain)
    {
      var i := 0;
      while i < |added|
        invariant 0 <= i <= |added| && jobs == old(jobs) + Somes(Works(added[..i]))
        invariant Valid() && model.drains == old(model.drains) && model.started == old(model.started)
        invariant notified == old(notified) && posted == old(posted)
        invariant attached == old(attached) && activeDrain == old(activeDrain)
      {
        hide Inv, Next;
        assert Somes(Works(added[..i + 1])) == Somes(Works(added[..i])) + [Some(Work(added[i]))];
        AsyncWhileRunning(model, added[i], d);
        Async(added[i]);
        i := i + 1;
      }
      assert added[..i] == added;
    }

    /** One round of the drain loop: the front job is swapped out, executed with the lock released,
        and removed; it makes the machine's drain take the job and end it. */
    method RunFront(ghost d: nat, ghost remaining: nat, added: seq<nat>)
      requires Tied() && activeDrain && remaining > 0 && AtHead(model, d, remaining, jobs)
      requires jobs != [] && jobs[0].Some?
      modifies this
      ensures Tied() && activeDrain && AtHead(model, d, remaining - 1, jobs)
      ensures jobs == old(jobs)[1..] + Somes(Works(added)) && model.started == old(model.started) + [old(jobs[0].value)]
      ensures posted == old(posted) + Leaving([old(jobs[0].value)])
      ensures notified == old(notified) && attached == old(attached)
    {
      hide Inv, DrainNext, Next;
      var job := jobs[0].value;
      DrainTakes(model, d, remaining, jobs);
      DrainKeeps(model, d);
      jobs := jobs[0 := None];
      model := DrainNext(model, d);
      Arrive(d, added);
      JobEnds(model, d);
      DrainKeeps(model, d);
      assert [job][..0] == [];
      if job == DetachJob {
        posted := posted + [Manager.Unregister(SELF)];
      }
      model := DrainNext(model, d);
      jobs := jobs[1..];
    }

    /** The rounds of a drain. */
    method Rounds(ghost d: nat, count: nat, arrivals: seq<seq<nat>>)
      requires Tied() && activeDrain && AtHead(model, d, count, jobs)
      requires count <= |jobs| && count <= |arrivals| && forall i :: 0 <= i < |jobs| ==> jobs[i].Some?
      modifies this
      ensures Tied() && activeDrain && AtHead(model, d, 0, jobs)
      ensures jobs == old(jobs)[count..] + Somes(Arrived(arrivals, count))
      ensures model.started == old(model.started) + Values(old(jobs)[..count])
      ensures posted == old(posted) + Leaving(Values(old(jobs)[..count]))
      ensures notified == old(notified) && attached == old(attached)
    {
      hide Inv, AtHead, Values, Leaving, Arrived;
      var remaining, i := count, 0;
      ghost var was := jobs;
      NothingYet(was, arrivals);
      while remaining != 0
        invariant 0 <= i && i + remaining == count
        invariant Tied() && activeDrain && AtHead(model, d, remaining, jobs)
        invariant jobs == was[i..] + Somes(Arrived(arrivals, i))
        invariant model.started == old(model.started) + Values(was[..i])
        invariant posted == old(posted) + Leaving(Values(was[..i]))
        invariant notified == old(notified) && attached == old(attached)
      {
        hide Tied;
        assert jobs[0] == was[i];
        RunFront(d, remaining, arrivals[i]);
        OneMoreJob(was, i, arrivals);
        remaining := remaining - 1;
        i := i + 1;
      }
    }

    /** One drain: the jobs that are there when it begins, at most ten of them, are executed in order,
        whatever is added while they run stays in the list in the order of adding, and the pool is
        notified again exactly when the list is not empty then. It is the machine's drain d, from its
        begin to its end. */
    method Drain(ghost d: nat, arrivals: seq<seq<nat>>)
      requires Valid() && d < |model.drains| && model.drains[d].Queued?
      requires |arrivals| == 10 && forall i :: 0 <= i < |jobs| ==> jobs[i].Some?
      modifies this
      ensures Valid() && d < |model.drains| && model.drains[d].Done?
      ensures var k := if |old(jobs)| <= 10 then |old(jobs)| else 10;
              && model.started == old(model.started) + Values(old(jobs)[..k])
              && jobs == old(jobs)[k..] + Somes(Arrived(arrivals, k))
              && posted == old(posted) + Leaving(Values(old(jobs)[..k]))
              && notified == old(notified) + Bit(jobs != [])
      ensures !activeDrain && attached == old(attached)
    {
      hide Inv, DrainNext, Values, Leaving, Arrived;
      activeDrain := true;
      Rounds(d, Min(|jobs|, MAX_OPS_PER_DRAIN), arrivals);
      DrainLeaves(model, d, jobs);
      DrainKeeps(model, d);
      model := DrainNext(model, d);
      if jobs != [] {
        NotifyUnsafe();
      }
      activeDrain := false;
    }
  }

  lemma NothingYet(was: seq<Option<Job>>, arrivals: seq<seq<nat>>)
    ensures Values(was[..0]) == [] && Leaving(Values(was[..0])) == []
    ensures was[0..] + Somes(Arrived(arrivals, 0)) == was
  {
  }

  lemma OneMoreJob(was: seq<Option<Job>>, i: nat, arrivals: seq<seq<nat>>)
    requires i < |was| && i < |arrivals| && forall k :: 0 <= k < |was| ==> was[k].Some?
    ensures Values(was[..i + 1]) == Values(was[..i]) + [was[i].value]
    ensures Leaving(Values(was[..i + 1])) == Leaving(Values(was[..i])) + Leaving([was[i].value])
    ensures (was[i..] + Somes(Arrived(arrivals, i)))[1..] + Somes(Works(arrivals[i]))
            == was[i + 1..] + Somes(Arrived(arrivals, i + 1))
  {
    var before, job := Values(was[..i]), was[i].value;
    assert Values(was[..i + 1]) == before + [job];
    assert (before + [job])[..|before|] == before && [job][..0] == [];
    var arrived, next := Somes(Arrived(arrivals, i)), Somes(Works(arrivals[i]));
    assert Somes(Arrived(arrivals, i + 1)) == arrived + next;
    assert (was[i..] + arrived)[1..] == was[i + 1..] + arrived;
    assert was[i + 1..] + arrived + next == was[i + 1..] + (arrived + next);
  }
}

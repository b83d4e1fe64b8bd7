/** Emitting a signal to one handler: the pending counter and the three notification modes.

    Emitters exclude each other by the signal's lock; the handler's invocations are executed by a
    serial queue, one at a time in the order of queueing, interleaved with the emitters' steps. The
    handlers of a signal do not share anything but that lock, so one handler stands for all. */
module Signals {
  import opened Threads

  datatype Mode = Single | Batch | Synchronous

  /** `n` is the number of the emit, `before` what it read from the pending counter. */
  datatype Emitter =
    | Out
    | Increment
    | Decide(n: nat, before: int)
    | Withdraw
    | SyncEnter(n: nat)
    | SyncDecrement(n: nat)
    | SyncCall(n: nat)
    | SyncLeave
    | Unlock

  datatype Worker =
    | Idle
    | Enter(n: nat)
    | Decrement(n: nat)
    | Call(n: nat)
    | Leave

  /** `running` is the state of the handler's cancelable, which nobody disables. `emits` counts the
      emits that have incremented the counter, `started` lists the emits whose invocation started the
      handler, and `seen` is what `emits` was when the handler last started. */
  datatype State = State(
    mode: Mode, pending: int, running: bool, locked: bool, queue: seq<nat>, worker: Worker,
    emitters: seq<Emitter>, emits: nat, started: seq<nat>, seen: nat)

  datatype Event = Emit(e: nat) | EmitterStep(e: nat) | WorkerStep

  function At(s: State, e: nat, l: Emitter): State
    requires e < |s.emitters|
  {
    s.(emitters := s.emitters[e := l])
  }

  function HandlerStarts(s: State, n: nat): State {
    s.(started := s.started + [n], seen := s.emits)
  }

  function EmitterNext(s: State, e: nat): State
    requires e < |s.emitters|
  {
    match s.emitters[e]
    case Out => s
    case Increment =>
      At(s, e, if s.mode == Synchronous then SyncEnter(s.emits) else Decide(s.emits, s.pending)).(
        pending := s.pending + 1, emits := s.emits + 1)
    case Decide(n, before) =>
      if s.mode == Single || before < 1 then At(s, e, Unlock).(queue := s.queue + [n]) else At(s, e, Withdraw)
    case Withdraw => At(s, e, Unlock).(pending := s.pending - 1)
    case SyncEnter(n) => if s.running then At(s, e, Unlock) else At(s, e, SyncDecrement(n)).(running := true)
    case SyncDecrement(n) => At(s, e, SyncCall(n)).(pending := s.pending - 1)
    case SyncCall(n) => HandlerStarts(At(s, e, SyncLeave), n)
    case SyncLeave => At(s, e, Unlock).(running := false)
    case Unlock => At(s, e, Out).(locked := false)
  }

  function WorkerNext(s: State): State {
    match s.worker
    case Idle => if s.queue == [] then s else s.(worker := Enter(s.queue[0]), queue := s.queue[1..])
    case Enter(n) => if s.running then s.(worker := Idle) else s.(worker := Decrement(n), running := true)
    case Decrement(n) => s.(worker := Call(n), pending := s.pending - 1)
    case Call(n) => HandlerStarts(s.(worker := Leave), n)
    case Leave => s.(worker := Idle, running := false)
  }

  function Next(s: State, e: Event): (s': State)
    ensures |s'.emitters| == |s.emitters|
  {
    match e
    case Emit(e) =>
      if e < |s.emitters| && s.emitters[e].Out? && !s.locked then At(s, e, Increment).(locked := true) else s
    case EmitterStep(e) => if e < |s.emitters| then EmitterNext(s, e) else s
    case WorkerStep => WorkerNext(s)
  }

  function Start(mode: Mode, emitters: nat): State {
    State(mode, 0, false, false, [], Idle, seq(emitters, _ => Out), 0, [], 0)
  }

  function Exec(mode: Mode, emitters: nat, run: seq<Event>): State {
    if run == [] then Start(mode, emitters) else Next(Exec(mode, emitters, run[..|run| - 1]), run[|run| - 1])
  }

  // ---- Invariant ----

  function Holds(l: Emitter): int {
    Bit(!l.Out?)
  }

  /** Incremented the counter for an invocation that is neither queued nor withdrawn yet. */
  function Mid(l: Emitter): int {
    Bit(l.Decide? || l.Withdraw? || l.SyncEnter? || l.SyncDecrement?)
  }

  function InSync(l: Emitter): int {
    Bit(l.SyncDecrement? || l.SyncCall? || l.SyncLeave?)
  }

  /** Taken from the queue, and counted as pending still. */
  function Taken(w: Worker): int {
    Bit(w.Enter? || w.Decrement?)
  }

  /** The invocation that will start the handler without anybody's further doing. */
  predicate WillStart(queue: seq<nat>, worker: Worker) {
    queue != [] || worker.Enter? || worker.Decrement? || worker.Call?
  }

  /** The emits that the worker or the emitter in the lock will start the handler for, in order. */
  function InWorker(w: Worker): seq<nat> {
    match w
    case Enter(n) => [n]
    case Decrement(n) => [n]
    case Call(n) => [n]
    case _ => []
  }

  function InEmitter(l: Emitter): seq<nat> {
    match l
    case Decide(n, _) => [n]
    case SyncEnter(n) => [n]
    case SyncDecrement(n) => [n]
    case SyncCall(n) => [n]
    case _ => []
  }

  ghost predicate Counts(s: State) {
    && Sum(s.emitters, Holds) == Bit(s.locked)
    && s.pending == |s.queue| + Taken(s.worker) + Sum(s.emitters, Mid)
    && Bit(s.running) == Bit(s.worker.Decrement? || s.worker.Call? || s.worker.Leave?) + Sum(s.emitters, InSync)
    && Sum(s.emitters, Mid) >= 0 && Sum(s.emitters, InSync) >= 0
  }

  ghost predicate ModeOk(s: State) {
    && (s.mode == Synchronous ==> s.queue == [] && s.worker.Idle?)
    && (forall e :: 0 <= e < |s.emitters| ==>
          (s.emitters[e].SyncEnter? || InSync(s.emitters[e]) == 1 ==> s.mode == Synchronous)
          && (s.emitters[e].Decide? || s.emitters[e].Withdraw? ==> s.mode != Synchronous)
          && (s.emitters[e].Withdraw? ==> s.mode == Batch))
  }

  /** Batch mode: one invocation at most is queued or taken but not yet counted off, an emitter that
      read zero finds none and will queue one, and there is one whenever there was an emit since the
      last start of the handler. */
  ghost predicate BatchOk(s: State) {
    s.mode == Batch ==>
      && |s.queue| + Taken(s.worker) <= 1
      && (forall e :: 0 <= e < |s.emitters| && s.emitters[e].Decide? && s.emitters[e].before < 1 ==>
            s.queue == [] && Taken(s.worker) == 0)
      && s.seen <= s.emits
      && (s.emits > s.seen ==>
            || WillStart(s.queue, s.worker)
            || exists e :: 0 <= e < |s.emitters| && s.emitters[e].Decide? && s.emitters[e].before < 1)
  }

  /** Zero up to n. */
  function Numbers(n: nat): (r: seq<nat>)
    ensures |r| == n && forall i :: 0 <= i < n ==> r[i] == i
  {
    seq(n, i => i)
  }

  /** What the emitters hold. */
  function Mids(emitters: seq<Emitter>): seq<nat> {
    if emitters == [] then [] else Mids(emitters[..|emitters| - 1]) + InEmitter(emitters[|emitters| - 1])
  }

  /** The other modes: the handler was started for every emit but those on the way, in order. */
  ghost predicate SequenceOk(s: State) {
    s.mode != Batch ==> s.started + InWorker(s.worker) + s.queue + Mids(s.emitters) == Numbers(s.emits)
  }

  ghost predicate Inv(s: State) {
    Counts(s) && ModeOk(s) && BatchOk(s) && SequenceOk(s)
  }

  // ---- Every step keeps it ----

  lemma MoveOne(emitters: seq<Emitter>, e: nat, l: Emitter)
    requires e < |emitters|
    ensures Sum(emitters[e := l], Holds) == Sum(emitters, Holds) - Holds(emitters[e]) + Holds(l)
    ensures Sum(emitters[e := l], Mid) == Sum(emitters, Mid) - Mid(emitters[e]) + Mid(l)
    ensures Sum(emitters[e := l], InSync) == Sum(emitters, InSync) - InSync(emitters[e]) + InSync(l)
  {
    SumUpdate(emitters, e, l, Holds);
    SumUpdate(emitters, e, l, Mid);
    SumUpdate(emitters, e, l, InSync);
  }

  /** The emitter in the lock is the only one that is not outside. */
  lemma OnlyEmitter(emitters: seq<Emitter>, e: nat, locked: bool)
    requires e < |emitters| && !emitters[e].Out? && Sum(emitters, Holds) == Bit(locked)
    ensures locked && forall k :: 0 <= k < |emitters| && k != e ==> emitters[k].Out?
  {
    SumAtLeast(emitters, e, Holds);
    forall k | 0 <= k < |emitters| && k != e ensures emitters[k].Out? {
      SumAtLeastTwo(emitters, e, k, Holds);
    }
  }

  lemma NobodyInside(emitters: seq<Emitter>)
    requires Sum(emitters, Holds) == 0
    ensures forall k :: 0 <= k < |emitters| ==> emitters[k].Out?
  {
    forall k | 0 <= k < |emitters| ensures emitters[k].Out? {
      SumAtLeast(emitters, k, Holds);
    }
  }

  lemma OnlyWeights(emitters: seq<Emitter>, e: nat)
    requires e < |emitters| && forall k :: 0 <= k < |emitters| && k != e ==> emitters[k].Out?
    ensures Sum(emitters, Mid) == Mid(emitters[e]) && Sum(emitters, InSync) == InSync(emitters[e])
  {
    var rest := emitters[e := Out];
    SumZero(rest, Mid);
    SumZero(rest, InSync);
    MoveOne(emitters, e, Out);
  }

  lemma {:induction false} OnlyMids(emitters: seq<Emitter>, e: nat)
    requires e < |emitters| && forall k :: 0 <= k < |emitters| && k != e ==> InEmitter(emitters[k]) == []
    ensures Mids(emitters) == InEmitter(emitters[e])
  {
    hide InEmitter;
    var n := |emitters| - 1;
    var front := emitters[..n];
    assert forall k :: 0 <= k < n ==> front[k] == emitters[k];
    assert Mids(emitters) == Mids(front) + InEmitter(emitters[n]);
    hide Mids;
    if e < n {
      OnlyMids(front, e);
      assert InEmitter(emitters[n]) == [];
    } else {
      NoMids(front);
    }
  }

  lemma {:induction false} NoMids(emitters: seq<Emitter>)
    requires forall k :: 0 <= k < |emitters| ==> InEmitter(emitters[k]) == []
    ensures Mids(emitters) == []
  {
    hide InEmitter;
    if emitters != [] {
      var n := |emitters| - 1;
      assert forall k :: 0 <= k < n ==> emitters[..n][k] == emitters[k];
      NoMids(emitters[..n]);
    }
  }

  /** Nobody is in the handler when it is to be entered. */
  lemma EnterSucceeds(s: State)
    requires Inv(s)
    ensures s.worker.Enter? ==> !s.running
    ensures forall e :: 0 <= e < |s.emitters| && s.emitters[e].SyncEnter? ==> !s.running
  {
    hide BatchOk, SequenceOk;
    if s.worker.Enter? {
      SumZero(s.emitters, InSync);
    }
    forall e | 0 <= e < |s.emitters| && s.emitters[e].SyncEnter? ensures !s.running {
      OnlyEmitter(s.emitters, e, s.locked);
      OnlyWeights(s.emitters, e);
    }
  }

  lemma EmitterKeepsCounts(s: State, e: nat)
    requires Inv(s) && e < |s.emitters| && !s.emitters[e].Out?
    ensures Counts(EmitterNext(s, e)) && ModeOk(EmitterNext(s, e))
  {
    hide BatchOk, SequenceOk, Mids;
    var s' := EmitterNext(s, e);
    OnlyEmitter(s.emitters, e, s.locked);
    OnlyWeights(s.emitters, e);
    MoveOne(s.emitters, e, s'.emitters[e]);
    EnterSucceeds(s);
    hide Sum;
    EmitterCounts(s, e);
    EmitterMode(s, e);
  }

  lemma EmitterCounts(s: State, e: nat)
    requires Counts(s) && e < |s.emitters| && !s.emitters[e].Out? && s.locked
    requires Sum(s.emitters, Mid) == Mid(s.emitters[e]) && Sum(s.emitters, InSync) == InSync(s.emitters[e])
    requires s.emitters[e].SyncEnter? ==> !s.running
    requires s.emitters[e].SyncEnter? || InSync(s.emitters[e]) == 1 ==> s.worker.Idle?
    ensures Counts(EmitterNext(s, e))
  {
    MoveOne(s.emitters, e, EmitterNext(s, e).emitters[e]);
    hide Sum;
  }

  lemma EmitterMode(s: State, e: nat)
    requires ModeOk(s) && e < |s.emitters|
    ensures ModeOk(EmitterNext(s, e))
  {
  }

  lemma EmitterKeepsBatch(s: State, e: nat)
    requires Inv(s) && e < |s.emitters| && !s.emitters[e].Out?
    ensures BatchOk(EmitterNext(s, e))
  {
    hide SequenceOk;
    var s' := EmitterNext(s, e);
    OnlyEmitter(s.emitters, e, s.locked);
    OnlyWeights(s.emitters, e);
    hide Sum;
    if s.mode == Batch && s'.emits > s'.seen && !WillStart(s'.queue, s'.worker) {
      if s.emitters[e].Increment? {
        assert s'.emitters[e].Decide? && s'.emitters[e].before < 1;
      }
    }
  }

  lemma EmitterSequence(s: State, e: nat)
    requires e < |s.emitters| && s.mode != Batch && (s.emitters[e].SyncEnter? ==> !s.running)
    requires var l := s.emitters[e];
             l.SyncCall? || l.SyncEnter? || l.SyncDecrement? || l.SyncLeave? ==> s.queue == [] && s.worker.Idle?
    requires s.emitters[e].Decide? ==> s.mode == Single
    requires !s.emitters[e].Withdraw?
    requires s.started + InWorker(s.worker) + s.queue + InEmitter(s.emitters[e]) == Numbers(s.emits)
    ensures var s' := EmitterNext(s, e);
            && s'.worker == s.worker
            && s'.started + InWorker(s'.worker) + s'.queue + InEmitter(s'.emitters[e]) == Numbers(s'.emits)
  {
    hide Mids, Sum;
    var l := s.emitters[e];
    EmitterMoves(s, e);
    hide EmitterNext, InWorker, InEmitter, Numbers;
    var w, q, r := InWorker(s.worker), s.queue, s.started;
    if l.Increment? {
      NextNumber(s.emits);
      Regroup(r, w, q, [], [s.emits]);
    } else if l.Decide? {
      Regroup(r, w, q, [l.n], []);
    } else if l.SyncCall? {
      RegroupEnd(r, [l.n]);
    }
  }

  lemma NextNumber(n: nat)
    ensures Numbers(n + 1) == Numbers(n) + [n]
  {
  }

  lemma RegroupEnd(r: seq<nat>, x: seq<nat>)
    ensures r + x + [] + [] + [] == r + [] + [] + x
  {
  }

  /** What an emitter's step does to the emits on their way. */
  lemma EmitterMoves(s: State, e: nat)
    requires e < |s.emitters| && (s.emitters[e].SyncEnter? ==> !s.running)
    requires s.emitters[e].Decide? ==> s.mode == Single
    requires s.emitters[e].SyncCall? ==> s.worker.Idle?
    ensures s.emitters[e].SyncCall? ==> InWorker(s.worker) == []
    ensures var s', l := EmitterNext(s, e), s.emitters[e];
            var l' := s'.emitters[e];
            && s'.worker == s.worker
            && s'.emits == s.emits + Bit(l.Increment?)
            && s'.queue == (if l.Decide? then s.queue + [l.n] else s.queue)
            && s'.started == (if l.SyncCall? then s.started + [l.n] else s.started)
            && InEmitter(l')
               == (if l.Increment? then [s.emits] else if l.Decide? || l.SyncCall? then [] else InEmitter(l))
            && (l.Increment? ==> InEmitter(l) == []) && (l.Decide? || l.SyncCall? ==> InEmitter(l) == [l.n])
  {
  }

  lemma Regroup(r: seq<nat>, w: seq<nat>, q: seq<nat>, x: seq<nat>, y: seq<nat>)
    ensures r + w + (q + x) + y == r + w + q + (x + y)
    ensures x == [] ==> r + w + q + y == r + w + q + x + y
    ensures y == [] ==> r + w + (q + x) == r + w + q + x
  {
    assert r + w + (q + x) + y == r + w + q + (x + y);
  }

  lemma EmitterKeepsSequence(s: State, e: nat)
    requires Inv(s) && e < |s.emitters| && !s.emitters[e].Out?
    ensures SequenceOk(EmitterNext(s, e))
  {
    hide BatchOk, Numbers, Mids, Sum, InWorker, InEmitter;
    var s' := EmitterNext(s, e);
    OnlyEmitter(s.emitters, e, s.locked);
    EnterSucceeds(s);
    OutHoldsNothing(s.emitters, e);
    OutHoldsNothing(s'.emitters, e);
    OnlyMids(s.emitters, e);
    OnlyMids(s'.emitters, e);
    if s.mode != Batch {
      EmitterSequence(s, e);
    }
  }

  lemma OutHoldsNothing(emitters: seq<Emitter>, e: nat)
    requires forall k :: 0 <= k < |emitters| && k != e ==> emitters[k].Out?
    ensures forall k :: 0 <= k < |emitters| && k != e ==> InEmitter(emitters[k]) == []
  {
  }

  lemma EmitKeeps(s: State, e: nat)
    requires Inv(s) && e < |s.emitters| && s.emitters[e].Out? && !s.locked
    ensures Inv(At(s, e, Increment).(locked := true))
  {
    hide Sum, Mids;
    var s' := At(s, e, Increment).(locked := true);
    MoveOne(s.emitters, e, Increment);
    NobodyInside(s.emitters);
    OnlyMids(s.emitters, e);
    OnlyMids(s'.emitters, e);
  }

  lemma WorkerKeepsCounts(s: State)
    requires Inv(s)
    ensures Counts(WorkerNext(s)) && ModeOk(WorkerNext(s))
  {
    hide BatchOk, SequenceOk;
    EnterSucceeds(s);
  }

  lemma WorkerKeepsBatch(s: State)
    requires Inv(s)
    ensures BatchOk(WorkerNext(s))
  {
    hide SequenceOk, Sum;
    EnterSucceeds(s);
  }

  lemma WorkerKeepsSequence(s: State)
    requires Inv(s)
    ensures SequenceOk(WorkerNext(s))
  {
    hide BatchOk, Sum, Counts, ModeOk, Mids, Numbers;
    EnterSucceeds(s);
    var s' := WorkerNext(s);
    assert s'.started + InWorker(s'.worker) + s'.queue == s.started + InWorker(s.worker) + s.queue by {
      if s.worker.Idle? && s.queue != [] {
        assert s.queue == [s.queue[0]] + s.queue[1..];
      }
    }
  }

  lemma NextKeeps(s: State, e: Event)
    requires Inv(s)
    ensures Inv(Next(s, e))
  {
    hide Counts, ModeOk, BatchOk, SequenceOk, EmitterNext, WorkerNext;
    match e
    case WorkerStep =>
      WorkerKeepsCounts(s);
      WorkerKeepsBatch(s);
      WorkerKeepsSequence(s);
    case EmitterStep(e) =>
      if e < |s.emitters| {
        OutStays(s, e);
        if !s.emitters[e].Out? {
          EmitterKeepsCounts(s, e);
          EmitterKeepsBatch(s, e);
          EmitterKeepsSequence(s, e);
        }
      }
    case Emit(e) =>
      if e < |s.emitters| && s.emitters[e].Out? && !s.locked {
        EmitKeeps(s, e);
      }
  }

  lemma OutStays(s: State, e: nat)
    requires e < |s.emitters|
    ensures s.emitters[e].Out? ==> EmitterNext(s, e) == s
  {
  }

  lemma StartInv(mode: Mode, emitters: nat)
    ensures Inv(Start(mode, emitters))
  {
    var s := Start(mode, emitters);
    SumZero(s.emitters, Holds);
    SumZero(s.emitters, Mid);
    SumZero(s.emitters, InSync);
    NoMids(s.emitters);
  }

  lemma NextMode(s: State, e: Event)
    ensures Next(s, e).mode == s.mode
  {
  }

  lemma {:induction false} EveryRunKeepsTheInvariant(mode: Mode, emitters: nat, run: seq<Event>)
    ensures Inv(Exec(mode, emitters, run)) && Exec(mode, emitters, run).mode == mode
  {
    hide Inv, Next;
    if run == [] {
      StartInv(mode, emitters);
    } else {
      var s := Exec(mode, emitters, run[..|run| - 1]);
      EveryRunKeepsTheInvariant(mode, emitters, run[..|run| - 1]);
      NextKeeps(s, run[|run| - 1]);
      NextMode(s, run[|run| - 1]);
    }
  }

  // ---- What emitting guarantees ----

  ghost predicate NobodyEmits(s: State) {
    forall e :: 0 <= e < |s.emitters| ==> s.emitters[e].Out?
  }

  /** Outside an emit the pending counter is the number of invocations that are queued, or taken from
      the queue and not yet counted off. */
  lemma PendingIsQueued(mode: Mode, emitters: nat, run: seq<Event>)
    requires NobodyEmits(Exec(mode, emitters, run))
    ensures var s := Exec(mode, emitters, run); s.pending == |s.queue| + Taken(s.worker)
  {
    EveryRunKeepsTheInvariant(mode, emitters, run);
    SumZero(Exec(mode, emitters, run).emitters, Mid);
  }

  /** Batch mode keeps at most one invocation queued, and every emit is followed by a start of the
      handler: while there was an emit since the last start, an invocation is queued or on its way,
      or the emitter that found none is about to queue it. */
  lemma BatchIsFollowedUp(emitters: nat, run: seq<Event>)
    ensures var s := Exec(Batch, emitters, run);
            && |s.queue| <= 1
            && (s.emits > s.seen && NobodyEmits(s) ==> WillStart(s.queue, s.worker))
            && (NobodyEmits(s) && s.queue == [] && s.worker.Idle? ==> s.seen == s.emits)
  {
    EveryRunKeepsTheInvariant(Batch, emitters, run);
  }

  /** Single and synchronous mode: the handler is started exactly once per emit, in the order of the
      emits; outside an emit the emits that it was not started for are those in the queue. */
  lemma EveryEmitStartsTheHandlerOnce(mode: Mode, emitters: nat, run: seq<Event>)
    requires mode != Batch
    ensures var s := Exec(mode, emitters, run);
            && s.started <= Numbers(s.emits)
            && (NobodyEmits(s) ==> s.started + InWorker(s.worker) + s.queue == Numbers(s.emits))
            && (NobodyEmits(s) && mode == Synchronous ==> s.started == Numbers(s.emits))
  {
    EveryRunKeepsTheInvariant(mode, emitters, run);
    var s := Exec(mode, emitters, run);
    assert s.started <= s.started + InWorker(s.worker) + s.queue + Mids(s.emitters);
    if NobodyEmits(s) {
      NoMids(s.emitters);
    }
  }

  // ---- The handler's queue runs empty ----

  function WorkerSteps(s: State, k: nat): (s': State)
    ensures |s'.emitters| == |s.emitters|
    decreases k
  {
    if k == 0 then s else WorkerSteps(Next(s, WorkerStep), k - 1)
  }

  function InvocationLeft(w: Worker): nat {
    match w
    case Idle => 0
    case Enter(_) => 4
    case Decrement(_) => 3
    case Call(_) => 2
    case Leave => 1
  }

  /** With the emitters standing still, and none of them in the handler, the target queue executes every
      invocation that is taken or queued, in order, five steps for each at most, and counts it off. */
  lemma {:induction false} QueueRunsEmpty(s: State, k: nat)
    requires Inv(s) && s.mode != Synchronous && k >= 5 * |s.queue| + InvocationLeft(s.worker)
    ensures var s' := WorkerSteps(s, k);
            && s'.queue == [] && s'.worker.Idle? && s'.emits == s.emits
            && s'.started == s.started + InWorker(s.worker) + s.queue
            && s'.pending == s.pending - |s.queue| - Taken(s.worker)
    decreases k
  {
    if k > 0 {
      WorkerGoesOn(s);
      NextKeeps(s, WorkerStep);
      hide Inv, Next;
      QueueRunsEmpty(Next(s, WorkerStep), k - 1);
      var s1 := Next(s, WorkerStep);
      assert s1.started + InWorker(s1.worker) + s1.queue == s.started + InWorker(s.worker) + s.queue;
    }
  }

  lemma WorkerGoesOn(s: State)
    requires Inv(s) && s.mode != Synchronous
    ensures var s' := Next(s, WorkerStep);
            && s'.mode == s.mode && s'.emits == s.emits
            && s'.pending - |s'.queue| - Taken(s'.worker) == s.pending - |s.queue| - Taken(s.worker)
            && s'.started + InWorker(s'.worker) + s'.queue == s.started + InWorker(s.worker) + s.queue
            && (5 * |s'.queue| + InvocationLeft(s'.worker) < 5 * |s.queue| + InvocationLeft(s.worker)
                || (s.queue == [] && s.worker.Idle? && s' == s))
  {
    EnterSucceeds(s);
    hide Inv;
    if s.worker.Idle? {
      if s.queue != [] {
        TakeFirst(s.started, s.queue);
      }
    } else {
      assert Next(s, WorkerStep).queue == s.queue;
    }
  }

  lemma TakeFirst(started: seq<nat>, queue: seq<nat>)
    requires queue != []
    ensures started + [queue[0]] + queue[1..] == started + [] + queue
  {
    assert queue == [queue[0]] + queue[1..];
  }

  /** So after any run, once the emits are over and the queue had its steps, nothing is pending and the
      handler has been started after the last emit; in single mode once for each emit. */
  lemma EverythingIsHandled(mode: Mode, emitters: nat, run: seq<Event>)
    requires mode != Synchronous && NobodyEmits(Exec(mode, emitters, run))
    ensures var s := Exec(mode, emitters, run);
            var s' := WorkerSteps(s, 5 * |s.queue| + 4);
            && s'.pending == 0 && s'.queue == []
            && (mode == Single ==> s'.started == Numbers(s.emits))
            && (mode == Batch ==> s'.seen == s'.emits == s.emits)
  {
    EveryRunKeepsTheInvariant(mode, emitters, run);
    PendingIsQueued(mode, emitters, run);
    var s := Exec(mode, emitters, run);
    var k := 5 * |s.queue| + 4;
    NoMids(s.emitters);
    hide Inv, Exec;
    QueueRunsEmpty(s, k);
    SoloKeeps(s, k);
    if mode == Batch {
      HandledMeansSeen(WorkerSteps(s, k));
    } else {
      SequenceIsDone(s);
    }
  }

  lemma SequenceIsDone(s: State)
    requires Inv(s) && s.mode == Single && Mids(s.emitters) == []
    ensures s.started + InWorker(s.worker) + s.queue == Numbers(s.emits)
  {
  }

  lemma HandledMeansSeen(s: State)
    requires Inv(s) && s.mode == Batch && NobodyEmits(s) && s.queue == [] && s.worker.Idle?
    ensures s.seen == s.emits
  {
  }

  lemma {:induction false} SoloKeeps(s: State, k: nat)
    requires Inv(s)
    ensures Inv(WorkerSteps(s, k)) && WorkerSteps(s, k).emitters == s.emitters && WorkerSteps(s, k).mode == s.mode
    decreases k
  {
    if k > 0 {
      NextKeeps(s, WorkerStep);
      hide Inv;
      SoloKeeps(Next(s, WorkerStep), k - 1);
    }
  }

  // ---- The emitting loop in place ----

  /** What one emit does to one handler of a mode while no invocation runs: the pending counter, the
      queue, and whether the handler is called at once. */
  function EmitTo(mode: Mode, pending: int, queue: seq<nat>, n: nat): (int, seq<nat>, bool) {
    if mode == Synchronous then (pending, queue, true)
    else if mode == Single || pending < 1 then (pending + 1, queue + [n], false)
    else (pending, queue, false)
  }

  function EmitterSteps(s: State, e: nat, k: nat): (s': State)
    ensures |s'.emitters| == |s.emitters|
  {
    if k == 0 then s else Next(EmitterSteps(s, e, k - 1), EmitterStep(e))
  }

  /** An emit that nothing interrupts is the machine's emit, for each mode and each pending count. */
  lemma EmitAlone(s: State, e: nat)
    requires e < |s.emitters| && s.emitters[e].Out? && !s.locked && !s.running
    ensures var (pending, queue, called) := EmitTo(s.mode, s.pending, s.queue, s.emits);
            var k := if s.mode == Synchronous then 6 else if called || |queue| > |s.queue| then 3 else 4;
            var s' := EmitterSteps(Next(s, Emit(e)), e, k);
            && s'.pending == pending && s'.queue == queue && s'.emits == s.emits + 1
            && s'.started == (if called then s.started + [s.emits] else s.started)
            && s'.emitters[e].Out? && !s'.locked && !s'.running
  {
    var s1 := Next(s, Emit(e));
    assert EmitterSteps(s1, e, 0) == s1;
    var s2 := EmitterSteps(s1, e, 1);
    var s3 := EmitterSteps(s1, e, 2);
    var s4 := EmitterSteps(s1, e, 3);
    if s.mode == Synchronous {
      var s5 := EmitterSteps(s1, e, 4);
      var s6 := EmitterSteps(s1, e, 5);
    }
  }

  /** A signal with its handlers' modes, pending counters and target queues. */
  class Signal {
    const modes: seq<Mode>
    const pending: array<int>
    const queues: array<seq<nat>>
    /** Per handler, the emits it was called for synchronously. */
    const called: array<seq<nat>>

    ghost predicate Valid() {
      && pending.Length == |modes| == queues.Length == called.Length
      && queues != called
    }

    constructor (modes: seq<Mode>)
      ensures Valid() && this.modes == modes && fresh(pending) && fresh(queues) && fresh(called)
    {
      this.modes := modes;
      pending := new int[|modes|](_ => 0);
      queues := new seq<nat>[|modes|](_ => []);
      called := new seq<nat>[|modes|](_ => []);
    }

    /** Every handler gets exactly what it gets alone. */
    method Emit(n: nat)
      requires Valid()
      modifies pending, queues, called
      ensures forall h :: 0 <= h < |modes| ==>
                var (p, q, c) := EmitTo(modes[h], old(pending[h]), old(queues[h]), n);
                pending[h] == p && queues[h] == q && called[h] == old(called[h]) + if c then [n] else []
    {
      var h := 0;
      while h < |modes|
        invariant 0 <= h <= |modes|
        invariant forall g :: 0 <= g < h ==>
                    var (p, q, c) := EmitTo(modes[g], old(pending[g]), old(queues[g]), n);
                    pending[g] == p && queues[g] == q && called[g] == old(called[g]) + if c then [n] else []
        invariant forall g :: h <= g < |modes| ==>
                    pending[g] == old(pending[g]) && queues[g] == old(queues[g]) && called[g] == old(called[g])
      {
        var before := pending[h];
        pending[h] := pending[h] + 1;
        if modes[h] == Synchronous {
          pending[h] := pending[h] - 1;
          called[h] := called[h] + [n];
        } else if modes[h] == Single || before < 1 {
          queues[h] := queues[h] + [n];
        } else {
          pending[h] := pending[h] - 1;
        }
        h := h + 1;
      }
    }
  }
}

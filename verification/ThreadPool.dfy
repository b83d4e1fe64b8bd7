/** The thread pool: submitters, the scheduler that spawns workers, and workers that retire.

    Buckets are bags of operations and the operation counter is a semaphore whose wait gives up only
    after it looked and saw no token; the queue and semaphore modules justify both. Any number of
    callers submit, report blocked threads and schedule while any number of workers come and go. */
module ThreadPool {
  import opened Threads

  const BUCKETS: nat := 4

  datatype Priority = Interactive | Initiated | Utility | Default | Background

  function BucketOf(p: Priority): nat {
    match p
    case Interactive => 0
    case Initiated => 1
    case Utility => 2
    case Default => 2
    case Background => 3
  }

  datatype Worker =
    | Try
    | Spinning
    | IdleInc
    | Waiting
    | Woke
    | TimedOut
    | Retire
    | LastTry
    | Restore
    | Pick(bucket: nat)
    | Run(op: nat)
    | Dead

  /** Where a caller is inside execute and schedule; `a` and `i` are the loaded counters. */
  datatype Place =
    | Out
    | Enqueue(p: Priority)
    | ReleaseToken
    | LoadActive
    | LoadIdle(a: int)
    | LoadMax(a: int, i: int)
    | Spawn
    | CountSpawned

  /** `blocked` counts the reports of blocked threads that the caller has not taken back. */
  datatype Caller = Caller(place: Place, blocked: nat)

  /** Operations are numbered in the order of enqueueing; `started` is history. */
  datatype State = State(
    count: int, active: int, idle: int, max: int, buckets: seq<multiset<nat>>,
    workers: seq<Worker>, callers: seq<Caller>, submitted: nat, started: seq<nat>)

  /** `yes` decides between succeeding and giving up where both are possible; `op` is the operation
      that a dequeue delivers. */
  datatype Event =
    | Submit(c: nat, p: Priority)
    | Block(c: nat)
    | Unblock(c: nat)
    | CallerStep(c: nat)
    | WorkerStep(w: nat, yes: bool, op: nat)

  function AtWorker(s: State, w: nat, l: Worker): State
    requires w < |s.workers|
  {
    s.(workers := s.workers[w := l])
  }

  function AtCaller(s: State, c: nat, p: Place): State
    requires c < |s.callers|
  {
    s.(callers := s.callers[c := s.callers[c].(place := p)])
  }

  function Put(s: State, b: nat, op: nat): State
    requires b < |s.buckets|
  {
    s.(buckets := s.buckets[b := s.buckets[b] + multiset{op}])
  }

  function Acquired(s: State, w: nat, l: Worker): State
    requires w < |s.workers|
  {
    AtWorker(s, w, l).(count := s.count - 1)
  }

  function WorkerNext(s: State, w: nat, yes: bool, op: nat): State
    requires w < |s.workers| && |s.buckets| == BUCKETS
  {
    match s.workers[w]
    case Try => if s.count > 0 then Acquired(s, w, Pick(0)) else AtWorker(s, w, Spinning)
    case Spinning => if s.count > 0 && yes then Acquired(s, w, Pick(0)) else AtWorker(s, w, IdleInc)
    case IdleInc => AtWorker(s, w, Waiting).(idle := s.idle + 1)
    case Waiting =>
      if s.count > 0 then (if yes then Acquired(s, w, Woke) else s)
      else (if yes then s else AtWorker(s, w, TimedOut))
    case Woke => AtWorker(s, w, Pick(0)).(idle := s.idle - 1)
    case TimedOut => AtWorker(s, w, Retire).(idle := s.idle - 1)
    case Retire => AtWorker(s, w, LastTry).(active := s.active - 1)
    case LastTry => if s.count > 0 then Acquired(s, w, Restore) else AtWorker(s, w, Dead)
    case Restore => AtWorker(s, w, Pick(0)).(active := s.active + 1)
    case Pick(bucket) =>
      var b := if bucket == BUCKETS then 0 else bucket;
      if b < BUCKETS && op in s.buckets[b]
      then AtWorker(s, w, Run(op)).(buckets := s.buckets[b := s.buckets[b] - multiset{op}], started := s.started + [op])
      else AtWorker(s, w, Pick(b + 1))
    case Run(_) => AtWorker(s, w, Try)
    case Dead => s
  }

  function CallerNext(s: State, c: nat): State
    requires c < |s.callers| && |s.buckets| == BUCKETS
  {
    match s.callers[c].place
    case Out => s
    case Enqueue(p) => AtCaller(Put(s, BucketOf(p), s.submitted), c, ReleaseToken).(submitted := s.submitted + 1)
    case ReleaseToken => AtCaller(s, c, LoadActive).(count := s.count + 1)
    case LoadActive => AtCaller(s, c, LoadIdle(s.active))
    case LoadIdle(a) => AtCaller(s, c, LoadMax(a, s.idle))
    case LoadMax(a, i) => AtCaller(s, c, if i <= 0 && a < s.max then Spawn else Out)
    case Spawn => AtCaller(s, c, CountSpawned).(workers := s.workers + [Try])
    case CountSpawned => AtCaller(s, c, Out).(active := s.active + 1)
  }

  function Next(s: State, e: Event): (s': State)
    requires |s.buckets| == BUCKETS
    ensures |s'.buckets| == BUCKETS
  {
    match e
    case Submit(c, p) =>
      if c < |s.callers| && s.callers[c].place == Out then AtCaller(s, c, Enqueue(p)) else s
    case Block(c) =>
      if c < |s.callers| && s.callers[c].place == Out
      then s.(max := s.max + 1, callers := s.callers[c := Caller(LoadActive, s.callers[c].blocked + 1)]) else s
    case Unblock(c) =>
      if c < |s.callers| && s.callers[c].place == Out && s.callers[c].blocked > 0
      then s.(max := s.max - 1, callers := s.callers[c := Caller(Out, s.callers[c].blocked - 1)]) else s
    case CallerStep(c) => if c < |s.callers| then CallerNext(s, c) else s
    case WorkerStep(w, yes, op) => if w < |s.workers| then WorkerNext(s, w, yes, op) else s
  }

  function Start(max: nat, callers: nat): State {
    State(0, 0, 0, max, seq(BUCKETS, _ => multiset{}), [], seq(callers, _ => Caller(Out, 0)), 0, [])
  }

  function Exec(max: nat, callers: nat, run: seq<Event>): (s: State)
    ensures |s.buckets| == BUCKETS
  {
    if run == [] then Start(max, callers) else Next(Exec(max, callers, run[..|run| - 1]), run[|run| - 1])
  }

  // ---- Invariant ----

  function Idles(l: Worker): int {
    Bit(l.Waiting? || l.Woke? || l.TimedOut?)
  }

  function Active(l: Worker): int {
    Bit(!l.LastTry? && !l.Restore? && !l.Dead?)
  }

  /** Took a token for which it has not yet taken an operation. */
  function Redeems(l: Worker): int {
    Bit(l.Woke? || l.Restore? || l.Pick?)
  }

  /** Spawned a worker that is not counted as active yet. */
  function Uncounted(c: Caller): int {
    Bit(c.place == CountSpawned)
  }

  /** Put an operation in a bucket without having released its token. */
  function Unreleased(c: Caller): int {
    Bit(c.place == ReleaseToken)
  }

  function Blocked(c: Caller): int {
    c.blocked
  }

  function AllBuckets(buckets: seq<multiset<nat>>): multiset<nat>
    requires |buckets| == BUCKETS
  {
    buckets[0] + buckets[1] + buckets[2] + buckets[3]
  }

  ghost predicate Counters(active: int, idle: int, max: int, limit: nat, workers: seq<Worker>, callers: seq<Caller>) {
    && idle == Sum(workers, Idles)
    && active + Sum(callers, Uncounted) == Sum(workers, Active)
    && max == limit + Sum(callers, Blocked)
  }

  ghost predicate Tokens(count: int, buckets: seq<multiset<nat>>, workers: seq<Worker>, callers: seq<Caller>)
    requires |buckets| == BUCKETS
  {
    && count >= 0
    && |AllBuckets(buckets)| == count + Sum(workers, Redeems) + Sum(callers, Unreleased)
  }

  /** Every submitted operation is either in one bucket or was started, once. */
  ghost predicate Operations(buckets: seq<multiset<nat>>, submitted: nat, started: seq<nat>)
    requires |buckets| == BUCKETS
  {
    forall op: nat :: AllBuckets(buckets)[op] + multiset(started)[op] == if op < submitted then 1 else 0
  }

  predicate Labels(workers: seq<Worker>) {
    forall w :: 0 <= w < |workers| && workers[w].Pick? ==> workers[w].bucket <= BUCKETS
  }

  predicate NoneAlive(workers: seq<Worker>) {
    forall w :: 0 <= w < |workers| ==> workers[w].Dead?
  }

  /** Inside schedule, with nothing loaded so far that keeps it from spawning. */
  predicate WillSpawn(c: Caller) {
    match c.place
    case LoadActive => true
    case LoadIdle(a) => a <= 0
    case LoadMax(a, i) => a <= 0 && i <= 0
    case Spawn => true
    case _ => false
  }

  ghost predicate SomeSpawner(callers: seq<Caller>) {
    exists c :: 0 <= c < |callers| && WillSpawn(callers[c])
  }

  ghost predicate Inv(s: State, limit: nat) {
    && |s.buckets| == BUCKETS && Labels(s.workers)
    && Counters(s.active, s.idle, s.max, limit, s.workers, s.callers)
    && Tokens(s.count, s.buckets, s.workers, s.callers)
    && Operations(s.buckets, s.submitted, s.started)
    && (s.count > 0 && NoneAlive(s.workers) ==> SomeSpawner(s.callers))
  }

  // ---- Every step keeps it ----

  lemma MoveWorker(workers: seq<Worker>, w: nat, l: Worker)
    requires w < |workers|
    ensures Sum(workers[w := l], Idles) == Sum(workers, Idles) - Idles(workers[w]) + Idles(l)
    ensures Sum(workers[w := l], Active) == Sum(workers, Active) - Active(workers[w]) + Active(l)
    ensures Sum(workers[w := l], Redeems) == Sum(workers, Redeems) - Redeems(workers[w]) + Redeems(l)
  {
    SumUpdate(workers, w, l, Idles);
    SumUpdate(workers, w, l, Active);
    SumUpdate(workers, w, l, Redeems);
  }

  lemma MoveCaller(callers: seq<Caller>, c: nat, l: Caller)
    requires c < |callers|
    ensures Sum(callers[c := l], Uncounted) == Sum(callers, Uncounted) - Uncounted(callers[c]) + Uncounted(l)
    ensures Sum(callers[c := l], Unreleased) == Sum(callers, Unreleased) - Unreleased(callers[c]) + Unreleased(l)
    ensures Sum(callers[c := l], Blocked) == Sum(callers, Blocked) - Blocked(callers[c]) + Blocked(l)
  {
    SumUpdate(callers, c, l, Uncounted);
    SumUpdate(callers, c, l, Unreleased);
    SumUpdate(callers, c, l, Blocked);
  }

  /** Taking an operation out of a bucket and starting it, or putting a new one in. */
  lemma TakeOperation(buckets: seq<multiset<nat>>, b: nat, op: nat, submitted: nat, started: seq<nat>)
    requires |buckets| == BUCKETS && b < BUCKETS && op in buckets[b] && Operations(buckets, submitted, started)
    ensures var buckets' := buckets[b := buckets[b] - multiset{op}];
            && |AllBuckets(buckets')| == |AllBuckets(buckets)| - 1
            && Operations(buckets', submitted, started + [op])
  {
    var buckets' := buckets[b := buckets[b] - multiset{op}];
    assert AllBuckets(buckets') + multiset{op} == AllBuckets(buckets);
    assert multiset(started + [op]) == multiset(started) + multiset{op};
    forall o: nat ensures AllBuckets(buckets')[o] + multiset(started + [op])[o] == if o < submitted then 1 else 0 {
      assert AllBuckets(buckets)[o] + multiset(started)[o] == if o < submitted then 1 else 0;
    }
  }

  lemma PutOperation(buckets: seq<multiset<nat>>, b: nat, submitted: nat, started: seq<nat>)
    requires |buckets| == BUCKETS && b < BUCKETS && Operations(buckets, submitted, started)
    ensures var buckets' := buckets[b := buckets[b] + multiset{submitted}];
            && |AllBuckets(buckets')| == |AllBuckets(buckets)| + 1
            && Operations(buckets', submitted + 1, started)
  {
    var buckets' := buckets[b := buckets[b] + multiset{submitted}];
    assert AllBuckets(buckets') == AllBuckets(buckets) + multiset{submitted};
    forall o: nat ensures AllBuckets(buckets')[o] + multiset(started)[o] == if o < submitted + 1 then 1 else 0 {
      assert AllBuckets(buckets)[o] + multiset(started)[o] == if o < submitted then 1 else 0;
    }
  }

  /** What a step of one worker does to the shared state. */
  ghost predicate WorkerBalanced(s: State, s': State, l: Worker, l': Worker)
    requires |s.buckets| == BUCKETS && |s'.buckets| == BUCKETS
  {
    && s'.max == s.max && s'.callers == s.callers && s'.count >= 0
    && s'.idle - Idles(l') == s.idle - Idles(l)
    && s'.active - Active(l') == s.active - Active(l)
    && |AllBuckets(s'.buckets)| - s'.count - Redeems(l') == |AllBuckets(s.buckets)| - s.count - Redeems(l)
    && (l'.Pick? ==> l'.bucket <= BUCKETS)
    && (l'.Dead? ==> s'.count == 0)
  }

  lemma WorkerIsBalanced(s: State, w: nat, yes: bool, op: nat)
    requires w < |s.workers| && |s.buckets| == BUCKETS && s.count >= 0 && Operations(s.buckets, s.submitted, s.started)
    requires WorkerNext(s, w, yes, op) != s && (s.workers[w].Pick? ==> s.workers[w].bucket <= BUCKETS)
    ensures var s' := WorkerNext(s, w, yes, op);
            && |s'.buckets| == BUCKETS && s'.workers == s.workers[w := s'.workers[w]]
            && WorkerBalanced(s, s', s.workers[w], s'.workers[w])
            && Operations(s'.buckets, s'.submitted, s'.started)
  {
    hide Operations, AllBuckets;
    if s.workers[w].Pick? {
      var b := if s.workers[w].bucket == BUCKETS then 0 else s.workers[w].bucket;
      if b < BUCKETS && op in s.buckets[b] {
        TakeOperation(s.buckets, b, op, s.submitted, s.started);
      }
    } else {
      OtherWorkIsBalanced(s, w, yes, op);
      hide WorkerNext, WorkerBalanced;
    }
  }

  lemma OtherWorkIsBalanced(s: State, w: nat, yes: bool, op: nat)
    requires w < |s.workers| && |s.buckets| == BUCKETS && s.count >= 0 && !s.workers[w].Pick?
    requires WorkerNext(s, w, yes, op) != s
    ensures var s' := WorkerNext(s, w, yes, op);
            && s'.buckets == s.buckets && |s'.workers| == |s.workers| && s'.workers == s.workers[w := s'.workers[w]]
            && s'.submitted == s.submitted && s'.started == s.started
            && WorkerBalanced(s, s', s.workers[w], s'.workers[w])
  {
    hide AllBuckets;
  }

  lemma WorkerKeeps(s: State, limit: nat, w: nat, yes: bool, op: nat)
    requires Inv(s, limit) && w < |s.workers|
    ensures Inv(WorkerNext(s, w, yes, op), limit)
  {
    hide Operations, AllBuckets, Idles, Active, Redeems;
    if WorkerNext(s, w, yes, op) != s {
      WorkerIsBalanced(s, w, yes, op);
      WorkerMoves(s, limit, w, WorkerNext(s, w, yes, op));
    }
  }

  lemma WorkerMoves(s: State, limit: nat, w: nat, s': State)
    requires Inv(s, limit) && w < |s.workers| && |s'.buckets| == BUCKETS
    requires |s'.workers| == |s.workers| && s'.workers == s.workers[w := s'.workers[w]]
    requires WorkerBalanced(s, s', s.workers[w], s'.workers[w])
    requires Operations(s'.buckets, s'.submitted, s'.started)
    ensures Inv(s', limit)
  {
    hide Operations, AllBuckets, Idles, Active, Redeems, SomeSpawner;
    MoveWorker(s.workers, w, s'.workers[w]);
    if NoneAlive(s'.workers) {
      assert s'.workers[w].Dead?;
    }
  }

  /** What a step of one caller does to the shared state; `spawns` is 1 when it adds a worker. */
  ghost predicate CallerBalanced(s: State, s': State, l: Caller, l': Caller, spawns: int)
    requires |s.buckets| == BUCKETS && |s'.buckets| == BUCKETS
  {
    && s'.idle == s.idle && s'.count >= 0
    && s'.active + Uncounted(l') - spawns == s.active + Uncounted(l)
    && s'.max - Blocked(l') == s.max - Blocked(l)
    && |AllBuckets(s'.buckets)| - s'.count - Unreleased(l') == |AllBuckets(s.buckets)| - s.count - Unreleased(l)
  }

  /** Why a step of one caller strands no work: it is bound to spawn afterwards if it was before,
      provided that no worker is active or idle and the limit is positive. */
  ghost predicate StaysBound(s: State, l: Caller, l': Caller) {
    (WillSpawn(l) || l.place.ReleaseToken?) && s.idle == 0 && s.active <= 0 && s.max > 0 ==> WillSpawn(l')
  }

  lemma CallerIsBalanced(s: State, c: nat)
    requires c < |s.callers| && |s.buckets| == BUCKETS && s.count >= 0 && Operations(s.buckets, s.submitted, s.started)
    ensures var s' := CallerNext(s, c);
            var spawns := s.callers[c].place.Spawn?;
            && |s'.buckets| == BUCKETS && s'.callers == s.callers[c := s'.callers[c]]
            && s'.workers == (if spawns then s.workers + [Try] else s.workers)
            && CallerBalanced(s, s', s.callers[c], s'.callers[c], Bit(spawns))
            && (spawns || StaysBound(s, s.callers[c], s'.callers[c]))
            && (s'.count > s.count ==> s.callers[c].place.ReleaseToken?)
            && Operations(s'.buckets, s'.submitted, s'.started)
  {
    hide Operations, AllBuckets;
    if s.callers[c].place.Enqueue? {
      PutOperation(s.buckets, BucketOf(s.callers[c].place.p), s.submitted, s.started);
    }
  }

  lemma CallerKeeps(s: State, limit: nat, c: nat)
    requires Inv(s, limit) && c < |s.callers| && limit > 0
    ensures Inv(CallerNext(s, c), limit)
  {
    hide Operations, AllBuckets, Sum, NoneAlive, SomeSpawner, Labels;
    var s' := CallerNext(s, c);
    CallerIsBalanced(s, c);
    if s.callers[c].place.Spawn? {
      SpawnMoves(s, limit, c, s');
    } else {
      CallerMoves(s, limit, c, s');
    }
  }

  lemma SpawnMoves(s: State, limit: nat, c: nat, s': State)
    requires Inv(s, limit) && c < |s.callers| && |s'.buckets| == BUCKETS
    requires |s'.callers| == |s.callers| && s'.callers == s.callers[c := s'.callers[c]]
        && s'.workers == s.workers + [Try]
    requires CallerBalanced(s, s', s.callers[c], s'.callers[c], 1)
    requires Operations(s'.buckets, s'.submitted, s'.started)
    ensures Inv(s', limit)
  {
    hide Operations, AllBuckets, Uncounted, Unreleased, Blocked, SomeSpawner;
    MoveCaller(s.callers, c, s'.callers[c]);
    SumAppend(s.workers, Try, Idles);
    SumAppend(s.workers, Try, Active);
    SumAppend(s.workers, Try, Redeems);
    assert !s'.workers[|s.workers|].Dead?;
  }

  lemma CallerMoves(s: State, limit: nat, c: nat, s': State)
    requires Inv(s, limit) && c < |s.callers| && |s'.buckets| == BUCKETS && limit > 0
    requires |s'.callers| == |s.callers| && s'.callers == s.callers[c := s'.callers[c]] && s'.workers == s.workers
    requires CallerBalanced(s, s', s.callers[c], s'.callers[c], 0) && StaysBound(s, s.callers[c], s'.callers[c])
    requires s'.count > s.count ==> s.callers[c].place.ReleaseToken?
    requires Operations(s'.buckets, s'.submitted, s'.started)
    ensures Inv(s', limit)
  {
    hide Operations, AllBuckets, Uncounted, Unreleased, Blocked, SomeSpawner, StaysBound, NoneAlive;
    MoveCaller(s.callers, c, s'.callers[c]);
    if s'.count > 0 && NoneAlive(s'.workers) {
      NoneAliveCounts(s, limit);
      SpawnerStays(s, s', c);
    }
  }

  /** With no worker left nothing is counted as idle, nothing more than nothing as active. */
  lemma NoneAliveCounts(s: State, limit: nat)
    requires Inv(s, limit) && limit > 0 && NoneAlive(s.workers)
    ensures s.idle == 0 && s.active <= 0 && s.max > 0
  {
    hide Operations, AllBuckets;
    SumZero(s.workers, Idles);
    SumZero(s.workers, Active);
    SumNonNegative(s.callers, Uncounted);
    SumNonNegative(s.callers, Blocked);
  }

  lemma SpawnerStays(s: State, s': State, c: nat)
    requires c < |s.callers| && |s'.callers| == |s.callers| && s'.callers == s.callers[c := s'.callers[c]]
    requires s.idle == 0 && s.active <= 0 && s.max > 0 && StaysBound(s, s.callers[c], s'.callers[c])
    requires SomeSpawner(s.callers) || s.callers[c].place.ReleaseToken?
    ensures SomeSpawner(s'.callers)
  {
    if s.callers[c].place.ReleaseToken? {
      assert WillSpawn(s'.callers[c]);
    } else {
      var d :| 0 <= d < |s.callers| && WillSpawn(s.callers[d]);
      assert WillSpawn(s'.callers[d]);
    }
  }

  lemma NextKeeps(s: State, limit: nat, e: Event)
    requires Inv(s, limit) && limit > 0
    ensures Inv(Next(s, e), limit)
  {
    match e
    case WorkerStep(w, yes, op) => if w < |s.workers| { WorkerKeeps(s, limit, w, yes, op); }
    case CallerStep(c) => if c < |s.callers| { CallerKeeps(s, limit, c); }
    case Submit(c, _) => CallKeeps(s, limit, e);
    case Block(c) => CallKeeps(s, limit, e);
    case Unblock(c) => CallKeeps(s, limit, e);
  }

  lemma CallKeeps(s: State, limit: nat, e: Event)
    requires Inv(s, limit) && (e.Submit? || e.Block? || e.Unblock?)
    ensures Inv(Next(s, e), limit)
  {
    hide Operations, AllBuckets;
    var s' := Next(s, e);
    if s' != s {
      MoveCaller(s.callers, e.c, s'.callers[e.c]);
      if SomeSpawner(s.callers) {
        var d :| 0 <= d < |s.callers| && WillSpawn(s.callers[d]);
        assert WillSpawn(s'.callers[d]);
      }
    }
  }

  lemma StartInv(max: nat, callers: nat)
    ensures Inv(Start(max, callers), max)
  {
    var s := Start(max, callers);
    SumZero(s.callers, Uncounted);
    SumZero(s.callers, Unreleased);
    SumZero(s.callers, Blocked);
    assert AllBuckets(s.buckets) == multiset{};
  }

  lemma {:induction false} EveryRunKeepsTheInvariant(max: nat, callers: nat, run: seq<Event>)
    requires max > 0
    ensures Inv(Exec(max, callers, run), max)
  {
    hide Inv, Next;
    StartInv(max, callers);
    if run != [] {
      EveryRunKeepsTheInvariant(max, callers, run[..|run| - 1]);
      NextKeeps(Exec(max, callers, run[..|run| - 1]), max, run[|run| - 1]);
    }
  }

  // ---- What the pool guarantees ----

  /** The bucket that a worker looks at after d more misses. */
  function Ahead(bucket: nat, d: nat): (b: nat)
    ensures b < BUCKETS
  {
    (bucket + d) % BUCKETS
  }

  /** The worker's next step looks at the operation counter. */
  predicate Attempting(l: Worker) {
    l.Try? || l.Spinning? || l.Waiting? || l.LastTry?
  }

  /** How many own steps a worker is away from its next look at the counter, dequeues that miss aside. */
  function AttemptIn(l: Worker): nat {
    match l
    case IdleInc => 1
    case Woke => 3
    case TimedOut => 2
    case Retire => 1
    case Restore => 3
    case Pick(_) => 2
    case Run(_) => 1
    case _ => 0
  }

  /** Whatever the others do, each own step of a living worker brings it closer to its next look at the
      counter, unless it is a dequeue that missed; and at the first and the last try a token that is
      there is taken. */
  lemma WorkersLookAgain(max: nat, callers: nat, run: seq<Event>, e: Event, w: nat)
    requires w < |Exec(max, callers, run).workers| && !Exec(max, callers, run).workers[w].Dead?
    ensures var s, s' := Exec(max, callers, run), Next(Exec(max, callers, run), e);
            && w < |s'.workers|
            && (if !e.WorkerStep? || e.w != w then s'.workers[w] == s.workers[w]
                else
                  && (!Attempting(s.workers[w]) ==>
                        || AttemptIn(s'.workers[w]) < AttemptIn(s.workers[w])
                        || (s.workers[w].Pick? && s'.workers[w].Pick? && s'.started == s.started))
                  && ((s.workers[w].Try? || s.workers[w].LastTry?) && s.count > 0 ==>
                        s'.count == s.count - 1 && Redeems(s'.workers[w]) == 1))
  {
    hide Exec, WorkerNext, AttemptIn, Redeems;
    var s := Exec(max, callers, run);
    if e.WorkerStep? && e.w < |s.workers| {
      if e.w == w {
        OwnStepIsNearer(s, w, e.yes, e.op);
      } else {
        OtherWorkersStay(s, e.w, e.yes, e.op);
      }
    } else if e.CallerStep? && e.c < |s.callers| {
      CallersLeaveWorkers(s, e.c);
    }
    hide CallerNext;
  }

  lemma OwnStepIsNearer(s: State, w: nat, yes: bool, op: nat)
    requires w < |s.workers| && |s.buckets| == BUCKETS && !s.workers[w].Dead?
    ensures var s' := WorkerNext(s, w, yes, op);
            && |s'.workers| == |s.workers|
            && (!Attempting(s.workers[w]) ==>
                  || AttemptIn(s'.workers[w]) < AttemptIn(s.workers[w])
                  || (s.workers[w].Pick? && s'.workers[w].Pick? && s'.started == s.started))
            && ((s.workers[w].Try? || s.workers[w].LastTry?) && s.count > 0 ==>
                  s'.count == s.count - 1 && Redeems(s'.workers[w]) == 1)
  {
  }

  lemma OtherWorkersStay(s: State, w: nat, yes: bool, op: nat)
    requires w < |s.workers| && |s.buckets| == BUCKETS
    ensures var s' := WorkerNext(s, w, yes, op);
            |s'.workers| == |s.workers| && forall v :: 0 <= v < |s.workers| && v != w ==> s'.workers[v] == s.workers[v]
  {
  }

  lemma CallersLeaveWorkers(s: State, c: nat)
    requires c < |s.callers| && |s.buckets| == BUCKETS
    ensures var s' := CallerNext(s, c);
            |s'.workers| >= |s.workers| && forall v :: 0 <= v < |s.workers| ==> s'.workers[v] == s.workers[v]
  {
  }

  /** A step of the worker in which a dequeue delivers whenever the bucket has an operation. */
  ghost function Delivering(s: State, w: nat): Event
    requires |s.buckets| == BUCKETS && w < |s.workers|
  {
    var b := if s.workers[w].Pick? then Ahead(s.workers[w].bucket, 0) else 0;
    if op: nat :| op in s.buckets[b] then WorkerStep(w, true, op) else WorkerStep(w, true, 0)
  }

  ghost function WorkerSolo(s: State, w: nat, n: nat): (s': State)
    requires |s.buckets| == BUCKETS && w < |s.workers|
    ensures |s'.buckets| == BUCKETS && w < |s'.workers|
    decreases n
  {
    if n == 0 then s else
      var s1 := Next(s, Delivering(s, w));
      if w < |s1.workers| then WorkerSolo(s1, w, n - 1) else s
  }

  /** Undisturbed, the worker looks at the counter again after at most so many steps. */
  ghost predicate LooksAgainWithin(s: State, w: nat, most: nat)
    requires |s.buckets| == BUCKETS && w < |s.workers|
  {
    exists n: nat :: n <= most && Attempting(WorkerSolo(s, w, n).workers[w])
  }

  /** One step nearer. */
  lemma LooksAgainAfter(s: State, w: nat, most: nat)
    requires |s.buckets| == BUCKETS && w < |s.workers|
    requires w < |Next(s, Delivering(s, w)).workers| && LooksAgainWithin(Next(s, Delivering(s, w)), w, most)
    ensures LooksAgainWithin(s, w, most + 1)
  {
    var s1 := Next(s, Delivering(s, w));
    var n: nat :| n <= most && Attempting(WorkerSolo(s1, w, n).workers[w]);
    assert WorkerSolo(s, w, n + 1) == WorkerSolo(s1, w, n);
  }

  /** A scan with an operation d buckets ahead. */
  lemma {:induction false} ScanEnds(s: State, w: nat, d: nat)
    requires |s.buckets| == BUCKETS && w < |s.workers| && s.workers[w].Pick? && s.workers[w].bucket <= BUCKETS
    requires d < BUCKETS && s.buckets[Ahead(s.workers[w].bucket, d)] != multiset{}
    ensures LooksAgainWithin(s, w, d + 2)
    decreases d
  {
    var s1 := Next(s, Delivering(s, w));
    DeliveringStep(s, w);
    hide Next, Delivering, Ahead;
    if s.buckets[Ahead(s.workers[w].bucket, 0)] != multiset{} {
      RunEnds(s1, w);
      LooksAgainAfter(s, w, 1);
      Longer(s, w, 2, d + 2);
    } else {
      AheadStep(s.workers[w].bucket, d);
      ScanEnds(s1, w, d - 1);
      LooksAgainAfter(s, w, d + 1);
    }
  }

  lemma DeliveringStep(s: State, w: nat)
    requires |s.buckets| == BUCKETS && w < |s.workers| && s.workers[w].Pick? && s.workers[w].bucket <= BUCKETS
    ensures var b := Ahead(s.workers[w].bucket, 0);
            var s1 := Next(s, Delivering(s, w));
            && |s1.workers| == |s.workers|
            && (s.buckets[b] != multiset{} ==> s1.workers[w].Run?)
            && (s.buckets[b] == multiset{} ==> s1.workers[w] == Pick(b + 1) && s1.buckets == s.buckets)
  {
    var b := Ahead(s.workers[w].bucket, 0);
    var e := Delivering(s, w);
    if s.buckets[b] != multiset{} {
      var op: nat :| op in s.buckets[b];
      assert e.op in s.buckets[b];
    }
  }

  lemma AheadStep(bucket: nat, d: nat)
    requires bucket <= BUCKETS && d < BUCKETS
    ensures d > 0 ==> Ahead(Ahead(bucket, 0) + 1, d - 1) == Ahead(bucket, d)
    ensures bucket < BUCKETS ==> Ahead(bucket, 0) == bucket
  {
  }

  lemma RunEnds(s: State, w: nat)
    requires |s.buckets| == BUCKETS && w < |s.workers| && s.workers[w].Run?
    ensures LooksAgainWithin(s, w, 1)
  {
    assert WorkerSolo(Next(s, Delivering(s, w)), w, 0).workers[w] == Try;
    LooksAgainAfter(s, w, 0);
  }

  lemma Nowhere(s: State, w: nat)
    requires |s.buckets| == BUCKETS && w < |s.workers|
    ensures Attempting(s.workers[w]) ==> LooksAgainWithin(s, w, 0)
  {
    assert WorkerSolo(s, w, 0) == s;
  }

  lemma Longer(s: State, w: nat, most: nat, more: nat)
    requires |s.buckets| == BUCKETS && w < |s.workers| && LooksAgainWithin(s, w, most) && most <= more
    ensures LooksAgainWithin(s, w, more)
  {
  }

  /** Any living worker, undisturbed: at most six of its own steps, the end of its operation being one. */
  lemma LivingWorkersLookAgain(s: State, limit: nat, w: nat)
    requires Inv(s, limit) && |s.buckets| == BUCKETS && w < |s.workers| && !s.workers[w].Dead?
    ensures LooksAgainWithin(s, w, 6)
  {
    hide Inv, WorkerSolo;
    var l := s.workers[w];
    var s1 := Next(s, Delivering(s, w));
    Nowhere(s, w);
    if Attempting(l) {
      Longer(s, w, 0, 6);
    } else if l.Pick? {
      ScanLooksAgain(s, limit, w);
      Longer(s, w, 5, 6);
    } else if l.Woke? || l.Restore? {
      NextKeepsAny(s, limit, w);
      ScanLooksAgain(s1, limit, w);
      LooksAgainAfter(s, w, 5);
    } else if l.TimedOut? {
      Nowhere(Next(s1, Delivering(s1, w)), w);
      LooksAgainAfter(s1, w, 0);
      LooksAgainAfter(s, w, 1);
      Longer(s, w, 2, 6);
    } else {
      Nowhere(s1, w);
      LooksAgainAfter(s, w, 0);
      Longer(s, w, 1, 6);
    }
  }

  lemma NextKeepsAny(s: State, limit: nat, w: nat)
    requires Inv(s, limit) && |s.buckets| == BUCKETS && w < |s.workers|
    ensures Inv(Next(s, Delivering(s, w)), limit)
  {
    hide Inv;
    var e := Delivering(s, w);
    WorkerKeeps(s, limit, w, e.yes, e.op);
  }

  lemma ScanLooksAgain(s: State, limit: nat, w: nat)
    requires Inv(s, limit) && w < |s.workers| && s.workers[w].Pick?
    ensures LooksAgainWithin(s, w, 5)
  {
    PickHasOperation(s, limit, w);
    FullBucketIsAhead(s.buckets, s.workers[w].bucket);
    var d: nat :| d < BUCKETS && s.buckets[Ahead(s.workers[w].bucket, d)] != multiset{};
    ScanEnds(s, w, d);
    Longer(s, w, d + 2, 5);
  }

  /** No work is stranded: while a token is there, some worker is alive and, left alone, looks for it
      again within six of its own steps, or some caller is inside schedule and bound to spawn one. */
  lemma NoWorkIsStranded(max: nat, callers: nat, run: seq<Event>)
    requires max > 0 && Exec(max, callers, run).count > 0
    ensures var s := Exec(max, callers, run);
            || (exists w :: 0 <= w < |s.workers| && !s.workers[w].Dead? && LooksAgainWithin(s, w, 6))
            || (exists c :: 0 <= c < |s.callers| && WillSpawn(s.callers[c]))
  {
    EveryRunKeepsTheInvariant(max, callers, run);
    var s := Exec(max, callers, run);
    if w :| 0 <= w < |s.workers| && !s.workers[w].Dead? {
      LivingWorkersLookAgain(s, max, w);
    }
  }

  function StepsToSpawn(p: Place): nat {
    match p
    case LoadActive => 4
    case LoadIdle(_) => 3
    case LoadMax(_, _) => 2
    case _ => 1
  }

  /** How many of the events are steps of caller c. */
  function OwnSteps(more: seq<Event>, c: nat): nat {
    if more == [] then 0 else OwnSteps(more[..|more| - 1], c) + if more[|more| - 1] == CallerStep(c) then 1 else 0
  }

  /** With no worker left, whatever the others do: by the time a caller that is bound to spawn has made
      four more steps, a worker has been spawned, by it or by somebody else. */
  lemma BoundSchedulerSpawns(max: nat, callers: nat, run: seq<Event>, more: seq<Event>, c: nat)
    requires max > 0
    requires var s := Exec(max, callers, run); NoneAlive(s.workers) && c < |s.callers| && WillSpawn(s.callers[c])
    requires OwnSteps(more, c) >= StepsToSpawn(Exec(max, callers, run).callers[c].place)
    ensures exists k :: 0 <= k <= |more| && !NoneAlive(Exec(max, callers, run + more[..k]).workers)
  {
    hide NoneAlive, WillSpawn, Exec, OwnSteps, Next;
    StillBound(max, callers, run, more, c);
  }

  lemma {:induction false} StillBound(max: nat, callers: nat, run: seq<Event>, more: seq<Event>, c: nat)
    requires max > 0
    requires var s := Exec(max, callers, run); NoneAlive(s.workers) && c < |s.callers| && WillSpawn(s.callers[c])
    ensures var s, s' := Exec(max, callers, run), Exec(max, callers, run + more);
            AlwaysNone(max, callers, run, more) ==>
              && c < |s'.callers| && WillSpawn(s'.callers[c])
              && StepsToSpawn(s'.callers[c].place) + OwnSteps(more, c) <= StepsToSpawn(s.callers[c].place)
  {
    hide Next, Inv, WillSpawn, NoneAlive;
    if more == [] {
      assert run + more == run;
    } else if AlwaysNone(max, callers, run, more) {
      var n := |more| - 1;
      AlwaysNoneBefore(max, callers, run, more);
      StillBound(max, callers, run, more[..n], c);
      EveryRunKeepsTheInvariant(max, callers, run + more[..n]);
      Continue(max, callers, run + more[..n], more[n]);
      assert run + more == run + more[..n] + [more[n]];
      BoundStep(Exec(max, callers, run + more[..n]), max, more[n], c);
    }
  }

  /** No worker lives at any time of these events. */
  ghost predicate AlwaysNone(max: nat, callers: nat, run: seq<Event>, more: seq<Event>) {
    forall k :: 0 <= k <= |more| ==> NoneAlive(Exec(max, callers, run + more[..k]).workers)
  }

  lemma AlwaysNoneBefore(max: nat, callers: nat, run: seq<Event>, more: seq<Event>)
    requires more != [] && AlwaysNone(max, callers, run, more)
    ensures AlwaysNone(max, callers, run, more[..|more| - 1])
    ensures NoneAlive(Exec(max, callers, run + more).workers)
    ensures NoneAlive(Exec(max, callers, run + more[..|more| - 1]).workers)
  {
    hide NoneAlive, Exec;
    var less := more[..|more| - 1];
    assert more[..|more|] == more;
    forall k | 0 <= k <= |less| ensures NoneAlive(Exec(max, callers, run + less[..k]).workers) {
      assert less[..k] == more[..k];
    }
  }

  lemma BoundStep(s: State, limit: nat, e: Event, c: nat)
    requires Inv(s, limit) && limit > 0 && NoneAlive(s.workers) && c < |s.callers| && WillSpawn(s.callers[c])
    ensures var s' := Next(s, e);
            || !NoneAlive(s'.workers)
            || (&& c < |s'.callers| && WillSpawn(s'.callers[c])
                && StepsToSpawn(s'.callers[c].place) + (if e == CallerStep(c) then 1 else 0)
                   <= StepsToSpawn(s.callers[c].place))
  {
    hide Operations, AllBuckets;
    if e == CallerStep(c) {
      NoneAliveCounts(s, limit);
      hide Inv;
      if s.callers[c].place.Spawn? {
        assert Next(s, e).workers[|s.workers|] == Try;
      }
    } else {
      hide Inv;
    }
  }

  /** Every operation that was put in a bucket is still in exactly one bucket or was started exactly
      once, nothing else was started, and the tokens, in the counter or taken by workers that have
      yet to pick, together with those still to be released match the operations in the buckets. */
  lemma OperationsAreConserved(max: nat, callers: nat, run: seq<Event>)
    requires max > 0
    ensures var s := Exec(max, callers, run);
            && (forall op: nat :: AllBuckets(s.buckets)[op] + multiset(s.started)[op] == if op < s.submitted
                then 1 else 0)
            && |AllBuckets(s.buckets)| == s.count + Sum(s.workers, Redeems) + Sum(s.callers, Unreleased)
  {
    EveryRunKeepsTheInvariant(max, callers, run);
  }

  lemma NoOperationRunsTwice(max: nat, callers: nat, run: seq<Event>, i: nat, j: nat)
    requires max > 0 && i < j < |Exec(max, callers, run).started|
    ensures Exec(max, callers, run).started[i] != Exec(max, callers, run).started[j]
  {
    hide Exec, AllBuckets;
    OperationsAreConserved(max, callers, run);
    var s := Exec(max, callers, run);
    assert AllBuckets(s.buckets)[s.started[i]] + multiset(s.started)[s.started[i]] <= 1;
    if s.started[i] == s.started[j] {
      CountsTwo(s.started, i, j);
    }
  }

  lemma CountsTwo(ops: seq<nat>, i: nat, j: nat)
    requires i < j < |ops| && ops[i] == ops[j]
    ensures multiset(ops)[ops[i]] >= 2
  {
    assert ops == ops[..j] + ([ops[j]] + ops[j + 1..]);
    assert ops[i] == ops[..j][i];
    assert ops[i] in ops[..j];
  }

  /** A worker that looks for the operation of its token has one to find: scanning the buckets in
      turn from where it stands, one of the next four holds an operation. */
  lemma ScanFindsWithinFour(max: nat, callers: nat, run: seq<Event>, w: nat)
    requires max > 0 && w < |Exec(max, callers, run).workers| && Exec(max, callers, run).workers[w].Pick?
    ensures var s := Exec(max, callers, run);
            exists d: nat :: d < BUCKETS && s.buckets[Ahead(s.workers[w].bucket, d)] != multiset{}
  {
    EveryRunKeepsTheInvariant(max, callers, run);
    var s := Exec(max, callers, run);
    PickHasOperation(s, max, w);
    hide Inv, Exec;
    FullBucketIsAhead(s.buckets, s.workers[w].bucket);
  }

  lemma FullBucketIsAhead(buckets: seq<multiset<nat>>, bucket: nat)
    requires |buckets| == BUCKETS && AllBuckets(buckets) != multiset{}
    ensures exists d: nat :: d < BUCKETS && buckets[Ahead(bucket, d)] != multiset{}
  {
    if forall d: nat :: d < BUCKETS ==> buckets[Ahead(bucket, d)] == multiset{} {
      forall b: nat | b < BUCKETS ensures buckets[b] == multiset{} {
        var d := (b + BUCKETS - bucket % BUCKETS) % BUCKETS;
        assert Ahead(bucket, d) == b;
      }
    }
  }

  lemma PickHasOperation(s: State, limit: nat, w: nat)
    requires Inv(s, limit) && w < |s.workers| && s.workers[w].Pick?
    ensures AllBuckets(s.buckets) != multiset{}
  {
    SumAtLeast(s.workers, w, Redeems);
    SumNonNegative(s.callers, Unreleased);
  }

  // ---- The most urgent operation is started first ----

  /** Priorities in order of urgency; Utility and Default are alike. */
  predicate MoreUrgent(p: Priority, q: Priority) {
    match p
    case Interactive => !q.Interactive?
    case Initiated => q.Utility? || q.Default? || q.Background?
    case Utility => q.Background?
    case Default => q.Background?
    case Background => false
  }

  /** An earlier bucket holds the more urgent operations. */
  lemma BucketsByUrgency(p: Priority, q: Priority)
    ensures BucketOf(p) < BUCKETS
    ensures BucketOf(p) < BucketOf(q) <==> MoreUrgent(p, q)
    ensures BucketOf(p) == BucketOf(q) <==> !MoreUrgent(p, q) && !MoreUrgent(q, p)
  {
  }

  /** The priorities of the operations of a run, in the order of enqueueing. */
  function Priorities(max: nat, callers: nat, run: seq<Event>): seq<Priority> {
    if run == [] then []
    else Priorities(max, callers, run[..|run| - 1])
         + Enqueued(Exec(max, callers, run[..|run| - 1]), run[|run| - 1])
  }

  function Enqueued(s: State, e: Event): seq<Priority> {
    if e.CallerStep? && e.c < |s.callers| && s.callers[e.c].place.Enqueue? then [s.callers[e.c].place.p] else []
  }

  /** Every operation that waits lies in the bucket of its priority. */
  ghost predicate Sorted(buckets: seq<multiset<nat>>, priorities: seq<Priority>) {
    && |buckets| == BUCKETS
    && forall b: nat, op: nat :: b < BUCKETS && op in buckets[b] ==> BelongsIn(priorities, b, op)
  }

  predicate BelongsIn(priorities: seq<Priority>, b: nat, op: nat) {
    op < |priorities| && BucketOf(priorities[op]) == b
  }

  lemma SortedNext(s: State, e: Event, priorities: seq<Priority>)
    requires Sorted(s.buckets, priorities) && |priorities| == s.submitted
    ensures Sorted(Next(s, e).buckets, priorities + Enqueued(s, e))
    ensures |priorities + Enqueued(s, e)| == Next(s, e).submitted
  {
    if e.CallerStep? && e.c < |s.callers| {
      assert e == CallerStep(e.c);
      CallersPut(s, e.c, priorities);
      hide CallerNext, Enqueued, Sorted;
    } else {
      assert priorities + [] == priorities;
      if e.WorkerStep? && e.w < |s.workers| {
        WorkersOnlyTake(s, e.w, e.yes, e.op, priorities);
        hide WorkerNext;
      }
    }
  }

  lemma WorkersOnlyTake(s: State, w: nat, yes: bool, op: nat, priorities: seq<Priority>)
    requires w < |s.workers| && Sorted(s.buckets, priorities)
    ensures var s' := WorkerNext(s, w, yes, op); s'.submitted == s.submitted && Sorted(s'.buckets, priorities)
  {
    var s' := WorkerNext(s, w, yes, op);
    if s.workers[w].Pick? {
      forall b: nat, o: nat | b < BUCKETS && o in s'.buckets[b]
        ensures BelongsIn(priorities, b, o)
      {
        assert o in s.buckets[b];
      }
    }
  }

  lemma CallersPut(s: State, c: nat, priorities: seq<Priority>)
    requires c < |s.callers| && Sorted(s.buckets, priorities) && |priorities| == s.submitted
    ensures var s', more := CallerNext(s, c), Enqueued(s, CallerStep(c));
            Sorted(s'.buckets, priorities + more) && |priorities + more| == s'.submitted
  {
    if s.callers[c].place.Enqueue? {
      PutKeepsSorted(s.buckets, priorities, s.callers[c].place.p);
    } else {
      assert priorities + [] == priorities;
    }
  }

  lemma PutKeepsSorted(buckets: seq<multiset<nat>>, priorities: seq<Priority>, p: Priority)
    requires Sorted(buckets, priorities)
    ensures BucketOf(p) < BUCKETS
    ensures Sorted(buckets[BucketOf(p) := buckets[BucketOf(p)] + multiset{|priorities|}], priorities + [p])
  {
    var b', op' := BucketOf(p), |priorities|;
    var buckets' := buckets[b' := buckets[b'] + multiset{op'}];
    forall b: nat, op: nat | b < BUCKETS && op in buckets'[b]
      ensures BelongsIn(priorities + [p], b, op)
    {
      if op in buckets[b] {
        assert BelongsIn(priorities, b, op);
      } else {
        assert b == b' && op == op';
      }
    }
  }

  lemma {:induction false} WaitingIsSorted(max: nat, callers: nat, run: seq<Event>)
    ensures var s, priorities := Exec(max, callers, run), Priorities(max, callers, run);
            Sorted(s.buckets, priorities) && |priorities| == s.submitted
  {
    if run != [] {
      hide Next, Enqueued, Sorted;
      WaitingIsSorted(max, callers, run[..|run| - 1]);
      SortedNext(Exec(max, callers, run[..|run| - 1]), run[|run| - 1], Priorities(max, callers, run[..|run| - 1]));
    }
  }

  /** The operation waits, and none that waits is more urgent. */
  ghost predicate MostUrgent(buckets: seq<multiset<nat>>, priorities: seq<Priority>, op: nat)
    requires |buckets| == BUCKETS
  {
    && op in AllBuckets(buckets) && op < |priorities|
    && forall o: nat :: o in AllBuckets(buckets) && o < |priorities| ==> !MoreUrgent(priorities[o], priorities[op])
  }

  /** With at most that many steps of its own, undisturbed, the worker starts one of those. */
  ghost predicate StartsMostUrgent(s: State, w: nat, most: nat, buckets: seq<multiset<nat>>, priorities: seq<Priority>)
    requires |s.buckets| == BUCKETS && w < |s.workers| && |buckets| == BUCKETS
  {
    exists n: nat ::
      && n <= most && WorkerSolo(s, w, n).workers[w].Run?
      && MostUrgent(buckets, priorities, WorkerSolo(s, w, n).workers[w].op)
  }

  lemma StartsAfter(s: State, w: nat, most: nat, buckets: seq<multiset<nat>>, priorities: seq<Priority>)
    requires |s.buckets| == BUCKETS && w < |s.workers| && |buckets| == BUCKETS
    requires w < |Next(s, Delivering(s, w)).workers|
    requires StartsMostUrgent(Next(s, Delivering(s, w)), w, most, buckets, priorities)
    ensures StartsMostUrgent(s, w, most + 1, buckets, priorities)
  {
    hide MostUrgent, Next;
    var s1 := Next(s, Delivering(s, w));
    var n: nat :| n <= most && WorkerSolo(s1, w, n).workers[w].Run?
                  && MostUrgent(buckets, priorities, WorkerSolo(s1, w, n).workers[w].op);
    assert WorkerSolo(s, w, n + 1) == WorkerSolo(s1, w, n);
  }

  /** A scan that has found the buckets before its own empty. */
  lemma {:induction false} ScanStartsMostUrgent(s: State, w: nat, priorities: seq<Priority>)
    requires Sorted(s.buckets, priorities) && w < |s.workers| && s.workers[w].Pick? && s.workers[w].bucket < BUCKETS
    requires forall b :: 0 <= b < s.workers[w].bucket ==> s.buckets[b] == multiset{}
    requires exists b :: 0 <= b < BUCKETS && s.buckets[b] != multiset{}
    ensures StartsMostUrgent(s, w, BUCKETS - s.workers[w].bucket, s.buckets, priorities)
    decreases BUCKETS - s.workers[w].bucket
  {
    var b := s.workers[w].bucket;
    var s1 := Next(s, Delivering(s, w));
    AheadStep(b, 0);
    DeliveringStep(s, w);
    hide StartsMostUrgent, Next, Delivering, Ahead, MostUrgent, Sorted;
    if s.buckets[b] == multiset{} {
      ScanStartsMostUrgent(s1, w, priorities);
      StartsAfter(s, w, BUCKETS - b - 1, s.buckets, priorities);
    } else {
      DeliveredIsMostUrgent(s, w, priorities);
      StartsNow(s1, w, s.buckets, priorities);
      StartsAfter(s, w, 0, s.buckets, priorities);
      StartsSooner(s, w, 1, BUCKETS - b, s.buckets, priorities);
    }
  }

  lemma StartsNow(s: State, w: nat, buckets: seq<multiset<nat>>, priorities: seq<Priority>)
    requires |s.buckets| == BUCKETS && w < |s.workers| && |buckets| == BUCKETS
    requires s.workers[w].Run? && MostUrgent(buckets, priorities, s.workers[w].op)
    ensures StartsMostUrgent(s, w, 0, buckets, priorities)
  {
    assert WorkerSolo(s, w, 0) == s;
  }

  lemma StartsSooner(s: State, w: nat, most: nat, more: nat, buckets: seq<multiset<nat>>, priorities: seq<Priority>)
    requires |s.buckets| == BUCKETS && w < |s.workers| && |buckets| == BUCKETS && most <= more
    requires StartsMostUrgent(s, w, most, buckets, priorities)
    ensures StartsMostUrgent(s, w, more, buckets, priorities)
  {
  }

  lemma DeliveredIsMostUrgent(s: State, w: nat, priorities: seq<Priority>)
    requires Sorted(s.buckets, priorities) && w < |s.workers| && s.workers[w].Pick? && s.workers[w].bucket < BUCKETS
    requires forall b :: 0 <= b < s.workers[w].bucket ==> s.buckets[b] == multiset{}
    requires s.buckets[s.workers[w].bucket] != multiset{}
    ensures var s1 := Next(s, Delivering(s, w));
            |s1.workers| == |s.workers| && s1.workers[w].Run? && MostUrgent(s.buckets, priorities, s1.workers[w].op)
  {
    var b := s.workers[w].bucket;
    var e := Delivering(s, w);
    var any: nat :| any in s.buckets[b];
    assert Ahead(b, 0) == b && e.op in s.buckets[b];
    assert Next(s, e).workers[w] == Run(e.op);
    FirstBucketIsMostUrgent(s.buckets, priorities, b, e.op);
  }

  lemma FirstBucketIsMostUrgent(buckets: seq<multiset<nat>>, priorities: seq<Priority>, b: nat, op: nat)
    requires Sorted(buckets, priorities) && b < BUCKETS && op in buckets[b]
    requires forall a :: 0 <= a < b ==> buckets[a] == multiset{}
    ensures MostUrgent(buckets, priorities, op)
  {
    forall o: nat | o in AllBuckets(buckets) && o < |priorities| ensures !MoreUrgent(priorities[o], priorities[op]) {
      var a :| 0 <= a < BUCKETS && o in buckets[a];
      BucketsByUrgency(priorities[o], priorities[op]);
    }
  }

  /** The worker has a token and has not begun its scan, or its next look at the counter finds one. */
  predicate AboutToScan(s: State, l: Worker) {
    l == Pick(0) || l.Woke? || l.Restore? || (Attempting(l) && s.count > 0)
  }

  lemma ScanBegins(s: State, w: nat)
    requires |s.buckets| == BUCKETS && w < |s.workers| && AboutToScan(s, s.workers[w]) && s.workers[w] != Pick(0)
    ensures var s1 := Next(s, Delivering(s, w));
            && |s1.workers| == |s.workers| && s1.buckets == s.buckets
            && (s1.workers[w] == Pick(0)
                || (Attempting(s.workers[w]) && (s1.workers[w].Woke? || s1.workers[w].Restore?)))
  {
  }

  lemma ToTheScan(s: State, w: nat, priorities: seq<Priority>)
    requires Sorted(s.buckets, priorities) && w < |s.workers| && AboutToScan(s, s.workers[w])
    requires exists b :: 0 <= b < BUCKETS && s.buckets[b] != multiset{}
    ensures StartsMostUrgent(s, w, 6, s.buckets, priorities)
    ensures !Attempting(s.workers[w]) ==> StartsMostUrgent(s, w, 5, s.buckets, priorities)
    decreases Attempting(s.workers[w]), s.workers[w] != Pick(0)
  {
    assert |s.buckets| == BUCKETS;
    hide StartsMostUrgent, Sorted, Next, Delivering;
    var l, s1 := s.workers[w], Next(s, Delivering(s, w));
    if l == Pick(0) {
      ScanStartsMostUrgent(s, w, priorities);
      StartsSooner(s, w, 4, 5, s.buckets, priorities);
    } else {
      ScanBegins(s, w);
      if s1.workers[w] == Pick(0) {
        ScanStartsMostUrgent(s1, w, priorities);
        StartsAfter(s, w, 4, s.buckets, priorities);
      } else {
        ToTheScan(s1, w, priorities);
        StartsAfter(s, w, 5, s.buckets, priorities);
      }
    }
    if StartsMostUrgent(s, w, 5, s.buckets, priorities) {
      StartsSooner(s, w, 5, 6, s.buckets, priorities);
    }
  }

  /** In every run: a worker that has a token and begins its scan undisturbed, or looks at the counter
      when there is a token, starts an operation within six of its own steps, and no operation that
      waits in any bucket is more urgent than that one. */
  lemma MostUrgentIsStarted(max: nat, callers: nat, run: seq<Event>, w: nat)
    requires max > 0 && w < |Exec(max, callers, run).workers|
    requires AboutToScan(Exec(max, callers, run), Exec(max, callers, run).workers[w])
    ensures var s := Exec(max, callers, run);
            StartsMostUrgent(s, w, 6, s.buckets, Priorities(max, callers, run))
  {
    hide Exec, StartsMostUrgent, Sorted, AboutToScan, Priorities, Inv;
    EveryRunKeepsTheInvariant(max, callers, run);
    WaitingIsSorted(max, callers, run);
    ScannerHasOperation(Exec(max, callers, run), max, w);
    ToTheScan(Exec(max, callers, run), w, Priorities(max, callers, run));
  }

  lemma ScannerHasOperation(s: State, limit: nat, w: nat)
    requires Inv(s, limit) && w < |s.workers| && AboutToScan(s, s.workers[w])
    ensures exists b :: 0 <= b < BUCKETS && s.buckets[b] != multiset{}
  {
    SumAtLeast(s.workers, w, Redeems);
    SumNonNegative(s.callers, Unreleased);
    assert |AllBuckets(s.buckets)| > 0;
    var op :| op in AllBuckets(s.buckets);
    assert op in s.buckets[0] || op in s.buckets[1] || op in s.buckets[2] || op in s.buckets[3];
  }

  // ---- The assertions in schedule ----

  /** Alive workers that are counted as active but not as idle. */
  function Busy(l: Worker): int {
    Active(l) - Idles(l)
  }

  /** 1 when the event makes one more worker active: it is spawned, or restored after its last try. */
  function Enters(s: State, e: Event): int {
    match e
    case CallerStep(c) => Bit(c < |s.callers| && s.callers[c].place.Spawn?)
    case WorkerStep(w, _, _) => Bit(w < |s.workers| && s.workers[w].Restore?)
    case _ => 0
  }

  /** 1 when the event makes one worker less active: it retires. */
  function Leaves(s: State, e: Event): int {
    Bit(e.WorkerStep? && e.w < |s.workers| && s.workers[e.w].Retire?)
  }

  /** How many workers became active during `more`, events after `run`. */
  function Entered(max: nat, callers: nat, run: seq<Event>, more: seq<Event>): (n: int)
    ensures n >= 0
  {
    if more == [] then 0
    else
      var k := |more| - 1;
      Entered(max, callers, run, more[..k]) + Enters(Exec(max, callers, run + more[..k]), more[k])
  }

  function Left(max: nat, callers: nat, run: seq<Event>, more: seq<Event>): (n: int)
    ensures n >= 0
  {
    if more == [] then 0
    else
      var k := |more| - 1;
      Left(max, callers, run, more[..k]) + Leaves(Exec(max, callers, run + more[..k]), more[k])
  }

  lemma ActiveStep(s: State, e: Event)
    requires |s.buckets| == BUCKETS
    ensures Sum(Next(s, e).workers, Active) == Sum(s.workers, Active) + Enters(s, e) - Leaves(s, e)
  {
    if e.WorkerStep? && e.w < |s.workers| {
      var l := WorkerNext(s, e.w, e.yes, e.op).workers[e.w];
      WorkerActive(s, e.w, e.yes, e.op);
      SumUpdate(s.workers, e.w, l, Active);
    } else if e.CallerStep? && e.c < |s.callers| {
      SumAppend(s.workers, Try, Active);
    }
    hide Sum, WorkerNext;
  }

  lemma WorkerActive(s: State, w: nat, yes: bool, op: nat)
    requires |s.buckets| == BUCKETS && w < |s.workers|
    ensures var s', l := WorkerNext(s, w, yes, op), s.workers[w];
            && |s'.workers| == |s.workers| && s'.workers == s.workers[w := s'.workers[w]]
            && Active(s'.workers[w]) == Active(l) + Bit(l.Restore?) - Bit(l.Retire?)
  {
  }

  lemma {:induction false} ActiveChange(max: nat, callers: nat, run: seq<Event>, more: seq<Event>)
    ensures Sum(Exec(max, callers, run + more).workers, Active)
            == Sum(Exec(max, callers, run).workers, Active)
               + Entered(max, callers, run, more) - Left(max, callers, run, more)
  {
    hide Next, Enters, Leaves, Sum;
    if more == [] {
      assert run + more == run;
    } else {
      var k := |more| - 1;
      assert (run + more)[..|run + more| - 1] == run + more[..k];
      ActiveChange(max, callers, run, more[..k]);
      ActiveStep(Exec(max, callers, run + more[..k]), more[k]);
    }
  }

  /** A caller inside schedule stays where it is until its own next step. */
  lemma {:induction false} CallerStays(max: nat, callers: nat, run: seq<Event>, more: seq<Event>, c: nat)
    requires c < |Exec(max, callers, run).callers| && !Exec(max, callers, run).callers[c].place.Out?
    requires CallerStep(c) !in more
    ensures var s, s' := Exec(max, callers, run), Exec(max, callers, run + more);
            c < |s'.callers| && s'.callers[c].place == s.callers[c].place
  {
    if more == [] {
      assert run + more == run;
    } else {
      hide Next;
      var k := |more| - 1;
      assert (run + more)[..|run + more| - 1] == run + more[..k];
      assert more[k] in more;
      CallerStays(max, callers, run, more[..k], c);
      OthersLeaveCaller(Exec(max, callers, run + more[..k]), more[k], c);
    }
  }

  lemma OthersLeaveCaller(s: State, e: Event, c: nat)
    requires |s.buckets| == BUCKETS && c < |s.callers| && !s.callers[c].place.Out? && e != CallerStep(c)
    ensures |Next(s, e).callers| == |s.callers| && Next(s, e).callers[c].place == s.callers[c].place
  {
  }

  /** The run up to the second of the two loads of schedule, whatever happens between them. */
  function ToSecondLoad(run: seq<Event>, between: seq<Event>, c: nat): seq<Event> {
    run + [CallerStep(c)] + between
  }

  /** The two values that schedule loads, at two moments, and what their assertions come to. The first
      value is the active counter of the first moment, the second the idle counter of the second; the
      second is not larger exactly when the spawned workers that were not counted at the first moment,
      together with the workers that became active since, are at most those that are busy at the second
      moment together with those that retired since. So it holds when everybody was counted and
      nobody was spawned or restored in between. The first value is not negative when everybody was
      counted, and exactly as long as the uncounted are at most the active workers. */
  lemma LoadedCounters(max: nat, callers: nat, run: seq<Event>, between: seq<Event>, c: nat)
    requires max > 0 && CallerStep(c) !in between
    requires var s := Exec(max, callers, run); c < |s.callers| && s.callers[c].place == LoadActive
    ensures var s, s1 := Exec(max, callers, run), Exec(max, callers, ToSecondLoad(run, between, c));
            var s2 := Next(s1, CallerStep(c));
            var uncounted := Sum(s.callers, Uncounted);
            var entered := Entered(max, callers, run + [CallerStep(c)], between);
            var left := Left(max, callers, run + [CallerStep(c)], between);
            && c < |s2.callers| && s2.callers[c].place == LoadMax(s.active, s1.idle)
            && 0 <= s1.idle
            && (s1.idle <= s.active <==> uncounted + entered <= Sum(s1.workers, Busy) + left)
            && (uncounted == 0 && entered == 0 ==> s1.idle <= s.active)
            && (uncounted == 0 ==> 0 <= s.active)
            && (0 <= s.active <==> uncounted <= Sum(s.workers, Active))
  {
    var first := run + [CallerStep(c)];
    hide Exec, Next, Inv;
    Continue(max, callers, run, CallerStep(c));
    FirstLoad(Exec(max, callers, run), c);
    CallerStays(max, callers, first, between, c);
    ActiveChange(max, callers, first, between);
    EveryRunKeepsTheInvariant(max, callers, run);
    EveryRunKeepsTheInvariant(max, callers, first + between);
    CountersOf(Exec(max, callers, run), max);
    CountersOf(Exec(max, callers, first + between), max);
    SecondLoad(Exec(max, callers, first + between), c);
  }

  lemma FirstLoad(s: State, c: nat)
    requires |s.buckets| == BUCKETS && c < |s.callers| && s.callers[c].place == LoadActive
    ensures var s' := Next(s, CallerStep(c));
            |s'.callers| == |s.callers| && s'.callers[c].place == LoadIdle(s.active) && s'.workers == s.workers
  {
  }

  lemma SecondLoad(s: State, c: nat)
    requires |s.buckets| == BUCKETS && c < |s.callers| && s.callers[c].place.LoadIdle?
    ensures var s' := Next(s, CallerStep(c));
            |s'.callers| == |s.callers| && s'.callers[c].place == LoadMax(s.callers[c].place.a, s.idle)
  {
  }

  /** The counters of one moment, in terms of the workers. */
  lemma CountersOf(s: State, limit: nat)
    requires Inv(s, limit)
    ensures s.active == Sum(s.workers, Active) - Sum(s.callers, Uncounted)
    ensures s.idle == Sum(s.workers, Active) - Sum(s.workers, Busy)
    ensures 0 <= s.idle && Sum(s.workers, Busy) >= 0 && Sum(s.workers, Active) >= 0 && Sum(s.callers, Uncounted) >= 0
  {
    SumNonNegative(s.workers, Idles);
    SumNonNegative(s.workers, Busy);
    SumNonNegative(s.workers, Active);
    SumNonNegative(s.callers, Uncounted);
    SumPlus(s.workers, Idles, Busy, Active);
  }

  /** In one state, once the spawned workers that are not counted yet are added, never more workers are
      idle than active: what the assertions were meant to say. */
  lemma CountersInEveryRun(max: nat, callers: nat, run: seq<Event>)
    requires max > 0
    ensures var s := Exec(max, callers, run); 0 <= s.idle <= s.active + Sum(s.callers, Uncounted)
  {
    EveryRunKeepsTheInvariant(max, callers, run);
    CountersOf(Exec(max, callers, run), max);
  }

  // Runs in which the assertions fail.

  lemma OneMore(max: nat, callers: nat, run: seq<Event>, k: nat)
    requires k < |run|
    ensures Exec(max, callers, run[..k + 1]) == Next(Exec(max, callers, run[..k]), run[k])
  {
    assert run[..k + 1][..k] == run[..k];
  }

  /** Caller 0 spawns a worker. */
  const SPAWN: seq<Event> := [Block(0), CallerStep(0), CallerStep(0), CallerStep(0), CallerStep(0)]

  const WORKER: Event := WorkerStep(0, false, 0)

  lemma AfterSpawn()
    ensures var s := Exec(1, 2, SPAWN);
            && s.active == 0 && s.idle == 0 && s.count == 0 && s.workers == [Try] && s.submitted == 0
            && (forall b :: 0 <= b < BUCKETS ==> s.buckets[b] == multiset{})
            && s.callers == [Caller(CountSpawned, 1), Caller(Out, 0)]
  {
    hide Exec;
    AfterLoads();
    assert SPAWN[..5] == SPAWN;
    OneMore(1, 2, SPAWN, 3);
    OneMore(1, 2, SPAWN, 4);
  }

  lemma AfterLoads()
    ensures var s := Exec(1, 2, SPAWN[..3]);
            && s.active == 0 && s.idle == 0 && s.max == 2 && s.count == 0 && s.workers == [] && s.submitted == 0
            && (forall b :: 0 <= b < BUCKETS ==> s.buckets[b] == multiset{})
            && s.callers == [Caller(LoadMax(0, 0), 1), Caller(Out, 0)]
  {
    assert SPAWN[..0] == [];
    OneMore(1, 2, SPAWN, 0);
    OneMore(1, 2, SPAWN, 1);
    OneMore(1, 2, SPAWN, 2);
  }

  /** The rest of a run, event by event. */
  lemma Continue(max: nat, callers: nat, run: seq<Event>, e: Event)
    ensures Exec(max, callers, run + [e]) == Next(Exec(max, callers, run), e)
  {
    assert (run + [e])[..|run + [e]| - 1] == run;
  }

  /** A worker that is spawned but not counted yet has become idle. */
  const IDLE_UNCOUNTED: seq<Event> := SPAWN + [WORKER] + [WORKER] + [WORKER]

  lemma AfterIdleUncounted()
    ensures var s := Exec(1, 2, IDLE_UNCOUNTED);
            && s.active == 0 && s.idle == 1 && s.count == 0 && s.workers == [Waiting] && s.submitted == 0
            && (forall b :: 0 <= b < BUCKETS ==> s.buckets[b] == multiset{})
            && s.callers == [Caller(CountSpawned, 1), Caller(Out, 0)]
  {
    hide Exec;
    AfterSpawn();
    Continue(1, 2, SPAWN, WORKER);
    Continue(1, 2, SPAWN + [WORKER], WORKER);
    Continue(1, 2, SPAWN + [WORKER] + [WORKER], WORKER);
  }

  /** Another caller schedules then: more idle than active workers, although nothing happens between
      its two loads. */
  lemma IdleCanExceedActive()
    ensures var s := Exec(1, 2, IDLE_UNCOUNTED + [Block(1)] + [CallerStep(1)] + [CallerStep(1)]);
            |s.callers| == 2 && s.callers[1].place == LoadMax(0, 1)
  {
    hide Exec;
    AfterIdleUncounted();
    Continue(1, 2, IDLE_UNCOUNTED, Block(1));
    Continue(1, 2, IDLE_UNCOUNTED + [Block(1)], CallerStep(1));
    Continue(1, 2, IDLE_UNCOUNTED + [Block(1)] + [CallerStep(1)], CallerStep(1));
  }

  /** A worker is spawned, counted and idle between the two loads of caller 1. */
  const SPAWN_BETWEEN: seq<Event> :=
    [Block(1), CallerStep(1), Block(0), CallerStep(0), CallerStep(0), CallerStep(0), CallerStep(0), CallerStep(0),
     WORKER, WORKER, WORKER, CallerStep(1)]

  /** The loaded values fail then although nobody is uncounted any more. */
  lemma IdleCanExceedActiveWhenCounted()
    ensures var s := Exec(1, 2, SPAWN_BETWEEN);
            && |s.callers| == 2 && s.callers[1].place == LoadMax(0, 1)
            && s.callers[0].place == Out && s.idle == s.active == 1
  {
    hide Exec;
    SpawnedBetween();
    OneMore(1, 2, SPAWN_BETWEEN, 8);
    OneMore(1, 2, SPAWN_BETWEEN, 9);
    OneMore(1, 2, SPAWN_BETWEEN, 10);
    OneMore(1, 2, SPAWN_BETWEEN, 11);
    assert SPAWN_BETWEEN[..12] == SPAWN_BETWEEN;
  }

  lemma SpawnedBetween()
    ensures var s := Exec(1, 2, SPAWN_BETWEEN[..8]);
            && s.active == 1 && s.idle == 0 && s.count == 0 && s.workers == [Try]
            && s.callers == [Caller(Out, 1), Caller(LoadIdle(0), 1)]
  {
    hide Exec;
    FirstLoaded();
    OneMore(1, 2, SPAWN_BETWEEN, 4);
    OneMore(1, 2, SPAWN_BETWEEN, 5);
    OneMore(1, 2, SPAWN_BETWEEN, 6);
    OneMore(1, 2, SPAWN_BETWEEN, 7);
  }

  lemma FirstLoaded()
    ensures var s := Exec(1, 2, SPAWN_BETWEEN[..4]);
            && s.active == 0 && s.idle == 0 && s.max == 3 && s.count == 0 && s.workers == []
            && s.callers == [Caller(LoadIdle(0), 1), Caller(LoadIdle(0), 1)]
  {
    assert SPAWN_BETWEEN[..0] == [];
    OneMore(1, 2, SPAWN_BETWEEN, 0);
    OneMore(1, 2, SPAWN_BETWEEN, 1);
    OneMore(1, 2, SPAWN_BETWEEN, 2);
    OneMore(1, 2, SPAWN_BETWEEN, 3);
  }

  /** The uncounted worker gives up and retires before it is counted. */
  const RETIRED_UNCOUNTED: seq<Event> := IDLE_UNCOUNTED + [WORKER] + [WORKER] + [WORKER]

  lemma AfterRetiring()
    ensures var s := Exec(1, 2, RETIRED_UNCOUNTED);
            && s.active == -1 && s.idle == 0 && s.count == 0 && s.workers == [LastTry] && s.submitted == 0
            && (forall b :: 0 <= b < BUCKETS ==> s.buckets[b] == multiset{})
            && s.callers == [Caller(CountSpawned, 1), Caller(Out, 0)]
  {
    hide Exec;
    AfterIdleUncounted();
    Continue(1, 2, IDLE_UNCOUNTED, WORKER);
    Continue(1, 2, IDLE_UNCOUNTED + [WORKER], WORKER);
    Continue(1, 2, IDLE_UNCOUNTED + [WORKER] + [WORKER], WORKER);
  }

  /** Then another caller loads a negative number of active workers. */
  lemma ActiveCanBeNegative()
    ensures var s := Exec(1, 2, RETIRED_UNCOUNTED + [Block(1)] + [CallerStep(1)] + [CallerStep(1)]);
            |s.callers| == 2 && s.callers[1].place == LoadMax(-1, 0)
  {
    hide Exec;
    AfterRetiring();
    Continue(1, 2, RETIRED_UNCOUNTED, Block(1));
    Continue(1, 2, RETIRED_UNCOUNTED + [Block(1)], CallerStep(1));
    Continue(1, 2, RETIRED_UNCOUNTED + [Block(1)] + [CallerStep(1)], CallerStep(1));
  }

  /** The spawner counts the worker while it is at its last try; caller 1 submits an operation, the
      worker finds its token, and caller 1 loads the active counter before the worker restores it. */
  const RESTORING: seq<Event> :=
    RETIRED_UNCOUNTED + [CallerStep(0)] + [Submit(1, Default)] + [CallerStep(1)] + [CallerStep(1)] + [WORKER]
    + [CallerStep(1)]

  lemma AfterRestoring()
    ensures var s := Exec(1, 2, RESTORING);
            && s.active == 0 && s.idle == 0 && s.count == 0 && s.workers == [Restore]
            && s.buckets[0] == multiset{} && s.buckets[1] == multiset{} && s.buckets[2] == multiset{0}
            && s.callers == [Caller(Out, 1), Caller(LoadIdle(0), 0)]
  {
    hide Exec;
    AfterRetiring();
    var run := RETIRED_UNCOUNTED;
    Continue(1, 2, run, CallerStep(0));
    Continue(1, 2, run + [CallerStep(0)], Submit(1, Default));
    Continue(1, 2, run + [CallerStep(0)] + [Submit(1, Default)], CallerStep(1));
    Continue(1, 2, run + [CallerStep(0)] + [Submit(1, Default)] + [CallerStep(1)], CallerStep(1));
    Continue(1, 2, run + [CallerStep(0)] + [Submit(1, Default)] + [CallerStep(1)] + [CallerStep(1)], WORKER);
    Continue(1, 2, run + [CallerStep(0)] + [Submit(1, Default)] + [CallerStep(1)] + [CallerStep(1)] + [WORKER],
             CallerStep(1));
  }

  /** The worker restores the counter and finds the operation. */
  const EXECUTING: seq<Event> := RESTORING + [WORKER] + [WORKER] + [WORKER] + [WORKER]

  lemma AfterScanning()
    ensures var s := Exec(1, 2, RESTORING + [WORKER] + [WORKER]);
            && s.active == 1 && s.idle == 0 && s.count == 0 && s.workers == [Pick(1)]
            && s.buckets[1] == multiset{} && s.buckets[2] == multiset{0}
            && s.callers == [Caller(Out, 1), Caller(LoadIdle(0), 0)]
  {
    hide Exec;
    AfterRestoring();
    Continue(1, 2, RESTORING, WORKER);
    Continue(1, 2, RESTORING + [WORKER], WORKER);
  }

  lemma AfterExecuting()
    ensures var s := Exec(1, 2, EXECUTING);
            && s.active == 1 && s.idle == 0 && s.count == 0 && s.workers == [Run(0)]
            && s.callers == [Caller(Out, 1), Caller(LoadIdle(0), 0)]
  {
    hide Exec;
    AfterScanning();
    var run := RESTORING + [WORKER] + [WORKER];
    Continue(1, 2, run, WORKER);
    Continue(1, 2, run + [WORKER], WORKER);
  }

  /** It ends the operation and becomes idle before the second load. */
  const RESTORED: seq<Event> := EXECUTING + [WORKER] + [WORKER] + [WORKER] + [WORKER]

  lemma AfterRestored()
    ensures var s := Exec(1, 2, RESTORED);
            s.active == 1 && s.idle == 1 && s.callers == [Caller(Out, 1), Caller(LoadIdle(0), 0)]
  {
    hide Exec;
    AfterExecuting();
    var run := EXECUTING;
    Continue(1, 2, run, WORKER);
    Continue(1, 2, run + [WORKER], WORKER);
    Continue(1, 2, run + [WORKER] + [WORKER], WORKER);
    Continue(1, 2, run + [WORKER] + [WORKER] + [WORKER], WORKER);
  }

  /** So the assertion also fails when every spawn was counted before the first load. */
  lemma IdleCanExceedActiveByRestoring()
    ensures var s := Exec(1, 2, RESTORED + [CallerStep(1)]);
            |s.callers| == 2 && s.callers[1].place == LoadMax(0, 1) && s.callers[0].place == Out
  {
    hide Exec;
    AfterRestored();
    Continue(1, 2, RESTORED, CallerStep(1));
  }

  // ---- An undisturbed execute ----

  function CallerSteps(s: State, c: nat, n: nat): (s': State)
    requires |s.buckets| == BUCKETS
    ensures |s'.buckets| == BUCKETS
  {
    if n == 0 then s else Next(CallerSteps(s, c, n - 1), CallerStep(c))
  }

  /** A schedule that nobody disturbs: the caller is out of it after at most five steps, and has spawned
      and counted one worker exactly when none was idle and the limit was not reached; so it does not
      pass the limit. */
  lemma ScheduleAlone(s: State, c: nat)
    requires |s.buckets| == BUCKETS && c < |s.callers| && s.callers[c].place == LoadActive
    ensures var spawns := s.idle <= 0 && s.active < s.max;
            var s' := CallerSteps(s, c, if spawns then 5 else 3);
            && s' == AtCaller(s, c, Out).(workers := s.workers + (if spawns then [Try] else []),
                                          active := s.active + Bit(spawns))
            && (s.active <= s.max ==> s'.active <= s.max)
  {
    var s0 := CallerSteps(s, c, 0);
    var s1 := CallerSteps(s, c, 1);
    var s2 := CallerSteps(s, c, 2);
    var s3 := CallerSteps(s, c, 3);
    if s.idle <= 0 && s.active < s.max {
      var s4 := CallerSteps(s, c, 4);
      assert CallerSteps(s, c, 5) == Next(s4, CallerStep(c));
    }
    assert s.callers[c := s.callers[c].(place := Out)] == s3.callers[c := s.callers[c].(place := Out)];
  }

  /** Reporting a blocked thread, undisturbed: the limit is one higher, and where no worker is idle and
      the old limit was not passed a worker is spawned at once in place of the blocked one; taking the
      report back restores the limit and stops no worker. */
  lemma BlockAlone(s: State, c: nat)
    requires |s.buckets| == BUCKETS && c < |s.callers| && s.callers[c].place == Out
    ensures var spawns := s.idle <= 0 && s.active <= s.max;
            var s' := CallerSteps(Next(s, Block(c)), c, if spawns then 5 else 3);
            && s' == s.(max := s.max + 1, callers := s.callers[c := Caller(Out, s.callers[c].blocked + 1)],
                        workers := s.workers + (if spawns then [Try] else []), active := s.active + Bit(spawns))
            && Next(s', Unblock(c)) == s'.(max := s.max, callers := s.callers)
  {
    var s1 := Next(s, Block(c));
    ScheduleAlone(s1, c);
    hide CallerSteps;
    var s' := CallerSteps(s1, c, if s.idle <= 0 && s.active <= s.max then 5 else 3);
    assert s'.callers == s.callers[c := Caller(Out, s.callers[c].blocked + 1)];
    assert s.callers == s'.callers[c := s.callers[c]];
  }

  /** The calls of execute up to its schedule. */
  lemma SubmitAlone(s: State, c: nat, p: Priority)
    requires |s.buckets| == BUCKETS && c < |s.callers| && s.callers[c].place == Out
    ensures var s' := CallerSteps(Next(s, Submit(c, p)), c, 2);
            && |s'.callers| == |s.callers| && s'.callers[c].place == LoadActive
            && BucketOf(p) < BUCKETS && s'.count == s.count + 1
            && s'.buckets == s.buckets[BucketOf(p) := s.buckets[BucketOf(p)] + multiset{s.submitted}]
            && s'.active == s.active && s'.idle == s.idle && s'.max == s.max && s'.workers == s.workers
  {
    var s0 := Next(s, Submit(c, p));
    assert CallerSteps(s0, c, 0) == s0;
    var s1 := CallerSteps(s0, c, 1);
  }

  /** An execute that nobody disturbs, in any run: afterwards the operation waits behind the more
      urgent ones and before the less urgent ones with one more token in the counter, the caller is out,
      and some worker is alive, so that nothing more is needed for the operation to be found. */
  lemma ExecuteAlone(max: nat, callers: nat, run: seq<Event>, c: nat, p: Priority)
    requires max > 0
    requires var s := Exec(max, callers, run); c < |s.callers| && s.callers[c].place == Out
    ensures var s := Exec(max, callers, run);
            var s1 := CallerSteps(Next(s, Submit(c, p)), c, 2);
            var s' := CallerSteps(s1, c, if s.idle <= 0 && s.active < s.max then 5 else 3);
            && PutByUrgency(s.buckets, s'.buckets, Priorities(max, callers, run), s.submitted, p)
            && s'.count == s.count + 1
            && c < |s'.callers| && s'.callers[c].place == Out && !NoneAlive(s'.workers)
  {
    hide Inv, PutByUrgency, Sorted, Exec;
    EveryRunKeepsTheInvariant(max, callers, run);
    WaitingIsSorted(max, callers, run);
    ExecuteSteps(Exec(max, callers, run), max, c, p, Priorities(max, callers, run));
  }

  /** The operation is put behind the more urgent ones, before the less urgent ones, and with those of
      its own urgency; nothing else moves. */
  ghost predicate PutByUrgency(buckets: seq<multiset<nat>>, buckets': seq<multiset<nat>>, priorities: seq<Priority>,
                               op: nat, p: Priority)
    requires |buckets| == BUCKETS
  {
    exists b: nat ::
      && b < BUCKETS && buckets' == buckets[b := buckets[b] + multiset{op}]
      && forall a: nat, o: nat :: a < BUCKETS && o in buckets[a] && o < |priorities| ==>
           && (a < b <==> MoreUrgent(priorities[o], p))
           && (b < a <==> MoreUrgent(p, priorities[o]))
  }

  lemma PutIsByUrgency(buckets: seq<multiset<nat>>, priorities: seq<Priority>, op: nat, p: Priority)
    requires Sorted(buckets, priorities)
    ensures BucketOf(p) < BUCKETS
    ensures PutByUrgency(buckets, buckets[BucketOf(p) := buckets[BucketOf(p)] + multiset{op}], priorities, op, p)
  {
    forall a: nat, o: nat | a < BUCKETS && o in buckets[a] && o < |priorities|
      ensures a < BucketOf(p) <==> MoreUrgent(priorities[o], p)
      ensures BucketOf(p) < a <==> MoreUrgent(p, priorities[o])
    {
      BucketsByUrgency(priorities[o], p);
      BucketsByUrgency(p, priorities[o]);
    }
  }

  lemma ExecuteSteps(s: State, limit: nat, c: nat, p: Priority, priorities: seq<Priority>)
    requires Sorted(s.buckets, priorities)
    requires |s.buckets| == BUCKETS && Inv(s, limit) && limit > 0 && c < |s.callers| && s.callers[c].place == Out
    ensures var s1 := CallerSteps(Next(s, Submit(c, p)), c, 2);
            var s' := CallerSteps(s1, c, if s.idle <= 0 && s.active < s.max then 5 else 3);
            && PutByUrgency(s.buckets, s'.buckets, priorities, s.submitted, p) && s'.count == s.count + 1
            && c < |s'.callers| && s'.callers[c].place == Out && !NoneAlive(s'.workers)
  {
    hide Inv, CallerSteps, Next, NoneAlive, PutByUrgency, Sorted, BucketOf;
    PutIsByUrgency(s.buckets, priorities, s.submitted, p);
    var s1 := CallerSteps(Next(s, Submit(c, p)), c, 2);
    SubmitAlone(s, c, p);
    ScheduleAlone(s1, c);
    if s.idle <= 0 && s.active < s.max {
      OneMoreIsAlive(s.workers);
    } else {
      SomebodyIsAlive(s, limit);
      assert s.workers + [] == s.workers;
    }
  }

  lemma OneMoreIsAlive(workers: seq<Worker>)
    ensures !NoneAlive(workers + [Try])
  {
    assert (workers + [Try])[|workers|] == Try;
  }

  /** With an idle worker, or as many active ones as the limit, some worker is alive. */
  lemma SomebodyIsAlive(s: State, limit: nat)
    requires Inv(s, limit) && limit > 0 && (s.idle > 0 || s.active >= s.max)
    ensures !NoneAlive(s.workers)
  {
    if NoneAlive(s.workers) {
      NoneAliveCounts(s, limit);
    }
  }

  // ---- The pool's operations in place ----

  /** The counters and buckets of a pool that one thread uses; here the buckets are queues. */
  class Pool {
    var count: nat
    var active: int
    var idle: int
    var max: int
    const buckets: array<seq<nat>>

    constructor (limit: nat)
      ensures fresh(buckets) && buckets.Length == BUCKETS && count == 0 && active == 0 && idle == 0 && max == limit
    {
      count, active, idle, max := 0, 0, 0, limit;
      buckets := new seq<nat>[BUCKETS](_ => []);
    }

    /** The counters change as ScheduleAlone says of the machine. */
    method Schedule() returns (spawned: bool)
      modifies this`active
      ensures spawned <==> idle <= 0 && old(active) < max
      ensures active == old(active) + Bit(spawned)
    {
      var a, i := active, idle;
      spawned := false;
      if i > 0 {
        return;
      } else if a < max {
        spawned := true;
        active := active + 1;
      }
    }

    method Execute(op: nat, p: Priority) returns (spawned: bool)
      requires buckets.Length == BUCKETS
      modifies this`active, this`count, buckets
      ensures count == old(count) + 1 && (spawned <==> idle <= 0 && old(active) < max)
      ensures buckets[..] == old(buckets[..])[BucketOf(p) := old(buckets[BucketOf(p)]) + [op]]
      ensures active == old(active) + Bit(spawned)
    {
      buckets[BucketOf(p)] := buckets[BucketOf(p)] + [op];
      count := count + 1;
      spawned := Schedule();
    }

    /** The scan of a worker for the operation of its token. A dequeue may miss although the bucket
        is not empty; `misses` says which of the first ones do. One operation is taken, from the
        front of its bucket, and without misses it is from the first bucket that has one. */
    method Scan(misses: seq<bool>) returns (op: nat, bucket: nat)
      requires buckets.Length == BUCKETS && exists b :: 0 <= b < BUCKETS && buckets[b] != []
      modifies buckets
      ensures bucket < BUCKETS && old(buckets[bucket]) != [] && op == old(buckets[bucket])[0]
      ensures buckets[..] == old(buckets[..])[bucket := old(buckets[bucket])[1..]]
      ensures misses == [] ==> forall b :: 0 <= b < bucket ==> old(buckets[b]) == []
    {
      ghost var full :| 0 <= full < BUCKETS && buckets[full] != [];
      bucket := 0;
      var tries, found := 0, false;
      op := 0;
      while !found
        invariant bucket <= BUCKETS
        invariant !found ==> buckets[..] == old(buckets[..])
        invariant !found && misses == [] ==> tries == bucket <= full && forall b :: 0 <= b < bucket ==>
            old(buckets[b]) == []
        invariant found ==> bucket < BUCKETS && old(buckets[bucket]) != [] && op == old(buckets[bucket])[0]
        invariant found ==> buckets[..] == old(buckets[..])[bucket := old(buckets[bucket])[1..]]
        invariant found && misses == [] ==> forall b :: 0 <= b < bucket ==> old(buckets[b]) == []
        decreases !found, if tries < |misses| then |misses| - tries else 0,
                  if bucket <= full then full - bucket else full + BUCKETS + 1 - bucket
      {
        if bucket == BUCKETS {
          bucket := 0;
        }
        if buckets[bucket] != [] && !(tries < |misses| && misses[tries]) {
          op := buckets[bucket][0];
          buckets[bucket] := buckets[bucket][1..];
          found := true;
        } else {
          bucket := bucket + 1;
        }
        tries := tries + 1;
      }
    }
  }
}

/** The counting semaphore behind the thread pool.

    Acquirers decrement the count in a compare-and-swap loop; those that have to wait sleep on a
    condition variable; a release first adds to the count and only takes the lock to notify when it
    sees waiters. Every atomic access, every lock operation and every wake-up is one step. */
module Semaphore {
  import opened Threads

  /** Why a thread evaluates the wait predicate: on entry, or woken by a notification, by the
      timeout, or for no reason. */
  datatype Cause = Entry | Notified | TimedOut | Spurious

  /** The place that called try_acquire. */
  datatype Context = Plain | Spin(i: nat, spins: nat) | First | Locked | Recheck(cause: Cause)

  datatype Local =
    | Idle(result: Option<bool>)
    | Load(ctx: Context)
    | Cas(ctx: Context, seen: int)
    | SpinTest(i: nat, spins: nat)
    | SpinRead(i: nat, spins: nat)
    | WaitLock
    | AddWaiter
    | PreSleep
    | Sleeping
    | Woken(cause: Cause)
    | DropWaiter(got: bool)
    | UnlockReturn(got: bool)
    | ReleaseAdd(n: nat)
    | ReleaseLoad(n: nat)
    | ReleaseLock(n: nat)
    | ReleaseNotify(n: nat)
    | ReleaseUnlock

  /** `released`, `acquired` and `granted` are history: tokens released, successful decrements, and
      calls that have returned true. */
  datatype State = State(
    count: int, waiters: int, locked: bool, threads: seq<Local>, released: nat, acquired: nat, granted: nat)

  /** `spurious` makes a weak compare-and-swap fail; `u` is the thread that notify_one picks. */
  datatype Event =
    | TryAcquire(t: nat)
    | SpinAcquire(t: nat, spins: nat)
    | WaitAcquire(t: nat)
    | Release(t: nat, n: nat)
    | Step(t: nat, spurious: bool, u: nat)
    | Wake(t: nat, cause: Cause)

  function At(s: State, t: nat, l: Local): State
    requires t < |s.threads|
  {
    s.(threads := s.threads[t := l])
  }

  /** Where try_acquire returns to. */
  function Failed(ctx: Context): Local {
    match ctx
    case Plain => Idle(Some(false))
    case Spin(i, spins) => SpinRead(i, spins)
    case First => WaitLock
    case Locked => AddWaiter
    case Recheck(cause) => if cause == TimedOut then DropWaiter(false) else PreSleep
  }

  function Succeeded(ctx: Context): Local {
    match ctx
    case Plain => Idle(Some(true))
    case Spin(_, _) => Idle(Some(true))
    case First => Idle(Some(true))
    case Locked => UnlockReturn(true)
    case Recheck(_) => DropWaiter(true)
  }

  function Looked(ctx: Context, seen: int): Local {
    if seen == 0 then Failed(ctx) else Cas(ctx, seen)
  }

  function WakeAll(threads: seq<Local>): seq<Local> {
    seq(|threads|, i requires 0 <= i < |threads| => if threads[i].Sleeping? then Woken(Notified) else threads[i])
  }

  function Returned(s: State, t: nat, result: bool): State
    requires t < |s.threads|
  {
    At(s, t, Idle(Some(result))).(granted := s.granted + if result then 1 else 0)
  }

  function Advance(s: State, t: nat, spurious: bool, u: nat): State
    requires t < |s.threads|
  {
    match s.threads[t]
    case Idle(_) => s
    case Load(ctx) => At(s, t, Looked(ctx, s.count))
    case Cas(ctx, seen) =>
      if s.count == seen && !spurious then
        var done := s.(count := s.count - 1, acquired := s.acquired + 1);
        if Succeeded(ctx).Idle? then Returned(done, t, true) else At(done, t, Succeeded(ctx))
      else At(s, t, Looked(ctx, s.count))
    case SpinTest(i, spins) => At(s, t, if i < spins then Load(Spin(i, spins)) else Idle(Some(false)))
    case SpinRead(i, spins) =>
      At(s, t, if s.count == 0 && i < spins then SpinRead(i + 1, spins) else SpinTest(i + 1, spins))
    case WaitLock => if s.locked then s else At(s, t, Load(Locked)).(locked := true)
    case AddWaiter => At(s, t, Load(Recheck(Entry))).(waiters := s.waiters + 1)
    case PreSleep => At(s, t, Sleeping).(locked := false)
    case Sleeping => s
    case Woken(cause) => if s.locked then s else At(s, t, Load(Recheck(cause))).(locked := true)
    case DropWaiter(r) => At(s, t, UnlockReturn(r)).(waiters := s.waiters - 1)
    case UnlockReturn(r) => Returned(s, t, r).(locked := false)
    case ReleaseAdd(n) => At(s, t, ReleaseLoad(n)).(count := s.count + n, released := s.released + n)
    case ReleaseLoad(n) => At(s, t, if s.waiters != 0 then ReleaseLock(n) else Idle(None))
    case ReleaseLock(n) => if s.locked then s else At(s, t, ReleaseNotify(n)).(locked := true)
    case ReleaseNotify(n) =>
      if n != 1 then At(s.(threads := WakeAll(s.threads)), t, ReleaseUnlock)
      else if u < |s.threads| && s.threads[u].Sleeping? then At(At(s, u, Woken(Notified)), t, ReleaseUnlock)
      else if Sleeping in s.threads then s
      else At(s, t, ReleaseUnlock)
    case ReleaseUnlock => At(s, t, Idle(None)).(locked := false)
  }

  function Next(s: State, e: Event): (s': State)
    ensures |s'.threads| == |s.threads|
  {
    if e.t >= |s.threads| then s
    else if e.Step? then Advance(s, e.t, e.spurious, e.u)
    else if e.Wake? then
      (if s.threads[e.t].Sleeping? && (e.cause == TimedOut || e.cause == Spurious)
          then At(s, e.t, Woken(e.cause)) else s)
    else if !s.threads[e.t].Idle? then s
    else match e
         case TryAcquire(t) => At(s, t, Load(Plain))
         case SpinAcquire(t, spins) => At(s, t, SpinTest(0, spins))
         case WaitAcquire(t) => At(s, t, Load(First))
         case Release(t, n) => if n > 0 then At(s, t, ReleaseAdd(n)) else s
         case Step(_, _, _) => s
         case Wake(_, _) => s
  }

  function Start(initial: nat, threads: nat): State {
    State(initial, 0, false, seq(threads, _ => Idle(None)), 0, 0, 0)
  }

  function Exec(initial: nat, threads: nat, run: seq<Event>): State {
    if run == [] then Start(initial, threads) else Next(Exec(initial, threads, run[..|run| - 1]), run[|run| - 1])
  }

  // ---- Invariant ----

  function Holds(l: Local): int {
    Bit(match l
        case Load(ctx) => ctx.Locked? || ctx.Recheck?
        case Cas(ctx, _) => ctx.Locked? || ctx.Recheck?
        case AddWaiter => true
        case PreSleep => true
        case DropWaiter(_) => true
        case UnlockReturn(_) => true
        case ReleaseNotify(_) => true
        case ReleaseUnlock => true
        case _ => false)
  }

  function Waits(l: Local): int {
    Bit(match l
        case Load(ctx) => ctx.Recheck?
        case Cas(ctx, _) => ctx.Recheck?
        case PreSleep => true
        case Sleeping => true
        case Woken(_) => true
        case DropWaiter(_) => true
        case _ => false)
  }

  /** Tokens of a release that has added them but not notified yet. */
  function ToNotify(l: Local): int {
    match l
    case ReleaseLoad(n) => n
    case ReleaseLock(n) => n
    case ReleaseNotify(n) => n
    case _ => 0
  }

  /** Notified, and not yet looked at the count again. */
  function ToRecheck(l: Local): int {
    Bit(match l
        case Woken(cause) => cause == Notified
        case Load(ctx) => ctx == Recheck(Notified)
        case Cas(ctx, _) => ctx == Recheck(Notified)
        case _ => false)
  }

  /** Took a token and has yet to return true. */
  function Owed(l: Local): int {
    Bit(l == DropWaiter(true) || l == UnlockReturn(true))
  }

  /** Decided to sleep: nothing but a wake-up brings the thread back to the count. */
  predicate Asleep(l: Local) {
    l.PreSleep? || l.Sleeping?
  }

  predicate LocalOk(l: Local) {
    match l
    case Cas(ctx, seen) => seen > 0 && (ctx.Spin? ==> ctx.i < ctx.spins)
    case ReleaseAdd(n) => n > 0
    case ReleaseLoad(n) => n > 0
    case ReleaseLock(n) => n > 0
    case ReleaseNotify(n) => n > 0
    case Woken(cause) => cause != Entry
    case SpinTest(i, spins) => i <= spins + 1
    case SpinRead(i, spins) => i <= spins
    case Load(ctx) => ctx.Spin? ==> ctx.i < ctx.spins
    case _ => true
  }

  ghost predicate LocalsOk(threads: seq<Local>) {
    forall t :: 0 <= t < |threads| ==> LocalOk(threads[t])
  }

  ghost predicate Accounts(s: State, initial: nat) {
    && s.count >= 0
    && s.count + s.acquired == initial + s.released
    && s.acquired == s.granted + Sum(s.threads, Owed)
    && s.waiters == Sum(s.threads, Waits)
    && Bit(s.locked) == Sum(s.threads, Holds)
  }

  /** While any thread has decided to sleep, every token in the count is either about to be
      announced, or one notified thread is on its way to it. */
  ghost predicate NoLostWakeUp(count: int, threads: seq<Local>) {
    (exists t :: 0 <= t < |threads| && Asleep(threads[t])) ==>
      count <= Sum(threads, ToNotify) + Sum(threads, ToRecheck)
  }

  ghost predicate Inv(s: State, initial: nat) {
    LocalsOk(s.threads) && Accounts(s, initial) && NoLostWakeUp(s.count, s.threads)
  }

  // ---- Every step keeps it ----

  /** All weights of one thread moving on. */
  lemma MoveOne(threads: seq<Local>, t: nat, l: Local)
    requires t < |threads|
    ensures Sum(threads[t := l], Owed) == Sum(threads, Owed) - Owed(threads[t]) + Owed(l)
    ensures Sum(threads[t := l], Waits) == Sum(threads, Waits) - Waits(threads[t]) + Waits(l)
    ensures Sum(threads[t := l], Holds) == Sum(threads, Holds) - Holds(threads[t]) + Holds(l)
    ensures Sum(threads[t := l], ToNotify) == Sum(threads, ToNotify) - ToNotify(threads[t]) + ToNotify(l)
    ensures Sum(threads[t := l], ToRecheck) == Sum(threads, ToRecheck) - ToRecheck(threads[t]) + ToRecheck(l)
  {
    SumUpdate(threads, t, l, Owed);
    SumUpdate(threads, t, l, Waits);
    SumUpdate(threads, t, l, Holds);
    SumUpdate(threads, t, l, ToNotify);
    SumUpdate(threads, t, l, ToRecheck);
  }

  /** What one thread tells about the whole. */
  lemma SeenBy(s: State, initial: nat, t: nat)
    requires Inv(s, initial) && t < |s.threads|
    ensures LocalOk(s.threads[t]) && 0 <= Sum(s.threads, ToNotify) && 0 <= Sum(s.threads, ToRecheck)
    ensures Holds(s.threads[t]) == 1 ==> s.locked
    ensures Waits(s.threads[t]) <= s.waiters
    ensures ToNotify(s.threads[t]) <= Sum(s.threads, ToNotify) && ToRecheck(s.threads[t]) <= Sum(s.threads, ToRecheck)
  {
    SumAtLeast(s.threads, t, Holds);
    SumAtLeast(s.threads, t, Waits);
    SumAtLeast(s.threads, t, ToNotify);
    SumAtLeast(s.threads, t, ToRecheck);
    SumNonNegative(s.threads, ToNotify);
    SumNonNegative(s.threads, ToRecheck);
  }

  /** While a thread is inside the lock no other one is, so none is between its decision and its sleep. */
  lemma OneInside(s: State, initial: nat, t: nat, u: nat)
    requires Inv(s, initial) && t < |s.threads| && u < |s.threads| && t != u && Holds(s.threads[t]) == 1
    ensures Holds(s.threads[u]) == 0 && !s.threads[u].PreSleep?
  {
    SumAtLeastTwo(s.threads, t, u, Holds);
  }

  /** Somebody else asleep keeps the waiter count positive. */
  lemma SleeperIsCounted(s: State, initial: nat)
    requires Inv(s, initial) && exists t :: 0 <= t < |s.threads| && Asleep(s.threads[t])
    ensures s.waiters > 0
  {
    var t :| 0 <= t < |s.threads| && Asleep(s.threads[t]);
    SumAtLeast(s.threads, t, Waits);
  }

  ghost predicate SomeAsleep(threads: seq<Local>) {
    exists t :: 0 <= t < |threads| && Asleep(threads[t])
  }

  /** How a step of one thread may change the shared state. */
  ghost predicate Balanced(s: State, s': State, l: Local, l': Local) {
    && s'.count >= 0
    && s'.count + s'.acquired - s'.released == s.count + s.acquired - s.released
    && s'.acquired - s'.granted - Owed(l') == s.acquired - s.granted - Owed(l)
    && s'.waiters - Waits(l') == s.waiters - Waits(l)
    && Bit(s'.locked) - Holds(l') == Bit(s.locked) - Holds(l)
  }

  /** Why a step of one thread cannot lose a wake-up. */
  ghost predicate Announced(s: State, s': State, l: Local, l': Local) {
    || s'.count == 0
    || ((Asleep(l') ==> Asleep(l)) && s'.count - ToNotify(l') - ToRecheck(l') <= s.count - ToNotify(l) - ToRecheck(l))
    || (!Asleep(l') && s.waiters == 0)
  }

  lemma MoveKeeps(s: State, initial: nat, s': State, t: nat, l: Local)
    requires Inv(s, initial) && t < |s.threads| && s'.threads == s.threads[t := l] && LocalOk(l)
    requires Balanced(s, s', s.threads[t], l) && Announced(s, s', s.threads[t], l)
    ensures Inv(s', initial)
  {
    hide LocalOk, Owed, Waits, Holds, ToNotify, ToRecheck;
    MoveOne(s.threads, t, l);
    SumsNonNegative(s'.threads);
    if SomeAsleep(s'.threads) && (Asleep(l) ==> Asleep(s.threads[t])) {
      var k :| 0 <= k < |s'.threads| && Asleep(s'.threads[k]);
      assert Asleep(s.threads[k]);
      SleeperIsCounted(s, initial);
    }
  }

  lemma SumsNonNegative(threads: seq<Local>)
    ensures Sum(threads, ToNotify) >= 0 && Sum(threads, ToRecheck) >= 0
  {
    SumNonNegative(threads, ToNotify);
    SumNonNegative(threads, ToRecheck);
  }

  lemma AdvanceKeeps(s: State, initial: nat, t: nat, spurious: bool, u: nat)
    requires Inv(s, initial) && t < |s.threads| && !s.threads[t].ReleaseNotify?
    ensures Inv(Advance(s, t, spurious, u), initial)
  {
    hide NoLostWakeUp;
    SeenBy(s, initial, t);
    var s' := Advance(s, t, spurious, u);
    if s' != s {
      StepIsBalanced(s, s', t, spurious, u);
      MoveKeeps(s, initial, s', t, s'.threads[t]);
    }
  }

  lemma StepIsBalanced(s: State, s': State, t: nat, spurious: bool, u: nat)
    requires t < |s.threads| && !s.threads[t].ReleaseNotify? && s' == Advance(s, t, spurious, u) && s' != s
    requires LocalOk(s.threads[t]) && s.count >= 0 && (Holds(s.threads[t]) == 1 ==> s.locked)
    ensures s'.threads == s.threads[t := s'.threads[t]] && LocalOk(s'.threads[t])
    ensures Balanced(s, s', s.threads[t], s'.threads[t]) && Announced(s, s', s.threads[t], s'.threads[t])
  {
    hide Sum;
    var l := s.threads[t];
    if l.Load? || l.Cas? {
      AcquireIsBalanced(s, s', t, spurious, u);
    } else if l.ReleaseAdd? || l.ReleaseLoad? || l.ReleaseLock? || l.ReleaseUnlock? {
      ReleaseIsBalanced(s, s', t, spurious, u);
    } else {
      WaitIsBalanced(s, s', t, spurious, u);
    }
  }

  lemma AcquireIsBalanced(s: State, s': State, t: nat, spurious: bool, u: nat)
    requires t < |s.threads| && (s.threads[t].Load? || s.threads[t].Cas?) && s' == Advance(s, t, spurious, u)
    requires LocalOk(s.threads[t]) && s.count >= 0 && (Holds(s.threads[t]) == 1 ==> s.locked)
    ensures s'.threads == s.threads[t := s'.threads[t]] && LocalOk(s'.threads[t])
    ensures Balanced(s, s', s.threads[t], s'.threads[t]) && Announced(s, s', s.threads[t], s'.threads[t])
  {
    hide Sum;
    if s.threads[t].Cas? && s.count == s.threads[t].seen && !spurious {
      assert s'.threads[t] == Succeeded(s.threads[t].ctx);
    } else {
      assert s'.threads[t] == Looked(s.threads[t].ctx, s.count);
    }
  }

  lemma ReleaseIsBalanced(s: State, s': State, t: nat, spurious: bool, u: nat)
    requires t < |s.threads| && s' == Advance(s, t, spurious, u) && s' != s
    requires var l := s.threads[t]; l.ReleaseAdd? || l.ReleaseLoad? || l.ReleaseLock? || l.ReleaseUnlock?
    requires LocalOk(s.threads[t]) && s.count >= 0 && (Holds(s.threads[t]) == 1 ==> s.locked)
    ensures s'.threads == s.threads[t := s'.threads[t]] && LocalOk(s'.threads[t])
    ensures Balanced(s, s', s.threads[t], s'.threads[t]) && Announced(s, s', s.threads[t], s'.threads[t])
  {
    hide Sum;
  }

  lemma WaitIsBalanced(s: State, s': State, t: nat, spurious: bool, u: nat)
    requires t < |s.threads| && s' == Advance(s, t, spurious, u) && s' != s
    requires var l := s.threads[t];
             !l.Load? && !l.Cas? && !l.ReleaseAdd? && !l.ReleaseLoad? && !l.ReleaseLock? && !l.ReleaseUnlock?
                 && !l.ReleaseNotify?
    requires LocalOk(s.threads[t]) && s.count >= 0 && (Holds(s.threads[t]) == 1 ==> s.locked)
    ensures s'.threads == s.threads[t := s'.threads[t]] && LocalOk(s'.threads[t])
    ensures Balanced(s, s', s.threads[t], s'.threads[t]) && Announced(s, s', s.threads[t], s'.threads[t])
  {
    hide Sum;
  }

  lemma NotifyOneKeeps(s: State, initial: nat, t: nat, spurious: bool, u: nat)
    requires Inv(s, initial) && t < |s.threads| && s.threads[t] == ReleaseNotify(1)
    ensures Inv(Advance(s, t, spurious, u), initial)
  {
    var s' := Advance(s, t, spurious, u);
    SeenBy(s, initial, t);
    if u < |s.threads| && s.threads[u].Sleeping? {
      NotifyOne(s, initial, t, u);
    } else if s' != s {
      NoneToNotify(s, initial, t);
    }
  }

  lemma NotifyOne(s: State, initial: nat, t: nat, u: nat)
    requires Inv(s, initial) && t < |s.threads| && s.threads[t] == ReleaseNotify(1)
    requires u < |s.threads| && s.threads[u].Sleeping?
    ensures Inv(At(At(s, u, Woken(Notified)), t, ReleaseUnlock), initial)
  {
    MoveOne(s.threads, u, Woken(Notified));
    MoveOne(At(s, u, Woken(Notified)).threads, t, ReleaseUnlock);
    assert Asleep(s.threads[u]);
  }

  lemma NoneToNotify(s: State, initial: nat, t: nat)
    requires Inv(s, initial) && t < |s.threads| && s.threads[t] == ReleaseNotify(1) && Sleeping !in s.threads
    ensures Inv(At(s, t, ReleaseUnlock), initial)
  {
    var s' := At(s, t, ReleaseUnlock);
    MoveOne(s.threads, t, ReleaseUnlock);
    forall k | 0 <= k < |s'.threads| ensures !Asleep(s'.threads[k]) {
      if k != t {
        OneInside(s, initial, t, k);
        assert s.threads[k] in s.threads;
      }
    }
  }

  lemma WakeAllSame(threads: seq<Local>)
    ensures Sum(WakeAll(threads), Owed) == Sum(threads, Owed)
    ensures Sum(WakeAll(threads), Waits) == Sum(threads, Waits)
    ensures Sum(WakeAll(threads), Holds) == Sum(threads, Holds)
  {
    SumSame(threads, WakeAll(threads), Owed);
    SumSame(threads, WakeAll(threads), Waits);
    SumSame(threads, WakeAll(threads), Holds);
  }

  lemma NotifyAllKeeps(s: State, initial: nat, t: nat, spurious: bool, u: nat)
    requires Inv(s, initial) && t < |s.threads| && s.threads[t].ReleaseNotify? && s.threads[t].n != 1
    ensures Inv(Advance(s, t, spurious, u), initial)
  {
    var s' := Advance(s, t, spurious, u);
    var woken := WakeAll(s.threads);
    SeenBy(s, initial, t);
    WakeAllSame(s.threads);
    MoveOne(woken, t, ReleaseUnlock);
    assert LocalsOk(s'.threads);
    hide Sum;
    forall k | 0 <= k < |s'.threads| ensures !Asleep(s'.threads[k]) {
      if k != t {
        OneInside(s, initial, t, k);
      }
    }
  }

  lemma NextKeeps(s: State, initial: nat, e: Event)
    requires Inv(s, initial)
    ensures Inv(Next(s, e), initial)
  {
    hide Inv, Advance;
    if e.t < |s.threads| {
      var t, l := e.t, s.threads[e.t];
      if e.Step? {
        if !l.ReleaseNotify? {
          AdvanceKeeps(s, initial, t, e.spurious, e.u);
        } else if l.n == 1 {
          NotifyOneKeeps(s, initial, t, e.spurious, e.u);
        } else {
          NotifyAllKeeps(s, initial, t, e.spurious, e.u);
        }
      } else if Next(s, e) != s {
        CallKeeps(s, initial, e);
      }
    }
  }

  /** Entering a call, and waking without being notified. */
  lemma CallKeeps(s: State, initial: nat, e: Event)
    requires Inv(s, initial) && e.t < |s.threads| && !e.Step? && Next(s, e) != s
    ensures Inv(Next(s, e), initial)
  {
    var l := Next(s, e).threads[e.t];
    MoveKeeps(s, initial, At(s, e.t, l), e.t, l);
  }

  lemma StartInv(initial: nat, threads: nat)
    ensures Inv(Start(initial, threads), initial)
  {
    var s := Start(initial, threads);
    SumZero(s.threads, Owed);
    SumZero(s.threads, Waits);
    SumZero(s.threads, Holds);
  }

  lemma {:induction false} EveryRunKeepsTheInvariant(initial: nat, threads: nat, run: seq<Event>)
    ensures Inv(Exec(initial, threads, run), initial) && |Exec(initial, threads, run).threads| == threads
  {
    hide Inv, Next;
    StartInv(initial, threads);
    if run != [] {
      EveryRunKeepsTheInvariant(initial, threads, run[..|run| - 1]);
      NextKeeps(Exec(initial, threads, run[..|run| - 1]), initial, run[|run| - 1]);
    }
  }

  // ---- What the semaphore guarantees ----

  /** The count is never negative, tokens are conserved, and the calls that returned true are never
      more than the tokens there were. */
  lemma TokensAreConserved(initial: nat, threads: nat, run: seq<Event>)
    ensures var s := Exec(initial, threads, run);
            && s.count >= 0 && s.count + s.acquired == initial + s.released
            && s.granted <= s.acquired <= initial + s.released
  {
    EveryRunKeepsTheInvariant(initial, threads, run);
    SumNonNegative(Exec(initial, threads, run).threads, Owed);
  }

  /** With a thread asleep, every token is announced: releases still to notify cover it, or
      notified threads that have yet to look again. */
  lemma NoWakeUpIsLost(initial: nat, threads: nat, run: seq<Event>, t: nat)
    requires t < |Exec(initial, threads, run).threads| && Asleep(Exec(initial, threads, run).threads[t])
    ensures var s := Exec(initial, threads, run);
            s.count <= Sum(s.threads, ToNotify) + Sum(s.threads, ToRecheck)
  {
    EveryRunKeepsTheInvariant(initial, threads, run);
  }

  /** So once every release has finished and every notified thread has looked, a thread sleeps
      only because there is no token. */
  lemma SleepersWaitForTokens(initial: nat, threads: nat, run: seq<Event>, t: nat)
    requires t < |Exec(initial, threads, run).threads| && Asleep(Exec(initial, threads, run).threads[t])
    requires forall u :: 0 <= u < |Exec(initial, threads, run).threads| ==>
               ToNotify(Exec(initial, threads, run).threads[u]) == 0
                   && ToRecheck(Exec(initial, threads, run).threads[u]) == 0
    ensures Exec(initial, threads, run).count == 0
  {
    hide Exec, Inv, ToNotify, ToRecheck, Asleep, Next, Start;
    EveryRunKeepsTheInvariant(initial, threads, run);
    NoWakeUpIsLost(initial, threads, run, t);
    TokensAreConserved(initial, threads, run);
    SumZero(Exec(initial, threads, run).threads, ToNotify);
    SumZero(Exec(initial, threads, run).threads, ToRecheck);
  }

  /** An attempt fails only in a step that saw no token, so a wait that gives up looked at a count of
      zero after its timeout; an attempt that succeeds took one. */
  lemma FailingSawNoToken(initial: nat, threads: nat, run: seq<Event>, t: nat, spurious: bool, u: nat)
    requires t < |Exec(initial, threads, run).threads|
    requires var l := Exec(initial, threads, run).threads[t]; l.Load? || l.Cas?
    ensures var s := Exec(initial, threads, run);
            var s' := Next(s, Step(t, spurious, u));
            var ctx := s.threads[t].ctx;
            if s'.acquired == s.acquired
            then s'.count == s.count && (s'.threads[t].Cas? || (s.count == 0 && s'.threads[t] == Failed(ctx)))
            else
              && s.count > 0 && s'.count == s.count - 1
              && s'.acquired == s.acquired + 1 && s'.threads[t] == Succeeded(ctx)
  {
    hide Inv;
    EveryRunKeepsTheInvariant(initial, threads, run);
    AttemptStep(Exec(initial, threads, run), initial, t, spurious, u);
  }

  lemma AttemptStep(s: State, initial: nat, t: nat, spurious: bool, u: nat)
    requires Inv(s, initial) && t < |s.threads| && (s.threads[t].Load? || s.threads[t].Cas?)
    ensures var s' := Next(s, Step(t, spurious, u));
            var ctx := s.threads[t].ctx;
            if s'.acquired == s.acquired
            then s'.count == s.count && (s'.threads[t].Cas? || (s.count == 0 && s'.threads[t] == Failed(ctx)))
            else
              && s.count > 0 && s'.count == s.count - 1
              && s'.acquired == s.acquired + 1 && s'.threads[t] == Succeeded(ctx)
  {
    hide NoLostWakeUp, Sum;
    assert LocalOk(s.threads[t]);
  }

  /** The lock is held by at most one thread, and by none that sleeps. */
  lemma LockIsExclusive(initial: nat, threads: nat, run: seq<Event>, t: nat, u: nat)
    requires t < |Exec(initial, threads, run).threads| && u < |Exec(initial, threads, run).threads| && t != u
    requires Holds(Exec(initial, threads, run).threads[t]) == 1
    ensures Holds(Exec(initial, threads, run).threads[u]) == 0
  {
    EveryRunKeepsTheInvariant(initial, threads, run);
    OneInside(Exec(initial, threads, run), initial, t, u);
  }

  // ---- What the callers are told ----

  /** Steps of thread t that nobody disturbs, with no spurious failure. */
  function Solo(s: State, t: nat, n: nat): (s': State)
    ensures |s'.threads| == |s.threads|
  {
    if n == 0 then s else Next(Solo(s, t, n - 1), Step(t, false, 0))
  }

  /** Undisturbed, each of the three calls takes a token that is there at once, and a plain try fails at
      once exactly when there is none; a spinning acquire with no spins takes none. */
  lemma AcquireAlone(initial: nat, threads: nat, run: seq<Event>, t: nat, spins: nat)
    requires t < |Exec(initial, threads, run).threads| && Exec(initial, threads, run).threads[t].Idle?
    ensures var s := Exec(initial, threads, run);
            var taken := s.(count := s.count - 1, acquired := s.acquired + 1, granted := s.granted + 1);
            && s.count >= 0
            && (s.count > 0 ==>
                  && Solo(Next(s, TryAcquire(t)), t, 2) == At(taken, t, Idle(Some(true)))
                  && Solo(Next(s, WaitAcquire(t)), t, 2) == At(taken, t, Idle(Some(true)))
                  && (spins > 0 ==> Solo(Next(s, SpinAcquire(t, spins)), t, 3) == At(taken, t, Idle(Some(true)))))
            && (s.count == 0 ==> Solo(Next(s, TryAcquire(t)), t, 1) == At(s, t, Idle(Some(false))))
            && Solo(Next(s, SpinAcquire(t, 0)), t, 1) == At(s, t, Idle(Some(false)))
  {
    hide Inv, Next, Solo;
    EveryRunKeepsTheInvariant(initial, threads, run);
    hide Exec;
    CountIsNatural(Exec(initial, threads, run), initial);
    if Exec(initial, threads, run).count > 0 {
      TakesAlone(Exec(initial, threads, run), t, spins);
    }
    FailsAlone(Exec(initial, threads, run), t);
  }

  lemma CountIsNatural(s: State, initial: nat)
    requires Inv(s, initial)
    ensures s.count >= 0
  {
  }

  lemma TakesAlone(s: State, t: nat, spins: nat)
    requires t < |s.threads| && s.threads[t].Idle? && s.count > 0
    ensures var taken := s.(count := s.count - 1, acquired := s.acquired + 1, granted := s.granted + 1);
            && Solo(Next(s, TryAcquire(t)), t, 2) == At(taken, t, Idle(Some(true)))
            && Solo(Next(s, WaitAcquire(t)), t, 2) == At(taken, t, Idle(Some(true)))
            && (spins > 0 ==> Solo(Next(s, SpinAcquire(t, spins)), t, 3) == At(taken, t, Idle(Some(true))))
  {
    TakesFrom(At(s, t, Load(Plain)), t);
    TakesFrom(At(s, t, Load(First)), t);
    TakesFrom(At(s, t, Load(Spin(0, spins))), t);
    if spins > 0 {
      assert Next(At(s, t, SpinTest(0, spins)), Step(t, false, 0)) == At(s, t, Load(Spin(0, spins)));
      SoloAfter(At(s, t, SpinTest(0, spins)), t, 2);
    }
  }

  lemma {:induction false} SoloAfter(s: State, t: nat, n: nat)
    ensures Solo(Next(s, Step(t, false, 0)), t, n) == Solo(s, t, n + 1)
  {
    hide Next;
    if n > 0 {
      SoloAfter(s, t, n - 1);
    } else {
      assert Solo(s, t, 0) == s;
    }
  }

  lemma TakesFrom(s: State, t: nat)
    requires t < |s.threads| && s.threads[t].Load? && s.count > 0
    requires s.threads[t].ctx.Plain? || s.threads[t].ctx.First? || s.threads[t].ctx.Spin?
    ensures Solo(s, t, 2) == At(s, t, Idle(Some(true)))
                             .(count := s.count - 1, acquired := s.acquired + 1, granted := s.granted + 1)
  {
    var s1 := Solo(s, t, 1);
    assert s1 == At(s, t, Cas(s.threads[t].ctx, s.count)) by {
      assert Solo(s, t, 0) == s;
    }
    assert Solo(s, t, 2) == Next(s1, Step(t, false, 0));
  }

  lemma FailsAlone(s: State, t: nat)
    requires t < |s.threads| && s.threads[t].Idle?
    ensures s.count == 0 ==> Solo(Next(s, TryAcquire(t)), t, 1) == At(s, t, Idle(Some(false)))
    ensures Solo(Next(s, SpinAcquire(t, 0)), t, 1) == At(s, t, Idle(Some(false)))
  {
    assert Solo(At(s, t, Load(Plain)), t, 0) == At(s, t, Load(Plain));
    assert Solo(At(s, t, SpinTest(0, 0)), t, 0) == At(s, t, SpinTest(0, 0));
  }

  /** Steps of thread t alone that notify sleeper u if they notify one. */
  function Picking(s: State, t: nat, u: nat, n: nat): (s': State)
    ensures |s'.threads| == |s.threads|
  {
    if n == 0 then s else Next(Picking(s, t, u, n - 1), Step(t, false, u))
  }

  /** The sleepers that are notified, and nobody else, have been woken. */
  ghost predicate Wakes(threads: seq<Local>, threads': seq<Local>, t: nat, wakes: bool, n: nat, u: nat) {
    && |threads'| == |threads|
    && forall v :: 0 <= v < |threads| && v != t ==>
         threads'[v] == if wakes && threads[v].Sleeping? && (n != 1 || v == u) then Woken(Notified) else threads[v]
  }

  /** A release that nobody disturbs: it returns after two or five steps with its tokens added, and if there
      are waiters it has woken one sleeper for one token, all sleepers for more. */
  lemma ReleaseAlone(s: State, t: nat, n: nat, u: nat)
    requires t < |s.threads| && s.threads[t].Idle? && n > 0 && !s.locked
    requires n == 1 && Sleeping in s.threads ==> u < |s.threads| && s.threads[u].Sleeping?
    ensures var s' := Picking(Next(s, Release(t, n)), t, u, if s.waiters == 0 then 2 else 5);
            && s'.count == s.count + n && s'.released == s.released + n && !s'.locked
            && s'.threads[t] == Idle(None) && Wakes(s.threads, s'.threads, t, s.waiters != 0, n, u)
  {
    AddAlone(s, t, n, u);
    hide Next, Picking, Wakes;
    var s0 := Next(s, Release(t, n));
    var s2 := Picking(s0, t, u, 2);
    if s.waiters != 0 {
      NobodyNew(s.threads, s2.threads, t, n, u);
      NotifyAlone(s2, t, n, u);
      PickingAdds(s0, t, u, 2, 3);
      WakesAfter(s.threads, s2.threads, Picking(s2, t, u, 3).threads, t, n, u);
    }
  }

  lemma AddAlone(s: State, t: nat, n: nat, u: nat)
    requires t < |s.threads| && s.threads[t].Idle? && n > 0
    ensures var s' := Picking(Next(s, Release(t, n)), t, u, 2);
            && s'.count == s.count + n && s'.released == s.released + n && s'.locked == s.locked
            && s'.threads[t] == (if s.waiters == 0 then Idle(None) else ReleaseLock(n))
            && Wakes(s.threads, s'.threads, t, false, n, u)
  {
    var s0 := Next(s, Release(t, n));
    assert Picking(s0, t, u, 0) == s0;
    assert Picking(s0, t, u, 1) == Next(s0, Step(t, false, u));
    assert Picking(s0, t, u, 2) == Next(Picking(s0, t, u, 1), Step(t, false, u));
  }

  lemma WakesAfter(threads: seq<Local>, between: seq<Local>, threads': seq<Local>, t: nat, n: nat, u: nat)
    requires Wakes(threads, between, t, false, n, u) && Wakes(between, threads', t, true, n, u)
    ensures Wakes(threads, threads', t, true, n, u)
  {
  }

  lemma {:induction false} PickingAdds(s: State, t: nat, u: nat, m: nat, n: nat)
    ensures Picking(Picking(s, t, u, m), t, u, n) == Picking(s, t, u, m + n)
  {
    hide Next;
    if n > 0 {
      PickingAdds(s, t, u, m, n - 1);
    }
  }

  lemma NobodyNew(threads: seq<Local>, threads': seq<Local>, t: nat, n: nat, u: nat)
    requires t < |threads| && !threads[t].Sleeping? && Wakes(threads, threads', t, false, n, u)
    requires !threads'[t].Sleeping?
    ensures Sleeping in threads' ==> Sleeping in threads
    ensures u < |threads| && threads[u].Sleeping? ==> threads'[u].Sleeping?
  {
    if v :| 0 <= v < |threads'| && threads'[v] == Sleeping {
      assert threads[v] == Sleeping;
    }
  }

  lemma NotifyAlone(s: State, t: nat, n: nat, u: nat)
    requires t < |s.threads| && s.threads[t] == ReleaseLock(n) && !s.locked
    requires n == 1 && Sleeping in s.threads ==> u < |s.threads| && s.threads[u].Sleeping?
    ensures var s' := Picking(s, t, u, 3);
            && s'.count == s.count && s'.released == s.released && !s'.locked
            && s'.threads[t] == Idle(None) && Wakes(s.threads, s'.threads, t, true, n, u)
  {
    assert Picking(s, t, u, 0) == s;
    var s1 := Picking(s, t, u, 1);
    assert s1 == At(s, t, ReleaseNotify(n)).(locked := true);
    assert Wakes(s.threads, s1.threads, t, false, n, u);
    NobodyNew(s.threads, s1.threads, t, n, u);
    var s2 := Picking(s, t, u, 2);
    assert s2 == Next(s1, Step(t, false, u));
    NotifyStep(s1, t, n, u);
    assert Picking(s, t, u, 3) == Next(s2, Step(t, false, u));
  }

  lemma NotifyStep(s: State, t: nat, n: nat, u: nat)
    requires t < |s.threads| && s.threads[t] == ReleaseNotify(n)
    requires n == 1 && Sleeping in s.threads ==> u < |s.threads| && s.threads[u].Sleeping?
    ensures var s' := Next(s, Step(t, false, u));
            && s' == s.(threads := s'.threads) && s'.threads[t] == ReleaseUnlock
            && Wakes(s.threads, s'.threads, t, true, n, u)
  {
    var s' := Next(s, Step(t, false, u));
    forall v | 0 <= v < |s.threads| && v != t
      ensures s'.threads[v]
              == if s.threads[v].Sleeping? && (n != 1 || v == u) then Woken(Notified) else s.threads[v]
    {
      if s.threads[v].Sleeping? {
        assert s.threads[v] in s.threads;
      }
    }
  }

  predicate IsCall(e: Event) {
    e.TryAcquire? || e.SpinAcquire? || e.WaitAcquire? || e.Release?
  }

  /** The thread's sleep ran into its timeout in this part of the run. */
  ghost predicate RanOut(initial: nat, threads: nat, run: seq<Event>, more: seq<Event>, t: nat) {
    exists k :: 0 <= k < |more| && TimesOut(Exec(initial, threads, run + more[..k]), more[k], t)
  }

  predicate TimesOut(s: State, e: Event, t: nat) {
    t < |s.threads| && s.threads[t].Sleeping? && e == Wake(t, TimedOut)
  }

  /** The thread looked at a count of zero after its timeout. */
  ghost predicate SawNone(initial: nat, threads: nat, run: seq<Event>, more: seq<Event>, t: nat) {
    exists k :: 0 <= k < |more| && LooksInVain(Exec(initial, threads, run + more[..k]), more[k], t)
  }

  predicate LooksInVain(s: State, e: Event, t: nat) {
    && t < |s.threads| && (s.threads[t].Load? || s.threads[t].Cas?) && s.threads[t].ctx == Recheck(TimedOut)
    && e.Step? && e.t == t && s.count == 0
  }

  /** Where a call of `wait_acquire` can be, given what happened since it began. */
  predicate Waiting(l: Local, ranOut: bool, sawNone: bool) {
    match l
    case Load(ctx) => ctx.First? || ctx.Locked? || (ctx.Recheck? && (ctx.cause == TimedOut ==> ranOut))
    case Cas(ctx, _) => ctx.First? || ctx.Locked? || (ctx.Recheck? && (ctx.cause == TimedOut ==> ranOut))
    case WaitLock => true
    case AddWaiter => true
    case PreSleep => true
    case Sleeping => true
    case Woken(cause) => cause == TimedOut ==> ranOut
    case DropWaiter(got) => !got ==> ranOut && sawNone
    case UnlockReturn(got) => !got ==> ranOut && sawNone
    case Idle(result) => result.Some? && (result == Some(false) ==> ranOut && sawNone)
    case _ => false
  }

  lemma WaitingNext(s: State, e: Event, t: nat, ranOut: bool, sawNone: bool)
    requires t < |s.threads| && Waiting(s.threads[t], ranOut, sawNone) && (IsCall(e) ==> e.t != t)
    ensures Waiting(Next(s, e).threads[t], ranOut || TimesOut(s, e, t), sawNone || LooksInVain(s, e, t))
  {
    if e.t == t {
      if e.Step? {
        WaitingStep(s, e, t, ranOut, sawNone);
      }
    } else {
      OthersOnlyNotify(s, e, t);
      hide Next;
    }
  }

  lemma WaitingStep(s: State, e: Event, t: nat, ranOut: bool, sawNone: bool)
    requires t < |s.threads| && Waiting(s.threads[t], ranOut, sawNone) && e.Step? && e.t == t
    ensures Waiting(Next(s, e).threads[t], ranOut, sawNone || LooksInVain(s, e, t))
  {
  }

  /** Another thread's event leaves a thread where it is, or wakes it by a notification. */
  lemma OthersOnlyNotify(s: State, e: Event, t: nat)
    requires t < |s.threads| && e.t != t
    ensures || Next(s, e).threads[t] == s.threads[t]
            || (s.threads[t].Sleeping? && Next(s, e).threads[t] == Woken(Notified))
  {
  }

  lemma OneMoreEvent(initial: nat, threads: nat, run: seq<Event>, more: seq<Event>, t: nat)
    requires more != []
    ensures var k := |more| - 1;
            var s := Exec(initial, threads, run + more[..k]);
            && Exec(initial, threads, run + more) == Next(s, more[k])
            && (RanOut(initial, threads, run, more[..k], t) || TimesOut(s, more[k], t) ==>
                  RanOut(initial, threads, run, more, t))
            && (SawNone(initial, threads, run, more[..k], t) || LooksInVain(s, more[k], t) ==>
                  SawNone(initial, threads, run, more, t))
  {
    hide Next, TimesOut, LooksInVain;
    var less := more[..|more| - 1];
    assert (run + more)[..|run + more| - 1] == run + less;
    if j :| 0 <= j < |less| && TimesOut(Exec(initial, threads, run + less[..j]), less[j], t) {
      assert less[..j] == more[..j] && more[j] == less[j];
    }
    if j :| 0 <= j < |less| && LooksInVain(Exec(initial, threads, run + less[..j]), less[j], t) {
      assert less[..j] == more[..j] && more[j] == less[j];
    }
  }

  lemma {:induction false} StillWaiting(initial: nat, threads: nat, run: seq<Event>, more: seq<Event>, t: nat)
    requires t < |Exec(initial, threads, run).threads| && Exec(initial, threads, run).threads[t] == Load(First)
    requires forall k :: 0 <= k < |more| && IsCall(more[k]) ==> more[k].t != t
    ensures var s := Exec(initial, threads, run + more);
            && t < |s.threads|
            && Waiting(s.threads[t], RanOut(initial, threads, run, more, t), SawNone(initial, threads, run, more, t))
  {
    if more == [] {
      assert run + more == run;
    } else {
      hide Next, RanOut, SawNone, TimesOut, LooksInVain, Exec;
      var k := |more| - 1;
      OneMoreEvent(initial, threads, run, more, t);
      StillWaiting(initial, threads, run, more[..k], t);
      WaitingNext(Exec(initial, threads, run + more[..k]), more[k], t, RanOut(initial, threads, run, more[..k], t),
          SawNone(initial, threads, run, more[..k], t));
    }
  }

  /** Whatever the others do: a call of `wait_acquire` that returned false had slept into its timeout and
      then looked at a count of zero; no notification and no wake-up without reason makes it give up. */
  lemma WaitGivesUpOnlyAfterItsTimeout(initial: nat, threads: nat, run: seq<Event>, more: seq<Event>, t: nat)
    requires t < |Exec(initial, threads, run).threads| && Exec(initial, threads, run).threads[t].Idle?
    requires forall k :: 0 <= k < |more| && IsCall(more[k]) ==> more[k].t != t
    ensures var called := run + [WaitAcquire(t)];
            var s := Exec(initial, threads, called + more);
            && t < |s.threads|
            && (s.threads[t].Idle? ==> s.threads[t].result.Some?)
            && (s.threads[t] == Idle(Some(false)) ==>
                  RanOut(initial, threads, called, more, t) && SawNone(initial, threads, called, more, t))
  {
    assert (run + [WaitAcquire(t)])[..|run|] == run;
    hide RanOut, SawNone;
    StillWaiting(initial, threads, run + [WaitAcquire(t)], more, t);
  }

  /** How many of the events are steps of thread t. */
  function OwnSteps(more: seq<Event>, t: nat): nat {
    if more == [] then 0 else OwnSteps(more[..|more| - 1], t) + Bit(IsStepOf(more[|more| - 1], t))
  }

  predicate IsStepOf(e: Event, t: nat) {
    e.Step? && e.t == t
  }

  /** The thread made an attempt that saw a count of zero in this part of the run. */
  ghost predicate SawZero(initial: nat, threads: nat, run: seq<Event>, more: seq<Event>, t: nat) {
    exists k :: 0 <= k < |more| && TriesInVain(Exec(initial, threads, run + more[..k]), more[k], t)
  }

  predicate TriesInVain(s: State, e: Event, t: nat) {
    t < |s.threads| && (s.threads[t].Load? || s.threads[t].Cas?) && IsStepOf(e, t) && s.count == 0
  }

  /** Where a call of `spin_acquire` can be after so many steps of its own. */
  predicate Spinning(l: Local, spins: nat, steps: nat, sawZero: bool) {
    match l
    case SpinTest(i, n) => n == spins && i <= steps && (i > 0 ==> sawZero)
    case SpinRead(i, n) => n == spins && i <= steps && sawZero
    case Load(ctx) => ctx.Spin? && ctx.spins == spins && ctx.i <= steps
    case Cas(ctx, _) => ctx.Spin? && ctx.spins == spins && ctx.i <= steps
    case Idle(result) => result.Some? && (result == Some(false) ==> spins < steps && (spins > 0 ==> sawZero))
    case _ => false
  }

  lemma SpinningNext(s: State, e: Event, t: nat, spins: nat, steps: nat, sawZero: bool, sawZero': bool)
    requires t < |s.threads| && Spinning(s.threads[t], spins, steps, sawZero) && (IsCall(e) ==> e.t != t)
    requires sawZero || TriesInVain(s, e, t) ==> sawZero'
    ensures Spinning(Next(s, e).threads[t], spins, steps + Bit(IsStepOf(e, t)), sawZero')
  {
    if e.t == t {
      if e.Step? {
        SpinningStep(s, e, t, spins, steps, sawZero);
      }
    } else {
      OthersOnlyNotify(s, e, t);
      hide Next;
    }
  }

  lemma SpinningStep(s: State, e: Event, t: nat, spins: nat, steps: nat, sawZero: bool)
    requires t < |s.threads| && Spinning(s.threads[t], spins, steps, sawZero) && IsStepOf(e, t)
    ensures Spinning(Next(s, e).threads[t], spins, steps + 1, sawZero || TriesInVain(s, e, t))
  {
  }

  lemma OneMoreTry(initial: nat, threads: nat, run: seq<Event>, more: seq<Event>, t: nat)
    requires more != []
    ensures var k := |more| - 1;
            var s := Exec(initial, threads, run + more[..k]);
            && Exec(initial, threads, run + more) == Next(s, more[k])
            && (SawZero(initial, threads, run, more[..k], t) || TriesInVain(s, more[k], t) ==>
                  SawZero(initial, threads, run, more, t))
  {
    hide Next, TriesInVain;
    var less := more[..|more| - 1];
    assert (run + more)[..|run + more| - 1] == run + less;
    if j :| 0 <= j < |less| && TriesInVain(Exec(initial, threads, run + less[..j]), less[j], t) {
      assert less[..j] == more[..j] && more[j] == less[j];
    }
  }

  lemma SpinningBegins(spins: nat, sawZero: bool)
    ensures Spinning(SpinTest(0, spins), spins, 0, sawZero)
  {
  }

  lemma {:induction false} StillSpinning(initial: nat, threads: nat, run: seq<Event>, more: seq<Event>, t: nat,
                                         spins: nat)
    requires t < |Exec(initial, threads, run).threads| && Exec(initial, threads, run).threads[t] == SpinTest(0, spins)
    requires forall k :: 0 <= k < |more| && IsCall(more[k]) ==> more[k].t != t
    ensures var s := Exec(initial, threads, run + more);
            t < |s.threads|
            && Spinning(s.threads[t], spins, OwnSteps(more, t), SawZero(initial, threads, run, more, t))
  {
    hide Next, SawZero, TriesInVain, Exec, Spinning, IsStepOf;
    if more == [] {
      assert run + more == run;
      SpinningBegins(spins, SawZero(initial, threads, run, more, t));
    } else {
      var k := |more| - 1;
      OneMoreTry(initial, threads, run, more, t);
      StillSpinning(initial, threads, run, more[..k], t, spins);
      SpinningNext(Exec(initial, threads, run + more[..k]), more[k], t, spins, OwnSteps(more[..k], t),
          SawZero(initial, threads, run, more[..k], t), SawZero(initial, threads, run, more, t));
    }
  }

  /** Whatever the others do: a call of `spin_acquire` gives up only after more steps than it has spins, and
      unless it has none only after an attempt that saw a count of zero. */
  lemma SpinGivesUpOnlyAfterItsSpins(initial: nat, threads: nat, run: seq<Event>, more: seq<Event>, t: nat, spins: nat)
    requires t < |Exec(initial, threads, run).threads| && Exec(initial, threads, run).threads[t].Idle?
    requires forall k :: 0 <= k < |more| && IsCall(more[k]) ==> more[k].t != t
    ensures var called := run + [SpinAcquire(t, spins)];
            var s := Exec(initial, threads, called + more);
            && t < |s.threads|
            && (s.threads[t].Idle? ==> s.threads[t].result.Some?)
            && (s.threads[t] == Idle(Some(false)) ==>
                  OwnSteps(more, t) > spins && (spins > 0 ==> SawZero(initial, threads, called, more, t)))
  {
    assert (run + [SpinAcquire(t, spins)])[..|run|] == run;
    hide SawZero;
    StillSpinning(initial, threads, run + [SpinAcquire(t, spins)], more, t, spins);
  }

  function RoundsLeft(i: nat, spins: nat): nat {
    8 * (if i < spins then spins - i else 0)
  }

  function AttemptLeft(ctx: Context): nat {
    match ctx
    case Plain => 1
    case Spin(i, spins) => RoundsLeft(i, spins) + 3
    case First => 10
    case Locked => 7
    case Recheck(_) => 4
  }

  /** How many own steps a call is away from its return, or from its sleep, at most. */
  function StepsLeft(l: Local): nat {
    match l
    case Idle(_) => 0
    case Load(ctx) => AttemptLeft(ctx) + 1
    case Cas(ctx, _) => AttemptLeft(ctx)
    case SpinTest(i, spins) => RoundsLeft(i, spins) + if i < spins then 5 else 1
    case SpinRead(i, spins) => RoundsLeft(i, spins) + 2
    case WaitLock => 9
    case AddWaiter => 6
    case PreSleep => 1
    case Sleeping => 0
    case Woken(_) => 6
    case DropWaiter(_) => 2
    case UnlockReturn(_) => 1
    case ReleaseAdd(_) => 6
    case ReleaseLoad(_) => 5
    case ReleaseLock(_) => 4
    case ReleaseNotify(_) => 3
    case ReleaseUnlock => 2
  }

  /** Whatever the others do between them, each own step brings a call closer to its return or its sleep,
      except that it waits for the lock, or tries again because another thread changed the count. (A step
      that notifies one sleeper has to be given one to notify.) */
  lemma OwnStepsAreBounded(s: State, t: nat, u: nat)
    requires t < |s.threads| && !s.threads[t].Idle? && !s.threads[t].Sleeping?
    requires s.threads[t] == ReleaseNotify(1) && Sleeping in s.threads ==> u < |s.threads| && s.threads[u].Sleeping?
    ensures var l, l' := s.threads[t], Next(s, Step(t, false, u)).threads[t];
            || StepsLeft(l') < StepsLeft(l)
            || ((l.WaitLock? || l.Woken? || l.ReleaseLock?) && s.locked && l' == l)
            || (l.Cas? && s.count != l.seen && l' == Cas(l.ctx, s.count))
  {
  }

  // ---- The loops of the acquirers ----

  function Total(deltas: seq<int>): int {
    if deltas == [] then 0 else Total(deltas[..|deltas| - 1]) + deltas[|deltas| - 1]
  }

  lemma TotalStep(deltas: seq<int>, i: nat)
    requires i < |deltas|
    ensures Total(deltas[..i + 1]) == Total(deltas[..i]) + deltas[i]
  {
    assert deltas[..i + 1][..i] == deltas[..i];
  }

  /** The count never goes below zero while other threads change it by these amounts in turn. */
  ghost predicate StaysPositive(count: int, others: seq<int>) {
    forall i :: 0 <= i <= |others| ==> count + Total(others[..i]) >= 0
  }

  class Counter {
    var count: int

    constructor (initial: nat)
      ensures count == initial
    {
      count := initial;
    }

    /** The compare-and-swap loop, with what other threads do to the count before each swap. It takes
        one token, or none when it saw zero; `used` is how many of the others' changes it waited out. */
    method TryAcquire(others: seq<int>) returns (ok: bool, used: nat)
      requires count >= 0 && StaysPositive(count, others)
      modifies this
      ensures used <= |others| && count == old(count) + Total(others[..used]) - Bit(ok) && count >= 0
      ensures !ok ==> count == 0
      ensures old(count) > 0 && others == [] ==> ok
    {
      var seen := count;
      used := 0;
      while true
        invariant used <= |others| && count == old(count) + Total(others[..used]) && seen == count >= 0
        decreases |others| - used
      {
        assert seen >= 0;
        if seen == 0 {
          return false, used;
        }
        if used < |others| {
          TotalStep(others, used);
          count := count + others[used];
          used := used + 1;
          assert count == old(count) + Total(others[..used]) >= 0;
        } else {
          count := count - 1;
          return true, used;
        }
        if count == seen {
          count := count - 1;
          return true, used;
        }
        seen := count;
      }
    }

    /** The spinning loop; before each look at the count other threads may have released tokens.
        It ends after at most `spins` rounds of the outer and the inner loop together. */
    method SpinAcquire(spins: nat, arrivals: seq<nat>) returns (ok: bool, used: nat)
      requires count >= 0
      modifies this
      ensures used <= |arrivals| && count == old(count) + Total(arrivals[..used]) - Bit(ok) && count >= 0
      ensures spins > 0 && old(count) > 0 ==> ok
      ensures spins == 0 ==> !ok
    {
      var i := 0;
      used := 0;
      while i < spins
        invariant used <= |arrivals| && count == old(count) + Total(arrivals[..used]) && count >= old(count)
        invariant old(count) > 0 ==> i == 0
        decreases if i < spins then spins - i else 0
      {
        used := Arrive(arrivals, used);
        var got, _ := TryAcquire([]);
        if got {
          return true, used;
        }
        used := Arrive(arrivals, used);
        while 0 == count && i < spins
          invariant used <= |arrivals| && count == old(count) + Total(arrivals[..used]) && i <= spins
          invariant old(count) == 0 <= count
          decreases spins - i
        {
          i := i + 1;
          used := Arrive(arrivals, used);
        }
        i := i + 1;
      }
      ok := false;
    }

    /** The tokens that others release before the next look. */
    method Arrive(arrivals: seq<nat>, used: nat) returns (next: nat)
      requires used <= |arrivals| && count >= 0
      modifies this
      ensures next == used + Bit(used < |arrivals|)
      ensures count == old(count) + Total(arrivals[..next]) - Total(arrivals[..used]) && count >= old(count)
    {
      next := used;
      if used < |arrivals| {
        TotalStep(arrivals, used);
        count := count + arrivals[used];
        next := used + 1;
      }
    }
  }
}

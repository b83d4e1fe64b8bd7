/** One sub-queue of the lock-free queue: its enqueuing thread, any number of dequeuing threads,
    its blocks and block index, and the allocator it shares with the other sub-queues.

    One step is one atomic access. Indices are unbounded here; CircularIndex says when comparing
    machine words gives the same answers. */
module ImplicitProducer {
  import opened Threads
  import opened BlockIndex
  import CircularIndex

  type Element = int

  /** 2^63, half the range of an index. */
  const HALF: nat := 0x8000_0000_0000_0000

  datatype Block = Block(dequeued: nat, slots: seq<Option<Element>>)

  datatype Enqueuer =
    | Idle
    | HeadLoad(x: Element)
    | Insert(x: Element)
    | GrowIndex(x: Element)
    | KeyStore(x: Element, entry: nat)
    | TailStore(x: Element, entry: nat)
    | PoolTest(x: Element, entry: nat)
    | PoolTake(x: Element, entry: nat)
    | FreeGet(x: Element, entry: nat)
    | Allocate(x: Element, entry: nat)
    | Reset(x: Element, entry: nat, block: nat)
    | ValueStore(x: Element, entry: nat, block: nat)
    | Write(x: Element)
    | Publish(x: Element)

  datatype Dequeuer =
    | Rest
    | TailLoad
    | OverLoad(tail: nat)
    | OptimisticLoad(tail: nat, over: nat)
    | Reserve(over: nat)
    | Check(over: nat, mine: nat)
    | Claim
    | GiveUp
    | HeaderLoad(index: nat)
    | IndexTailLoad(index: nat, header: nat)
    | KeyLoad(index: nat, header: nat, tail: nat)
    | ValueLoad(index: nat, entry: nat)
    | Read(index: nat, entry: nat, block: nat)
    | Count(index: nat, entry: nat, block: nat)
    | Clear(index: nat, entry: nat, block: nat)
    | Free(block: nat)

  /** What became of reservation number i. */
  datatype Fate = Pending | Failed | Passed

  /** The fields after `deqs` are history: the block each live block number has, every element in
      the order enqueued, the fate of every reservation, and what was read at each index. */
  datatype State = State(
    tail: nat, head: nat, optimistic: nat, overcommit: nat,
    index: Index, blocks: seq<Block>, tailBlock: Option<nat>,
    poolSize: nat, poolIndex: nat, free: set<nat>, others: set<nat>,
    enq: Enqueuer, deqs: seq<Dequeuer>,
    live: map<int, nat>, log: seq<Element>, fates: seq<Fate>, taken: map<int, Element>)

  /** `pick` is the block that the free list hands out, if any. The other sub-queues of the queue
      take blocks from the same places and give them back. */
  datatype Event =
    | CallEnqueue(x: Element)
    | StepEnqueuer(pick: Option<nat>)
    | CallDequeue(t: nat)
    | StepDequeuer(t: nat)
    | OtherFromPool
    | OtherFromFree(block: nat)
    | OtherAllocates
    | OtherFrees(block: nat)

  function NewBlock(): Block {
    Block(0, seq(BLOCK_SIZE, _ => None))
  }

  // ---- The enqueuer ----

  function Go(s: State, l: Enqueuer): State {
    s.(enq := l)
  }

  /** The test for room that `enqueue` makes with the head it just loaded. */
  predicate HasRoom(s: State) {
    CircularIndex.CircularLess(s.head % (2 * HALF), (s.tail + BLOCK_SIZE) % (2 * HALF), HALF)
  }

  /** `new_block_index` up to its publication; an index that cannot be doubled makes the call fail. */
  function PublishIndex(s: State, x: Element): State
    requires s.index.Shaped()
  {
    if s.index.CanGrow() && Grow(s.index).Shaped()
    then Go(s.(index := Grow(s.index)), KeyStore(x, Grow(s.index).NextEntry()))
    else Go(s, Idle)
  }

  function SetDequeued(s: State, b: nat, n: nat): State
    requires b < |s.blocks|
  {
    s.(blocks := s.blocks[b := s.blocks[b].(dequeued := n)])
  }

  function SetSlot(s: State, b: nat, i: nat, x: Option<Element>): State
    requires b < |s.blocks| && |s.blocks[b].slots| == BLOCK_SIZE
  {
    s.(blocks := s.blocks[b := s.blocks[b].(slots := s.blocks[b].slots[i % BLOCK_SIZE := x])])
  }

  /** What the enqueuer needs for its next access to be meaningful; the invariant implies it. */
  predicate CanEnqueue(s: State) {
    && s.index.Shaped() && s.index.newest >= -1
    && match s.enq
       case TailStore(_, e) => e < |s.index.entries|
       case Reset(_, _, b) => b < |s.blocks|
       case ValueStore(_, e, b) => e < |s.index.entries| && b < |s.blocks|
       case Write(_) =>
         s.tailBlock.Some? && s.tailBlock.value < |s.blocks| && |s.blocks[s.tailBlock.value].slots| == BLOCK_SIZE
       case _ => true
  }

  function AdvanceEnqueuer(s: State, pick: Option<nat>): State
    requires CanEnqueue(s)
  {
    match s.enq
    case Idle => s
    case HeadLoad(x) => Go(s, if HasRoom(s) then Insert(x) else Idle)
    case Insert(x) => Go(s, if s.index.Reusable() then KeyStore(x, s.index.NextEntry()) else GrowIndex(x))
    case GrowIndex(x) => PublishIndex(s, x)
    case KeyStore(x, e) => Go(s.(index := WriteKey(s.index)), TailStore(x, e))
    case TailStore(x, e) => Go(s.(index := MoveTail(s.index)), PoolTest(x, e))
    case PoolTest(x, e) => Go(s, if s.poolIndex >= s.poolSize then FreeGet(x, e) else PoolTake(x, e))
    case PoolTake(x, e) =>
      Go(s.(poolIndex := s.poolIndex + 1),
         if s.poolIndex < s.poolSize then Reset(x, e, s.poolIndex) else FreeGet(x, e))
    case FreeGet(x, e) =>
      if pick.Some? && pick.value in s.free
      then Go(s.(free := s.free - {pick.value}), Reset(x, e, pick.value))
      else Go(s, Allocate(x, e))
    case Allocate(x, e) => Go(s.(blocks := s.blocks + [NewBlock()]), Reset(x, e, |s.blocks|))
    case Reset(x, e, b) => Go(SetDequeued(s, b, 0), ValueStore(x, e, b))
    case ValueStore(x, e, b) =>
      Go(s.(index := SetValue(s.index, e, Some(b)), tailBlock := Some(b),
            live := s.live[s.tail / BLOCK_SIZE := b]), Write(x))
    case Write(x) => Go(SetSlot(s, s.tailBlock.value, s.tail, Some(x)), Publish(x))
    case Publish(x) => Go(s.(tail := s.tail + 1, log := s.log + [x]), Idle)
  }

  // ---- The dequeuers ----

  function At(s: State, t: nat, l: Dequeuer): State
    requires t < |s.deqs|
  {
    s.(deqs := s.deqs[t := l])
  }

  /** What a dequeuer needs for its next access to be meaningful; the invariant implies it. */
  predicate CanStep(s: State, l: Dequeuer) {
    && s.index.Shaped()
    && match l
       case Check(_, m) => m < |s.fates|
       case IndexTailLoad(_, h) => h < |s.index.headers|
       case KeyLoad(_, h, tl) => h < |s.index.headers| && tl < s.index.Hd(h).capacity
       case ValueLoad(_, e) => e < |s.index.entries| && s.index.entries[e].value.Some?
       case Read(i, _, b) => b < |s.blocks| && |s.blocks[b].slots| == BLOCK_SIZE
                             && s.blocks[b].slots[i % BLOCK_SIZE].Some?
       case Count(_, _, b) => b < |s.blocks|
       case Clear(_, e, _) => e < |s.index.entries|
       case _ => true
  }

  function AdvanceDequeuer(s: State, t: nat): State
    requires t < |s.deqs| && CanStep(s, s.deqs[t])
  {
    match s.deqs[t]
    case Rest => s
    case TailLoad => At(s, t, OverLoad(s.tail))
    case OverLoad(tail) => At(s, t, OptimisticLoad(tail, s.overcommit))
    case OptimisticLoad(tail, over) =>
      At(s, t, if s.optimistic - over < tail then Reserve(over) else Rest)
    case Reserve(over) =>
      At(s, t, Check(over, s.optimistic)).(optimistic := s.optimistic + 1, fates := s.fates + [Pending])
    case Check(over, mine) =>
      if mine - over < s.tail
      then At(s, t, Claim).(fates := s.fates[mine := Passed])
      else At(s, t, GiveUp).(fates := s.fates[mine := Failed])
    case Claim => At(s, t, HeaderLoad(s.head)).(head := s.head + 1)
    case GiveUp => At(s, t, Rest).(overcommit := s.overcommit + 1)
    case HeaderLoad(i) => At(s, t, IndexTailLoad(i, |s.index.headers| - 1))
    case IndexTailLoad(i, h) => At(s, t, KeyLoad(i, h, s.index.Hd(h).tail))
    case KeyLoad(i, h, tl) => At(s, t, ValueLoad(i, s.index.Find(h, tl, i / BLOCK_SIZE)))
    case ValueLoad(i, e) => At(s, t, Read(i, e, s.index.entries[e].value.value))
    case Read(i, e, b) =>
      At(SetSlot(s, b, i, None), t, Count(i, e, b))
      .(taken := s.taken[i := s.blocks[b].slots[i % BLOCK_SIZE].value])
    case Count(i, e, b) =>
      At(SetDequeued(s, b, s.blocks[b].dequeued + 1), t,
         if s.blocks[b].dequeued == BLOCK_SIZE - 1 then Clear(i, e, b) else Rest)
    case Clear(i, e, b) =>
      At(s.(index := SetValue(s.index, e, None)), t, Free(b)).(live := s.live - {i / BLOCK_SIZE})
    case Free(b) => At(s, t, Rest).(free := s.free + {b})
  }

  predicate CanNext(s: State, e: Event) {
    && (e.StepEnqueuer? ==> CanEnqueue(s))
    && (e.StepDequeuer? && e.t < |s.deqs| ==> CanStep(s, s.deqs[e.t]))
  }

  /** One event; an event that is not enabled changes nothing. */
  function Apply(s: State, e: Event): State
    requires CanNext(s, e)
  {
    match e
    case CallEnqueue(x) =>
      if !s.enq.Idle? then s else if s.tail % BLOCK_SIZE == 0 then Go(s, HeadLoad(x)) else Go(s, Write(x))
    case StepEnqueuer(pick) => AdvanceEnqueuer(s, pick)
    case CallDequeue(t) => if t < |s.deqs| && s.deqs[t].Rest? then At(s, t, TailLoad) else s
    case StepDequeuer(t) => if t < |s.deqs| then AdvanceDequeuer(s, t) else s
    case OtherFromPool =>
      if s.poolIndex < s.poolSize
      then s.(poolIndex := s.poolIndex + 1, others := s.others + {s.poolIndex})
      else s.(poolIndex := s.poolIndex + 1)
    case OtherFromFree(b) => if b in s.free then s.(free := s.free - {b}, others := s.others + {b}) else s
    case OtherAllocates => s.(blocks := s.blocks + [NewBlock()], others := s.others + {|s.blocks|})
    case OtherFrees(b) => if b in s.others then s.(others := s.others - {b}, free := s.free + {b}) else s
  }

  function Next(s: State, e: Event): State {
    if CanNext(s, e) then Apply(s, e) else s
  }

  function Start(dequeuers: nat, pool: nat): State {
    State(0, 0, 0, 0, Empty(), seq(pool, _ => NewBlock()), None, pool, 0, {}, {},
          Idle, seq(dequeuers, _ => Rest), map[], [], [], map[])
  }

  // ---- Reservations ----

  function AtCheck(l: Dequeuer): int { Bit(l.Check?) }

  function AtClaim(l: Dequeuer): int { Bit(l.Claim?) }

  function AtGiveUp(l: Dequeuer): int { Bit(l.GiveUp?) }

  function IsPending(f: Fate): int { Bit(f.Pending?) }

  function IsFailed(f: Fate): int { Bit(f.Failed?) }

  function IsPassed(f: Fate): int { Bit(f.Passed?) }

  /** A dequeuer's stale overcommit value counts only failures of earlier reservations. */
  ghost predicate ReservationOk(fates: seq<Fate>, l: Dequeuer) {
    match l
    case OptimisticLoad(_, over) => over <= Sum(fates, IsFailed)
    case Reserve(over) => over <= Sum(fates, IsFailed)
    case Check(over, m) => m < |fates| && fates[m].Pending? && over <= Sum(fates[..m], IsFailed)
    case _ => true
  }

  ghost predicate ReservationInv(tail: nat, head: nat, optimistic: nat, overcommit: nat,
                                 fates: seq<Fate>, deqs: seq<Dequeuer>) {
    && |fates| == optimistic
    && overcommit + Sum(deqs, AtGiveUp) == Sum(fates, IsFailed)
    && head + Sum(deqs, AtClaim) == Sum(fates, IsPassed)
    && Sum(deqs, AtCheck) == Sum(fates, IsPending)
    && (forall i :: 0 <= i < |fates| && fates[i].Passed? ==> i + 1 - Sum(fates[..i], IsFailed) <= tail)
    && (forall t :: 0 <= t < |deqs| ==> ReservationOk(fates, deqs[t]))
    && (forall t, u :: 0 <= t < u < |deqs| && deqs[t].Check? && deqs[u].Check? ==> deqs[t].mine != deqs[u].mine)
  }

  /** The last reservation that passed bounds them all: with n reservations up to it and at least
      `over` of them failed, at most tail passed. */
  lemma {:induction false} PassedFit(fates: seq<Fate>, tail: nat)
    requires forall i :: 0 <= i < |fates| && fates[i].Passed? ==> i + 1 - Sum(fates[..i], IsFailed) <= tail
    ensures Sum(fates, IsPassed) <= tail
  {
    if fates != [] {
      var n := |fates| - 1;
      if fates[n].Passed? {
        SumNonNegative(fates, IsPending);
        FatesAddUp(fates);
        assert Sum(fates, IsFailed) == Sum(fates[..n], IsFailed);
      } else {
        assert forall i :: 0 <= i < n ==> fates[..n][..i] == fates[..i];
        PassedFit(fates[..n], tail);
      }
    }
  }

  lemma {:induction false} FatesAddUp(fates: seq<Fate>)
    ensures Sum(fates, IsPending) + Sum(fates, IsFailed) + Sum(fates, IsPassed) == |fates|
  {
    if fates != [] {
      FatesAddUp(fates[..|fates| - 1]);
    }
  }

  /** Claims never overtake the tail, not even with the decided but unclaimed ones. */
  lemma ClaimsFit(tail: nat, head: nat, optimistic: nat, overcommit: nat, fates: seq<Fate>, deqs: seq<Dequeuer>)
    requires ReservationInv(tail, head, optimistic, overcommit, fates, deqs)
    ensures head + Sum(deqs, AtClaim) <= tail && Sum(deqs, AtClaim) >= 0
    ensures (exists t :: 0 <= t < |deqs| && deqs[t].Claim?) ==> head < tail
  {
    PassedFit(fates, tail);
    SumNonNegative(deqs, AtClaim);
    if t :| 0 <= t < |deqs| && deqs[t].Claim? {
      SumAtLeast(deqs, t, AtClaim);
    }
  }

  lemma FailedGrows(fates: seq<Fate>, m: nat, f: Fate)
    requires m < |fates| && fates[m].Pending?
    ensures forall i :: 0 <= i <= |fates| ==> Sum(fates[m := f][..i], IsFailed) >= Sum(fates[..i], IsFailed)
  {
    forall i | 0 <= i <= |fates| ensures Sum(fates[m := f][..i], IsFailed) >= Sum(fates[..i], IsFailed) {
      if m < i {
        assert fates[m := f][..i] == fates[..i][m := f];
        SumUpdate(fates[..i], m, f, IsFailed);
      } else {
        assert fates[m := f][..i] == fates[..i];
      }
    }
  }

  lemma KeepReserve(tail: nat, head: nat, optimistic: nat, overcommit: nat, fates: seq<Fate>, deqs: seq<Dequeuer>,
                    t: nat)
    requires ReservationInv(tail, head, optimistic, overcommit, fates, deqs)
    requires t < |deqs| && deqs[t].Reserve?
    ensures ReservationInv(tail, head, optimistic + 1, overcommit, fates + [Pending],
                           deqs[t := Check(deqs[t].over, optimistic)])
  {
    var l := Check(deqs[t].over, optimistic);
    var fates' := fates + [Pending];
    SumUpdate(deqs, t, l, AtCheck);
    SumUpdate(deqs, t, l, AtClaim);
    SumUpdate(deqs, t, l, AtGiveUp);
    SumAppend(fates, Pending, IsFailed);
    SumAppend(fates, Pending, IsPassed);
    SumAppend(fates, Pending, IsPending);
    assert forall i :: 0 <= i <= |fates| ==> fates'[..i] == fates[..i];
    assert fates[..|fates|] == fates;
    forall u | 0 <= u < |deqs| && u != t ensures ReservationOk(fates', deqs[u]) {
      assert ReservationOk(fates, deqs[u]);
    }
    assert ReservationOk(fates, deqs[t]);
    assert forall u :: 0 <= u < |deqs| && deqs[u].Check? ==> ReservationOk(fates, deqs[u]) && deqs[u].mine < optimistic;
  }

  /** Deciding a reservation keeps every bound: failures before any number only get more, and a
      reservation passes only if its own number allows it. */
  lemma DecideKeepsBounds(tail: nat, fates: seq<Fate>, fates': seq<Fate>, m: nat, over: nat, f: Fate)
    requires forall i :: 0 <= i < |fates| && fates[i].Passed? ==> i + 1 - Sum(fates[..i], IsFailed) <= tail
    requires m < |fates| && fates[m].Pending? && over <= Sum(fates[..m], IsFailed)
    requires fates' == fates[m := f] && (f.Passed? ==> m - over < tail)
    ensures forall i :: 0 <= i < |fates'| && fates'[i].Passed? ==> i + 1 - Sum(fates'[..i], IsFailed) <= tail
  {
    FailedGrows(fates, m, f);
    forall i | 0 <= i < |fates'| && fates'[i].Passed?
      ensures i + 1 - Sum(fates'[..i], IsFailed) <= tail
    {
      assert Sum(fates'[..i], IsFailed) >= Sum(fates[..i], IsFailed);
    }
  }

  lemma DecideKeepsOthers(fates: seq<Fate>, m: nat, f: Fate, l: Dequeuer)
    requires m < |fates| && fates[m].Pending? && ReservationOk(fates, l) && (l.Check? ==> l.mine != m)
    ensures ReservationOk(fates[m := f], l)
  {
    FailedGrows(fates, m, f);
    assert fates[..|fates|] == fates && fates[m := f][..|fates|] == fates[m := f];
  }

  lemma DecideCounts(fates: seq<Fate>, deqs: seq<Dequeuer>, t: nat, m: nat, pass: bool)
    requires t < |deqs| && deqs[t].Check? && m < |fates| && fates[m].Pending?
    ensures var f := if pass then Passed else Failed;
            var l := if pass then Claim else GiveUp;
            && Sum(deqs[t := l], AtGiveUp) - Sum(deqs, AtGiveUp)
               == Sum(fates[m := f], IsFailed) - Sum(fates, IsFailed)
            && Sum(deqs[t := l], AtClaim) - Sum(deqs, AtClaim)
               == Sum(fates[m := f], IsPassed) - Sum(fates, IsPassed)
            && Sum(deqs[t := l], AtCheck) - Sum(deqs, AtCheck)
               == Sum(fates[m := f], IsPending) - Sum(fates, IsPending)
  {
    var f := if pass then Passed else Failed;
    var l := if pass then Claim else GiveUp;
    SumUpdate(deqs, t, l, AtCheck);
    SumUpdate(deqs, t, l, AtClaim);
    SumUpdate(deqs, t, l, AtGiveUp);
    SumUpdate(fates, m, f, IsFailed);
    SumUpdate(fates, m, f, IsPassed);
    SumUpdate(fates, m, f, IsPending);
  }

  lemma KeepCheck(tail: nat, head: nat, optimistic: nat, overcommit: nat, fates: seq<Fate>, deqs: seq<Dequeuer>, t: nat)
    requires ReservationInv(tail, head, optimistic, overcommit, fates, deqs)
    requires t < |deqs| && deqs[t].Check?
    ensures var m := deqs[t].mine;
            && m < |fates|
            && var pass := m - deqs[t].over < tail;
            ReservationInv(tail, head, optimistic, overcommit,
                           fates[m := if pass then Passed else Failed], deqs[t := if pass then Claim else GiveUp])
  {
    assert ReservationOk(fates, deqs[t]);
    var m := deqs[t].mine;
    var pass := m - deqs[t].over < tail;
    var f := if pass then Passed else Failed;
    DecideKeepsBounds(tail, fates, fates[m := f], m, deqs[t].over, f);
    DecideCounts(fates, deqs, t, m, pass);
    forall u | 0 <= u < |deqs| && u != t ensures ReservationOk(fates[m := f], deqs[u]) {
      DecideKeepsOthers(fates, m, f, deqs[u]);
    }
  }

  /** Steps that leave the reservations alone. */
  lemma KeepReservations(tail: nat, tail': nat, head: nat, head': nat, optimistic: nat, overcommit: nat,
                         overcommit': nat,
                         fates: seq<Fate>, deqs: seq<Dequeuer>, t: nat, l: Dequeuer)
    requires ReservationInv(tail, head, optimistic, overcommit, fates, deqs)
    requires t < |deqs| && tail <= tail' && ReservationOk(fates, l) && !l.Check? && !deqs[t].Check?
    requires overcommit' + AtGiveUp(l) == overcommit + AtGiveUp(deqs[t])
    requires head' + AtClaim(l) == head + AtClaim(deqs[t])
    ensures ReservationInv(tail', head', optimistic, overcommit', fates, deqs[t := l])
  {
    SumUpdate(deqs, t, l, AtCheck);
    SumUpdate(deqs, t, l, AtClaim);
    SumUpdate(deqs, t, l, AtGiveUp);
  }

  // ---- What is stored where ----

  /** 1 when dequeuer l has claimed index i and not read it yet. */
  function Reading(i: int): Dequeuer -> int {
    (l: Dequeuer) => Bit((l.HeaderLoad? || l.IndexTailLoad? || l.KeyLoad? || l.ValueLoad? || l.Read?) && l.index == i)
  }

  /** 1 when dequeuer l has claimed an index of block k and not counted it as dequeued yet. */
  function InBlock(k: int): Dequeuer -> int {
    (l: Dequeuer) =>
      Bit((l.HeaderLoad? || l.IndexTailLoad? || l.KeyLoad? || l.ValueLoad? || l.Read? || l.Count?)
          && l.index / BLOCK_SIZE == k)
  }

  /** 1 when dequeuer l counted the last index of block k and is about to release the block. */
  function Releasing(k: int): Dequeuer -> int {
    (l: Dequeuer) => Bit(l.Clear? && l.index / BLOCK_SIZE == k)
  }

  /** 1 when dequeuer l is about to put block b on the free list. */
  function Carries(b: nat): Dequeuer -> int {
    (l: Dequeuer) => Bit(l.Free? && l.block == b)
  }

  function Clamp(n: int): nat {
    if n < 0 then 0 else if n < BLOCK_SIZE then n else BLOCK_SIZE
  }

  ghost predicate ReadInv(head: nat, taken: map<int, Element>, log: seq<Element>, deqs: seq<Dequeuer>) {
    && (forall i: int :: Sum(deqs, Reading(i)) + Bit(i in taken) == Bit(0 <= i < head))
    && (forall i :: i in taken ==> 0 <= i < |log| && taken[i] == log[i])
  }

  /** A live block has counted as many dequeued elements as indices were claimed from it and are
      no longer in progress; exactly when it has counted all, one dequeuer is releasing it. */
  ghost predicate BlockInv(k: int, head: nat, blocks: seq<Block>, live: map<int, nat>, deqs: seq<Dequeuer>) {
    && (k in live ==>
          && 0 <= k && live[k] < |blocks|
          && blocks[live[k]].dequeued + Sum(deqs, InBlock(k)) == Clamp(head - BLOCK_SIZE * k)
          && Sum(deqs, Releasing(k)) == Bit(blocks[live[k]].dequeued == BLOCK_SIZE))
    && (k !in live ==> Sum(deqs, InBlock(k)) == 0 && Sum(deqs, Releasing(k)) == 0)
  }

  ghost predicate BlocksInv(head: nat, blocks: seq<Block>, live: map<int, nat>, deqs: seq<Dequeuer>) {
    forall k: int :: BlockInv(k, head, blocks, live, deqs)
  }

  /** Every element that was enqueued and not read is in its slot of a live block. */
  ghost predicate DataInv(blocks: seq<Block>, live: map<int, nat>, taken: map<int, Element>, log: seq<Element>) {
    && (forall b :: 0 <= b < |blocks| ==> |blocks[b].slots| == BLOCK_SIZE)
    && (forall i :: 0 <= i < |log| && i !in taken ==>
          && i / BLOCK_SIZE in live && live[i / BLOCK_SIZE] < |blocks|
          && blocks[live[i / BLOCK_SIZE]].slots[i % BLOCK_SIZE] == Some(log[i]))
  }

  ghost predicate InLive(live: map<int, nat>, b: nat) {
    exists k :: k in live && live[k] == b
  }

  predicate EnqueuerHas(enq: Enqueuer, b: nat) {
    (enq.Reset? || enq.ValueStore?) && enq.block == b
  }

  /** In how many places block b is. */
  ghost function Places(poolSize: nat, poolIndex: nat, free: set<nat>, others: set<nat>, live: map<int, nat>,
                  enq: Enqueuer, deqs: seq<Dequeuer>, b: nat): int {
    Bit(poolIndex <= b < poolSize) + Bit(b in free) + Bit(b in others) + Bit(InLive(live, b))
    + Bit(EnqueuerHas(enq, b)) + Sum(deqs, Carries(b))
  }

  ghost predicate AllocationInv(poolSize: nat, poolIndex: nat, free: set<nat>, others: set<nat>, live: map<int, nat>,
                                enq: Enqueuer, deqs: seq<Dequeuer>, count: nat) {
    && poolSize <= count
    && (forall b :: b in free || b in others ==> b < count)
    && (forall b :: 0 <= b < count ==> Places(poolSize, poolIndex, free, others, live, enq, deqs, b) == 1)
    && (forall k, m :: k in live && m in live && k != m ==> live[k] != live[m])
  }

  predicate EnqueuerOk(enq: Enqueuer, tail: nat, ix: Index, live: map<int, nat>, tailBlock: Option<nat>,
                       blocks: seq<Block>)
    requires ix.Shaped()
  {
    var k := tail / BLOCK_SIZE;
    var atBase := tail % BLOCK_SIZE == 0;
    var open := k in live && tailBlock == Some(live[k]) && ix.newest == k && !ix.pending && live[k] < |blocks|;
    var inserted := atBase && ix.newest == k && !ix.pending && ix.first <= k;
    match enq
    case Idle => if atBase then ix.newest == k - 1 && !ix.pending else open
    case HeadLoad(_) => atBase && ix.newest == k - 1 && !ix.pending
    case Insert(_) => atBase && ix.newest == k - 1 && !ix.pending
    case GrowIndex(_) => atBase && ix.newest == k - 1 && !ix.pending && ix.Keyed()
    case KeyStore(_, e) => atBase && ix.newest == k - 1 && !ix.pending && ix.Reusable() && e == ix.NextEntry()
    case TailStore(_, e) =>
      atBase && ix.newest == k && ix.pending && ix.first <= k && EntryHasKey(ix, e, k)
    case Write(_) => open
    case Publish(x) =>
      && open && |blocks[live[k]].slots| == BLOCK_SIZE
      && blocks[live[k]].slots[tail % BLOCK_SIZE] == Some(x)
    case PoolTest(_, e) => inserted && EntryHasKey(ix, e, k)
    case PoolTake(_, e) => inserted && EntryHasKey(ix, e, k)
    case FreeGet(_, e) => inserted && EntryHasKey(ix, e, k)
    case Allocate(_, e) => inserted && EntryHasKey(ix, e, k)
    case Reset(_, e, b) => inserted && EntryHasKey(ix, e, k) && b < |blocks|
    case ValueStore(_, e, b) => inserted && EntryHasKey(ix, e, k) && b < |blocks| && blocks[b].dequeued == 0
  }

  predicate EntryHasKey(ix: Index, e: nat, k: int) {
    e < |ix.entries| && ix.entries[e].key == BLOCK_SIZE * k
  }

  /** A live block starts before the tail, unless it was inserted just now. */
  predicate LiveBelowTail(tail: nat, live: map<int, nat>, enq: Enqueuer) {
    forall k :: k in live ==> BLOCK_SIZE * k < tail || (BLOCK_SIZE * k == tail && (enq.Write? || enq.Publish?))
  }

  predicate RoomInv(head: nat, tail: nat, enq: Enqueuer) {
    && CircularIndex.InRange(CircularIndex.Indices(head, tail), BLOCK_SIZE, HALF)
    && (tail % BLOCK_SIZE == 0 && !enq.Idle? && !enq.HeadLoad? ==> tail + BLOCK_SIZE - head < HALF)
  }

  predicate DequeuerOk(ix: Index, live: map<int, nat>, count: nat, l: Dequeuer)
    requires ix.Shaped()
  {
    match l
    case HeaderLoad(i) => i / BLOCK_SIZE in live
    case IndexTailLoad(i, h) => i / BLOCK_SIZE in live && h < |ix.headers| && Covers(ix, h, i / BLOCK_SIZE)
    case KeyLoad(i, h, tl) =>
      i / BLOCK_SIZE in live && h < |ix.headers| && Covers(ix, h, i / BLOCK_SIZE) && TailUsable(ix, h, tl)
    case ValueLoad(i, e) =>
      i / BLOCK_SIZE in live && EntryHasKey(ix, e, i / BLOCK_SIZE)
    case Free(b) => b < count
    case Read(_, _, _) => HasBlock(ix, live, l)
    case Count(_, _, _) => HasBlock(ix, live, l)
    case Clear(_, _, _) => HasBlock(ix, live, l)
    case _ => true
  }

  predicate HasBlock(ix: Index, live: map<int, nat>, l: Dequeuer)
    requires l.Read? || l.Count? || l.Clear?
  {
    var k := l.index / BLOCK_SIZE;
    k in live && EntryHasKey(ix, l.entry, k) && live[k] == l.block
  }

  ghost predicate Inv(s: State) {
    && ReservationInv(s.tail, s.head, s.optimistic, s.overcommit, s.fates, s.deqs)
    && |s.log| == s.tail
    && ReadInv(s.head, s.taken, s.log, s.deqs)
    && BlocksInv(s.head, s.blocks, s.live, s.deqs)
    && DataInv(s.blocks, s.live, s.taken, s.log)
    && AllocationInv(s.poolSize, s.poolIndex, s.free, s.others, s.live, s.enq, s.deqs, |s.blocks|)
    && s.index.Shaped()
    && IndexInv(s.index, s.live)
    && EnqueuerOk(s.enq, s.tail, s.index, s.live, s.tailBlock, s.blocks)
    && LiveBelowTail(s.tail, s.live, s.enq)
    && RoomInv(s.head, s.tail, s.enq)
    && (forall t :: 0 <= t < |s.deqs| ==> DequeuerOk(s.index, s.live, |s.blocks|, s.deqs[t]))
  }

  /** A dequeuer that has claimed an index finds everything it needs. */
  lemma InvCanStep(s: State, t: nat)
    requires Inv(s) && t < |s.deqs|
    ensures CanStep(s, s.deqs[t])
  {
    var l := s.deqs[t];
    assert DequeuerOk(s.index, s.live, |s.blocks|, l);
    match l {
      case Check(_, m) => assert ReservationOk(s.fates, l);
      case Read(i, _, b) => ReadIsRight(s, t);
      case Count(i, _, b) => assert BlockInv(i / BLOCK_SIZE, s.head, s.blocks, s.live, s.deqs);
      case _ =>
    }
  }

  /** The dequeuer that reads an index is the only one, and reads what was enqueued there. */
  lemma ReadIsRight(s: State, t: nat)
    requires Inv(s) && t < |s.deqs| && s.deqs[t].Read?
    ensures var l := s.deqs[t];
            && l.index !in s.taken && l.index < s.head && l.index < |s.log|
            && l.index / BLOCK_SIZE in s.live && s.live[l.index / BLOCK_SIZE] == l.block < |s.blocks|
            && |s.blocks[l.block].slots| == BLOCK_SIZE
            && s.blocks[l.block].slots[l.index % BLOCK_SIZE] == Some(s.log[l.index])
  {
    var i := s.deqs[t].index;
    assert DequeuerOk(s.index, s.live, |s.blocks|, s.deqs[t]);
    SumAtLeast(s.deqs, t, Reading(i));
    assert Sum(s.deqs, Reading(i)) + Bit(i in s.taken) == Bit(0 <= i < s.head);
    ClaimsFit(s.tail, s.head, s.optimistic, s.overcommit, s.fates, s.deqs);
  }

  // ---- Moving one dequeuer, part by part ----

  lemma MoveReading(head: nat, head': nat, taken: map<int, Element>, taken': map<int, Element>, log: seq<Element>,
                    deqs: seq<Dequeuer>, t: nat, l: Dequeuer)
    requires ReadInv(head, taken, log, deqs) && t < |deqs|
    requires forall i: int ::
               Reading(i)(l) + Bit(i in taken') - Bit(0 <= i < head')
               == Reading(i)(deqs[t]) + Bit(i in taken) - Bit(0 <= i < head)
    requires forall i :: i in taken' ==> 0 <= i < |log| && taken'[i] == log[i]
    ensures ReadInv(head', taken', log, deqs[t := l])
  {
    forall i: int ensures Sum(deqs[t := l], Reading(i)) + Bit(i in taken') == Bit(0 <= i < head') {
      SumUpdate(deqs, t, l, Reading(i));
      assert Sum(deqs, Reading(i)) + Bit(i in taken) == Bit(0 <= i < head);
    }
  }

  /** What block k's counter lacks when dequeuer l is left out of the count. */
  ghost predicate SameCount(k: int, head: nat, head': nat, blocks: seq<Block>, blocks': seq<Block>, live: map<int, nat>,
                            l: Dequeuer, l': Dequeuer) {
    if k in live then
      && live[k] < |blocks| <= |blocks'|
      && blocks'[live[k]].dequeued + InBlock(k)(l') - Clamp(head' - BLOCK_SIZE * k)
         == blocks[live[k]].dequeued + InBlock(k)(l) - Clamp(head - BLOCK_SIZE * k)
      && Releasing(k)(l') - Bit(blocks'[live[k]].dequeued == BLOCK_SIZE)
         == Releasing(k)(l) - Bit(blocks[live[k]].dequeued == BLOCK_SIZE)
    else InBlock(k)(l') == InBlock(k)(l) && Releasing(k)(l') == Releasing(k)(l)
  }

  lemma MoveInBlocks(head: nat, head': nat, blocks: seq<Block>, blocks': seq<Block>, live: map<int, nat>,
                     deqs: seq<Dequeuer>, t: nat, l: Dequeuer)
    requires BlocksInv(head, blocks, live, deqs) && t < |deqs|
    requires forall k: int :: SameCount(k, head, head', blocks, blocks', live, deqs[t], l)
    ensures BlocksInv(head', blocks', live, deqs[t := l])
  {
    var deqs' := deqs[t := l];
    forall k: int ensures BlockInv(k, head', blocks', live, deqs') {
      assert BlockInv(k, head, blocks, live, deqs);
      assert SameCount(k, head, head', blocks, blocks', live, deqs[t], l);
      SumUpdate(deqs, t, l, InBlock(k));
      SumUpdate(deqs, t, l, Releasing(k));
    }
  }

  lemma MoveCarrying(s: State, t: nat, l: Dequeuer)
    requires AllocationInv(s.poolSize, s.poolIndex, s.free, s.others, s.live, s.enq, s.deqs, |s.blocks|) && t < |s.deqs|
    requires forall b: nat :: Carries(b)(l) == Carries(b)(s.deqs[t])
    ensures AllocationInv(s.poolSize, s.poolIndex, s.free, s.others, s.live, s.enq, s.deqs[t := l], |s.blocks|)
  {
    var deqs' := s.deqs[t := l];
    forall b | 0 <= b < |s.blocks|
      ensures Places(s.poolSize, s.poolIndex, s.free, s.others, s.live, s.enq, deqs', b) == 1
    {
      SumUpdate(s.deqs, t, l, Carries(b));
      assert Places(s.poolSize, s.poolIndex, s.free, s.others, s.live, s.enq, s.deqs, b) == 1;
    }
  }

  predicate HasIndex(l: Dequeuer) {
    l.HeaderLoad? || l.IndexTailLoad? || l.KeyLoad? || l.ValueLoad? || l.Read?
  }

  predicate SameStake(l: Dequeuer, m: Dequeuer) {
    && HasIndex(l) == HasIndex(m) && (HasIndex(l) ==> l.index == m.index)
    && !l.Count? && !m.Count? && !l.Clear? && !m.Clear? && !l.Free? && !m.Free?
  }

  /** A dequeuer that moves between places of equal weight keeps what is stored where. */
  lemma KeepStored(s: State, t: nat, l: Dequeuer)
    requires Inv(s) && t < |s.deqs| && SameStake(s.deqs[t], l)
    ensures ReadInv(s.head, s.taken, s.log, s.deqs[t := l])
    ensures BlocksInv(s.head, s.blocks, s.live, s.deqs[t := l])
    ensures AllocationInv(s.poolSize, s.poolIndex, s.free, s.others, s.live, s.enq, s.deqs[t := l], |s.blocks|)
  {
    MoveReading(s.head, s.head, s.taken, s.taken, s.log, s.deqs, t, l);
    forall k: int ensures SameCount(k, s.head, s.head, s.blocks, s.blocks, s.live, s.deqs[t], l) {
      assert BlockInv(k, s.head, s.blocks, s.live, s.deqs);
    }
    MoveInBlocks(s.head, s.head, s.blocks, s.blocks, s.live, s.deqs, t, l);
    MoveCarrying(s, t, l);
  }

  // ---- Every step keeps the invariant: dequeuers ----

  lemma KeepMove(s: State, t: nat, l: Dequeuer)
    requires Inv(s) && t < |s.deqs| && SameStake(s.deqs[t], l) && DequeuerOk(s.index, s.live, |s.blocks|, l)
    requires ReservationOk(s.fates, l) && !l.Check? && !s.deqs[t].Check?
    requires AtClaim(l) == AtClaim(s.deqs[t]) && AtGiveUp(l) == AtGiveUp(s.deqs[t])
    ensures Inv(At(s, t, l))
  {
    hide ReadInv, BlocksInv, DataInv, AllocationInv, IndexInv;
    KeepStored(s, t, l);
    KeepReservations(s.tail, s.tail, s.head, s.head, s.optimistic, s.overcommit, s.overcommit, s.fates, s.deqs, t, l);
  }

  lemma KeepReserveStep(s: State, t: nat)
    requires Inv(s) && t < |s.deqs| && s.deqs[t].Reserve?
    ensures CanStep(s, s.deqs[t]) && Inv(AdvanceDequeuer(s, t))
  {
    hide ReadInv, BlocksInv, DataInv, AllocationInv, IndexInv;
    hide ReservationInv;
    InvCanStep(s, t);
    KeepStored(s, t, Check(s.deqs[t].over, s.optimistic));
    KeepReserve(s.tail, s.head, s.optimistic, s.overcommit, s.fates, s.deqs, t);
  }

  lemma KeepCheckStep(s: State, t: nat)
    requires Inv(s) && t < |s.deqs| && s.deqs[t].Check?
    ensures CanStep(s, s.deqs[t]) && Inv(AdvanceDequeuer(s, t))
  {
    hide ReadInv, BlocksInv, DataInv, AllocationInv, IndexInv;
    InvCanStep(s, t);
    var l := if s.deqs[t].mine - s.deqs[t].over < s.tail then Claim else GiveUp;
    KeepStored(s, t, l);
    KeepCheck(s.tail, s.head, s.optimistic, s.overcommit, s.fates, s.deqs, t);
  }

  lemma KeepGiveUpStep(s: State, t: nat)
    requires Inv(s) && t < |s.deqs| && s.deqs[t].GiveUp?
    ensures Inv(AdvanceDequeuer(s, t))
  {
    hide ReadInv, BlocksInv, DataInv, AllocationInv, IndexInv;
    KeepStored(s, t, Rest);
    KeepReservations(s.tail, s.tail, s.head, s.head, s.optimistic, s.overcommit, s.overcommit + 1, s.fates, s.deqs, t,
        Rest);
  }

  lemma ClampNext(head: nat, k: int)
    ensures Clamp(head + 1 - BLOCK_SIZE * k) == Clamp(head - BLOCK_SIZE * k) + Bit(head / BLOCK_SIZE == k)
  {
  }

  /** The next index to claim belongs to a live block. */
  lemma HeadIsLive(s: State)
    requires Inv(s) && s.head < s.tail
    ensures s.head / BLOCK_SIZE in s.live
  {
    SumNonNegative(s.deqs, Reading(s.head));
    assert Sum(s.deqs, Reading(s.head)) + Bit(s.head in s.taken) == Bit(0 <= s.head < s.head);
  }

  lemma ClaimMoves(s: State, t: nat, l: Dequeuer)
    requires Inv(s) && t < |s.deqs| && s.deqs[t].Claim? && l == HeaderLoad(s.head)
    ensures ReadInv(s.head + 1, s.taken, s.log, s.deqs[t := l])
    ensures BlocksInv(s.head + 1, s.blocks, s.live, s.deqs[t := l])
  {
    hide AllocationInv, IndexInv, DataInv, ReservationInv;
    ClaimsFit(s.tail, s.head, s.optimistic, s.overcommit, s.fates, s.deqs);
    HeadIsLive(s);
    MoveReading(s.head, s.head + 1, s.taken, s.taken, s.log, s.deqs, t, l);
    var head' := s.head + 1;
    forall k: int ensures SameCount(k, s.head, head', s.blocks, s.blocks, s.live, Claim, l) {
      assert BlockInv(k, s.head, s.blocks, s.live, s.deqs);
      ClampNext(s.head, k);
    }
    MoveInBlocks(s.head, s.head + 1, s.blocks, s.blocks, s.live, s.deqs, t, l);
  }

  lemma KeepClaimStep(s: State, t: nat)
    requires Inv(s) && t < |s.deqs| && s.deqs[t].Claim?
    ensures Inv(AdvanceDequeuer(s, t))
  {
    hide ReadInv, BlocksInv, DataInv, AllocationInv, IndexInv;
    var l := HeaderLoad(s.head);
    ClaimsFit(s.tail, s.head, s.optimistic, s.overcommit, s.fates, s.deqs);
    HeadIsLive(s);
    ClaimMoves(s, t, l);
    MoveCarrying(s, t, l);
    KeepReservations(s.tail, s.tail, s.head, s.head + 1, s.optimistic, s.overcommit, s.overcommit, s.fates, s.deqs, t,
        l);
  }

  /** Distinct indices of live blocks are in distinct slots. */
  lemma SlotsApart(live: map<int, nat>, i: int, j: int)
    requires i / BLOCK_SIZE in live && j / BLOCK_SIZE in live && i != j
    requires forall k, m :: k in live && m in live && k != m ==> live[k] != live[m]
    ensures live[i / BLOCK_SIZE] != live[j / BLOCK_SIZE] || i % BLOCK_SIZE != j % BLOCK_SIZE
  {
  }

  lemma ReadKeepsData(s: State, t: nat)
    requires Inv(s) && t < |s.deqs| && s.deqs[t].Read? && CanStep(s, s.deqs[t])
    ensures var s' := AdvanceDequeuer(s, t);
            && DataInv(s'.blocks, s'.live, s'.taken, s'.log)
            && EnqueuerOk(s'.enq, s'.tail, s'.index, s'.live, s'.tailBlock, s'.blocks)
  {
    ReadIsRight(s, t);
    var s', i := AdvanceDequeuer(s, t), s.deqs[t].index;
    forall j | 0 <= j < |s.log| && j !in s'.taken
      ensures s'.blocks[s.live[j / BLOCK_SIZE]].slots[j % BLOCK_SIZE] == Some(s.log[j])
    {
      SlotsApart(s.live, i, j);
    }
    if s.enq.Publish? {
      SlotsApart(s.live, i, s.tail);
    }
  }

  lemma ReadMoves(s: State, t: nat)
    requires Inv(s) && t < |s.deqs| && s.deqs[t].Read? && CanStep(s, s.deqs[t])
    ensures var s' := AdvanceDequeuer(s, t);
            ReadInv(s.head, s'.taken, s.log, s'.deqs) && BlocksInv(s.head, s'.blocks, s.live, s'.deqs)
  {
    hide AllocationInv, IndexInv, DataInv, ReservationInv;
    ReadIsRight(s, t);
    var s' := AdvanceDequeuer(s, t);
    var l := s'.deqs[t];
    MoveReading(s.head, s.head, s.taken, s'.taken, s.log, s.deqs, t, l);
    forall k: int ensures SameCount(k, s.head, s.head, s.blocks, s'.blocks, s.live, s.deqs[t], l) {
      assert BlockInv(k, s.head, s.blocks, s.live, s.deqs);
    }
    MoveInBlocks(s.head, s.head, s.blocks, s'.blocks, s.live, s.deqs, t, l);
  }

  lemma KeepReadStep(s: State, t: nat)
    requires Inv(s) && t < |s.deqs| && s.deqs[t].Read?
    ensures CanStep(s, s.deqs[t]) && Inv(AdvanceDequeuer(s, t))
  {
    hide ReadInv, BlocksInv, DataInv, AllocationInv, IndexInv, EnqueuerOk;
    InvCanStep(s, t);
    ReadKeepsData(s, t);
    ReadMoves(s, t);
    var l := AdvanceDequeuer(s, t).deqs[t];
    MoveCarrying(s, t, l);
    assert DequeuerOk(s.index, s.live, |s.blocks|, s.deqs[t]);
    KeepReservations(s.tail, s.tail, s.head, s.head, s.optimistic, s.overcommit, s.overcommit, s.fates, s.deqs, t, l);
  }

  /** A block in the enqueuer's hands is not live. */
  lemma EnqueuersBlockIsNotLive(s: State, b: nat)
    requires AllocationInv(s.poolSize, s.poolIndex, s.free, s.others, s.live, s.enq, s.deqs, |s.blocks|)
    requires b < |s.blocks| && EnqueuerHas(s.enq, b)
    ensures !InLive(s.live, b) && forall k :: k in s.live ==> s.live[k] != b
  {
    assert Places(s.poolSize, s.poolIndex, s.free, s.others, s.live, s.enq, s.deqs, b) == 1;
    SumNonNegative(s.deqs, Carries(b));
  }

  lemma CountMoves(s: State, t: nat)
    requires Inv(s) && t < |s.deqs| && s.deqs[t].Count? && CanStep(s, s.deqs[t])
    ensures s.blocks[s.deqs[t].block].dequeued < BLOCK_SIZE
    ensures var s' := AdvanceDequeuer(s, t);
            ReadInv(s.head, s.taken, s.log, s'.deqs) && BlocksInv(s.head, s'.blocks, s.live, s'.deqs)
  {
    hide IndexInv, DataInv, ReservationInv;
    assert DequeuerOk(s.index, s.live, |s.blocks|, s.deqs[t]);
    var k0 := s.deqs[t].index / BLOCK_SIZE;
    assert BlockInv(k0, s.head, s.blocks, s.live, s.deqs);
    SumAtLeast(s.deqs, t, InBlock(k0));
    var s' := AdvanceDequeuer(s, t);
    var l := s'.deqs[t];
    MoveReading(s.head, s.head, s.taken, s.taken, s.log, s.deqs, t, l);
    forall k: int ensures SameCount(k, s.head, s.head, s.blocks, s'.blocks, s.live, s.deqs[t], l) {
      assert BlockInv(k, s.head, s.blocks, s.live, s.deqs);
    }
    MoveInBlocks(s.head, s.head, s.blocks, s'.blocks, s.live, s.deqs, t, l);
  }

  lemma KeepCountStep(s: State, t: nat)
    requires Inv(s) && t < |s.deqs| && s.deqs[t].Count?
    ensures CanNext(s, StepDequeuer(t)) && Inv(Next(s, StepDequeuer(t)))
    ensures s.deqs[t].block < |s.blocks| && s.blocks[s.deqs[t].block].dequeued < BLOCK_SIZE
  {
    hide ReadInv, BlocksInv, AllocationInv, IndexInv;
    InvCanStep(s, t);
    CountMoves(s, t);
    assert DequeuerOk(s.index, s.live, |s.blocks|, s.deqs[t]);
    var l := AdvanceDequeuer(s, t).deqs[t];
    MoveCarrying(s, t, l);
    KeepReservations(s.tail, s.tail, s.head, s.head, s.optimistic, s.overcommit, s.overcommit, s.fates, s.deqs, t, l);
    if s.enq.ValueStore? {
      EnqueuersBlockIsNotLive(s, s.enq.block);
    }
  }

  // ---- Every step keeps the invariant: releasing a block ----

  /** The one releaser of a block comes after everybody who claimed from it. */
  lemma ReleaserIsLast(s: State, t: nat)
    requires Inv(s) && t < |s.deqs| && s.deqs[t].Clear?
    ensures var k := s.deqs[t].index / BLOCK_SIZE;
            && k in s.live && s.live[k] == s.deqs[t].block < |s.blocks| && s.head >= BLOCK_SIZE * (k + 1)
            && Sum(s.deqs, InBlock(k)) == 0 && Sum(s.deqs, Releasing(k)) == 1
  {
    hide IndexInv, DataInv, ReservationInv, AllocationInv, ReadInv;
    assert DequeuerOk(s.index, s.live, |s.blocks|, s.deqs[t]);
    var k := s.deqs[t].index / BLOCK_SIZE;
    SumAtLeast(s.deqs, t, Releasing(k));
    SumNonNegative(s.deqs, InBlock(k));
    assert BlockInv(k, s.head, s.blocks, s.live, s.deqs);
  }

  lemma ReleaseKeepsBlock(s: State, t: nat, k: int)
    requires Inv(s) && t < |s.deqs| && s.deqs[t].Clear?
    ensures BlockInv(k, s.head, s.blocks, s.live - {s.deqs[t].index / BLOCK_SIZE}, s.deqs[t := Free(s.deqs[t].block)])
  {
    hide IndexInv, DataInv, ReservationInv, AllocationInv, ReadInv;
    ReleaserIsLast(s, t);
    var l := Free(s.deqs[t].block);
    SumUpdate(s.deqs, t, l, InBlock(k));
    SumUpdate(s.deqs, t, l, Releasing(k));
    assert BlockInv(k, s.head, s.blocks, s.live, s.deqs);
    hide BlocksInv;
  }

  lemma ReleaseKeepsBlocks(s: State, t: nat)
    requires Inv(s) && t < |s.deqs| && s.deqs[t].Clear?
    ensures BlocksInv(s.head, s.blocks, s.live - {s.deqs[t].index / BLOCK_SIZE}, s.deqs[t := Free(s.deqs[t].block)])
  {
    var live', deqs' := s.live - {s.deqs[t].index / BLOCK_SIZE}, s.deqs[t := Free(s.deqs[t].block)];
    forall k: int ensures BlockInv(k, s.head, s.blocks, live', deqs') {
      ReleaseKeepsBlock(s, t, k);
    }
  }

  /** Everything in a block that is being released has been read. */
  lemma ReleasedBlockWasRead(s: State, k: int)
    requires Inv(s) && 0 <= k && s.head >= BLOCK_SIZE * (k + 1) && Sum(s.deqs, InBlock(k)) == 0
    ensures forall i: int :: i / BLOCK_SIZE == k && 0 <= i ==> i in s.taken
  {
    hide IndexInv, DataInv, ReservationInv, AllocationInv, BlocksInv;
    forall i: int | i / BLOCK_SIZE == k && 0 <= i ensures i in s.taken {
      assert Sum(s.deqs, Reading(i)) + Bit(i in s.taken) == Bit(0 <= i < s.head);
      SumMonotone(s.deqs, Reading(i), InBlock(k));
    }
  }

  lemma ReleaseKeepsData(s: State, t: nat)
    requires Inv(s) && t < |s.deqs| && s.deqs[t].Clear?
    ensures DataInv(s.blocks, s.live - {s.deqs[t].index / BLOCK_SIZE}, s.taken, s.log)
  {
    hide IndexInv, ReservationInv, AllocationInv, BlocksInv;
    ReleaserIsLast(s, t);
    var k := s.deqs[t].index / BLOCK_SIZE;
    assert k >= 0;
    ReleasedBlockWasRead(s, k);
  }

  lemma RemoveLive(live: map<int, nat>, k: int)
    requires k in live && forall j, m :: j in live && m in live && j != m ==> live[j] != live[m]
    ensures forall b: nat :: InLive(live - {k}, b) <==> InLive(live, b) && b != live[k]
  {
    forall b: nat ensures InLive(live - {k}, b) <==> InLive(live, b) && b != live[k] {
      if InLive(live, b) && b != live[k] {
        var j :| j in live && live[j] == b;
        assert j in live - {k} && (live - {k})[j] == b;
      }
    }
  }

  lemma ReleaseKeepsAllocation(s: State, t: nat)
    requires Inv(s) && t < |s.deqs| && s.deqs[t].Clear?
    ensures AllocationInv(s.poolSize, s.poolIndex, s.free, s.others, s.live - {s.deqs[t].index / BLOCK_SIZE}, s.enq,
                          s.deqs[t := Free(s.deqs[t].block)], |s.blocks|)
  {
    hide IndexInv, ReservationInv, DataInv, BlocksInv, ReadInv;
    assert DequeuerOk(s.index, s.live, |s.blocks|, s.deqs[t]);
    var k, l := s.deqs[t].index / BLOCK_SIZE, Free(s.deqs[t].block);
    RemoveLive(s.live, k);
    var live', deqs' := s.live - {k}, s.deqs[t := l];
    forall b | 0 <= b < |s.blocks|
      ensures Places(s.poolSize, s.poolIndex, s.free, s.others, live', s.enq, deqs', b) == 1
    {
      SumUpdate(s.deqs, t, l, Carries(b));
      assert Places(s.poolSize, s.poolIndex, s.free, s.others, s.live, s.enq, s.deqs, b) == 1;
    }
  }

  /** A dequeuer that works on another block is not affected by a release. */
  lemma ReleaseKeepsDequeuer(s: State, t: nat, u: nat)
    requires Inv(s) && t < |s.deqs| && u < |s.deqs| && t != u && s.deqs[t].Clear?
    ensures var k := s.deqs[t].index / BLOCK_SIZE;
            && s.deqs[t].entry < |s.index.entries|
            && SetValue(s.index, s.deqs[t].entry, None).Shaped()
            && DequeuerOk(SetValue(s.index, s.deqs[t].entry, None), s.live - {k}, |s.blocks|, s.deqs[u])
  {
    hide ReservationInv, AllocationInv, DataInv, BlocksInv, ReadInv, IndexInv;
    assert DequeuerOk(s.index, s.live, |s.blocks|, s.deqs[t]);
    assert DequeuerOk(s.index, s.live, |s.blocks|, s.deqs[u]);
    var k, e := s.deqs[t].index / BLOCK_SIZE, s.deqs[t].entry;
    ReleaserIsLast(s, t);
    SumAtLeast(s.deqs, u, InBlock(k));
    SumAtLeastTwo(s.deqs, t, u, Releasing(k));
    KeepClearValue(s.index, s.live, e, k);
    KeepDequeuer(s.index, SetValue(s.index, e, None), s.live, s.live - {k}, |s.blocks|, |s.blocks|, s.deqs[u]);
  }

  /** Index steps that keep the keys of live blocks keep what dequeuers found so far. */
  lemma KeepDequeuer(ix: Index, ix': Index, live: map<int, nat>, live': map<int, nat>, count: nat, count': nat,
                     l: Dequeuer)
    requires ix.Shaped() && ix'.Shaped() && KeepsKeys(ix, ix', live)
    requires DequeuerOk(ix, live, count, l) && count <= count'
    requires HasIndex(l) || l.Count? || l.Clear? ==>
               var k := l.index / BLOCK_SIZE; k in live ==> k in live' && live'[k] == live[k]
    ensures DequeuerOk(ix', live', count', l)
  {
    match l {
      case IndexTailLoad(i, h) => LookupsStayValid(ix, ix', live, h, 0, i / BLOCK_SIZE);
      case KeyLoad(i, h, tl) => LookupsStayValid(ix, ix', live, h, tl, i / BLOCK_SIZE);
      case _ =>
    }
  }

  lemma KeepClearStep(s: State, t: nat)
    requires Inv(s) && t < |s.deqs| && s.deqs[t].Clear?
    ensures CanStep(s, s.deqs[t]) && Inv(AdvanceDequeuer(s, t))
  {
    hide BlocksInv, DataInv, AllocationInv, IndexInv, KeepsKeys;
    InvCanStep(s, t);
    assert DequeuerOk(s.index, s.live, |s.blocks|, s.deqs[t]);
    var k, e := s.deqs[t].index / BLOCK_SIZE, s.deqs[t].entry;
    ReleaserIsLast(s, t);
    ReleaseKeepsBlocks(s, t);
    MoveReading(s.head, s.head, s.taken, s.taken, s.log, s.deqs, t, Free(s.deqs[t].block));
    ReleaseKeepsData(s, t);
    ReleaseKeepsAllocation(s, t);
    KeepClearValue(s.index, s.live, e, k);
    forall u | 0 <= u < |s.deqs| && u != t
      ensures DequeuerOk(SetValue(s.index, e, None), s.live - {k}, |s.blocks|, s.deqs[u])
    {
      ReleaseKeepsDequeuer(s, t, u);
    }
    KeepReservations(s.tail, s.tail, s.head, s.head, s.optimistic, s.overcommit, s.overcommit, s.fates, s.deqs, t,
        Free(s.deqs[t].block));
    ReleaseKeepsEnqueuer(s, t);
  }

  /** The block the enqueuer fills is not full, so it is not the one released. */
  lemma ReleaseKeepsEnqueuer(s: State, t: nat)
    requires Inv(s) && t < |s.deqs| && s.deqs[t].Clear?
    ensures s.deqs[t].entry < |s.index.entries|
    ensures SetValue(s.index, s.deqs[t].entry, None).Shaped()
    ensures EnqueuerOk(s.enq, s.tail, SetValue(s.index, s.deqs[t].entry, None),
                       s.live - {s.deqs[t].index / BLOCK_SIZE}, s.tailBlock, s.blocks)
  {
    hide ReadInv, BlocksInv, DataInv, AllocationInv, IndexInv, ReservationInv, EnqueuerOk;
    assert DequeuerOk(s.index, s.live, |s.blocks|, s.deqs[t]);
    var k, e := s.deqs[t].index / BLOCK_SIZE, s.deqs[t].entry;
    ReleaserIsLast(s, t);
    ClaimsFit(s.tail, s.head, s.optimistic, s.overcommit, s.fates, s.deqs);
    assert k != s.tail / BLOCK_SIZE;
    KeepClearValue(s.index, s.live, e, k);
    ClearedForEnqueuer(s.enq, s.tail, s.index, s.live, s.tailBlock, s.blocks, e, k);
  }

  /** The enqueuer does not mind that an older block is cleared. */
  lemma ClearedForEnqueuer(enq: Enqueuer, tail: nat, ix: Index, live: map<int, nat>, tailBlock: Option<nat>,
                           blocks: seq<Block>, e: nat, k: int)
    requires ix.Shaped() && e < |ix.entries| && SetValue(ix, e, None).Shaped() && k != tail / BLOCK_SIZE
    requires EnqueuerOk(enq, tail, ix, live, tailBlock, blocks)
    ensures EnqueuerOk(enq, tail, SetValue(ix, e, None), live - {k}, tailBlock, blocks)
  {
    var ix' := SetValue(ix, e, None);
    assert ix'.Current() == ix.Current();
  }

  lemma FreeMoves(s: State, t: nat)
    requires Inv(s) && t < |s.deqs| && s.deqs[t].Free?
    ensures ReadInv(s.head, s.taken, s.log, s.deqs[t := Rest])
    ensures BlocksInv(s.head, s.blocks, s.live, s.deqs[t := Rest])
  {
    hide IndexInv, DataInv, AllocationInv, ReservationInv;
    MoveReading(s.head, s.head, s.taken, s.taken, s.log, s.deqs, t, Rest);
    forall k: int ensures SameCount(k, s.head, s.head, s.blocks, s.blocks, s.live, s.deqs[t], Rest) {
      assert BlockInv(k, s.head, s.blocks, s.live, s.deqs);
    }
    MoveInBlocks(s.head, s.head, s.blocks, s.blocks, s.live, s.deqs, t, Rest);
  }

  lemma KeepFreeStep(s: State, t: nat)
    requires Inv(s) && t < |s.deqs| && s.deqs[t].Free?
    ensures Inv(At(s, t, Rest).(free := s.free + {s.deqs[t].block}))
  {
    hide ReadInv, BlocksInv, DataInv, AllocationInv, IndexInv, ReservationInv;
    FreeMoves(s, t);
    FreeKeepsAllocation(s, t);
    KeepReservations(s.tail, s.tail, s.head, s.head, s.optimistic, s.overcommit, s.overcommit, s.fates, s.deqs, t,
        Rest);
  }

  lemma FreeKeepsAllocation(s: State, t: nat)
    requires Inv(s) && t < |s.deqs| && s.deqs[t].Free?
    ensures AllocationInv(s.poolSize, s.poolIndex, s.free + {s.deqs[t].block}, s.others, s.live, s.enq,
                          s.deqs[t := Rest], |s.blocks|)
  {
    hide IndexInv, ReservationInv, DataInv, BlocksInv, ReadInv;
    assert DequeuerOk(s.index, s.live, |s.blocks|, s.deqs[t]);
    var free', deqs' := s.free + {s.deqs[t].block}, s.deqs[t := Rest];
    forall b | 0 <= b < |s.blocks|
      ensures Places(s.poolSize, s.poolIndex, free', s.others, s.live, s.enq, deqs', b) == 1
    {
      SumUpdate(s.deqs, t, Rest, Carries(b));
      SumAtLeast(s.deqs, t, Carries(b));
      assert Places(s.poolSize, s.poolIndex, s.free, s.others, s.live, s.enq, s.deqs, b) == 1;
    }
  }

  // ---- Every step keeps the invariant: the enqueuer ----

  /** The allocation stays as it is while the enqueuer takes or gives no block. */
  lemma MoveEnqueuer(s: State, l: Enqueuer)
    requires AllocationInv(s.poolSize, s.poolIndex, s.free, s.others, s.live, s.enq, s.deqs, |s.blocks|)
    requires forall b: nat :: EnqueuerHas(l, b) == EnqueuerHas(s.enq, b)
    ensures AllocationInv(s.poolSize, s.poolIndex, s.free, s.others, s.live, l, s.deqs, |s.blocks|)
  {
    forall b | 0 <= b < |s.blocks|
      ensures Places(s.poolSize, s.poolIndex, s.free, s.others, s.live, l, s.deqs, b) == 1
    {
      assert Places(s.poolSize, s.poolIndex, s.free, s.others, s.live, s.enq, s.deqs, b) == 1;
    }
  }

  lemma KeepEnqueuerMove(s: State, l: Enqueuer)
    requires Inv(s) && EnqueuerOk(l, s.tail, s.index, s.live, s.tailBlock, s.blocks)
    requires forall b: nat :: EnqueuerHas(l, b) == EnqueuerHas(s.enq, b)
    requires LiveBelowTail(s.tail, s.live, l) && RoomInv(s.head, s.tail, l)
    ensures Inv(Go(s, l))
  {
    MoveEnqueuer(s, l);
    hide ReadInv, BlocksInv, DataInv, AllocationInv, IndexInv, ReservationInv, EnqueuerOk;
  }

  lemma KeepIndexStep(s: State, ix: Index, l: Enqueuer)
    requires Inv(s) && IndexInv(ix, s.live) && KeepsKeys(s.index, ix, s.live)
    requires EnqueuerOk(l, s.tail, ix, s.live, s.tailBlock, s.blocks)
    requires forall b: nat :: EnqueuerHas(l, b) == EnqueuerHas(s.enq, b)
    requires LiveBelowTail(s.tail, s.live, l) && RoomInv(s.head, s.tail, l)
    ensures Inv(s.(index := ix, enq := l))
  {
    MoveEnqueuer(s, l);
    hide ReadInv, BlocksInv, DataInv, AllocationInv, ReservationInv, EnqueuerOk;
    forall t | 0 <= t < |s.deqs| ensures DequeuerOk(ix, s.live, |s.blocks|, s.deqs[t]) {
      KeepDequeuer(s.index, ix, s.live, s.live, |s.blocks|, |s.blocks|, s.deqs[t]);
    }
    hide IndexInv, KeepsKeys;
  }

  lemma KeepHeadLoad(s: State)
    requires Inv(s) && s.enq.HeadLoad?
    ensures CanEnqueue(s) && Inv(AdvanceEnqueuer(s, None))
  {
    hide ReadInv, BlocksInv, DataInv, AllocationInv, IndexInv, ReservationInv;
    if HasRoom(s) {
      CircularIndex.RoomMeansInRange(CircularIndex.Indices(s.head, s.tail), BLOCK_SIZE, HALF);
      KeepEnqueuerMove(s, Insert(s.enq.x));
    } else {
      KeepEnqueuerMove(s, Idle);
    }
  }

  lemma KeepInsert(s: State)
    requires Inv(s) && s.enq.Insert?
    ensures CanEnqueue(s) && Inv(AdvanceEnqueuer(s, None))
  {
    hide ReadInv, BlocksInv, DataInv, AllocationInv, ReservationInv;
    var x := s.enq.x;
    hide IndexInv;
    if s.index.Reusable() {
      KeepEnqueuerMove(s, KeyStore(x, s.index.NextEntry()));
    } else {
      KeepEnqueuerMove(s, GrowIndex(x));
    }
  }

  lemma KeepGrowIndex(s: State)
    requires Inv(s) && s.enq.GrowIndex?
    ensures CanEnqueue(s) && Inv(AdvanceEnqueuer(s, None))
  {
    hide ReadInv, BlocksInv, DataInv, AllocationInv, ReservationInv;
    var x := s.enq.x;
    if s.index.CanGrow() && Grow(s.index).Shaped() {
      hide IndexInv, KeepsKeys;
      KeepGrow(s.index, s.live);
      KeepIndexStep(s, Grow(s.index), KeyStore(x, Grow(s.index).NextEntry()));
    } else {
      hide IndexInv;
      KeepEnqueuerMove(s, Idle);
    }
  }

  lemma KeepKeyStore(s: State)
    requires Inv(s) && s.enq.KeyStore?
    ensures CanEnqueue(s) && Inv(AdvanceEnqueuer(s, None))
  {
    hide ReadInv, BlocksInv, DataInv, AllocationInv, ReservationInv, KeepsKeys;
    assert s.index.first <= s.index.newest + 1;
    hide IndexInv;
    KeepWriteKey(s.index, s.live);
    KeepIndexStep(s, WriteKey(s.index), TailStore(s.enq.x, s.enq.entry));
  }

  lemma KeepTailStore(s: State)
    requires Inv(s) && s.enq.TailStore?
    ensures CanEnqueue(s) && Inv(AdvanceEnqueuer(s, None))
  {
    hide ReadInv, BlocksInv, DataInv, AllocationInv, ReservationInv, KeepsKeys, IndexInv;
    KeepMoveTail(s.index, s.live);
    KeepIndexStep(s, MoveTail(s.index), PoolTest(s.enq.x, s.enq.entry));
  }

  /** Handing block b from the allocator to the enqueuer. */
  lemma TakeBlock(s: State, poolIndex': nat, free': set<nat>, b: nat, l: Enqueuer)
    requires AllocationInv(s.poolSize, s.poolIndex, s.free, s.others, s.live, s.enq, s.deqs, |s.blocks|)
    requires b < |s.blocks| && l.Reset? && l.block == b && !s.enq.Reset? && !s.enq.ValueStore?
    requires free' <= s.free
    requires forall a: nat :: a < |s.blocks| ==>
               Bit(poolIndex' <= a < s.poolSize) + Bit(a in free') + Bit(a == b)
               == Bit(s.poolIndex <= a < s.poolSize) + Bit(a in s.free)
    ensures AllocationInv(s.poolSize, poolIndex', free', s.others, s.live, l, s.deqs, |s.blocks|)
  {
    forall a | 0 <= a < |s.blocks|
      ensures Places(s.poolSize, poolIndex', free', s.others, s.live, l, s.deqs, a) == 1
    {
      assert Places(s.poolSize, s.poolIndex, s.free, s.others, s.live, s.enq, s.deqs, a) == 1;
    }
  }

  lemma PoolTakeKeepsAllocation(s: State)
    requires AllocationInv(s.poolSize, s.poolIndex, s.free, s.others, s.live, s.enq, s.deqs, |s.blocks|)
    requires s.enq.PoolTake? && s.poolIndex < s.poolSize
    ensures AllocationInv(s.poolSize, s.poolIndex + 1, s.free, s.others, s.live,
                          Reset(s.enq.x, s.enq.entry, s.poolIndex), s.deqs, |s.blocks|)
  {
    assert Places(s.poolSize, s.poolIndex, s.free, s.others, s.live, s.enq, s.deqs, s.poolIndex) == 1;
    SumNonNegative(s.deqs, Carries(s.poolIndex));
    TakeBlock(s, s.poolIndex + 1, s.free, s.poolIndex, Reset(s.enq.x, s.enq.entry, s.poolIndex));
  }

  lemma KeepPoolTake(s: State)
    requires Inv(s) && s.enq.PoolTake?
    ensures CanEnqueue(s) && Inv(AdvanceEnqueuer(s, None))
  {
    hide ReadInv, BlocksInv, DataInv, IndexInv, ReservationInv;
    assert s.poolSize <= |s.blocks|;
    hide AllocationInv;
    if s.poolIndex < s.poolSize {
      PoolTakeKeepsAllocation(s);
    } else {
      MoveEnqueuer(s, FreeGet(s.enq.x, s.enq.entry));
      PoolExhausted(s, FreeGet(s.enq.x, s.enq.entry));
    }
  }

  lemma PoolExhausted(s: State, l: Enqueuer)
    requires AllocationInv(s.poolSize, s.poolIndex, s.free, s.others, s.live, l, s.deqs, |s.blocks|)
    requires s.poolIndex >= s.poolSize
    ensures AllocationInv(s.poolSize, s.poolIndex + 1, s.free, s.others, s.live, l, s.deqs, |s.blocks|)
  {
    var next := s.poolIndex + 1;
    forall b | 0 <= b < |s.blocks|
      ensures Places(s.poolSize, next, s.free, s.others, s.live, l, s.deqs, b) == 1
    {
      assert Places(s.poolSize, s.poolIndex, s.free, s.others, s.live, l, s.deqs, b) == 1;
    }
  }

  lemma TakeFreeBlock(s: State, b: nat)
    requires AllocationInv(s.poolSize, s.poolIndex, s.free, s.others, s.live, s.enq, s.deqs, |s.blocks|)
    requires s.enq.FreeGet? && b in s.free
    ensures b < |s.blocks|
    ensures AllocationInv(s.poolSize, s.poolIndex, s.free - {b}, s.others, s.live,
                          Reset(s.enq.x, s.enq.entry, b), s.deqs, |s.blocks|)
  {
    assert Places(s.poolSize, s.poolIndex, s.free, s.others, s.live, s.enq, s.deqs, b) == 1;
    TakeBlock(s, s.poolIndex, s.free - {b}, b, Reset(s.enq.x, s.enq.entry, b));
  }

  lemma KeepFreeGet(s: State, pick: Option<nat>)
    requires Inv(s) && s.enq.FreeGet?
    ensures CanEnqueue(s) && Inv(AdvanceEnqueuer(s, pick))
  {
    hide ReadInv, BlocksInv, DataInv, AllocationInv, IndexInv, ReservationInv;
    if pick.Some? && pick.value in s.free {
      TakeFreeBlock(s, pick.value);
    } else {
      KeepEnqueuerMove(s, Allocate(s.enq.x, s.enq.entry));
    }
  }

  /** A block that did not exist before is nowhere yet. */
  lemma FreshBlockIsNowhere(s: State, l: Enqueuer, others': set<nat>)
    requires Inv(s)
    requires (l == s.enq && others' == s.others + {|s.blocks|})
             || (others' == s.others && l.Reset? && l.block == |s.blocks| && s.enq.Allocate?)
    ensures AllocationInv(s.poolSize, s.poolIndex, s.free, others', s.live, l, s.deqs, |s.blocks| + 1)
  {
    hide ReadInv, DataInv, IndexInv, ReservationInv;
    var n := |s.blocks|;
    forall t | 0 <= t < |s.deqs| ensures Carries(n)(s.deqs[t]) == 0 {
      assert DequeuerOk(s.index, s.live, |s.blocks|, s.deqs[t]);
    }
    SumZero(s.deqs, Carries(n));
    assert !InLive(s.live, n) by {
      forall k | k in s.live ensures s.live[k] != n {
        assert BlockInv(k, s.head, s.blocks, s.live, s.deqs);
      }
    }
    forall b | 0 <= b < n + 1
      ensures Places(s.poolSize, s.poolIndex, s.free, others', s.live, l, s.deqs, b) == 1
    {
      if b < n {
        assert Places(s.poolSize, s.poolIndex, s.free, s.others, s.live, s.enq, s.deqs, b) == 1;
      }
    }
  }

  /** Adding a block changes nothing for the blocks in use. */
  lemma AppendBlock(s: State)
    requires Inv(s)
    ensures var blocks := s.blocks + [NewBlock()];
            && BlocksInv(s.head, blocks, s.live, s.deqs)
            && DataInv(blocks, s.live, s.taken, s.log)
            && (forall t :: 0 <= t < |s.deqs| ==> DequeuerOk(s.index, s.live, |blocks|, s.deqs[t]))
            && EnqueuerOk(s.enq, s.tail, s.index, s.live, s.tailBlock, blocks)
  {
    hide ReadInv, AllocationInv, IndexInv, ReservationInv;
    var blocks := s.blocks + [NewBlock()];
    forall k: int ensures BlockInv(k, s.head, blocks, s.live, s.deqs) {
      assert BlockInv(k, s.head, s.blocks, s.live, s.deqs);
    }
    forall t | 0 <= t < |s.deqs| ensures DequeuerOk(s.index, s.live, |blocks|, s.deqs[t]) {
      assert DequeuerOk(s.index, s.live, |s.blocks|, s.deqs[t]);
    }
  }

  lemma KeepAllocate(s: State)
    requires Inv(s) && s.enq.Allocate?
    ensures CanEnqueue(s) && Inv(AdvanceEnqueuer(s, None))
  {
    hide ReadInv, BlocksInv, DataInv, AllocationInv, IndexInv, ReservationInv;
    FreshBlockIsNowhere(s, Reset(s.enq.x, s.enq.entry, |s.blocks|), s.others);
    AppendBlock(s);
  }

  lemma ResetKeepsBlocks(s: State)
    requires Inv(s) && s.enq.Reset?
    ensures s.enq.block < |s.blocks|
    ensures var blocks := s.blocks[s.enq.block := s.blocks[s.enq.block].(dequeued := 0)];
            BlocksInv(s.head, blocks, s.live, s.deqs) && DataInv(blocks, s.live, s.taken, s.log)
  {
    hide ReadInv, IndexInv, ReservationInv;
    EnqueuersBlockIsNotLive(s, s.enq.block);
    hide AllocationInv;
    var blocks := s.blocks[s.enq.block := s.blocks[s.enq.block].(dequeued := 0)];
    forall k: int ensures BlockInv(k, s.head, blocks, s.live, s.deqs) {
      assert BlockInv(k, s.head, s.blocks, s.live, s.deqs);
    }
  }

  lemma KeepReset(s: State)
    requires Inv(s) && s.enq.Reset?
    ensures CanEnqueue(s) && Inv(AdvanceEnqueuer(s, None))
  {
    hide ReadInv, BlocksInv, DataInv, AllocationInv, IndexInv, ReservationInv;
    ResetKeepsBlocks(s);
    MoveEnqueuer(s, ValueStore(s.enq.x, s.enq.entry, s.enq.block));
  }

  /** The block being inserted is new: nothing of it was claimed, and no thread works on it. */
  lemma InsertedBlockIsNew(s: State)
    requires Inv(s) && s.enq.ValueStore?
    ensures s.tail / BLOCK_SIZE !in s.live && s.head <= s.tail == BLOCK_SIZE * (s.tail / BLOCK_SIZE)
    ensures Sum(s.deqs, InBlock(s.tail / BLOCK_SIZE)) == 0 && Sum(s.deqs, Releasing(s.tail / BLOCK_SIZE)) == 0
  {
    hide ReadInv, DataInv, AllocationInv, IndexInv;
    ClaimsFit(s.tail, s.head, s.optimistic, s.overcommit, s.fates, s.deqs);
    hide ReservationInv;
    assert BlockInv(s.tail / BLOCK_SIZE, s.head, s.blocks, s.live, s.deqs);
  }

  lemma InsertKeepsBlocks(s: State)
    requires Inv(s) && s.enq.ValueStore?
    ensures var live := s.live[s.tail / BLOCK_SIZE := s.enq.block];
            BlocksInv(s.head, s.blocks, live, s.deqs) && DataInv(s.blocks, live, s.taken, s.log)
  {
    hide ReadInv, AllocationInv, IndexInv, ReservationInv;
    InsertedBlockIsNew(s);
    var k0 := s.tail / BLOCK_SIZE;
    var live := s.live[k0 := s.enq.block];
    forall k: int ensures BlockInv(k, s.head, s.blocks, live, s.deqs) {
      assert BlockInv(k, s.head, s.blocks, s.live, s.deqs);
    }
  }

  lemma InsertKeepsAllocation(s: State)
    requires Inv(s) && s.enq.ValueStore?
    ensures AllocationInv(s.poolSize, s.poolIndex, s.free, s.others, s.live[s.tail / BLOCK_SIZE := s.enq.block],
                          Write(s.enq.x), s.deqs, |s.blocks|)
  {
    hide ReadInv, IndexInv, ReservationInv, BlocksInv, DataInv;
    InsertedBlockIsNew(s);
    EnqueuersBlockIsNotLive(s, s.enq.block);
    var k := s.tail / BLOCK_SIZE;
    var live := s.live[k := s.enq.block];
    forall b | 0 <= b < |s.blocks|
      ensures Places(s.poolSize, s.poolIndex, s.free, s.others, live, Write(s.enq.x), s.deqs, b) == 1
    {
      assert Places(s.poolSize, s.poolIndex, s.free, s.others, s.live, s.enq, s.deqs, b) == 1;
      assert InLive(live, b) <==> InLive(s.live, b) || b == s.enq.block by {
        assert k in live && live[k] == s.enq.block;
        if m :| m in s.live && s.live[m] == b {
          assert m in live && live[m] == b;
        }
      }
    }
  }

  lemma KeepValueStore(s: State)
    requires Inv(s) && s.enq.ValueStore?
    ensures CanEnqueue(s) && Inv(AdvanceEnqueuer(s, None))
  {
    hide ReadInv, BlocksInv, DataInv, AllocationInv, IndexInv, ReservationInv;
    InsertedBlockIsNew(s);
    InsertKeepsBlocks(s);
    InsertKeepsAllocation(s);
    KeepInsertValue(s.index, s.live, s.enq.entry, s.enq.block);
    var ix := SetValue(s.index, s.enq.entry, Some(s.enq.block));
    var live := s.live[s.tail / BLOCK_SIZE := s.enq.block];
    IndexInvShaped(ix, live);
    forall t | 0 <= t < |s.deqs| ensures DequeuerOk(ix, live, |s.blocks|, s.deqs[t]) {
      KeepDequeuer(s.index, ix, s.live, live, |s.blocks|, |s.blocks|, s.deqs[t]);
    }
    hide KeepsKeys;
  }

  lemma IndexInvShaped(ix: Index, live: map<int, nat>)
    requires IndexInv(ix, live)
    ensures ix.Shaped()
  {
  }

  lemma WriteKeepsData(s: State)
    requires Inv(s) && s.enq.Write?
    ensures s.tailBlock.Some? && s.tailBlock.value < |s.blocks| && |s.blocks[s.tailBlock.value].slots| == BLOCK_SIZE
    ensures var blocks := SetSlot(s, s.tailBlock.value, s.tail, Some(s.enq.x)).blocks;
            DataInv(blocks, s.live, s.taken, s.log) && BlocksInv(s.head, blocks, s.live, s.deqs)
  {
    hide ReadInv, IndexInv, ReservationInv;
    var blocks := SetSlot(s, s.tailBlock.value, s.tail, Some(s.enq.x)).blocks;
    forall i | 0 <= i < |s.log| && i !in s.taken
      ensures blocks[s.live[i / BLOCK_SIZE]].slots[i % BLOCK_SIZE] == Some(s.log[i])
    {
      SlotsApart(s.live, i, s.tail);
    }
    hide AllocationInv;
    forall k: int ensures BlockInv(k, s.head, blocks, s.live, s.deqs) {
      assert BlockInv(k, s.head, s.blocks, s.live, s.deqs);
    }
  }

  lemma KeepWrite(s: State)
    requires Inv(s) && s.enq.Write?
    ensures CanEnqueue(s) && Inv(AdvanceEnqueuer(s, None))
  {
    WriteKeepsData(s);
    hide ReadInv, BlocksInv, DataInv, AllocationInv, IndexInv, ReservationInv;
    MoveEnqueuer(s, Publish(s.enq.x));
  }

  lemma TailGrows(tail: nat, head: nat, optimistic: nat, overcommit: nat, fates: seq<Fate>, deqs: seq<Dequeuer>)
    requires ReservationInv(tail, head, optimistic, overcommit, fates, deqs)
    ensures ReservationInv(tail + 1, head, optimistic, overcommit, fates, deqs)
  {
  }

  lemma PublishKeepsData(s: State)
    requires Inv(s) && s.enq.Publish?
    ensures var log := s.log + [s.enq.x];
            ReadInv(s.head, s.taken, log, s.deqs) && DataInv(s.blocks, s.live, s.taken, log)
  {
    hide IndexInv, ReservationInv, AllocationInv, BlocksInv;
    LogGrows(s.head, s.taken, s.log, s.deqs, s.enq.x);
    hide ReadInv, DataInv;
    PublishedData(s.blocks, s.live, s.taken, s.log, s.enq.x);
  }

  lemma LogGrows(head: nat, taken: map<int, Element>, log: seq<Element>, deqs: seq<Dequeuer>, x: Element)
    requires ReadInv(head, taken, log, deqs)
    ensures ReadInv(head, taken, log + [x], deqs)
  {
    hide Sum;
  }

  lemma PublishedData(blocks: seq<Block>, live: map<int, nat>, taken: map<int, Element>, log: seq<Element>, x: Element)
    requires DataInv(blocks, live, taken, log)
    requires |log| / BLOCK_SIZE in live && live[|log| / BLOCK_SIZE] < |blocks|
    requires blocks[live[|log| / BLOCK_SIZE]].slots[|log| % BLOCK_SIZE] == Some(x)
    ensures DataInv(blocks, live, taken, log + [x])
  {
  }

  lemma KeepPublish(s: State)
    requires Inv(s) && s.enq.Publish?
    ensures CanEnqueue(s) && Inv(AdvanceEnqueuer(s, None))
  {
    hide ReadInv, BlocksInv, DataInv, AllocationInv, IndexInv, ReservationInv;
    PublishKeepsData(s);
    TailGrows(s.tail, s.head, s.optimistic, s.overcommit, s.fates, s.deqs);
    MoveEnqueuer(s, Idle);
    CircularIndex.NextInBlock(s.tail, BLOCK_SIZE);
  }

  // ---- Every step keeps the invariant: the other sub-queues ----

  /** Moving a block between the other sub-queues, the pool and the free list. */
  lemma OthersMove(s: State, poolIndex': nat, free': set<nat>, others': set<nat>)
    requires AllocationInv(s.poolSize, s.poolIndex, s.free, s.others, s.live, s.enq, s.deqs, |s.blocks|)
    requires forall b :: b in free' || b in others' ==> b < |s.blocks|
    requires forall b: nat :: b < |s.blocks| ==>
               Bit(poolIndex' <= b < s.poolSize) + Bit(b in free') + Bit(b in others')
               == Bit(s.poolIndex <= b < s.poolSize) + Bit(b in s.free) + Bit(b in s.others)
    ensures AllocationInv(s.poolSize, poolIndex', free', others', s.live, s.enq, s.deqs, |s.blocks|)
  {
    forall b | 0 <= b < |s.blocks|
      ensures Places(s.poolSize, poolIndex', free', others', s.live, s.enq, s.deqs, b) == 1
    {
      assert Places(s.poolSize, s.poolIndex, s.free, s.others, s.live, s.enq, s.deqs, b) == 1;
    }
  }

  /** A block is never in two places. */
  lemma OnePlace(s: State, b: nat)
    requires AllocationInv(s.poolSize, s.poolIndex, s.free, s.others, s.live, s.enq, s.deqs, |s.blocks|)
        && b < |s.blocks|
    ensures Bit(s.poolIndex <= b < s.poolSize) + Bit(b in s.free) + Bit(b in s.others) <= 1
  {
    assert Places(s.poolSize, s.poolIndex, s.free, s.others, s.live, s.enq, s.deqs, b) == 1;
    SumNonNegative(s.deqs, Carries(b));
  }

  /** What Next asks for holds in every state that satisfies the invariant. */
  lemma InvCanNext(s: State, e: Event)
    requires Inv(s)
    ensures CanNext(s, e)
  {
    hide ReadInv, BlocksInv, AllocationInv, ReservationInv;
    if e.StepDequeuer? && e.t < |s.deqs| {
      InvCanStep(s, e.t);
    }
  }

  lemma KeepOthers(s: State, e: Event)
    requires Inv(s) && (e.OtherFromPool? || e.OtherFromFree? || e.OtherFrees?)
    ensures Inv(Apply(s, e))
  {
    hide ReadInv, BlocksInv, DataInv, IndexInv, ReservationInv, EnqueuerOk, AllocationInv;
    OthersKeepAllocation(s, e);
  }

  lemma OthersKeepAllocation(s: State, e: Event)
    requires AllocationInv(s.poolSize, s.poolIndex, s.free, s.others, s.live, s.enq, s.deqs, |s.blocks|)
    requires e.OtherFromPool? || e.OtherFromFree? || e.OtherFrees?
    ensures var s' := Apply(s, e);
            AllocationInv(s.poolSize, s'.poolIndex, s'.free, s'.others, s.live, s.enq, s.deqs, |s.blocks|)
  {
    if e.OtherFromPool? {
      if s.poolIndex < s.poolSize {
        OnePlace(s, s.poolIndex);
        OthersMove(s, s.poolIndex + 1, s.free, s.others + {s.poolIndex});
      } else {
        PoolExhausted(s, s.enq);
      }
    } else {
      FreeListMoves(s, e);
    }
  }

  lemma FreeListMoves(s: State, e: Event)
    requires AllocationInv(s.poolSize, s.poolIndex, s.free, s.others, s.live, s.enq, s.deqs, |s.blocks|)
    requires e.OtherFromFree? || e.OtherFrees?
    ensures var s' := Apply(s, e);
            AllocationInv(s.poolSize, s'.poolIndex, s'.free, s'.others, s.live, s.enq, s.deqs, |s.blocks|)
  {
    hide Places, Sum;
    if e.OtherFromFree? && e.block in s.free {
      OnePlace(s, e.block);
      OthersMove(s, s.poolIndex, s.free - {e.block}, s.others + {e.block});
    } else if e.OtherFrees? && e.block in s.others {
      OnePlace(s, e.block);
      OthersMove(s, s.poolIndex, s.free + {e.block}, s.others - {e.block});
    }
  }

  lemma KeepOtherAllocates(s: State)
    requires Inv(s)
    ensures Inv(Apply(s, OtherAllocates))
  {
    hide ReadInv, BlocksInv, DataInv, IndexInv, ReservationInv, EnqueuerOk, AllocationInv;
    FreshBlockIsNowhere(s, s.enq, s.others + {|s.blocks|});
    AppendBlock(s);
  }

  lemma KeepEnqueuer(s: State, pick: Option<nat>)
    requires Inv(s)
    ensures CanEnqueue(s) && Inv(AdvanceEnqueuer(s, pick))
  {
    InvCanNext(s, StepEnqueuer(pick));
    hide Inv;
    match s.enq {
      case Idle =>
      case HeadLoad(_) => KeepHeadLoad(s);
      case Insert(_) => KeepInsert(s);
      case GrowIndex(_) => KeepGrowIndex(s);
      case KeyStore(_, _) => KeepKeyStore(s);
      case TailStore(_, _) => KeepTailStore(s);
      case PoolTest(_, _) => KeepPoolTest(s);
      case PoolTake(_, _) => KeepPoolTake(s);
      case FreeGet(_, _) => KeepFreeGet(s, pick);
      case Allocate(_, _) => KeepAllocate(s);
      case Reset(_, _, _) => KeepReset(s);
      case ValueStore(_, _, _) => KeepValueStore(s);
      case Write(_) => KeepWrite(s);
      case Publish(_) => KeepPublish(s);
    }
  }

  lemma KeepPoolTest(s: State)
    requires Inv(s) && s.enq.PoolTest?
    ensures CanEnqueue(s) && Inv(AdvanceEnqueuer(s, None))
  {
    hide ReadInv, BlocksInv, DataInv, IndexInv, ReservationInv, AllocationInv;
    if s.poolIndex >= s.poolSize {
      KeepEnqueuerMove(s, FreeGet(s.enq.x, s.enq.entry));
    } else {
      KeepEnqueuerMove(s, PoolTake(s.enq.x, s.enq.entry));
    }
  }

  predicate LooksUp(l: Dequeuer) {
    l.TailLoad? || l.OverLoad? || l.OptimisticLoad? || l.HeaderLoad? || l.IndexTailLoad? || l.KeyLoad? || l.ValueLoad?
  }

  /** The accesses of a lookup find what the next one needs. */
  lemma LookupGoesOn(s: State, t: nat)
    requires Inv(s) && t < |s.deqs| && LooksUp(s.deqs[t]) && CanStep(s, s.deqs[t])
    ensures DequeuerOk(s.index, s.live, |s.blocks|, AdvanceDequeuer(s, t).deqs[t])
  {
    hide ReadInv, BlocksInv, DataInv, AllocationInv, EnqueuerOk, IndexInv, ReservationInv;
    assert DequeuerOk(s.index, s.live, |s.blocks|, s.deqs[t]);
    match s.deqs[t] {
      case HeaderLoad(i) => CurrentCoversLive(s.index, s.live, i / BLOCK_SIZE);
      case IndexTailLoad(i, h) => AnyTailUsable(s.index, s.live, h, i / BLOCK_SIZE);
      case KeyLoad(i, h, tl) => FindIsExact(s.index, s.live, h, tl, i / BLOCK_SIZE);
      case ValueLoad(i, e) => ValueIsBlock(s.index, s.live, i / BLOCK_SIZE, e);
      case _ =>
    }
  }

  lemma ValueIsBlock(ix: Index, live: map<int, nat>, k: int, e: nat)
    requires IndexInv(ix, live) && k in live && EntryHasKey(ix, e, k)
    ensures ix.entries[e].value == Some(live[k])
  {
  }

  /** Lookups and first tests of a dequeuer. */
  lemma KeepLookup(s: State, t: nat)
    requires Inv(s) && t < |s.deqs| && LooksUp(s.deqs[t])
    ensures CanStep(s, s.deqs[t]) && Inv(AdvanceDequeuer(s, t))
  {
    hide ReadInv, BlocksInv, DataInv, AllocationInv, EnqueuerOk, IndexInv;
    InvCanStep(s, t);
    LookupGoesOn(s, t);
    if s.deqs[t].OverLoad? {
      SumNonNegative(s.deqs, AtGiveUp);
    }
    assert ReservationOk(s.fates, s.deqs[t]);
    KeepMove(s, t, AdvanceDequeuer(s, t).deqs[t]);
  }

  /** The forms in which the lemmas about single steps write them. */
  lemma StepForms(s: State, t: nat)
    requires t < |s.deqs| && CanStep(s, s.deqs[t])
    ensures Next(s, StepDequeuer(t)) == AdvanceDequeuer(s, t)
    ensures s.deqs[t].Rest? ==> AdvanceDequeuer(s, t) == s
    ensures s.deqs[t].Free? ==> AdvanceDequeuer(s, t) == At(s, t, Rest).(free := s.free + {s.deqs[t].block})
  {
  }

  lemma KeepDequeuerStep(s: State, t: nat)
    requires Inv(s) && t < |s.deqs|
    ensures CanStep(s, s.deqs[t]) && Inv(AdvanceDequeuer(s, t))
  {
    InvCanStep(s, t);
    StepForms(s, t);
    hide Inv, AdvanceDequeuer, CanStep, Next, CanNext;
    match s.deqs[t] {
      case Rest =>
      case Reserve(_) => KeepReserveStep(s, t);
      case Check(_, _) => KeepCheckStep(s, t);
      case Claim => KeepClaimStep(s, t);
      case GiveUp => KeepGiveUpStep(s, t);
      case Read(_, _, _) => KeepReadStep(s, t);
      case Count(_, _, _) => KeepCountStep(s, t);
      case Clear(_, _, _) => KeepClearStep(s, t);
      case Free(_) => KeepFreeStep(s, t);
      case _ => KeepLookup(s, t);
    }
  }

  lemma KeepCalls(s: State, e: Event)
    requires Inv(s) && (e.CallEnqueue? || e.CallDequeue?)
    ensures Inv(Apply(s, e))
  {
    hide ReadInv, BlocksInv, DataInv, AllocationInv, IndexInv, ReservationInv;
    match e {
      case CallEnqueue(x) =>
        if s.enq.Idle? {
          KeepEnqueuerMove(s, if s.tail % BLOCK_SIZE == 0 then HeadLoad(x) else Write(x));
        }
      case CallDequeue(t) =>
        if t < |s.deqs| && s.deqs[t].Rest? {
          KeepMove(s, t, TailLoad);
        }
    }
  }

  lemma NextKeeps(s: State, e: Event)
    requires Inv(s)
    ensures CanNext(s, e) && Inv(Next(s, e))
  {
    InvCanNext(s, e);
    hide Inv;
    match e {
      case StepEnqueuer(pick) => KeepEnqueuer(s, pick);
      case StepDequeuer(t) =>
        if t < |s.deqs| {
          KeepDequeuerStep(s, t);
        }
      case CallEnqueue(_) => KeepCalls(s, e);
      case CallDequeue(_) => KeepCalls(s, e);
      case OtherAllocates => KeepOtherAllocates(s);
      case _ => KeepOthers(s, e);
    }
  }

  // ---- Every run ----

  /** The state after a run: any number of dequeuers, any size of the initial block pool. */
  function Exec(dequeuers: nat, pool: nat, run: seq<Event>): State {
    if run == [] then Start(dequeuers, pool)
    else Next(Exec(dequeuers, pool, run[..|run| - 1]), run[|run| - 1])
  }

  lemma StartInv(dequeuers: nat, pool: nat)
    ensures Inv(Start(dequeuers, pool))
  {
    var s := Start(dequeuers, pool);
    EmptyInv();
    hide IndexInv;
    forall k: int ensures BlockInv(k, s.head, s.blocks, s.live, s.deqs) {
      SumZero(s.deqs, InBlock(k));
      SumZero(s.deqs, Releasing(k));
    }
    forall i: int ensures Sum(s.deqs, Reading(i)) + Bit(i in s.taken) == Bit(0 <= i < s.head) {
      SumZero(s.deqs, Reading(i));
    }
    forall b | 0 <= b < |s.blocks|
      ensures Places(s.poolSize, s.poolIndex, s.free, s.others, s.live, s.enq, s.deqs, b) == 1
    {
      SumZero(s.deqs, Carries(b));
    }
    SumZero(s.deqs, AtCheck);
    SumZero(s.deqs, AtClaim);
    SumZero(s.deqs, AtGiveUp);
    assert 0 % BLOCK_SIZE == 0;
  }

  lemma {:induction false} EveryRunKeepsTheInvariant(dequeuers: nat, pool: nat, run: seq<Event>)
    ensures Inv(Exec(dequeuers, pool, run))
  {
    if run == [] {
      StartInv(dequeuers, pool);
    } else {
      EveryRunKeepsTheInvariant(dequeuers, pool, run[..|run| - 1]);
      NextKeeps(Exec(dequeuers, pool, run[..|run| - 1]), run[|run| - 1]);
    }
  }

  /** Every access of every thread in every run is defined: no stale entry, no missing block, no
      empty slot is ever used. */
  lemma NoAccessIsUndefined(dequeuers: nat, pool: nat, run: seq<Event>, e: Event)
    ensures CanNext(Exec(dequeuers, pool, run), e)
  {
    EveryRunKeepsTheInvariant(dequeuers, pool, run);
    NextKeeps(Exec(dequeuers, pool, run), e);
  }

  /** Claimed indices plus decided but unclaimed dequeues never exceed the tail, and the distance
      of tail and head stays in the range in which comparing their words compares them. */
  lemma ClaimsNeverPassTheTail(dequeuers: nat, pool: nat, run: seq<Event>)
    ensures var s := Exec(dequeuers, pool, run);
            s.head + Sum(s.deqs, AtClaim) <= s.tail && s.tail - s.head < HALF && Sum(s.deqs, AtClaim) >= 0
  {
    EveryRunKeepsTheInvariant(dequeuers, pool, run);
    var s := Exec(dequeuers, pool, run);
    ClaimsFit(s.tail, s.head, s.optimistic, s.overcommit, s.fates, s.deqs);
  }

  predicate NobodyReserving(s: State) {
    forall u :: 0 <= u < |s.deqs| ==> !s.deqs[u].Check? && !s.deqs[u].Claim? && !s.deqs[u].GiveUp?
  }

  /** When no dequeuer is between its reservation and its claim, the two reservation counters give
      the head. */
  lemma QuietReservations(dequeuers: nat, pool: nat, run: seq<Event>)
    requires NobodyReserving(Exec(dequeuers, pool, run))
    ensures var s := Exec(dequeuers, pool, run); s.optimistic - s.overcommit == s.head
  {
    EveryRunKeepsTheInvariant(dequeuers, pool, run);
    QuietCounters(Exec(dequeuers, pool, run));
  }

  lemma QuietCounters(s: State)
    requires Inv(s) && NobodyReserving(s)
    ensures s.optimistic - s.overcommit == s.head
  {
    FatesAddUp(s.fates);
    SumZero(s.deqs, AtCheck);
    SumZero(s.deqs, AtClaim);
    SumZero(s.deqs, AtGiveUp);
  }

  /** Dequeuer t alone makes n accesses. */
  function Solo(s: State, t: nat, n: nat): State {
    if n == 0 then s else Next(Solo(s, t, n - 1), StepDequeuer(t))
  }

  lemma {:induction false} SoloKeeps(s: State, t: nat, n: nat)
    requires Inv(s)
    ensures Inv(Solo(s, t, n))
  {
    hide Inv, Next;
    if n > 0 {
      SoloKeeps(s, t, n - 1);
      NextKeeps(Solo(s, t, n - 1), StepDequeuer(t));
    }
  }

  lemma SoloStep(s: State, t: nat, n: nat)
    requires Inv(s) && t < |s.deqs| && |Solo(s, t, n).deqs| == |s.deqs|
    ensures CanStep(Solo(s, t, n), Solo(s, t, n).deqs[t])
    ensures Solo(s, t, n + 1) == AdvanceDequeuer(Solo(s, t, n), t)
  {
    hide Inv, AdvanceDequeuer, AdvanceEnqueuer, CanStep;
    SoloKeeps(s, t, n);
    InvCanStep(Solo(s, t, n), t);
    InvCanNext(Solo(s, t, n), StepDequeuer(t));
  }

  /** The first three accesses of an undisturbed dequeue. */
  lemma SoloTests(s: State, t: nat)
    requires Inv(s) && NobodyReserving(s) && t < |s.deqs| && s.deqs[t].TailLoad?
    ensures Solo(s, t, 3) == At(s, t, if s.head < s.tail then Reserve(s.overcommit) else Rest)
  {
    QuietCounters(s);
    hide Inv;
    assert Solo(s, t, 0) == s;
    SoloStep(s, t, 0);
    SoloStep(s, t, 1);
    SoloStep(s, t, 2);
  }

  lemma SoloClaims(s: State, t: nat)
    requires Inv(s) && NobodyReserving(s) && t < |s.deqs| && s.deqs[t].TailLoad? && s.head < s.tail
    ensures Solo(s, t, 6).deqs == s.deqs[t := HeaderLoad(s.head)] && Solo(s, t, 6).log == s.log
  {
    SoloTests(s, t);
    QuietCounters(s);
    hide Inv;
    SoloStep(s, t, 3);
    SoloStep(s, t, 4);
    SoloStep(s, t, 5);
  }

  /** An undisturbed dequeue succeeds exactly when the sub-queue is not empty, and then it reads
      the oldest element that was not claimed yet. Dequeuers that already have their index, and an
      enqueuer at any point, may be halfway. */
  lemma UndisturbedDequeue(dequeuers: nat, pool: nat, run: seq<Event>, t: nat)
    requires NobodyReserving(Exec(dequeuers, pool, run))
    requires t < |Exec(dequeuers, pool, run).deqs| && Exec(dequeuers, pool, run).deqs[t].TailLoad?
    ensures var s := Exec(dequeuers, pool, run);
            if s.head < s.tail then
              var s' := Solo(s, t, 11);
              && s.head !in s.taken && s.head < |s.log|
              && s.head in s'.taken && s'.taken[s.head] == s.log[s.head] && t < |s'.deqs| && s'.deqs[t].Count?
            else
              var s' := Solo(s, t, 3); t < |s'.deqs| && s'.deqs[t].Rest? && s'.taken == s.taken
  {
    EveryRunKeepsTheInvariant(dequeuers, pool, run);
    var s := Exec(dequeuers, pool, run);
    SoloTests(s, t);
    if s.head < s.tail {
      SoloReads(s, t);
    }
  }

  lemma SoloNext(s: State, t: nat, n: nat)
    ensures Solo(s, t, n + 1) == Next(Solo(s, t, n), StepDequeuer(t))
  {
  }

  lemma {:induction false} SoloAdds(s: State, t: nat, m: nat, n: nat)
    ensures Solo(Solo(s, t, m), t, n) == Solo(s, t, m + n)
  {
    hide Next;
    if n > 0 {
      SoloAdds(s, t, m, n - 1);
    }
  }

  /** With its index claimed, a dequeuer needs four accesses to find the slot. */
  lemma SoloFinds(s: State, t: nat)
    requires Inv(s) && t < |s.deqs| && s.deqs[t].HeaderLoad?
    ensures var s' := Solo(s, t, 4);
            t < |s'.deqs| && s'.deqs[t].Read? && s'.deqs[t].index == s.deqs[t].index && s'.log == s.log
  {
    hide Inv, Next;
    assert Solo(s, t, 0) == s;
    hide Solo;
    SoloStep(s, t, 0);
    SoloStep(s, t, 1);
    SoloStep(s, t, 2);
    SoloStep(s, t, 3);
  }

  /** The access after that reads the element. */
  lemma ReadStep(s: State, t: nat)
    requires Inv(s) && t < |s.deqs| && s.deqs[t].Read?
    ensures var i, s' := s.deqs[t].index, Next(s, StepDequeuer(t));
            i < |s.log| && i in s'.taken && s'.taken[i] == s.log[i] && t < |s'.deqs| && s'.deqs[t].Count?
  {
    InvCanStep(s, t);
    ReadIsRight(s, t);
    hide Inv;
  }

  lemma HeadIsUnread(s: State)
    requires Inv(s)
    ensures s.head !in s.taken && |s.log| == s.tail
  {
    hide IndexInv, ReservationInv, AllocationInv, BlocksInv, DataInv;
    SumNonNegative(s.deqs, Reading(s.head));
    assert Sum(s.deqs, Reading(s.head)) + Bit(s.head in s.taken) == Bit(0 <= s.head < s.head);
  }

  lemma SoloReads(s: State, t: nat)
    requires Inv(s) && NobodyReserving(s) && t < |s.deqs| && s.deqs[t].TailLoad? && s.head < s.tail
    ensures var s' := Solo(s, t, 11);
            && s.head !in s.taken && s.head < |s.log|
            && s.head in s'.taken && s'.taken[s.head] == s.log[s.head] && t < |s'.deqs| && s'.deqs[t].Count?
  {
    hide Inv, Solo, Next, AdvanceDequeuer;
    HeadIsUnread(s);
    SoloClaims(s, t);
    SoloKeeps(s, t, 6);
    SoloFinds(Solo(s, t, 6), t);
    SoloAdds(s, t, 6, 4);
    SoloKeeps(s, t, 10);
    ReadStep(Solo(s, t, 10), t);
    SoloNext(s, t, 10);
  }

  // ---- Dequeues that race with each other ----

  /** 1 when the dequeue has neither claimed an index nor failed yet. */
  function Seeking(l: Dequeuer): int {
    Bit(l.TailLoad? || l.OverLoad? || l.OptimisticLoad? || l.Reserve? || l.Check? || l.Claim?)
  }

  /** Every dequeue either has its index already or is over. */
  predicate Settled(s: State) {
    forall u :: 0 <= u < |s.deqs| ==> Seeking(s.deqs[u]) == 0 && !s.deqs[u].GiveUp?
  }

  predicate StartsDequeue(s: State, e: Event) {
    e.CallDequeue? && e.t < |s.deqs| && s.deqs[e.t].Rest?
  }

  /** The step in which a dequeue finds the sub-queue empty: before its reservation or after it. */
  predicate FailsDequeue(s: State, e: Event) {
    && e.StepDequeuer? && e.t < |s.deqs| && e.t < |Next(s, e).deqs|
    && ((s.deqs[e.t].OptimisticLoad? && Next(s, e).deqs[e.t].Rest?)
        || (s.deqs[e.t].Check? && Next(s, e).deqs[e.t].GiveUp?))
  }

  ghost function Calls(dequeuers: nat, pool: nat, run: seq<Event>, more: seq<Event>): nat {
    if more == [] then 0
    else
      Calls(dequeuers, pool, run, more[..|more| - 1])
      + Bit(StartsDequeue(Exec(dequeuers, pool, run + more[..|more| - 1]), more[|more| - 1]))
  }

  ghost function Failures(dequeuers: nat, pool: nat, run: seq<Event>, more: seq<Event>): nat {
    if more == [] then 0
    else
      Failures(dequeuers, pool, run, more[..|more| - 1])
      + Bit(FailsDequeue(Exec(dequeuers, pool, run + more[..|more| - 1]), more[|more| - 1]))
  }

  /** What a dequeue that began after state s0 has loaded. */
  predicate LoadedSince(s0: State, l: Dequeuer) {
    match l
    case OverLoad(tail) => s0.tail <= tail
    case OptimisticLoad(tail, over) => s0.tail <= tail && s0.overcommit <= over
    case Reserve(over) => s0.overcommit <= over
    case Check(over, mine) => s0.overcommit <= over && s0.optimistic <= mine
    case _ => true
  }

  /** The reservations made since the settled state s0: as many as there were unclaimed elements in s0
      do not fail, and a dequeue fails only after that many were made. */
  ghost predicate Since(s0: State, s: State, failures: nat) {
    && s0.tail <= s.tail && s0.overcommit <= s.overcommit && s0.optimistic <= |s.fates|
    && (forall t :: 0 <= t < |s.deqs| ==> LoadedSince(s0, s.deqs[t]))
    && (forall i :: 0 <= i < s0.optimistic && i < |s0.fates| ==> s.fates[i] == s0.fates[i])
    && (forall i :: s0.optimistic <= i < |s.fates| && i < s0.overcommit + s0.tail ==> !s.fates[i].Failed?)
    && (failures > 0 ==> s0.overcommit + s0.tail <= |s.fates|)
  }

  /** The steps that load, reserve and decide: what they do to the counters and the fates. */
  ghost predicate Reserves(s: State, s': State, t: nat)
    requires t < |s.deqs|
  {
    var l := s.deqs[t];
    && |s'.deqs| == |s.deqs| && s'.deqs == s.deqs[t := s'.deqs[t]]
    && s'.tail == s.tail && s'.head == s.head && s'.overcommit == s.overcommit
    && (l.TailLoad? ==> s'.deqs[t] == OverLoad(s.tail))
    && (l.OverLoad? ==> s'.deqs[t] == OptimisticLoad(l.tail, s.overcommit))
    && (l.OptimisticLoad? ==>
          s'.deqs[t] == Reserve(l.over) || (s'.deqs[t].Rest? && l.tail + l.over <= s.optimistic))
    && (l.Reserve? ==> s'.deqs[t] == Check(l.over, s.optimistic) && s'.fates == s.fates + [Pending])
    && (l.Check? ==>
          && l.mine < |s.fates|
          && ((s'.deqs[t].Claim? && s'.fates == s.fates[l.mine := Passed])
              || (s'.deqs[t].GiveUp? && s'.fates == s.fates[l.mine := Failed] && s.tail + l.over <= l.mine)))
    && (!l.Reserve? && !l.Check? ==> s'.fates == s.fates)
  }

  predicate Deciding(l: Dequeuer) {
    l.TailLoad? || l.OverLoad? || l.OptimisticLoad? || l.Reserve? || l.Check?
  }

  lemma DecidingStep(s: State, t: nat)
    requires t < |s.deqs| && CanStep(s, s.deqs[t]) && Deciding(s.deqs[t])
    ensures Reserves(s, AdvanceDequeuer(s, t), t)
  {
  }

  /** The other steps leave the fates alone; the claim moves the head. */
  lemma DecidedStep(s: State, t: nat)
    requires t < |s.deqs| && CanStep(s, s.deqs[t]) && !Deciding(s.deqs[t])
    ensures var l, s' := s.deqs[t], AdvanceDequeuer(s, t);
            && |s'.deqs| == |s.deqs| && s'.deqs == s.deqs[t := s'.deqs[t]]
            && s'.tail == s.tail && s'.fates == s.fates && s.overcommit <= s'.overcommit
            && s'.head == s.head + Bit(l.Claim?) && Seeking(s'.deqs[t]) == 0
  {
  }

  /** The other events: what they do to the counters and the fates. */
  lemma OtherFrame(s: State, e: Event)
    requires !e.StepDequeuer? && CanNext(s, e)
    ensures var s' := Next(s, e);
            && s'.head == s.head && s.tail <= s'.tail && s'.overcommit == s.overcommit && s'.fates == s.fates
            && s'.deqs == if StartsDequeue(s, e) then s.deqs[e.t := TailLoad] else s.deqs
  {
    if e.StepEnqueuer? {
      EnqueuerFrame(s, e.pick);
      hide AdvanceEnqueuer, CanEnqueue;
    }
  }

  lemma EnqueuerFrame(s: State, pick: Option<nat>)
    requires CanEnqueue(s)
    ensures var s' := AdvanceEnqueuer(s, pick);
            && s'.head == s.head && s.tail <= s'.tail && s'.overcommit == s.overcommit && s'.fates == s.fates
            && s'.deqs == s.deqs
  {
    hide HasRoom, WriteKey, MoveTail, SetValue, NewBlock, PublishIndex;
    if s.enq.GrowIndex? {
      PublishIndexFrame(s, s.enq.x);
    }
  }

  lemma PublishIndexFrame(s: State, x: Element)
    requires s.index.Shaped()
    ensures var s' := PublishIndex(s, x);
            s'.head == s.head && s'.tail == s.tail && s'.overcommit == s.overcommit && s'.fates == s.fates
            && s'.deqs == s.deqs
  {
    hide Grow;
  }

  lemma SinceNext(s0: State, s: State, failures: nat, e: Event)
    requires Inv(s) && Since(s0, s, failures)
    ensures CanNext(s, e) && Since(s0, Next(s, e), failures + Bit(FailsDequeue(s, e)))
  {
    hide AdvanceDequeuer, AdvanceEnqueuer, CanEnqueue, CanStep;
    InvCanNext(s, e);
    if e.StepDequeuer? && e.t < |s.deqs| {
      InvCanStep(s, e.t);
      hide Inv, Since;
      SinceStep(s0, s, failures, e.t);
    } else if !e.StepDequeuer? {
      hide Inv, CanNext;
      OtherFrame(s, e);
      hide Next;
    }
  }

  lemma SinceStep(s0: State, s: State, failures: nat, t: nat)
    requires Inv(s) && Since(s0, s, failures) && t < |s.deqs| && CanStep(s, s.deqs[t])
    requires Next(s, StepDequeuer(t)) == AdvanceDequeuer(s, t)
    ensures Since(s0, Next(s, StepDequeuer(t)), failures + Bit(FailsDequeue(s, StepDequeuer(t))))
  {
    assert |s.fates| == s.optimistic;
    hide Inv, AdvanceDequeuer, CanStep, Next;
    assert LoadedSince(s0, s.deqs[t]);
    if Deciding(s.deqs[t]) {
      DecidingStep(s, t);
    } else {
      DecidedStep(s, t);
    }
  }

  lemma DequeuerAddsUp(s: State, t: nat)
    requires t < |s.deqs| && CanStep(s, s.deqs[t]) && |s.fates| == s.optimistic
    requires Next(s, StepDequeuer(t)) == AdvanceDequeuer(s, t)
    ensures Sum(Next(s, StepDequeuer(t)).deqs, Seeking) + Next(s, StepDequeuer(t)).head
            + Bit(FailsDequeue(s, StepDequeuer(t)))
            == Sum(s.deqs, Seeking) + s.head
  {
    hide Next, AdvanceDequeuer, CanStep;
    if Deciding(s.deqs[t]) {
      DecidingStep(s, t);
    } else {
      DecidedStep(s, t);
    }
    SumUpdate(s.deqs, t, Next(s, StepDequeuer(t)).deqs[t], Seeking);
  }

  /** Every call is counted once: it is still seeking, has claimed an index, or failed. */
  lemma CallsAddUp(s: State, e: Event)
    requires Inv(s)
    ensures CanNext(s, e)
    ensures Sum(Next(s, e).deqs, Seeking) + Next(s, e).head + Bit(FailsDequeue(s, e))
            == Sum(s.deqs, Seeking) + s.head + Bit(StartsDequeue(s, e))
  {
    hide AdvanceEnqueuer, CanEnqueue, AdvanceDequeuer, Sum, Seeking;
    InvCanNext(s, e);
    if e.StepDequeuer? {
      if e.t < |s.deqs| {
        assert |s.fates| == s.optimistic;
        hide Inv;
        DequeuerAddsUp(s, e.t);
      }
    } else {
      hide Inv;
      OthersAddUp(s, e);
    }
  }

  lemma OthersAddUp(s: State, e: Event)
    requires !e.StepDequeuer? && CanNext(s, e)
    ensures Sum(Next(s, e).deqs, Seeking) + Next(s, e).head + Bit(FailsDequeue(s, e))
            == Sum(s.deqs, Seeking) + s.head + Bit(StartsDequeue(s, e))
  {
    OtherFrame(s, e);
    hide Next;
    if StartsDequeue(s, e) {
      SumUpdate(s.deqs, e.t, TailLoad, Seeking);
    }
  }

  lemma OneMoreEvent(dequeuers: nat, pool: nat, run: seq<Event>, more: seq<Event>)
    requires more != []
    ensures var k := |more| - 1;
            Exec(dequeuers, pool, run + more) == Next(Exec(dequeuers, pool, run + more[..k]), more[k])
  {
    hide Next;
    assert (run + more)[..|run + more| - 1] == run + more[..|more| - 1];
  }

  lemma SinceStart(s: State)
    requires Settled(s) && |s.fates| == s.optimistic
    ensures Since(s, s, 0) && Sum(s.deqs, Seeking) == 0
  {
    SumZero(s.deqs, Seeking);
    assert forall u :: 0 <= u < |s.deqs| ==> Seeking(s.deqs[u]) == 0 ==> LoadedSince(s, s.deqs[u]);
  }

  /** In every continuation of a settled run, whatever enqueues and dequeues interfere: no reservation
      below the overcommit plus the tail of then ever fails, so as many dequeues as there were
      unclaimed elements succeed; none fails before that many reserved; and every call is counted. */
  lemma {:induction false} FirstReservationsSucceed(dequeuers: nat, pool: nat, run: seq<Event>, more: seq<Event>)
    requires Settled(Exec(dequeuers, pool, run))
    ensures var s0, s := Exec(dequeuers, pool, run), Exec(dequeuers, pool, run + more);
            && Since(s0, s, Failures(dequeuers, pool, run, more))
            && s.head + Sum(s.deqs, Seeking) + Failures(dequeuers, pool, run, more)
               == s0.head + Calls(dequeuers, pool, run, more)
  {
    if more == [] {
      assert run + more == run;
      EveryRunKeepsTheInvariant(dequeuers, pool, run);
      SinceStart(Exec(dequeuers, pool, run));
    } else {
      var k := |more| - 1;
      OneMoreEvent(dequeuers, pool, run, more);
      hide Inv, Next, Exec, Since, FailsDequeue, StartsDequeue, Sum;
      FirstReservationsSucceed(dequeuers, pool, run, more[..k]);
      EveryRunKeepsTheInvariant(dequeuers, pool, run + more[..k]);
      var s0, s := Exec(dequeuers, pool, run), Exec(dequeuers, pool, run + more[..k]);
      SinceNext(s0, s, Failures(dequeuers, pool, run, more[..k]), more[k]);
      CallsAddUp(s, more[k]);
    }
  }

  /** Reservations that neither failed nor are open were claimed. */
  lemma {:induction false} PassedBetween(fates: seq<Fate>, from: nat, to: nat)
    requires from <= to <= |fates| && forall i :: from <= i < to ==> fates[i].Passed?
    ensures Sum(fates[..to], IsPassed) == Sum(fates[..from], IsPassed) + to - from
  {
    if from < to {
      PassedBetween(fates, from, to - 1);
      assert fates[..to][..to - 1] == fates[..to - 1];
    }
  }

  lemma {:induction false} PassedPrefix(fates: seq<Fate>, to: nat)
    requires to <= |fates|
    ensures Sum(fates[..to], IsPassed) <= Sum(fates, IsPassed)
  {
    if to == |fates| {
      assert fates[..to] == fates;
    } else {
      assert fates[..|fates| - 1][..to] == fates[..to];
      PassedPrefix(fates[..|fates| - 1], to);
    }
  }

  lemma NoneIsOpen(tail: nat, head: nat, optimistic: nat, overcommit: nat, fates: seq<Fate>, deqs: seq<Dequeuer>)
    requires ReservationInv(tail, head, optimistic, overcommit, fates, deqs)
    requires forall u :: 0 <= u < |deqs| ==> Seeking(deqs[u]) == 0
    ensures |fates| == optimistic && head == Sum(fates, IsPassed)
    ensures forall i :: 0 <= i < |fates| ==> !fates[i].Pending?
  {
    SumZero(deqs, AtCheck);
    SumZero(deqs, AtClaim);
    forall i | 0 <= i < |fates| ensures !fates[i].Pending? {
      SumAtLeast(fates, i, IsPending);
    }
  }

  lemma NoneIsPending(s: State)
    requires Inv(s) && Settled(s)
    ensures |s.fates| == s.optimistic && forall i :: 0 <= i < |s.fates| ==> !s.fates[i].Pending?
    ensures s.head == Sum(s.fates, IsPassed) && s.optimistic - s.overcommit == s.head <= s.tail
  {
    NoneIsOpen(s.tail, s.head, s.optimistic, s.overcommit, s.fates, s.deqs);
    assert NobodyReserving(s) by {
      assert forall u :: 0 <= u < |s.deqs| ==> Seeking(s.deqs[u]) == 0 && !s.deqs[u].GiveUp?;
    }
    QuietCounters(s);
  }

  /** A failure means that everything enqueued before was claimed. */
  lemma FailureClaimsAll(s0: State, s: State, failures: nat)
    requires Inv(s0) && Settled(s0) && Inv(s) && Settled(s) && Since(s0, s, failures) && failures > 0
    ensures s0.tail <= s.head
  {
    hide Inv;
    NoneIsPending(s0);
    NoneIsPending(s);
    ClaimedUpTo(s0, s, failures);
  }

  lemma ClaimedUpTo(s0: State, s: State, failures: nat)
    requires Since(s0, s, failures) && failures > 0 && s0.head <= s0.tail
    requires |s0.fates| == s0.optimistic && s0.head == Sum(s0.fates, IsPassed)
    requires s0.optimistic - s0.overcommit == s0.head && s.head == Sum(s.fates, IsPassed)
    requires forall i :: 0 <= i < |s.fates| ==> !s.fates[i].Pending?
    ensures s0.tail <= s.head
  {
    hide Sum, LoadedSince;
    var from, to := s0.optimistic, s0.overcommit + s0.tail;
    assert s.fates[..from] == s0.fates;
    PassedBetween(s.fates, from, to);
    PassedPrefix(s.fates, to);
  }

  /** Any number of racing dequeues between two settled states: as many claim an index as called, or
      everything enqueued before is claimed. Without enqueues in between, k calls claim exactly the
      smaller of k and the number of elements, and once all have returned, the elements claimed are
      read, in the order enqueued. */
  lemma RacingDequeues(dequeuers: nat, pool: nat, run: seq<Event>, more: seq<Event>)
    requires Settled(Exec(dequeuers, pool, run)) && Settled(Exec(dequeuers, pool, run + more))
    ensures var s, s' := Exec(dequeuers, pool, run), Exec(dequeuers, pool, run + more);
            var k := Calls(dequeuers, pool, run, more);
            && s.head <= s'.head <= s.head + k && s'.head <= s'.tail
            && (s'.head == s.head + k || s.tail <= s'.head)
            && (s'.tail == s.tail ==> s'.head - s.head == if k < s.tail - s.head then k else s.tail - s.head)
            && ((forall t :: 0 <= t < |s'.deqs| ==> s'.deqs[t].Rest?) ==>
                  forall i :: s.head <= i < s'.head ==> i in s'.taken && i < |s'.log| && s'.taken[i] == s'.log[i])
  {
    hide Inv, Exec, Settled, Since, Failures, Calls, Seeking;
    var s, s' := Exec(dequeuers, pool, run), Exec(dequeuers, pool, run + more);
    EveryRunKeepsTheInvariant(dequeuers, pool, run);
    EveryRunKeepsTheInvariant(dequeuers, pool, run + more);
    FirstReservationsSucceed(dequeuers, pool, run, more);
    NothingSeeking(s');
    NoneIsPending(s');
    NoneIsPending(s);
    var failures := Failures(dequeuers, pool, run, more);
    if failures > 0 {
      FailureClaimsAll(s, s', failures);
    }
    if forall t :: 0 <= t < |s'.deqs| ==> s'.deqs[t].Rest? {
      RestingHasRead(s');
      ClaimsReadInOrder(dequeuers, pool, run + more);
    }
  }

  lemma NothingSeeking(s: State)
    requires Settled(s)
    ensures Sum(s.deqs, Seeking) == 0
  {
    SumZero(s.deqs, Seeking);
  }

  /** First in, first out: the element read at index i is the i-th one enqueued, only claimed
      indices have been read, and whoever reads an index is the first to do so. */
  lemma ClaimsReadInOrder(dequeuers: nat, pool: nat, run: seq<Event>)
    ensures var s := Exec(dequeuers, pool, run);
            && (forall i :: i in s.taken ==> 0 <= i < s.head && i < |s.log| && s.taken[i] == s.log[i])
            && (forall t :: 0 <= t < |s.deqs| && s.deqs[t].Read? ==> s.deqs[t].index !in s.taken)
  {
    EveryRunKeepsTheInvariant(dequeuers, pool, run);
    var s := Exec(dequeuers, pool, run);
    forall t | 0 <= t < |s.deqs| && s.deqs[t].Read? ensures s.deqs[t].index !in s.taken {
      ReadIsRight(s, t);
    }
    forall i | i in s.taken ensures 0 <= i < s.head {
      SumNonNegative(s.deqs, Reading(i));
      assert Sum(s.deqs, Reading(i)) + Bit(i in s.taken) == Bit(0 <= i < s.head);
    }
  }

  /** Once no dequeue is in progress, exactly the claimed elements have been read. */
  lemma QuietQueueReadEveryClaim(dequeuers: nat, pool: nat, run: seq<Event>)
    requires forall t :: 0 <= t < |Exec(dequeuers, pool, run).deqs| ==> Exec(dequeuers, pool, run).deqs[t].Rest?
    ensures var s := Exec(dequeuers, pool, run); forall i :: i in s.taken <==> 0 <= i < s.head
  {
    hide Inv;
    EveryRunKeepsTheInvariant(dequeuers, pool, run);
    RestingHasRead(Exec(dequeuers, pool, run));
  }

  lemma RestingHasRead(s: State)
    requires Inv(s) && forall t :: 0 <= t < |s.deqs| ==> s.deqs[t].Rest?
    ensures forall i :: i in s.taken <==> 0 <= i < s.head
  {
    hide IndexInv, ReservationInv, AllocationInv, BlocksInv, DataInv;
    forall i: int ensures i in s.taken <==> 0 <= i < s.head {
      SumZero(s.deqs, Reading(i));
      assert Sum(s.deqs, Reading(i)) + Bit(i in s.taken) == Bit(0 <= i < s.head);
    }
  }

  /** A lookup that runs against insertions, growth and slot reuse finds the entry with the key of
      its block and with that block, which is what the source asserts. */
  lemma LookupIsExact(dequeuers: nat, pool: nat, run: seq<Event>, t: nat)
    requires t < |Exec(dequeuers, pool, run).deqs| && Exec(dequeuers, pool, run).deqs[t].KeyLoad?
    ensures var s := Exec(dequeuers, pool, run);
            var l := s.deqs[t];
            var k := l.index / BLOCK_SIZE;
            && s.index.Shaped() && l.header < |s.index.headers| && TailUsable(s.index, l.header, l.tail)
            && k in s.live
            && s.index.entries[s.index.Find(l.header, l.tail, k)] == Entry(BLOCK_SIZE * k, Some(s.live[k]))
  {
    EveryRunKeepsTheInvariant(dequeuers, pool, run);
    var s := Exec(dequeuers, pool, run);
    var l := s.deqs[t];
    assert DequeuerOk(s.index, s.live, |s.blocks|, l);
    FindIsExact(s.index, s.live, l.header, l.tail, l.index / BLOCK_SIZE);
  }

  /** Every block is in exactly one place: the unissued part of the pool, the free list, another
      sub-queue, this sub-queue's index, the enqueuer's hands, or a dequeuer about to free it. */
  lemma EveryBlockIsInOnePlace(dequeuers: nat, pool: nat, run: seq<Event>, b: nat)
    requires b < |Exec(dequeuers, pool, run).blocks|
    ensures var s := Exec(dequeuers, pool, run);
            Places(s.poolSize, s.poolIndex, s.free, s.others, s.live, s.enq, s.deqs, b) == 1
  {
    EveryRunKeepsTheInvariant(dequeuers, pool, run);
  }

  /** A block is released once, by one dequeuer, after every one of its slots was read, while
      nobody else still works on it. */
  lemma BlockIsReleasedOnce(dequeuers: nat, pool: nat, run: seq<Event>, t: nat)
    requires t < |Exec(dequeuers, pool, run).deqs| && Exec(dequeuers, pool, run).deqs[t].Clear?
    ensures var s := Exec(dequeuers, pool, run);
            var k := s.deqs[t].index / BLOCK_SIZE;
            && k in s.live && s.live[k] == s.deqs[t].block
            && (forall i :: BLOCK_SIZE * k <= i < BLOCK_SIZE * (k + 1) ==> i in s.taken)
            && (forall u :: 0 <= u < |s.deqs| && u != t ==> InBlock(k)(s.deqs[u]) == 0 && Releasing(k)(s.deqs[u]) == 0)
  {
    EveryRunKeepsTheInvariant(dequeuers, pool, run);
    var s := Exec(dequeuers, pool, run);
    var k := s.deqs[t].index / BLOCK_SIZE;
    ReleaserIsLast(s, t);
    ReleasedBlockWasRead(s, k);
    forall u | 0 <= u < |s.deqs| && u != t
      ensures InBlock(k)(s.deqs[u]) == 0 && Releasing(k)(s.deqs[u]) == 0
    {
      SumAtLeast(s.deqs, u, InBlock(k));
      SumAtLeastTwo(s.deqs, t, u, Releasing(k));
    }
  }

  /** Nothing is lost: an element that was enqueued and not read is in its slot of a live block,
      and a full block always has somebody about to release it. */
  lemma NothingIsLost(dequeuers: nat, pool: nat, run: seq<Event>)
    ensures var s := Exec(dequeuers, pool, run);
            && (forall i :: 0 <= i < s.tail && i !in s.taken ==>
                  && i < |s.log| && i / BLOCK_SIZE in s.live && s.live[i / BLOCK_SIZE] < |s.blocks|
                  && |s.blocks[s.live[i / BLOCK_SIZE]].slots| == BLOCK_SIZE
                  && s.blocks[s.live[i / BLOCK_SIZE]].slots[i % BLOCK_SIZE] == Some(s.log[i]))
            && (forall k :: k in s.live ==>
                  && s.live[k] < |s.blocks| && s.blocks[s.live[k]].dequeued <= BLOCK_SIZE
                  && Sum(s.deqs, Releasing(k)) == Bit(s.blocks[s.live[k]].dequeued == BLOCK_SIZE))
  {
    EveryRunKeepsTheInvariant(dequeuers, pool, run);
    var s := Exec(dequeuers, pool, run);
    forall k | k in s.live
      ensures s.live[k] < |s.blocks| && s.blocks[s.live[k]].dequeued <= BLOCK_SIZE
      ensures Sum(s.deqs, Releasing(k)) == Bit(s.blocks[s.live[k]].dequeued == BLOCK_SIZE)
    {
      assert BlockInv(k, s.head, s.blocks, s.live, s.deqs);
      SumNonNegative(s.deqs, InBlock(k));
    }
  }

  // ---- When the enqueuer grows its index and allocates ----

  /** Released entries are cleared, and the free list is asked only after the pool is used up. */
  ghost predicate GrowthInv(s: State) {
    && Valued(s.index, s.live)
    && (s.enq.FreeGet? || s.enq.Allocate? ==> s.poolSize <= s.poolIndex)
  }

  lemma GrowthNext(s: State, e: Event)
    requires Inv(s) && GrowthInv(s)
    ensures GrowthInv(Next(s, e))
  {
    InvCanNext(s, e);
    if e.StepEnqueuer? {
      GrowthOfEnqueuer(s, e.pick);
    } else if e.StepDequeuer? {
      if e.t < |s.deqs| {
        GrowthOfDequeuer(s, e.t);
      }
    } else {
      hide Inv, Valued;
    }
  }

  lemma GrowthOfEnqueuer(s: State, pick: Option<nat>)
    requires Inv(s) && GrowthInv(s) && CanEnqueue(s)
    ensures GrowthInv(AdvanceEnqueuer(s, pick))
  {
    EntryOfEnqueuer(s);
    hide Inv;
    EnqueuerKeepsGrowth(s, pick);
  }

  lemma EntryOfEnqueuer(s: State)
    requires Inv(s)
    ensures s.enq.KeyStore? ==> s.index.Shaped() && s.index.newest >= -1 && s.index.Reusable()
    ensures s.enq.ValueStore? ==> EntryHasKey(s.index, s.enq.entry, s.tail / BLOCK_SIZE)
  {
    hide IndexInv, ReservationInv, ReadInv, BlocksInv, DataInv, AllocationInv;
  }

  lemma EnqueuerKeepsGrowth(s: State, pick: Option<nat>)
    requires GrowthInv(s) && CanEnqueue(s)
    requires s.enq.KeyStore? ==> s.index.Shaped() && s.index.newest >= -1 && s.index.Reusable()
    requires s.enq.ValueStore? ==> EntryHasKey(s.index, s.enq.entry, s.tail / BLOCK_SIZE)
    ensures GrowthInv(AdvanceEnqueuer(s, pick))
  {
    hide Valued, WriteKey, Grow, SetValue, NewBlock, MoveTail, HasRoom;
    var ix := s.index;
    match s.enq {
      case KeyStore(_, _) => WriteKeyKeepsValued(ix, s.live);
      case TailStore(_, _) => MoveTailKeepsValued(ix, s.live);
      case GrowIndex(_) => GrowKeepsValued(ix, s.live);
      case ValueStore(_, e, b) => InsertKeepsValued(ix, s.live, e, s.tail / BLOCK_SIZE, b);
      case _ =>
    }
  }

  lemma GrowthOfDequeuer(s: State, t: nat)
    requires Inv(s) && GrowthInv(s) && t < |s.deqs| && CanStep(s, s.deqs[t])
    ensures GrowthInv(AdvanceDequeuer(s, t))
  {
    var l := s.deqs[t];
    if l.Clear? {
      assert DequeuerOk(s.index, s.live, |s.blocks|, l);
      ReleaseKeepsValued(s.index, s.live, l.entry, l.index / BLOCK_SIZE);
    }
    hide Inv, Valued, SetValue, CanStep;
  }

  lemma {:induction false} EveryRunKeepsGrowth(dequeuers: nat, pool: nat, run: seq<Event>)
    ensures GrowthInv(Exec(dequeuers, pool, run))
  {
    if run != [] {
      hide Inv, Next, GrowthInv;
      EveryRunKeepsGrowth(dequeuers, pool, run[..|run| - 1]);
      EveryRunKeepsTheInvariant(dequeuers, pool, run[..|run| - 1]);
      GrowthNext(Exec(dequeuers, pool, run[..|run| - 1]), run[|run| - 1]);
    }
  }

  /** In every run `new_block_index` is called exactly when the block one capacity before the one to
      insert is still live, and a block is allocated only when every block of the pool was handed out. */
  lemma GrowsOnlyWhenNeeded(dequeuers: nat, pool: nat, run: seq<Event>, pick: Option<nat>)
    ensures var s, s' := Exec(dequeuers, pool, run), Next(Exec(dequeuers, pool, run), StepEnqueuer(pick));
            && s.index.Shaped()
            && (s.enq.Insert? ==>
                  (s'.enq.GrowIndex? <==> s.tail / BLOCK_SIZE - s.index.Current().capacity in s.live))
            && (s.enq.FreeGet? || s.enq.Allocate? ==> s.poolSize <= s.poolIndex)
            && (s.enq.FreeGet? && s'.enq.Allocate? ==> pick == None || pick.value !in s.free)
  {
    hide Inv, GrowthInv, Exec, Next;
    EveryRunKeepsGrowth(dequeuers, pool, run);
    EveryRunKeepsTheInvariant(dequeuers, pool, run);
    GrowsWhenNeeded(Exec(dequeuers, pool, run), pick);
  }

  lemma GrowsWhenNeeded(s: State, pick: Option<nat>)
    requires Inv(s) && GrowthInv(s)
    ensures s.index.Shaped()
    ensures s.enq.Insert? ==>
              (Next(s, StepEnqueuer(pick)).enq.GrowIndex? <==>
                 s.tail / BLOCK_SIZE - s.index.Current().capacity in s.live)
    ensures s.enq.FreeGet? || s.enq.Allocate? ==> s.poolSize <= s.poolIndex
    ensures s.enq.FreeGet? && Next(s, StepEnqueuer(pick)).enq.Allocate? ==> pick == None || pick.value !in s.free
  {
    InvShaped(s);
    InvCanNext(s, StepEnqueuer(pick));
    if s.enq.Insert? {
      InsertFindsNewest(s);
      hide Inv, IndexInv, Valued;
      ReusableExactly(s.index, s.live);
    }
  }

  lemma InsertFindsNewest(s: State)
    requires Inv(s) && s.enq.Insert?
    ensures IndexInv(s.index, s.live) && s.index.newest == s.tail / BLOCK_SIZE - 1 && !s.index.pending
  {
    hide IndexInv;
  }

  /** The test for room succeeds exactly as long as the block's end stays within half the range. */
  lemma RoomExactly(s: State)
    requires Inv(s)
    ensures HasRoom(s) <==> s.tail + BLOCK_SIZE - s.head < HALF
  {
    assert 0 <= s.tail - s.head < HALF;
    RoomOfDistance(s);
  }

  lemma RoomOfDistance(s: State)
    requires 0 <= s.tail - s.head < HALF
    ensures HasRoom(s) <==> s.tail + BLOCK_SIZE - s.head < HALF
  {
    var distance := s.tail + BLOCK_SIZE - s.head;
    hide CircularIndex.CircularLess;
    CircularIndex.CircularLessMeaning(s.head, s.tail + BLOCK_SIZE, HALF);
    CircularIndex.ModUnique(distance, 2 * HALF, 0, distance);
  }

  lemma GrowExactly(s: State)
    requires Inv(s)
    ensures s.index.Shaped() && (s.index.CanGrow() <==> 2 * s.index.Current().capacity <= WORDS)
  {
    CanGrowExactly(s.index, s.live);
  }

  // ---- Progress ----

  /** How many more accesses and free-list calls the enqueuer makes at most. */
  function EnqueueLeft(l: Enqueuer): nat {
    match l
    case Idle => 0
    case HeadLoad(_) => 13
    case Insert(_) => 12
    case GrowIndex(_) => 11
    case KeyStore(_, _) => 10
    case TailStore(_, _) => 9
    case PoolTest(_, _) => 8
    case PoolTake(_, _) => 7
    case FreeGet(_, _) => 6
    case Allocate(_, _) => 5
    case Reset(_, _, _) => 4
    case ValueStore(_, _, _) => 3
    case Write(_) => 2
    case Publish(_) => 1
  }

  function DequeueLeft(l: Dequeuer): nat {
    match l
    case Rest => 0
    case TailLoad => 13
    case OverLoad(_) => 12
    case OptimisticLoad(_, _) => 11
    case Reserve(_) => 10
    case Check(_, _) => 9
    case Claim => 8
    case GiveUp => 1
    case HeaderLoad(_) => 7
    case IndexTailLoad(_, _) => 6
    case KeyLoad(_, _, _) => 5
    case ValueLoad(_, _) => 4
    case Read(_, _, _) => 3
    case Count(_, _, _) => 2
    case Clear(_, _, _) => 1
    case Free(_) => 0
  }

  /** Whatever the others do, an operation ends after a bounded number of its own accesses to the
      sub-queue and calls of the free list: each one brings it closer, and nobody else's sets it back.
      (The calls of the free list have loops of their own; FreeList says when those repeat.) An
      enqueue ends with its element appended, except when the block would end half the range or more
      behind the head, or a full index cannot double any more; exactly then nothing is appended. */
  lemma OwnAccessesAreBounded(dequeuers: nat, pool: nat, run: seq<Event>, e: Event)
    ensures var s, s' := Exec(dequeuers, pool, run), Next(Exec(dequeuers, pool, run), e);
            && s.index.Shaped()
            && (e.StepEnqueuer? && !s.enq.Idle? ==>
                  && EnqueueLeft(s'.enq) < EnqueueLeft(s.enq)
                  && s'.log == (if s.enq.Publish? then s.log + [s.enq.x] else s.log)
                  && (s'.enq.Idle? || s'.enq.x == s.enq.x)
                  && (s'.enq.Idle? <==>
                        || s.enq.Publish?
                        || (s.enq.HeadLoad? && s.tail + BLOCK_SIZE - s.head >= HALF)
                        || (s.enq.GrowIndex? && 2 * s.index.Current().capacity > WORDS)))
            && (e.CallEnqueue? && s.enq.Idle? ==> !s'.enq.Idle? && s'.enq.x == e.x && s'.log == s.log)
            && (!e.StepEnqueuer? && !s.enq.Idle? ==> s'.enq == s.enq && s'.log == s.log)
            && |s'.deqs| == |s.deqs|
            && forall t :: 0 <= t < |s.deqs| ==>
                 if e == StepDequeuer(t) && !s.deqs[t].Rest?
                 then DequeueLeft(s'.deqs[t]) < DequeueLeft(s.deqs[t]) || s'.deqs[t].Rest?
                 else if e == CallDequeue(t) && s.deqs[t].Rest? then s'.deqs[t].TailLoad?
                 else s'.deqs[t] == s.deqs[t]
  {
    hide Inv;
    EveryRunKeepsTheInvariant(dequeuers, pool, run);
    var s := Exec(dequeuers, pool, run);
    InvCanNext(s, e);
    InvShaped(s);
    RoomExactly(s);
    GrowExactly(s);
    hide HasRoom;
    if e.StepEnqueuer? {
      EnqueueGoesOn(s, e.pick);
    } else if e.StepDequeuer? && e.t < |s.deqs| {
      DequeueGoesOn(s, e.t);
    }
  }

  lemma InvShaped(s: State)
    requires Inv(s)
    ensures s.index.Shaped()
  {
  }

  lemma EnqueueGoesOn(s: State, pick: Option<nat>)
    requires CanEnqueue(s)
    ensures var s' := AdvanceEnqueuer(s, pick);
            && s'.deqs == s.deqs
            && (!s.enq.Idle? ==>
                  && EnqueueLeft(s'.enq) < EnqueueLeft(s.enq)
                  && s'.log == (if s.enq.Publish? then s.log + [s.enq.x] else s.log)
                  && (s'.enq.Idle? || s'.enq.x == s.enq.x)
                  && (s'.enq.Idle? <==>
                        || s.enq.Publish?
                        || (s.enq.HeadLoad? && !HasRoom(s))
                        || (s.enq.GrowIndex? && !s.index.CanGrow())))
  {
    if s.enq.GrowIndex? && s.index.CanGrow() {
      GrowShaped(s.index);
    }
  }

  /** What a dequeuer's access does to its own and to the others' places. */
  predicate GoesOn(s: State, s': State, t: nat)
    requires t < |s.deqs|
  {
    && s'.enq == s.enq && s'.log == s.log && |s'.deqs| == |s.deqs| && s'.deqs == s.deqs[t := s'.deqs[t]]
    && (DequeueLeft(s'.deqs[t]) < DequeueLeft(s.deqs[t]) || s'.deqs[t].Rest?)
  }

  lemma ReservingGoesOn(s: State, t: nat)
    requires t < |s.deqs| && CanStep(s, s.deqs[t])
    requires var l := s.deqs[t];
             l.Rest? || l.TailLoad? || l.OverLoad? || l.OptimisticLoad? || l.Reserve? || l.Check? || l.Claim?
                 || l.GiveUp?
    ensures GoesOn(s, AdvanceDequeuer(s, t), t)
  {
  }

  lemma ReadingGoesOn(s: State, t: nat)
    requires t < |s.deqs| && CanStep(s, s.deqs[t])
    requires var l := s.deqs[t];
             || l.HeaderLoad? || l.IndexTailLoad? || l.KeyLoad? || l.ValueLoad? || l.Read? || l.Count?
                   || l.Clear? || l.Free?
    ensures GoesOn(s, AdvanceDequeuer(s, t), t)
  {
  }

  lemma DequeueGoesOn(s: State, t: nat)
    requires t < |s.deqs| && CanStep(s, s.deqs[t])
    ensures GoesOn(s, AdvanceDequeuer(s, t), t)
    ensures s.deqs[t].Rest? ==> AdvanceDequeuer(s, t) == s
  {
    var l := s.deqs[t];
    if l.Rest? || l.TailLoad? || l.OverLoad? || l.OptimisticLoad? || l.Reserve? || l.Check? || l.Claim? || l.GiveUp? {
      ReservingGoesOn(s, t);
    } else {
      ReadingGoesOn(s, t);
    }
    if !l.Rest? {
      hide AdvanceDequeuer;
    }
  }
}

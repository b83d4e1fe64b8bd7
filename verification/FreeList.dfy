/** The reference-counted lock-free free list of the concurrent queue.

    One step is one atomic access of one thread. The low 31 bits of a node's word count the
    references to it, the top bit says that the node still has to be put on the list. */
module FreeList {
  import opened Threads

  const WORD: nat := 0x1_0000_0000
  const SHOULD_BE_ON_FREELIST: nat := 0x8000_0000

  type Ptr = Option<nat>

  datatype Node = Node(refs: nat, next: Ptr)

  /** Where `add_knowing_refcount_is_zero` returns to: to the caller of `add`, or into the loop
      of `try_get`, which holds a newer head by then. */
  datatype Back = ToCaller | ToLoop(head: Ptr)

  datatype Local =
    | Idle
    | AddFlag(node: nat)
    | LinkLoad(node: nat, back: Back)
    | LinkNext(node: nat, seen: Ptr, back: Back)
    | LinkRefs(node: nat, seen: Ptr, back: Back)
    | LinkCas(node: nat, seen: Ptr, back: Back)
    | LinkUndo(node: nat, seen: Ptr, back: Back)
    | GetLoad
    | GetRefs(node: nat)
    | GetCount(node: nat, word: nat)
    | GetNext(node: nat)
    | GetCas(node: nat, next: Ptr)
    | GetCheck(node: nat)
    | GetTake(node: nat)
    | GetDrop(node: nat, seen: Ptr)

  /** `out` is the set of nodes in the hands of the users of the list: what `try_get` returned
      and `add` has not been called with since. */
  datatype State = State(head: Ptr, nodes: seq<Node>, threads: seq<Local>, out: set<nat>)

  datatype Event =
    | Step(t: nat)
    | CallAdd(t: nat, node: nat)
    | CallGet(t: nat)
    | Create

  /** Addition on 32-bit words. */
  function Add(word: nat, delta: int): nat {
    (word + delta) % WORD
  }

  function Loop(p: Ptr): Local {
    match p
    case None => Idle
    case Some(n) => GetRefs(n)
  }

  function Return(back: Back): Local {
    match back
    case ToCaller => Idle
    case ToLoop(head) => Loop(head)
  }

  function At(s: State, t: nat, l: Local): State
    requires t < |s.threads|
  {
    s.(threads := s.threads[t := l])
  }

  function SetRefs(s: State, n: nat, word: nat): State
    requires n < |s.nodes|
  {
    s.(nodes := s.nodes[n := s.nodes[n].(refs := word)])
  }

  predicate InRange(s: State, l: Local) {
    match l
    case Idle => true
    case GetLoad => true
    case _ => l.node < |s.nodes|
  }

  /** The next atomic access of thread t. */
  function Advance(s: State, t: nat): State
    requires t < |s.threads| && InRange(s, s.threads[t])
  {
    var l := s.threads[t];
    match l
    case Idle => s
    case AddFlag(n) =>
      At(SetRefs(s, n, Add(s.nodes[n].refs, SHOULD_BE_ON_FREELIST)), t,
         if s.nodes[n].refs == 0 then LinkLoad(n, ToCaller) else Idle)
    case LinkLoad(n, back) => At(s, t, LinkNext(n, s.head, back))
    case LinkNext(n, seen, back) =>
      At(s.(nodes := s.nodes[n := s.nodes[n].(next := seen)]), t, LinkRefs(n, seen, back))
    case LinkRefs(n, seen, back) => At(SetRefs(s, n, 1), t, LinkCas(n, seen, back))
    case LinkCas(n, seen, back) =>
      if s.head == seen then At(s.(head := Some(n)), t, Return(back))
      else At(s, t, LinkUndo(n, s.head, back))
    case LinkUndo(n, seen, back) =>
      At(SetRefs(s, n, Add(s.nodes[n].refs, SHOULD_BE_ON_FREELIST - 1)), t,
         if s.nodes[n].refs == 1 then LinkNext(n, seen, back) else Return(back))
    case GetLoad => At(s, t, Loop(s.head))
    case GetRefs(n) =>
      At(s, t, if s.nodes[n].refs % SHOULD_BE_ON_FREELIST == 0 then GetLoad
               else GetCount(n, s.nodes[n].refs))
    case GetCount(n, word) =>
      if s.nodes[n].refs == word then At(SetRefs(s, n, Add(word, 1)), t, GetNext(n))
      else At(s, t, GetLoad)
    case GetNext(n) => At(s, t, GetCas(n, s.nodes[n].next))
    case GetCas(n, next) =>
      if s.head == Some(n) then At(s.(head := next), t, GetCheck(n))
      else At(s, t, GetDrop(n, s.head))
    case GetCheck(n) => At(s, t, GetTake(n))
    case GetTake(n) =>
      At(SetRefs(s, n, Add(s.nodes[n].refs, -2)), t, Idle).(out := s.out + {n})
    case GetDrop(n, seen) =>
      At(SetRefs(s, n, Add(s.nodes[n].refs, -1)), t,
         if s.nodes[n].refs == SHOULD_BE_ON_FREELIST + 1 then LinkLoad(n, ToLoop(seen))
         else Loop(seen))
  }

  /** One event; an event that is not enabled changes nothing. `add` may be called by any idle
      thread with a node in user hands, and a fresh node starts in user hands. */
  function Next(s: State, e: Event): State {
    match e
    case Step(t) =>
      if t < |s.threads| && InRange(s, s.threads[t]) then Advance(s, t) else s
    case CallAdd(t, n) =>
      if t < |s.threads| && s.threads[t].Idle? && n in s.out
      then At(s, t, AddFlag(n)).(out := s.out - {n}) else s
    case CallGet(t) =>
      if t < |s.threads| && s.threads[t].Idle? then At(s, t, GetLoad) else s
    case Create =>
      s.(nodes := s.nodes + [Node(0, None)], out := s.out + {|s.nodes|})
  }

  function Start(threads: nat): State {
    State(None, [], seq(threads, _ => Idle), {})
  }

  function Exec(threads: nat, run: seq<Event>): State {
    if run == [] then Start(threads)
    else Next(Exec(threads, run[..|run| - 1]), run[|run| - 1])
  }

  // ---- What the state means ----

  function Follower(list: seq<nat>, i: nat): Ptr {
    if i + 1 < |list| then Some(list[i + 1]) else None
  }

  /** The nodes linked from the head, in order. */
  predicate Chain(s: State, list: seq<nat>) {
    && (s.head == if list == [] then None else Some(list[0]))
    && (forall i :: 0 <= i < |list| ==> list[i] < |s.nodes|)
    && (forall i :: 0 <= i < |list| ==>
          s.nodes[list[i]].next == Follower(list, i))
    && (forall i, j :: 0 <= i < j < |list| ==> list[i] != list[j])
  }

  /** How much thread l contributes to the word of node n. */
  function Weight(n: nat): Local -> int {
    (l: Local) =>
      if l.Idle? || l.GetLoad? || l.node != n then 0
      else match l
        case LinkLoad(_, _) => SHOULD_BE_ON_FREELIST
        case LinkNext(_, _, _) => SHOULD_BE_ON_FREELIST
        case LinkRefs(_, _, _) => SHOULD_BE_ON_FREELIST
        case LinkCas(_, _, _) => 1
        case LinkUndo(_, _, _) => 1
        case GetNext(_) => 1
        case GetCas(_, _) => 1
        case GetCheck(_) => 2
        case GetTake(_) => 2
        case GetDrop(_, _) => 1
        case _ => 0
  }

  /** 1 when thread l has node n for itself: it is adding it, linking it, or has just unlinked it. */
  function Owns(n: nat): Local -> int {
    (l: Local) =>
      if l.Idle? || l.GetLoad? || l.node != n then 0
      else if l.AddFlag? || l.LinkLoad? || l.LinkNext? || l.LinkRefs? || l.LinkCas? || l.LinkUndo?
           || l.GetCheck? || l.GetTake? then 1 else 0
  }

  function Word(s: State, list: seq<nat>, n: nat): int {
    Sum(s.threads, Weight(n)) + Bit(n in list)
  }

  /** A node is waiting when its top bit is set and no thread is linking it: the last thread to
      drop its reference will link it. */
  predicate Waiting(s: State, list: seq<nat>, n: nat)
    requires n < |s.nodes|
  {
    s.nodes[n].refs != Word(s, list, n)
  }

  /** In how many places node n is. */
  function Places(s: State, list: seq<nat>, n: nat): int
    requires n < |s.nodes|
  {
    Sum(s.threads, Owns(n)) + Bit(n in s.out) + Bit(n in list) + Bit(Waiting(s, list, n))
  }

  predicate Linking(l: Local) {
    l.LinkLoad? || l.LinkNext? || l.LinkRefs?
  }

  ghost predicate NodeInv(s: State, list: seq<nat>, n: nat)
    requires n < |s.nodes|
  {
    var w := Word(s, list, n);
    && (s.nodes[n].refs == w || (s.nodes[n].refs == w + SHOULD_BE_ON_FREELIST && w > 0))
    && Places(s, list, n) == 1
    && (s.nodes[n].next.Some? ==> s.nodes[n].next.value < |s.nodes|)
  }

  predicate PtrOk(s: State, p: Ptr) {
    p.Some? ==> p.value < |s.nodes|
  }

  predicate BackOk(s: State, b: Back) {
    b.ToLoop? ==> PtrOk(s, b.head)
  }

  ghost predicate LocalInv(s: State, list: seq<nat>, l: Local) {
    && InRange(s, l)
    && match l
       case LinkLoad(n, b) => BackOk(s, b) && Word(s, list, n) == SHOULD_BE_ON_FREELIST
       case LinkNext(n, p, b) => BackOk(s, b) && PtrOk(s, p) && Word(s, list, n) == SHOULD_BE_ON_FREELIST
       case LinkRefs(n, p, b) =>
         BackOk(s, b) && PtrOk(s, p) && Word(s, list, n) == SHOULD_BE_ON_FREELIST && s.nodes[n].next == p
       case LinkCas(n, p, b) => BackOk(s, b) && PtrOk(s, p) && s.nodes[n].next == p
       case LinkUndo(n, p, b) => BackOk(s, b) && PtrOk(s, p)
       case GetCount(_, w) => w % SHOULD_BE_ON_FREELIST != 0
       case GetCas(n, p) => PtrOk(s, p) && s.nodes[n].next == p
       case GetDrop(n, p) => PtrOk(s, p)
       case _ => true
  }

  ghost predicate Inv(s: State, list: seq<nat>) {
    && |s.threads| + 2 < SHOULD_BE_ON_FREELIST
    && Chain(s, list)
    && (forall n :: n in s.out ==> n < |s.nodes|)
    && (forall n :: 0 <= n < |s.nodes| ==> NodeInv(s, list, n))
    && (forall t :: 0 <= t < |s.threads| ==> LocalInv(s, list, s.threads[t]))
  }

  // ---- Counting ----

  lemma WeightsMove(s: State, t: nat, l: Local)
    requires t < |s.threads|
    ensures forall n: nat :: Sum(s.threads[t := l], Weight(n)) ==
                        Sum(s.threads, Weight(n)) - Weight(n)(s.threads[t]) + Weight(n)(l)
    ensures forall n: nat :: Sum(s.threads[t := l], Owns(n)) ==
                        Sum(s.threads, Owns(n)) - Owns(n)(s.threads[t]) + Owns(n)(l)
  {
    forall n: nat
      ensures Sum(s.threads[t := l], Weight(n)) ==
              Sum(s.threads, Weight(n)) - Weight(n)(s.threads[t]) + Weight(n)(l)
    {
      SumUpdate(s.threads, t, l, Weight(n));
    }
    forall n: nat
      ensures Sum(s.threads[t := l], Owns(n)) ==
              Sum(s.threads, Owns(n)) - Owns(n)(s.threads[t]) + Owns(n)(l)
    {
      SumUpdate(s.threads, t, l, Owns(n));
    }
  }

  /** A thread's weight and ownership are part of the sums. */
  lemma Part(s: State, t: nat, n: nat)
    requires t < |s.threads|
    ensures 0 <= Weight(n)(s.threads[t]) <= Sum(s.threads, Weight(n))
    ensures 0 <= Owns(n)(s.threads[t]) <= Sum(s.threads, Owns(n))
  {
    SumAtLeast(s.threads, t, Weight(n));
    SumAtLeast(s.threads, t, Owns(n));
  }

  /** No two threads own one node, and a linking thread's node is referenced by nobody else. */
  lemma Alone(s: State, list: seq<nat>, t: nat, u: nat, n: nat)
    requires Inv(s, list) && n < |s.nodes|
    requires t < |s.threads| && u < |s.threads| && t != u
    ensures Owns(n)(s.threads[t]) + Owns(n)(s.threads[u]) <= 1
    ensures Linking(s.threads[t]) && s.threads[t].node == n ==> Weight(n)(s.threads[u]) == 0 && n !in list
    ensures Linking(s.threads[u]) && s.threads[u].node == n ==> Weight(n)(s.threads[t]) == 0 && n !in list
  {
    assert NodeInv(s, list, n);
    SumAtLeastTwo(s.threads, t, u, Owns(n));
    SumAtLeastTwo(s.threads, t, u, Weight(n));
    assert LocalInv(s, list, s.threads[t]) && LocalInv(s, list, s.threads[u]);
  }

  /** The reference count never reaches the top bit. */
  lemma CountFits(s: State, list: seq<nat>, n: nat)
    requires Inv(s, list) && n < |s.nodes|
    ensures 0 <= Word(s, list, n) <= SHOULD_BE_ON_FREELIST
    ensures (forall t :: 0 <= t < |s.threads| && Linking(s.threads[t]) ==> s.threads[t].node != n) ==>
              Word(s, list, n) <= |s.threads| + 1
  {
    assert NodeInv(s, list, n);
    SumNonNegative(s.threads, Weight(n));
    SumNonNegative(s.threads, Owns(n));
    if t :| 0 <= t < |s.threads| && Linking(s.threads[t]) && s.threads[t].node == n {
      assert LocalInv(s, list, s.threads[t]);
    } else {
      var extra := (l: Local) => Weight(n)(l) - Owns(n)(l);
      SumPlus(s.threads, extra, Owns(n), Weight(n));
      SumLength(s.threads, extra);
    }
  }

  /** The owner of a node sees the plain reference count, unless it is linking the node itself. */
  lemma OwnerSees(s: State, list: seq<nat>, t: nat, n: nat)
    requires Inv(s, list) && n < |s.nodes|
    requires t < |s.threads| && Owns(n)(s.threads[t]) == 1 && !Linking(s.threads[t])
    ensures s.nodes[n].refs == Word(s, list, n) < SHOULD_BE_ON_FREELIST
    ensures n !in list && n !in s.out
  {
    assert NodeInv(s, list, n);
    Part(s, t, n);
    forall u | 0 <= u < |s.threads| && Linking(s.threads[u]) ensures s.threads[u].node != n {
      if s.threads[u].node == n {
        Alone(s, list, t, u, n);
      }
    }
    CountFits(s, list, n);
  }

  // ---- Every step keeps the invariant ----

  /** A step that only moves the program counter between places of equal weight and ownership. */
  lemma Moves(s: State, list: seq<nat>, t: nat, l: Local)
    requires Inv(s, list) && t < |s.threads| && LocalInv(s, list, l)
    requires forall n: nat :: Weight(n)(l) == Weight(n)(s.threads[t])
    requires forall n: nat :: Owns(n)(l) == Owns(n)(s.threads[t])
    ensures Inv(At(s, t, l), list)
  {
    var s' := At(s, t, l);
    WeightsMove(s, t, l);
    forall u | 0 <= u < |s.threads| ensures LocalInv(s', list, s'.threads[u]) {
      assert LocalInv(s, list, s.threads[u]);
    }
    forall n | 0 <= n < |s.nodes| ensures NodeInv(s', list, n) {
      assert NodeInv(s, list, n);
    }
  }

  /** While thread t has a stake in node m, or m's reference bits are not zero, no other thread
      is linking m. */
  lemma NobodyElseLinks(s: State, list: seq<nat>, t: nat, m: nat)
    requires Inv(s, list) && t < |s.threads| && m < |s.nodes|
    requires Owns(m)(s.threads[t]) + Weight(m)(s.threads[t]) > 0 || s.nodes[m].refs % SHOULD_BE_ON_FREELIST != 0
    ensures forall u :: 0 <= u < |s.threads| && u != t && Linking(s.threads[u]) ==> s.threads[u].node != m
  {
    forall u | 0 <= u < |s.threads| && u != t && Linking(s.threads[u]) ensures s.threads[u].node != m {
      if s.threads[u].node == m {
        Alone(s, list, t, u, m);
        assert LocalInv(s, list, s.threads[u]);
        assert NodeInv(s, list, m);
        Part(s, u, m);
      }
    }
  }

  /** A step of thread t on node m leaves alone what the invariant says of the other threads and
      nodes, provided it writes a successor only while linking m. */
  lemma OthersKeep(s: State, s': State, list: seq<nat>, list': seq<nat>, t: nat, m: nat)
    requires Inv(s, list) && t < |s.threads| && m < |s.nodes|
    requires |s'.nodes| == |s.nodes| && |s'.threads| == |s.threads|
    requires s'.threads == s.threads[t := s'.threads[t]]
    requires forall n :: 0 <= n < |s.nodes| && n != m ==> s'.nodes[n] == s.nodes[n]
    requires s'.nodes[m].next == s.nodes[m].next || (Linking(s.threads[t]) && s.threads[t].node == m)
    requires forall n: nat :: n != m ==> (n in list' <==> n in list) && (n in s'.out <==> n in s.out)
    requires forall n: nat :: n != m ==> Weight(n)(s'.threads[t]) == Weight(n)(s.threads[t])
    requires forall n: nat :: n != m ==> Owns(n)(s'.threads[t]) == Owns(n)(s.threads[t])
    requires Owns(m)(s.threads[t]) + Weight(m)(s.threads[t]) > 0 || s.nodes[m].refs % SHOULD_BE_ON_FREELIST != 0
    ensures forall u :: 0 <= u < |s.threads| && u != t ==> LocalInv(s', list', s'.threads[u])
    ensures forall n :: 0 <= n < |s.nodes| && n != m ==> NodeInv(s', list', n)
  {
    WeightsMove(s, t, s'.threads[t]);
    NobodyElseLinks(s, list, t, m);
    forall u | 0 <= u < |s.threads| && u != t ensures LocalInv(s', list', s'.threads[u]) {
      Alone(s, list, t, u, m);
      assert LocalInv(s, list, s.threads[u]);
      assert s'.threads[u] == s.threads[u];
    }
    forall n | 0 <= n < |s.nodes| && n != m ensures NodeInv(s', list', n) {
      assert NodeInv(s, list, n);
    }
  }

  lemma ChainPush(s: State, list: seq<nat>, n: nat)
    requires Chain(s, list) && n < |s.nodes| && n !in list && s.nodes[n].next == s.head
    ensures Chain(s.(head := Some(n)), [n] + list)
  {
    var l := [n] + list;
    forall i | 0 <= i < |l| ensures s.nodes[l[i]].next == Follower(l, i) {
      if i > 0 {
        assert l[i] == list[i - 1] && Follower(l, i) == Follower(list, i - 1);
      } else {
        assert l[0] == n;
      }
    }
  }

  lemma ChainPop(s: State, list: seq<nat>)
    requires Chain(s, list) && list != []
    ensures Chain(s.(head := s.nodes[list[0]].next), list[1..])
  {
    var l := list[1..];
    forall i | 0 <= i < |l| ensures s.nodes[l[i]].next == Follower(l, i) {
      assert l[i] == list[i + 1] && Follower(l, i) == Follower(list, i + 1);
    }
  }

  /** Writing anything but the successors of the listed nodes keeps the list. */
  lemma ChainKeep(s: State, s': State, list: seq<nat>)
    requires Chain(s, list) && s'.head == s.head && |s'.nodes| >= |s.nodes|
    requires forall n :: 0 <= n < |s.nodes| && n in list ==> s'.nodes[n].next == s.nodes[n].next
    ensures Chain(s', list)
  {
    forall i | 0 <= i < |list|
      ensures s'.nodes[list[i]].next == Follower(list, i)
    {
      assert list[i] in list;
    }
  }

  /** The list after one event: a successful head exchange pushes or pops one node. */
  function NextList(s: State, list: seq<nat>, e: Event): seq<nat> {
    if e.Step? && e.t < |s.threads| then
      match s.threads[e.t]
      case LinkCas(n, seen, _) => if s.head == seen then [n] + list else list
      case GetCas(n, _) => if s.head == Some(n) && list != [] then list[1..] else list
      case _ => list
    else list
  }

  lemma KeepAddFlag(s: State, list: seq<nat>, t: nat)
    requires Inv(s, list) && t < |s.threads| && s.threads[t].AddFlag?
    ensures Inv(Advance(s, t), list)
  {
    assert LocalInv(s, list, s.threads[t]);
    var s' := Advance(s, t);
    var m := s.threads[t].node;
    WeightsMove(s, t, s'.threads[t]);
    assert NodeInv(s, list, m);
    Part(s, t, m);
    OwnerSees(s, list, t, m);
    OthersKeep(s, s', list, list, t, m);
    ChainKeep(s, s', list);
    assert NodeInv(s, list, m);
  }

  lemma KeepLinkNext(s: State, list: seq<nat>, t: nat)
    requires Inv(s, list) && t < |s.threads| && s.threads[t].LinkNext?
    ensures Inv(Advance(s, t), list)
  {
    assert LocalInv(s, list, s.threads[t]);
    var s' := Advance(s, t);
    var m := s.threads[t].node;
    WeightsMove(s, t, s'.threads[t]);
    Part(s, t, m);
    OthersKeep(s, s', list, list, t, m);
    ChainKeep(s, s', list);
    assert NodeInv(s, list, m);
  }

  lemma KeepLinkRefs(s: State, list: seq<nat>, t: nat)
    requires Inv(s, list) && t < |s.threads| && s.threads[t].LinkRefs?
    ensures Inv(Advance(s, t), list)
  {
    assert LocalInv(s, list, s.threads[t]);
    var s' := Advance(s, t);
    var m := s.threads[t].node;
    WeightsMove(s, t, s'.threads[t]);
    Part(s, t, m);
    OthersKeep(s, s', list, list, t, m);
    ChainKeep(s, s', list);
    assert NodeInv(s, list, m);
  }

  lemma KeepPush(s: State, list: seq<nat>, t: nat)
    requires Inv(s, list) && t < |s.threads| && s.threads[t].LinkCas? && s.head == s.threads[t].seen
    ensures Inv(Advance(s, t), [s.threads[t].node] + list)
  {
    assert LocalInv(s, list, s.threads[t]);
    var m := s.threads[t].node;
    OwnerSees(s, list, t, m);
    ChainPush(s, list, m);
    ChainKeep(s.(head := Some(m)), Advance(s, t), [m] + list);
    Pushed(s, list, [m] + list, t);
  }

  lemma Pushed(s: State, list: seq<nat>, list': seq<nat>, t: nat)
    requires Inv(s, list) && t < |s.threads| && s.threads[t].LinkCas? && s.head == s.threads[t].seen
    requires InRange(s, s.threads[t]) && Chain(Advance(s, t), list')
    requires forall n: nat :: n in list' <==> n == s.threads[t].node || n in list
    ensures Inv(Advance(s, t), list')
  {
    assert LocalInv(s, list, s.threads[t]);
    var s' := Advance(s, t);
    var m := s.threads[t].node;
    WeightsMove(s, t, s'.threads[t]);
    OwnerSees(s, list, t, m);
    OthersKeep(s, s', list, list', t, m);
    assert NodeInv(s, list, m);
  }

  lemma KeepLinkUndo(s: State, list: seq<nat>, t: nat)
    requires Inv(s, list) && t < |s.threads| && s.threads[t].LinkUndo?
    ensures Inv(Advance(s, t), list)
  {
    assert LocalInv(s, list, s.threads[t]);
    var s' := Advance(s, t);
    var m := s.threads[t].node;
    WeightsMove(s, t, s'.threads[t]);
    OwnerSees(s, list, t, m);
    Part(s, t, m);
    OthersKeep(s, s', list, list, t, m);
    ChainKeep(s, s', list);
    assert NodeInv(s, list, m);
  }

  lemma KeepGetCount(s: State, list: seq<nat>, t: nat)
    requires Inv(s, list) && t < |s.threads| && s.threads[t].GetCount?
    ensures Inv(Advance(s, t), list)
  {
    assert LocalInv(s, list, s.threads[t]);
    var s' := Advance(s, t);
    var m := s.threads[t].node;
    if s.nodes[m].refs != s.threads[t].word {
      Moves(s, list, t, GetLoad);
    } else {
      KeepReference(s, list, t);
    }
  }

  /** Taking a reference. */
  lemma KeepReference(s: State, list: seq<nat>, t: nat)
    requires Inv(s, list) && t < |s.threads| && s.threads[t].GetCount? && InRange(s, s.threads[t])
    requires s.nodes[s.threads[t].node].refs == s.threads[t].word
    ensures Inv(Advance(s, t), list)
  {
    assert LocalInv(s, list, s.threads[t]);
    var s' := Advance(s, t);
    var m := s.threads[t].node;
    NobodyElseLinks(s, list, t, m);
    CountFits(s, list, m);
    assert NodeInv(s, list, m);
    ReferenceCounted(s, s', list, t, m);
    hide Sum, Weight, Owns;
    ChainKeep(s, s', list);
    OthersKeepReference(s, s', list, t, m);
  }

  lemma ReferenceCounted(s: State, s': State, list: seq<nat>, t: nat, m: nat)
    requires m < |s.nodes| && NodeInv(s, list, m) && t < |s.threads| && s.threads[t] == GetCount(m, s.nodes[m].refs)
    requires s' == At(SetRefs(s, m, Add(s.nodes[m].refs, 1)), t, GetNext(m))
    requires s.nodes[m].refs % SHOULD_BE_ON_FREELIST != 0 && 0 <= Word(s, list, m) <= |s.threads| + 1
    requires |s.threads| + 2 < SHOULD_BE_ON_FREELIST
    ensures NodeInv(s', list, m)
  {
    WeightsMove(s, t, GetNext(m));
  }

  lemma OthersKeepReference(s: State, s': State, list: seq<nat>, t: nat, m: nat)
    requires Inv(s, list) && t < |s.threads| && m < |s.nodes| && s.threads[t] == GetCount(m, s.nodes[m].refs)
    requires s' == At(SetRefs(s, m, Add(s.nodes[m].refs, 1)), t, GetNext(m))
    ensures forall u :: 0 <= u < |s.threads| && u != t ==> LocalInv(s', list, s'.threads[u])
    ensures forall n :: 0 <= n < |s.nodes| && n != m ==> NodeInv(s', list, n)
  {
    assert LocalInv(s, list, s.threads[t]);
    hide NodeInv, LocalInv, Chain, Sum;
    OthersKeep(s, s', list, list, t, m);
  }

  lemma KeepPop(s: State, list: seq<nat>, t: nat)
    requires Inv(s, list) && t < |s.threads| && s.threads[t].GetCas? && s.head == Some(s.threads[t].node)
    ensures list != [] && list[0] == s.threads[t].node
    ensures s.threads[t].next == Follower(list, 0)
    ensures Inv(Advance(s, t), list[1..])
  {
    assert LocalInv(s, list, s.threads[t]);
    var m := s.threads[t].node;
    assert s.nodes[m].next == Follower(list, 0);
    hide NodeInv, LocalInv, Sum;
    PopKeeps(s, At(s.(head := s.threads[t].next), t, GetCheck(m)), list, t, m);
    hide Inv;
  }

  lemma PopKeeps(s: State, s': State, list: seq<nat>, t: nat, m: nat)
    requires Inv(s, list) && t < |s.threads| && s.threads[t].GetCas? && s.threads[t].node == m
    requires list != [] && list[0] == m && m < |s.nodes| && s.nodes[m].next == s.threads[t].next
    requires s' == At(s.(head := s.threads[t].next), t, GetCheck(m))
    ensures Inv(s', list[1..])
  {
    assert NodeInv(s, list, m);
    ChainPop(s, list);
    assert list == [m] + list[1..];
    hide Sum, NodeInv;
    PoppedNode(s, s', list, t, m);
    OthersKeepPop(s, s', list, t, m);
    hide LocalInv;
    assert LocalInv(s', list[1..], GetCheck(m)) by {
      CheckIsLocal(s', list[1..], m);
    }
  }

  lemma CheckIsLocal(s: State, list: seq<nat>, m: nat)
    requires m < |s.nodes|
    ensures LocalInv(s, list, GetCheck(m))
  {
  }

  lemma PoppedNode(s: State, s': State, list: seq<nat>, t: nat, m: nat)
    requires m < |s.nodes| && NodeInv(s, list, m) && t < |s.threads| && s.threads[t].GetCas? && s.threads[t].node == m
    requires list != [] && list == [m] + list[1..] && m !in list[1..]
        && s' == At(s.(head := s.threads[t].next), t, GetCheck(m))
    ensures NodeInv(s', list[1..], m)
  {
    WeightsMove(s, t, GetCheck(m));
  }

  lemma OthersKeepPop(s: State, s': State, list: seq<nat>, t: nat, m: nat)
    requires Inv(s, list) && t < |s.threads| && s.threads[t].GetCas? && s.threads[t].node == m && m < |s.nodes|
    requires list != [] && list == [m] + list[1..] && s' == At(s.(head := s.threads[t].next), t, GetCheck(m))
    ensures forall u :: 0 <= u < |s.threads| && u != t ==> LocalInv(s', list[1..], s'.threads[u])
    ensures forall n :: 0 <= n < |s.nodes| && n != m ==> NodeInv(s', list[1..], n)
  {
    hide NodeInv, Chain, Sum, LocalInv;
    assert forall n: nat :: n != m ==> (n in list[1..] <==> n in list);
    OthersKeep(s, s', list, list[1..], t, m);
  }

  lemma KeepGetTake(s: State, list: seq<nat>, t: nat)
    requires Inv(s, list) && t < |s.threads| && s.threads[t].GetTake?
    ensures Inv(Advance(s, t), list)
  {
    assert LocalInv(s, list, s.threads[t]);
    var s' := Advance(s, t);
    var m := s.threads[t].node;
    WeightsMove(s, t, s'.threads[t]);
    OwnerSees(s, list, t, m);
    Part(s, t, m);
    OthersKeep(s, s', list, list, t, m);
    ChainKeep(s, s', list);
    assert NodeInv(s, list, m);
  }

  lemma KeepGetDrop(s: State, list: seq<nat>, t: nat)
    requires Inv(s, list) && t < |s.threads| && s.threads[t].GetDrop?
    ensures Inv(Advance(s, t), list)
  {
    assert LocalInv(s, list, s.threads[t]);
    var s' := Advance(s, t);
    var m := s.threads[t].node;
    Part(s, t, m);
    NobodyElseLinks(s, list, t, m);
    CountFits(s, list, m);
    assert NodeInv(s, list, m);
    ReferenceDropped(s, s', list, t, m);
    hide Sum, NodeInv;
    OthersKeepDrop(s, s', list, t, m);
    ChainKeep(s, s', list);
  }

  lemma ReferenceDropped(s: State, s': State, list: seq<nat>, t: nat, m: nat)
    requires m < |s.nodes| && NodeInv(s, list, m) && t < |s.threads|
    requires s.threads[t].GetDrop? && s.threads[t].node == m && s' == Advance(s, t)
    requires 1 <= Word(s, list, m) <= |s.threads| + 1 && |s.threads| + 2 < SHOULD_BE_ON_FREELIST
    ensures NodeInv(s', list, m)
    ensures s'.threads[t].LinkLoad? ==> Word(s', list, m) == SHOULD_BE_ON_FREELIST
  {
    WeightsMove(s, t, s'.threads[t]);
  }

  lemma OthersKeepDrop(s: State, s': State, list: seq<nat>, t: nat, m: nat)
    requires Inv(s, list) && t < |s.threads| && s.threads[t].GetDrop? && s.threads[t].node == m && m < |s.nodes|
    requires s' == Advance(s, t)
    ensures forall u :: 0 <= u < |s.threads| && u != t ==> LocalInv(s', list, s'.threads[u])
    ensures forall n :: 0 <= n < |s.nodes| && n != m ==> NodeInv(s', list, n)
  {
    hide NodeInv, Chain, Sum, LocalInv;
    Part(s, t, m);
    OthersKeep(s, s', list, list, t, m);
  }

  lemma KeepStep(s: State, list: seq<nat>, t: nat)
    requires Inv(s, list) && t < |s.threads|
    ensures InRange(s, s.threads[t]) && Inv(Advance(s, t), NextList(s, list, Step(t)))
  {
    assert LocalInv(s, list, s.threads[t]);
    match s.threads[t] {
      case AddFlag(_) => KeepAddFlag(s, list, t);
      case LinkLoad(n, back) => Moves(s, list, t, LinkNext(n, s.head, back));
      case LinkNext(_, _, _) => KeepLinkNext(s, list, t);
      case LinkRefs(_, _, _) => KeepLinkRefs(s, list, t);
      case LinkCas(n, seen, back) =>
        if s.head == seen {
          KeepPush(s, list, t);
        } else {
          Moves(s, list, t, LinkUndo(n, s.head, back));
        }
      case LinkUndo(_, _, _) => KeepLinkUndo(s, list, t);
      case GetCount(_, _) => KeepGetCount(s, list, t);
      case GetNext(n) =>
        assert NodeInv(s, list, n);
        Moves(s, list, t, GetCas(n, s.nodes[n].next));
      case GetCas(n, _) =>
        if s.head == Some(n) {
          KeepPop(s, list, t);
        } else {
          Moves(s, list, t, GetDrop(n, s.head));
        }
      case GetTake(_) => KeepGetTake(s, list, t);
      case GetDrop(_, _) => KeepGetDrop(s, list, t);
      case _ => Moves(s, list, t, Advance(s, t).threads[t]);
    }
  }

  lemma KeepCallAdd(s: State, list: seq<nat>, t: nat, n: nat)
    requires Inv(s, list) && t < |s.threads| && s.threads[t].Idle? && n in s.out
    ensures Inv(Next(s, CallAdd(t, n)), list)
  {
    var s' := Next(s, CallAdd(t, n));
    WeightsMove(s, t, AddFlag(n));
    forall u | 0 <= u < |s.threads| ensures LocalInv(s', list, s'.threads[u]) {
      assert LocalInv(s, list, s.threads[u]);
    }
    forall k | 0 <= k < |s.nodes| ensures NodeInv(s', list, k) {
      assert NodeInv(s, list, k);
    }
  }

  lemma KeepCreate(s: State, list: seq<nat>)
    requires Inv(s, list)
    ensures Inv(Next(s, Create), list)
  {
    var s' := Next(s, Create);
    var m := |s.nodes|;
    forall u | 0 <= u < |s.threads| ensures LocalInv(s', list, s'.threads[u]) {
      assert LocalInv(s, list, s.threads[u]);
    }
    forall u | 0 <= u < |s.threads| ensures Weight(m)(s.threads[u]) == 0 && Owns(m)(s.threads[u]) == 0 {
      assert LocalInv(s, list, s.threads[u]);
    }
    SumZero(s.threads, Weight(m));
    SumZero(s.threads, Owns(m));
    forall k | 0 <= k < |s'.nodes| ensures NodeInv(s', list, k) {
      if k < m {
        assert NodeInv(s, list, k);
      }
    }
    ChainKeep(s, s', list);
  }

  lemma NextKeeps(s: State, list: seq<nat>, e: Event)
    requires Inv(s, list)
    ensures Inv(Next(s, e), NextList(s, list, e))
  {
    match e {
      case Step(t) =>
        if t < |s.threads| {
          KeepStep(s, list, t);
        }
      case CallAdd(t, n) =>
        if t < |s.threads| && s.threads[t].Idle? && n in s.out {
          KeepCallAdd(s, list, t, n);
        }
      case CallGet(t) =>
        if t < |s.threads| && s.threads[t].Idle? {
          Moves(s, list, t, GetLoad);
        }
      case Create => KeepCreate(s, list);
    }
  }

  /** The list after a whole run, pushed and popped by the successful exchanges of the head. */
  function ListAfter(threads: nat, run: seq<Event>): seq<nat> {
    if run == [] then []
    else NextList(Exec(threads, run[..|run| - 1]), ListAfter(threads, run[..|run| - 1]), run[|run| - 1])
  }

  /** Every run of any number of threads keeps the invariant; in particular the nodes linked
      from the head are always a finite list without repetition. */
  lemma {:induction false} EveryRunKeepsTheList(threads: nat, run: seq<Event>)
    requires threads + 2 < SHOULD_BE_ON_FREELIST
    ensures Inv(Exec(threads, run), ListAfter(threads, run))
  {
    if run == [] {
      var s := Start(threads);
      assert forall t :: 0 <= t < |s.threads| ==> s.threads[t] == Idle;
    } else {
      EveryRunKeepsTheList(threads, run[..|run| - 1]);
      NextKeeps(Exec(threads, run[..|run| - 1]), ListAfter(threads, run[..|run| - 1]), run[|run| - 1]);
    }
  }

  // ---- What users of the list may rely on, in every run ----

  /** Each node is in exactly one place: linked once, in the hands of the users, with one thread
      that is adding or linking it or has just unlinked it, or waiting for its last reference. */
  lemma EveryNodeIsInOnePlace(threads: nat, run: seq<Event>, n: nat)
    requires threads + 2 < SHOULD_BE_ON_FREELIST
    requires n < |Exec(threads, run).nodes|
    ensures Chain(Exec(threads, run), ListAfter(threads, run))
    ensures Places(Exec(threads, run), ListAfter(threads, run), n) == 1
  {
    EveryRunKeepsTheList(threads, run);
    assert NodeInv(Exec(threads, run), ListAfter(threads, run), n);
  }

  /** A thread that has unlinked a node is the only one that will return it: nobody has it, nobody
      else is returning or adding it, it is not linked, and its top bit is clear, which is what the
      source asserts. */
  lemma UnlinkedNodeIsExclusive(threads: nat, run: seq<Event>, t: nat)
    requires threads + 2 < SHOULD_BE_ON_FREELIST
    requires t < |Exec(threads, run).threads|
    requires var l := Exec(threads, run).threads[t]; l.GetCheck? || l.GetTake?
    ensures var s := Exec(threads, run);
            var n := s.threads[t].node;
            && n < |s.nodes| && s.nodes[n].refs < SHOULD_BE_ON_FREELIST
            && n !in s.out && n !in ListAfter(threads, run)
            && forall u :: 0 <= u < |s.threads| && u != t ==> Owns(n)(s.threads[u]) == 0
  {
    EveryRunKeepsTheList(threads, run);
    var s, list := Exec(threads, run), ListAfter(threads, run);
    var n := s.threads[t].node;
    assert LocalInv(s, list, s.threads[t]);
    OwnerSees(s, list, t, n);
    forall u | 0 <= u < |s.threads| && u != t ensures Owns(n)(s.threads[u]) == 0 {
      Alone(s, list, t, u, n);
    }
  }

  /** A pop whose exchange succeeds used the true successor although it read it earlier: it
      removes exactly the head and leaves the rest of the list as it was. */
  lemma PopRemovesExactlyTheHead(threads: nat, run: seq<Event>, t: nat)
    requires threads + 2 < SHOULD_BE_ON_FREELIST
    requires t < |Exec(threads, run).threads| && Exec(threads, run).threads[t].GetCas?
    requires Exec(threads, run).head == Some(Exec(threads, run).threads[t].node)
    ensures var list := ListAfter(threads, run);
            && list != [] && list[0] == Exec(threads, run).threads[t].node
            && Chain(Exec(threads, run + [Step(t)]), list[1..])
            && Exec(threads, run + [Step(t)]).threads[t] == GetCheck(list[0])
  {
    EveryRunKeepsTheList(threads, run);
    KeepPop(Exec(threads, run), ListAfter(threads, run), t);
    assert (run + [Step(t)])[..|run|] == run;
    assert LocalInv(Exec(threads, run), ListAfter(threads, run), Exec(threads, run).threads[t]);
  }

  /** Only the store of a linking thread writes a node's link. */
  lemma LinkWriters(s: State, e: Event, n: nat)
    requires n < |s.nodes|
    requires e.Step? && e.t < |s.threads| && s.threads[e.t].LinkNext? ==> s.threads[e.t].node != n
    ensures n < |Next(s, e).nodes| && Next(s, e).nodes[n].next == s.nodes[n].next
  {
  }

  lemma LinkIsStable(s: State, list: seq<nat>, t: nat, e: Event)
    requires Inv(s, list) && t < |s.threads|
    requires s.threads[t].GetNext? || s.threads[t].GetCas? || s.threads[t].GetDrop?
    ensures var n := s.threads[t].node;
            n < |s.nodes| <= |Next(s, e).nodes| && Next(s, e).nodes[n].next == s.nodes[n].next
  {
    var n := s.threads[t].node;
    assert LocalInv(s, list, s.threads[t]);
    if e.Step? && e.t < |s.threads| && s.threads[e.t].LinkNext? {
      assert s.threads[e.t].node != n by {
        NobodyElseLinks(s, list, t, n);
      }
    }
    LinkWriters(s, e, n);
    assert |s.nodes| <= |Next(s, e).nodes|;
  }

  /** While a thread holds a reference it took itself, no step of anybody writes the node's link. */
  lemma LinkIsStableUnderAReference(threads: nat, run: seq<Event>, t: nat, e: Event)
    requires threads + 2 < SHOULD_BE_ON_FREELIST
    requires t < |Exec(threads, run).threads|
    requires var l := Exec(threads, run).threads[t]; l.GetNext? || l.GetCas? || l.GetDrop?
    ensures var n := Exec(threads, run).threads[t].node;
            && n < |Exec(threads, run).nodes| <= |Exec(threads, run + [e]).nodes|
            && Exec(threads, run + [e]).nodes[n].next == Exec(threads, run).nodes[n].next
  {
    EveryRunKeepsTheList(threads, run);
    assert (run + [e])[..|run|] == run;
    LinkIsStable(Exec(threads, run), ListAfter(threads, run), t, e);
  }

  /** When no call is in progress, the linked nodes and the nodes in user hands are all the nodes:
      no node is lost and none is both. */
  lemma QuietListLosesNothing(threads: nat, run: seq<Event>, n: nat)
    requires threads + 2 < SHOULD_BE_ON_FREELIST
    requires forall t :: 0 <= t < |Exec(threads, run).threads| ==> Exec(threads, run).threads[t].Idle?
    requires n < |Exec(threads, run).nodes|
    ensures n in ListAfter(threads, run) <==> n !in Exec(threads, run).out
  {
    EveryRunKeepsTheList(threads, run);
    var s, list := Exec(threads, run), ListAfter(threads, run);
    assert NodeInv(s, list, n);
    SumZero(s.threads, Weight(n));
    SumZero(s.threads, Owns(n));
  }

  // ---- Progress: the loops repeat only when others interfere ----

  /** From here to the end of the run, every event that is not a step of thread t leaves the head
      alone, and the word of node n too if `word` says so; t begins no other call. */
  ghost predicate Undisturbed(threads: nat, run: seq<Event>, more: seq<Event>, t: nat, n: nat, word: bool) {
    forall k :: 0 <= k < |more| ==> HarmlessTo(Exec(threads, run + more[..k]), more[k], t, n, word)
  }

  ghost predicate HarmlessTo(s: State, e: Event, t: nat, n: nat, word: bool) {
    && (e.CallAdd? || e.CallGet? ==> e.t != t)
    && (e != Step(t) ==>
          && Next(s, e).head == s.head
          && (word && n < |s.nodes| && n < |Next(s, e).nodes| ==> Next(s, e).nodes[n].refs == s.nodes[n].refs))
  }

  /** A getter that has loaded node n as the head, and is on the straight way to popping it. */
  predicate OnTheWay(s: State, t: nat, n: nat) {
    && t < |s.threads| && n < |s.nodes|
    && match s.threads[t]
       case GetRefs(m) => m == n && s.head == Some(n)
       case GetCount(m, w) => m == n && s.head == Some(n) && w == s.nodes[n].refs
       case GetNext(m) => m == n && s.head == Some(n)
       case GetCas(m, _) => m == n && s.head == Some(n)
       case GetCheck(m) => m == n
       case GetTake(m) => m == n
       case _ => false
  }

  /** How many own steps a getter on the straight way is away from its return. */
  function GetLeft(l: Local): nat {
    match l
    case GetRefs(_) => 6
    case GetCount(_, _) => 5
    case GetNext(_) => 4
    case GetCas(_, _) => 3
    case GetCheck(_) => 2
    case GetTake(_) => 1
    case _ => 0
  }

  function StepsOf(more: seq<Event>, t: nat): nat {
    if more == [] then 0 else StepsOf(more[..|more| - 1], t) + if more[|more| - 1] == Step(t) then 1 else 0
  }

  /** The step in which the getter hands node n to its caller. */
  predicate ReturnsNow(s: State, t: nat, n: nat) {
    && t < |s.threads| && s.threads[t] == GetTake(n)
    && |Next(s, Step(t)).threads| == |s.threads| && Next(s, Step(t)).threads[t].Idle? && n in Next(s, Step(t)).out
  }

  /** One of the thread's steps in this part of the run is that step. */
  ghost predicate Returned(threads: nat, run: seq<Event>, more: seq<Event>, t: nat, n: nat) {
    exists k :: 0 <= k < |more| && more[k] == Step(t) && ReturnsNow(Exec(threads, run + more[..k]), t, n)
  }

  lemma ReturnedStays(threads: nat, run: seq<Event>, more: seq<Event>, t: nat, n: nat)
    requires more != []
    ensures Returned(threads, run, more[..|more| - 1], t, n) ==> Returned(threads, run, more, t, n)
    ensures var k := |more| - 1;
            more[k] == Step(t) && ReturnsNow(Exec(threads, run + more[..k]), t, n) ==>
              Returned(threads, run, more, t, n)
  {
    hide ReturnsNow;
    var less := more[..|more| - 1];
    if j :| 0 <= j < |less| && less[j] == Step(t) && ReturnsNow(Exec(threads, run + less[..j]), t, n) {
      assert less[..j] == more[..j] && more[j] == Step(t);
    }
  }

  /** A linker that has loaded the head, and is on the straight way to linking node n. */
  predicate OnTheLinkingWay(s: State, t: nat, n: nat, back: Back) {
    && t < |s.threads|
    && match s.threads[t]
       case LinkNext(m, seen, b) => m == n && seen == s.head && b == back
       case LinkRefs(m, seen, b) => m == n && seen == s.head && b == back
       case LinkCas(m, seen, b) => m == n && seen == s.head && b == back
       case _ => false
  }

  /** A node that is the head has a positive count. */
  lemma HeadIsCounted(s: State, list: seq<nat>, n: nat)
    requires Inv(s, list) && s.head == Some(n)
    ensures n < |s.nodes| && s.nodes[n].refs % SHOULD_BE_ON_FREELIST != 0
  {
    assert list[0] == n && n in list;
    assert NodeInv(s, list, n);
    forall t | 0 <= t < |s.threads| && Linking(s.threads[t]) ensures s.threads[t].node != n {
      if s.threads[t].node == n {
        Part(s, t, n);
      }
    }
    CountFits(s, list, n);
    SumNonNegative(s.threads, Weight(n));
  }

  lemma NextOnTheWay(s: State, list: seq<nat>, e: Event, t: nat, n: nat)
    requires Inv(s, list) && OnTheWay(s, t, n) && HarmlessTo(s, e, t, n, true)
    ensures || (e == Step(t) && ReturnsNow(s, t, n))
            || (&& OnTheWay(Next(s, e), t, n)
                && GetLeft(Next(s, e).threads[t]) + (if e == Step(t) then 1 else 0) <= GetLeft(s.threads[t]))
  {
    hide Inv, Chain, Add;
    if e == Step(t) {
      if s.threads[t].GetRefs? {
        HeadIsCounted(s, list, n);
      }
    } else {
      OthersLeave(s, list, e, t);
    }
  }

  /** Another thread's event leaves thread t where it is. */
  lemma OthersLeave(s: State, list: seq<nat>, e: Event, t: nat)
    requires Inv(s, list) && t < |s.threads| && e != Step(t) && (e.CallAdd? || e.CallGet? ==> e.t != t)
    ensures |Next(s, e).threads| == |s.threads| && Next(s, e).threads[t] == s.threads[t]
    ensures |Next(s, e).nodes| >= |s.nodes|
  {
    hide Inv, Chain, Add;
  }

  /** A getter that has just loaded the head goes round its loop again only if, since that load,
      another thread changed the head or the node's word: otherwise it stays on the straight way, each
      of its steps bringing it closer, and with its sixth step it has handed the node to its caller. */
  lemma {:induction false} GetRepeatsOnlyWhenDisturbed(threads: nat, run: seq<Event>, more: seq<Event>, t: nat, n: nat)
    requires threads + 2 < SHOULD_BE_ON_FREELIST
    requires t < |Exec(threads, run).threads| && Exec(threads, run).threads[t] == GetRefs(n)
    requires Exec(threads, run).head == Some(n) && Undisturbed(threads, run, more, t, n, true)
    ensures var s := Exec(threads, run + more);
            || Returned(threads, run, more, t, n)
            || (OnTheWay(s, t, n) && GetLeft(s.threads[t]) + StepsOf(more, t) <= 6)
  {
    if more == [] {
      assert run + more == run;
      EveryRunKeepsTheList(threads, run);
      HeadIsCounted(Exec(threads, run), ListAfter(threads, run), n);
    } else {
      var k := |more| - 1;
      OneMoreEvent(threads, run, more);
      UndisturbedBefore(threads, run, more, t, n, true);
      ReturnedStays(threads, run, more, t, n);
      assert HarmlessTo(Exec(threads, run + more[..k]), more[k], t, n, true);
      hide Inv, Next, OnTheWay, ReturnsNow, Returned, HarmlessTo, Undisturbed, Exec;
      GetRepeatsOnlyWhenDisturbed(threads, run, more[..k], t, n);
      EveryRunKeepsTheList(threads, run + more[..k]);
      var s := Exec(threads, run + more[..k]);
      if OnTheWay(s, t, n) {
        NextOnTheWay(s, ListAfter(threads, run + more[..k]), more[k], t, n);
      }
    }
  }

  lemma OneMoreEvent(threads: nat, run: seq<Event>, more: seq<Event>)
    requires more != []
    ensures var k := |more| - 1;
            && Exec(threads, run + more) == Next(Exec(threads, run + more[..k]), more[k])
            && ListAfter(threads, run + more)
               == NextList(Exec(threads, run + more[..k]), ListAfter(threads, run + more[..k]), more[k])
  {
    hide Next, NextList;
    assert (run + more)[..|run + more| - 1] == run + more[..|more| - 1];
  }

  lemma UndisturbedBefore(threads: nat, run: seq<Event>, more: seq<Event>, t: nat, n: nat, word: bool)
    requires more != [] && Undisturbed(threads, run, more, t, n, word)
    ensures Undisturbed(threads, run, more[..|more| - 1], t, n, word)
  {
    hide HarmlessTo;
    var less := more[..|more| - 1];
    forall k | 0 <= k < |less| ensures HarmlessTo(Exec(threads, run + less[..k]), less[k], t, n, word) {
      assert less[..k] == more[..k] && less[k] == more[k];
    }
  }

  /** The step that links the node and leaves the loop. */
  predicate LinksNow(s: State, t: nat, n: nat, back: Back) {
    && t < |s.threads| && s.threads[t] == LinkCas(n, s.head, back)
    && |Next(s, Step(t)).threads| == |s.threads|
    && Next(s, Step(t)).head == Some(n) && Next(s, Step(t)).threads[t] == Return(back)
  }

  /** One of the thread's steps in this part of the run links the node. */
  ghost predicate Links(threads: nat, run: seq<Event>, more: seq<Event>, t: nat, n: nat, back: Back) {
    exists k :: 0 <= k < |more| && more[k] == Step(t) && LinksNow(Exec(threads, run + more[..k]), t, n, back)
  }

  lemma LinksStay(threads: nat, run: seq<Event>, more: seq<Event>, t: nat, n: nat, back: Back)
    requires more != []
    ensures Links(threads, run, more[..|more| - 1], t, n, back) ==> Links(threads, run, more, t, n, back)
    ensures var k := |more| - 1;
            more[k] == Step(t) && LinksNow(Exec(threads, run + more[..k]), t, n, back) ==>
              Links(threads, run, more, t, n, back)
  {
    hide LinksNow;
    var less := more[..|more| - 1];
    if j :| 0 <= j < |less| && less[j] == Step(t) && LinksNow(Exec(threads, run + less[..j]), t, n, back) {
      assert less[..j] == more[..j] && more[j] == Step(t);
    }
  }

  /** A linker goes round its loop again only if, since it loaded the head, another thread changed the
      head: until one of its steps links the node and leaves the loop it stays on the straight way. */
  lemma {:induction false} LinkRepeatsOnlyWhenDisturbed(threads: nat, run: seq<Event>, more: seq<Event>,
                                                        t: nat, n: nat, back: Back)
    requires threads + 2 < SHOULD_BE_ON_FREELIST
    requires t < |Exec(threads, run).threads|
    requires Exec(threads, run).threads[t] == LinkNext(n, Exec(threads, run).head, back)
    requires Undisturbed(threads, run, more, t, n, false)
    ensures OnTheLinkingWay(Exec(threads, run + more), t, n, back) || Links(threads, run, more, t, n, back)
  {
    if more == [] {
      assert run + more == run;
    } else {
      var k := |more| - 1;
      OneMoreEvent(threads, run, more);
      UndisturbedBefore(threads, run, more, t, n, false);
      LinksStay(threads, run, more, t, n, back);
      assert HarmlessTo(Exec(threads, run + more[..k]), more[k], t, n, false);
      hide Inv, Next, OnTheLinkingWay, LinksNow, Links, HarmlessTo, Undisturbed, Exec;
      LinkRepeatsOnlyWhenDisturbed(threads, run, more[..k], t, n, back);
      EveryRunKeepsTheList(threads, run + more[..k]);
      var s := Exec(threads, run + more[..k]);
      if OnTheLinkingWay(s, t, n, back) {
        NextOnTheLinkingWay(s, ListAfter(threads, run + more[..k]), more[k], t, n, back);
      }
    }
  }

  lemma NextOnTheLinkingWay(s: State, list: seq<nat>, e: Event, t: nat, n: nat, back: Back)
    requires Inv(s, list) && OnTheLinkingWay(s, t, n, back) && HarmlessTo(s, e, t, n, false)
    ensures OnTheLinkingWay(Next(s, e), t, n, back) || (e == Step(t) && LinksNow(s, t, n, back))
  {
    if e == Step(t) {
      assert LocalInv(s, list, s.threads[t]);
      hide Inv, Chain, Add, LocalInv;
    } else {
      hide Inv, Chain, Add;
      OthersLeave(s, list, e, t);
    }
  }

  /** How many own steps a call makes at most in one round of its loop. */
  function RoundLeft(l: Local): nat {
    match l
    case Idle => 0
    case AddFlag(_) => 6
    case LinkLoad(_, _) => 5
    case LinkNext(_, _, _) => 4
    case LinkRefs(_, _, _) => 3
    case LinkCas(_, _, _) => 2
    case LinkUndo(_, _, _) => 1
    case GetLoad => 8
    case GetRefs(_) => 7
    case GetCount(_, _) => 6
    case GetNext(_) => 5
    case GetCas(_, _) => 4
    case GetDrop(_, _) => 3
    case GetCheck(_) => 2
    case GetTake(_) => 1
  }

  /** Nobody ever waits for another thread: each own step brings a call closer to its return or begins
      another round, and a round ends without a return only on a node whose count is zero or was
      changed, after a failed exchange of the head, or for a getter that has linked a node. */
  lemma EveryStepMovesOn(threads: nat, run: seq<Event>, t: nat)
    requires threads + 2 < SHOULD_BE_ON_FREELIST
    requires t < |Exec(threads, run).threads| && !Exec(threads, run).threads[t].Idle?
    ensures var s, s' := Exec(threads, run), Next(Exec(threads, run), Step(t));
            var l, l' := s.threads[t], s'.threads[t];
            && l' != l
            && (RoundLeft(l') < RoundLeft(l)
                || (l.GetRefs? && l.node < |s.nodes| && s.nodes[l.node].refs % SHOULD_BE_ON_FREELIST == 0)
                || (l.GetCount? && l.node < |s.nodes| && s.nodes[l.node].refs != l.word)
                || l.GetDrop? || l.LinkUndo? || (l.LinkCas? && l.back.ToLoop?))
  {
    EveryRunKeepsTheList(threads, run);
    assert LocalInv(Exec(threads, run), ListAfter(threads, run), Exec(threads, run).threads[t]);
    hide Inv, LocalInv, Add;
  }

  // ---- A getter gives up only on an empty list ----

  /** Inside `try_get`, including the linking loop that it enters when it drops the last reference. */
  predicate Getting(l: Local) {
    || l.GetLoad? || l.GetRefs? || l.GetCount? || l.GetNext? || l.GetCas? || l.GetCheck? || l.GetTake? || l.GetDrop?
    || (Adding(l) && l.back.ToLoop?)
  }

  predicate Adding(l: Local) {
    l.LinkLoad? || l.LinkNext? || l.LinkRefs? || l.LinkCas? || l.LinkUndo?
  }

  /** The newer head that the getter will go on with is null. */
  predicate BoundToGiveUp(l: Local) {
    || (l.GetDrop? && l.seen == None)
    || (Adding(l) && l.back == ToLoop(None))
  }

  /** The step in which the getter hands its node to its caller. */
  predicate HandsOver(s: State, t: nat) {
    t < |s.threads| && s.threads[t].GetTake? && s.threads[t].node !in s.out && ReturnsNow(s, t, s.threads[t].node)
  }

  ghost predicate HandedOver(threads: nat, run: seq<Event>, more: seq<Event>, t: nat) {
    exists k :: 0 <= k < |more| && more[k] == Step(t) && HandsOver(Exec(threads, run + more[..k]), t)
  }

  /** The list was empty when the getter made one of its steps in this part of the run. */
  ghost predicate SawEmpty(threads: nat, run: seq<Event>, more: seq<Event>, t: nat) {
    exists k :: 0 <= k < |more| && more[k] == Step(t) && ListAfter(threads, run + more[..k]) == []
  }

  lemma AnswersStay(threads: nat, run: seq<Event>, more: seq<Event>, t: nat)
    requires more != []
    ensures HandedOver(threads, run, more[..|more| - 1], t) ==> HandedOver(threads, run, more, t)
    ensures SawEmpty(threads, run, more[..|more| - 1], t) ==> SawEmpty(threads, run, more, t)
    ensures var k := |more| - 1;
            && (more[k] == Step(t) && HandsOver(Exec(threads, run + more[..k]), t) ==>
                  HandedOver(threads, run, more, t))
            && (more[k] == Step(t) && ListAfter(threads, run + more[..k]) == [] ==> SawEmpty(threads, run, more, t))
  {
    hide HandsOver;
    var less := more[..|more| - 1];
    if j :| 0 <= j < |less| && less[j] == Step(t) && HandsOver(Exec(threads, run + less[..j]), t) {
      assert less[..j] == more[..j] && more[j] == Step(t);
    }
    if j :| 0 <= j < |less| && less[j] == Step(t) && ListAfter(threads, run + less[..j]) == [] {
      assert less[..j] == more[..j] && more[j] == Step(t);
    }
  }

  /** One step of a getter: it ends by handing over a node, or on a null head. */
  lemma GettingStep(s: State, list: seq<nat>, t: nat)
    requires Inv(s, list) && t < |s.threads| && Getting(s.threads[t])
    ensures |Next(s, Step(t)).threads| == |s.threads|
    ensures var l, l' := s.threads[t], Next(s, Step(t)).threads[t];
            && (Getting(l') || l'.Idle?)
            && (BoundToGiveUp(l') ==> BoundToGiveUp(l) || list == [])
            && (l'.Idle? ==> HandsOver(s, t) || BoundToGiveUp(l) || list == [])
  {
    assert LocalInv(s, list, s.threads[t]);
    if s.threads[t].GetTake? {
      OwnerSees(s, list, t, s.threads[t].node);
    }
    hide Inv, Add, LocalInv, NodeInv;
  }

  /** What holds of a call of `try_get` at any moment after it began. */
  ghost predicate CallOfGet(threads: nat, run: seq<Event>, more: seq<Event>, t: nat) {
    var s := Exec(threads, run + more);
    && t < |s.threads|
    && (Getting(s.threads[t]) || s.threads[t].Idle?)
    && (BoundToGiveUp(s.threads[t]) ==> SawEmpty(threads, run, more, t))
    && (s.threads[t].Idle? ==> HandedOver(threads, run, more, t) || SawEmpty(threads, run, more, t))
  }

  lemma {:induction false} GetterIsInItsCall(threads: nat, run: seq<Event>, more: seq<Event>, t: nat)
    requires threads + 2 < SHOULD_BE_ON_FREELIST
    requires t < |Exec(threads, run).threads| && Exec(threads, run).threads[t].GetLoad?
    requires forall k :: 0 <= k < |more| && (more[k].CallAdd? || more[k].CallGet?) ==> more[k].t != t
    ensures CallOfGet(threads, run, more, t)
  {
    if more == [] {
      assert run + more == run;
    } else {
      var k := |more| - 1;
      OneMoreEvent(threads, run, more);
      AnswersStay(threads, run, more, t);
      hide Inv, Next, HandsOver, HandedOver, SawEmpty, Exec, ListAfter, Getting, BoundToGiveUp;
      GetterIsInItsCall(threads, run, more[..k], t);
      EveryRunKeepsTheList(threads, run + more[..k]);
      var s := Exec(threads, run + more[..k]);
      if more[k] != Step(t) {
        OthersLeave(s, ListAfter(threads, run + more[..k]), more[k], t);
      } else if s.threads[t].Idle? {
        IdleStays(s, t);
      } else {
        GettingStep(s, ListAfter(threads, run + more[..k]), t);
      }
    }
  }

  /** In every run, with any interference: a call of `try_get` that has returned handed a node to its
      caller, or the list was empty at one of its own steps. So losing an exchange, or meeting a node
      whose count is zero, never makes it give up. */
  lemma GetGivesUpOnlyOnAnEmptyList(threads: nat, run: seq<Event>, more: seq<Event>, t: nat)
    requires threads + 2 < SHOULD_BE_ON_FREELIST
    requires t < |Exec(threads, run).threads| && Exec(threads, run).threads[t].Idle?
    requires forall k :: 0 <= k < |more| && (more[k].CallAdd? || more[k].CallGet?) ==> more[k].t != t
    ensures CallOfGet(threads, run + [CallGet(t)], more, t)
  {
    assert (run + [CallGet(t)])[..|run|] == run;
    GetterIsInItsCall(threads, run + [CallGet(t)], more, t);
  }

  lemma IdleStays(s: State, t: nat)
    requires t < |s.threads| && s.threads[t].Idle?
    ensures Next(s, Step(t)) == s && !Getting(s.threads[t]) && !BoundToGiveUp(s.threads[t])
  {
  }

  // ---- The list is a set to its users ----

  /** The nodes in the list's keeping: not in user hands, and not unlinked by a getter. */
  ghost function Keeping(s: State): set<nat> {
    set n | 0 <= n < |s.nodes| && n !in s.out && Unlinked(s.threads, n) == 0
  }

  function IsUnlinking(n: nat): Local -> int {
    (l: Local) => Bit((l.GetCheck? || l.GetTake?) && l.node == n)
  }

  function Unlinked(threads: seq<Local>, n: nat): int {
    Sum(threads, IsUnlinking(n))
  }

  datatype Effect = Gives(node: nat) | Takes(node: nat) | Neither

  /** What an event does to the set: a call of add gives its node at once, even if another thread will
      link it later; the successful exchange of a getter takes the head. */
  function EffectOf(s: State, e: Event): Effect {
    match e
    case CallAdd(t, n) => if t < |s.threads| && s.threads[t].Idle? && n in s.out then Gives(n) else Neither
    case Step(t) =>
      if t < |s.threads| && InRange(s, s.threads[t]) && s.threads[t].GetCas? && s.head == Some(s.threads[t].node)
      then Takes(s.threads[t].node) else Neither
    case CallGet(_) => Neither
    case Create => Neither
  }

  ghost predicate SetStep(before: set<nat>, after: set<nat>, effect: Effect) {
    match effect
    case Gives(n) => n !in before && after == before + {n}
    case Takes(n) => n in before && after == before - {n}
    case Neither => after == before
  }

  /** A node in user hands, or linked, is not being unlinked by anybody. */
  lemma NotUnlinked(s: State, list: seq<nat>, n: nat)
    requires Inv(s, list) && n < |s.nodes|
    ensures 0 <= Unlinked(s.threads, n) <= Sum(s.threads, Owns(n))
    ensures n in s.out || n in list ==> Unlinked(s.threads, n) == 0
    ensures n in list ==> n !in s.out
  {
    assert NodeInv(s, list, n);
    SumNonNegative(s.threads, IsUnlinking(n));
    SumMonotone(s.threads, IsUnlinking(n), Owns(n));
  }

  /** An event seen from one node: it stays where it is, unless it is the node given or taken. */
  lemma NodeInKeeping(s: State, list: seq<nat>, e: Event, n: nat)
    requires Inv(s, list)
    ensures var s' := Next(s, e);
            var was := n < |s.nodes| && n !in s.out && Unlinked(s.threads, n) == 0;
            var stays := n < |s'.nodes| && n !in s'.out && Unlinked(s'.threads, n) == 0;
            && (EffectOf(s, e) == Gives(n) ==> !was && stays)
            && (EffectOf(s, e) == Takes(n) ==> was && !stays)
            && (EffectOf(s, e) != Gives(n) && EffectOf(s, e) != Takes(n) ==> stays == was)
  {
    hide Chain, Weight, Add;
    match e
    case Create =>
      if n == |s.nodes| {
        assert n in Next(s, e).out;
      }
    case CallGet(t) =>
      if t < |s.threads| && s.threads[t].Idle? {
        SumUpdate(s.threads, t, GetLoad, IsUnlinking(n));
      }
    case CallAdd(t, m) =>
      if t < |s.threads| && s.threads[t].Idle? && m in s.out {
        SumUpdate(s.threads, t, AddFlag(m), IsUnlinking(n));
        NotUnlinked(s, list, m);
      }
    case Step(t) =>
      if t < |s.threads| {
        assert LocalInv(s, list, s.threads[t]);
        StepInKeeping(s, list, t, n);
      }
  }

  lemma StepInKeeping(s: State, list: seq<nat>, t: nat, n: nat)
    requires Inv(s, list) && t < |s.threads| && InRange(s, s.threads[t])
    ensures var s' := Advance(s, t);
            var was := n < |s.nodes| && n !in s.out && Unlinked(s.threads, n) == 0;
            var stays := n < |s'.nodes| && n !in s'.out && Unlinked(s'.threads, n) == 0;
            && (EffectOf(s, Step(t)) == Takes(n) ==> was && !stays)
            && (EffectOf(s, Step(t)) != Takes(n) ==> stays == was)
  {
    var l, s' := s.threads[t], Advance(s, t);
    StepFrame(s, t);
    SumUpdate(s.threads, t, s'.threads[t], IsUnlinking(n));
    SumAtLeast(s.threads, t, IsUnlinking(n));
    hide Sum, LocalInv, NodeInv, Add;
    if l.GetCas? && s.head == Some(l.node) {
      assert list != [] && list[0] == l.node && l.node in list;
      NotUnlinked(s, list, l.node);
    }
    hide Advance, Inv;
  }

  /** What the steps do to the number of nodes, the user's hands and the unlinking getters. */
  lemma StepFrame(s: State, t: nat)
    requires t < |s.threads| && InRange(s, s.threads[t])
    ensures var l, s' := s.threads[t], Advance(s, t);
            && |s'.nodes| == |s.nodes| && |s'.threads| == |s.threads| && s'.threads == s.threads[t := s'.threads[t]]
            && s'.out == (if l.GetTake? then s.out + {l.node} else s.out)
            && (l.GetTake? ==> s'.threads[t].Idle?)
            && (l.GetCheck? ==> s'.threads[t] == GetTake(l.node))
            && (l.GetCas? && s.head == Some(l.node) ==> s'.threads[t] == GetCheck(l.node))
            && (!l.GetTake? && !l.GetCheck? && !(l.GetCas? && s.head == Some(l.node)) ==>
                  !s'.threads[t].GetCheck? && !s'.threads[t].GetTake?)
  {
    hide Add;
  }

  /** To its users the free list is a set with atomic operations: in every run every event gives one
      node that was not in the set, takes one that was, or leaves the set alone; every linked node is
      in the set; and the getter that takes a node is the one that hands it to its caller. */
  lemma TheListIsASet(threads: nat, run: seq<Event>, e: Event)
    requires threads + 2 < SHOULD_BE_ON_FREELIST
    ensures var s, s' := Exec(threads, run), Next(Exec(threads, run), e);
            && SetStep(Keeping(s), Keeping(s'), EffectOf(s, e))
            && (forall n :: n in ListAfter(threads, run) ==> n in Keeping(s))
            && (EffectOf(s, e).Takes? ==> e.t < |s'.threads| && s'.threads[e.t] == GetCheck(EffectOf(s, e).node))
            && (e.Step? && e.t < |s.threads| && s.threads[e.t].GetTake? ==>
                  s'.out == s.out + {s.threads[e.t].node} && s.threads[e.t].node !in Keeping(s))
  {
    EveryRunKeepsTheList(threads, run);
    SetStepHolds(Exec(threads, run), ListAfter(threads, run), e);
  }

  lemma SetStepHolds(s: State, list: seq<nat>, e: Event)
    requires Inv(s, list)
    ensures SetStep(Keeping(s), Keeping(Next(s, e)), EffectOf(s, e))
    ensures forall n :: n in list ==> n in Keeping(s)
    ensures EffectOf(s, e).Takes? ==>
              e.t < |Next(s, e).threads| && Next(s, e).threads[e.t] == GetCheck(EffectOf(s, e).node)
    ensures e.Step? && e.t < |s.threads| && s.threads[e.t].GetTake? ==>
              Next(s, e).out == s.out + {s.threads[e.t].node} && s.threads[e.t].node !in Keeping(s)
  {
    forall n: nat | n in list ensures n in Keeping(s) {
      NotUnlinked(s, list, n);
    }
    if e.Step? && e.t < |s.threads| {
      assert LocalInv(s, list, s.threads[e.t]);
      StepFrame(s, e.t);
      SumAtLeast(s.threads, e.t, IsUnlinking(if s.threads[e.t].GetTake? then s.threads[e.t].node else 0));
    }
    hide Inv, Next, EffectOf, Unlinked, Sum;
    forall n: nat ensures n in Keeping(Next(s, e)) <==>
                            EffectOf(s, e) == Gives(n) || (n in Keeping(s) && EffectOf(s, e) != Takes(n)) {
      NodeInKeeping(s, list, e, n);
    }
    match EffectOf(s, e) {
      case Gives(n) => NodeInKeeping(s, list, e, n);
      case Takes(n) => NodeInKeeping(s, list, e, n);
      case Neither =>
    }
  }

  // ---- The list's operations in place, while no other thread uses it ----

  /** The list with its nodes' fields; `list` is the order of the linked nodes. */
  class List {
    var head: Ptr
    const refs: array<nat>
    const next: array<Ptr>
    ghost var list: seq<nat>

    /** Linked nodes have one reference, the list's; the others have none. */
    ghost predicate Valid()
      reads this, refs, next
    {
      && refs.Length == next.Length
      && head == (if list == [] then None else Some(list[0]))
      && (forall i :: 0 <= i < |list| ==> list[i] < next.Length && next[list[i]] == Follower(list, i))
      && (forall i, j :: 0 <= i < j < |list| ==> list[i] != list[j])
      && (forall n :: 0 <= n < refs.Length ==> refs[n] == Bit(n in list))
    }

    constructor (nodes: nat)
      ensures Valid() && list == [] && refs.Length == nodes && fresh(refs) && fresh(next)
    {
      refs := new nat[nodes](_ => 0);
      next := new Ptr[nodes](_ => None);
      head := None;
      list := [];
    }

    method AddNode(node: nat)
      requires Valid() && node < refs.Length && node !in list
      modifies this, refs, next
      ensures Valid() && list == [node] + old(list)
    {
      var before := refs[node];
      refs[node] := Add(before, SHOULD_BE_ON_FREELIST);
      if before == 0 {
        AddKnowingRefcountIsZero(node);
      }
    }

    /** The loop goes round again only when the compare-and-swap met another head. */
    method AddKnowingRefcountIsZero(node: nat)
      requires refs.Length == next.Length && node < refs.Length && node !in list
      requires head == (if list == [] then None else Some(list[0]))
      requires forall i :: 0 <= i < |list| ==> list[i] < next.Length && next[list[i]] == Follower(list, i)
      requires forall i, j :: 0 <= i < j < |list| ==> list[i] != list[j]
      requires forall n :: 0 <= n < refs.Length && n != node ==> refs[n] == Bit(n in list)
      modifies this, refs, next
      ensures Valid() && list == [node] + old(list)
    {
      var seen, linked := head, false;
      while !linked
        invariant !linked ==> seen == head == old(head) && list == old(list)
        invariant forall n :: 0 <= n < refs.Length && n != node ==> refs[n] == old(refs[n])
        invariant forall n :: 0 <= n < refs.Length && n != node ==> next[n] == old(next[n])
        invariant linked ==> refs[node] == 1 && next[node] == old(head)
        invariant linked ==> head == Some(node) && list == [node] + old(list)
        decreases !linked
      {
        next[node] := seen;
        refs[node] := 1;
        if head == seen {
          head := Some(node);
          list := [node] + list;
          linked := true;
        } else {
          seen := head;
        }
      }
      forall i | 0 <= i < |list| ensures list[i] < next.Length && next[list[i]] == Follower(list, i) {
        if i > 0 {
          assert list[i] == old(list)[i - 1] != node;
        }
      }
      forall n | 0 <= n < refs.Length ensures refs[n] == Bit(n in list) {
        assert n != node ==> (n in list <==> n in old(list));
      }
    }

    method TryGet() returns (node: Ptr)
      requires Valid()
      modifies this, refs
      ensures Valid()
      ensures node == (if old(list) == [] then None else Some(old(list)[0]))
      ensures list == (if old(list) == [] then [] else old(list)[1..])
    {
      node := head;
      if node == None {
        return;
      }
      var n := node.value;
      ghost var linked := list;
      refs[n] := Add(refs[n], 1);
      head := next[n];
      list := list[1..];
      assert 0 < refs[n] < SHOULD_BE_ON_FREELIST;
      refs[n] := Add(refs[n], -2);
      assert refs[n] == 0 && n !in list;
      assert forall i :: 0 <= i < |list| ==> list[i] == linked[i + 1] && Follower(list, i) == Follower(linked, i + 1);
      forall m | 0 <= m < refs.Length ensures refs[m] == Bit(m in list) {
        if m != n {
          assert linked == [n] + list;
          assert old(refs[m]) == Bit(m in linked);
        }
      }
    }
  }
}

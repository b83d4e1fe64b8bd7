/** The lock-free hash from thread ids to sub-queues.

    A thread looks for itself in the current table and all older ones, adds itself again to the
    current table when it was found in an older one, and otherwise inserts itself, while any number
    of other threads do the same and one of them at a time publishes a larger table. Thread ids are
    the positions in `threads`; `hashes` is any hash function on them. */
module ProducerHash {
  import opened Threads
  import CircularIndex
  import BlockIndex

  const INITIAL_CAPACITY: nat := 32

  datatype Table = Table(keys: seq<Option<nat>>, values: seq<Option<nat>>)

  /** `main` is the table that was current when the thread loaded it, `j` counts probes. */
  datatype Local =
    | Idle(result: Option<nat>)
    | MainLoad
    | Probe(main: nat, table: nat, j: nat)
    | AgainProbe(main: nat, j: nat, value: Option<nat>)
    | AgainCas(main: nat, j: nat, value: Option<nat>)
    | AgainStore(main: nat, j: nat, value: Option<nat>)
    | CountAdd(main: nat)
    | ResizeTest(main: nat, n: nat)
    | ResizeLoad(n: nat)
    | Publish(main: nat, n: nat)
    | Unlock(main: nat, n: nat)
    | RoomTest(main: nat, n: nat)
    | Reload(n: nat)
    | AddProbe(main: nat, j: nat, producer: nat)
    | AddCas(main: nat, j: nat, producer: nat)
    | AddStore(main: nat, j: nat, producer: nat)

  /** `tables` lists the tables from the oldest to the current one. `tickets` and `producers` are
      history: the number each thread drew from the shared count, and the sub-queue made for it. */
  datatype State = State(
    hashes: seq<nat>, tables: seq<Table>, count: nat, resizing: bool, made: nat, threads: seq<Local>,
    tickets: map<nat, nat>, producers: map<nat, nat>)

  datatype Event = Call(t: nat) | Step(t: nat)

  function EmptyTable(capacity: nat): Table {
    Table(seq(capacity, _ => None), seq(capacity, _ => None))
  }

  /** The capacity that the resizing loop arrives at. */
  function GrowTo(capacity: nat, n: nat): (c: nat)
    requires capacity > 0 && capacity % 4 == 0
    ensures c >= capacity && c % 4 == 0 && n < c / 2
    decreases if n >= capacity / 2 then 2 * n + 2 - capacity else 0
  {
    if n >= capacity / 2 then GrowTo(2 * capacity, n) else capacity
  }

  function Position(hash: nat, j: nat, capacity: nat): (p: nat)
    requires capacity > 0
    ensures p < capacity
  {
    (hash + j) % capacity
  }

  predicate Shaped(tb: Table) {
    |tb.keys| == |tb.values| && |tb.keys| >= INITIAL_CAPACITY && |tb.keys| % 4 == 0
  }

  function At(s: State, t: nat, l: Local): State
    requires t < |s.threads|
  {
    s.(threads := s.threads[t := l])
  }

  function SetKey(s: State, k: nat, p: nat, t: nat): State
    requires k < |s.tables| && p < |s.tables[k].keys|
  {
    s.(tables := s.tables[k := s.tables[k].(keys := s.tables[k].keys[p := Some(t)])])
  }

  function SetValue(s: State, k: nat, p: nat, v: Option<nat>): State
    requires k < |s.tables| && p < |s.tables[k].values|
  {
    s.(tables := s.tables[k := s.tables[k].(values := s.tables[k].values[p := v])])
  }

  /** What a step needs to be meaningful; the invariant implies it. */
  predicate CanStep(s: State, t: nat) {
    && t < |s.threads| == |s.hashes| && s.tables != []
    && (forall k :: 0 <= k < |s.tables| ==> Shaped(s.tables[k]))
    && match s.threads[t]
       case Idle(_) => true
       case MainLoad => true
       case ResizeLoad(_) => true
       case Reload(_) => true
       case Probe(m, k, _) => m < |s.tables| && k < |s.tables|
       case _ => s.threads[t].main < |s.tables|
  }

  function Capacity(s: State, k: nat): (c: nat)
    requires k < |s.tables| && Shaped(s.tables[k])
    ensures c >= INITIAL_CAPACITY
  {
    |s.tables[k].keys|
  }

  /** What the j-th probe of a thread with this hash meets. */
  function KeyIn(tb: Table, hash: nat, j: nat): Option<nat>
    requires Shaped(tb)
  {
    tb.keys[Position(hash, j, |tb.keys|)]
  }

  function KeyAt(s: State, t: nat, k: nat, j: nat): Option<nat>
    requires t < |s.hashes| && k < |s.tables| && Shaped(s.tables[k])
  {
    KeyIn(s.tables[k], s.hashes[t], j)
  }

  function Advance(s: State, t: nat): (s': State)
    requires CanStep(s, t)
    ensures s'.hashes == s.hashes && |s'.threads| == |s.threads|
  {
    var last := |s.tables| - 1;
    match s.threads[t]
    case Idle(_) => s
    case MainLoad => At(s, t, Probe(last, last, 0))
    case Probe(m, k, j) =>
      var key := KeyAt(s, t, k, j);
      var value := s.tables[k].values[Position(s.hashes[t], j, Capacity(s, k))];
      At(s, t,
         if key == Some(t) then (if k == m then Idle(value) else AgainProbe(m, 0, value))
         else if key == None then (if k > 0 then Probe(m, k - 1, 0) else CountAdd(m))
         else Probe(m, k, j + 1))
    case AgainProbe(m, j, v) =>
      At(s, t, if KeyAt(s, t, m, j) == None then AgainCas(m, j, v) else AgainProbe(m, j + 1, v))
    case AgainCas(m, j, v) =>
      if KeyAt(s, t, m, j) == None
      then At(SetKey(s, m, Position(s.hashes[t], j, Capacity(s, m)), t), t, AgainStore(m, j, v))
      else At(s, t, AgainProbe(m, j + 1, v))
    case AgainStore(m, j, v) =>
      At(SetValue(s, m, Position(s.hashes[t], j, Capacity(s, m)), v), t, Idle(v))
    case CountAdd(m) =>
      At(s, t, ResizeTest(m, s.count + 1)).(count := s.count + 1, tickets := s.tickets[t := s.count + 1])
    case ResizeTest(m, n) =>
      if n >= Capacity(s, m) / 2 && !s.resizing
      then At(s, t, ResizeLoad(n)).(resizing := true)
      else At(s, t, RoomTest(m, n))
    case ResizeLoad(n) =>
      At(s, t, if n >= Capacity(s, last) / 2 then Publish(last, n) else Unlock(last, n))
    case Publish(m, n) =>
      At(s, t, Unlock(|s.tables|, n)).(tables := s.tables + [EmptyTable(GrowTo(2 * Capacity(s, m), n))])
    case Unlock(m, n) => At(s, t, RoomTest(m, n)).(resizing := false)
    case RoomTest(m, n) =>
      if n < Capacity(s, m) / 2 + Capacity(s, m) / 4
      then At(s, t, AddProbe(m, 0, s.made)).(made := s.made + 1, producers := s.producers[t := s.made])
      else At(s, t, Reload(n))
    case Reload(n) => At(s, t, ResizeTest(last, n))
    case AddProbe(m, j, p) =>
      At(s, t, if KeyAt(s, t, m, j) == None then AddCas(m, j, p) else AddProbe(m, j + 1, p))
    case AddCas(m, j, p) =>
      if KeyAt(s, t, m, j) == None
      then At(SetKey(s, m, Position(s.hashes[t], j, Capacity(s, m)), t), t, AddStore(m, j, p))
      else At(s, t, AddProbe(m, j + 1, p))
    case AddStore(m, j, p) =>
      At(SetValue(s, m, Position(s.hashes[t], j, Capacity(s, m)), Some(p)), t, Idle(Some(p)))
  }

  function Next(s: State, e: Event): (s': State)
    ensures s'.hashes == s.hashes && |s'.threads| == |s.threads|
  {
    match e
    case Call(t) => if t < |s.threads| && s.threads[t].Idle? then At(s, t, MainLoad) else s
    case Step(t) => if CanStep(s, t) then Advance(s, t) else s
  }

  function Start(hashes: seq<nat>): State {
    State(hashes, [EmptyTable(INITIAL_CAPACITY)], 0, false, 0, seq(|hashes|, _ => Idle(None)), map[], map[])
  }

  function Exec(hashes: seq<nat>, run: seq<Event>): State {
    if run == [] then Start(hashes) else Next(Exec(hashes, run[..|run| - 1]), run[|run| - 1])
  }

  // ---- Invariant ----

  /** Three quarters of a capacity. */
  function Limit(capacity: nat): nat {
    capacity / 2 + capacity / 4
  }

  /** Everything that a thread with this hash probes before position p is occupied. */
  predicate ReachedBy(tb: Table, hash: nat, p: nat)
    requires Shaped(tb)
  {
    forall i: nat :: i < (p - hash) % |tb.keys| ==> KeyIn(tb, hash, i) != None
  }

  /** A table holds each thread at most once, only threads whose ticket is below three quarters of
      its capacity, each where its probe sequence leads to. */
  ghost predicate TableInv(tb: Table, hashes: seq<nat>, tickets: map<nat, nat>, producers: map<nat, nat>) {
    && Shaped(tb)
    && (forall p :: 0 <= p < |tb.keys| && tb.keys[p] != None ==> KeyOk(tb, hashes, tickets, producers, p))
    && (forall p, q :: 0 <= p < q < |tb.keys| && tb.keys[p] != None ==> tb.keys[p] != tb.keys[q])
  }

  ghost predicate KeyOk(tb: Table, hashes: seq<nat>, tickets: map<nat, nat>, producers: map<nat, nat>, p: nat)
    requires Shaped(tb) && p < |tb.keys| && tb.keys[p] != None
  {
    var t := tb.keys[p].value;
    && t < |hashes| && t in tickets && t in producers && 0 < tickets[t] < Limit(|tb.keys|)
    && ReachedBy(tb, hashes[t], p)
  }

  predicate Present(tb: Table, t: nat) {
    Some(t) in tb.keys
  }

  /** The first j probes of thread t in a table met other threads only. */
  ghost predicate Passed(tb: Table, hash: nat, t: nat, j: nat)
    requires Shaped(tb)
  {
    j < |tb.keys| && forall i: nat :: i < j ==> KeyIn(tb, hash, i) != None && KeyIn(tb, hash, i) != Some(t)
  }

  predicate Resizing(l: Local) {
    l.ResizeLoad? || l.Publish? || l.Unlock?
  }

  function Locks(l: Local): int {
    Bit(Resizing(l))
  }

  ghost predicate Registered(tables: seq<Table>, t: nat, upTo: int) {
    exists k :: 0 <= k <= upTo && k < |tables| && Present(tables[k], t)
  }

  ghost predicate Absent(tables: seq<Table>, t: nat) {
    forall k :: 0 <= k < |tables| ==> !Present(tables[k], t)
  }

  predicate AllShaped(tables: seq<Table>) {
    forall k :: 0 <= k < |tables| ==> Shaped(tables[k])
  }

  /** Between its calls and while it searches, a thread that has a sub-queue is in some table. */
  ghost predicate LocalInv(tables: seq<Table>, hash: nat, tickets: map<nat, nat>, producers: map<nat, nat>, t: nat,
                           l: Local)
    requires AllShaped(tables)
  {
    var last := |tables| - 1;
    var known := (t in producers ==> Registered(tables, t, last)) && (t in tickets ==> t in producers);
    var counted := t in tickets && t !in producers && Absent(tables, t);
    match l
    case Idle(r) => known && r == (if t in producers then Some(producers[t]) else None)
    case MainLoad => known
    case Probe(m, k, j) =>
      && k <= m < |tables| && Passed(tables[k], hash, t, j)
      && (t in producers ==> Registered(tables, t, k)) && (t in tickets ==> t in producers)
      && (forall i :: k < i <= m ==> !Present(tables[i], t))
    case AgainProbe(m, j, v) => Adding(tables, hash, tickets, producers, t, m, j, v)
    case AgainCas(m, j, v) => Adding(tables, hash, tickets, producers, t, m, j, v)
    case AgainStore(m, j, v) => Added(tables, hash, producers, t, m, j, v)
    case CountAdd(m) => m < |tables| && t !in tickets && t !in producers && Absent(tables, t)
    case ResizeTest(m, n) => m < |tables| && counted && tickets[t] == n
    case ResizeLoad(n) => counted && tickets[t] == n
    case Publish(m, n) => m == last && counted && tickets[t] == n
    case Unlock(m, n) => m < |tables| && counted && tickets[t] == n
    case RoomTest(m, n) => m < |tables| && counted && tickets[t] == n
    case Reload(n) => counted && tickets[t] == n
    case AddProbe(m, j, p) => Adding(tables, hash, tickets, producers, t, m, j, Some(p))
    case AddCas(m, j, p) => Adding(tables, hash, tickets, producers, t, m, j, Some(p))
    case AddStore(m, j, p) => Added(tables, hash, producers, t, m, j, Some(p))
  }

  /** Adding thread t to table m. There is room, also when the thread was found in an older table,
      because all tables share one count. */
  ghost predicate Adding(tables: seq<Table>, hash: nat, tickets: map<nat, nat>, producers: map<nat, nat>,
                         t: nat, m: nat, j: nat, v: Option<nat>)
    requires AllShaped(tables)
  {
    && m < |tables| && Passed(tables[m], hash, t, j) && !Present(tables[m], t)
    && t in producers && v == Some(producers[t])
    && t in tickets && 0 < tickets[t] < Limit(|tables[m].keys|)
  }

  ghost predicate Added(tables: seq<Table>, hash: nat, producers: map<nat, nat>, t: nat, m: nat, j: nat, v: Option<nat>)
    requires AllShaped(tables)
  {
    m < |tables| && t in producers && v == Some(producers[t]) && KeyIn(tables[m], hash, j) == Some(t)
  }

  predicate Storing(l: Local, k: nat, hash: nat, capacity: nat, p: nat)
    requires capacity > 0
  {
    (l.AgainStore? || l.AddStore?) && l.main == k && Position(hash, l.j, capacity) == p
  }

  /** The value beside a key is the thread's sub-queue, unless the thread is about to store it. */
  ghost predicate ValueOk(tb: Table, k: nat, hashes: seq<nat>, producers: map<nat, nat>, threads: seq<Local>, p: nat)
    requires Shaped(tb) && p < |tb.keys|
  {
    tb.keys[p] != None ==>
      var t := tb.keys[p].value;
      && t < |threads| == |hashes| && t in producers
      && (tb.values[p] == Some(producers[t]) || Storing(threads[t], k, hashes[t], |tb.keys|, p))
  }

  ghost predicate Drawn(count: nat, tickets: map<nat, nat>) {
    && (forall t :: t in tickets ==> 0 < tickets[t] <= count)
    && (forall t, u :: t in tickets && u in tickets && t != u ==> tickets[t] != tickets[u])
  }

  ghost predicate Made(made: nat, producers: map<nat, nat>) {
    && made == |producers|
    && (forall t :: t in producers ==> producers[t] < made)
    && (forall t, u :: t in producers && u in producers && t != u ==> producers[t] != producers[u])
  }

  ghost predicate Tables(tables: seq<Table>, hashes: seq<nat>, tickets: map<nat, nat>, producers: map<nat, nat>) {
    && (forall k :: 0 <= k < |tables| ==> TableInv(tables[k], hashes, tickets, producers))
    && (forall k, l :: 0 <= k < l < |tables| ==> |tables[k].keys| < |tables[l].keys|)
  }

  ghost predicate Values(tables: seq<Table>, hashes: seq<nat>, producers: map<nat, nat>, threads: seq<Local>)
    requires AllShaped(tables)
  {
    forall k, p :: 0 <= k < |tables| && 0 <= p < |tables[k].keys| ==>
      ValueOk(tables[k], k, hashes, producers, threads, p)
  }

  ghost predicate Locals(tables: seq<Table>, hashes: seq<nat>, tickets: map<nat, nat>, producers: map<nat, nat>,
                         threads: seq<Local>)
    requires AllShaped(tables) && |hashes| == |threads|
  {
    forall t :: 0 <= t < |threads| ==> LocalInv(tables, hashes[t], tickets, producers, t, threads[t])
  }

  ghost predicate Inv(s: State) {
    && |s.hashes| == |s.threads| && s.tables != [] && AllShaped(s.tables)
    && Tables(s.tables, s.hashes, s.tickets, s.producers)
    && Drawn(s.count, s.tickets) && Made(s.made, s.producers)
    && Sum(s.threads, Locks) == Bit(s.resizing)
    && Locals(s.tables, s.hashes, s.tickets, s.producers, s.threads)
    && Values(s.tables, s.hashes, s.producers, s.threads)
  }

  // ---- Probing ----

  /** Probing for the j-th time: fewer than three quarters of the table were passed. */
  lemma ProbesAreFew(tb: Table, hashes: seq<nat>, tickets: map<nat, nat>, producers: map<nat, nat>, count: nat,
                     hash: nat, j: nat)
    requires TableInv(tb, hashes, tickets, producers) && Drawn(count, tickets) && j <= |tb.keys|
    requires forall i: nat :: i < j ==> KeyIn(tb, hash, i) != None
    ensures j < Limit(|tb.keys|)
  {
    var c := |tb.keys|;
    forall i: nat | i < j
      ensures KeyIn(tb, hash, i).value in tickets && 0 < tickets[KeyIn(tb, hash, i).value] < Limit(c)
    {
      assert KeyIn(tb, hash, i) != None;
      assert KeyOk(tb, hashes, tickets, producers, Position(hash, i, c));
    }
    var drawn := seq(j, i requires 0 <= i < j => tickets[KeyIn(tb, hash, i).value] - 1);
    forall a, b | 0 <= a < b < |drawn| ensures drawn[a] != drawn[b] {
      BlockIndex.ModApart(hash + a, hash + b, c);
      assert KeyIn(tb, hash, a) != None && KeyIn(tb, hash, b) != None;
      assert KeyIn(tb, hash, a) != KeyIn(tb, hash, b);
    }
    Pigeonhole(drawn, Limit(c) - 1);
  }

  /** One more occupied slot of another thread. */
  lemma PassOne(tb: Table, hashes: seq<nat>, tickets: map<nat, nat>, producers: map<nat, nat>, count: nat,
                hash: nat, t: nat, j: nat)
    requires TableInv(tb, hashes, tickets, producers) && Drawn(count, tickets) && Passed(tb, hash, t, j)
    requires KeyIn(tb, hash, j) != None && KeyIn(tb, hash, j) != Some(t)
    ensures Passed(tb, hash, t, j + 1)
  {
    ProbesAreFew(tb, hashes, tickets, producers, count, hash, j + 1);
  }

  /** The probe number at which a thread meets position p. */
  lemma ProbeOf(hash: nat, p: nat, capacity: nat)
    requires p < capacity
    ensures Position(hash, (p - hash) % capacity, capacity) == p
  {
    var d, q := (p - hash) % capacity, (p - hash) / capacity;
    assert p - hash == capacity * q + d;
    CircularIndex.ModShift(hash + d, capacity, q);
    CircularIndex.ModUnique(p, capacity, 0, p);
    assert hash + d + capacity * q == p;
  }

  /** A thread that is in a table is met before any empty slot. */
  lemma PresentIsMet(tb: Table, hashes: seq<nat>, tickets: map<nat, nat>, producers: map<nat, nat>, t: nat, p: nat)
    requires TableInv(tb, hashes, tickets, producers) && t < |hashes| && p < |tb.keys| && tb.keys[p] == Some(t)
    ensures var d: nat := (p - hashes[t]) % |tb.keys|;
            KeyIn(tb, hashes[t], d) == Some(t) && forall i: nat :: i < d ==> KeyIn(tb, hashes[t], i) != None
  {
    assert KeyOk(tb, hashes, tickets, producers, p);
    ProbeOf(hashes[t], p, |tb.keys|);
  }

  /** An empty slot ends the search rightly: the thread is not in the table. */
  lemma EmptySlotMeansAbsent(tb: Table, hashes: seq<nat>, tickets: map<nat, nat>, producers: map<nat, nat>, t: nat,
                             j: nat)
    requires TableInv(tb, hashes, tickets, producers) && t < |hashes|
    requires Passed(tb, hashes[t], t, j) && KeyIn(tb, hashes[t], j) == None
    ensures !Present(tb, t)
  {
    forall p | 0 <= p < |tb.keys| ensures tb.keys[p] != Some(t) {
      if tb.keys[p] == Some(t) {
        PresentIsMet(tb, hashes, tickets, producers, t, p);
        assert false;
      }
    }
  }

  // ---- Every step keeps the invariant ----

  /** Steps that read and move one thread that is not about to store a value. */
  lemma KeepLocal(s: State, t: nat, l: Local)
    requires Inv(s) && t < |s.threads| && LocalInv(s.tables, s.hashes[t], s.tickets, s.producers, t, l)
    requires Locks(l) == Locks(s.threads[t])
    requires !s.threads[t].AgainStore? && !s.threads[t].AddStore?
    ensures Inv(At(s, t, l))
  {
    SumUpdate(s.threads, t, l, Locks);
    ValuesKeep(s, t, l, s.producers, At(s, t, l).threads);
  }

  /** The map grew by at most one thread, which was not in it. */
  predicate Grew(m: map<nat, nat>, m': map<nat, nat>, t: nat) {
    (forall u :: u in m ==> u in m' && m'[u] == m[u]) && (forall u :: u in m' && u != t ==> u in m)
  }

  lemma ValuesKeep(s: State, t: nat, l: Local, producers: map<nat, nat>, threads: seq<Local>)
    requires Inv(s) && t < |s.threads| && !s.threads[t].AgainStore? && !s.threads[t].AddStore?
    requires Grew(s.producers, producers, t) && threads == s.threads[t := l]
    ensures Values(s.tables, s.hashes, producers, threads)
  {
    hide LocalInv, Tables, Drawn, Made;
    forall k, p | 0 <= k < |s.tables| && 0 <= p < |s.tables[k].keys|
      ensures ValueOk(s.tables[k], k, s.hashes, producers, threads, p)
    {
      assert ValueOk(s.tables[k], k, s.hashes, s.producers, s.threads, p);
    }
  }

  lemma InvCanStep(s: State, t: nat)
    requires Inv(s) && t < |s.threads|
    ensures CanStep(s, t)
  {
    hide Tables, Drawn, Made;
    assert LocalInv(s.tables, s.hashes[t], s.tickets, s.producers, t, s.threads[t]);
  }

  /** What a probe of the search finds. */
  lemma ProbeFinds(s: State, t: nat)
    requires Inv(s) && t < |s.threads| && s.threads[t].Probe? && CanStep(s, t)
    ensures LocalInv(s.tables, s.hashes[t], s.tickets, s.producers, t, Advance(s, t).threads[t])
  {
    hide ValueOk, KeyOk, Passed, KeyIn, Registered, Made, Drawn, TableInv;
    assert LocalInv(s.tables, s.hashes[t], s.tickets, s.producers, t, s.threads[t]);
    var Probe(m, k, j) := s.threads[t];
    var key := KeyIn(s.tables[k], s.hashes[t], j);
    if key == Some(t) {
      ProbeHit(s, t, m, k, j);
    } else if key == None {
      assert TableInv(s.tables[k], s.hashes, s.tickets, s.producers);
      EmptySlotMeansAbsent(s.tables[k], s.hashes, s.tickets, s.producers, t, j);
      ProbeMiss(s, t, m, k, j);
    } else {
      assert TableInv(s.tables[k], s.hashes, s.tickets, s.producers);
      PassOne(s.tables[k], s.hashes, s.tickets, s.producers, s.count, s.hashes[t], t, j);
    }
  }

  lemma ProbeHit(s: State, t: nat, m: nat, k: nat, j: nat)
    requires Inv(s) && t < |s.threads| && s.threads[t] == Probe(m, k, j) && k <= m < |s.tables|
    requires KeyIn(s.tables[k], s.hashes[t], j) == Some(t)
    requires forall i :: k < i <= m ==> !Present(s.tables[i], t)
    ensures var p := Position(s.hashes[t], j, |s.tables[k].keys|);
            && t in s.producers && t in s.tickets && s.tables[k].values[p] == Some(s.producers[t])
            && Registered(s.tables, t, |s.tables| - 1)
            && (k < m ==> Adding(s.tables, s.hashes[t], s.tickets, s.producers, t, m, 0, s.tables[k].values[p]))
  {
    hide LocalInv, Made, Drawn, ReachedBy;
    var tb, p := s.tables[k], Position(s.hashes[t], j, |s.tables[k].keys|);
    assert TableInv(tb, s.hashes, s.tickets, s.producers);
    assert ValueOk(tb, k, s.hashes, s.producers, s.threads, p) && KeyOk(tb, s.hashes, s.tickets, s.producers, p);
    assert Present(tb, t) by {
      assert tb.keys[p] == Some(t);
    }
    if k < m {
      assert |tb.keys| < |s.tables[m].keys|;
    }
  }

  lemma UnknownIsAbsent(s: State, t: nat)
    requires Inv(s) && t !in s.producers
    ensures Absent(s.tables, t)
  {
    hide Values, Made, Drawn, Locals, ReachedBy;
    forall k | 0 <= k < |s.tables| ensures !Present(s.tables[k], t) {
      assert TableInv(s.tables[k], s.hashes, s.tickets, s.producers);
      forall p | 0 <= p < |s.tables[k].keys| ensures s.tables[k].keys[p] != Some(t) {
        assert s.tables[k].keys[p] != None ==> KeyOk(s.tables[k], s.hashes, s.tickets, s.producers, p);
      }
    }
  }

  lemma ProbeMiss(s: State, t: nat, m: nat, k: nat, j: nat)
    requires Inv(s) && t < |s.threads| && s.threads[t] == Probe(m, k, j) && k <= m < |s.tables|
        && !Present(s.tables[k], t)
    ensures k > 0 ==> LocalInv(s.tables, s.hashes[t], s.tickets, s.producers, t, Probe(m, k - 1, 0))
    ensures k == 0 ==> LocalInv(s.tables, s.hashes[t], s.tickets, s.producers, t, CountAdd(m))
  {
    hide Values, Made, Drawn, Tables;
    assert LocalInv(s.tables, s.hashes[t], s.tickets, s.producers, t, s.threads[t]);
    if t in s.producers {
      var i :| 0 <= i <= k && i < |s.tables| && Present(s.tables[i], t);
      assert i <= k - 1;
      assert Registered(s.tables, t, k - 1);
    }
    if k == 0 {
      UnknownIsAbsent(s, t);
    }
  }

  /** Probing for an empty slot to add the thread: the next slot is free, or it is another thread's. */
  lemma AddingProbe(s: State, t: nat, m: nat, j: nat, v: Option<nat>)
    requires Inv(s) && t < |s.threads| && Adding(s.tables, s.hashes[t], s.tickets, s.producers, t, m, j, v)
    requires KeyIn(s.tables[m], s.hashes[t], j) != None
    ensures Adding(s.tables, s.hashes[t], s.tickets, s.producers, t, m, j + 1, v)
  {
    hide LocalInv, Values;
    var tb := s.tables[m];
    assert TableInv(tb, s.hashes, s.tickets, s.producers);
    assert tb.keys[Position(s.hashes[t], j, |tb.keys|)] in tb.keys;
    PassOne(tb, s.hashes, s.tickets, s.producers, s.count, s.hashes[t], t, j);
  }

  /** Only empty slots change, and only into thread t. */
  ghost predicate KeysGrow(tables: seq<Table>, tables': seq<Table>, t: nat) {
    && |tables| <= |tables'|
    && (forall k :: 0 <= k < |tables| ==> KeysGrowIn(tables[k], tables'[k], t))
    && (forall k :: |tables| <= k < |tables'| ==> tables'[k] == EmptyTable(|tables'[k].keys|))
  }

  ghost predicate KeysGrowIn(tb: Table, tb': Table, t: nat) {
    && |tb.keys| == |tb'.keys| && |tb.values| == |tb'.values|
    && forall p :: 0 <= p < |tb.keys| ==> tb'.keys[p] == tb.keys[p] || (tb.keys[p] == None && tb'.keys[p] == Some(t))
  }

  lemma PresentStable(tb: Table, tb': Table, t: nat, u: nat)
    requires KeysGrowIn(tb, tb', t) && u != t
    ensures Present(tb', u) == Present(tb, u)
  {
    if Present(tb, u) {
      var p :| 0 <= p < |tb.keys| && tb.keys[p] == Some(u);
      assert tb'.keys[p] == Some(u);
    }
    if Present(tb', u) {
      var p :| 0 <= p < |tb'.keys| && tb'.keys[p] == Some(u);
      assert tb.keys[p] == Some(u);
    }
  }

  lemma PassedStable(tb: Table, tb': Table, t: nat, hash: nat, u: nat, j: nat)
    requires KeysGrowIn(tb, tb', t) && u != t && Shaped(tb) && Shaped(tb') && Passed(tb, hash, u, j)
    ensures Passed(tb', hash, u, j)
  {
    forall i: nat | i < j ensures KeyIn(tb', hash, i) != None && KeyIn(tb', hash, i) != Some(u) {
      assert KeyIn(tb, hash, i) != None;
    }
  }

  lemma RegisteredStable(tables: seq<Table>, tables': seq<Table>, t: nat, u: nat, k: int, k': int)
    requires KeysGrow(tables, tables', t) && u != t && Registered(tables, u, k) && k <= k'
    ensures Registered(tables', u, k')
  {
    var i :| 0 <= i <= k && i < |tables| && Present(tables[i], u);
    PresentStable(tables[i], tables'[i], t, u);
  }

  lemma AbsentStable(tables: seq<Table>, tables': seq<Table>, t: nat, u: nat)
    requires KeysGrow(tables, tables', t) && u != t && Absent(tables, u)
    ensures Absent(tables', u)
  {
    forall k | 0 <= k < |tables'| ensures !Present(tables'[k], u) {
      if k < |tables| {
        PresentStable(tables[k], tables'[k], t, u);
      }
    }
  }

  /** Nothing that another thread knows is disturbed, except that no two threads hold the lock. */
  lemma LocalStable(tables: seq<Table>, tables': seq<Table>, tickets: map<nat, nat>, tickets': map<nat, nat>,
                    producers: map<nat, nat>, producers': map<nat, nat>, t: nat, hash: nat, u: nat, l: Local)
    requires AllShaped(tables) && AllShaped(tables') && KeysGrow(tables, tables', t) && u != t
    requires Grew(tickets, tickets', t) && Grew(producers, producers', t)
    requires LocalInv(tables, hash, tickets, producers, u, l)
    requires l.Publish? ==> |tables'| == |tables|
    ensures LocalInv(tables', hash, tickets', producers', u, l)
  {
    hide Shaped, KeyIn, Passed;
    var last, last' := |tables| - 1, |tables'| - 1;
    if Registered(tables, u, last) {
      RegisteredStable(tables, tables', t, u, last, last');
    }
    if Absent(tables, u) {
      AbsentStable(tables, tables', t, u);
    }
    match l
    case Idle(_) =>
    case MainLoad =>
    case Probe(m, k, j) =>
      PassedStable(tables[k], tables'[k], t, hash, u, j);
      if u in producers {
        RegisteredStable(tables, tables', t, u, k, k);
      }
      forall i | k < i <= m ensures !Present(tables'[i], u) {
        PresentStable(tables[i], tables'[i], t, u);
      }
    case AgainProbe(m, j, _) => AddingStable(tables, tables', tickets, tickets', producers, producers', t, hash, u, m,
        j, l.value);
    case AgainCas(m, j, _) => AddingStable(tables, tables', tickets, tickets', producers, producers', t, hash, u, m,
        j, l.value);
    case AddProbe(m, j, p) => AddingStable(tables, tables', tickets, tickets', producers, producers', t, hash, u, m,
        j, Some(p));
    case AddCas(m, j, p) => AddingStable(tables, tables', tickets, tickets', producers, producers', t, hash, u, m, j,
        Some(p));
    case AgainStore(m, j, v) => AddedStable(tables, tables', producers, producers', t, hash, u, m, j, v);
    case AddStore(m, j, p) => AddedStable(tables, tables', producers, producers', t, hash, u, m, j, Some(p));
    case CountAdd(_) =>
    case ResizeTest(_, _) =>
    case ResizeLoad(_) =>
    case Publish(_, _) =>
    case Unlock(_, _) =>
    case RoomTest(_, _) =>
    case Reload(_) =>
  }

  lemma AddingStable(tables: seq<Table>, tables': seq<Table>, tickets: map<nat, nat>, tickets': map<nat, nat>,
                     producers: map<nat, nat>, producers': map<nat, nat>, t: nat, hash: nat, u: nat, m: nat, j: nat,
                         v: Option<nat>)
    requires AllShaped(tables) && AllShaped(tables') && KeysGrow(tables, tables', t) && u != t
    requires Grew(tickets, tickets', t) && Grew(producers, producers', t)
    requires Adding(tables, hash, tickets, producers, u, m, j, v)
    ensures Adding(tables', hash, tickets', producers', u, m, j, v)
  {
    PassedStable(tables[m], tables'[m], t, hash, u, j);
    PresentStable(tables[m], tables'[m], t, u);
  }

  lemma AddedStable(tables: seq<Table>, tables': seq<Table>, producers: map<nat, nat>, producers': map<nat, nat>,
                    t: nat, hash: nat, u: nat, m: nat, j: nat, v: Option<nat>)
    requires AllShaped(tables) && AllShaped(tables') && KeysGrow(tables, tables', t) && u != t
    requires Grew(producers, producers', t) && Added(tables, hash, producers, u, m, j, v)
    ensures Added(tables', hash, producers', u, m, j, v)
  {
    assert KeyIn(tables[m], hash, j) == Some(u);
  }

  lemma OthersStable(s: State, s': State, t: nat)
    requires Inv(s) && t < |s.threads| && |s'.threads| == |s.threads| && s'.hashes == s.hashes
    requires AllShaped(s'.tables) && KeysGrow(s.tables, s'.tables, t)
    requires Grew(s.tickets, s'.tickets, t) && Grew(s.producers, s'.producers, t)
    requires forall u :: 0 <= u < |s.threads| && u != t ==> s'.threads[u] == s.threads[u]
    requires forall u :: 0 <= u < |s.threads| && u != t && s.threads[u].Publish? ==> |s'.tables| == |s.tables|
    requires LocalInv(s'.tables, s.hashes[t], s'.tickets, s'.producers, t, s'.threads[t])
    ensures Locals(s'.tables, s'.hashes, s'.tickets, s'.producers, s'.threads)
  {
    hide LocalInv, Tables, Drawn, Made, Values;
    forall u | 0 <= u < |s.threads| && u != t
      ensures LocalInv(s'.tables, s'.hashes[u], s'.tickets, s'.producers, u, s'.threads[u])
    {
      LocalStable(s.tables, s'.tables, s.tickets, s'.tickets, s.producers, s'.producers, t, s.hashes[u], u,
          s.threads[u]);
    }
  }

  /** A table invariant does not mind more tickets and sub-queues. */
  lemma TablesGrow(tables: seq<Table>, hashes: seq<nat>, tickets: map<nat, nat>, tickets': map<nat, nat>,
                   producers: map<nat, nat>, producers': map<nat, nat>, t: nat)
    requires Tables(tables, hashes, tickets, producers) && Grew(tickets, tickets', t) && Grew(producers, producers', t)
    ensures Tables(tables, hashes, tickets', producers')
  {
    forall k | 0 <= k < |tables| ensures TableInv(tables[k], hashes, tickets', producers') {
      var tb := tables[k];
      assert TableInv(tb, hashes, tickets, producers);
      forall p | 0 <= p < |tb.keys| && tb.keys[p] != None ensures KeyOk(tb, hashes, tickets', producers', p) {
        assert KeyOk(tb, hashes, tickets, producers, p);
      }
    }
  }

  // The steps that put a key into a table.

  lemma SetKeyTable(tb: Table, tb': Table, hashes: seq<nat>, tickets: map<nat, nat>, producers: map<nat, nat>, t: nat,
                    j: nat)
    requires TableInv(tb, hashes, tickets, producers) && t < |hashes| && Passed(tb, hashes[t], t, j) && !Present(tb, t)
    requires t in tickets && t in producers && 0 < tickets[t] < Limit(|tb.keys|)
    requires KeyIn(tb, hashes[t], j) == None
    requires tb' == tb.(keys := tb.keys[Position(hashes[t], j, |tb.keys|) := Some(t)])
    ensures TableInv(tb', hashes, tickets, producers)
  {
    var c, x := |tb.keys|, Position(hashes[t], j, |tb.keys|);
    forall p | 0 <= p < c && tb'.keys[p] != None ensures KeyOk(tb', hashes, tickets, producers, p) {
      if p != x {
        assert KeyOk(tb, hashes, tickets, producers, p);
        var h := hashes[tb.keys[p].value];
        forall i: nat | i < (p - h) % c ensures KeyIn(tb', h, i) != None {
          assert KeyIn(tb, h, i) != None;
        }
      } else {
        ProbeNumber(hashes[t], j, c);
        forall i: nat | i < j ensures KeyIn(tb', hashes[t], i) != None {
          assert KeyIn(tb, hashes[t], i) != None;
        }
      }
    }
    forall p, q | 0 <= p < q < c && tb'.keys[p] != None ensures tb'.keys[p] != tb'.keys[q] {
      assert tb.keys[p] in tb.keys && tb.keys[q] in tb.keys;
    }
  }

  lemma ProbeNumber(hash: nat, j: nat, capacity: nat)
    requires j < capacity
    ensures (Position(hash, j, capacity) - hash) % capacity == j
  {
    var x := Position(hash, j, capacity);
    var q := (hash + j) / capacity;
    assert hash + j == capacity * q + x;
    assert x - hash == capacity * (-q) + j by {
      assert capacity * (-q) == -(capacity * q);
    }
    CircularIndex.ModUnique(x - hash, capacity, -q, j);
  }

  lemma KeepSetKey(s: State, t: nat, m: nat, j: nat, v: Option<nat>, l: Local)
    requires Inv(s) && t < |s.threads| && (s.threads[t].AgainCas? || s.threads[t].AddCas?)
    requires Adding(s.tables, s.hashes[t], s.tickets, s.producers, t, m, j, v)
    requires KeyIn(s.tables[m], s.hashes[t], j) == None
    requires l == AgainStore(m, j, v) || (v.Some? && l == AddStore(m, j, v.value))
    ensures Inv(At(SetKey(s, m, Position(s.hashes[t], j, |s.tables[m].keys|), t), t, l))
  {
    hide ValueOk, TableInv, Locals, Drawn, Made;
    var x := Position(s.hashes[t], j, |s.tables[m].keys|);
    var s' := At(SetKey(s, m, x, t), t, l);
    SetKeyTable(s.tables[m], s'.tables[m], s.hashes, s.tickets, s.producers, t, j);
    SetKeyShapes(s.tables, s'.tables, s.hashes, s.tickets, s.producers, m, x, t);
    SumUpdate(s.threads, t, l, Locks);
    assert LocalInv(s'.tables, s.hashes[t], s.tickets, s.producers, t, l);
    hide Sum, LocalInv;
    OthersStable(s, s', t);
    SetKeyValues(s, s', t, m, j, v, l);
  }

  lemma SetKeyShapes(tables: seq<Table>, tables': seq<Table>, hashes: seq<nat>, tickets: map<nat, nat>,
                     producers: map<nat, nat>, m: nat, x: nat, t: nat)
    requires m < |tables| && x < |tables[m].keys| && tables[m].keys[x] == None
    requires tables' == tables[m := tables[m].(keys := tables[m].keys[x := Some(t)])]
    requires AllShaped(tables) && Tables(tables, hashes, tickets, producers)
    requires TableInv(tables'[m], hashes, tickets, producers)
    ensures AllShaped(tables') && Tables(tables', hashes, tickets, producers) && KeysGrow(tables, tables', t)
  {
    hide TableInv;
    forall k | 0 <= k < |tables| ensures Shaped(tables'[k]) && TableInv(tables'[k], hashes, tickets, producers) {
      assert TableInv(tables[k], hashes, tickets, producers);
    }
  }

  lemma SetKeyValues(s: State, s': State, t: nat, m: nat, j: nat, v: Option<nat>, l: Local)
    requires Inv(s) && t < |s.threads| && (s.threads[t].AgainCas? || s.threads[t].AddCas?)
    requires Adding(s.tables, s.hashes[t], s.tickets, s.producers, t, m, j, v)
    requires l == AgainStore(m, j, v) || (v.Some? && l == AddStore(m, j, v.value))
    requires s' == At(SetKey(s, m, Position(s.hashes[t], j, |s.tables[m].keys|), t), t, l)
    requires AllShaped(s'.tables)
    ensures Values(s'.tables, s'.hashes, s'.producers, s'.threads)
  {
    hide Locals, Tables, Drawn, Made;
    forall k, p | 0 <= k < |s'.tables| && 0 <= p < |s'.tables[k].keys|
      ensures ValueOk(s'.tables[k], k, s'.hashes, s'.producers, s'.threads, p)
    {
      assert ValueOk(s.tables[k], k, s.hashes, s.producers, s.threads, p);
    }
  }

  // The steps that store the value beside the key.

  lemma KeepSetValue(s: State, t: nat, m: nat, j: nat, v: Option<nat>)
    requires Inv(s) && t < |s.threads|
    requires s.threads[t] == AgainStore(m, j, v) || (v.Some? && s.threads[t] == AddStore(m, j, v.value))
    requires Added(s.tables, s.hashes[t], s.producers, t, m, j, v) && (t in s.tickets ==> t in s.producers)
    ensures Inv(At(SetValue(s, m, Position(s.hashes[t], j, |s.tables[m].keys|), v), t, Idle(v)))
  {
    hide ValueOk, KeyOk;
    var x := Position(s.hashes[t], j, |s.tables[m].keys|);
    var s' := At(SetValue(s, m, x, v), t, Idle(v));
    assert AllShaped(s'.tables);
    SetValueTables(s, s', t, m, x, v);
    SumUpdate(s.threads, t, Idle(v), Locks);
    assert KeysGrow(s.tables, s'.tables, t);
    assert Present(s'.tables[m], t) by {
      assert s'.tables[m].keys[x] == Some(t);
    }
    assert LocalInv(s'.tables, s.hashes[t], s.tickets, s.producers, t, Idle(v));
    OthersStable(s, s', t);
    SetValueValues(s, s', t, m, j, v);
  }

  lemma SetValueTables(s: State, s': State, t: nat, m: nat, x: nat, v: Option<nat>)
    requires Inv(s) && t < |s.threads| && m < |s.tables| && x < |s.tables[m].keys|
    requires s' == At(SetValue(s, m, x, v), t, Idle(v))
    ensures Tables(s'.tables, s'.hashes, s'.tickets, s'.producers)
  {
    hide Locals, Values, Drawn, Made;
    forall k | 0 <= k < |s'.tables| ensures TableInv(s'.tables[k], s.hashes, s.tickets, s.producers) {
      var tb, tb' := s.tables[k], s'.tables[k];
      assert TableInv(tb, s.hashes, s.tickets, s.producers);
      forall p | 0 <= p < |tb'.keys| && tb'.keys[p] != None ensures KeyOk(tb', s.hashes, s.tickets, s.producers, p) {
        assert KeyOk(tb, s.hashes, s.tickets, s.producers, p);
        var h := s.hashes[tb.keys[p].value];
        forall i: nat | i < (p - h) % |tb'.keys| ensures KeyIn(tb', h, i) != None {
          assert KeyIn(tb, h, i) != None;
        }
      }
    }
  }

  lemma SetValueValues(s: State, s': State, t: nat, m: nat, j: nat, v: Option<nat>)
    requires Inv(s) && t < |s.threads|
    requires s.threads[t] == AgainStore(m, j, v) || (v.Some? && s.threads[t] == AddStore(m, j, v.value))
    requires Added(s.tables, s.hashes[t], s.producers, t, m, j, v)
    requires s' == At(SetValue(s, m, Position(s.hashes[t], j, |s.tables[m].keys|), v), t, Idle(v))
    requires AllShaped(s'.tables)
    ensures Values(s'.tables, s'.hashes, s'.producers, s'.threads)
  {
    hide Locals, Tables, Drawn, Made;
    forall k, p | 0 <= k < |s'.tables| && 0 <= p < |s'.tables[k].keys|
      ensures ValueOk(s'.tables[k], k, s'.hashes, s'.producers, s'.threads, p)
    {
      assert ValueOk(s.tables[k], k, s.hashes, s.producers, s.threads, p);
    }
  }

  // The steps of a new thread.

  lemma KeepCountAdd(s: State, t: nat, m: nat)
    requires Inv(s) && t < |s.threads| && s.threads[t] == CountAdd(m) && CanStep(s, t)
    ensures Inv(Advance(s, t))
  {
    hide KeyOk, ValueOk, Values;
    var s' := Advance(s, t);
    assert LocalInv(s.tables, s.hashes[t], s.tickets, s.producers, t, s.threads[t]);
    SumUpdate(s.threads, t, s'.threads[t], Locks);
    TablesGrow(s.tables, s.hashes, s.tickets, s'.tickets, s.producers, s.producers, t);
    assert LocalInv(s'.tables, s.hashes[t], s'.tickets, s'.producers, t, s'.threads[t]);
    OthersStable(s, s', t);
    ValuesKeep(s, t, s'.threads[t], s.producers, s'.threads);
  }

  lemma KeepRoomTest(s: State, t: nat, m: nat, n: nat)
    requires Inv(s) && t < |s.threads| && s.threads[t] == RoomTest(m, n) && CanStep(s, t)
    requires n < Limit(Capacity(s, m))
    ensures Inv(Advance(s, t))
  {
    hide TableInv, ValueOk, Locals, Drawn;
    var s' := Advance(s, t);
    SumUpdate(s.threads, t, s'.threads[t], Locks);
    RoomLocal(s, t, m, n);
    assert s'.threads[t] == AddProbe(m, 0, s.made) && s'.producers == s.producers[t := s.made] && s'.made == s.made + 1;
    assert Grew(s.producers, s'.producers, t);
    assert Made(s'.made, s'.producers);
    TablesGrow(s.tables, s.hashes, s.tickets, s.tickets, s.producers, s'.producers, t);
    assert forall u :: 0 <= u < |s.threads| && u != t ==> s'.threads[u] == s.threads[u];
    KeysSame(s.tables, t);
    OthersStable(s, s', t);
    ValuesKeep(s, t, s'.threads[t], s'.producers, s'.threads);
  }

  lemma KeysSame(tables: seq<Table>, t: nat)
    ensures KeysGrow(tables, tables, t)
  {
  }

  lemma RoomLocal(s: State, t: nat, m: nat, n: nat)
    requires Inv(s) && t < |s.threads| && s.threads[t] == RoomTest(m, n) && CanStep(s, t) && n < Limit(Capacity(s, m))
    ensures t !in s.producers
    ensures var s' := Advance(s, t);
            LocalInv(s.tables, s.hashes[t], s.tickets, s.producers[t := s.made], t, AddProbe(m, 0, s.made))
  {
    hide Tables, Values, Made;
    assert LocalInv(s.tables, s.hashes[t], s.tickets, s.producers, t, s.threads[t]);
    assert s.tickets[t] > 0;
    assert Passed(s.tables[m], s.hashes[t], t, 0);
  }

  /** Taking and releasing the resize lock. */
  lemma KeepLock(s: State, t: nat, l: Local, resizing: bool)
    requires Inv(s) && t < |s.threads| && LocalInv(s.tables, s.hashes[t], s.tickets, s.producers, t, l)
    requires !s.threads[t].AgainStore? && !s.threads[t].AddStore?
    requires Bit(resizing) == Bit(s.resizing) - Locks(s.threads[t]) + Locks(l)
    ensures Inv(At(s, t, l).(resizing := resizing))
  {
    hide Tables, Values, Drawn, Made;
    SumUpdate(s.threads, t, l, Locks);
    ValuesKeep(s, t, l, s.producers, At(s, t, l).threads);
  }

  lemma LockHeldByOne(s: State, t: nat, u: nat)
    requires Inv(s) && t < |s.threads| && u < |s.threads| && t != u && Resizing(s.threads[t])
    ensures !Resizing(s.threads[u]) && s.resizing
  {
    hide Tables, Values, Drawn, Made, Locals;
    SumAtLeastTwo(s.threads, t, u, Locks);
    SumAtLeast(s.threads, t, Locks);
  }

  /** Only the thread with the lock publishes, so the table it grows is still the current one. */
  lemma KeepPublish(s: State, t: nat, m: nat, n: nat)
    requires Inv(s) && t < |s.threads| && s.threads[t] == Publish(m, n) && CanStep(s, t)
    ensures m == |s.tables| - 1 && Inv(Advance(s, t))
  {
    hide TableInv, ValueOk, Locals, Drawn, Made;
    var s' := Advance(s, t);
    var table := EmptyTable(GrowTo(2 * Capacity(s, m), n));
    SumUpdate(s.threads, t, s'.threads[t], Locks);
    PublishLocal(s, t, m, n, table);
    assert s'.tables == s.tables + [table];
    EmptyTableInv(|table.keys|, s.hashes, s.tickets, s.producers);
    assert Tables(s'.tables, s'.hashes, s'.tickets, s'.producers);
    forall u | 0 <= u < |s.threads| && u != t ensures !s.threads[u].Publish? {
      LockHeldByOne(s, t, u);
    }
    KeysSame(s.tables, t);
    assert KeysGrow(s.tables, s'.tables, t);
    OthersStable(s, s', t);
    PublishValues(s, s', t, table);
  }

  lemma EmptyTableInv(capacity: nat, hashes: seq<nat>, tickets: map<nat, nat>, producers: map<nat, nat>)
    requires capacity >= INITIAL_CAPACITY && capacity % 4 == 0
    ensures TableInv(EmptyTable(capacity), hashes, tickets, producers)
  {
  }

  lemma PublishLocal(s: State, t: nat, m: nat, n: nat, table: Table)
    requires Inv(s) && t < |s.threads| && s.threads[t] == Publish(m, n)
    requires table == EmptyTable(|table.keys|) && Shaped(table)
    ensures m == |s.tables| - 1
    ensures LocalInv(s.tables + [table], s.hashes[t], s.tickets, s.producers, t, Unlock(|s.tables|, n))
  {
    hide Tables, Values, Made, Drawn;
    assert LocalInv(s.tables, s.hashes[t], s.tickets, s.producers, t, s.threads[t]);
    forall k | 0 <= k <= |s.tables| ensures !Present((s.tables + [table])[k], t) {
    }
  }

  lemma PublishValues(s: State, s': State, t: nat, table: Table)
    requires Inv(s) && t < |s.threads| && s.threads[t].Publish? && AllShaped(s'.tables)
    requires table == EmptyTable(|table.keys|) && s'.tables == s.tables + [table]
    requires s'.hashes == s.hashes && s'.producers == s.producers
    requires |s'.threads| == |s.threads| && s'.threads == s.threads[t := s'.threads[t]]
    ensures Values(s'.tables, s'.hashes, s'.producers, s'.threads)
  {
    hide Locals, Tables, Drawn, Made;
    forall k, p | 0 <= k < |s'.tables| && 0 <= p < |s'.tables[k].keys|
      ensures ValueOk(s'.tables[k], k, s'.hashes, s'.producers, s'.threads, p)
    {
      if k < |s.tables| {
        assert ValueOk(s.tables[k], k, s.hashes, s.producers, s.threads, p);
      }
    }
  }

  lemma NextKeeps(s: State, e: Event)
    requires Inv(s)
    ensures Inv(Next(s, e))
  {
    hide Inv;
    if e.t < |s.threads| {
      InvCanStep(s, e.t);
      if e.Step? {
        StepKeeps(s, e.t);
      } else if s.threads[e.t].Idle? {
        CallKeeps(s, e.t);
      }
    }
  }

  lemma CallKeeps(s: State, t: nat)
    requires Inv(s) && t < |s.threads| && s.threads[t].Idle?
    ensures Inv(At(s, t, MainLoad))
  {
    hide Tables, Values, Drawn, Made;
    assert LocalInv(s.tables, s.hashes[t], s.tickets, s.producers, t, s.threads[t]);
    KeepLocal(s, t, MainLoad);
  }

  lemma StepKeeps(s: State, t: nat)
    requires Inv(s) && t < |s.threads| && CanStep(s, t)
    ensures Inv(Advance(s, t))
  {
    hide Inv, Advance, LocalInv, AllShaped, Shaped;
    var l := s.threads[t];
    if l.Idle? || l.MainLoad? || l.Probe? {
      SearchKeeps(s, t);
    } else if l.AgainProbe? || l.AgainCas? || l.AgainStore? {
      AddAgainKeeps(s, t);
    } else if l.AddProbe? || l.AddCas? || l.AddStore? {
      AddKeeps(s, t);
    } else {
      RegisterKeeps(s, t);
    }
  }

  lemma SearchKeeps(s: State, t: nat)
    requires Inv(s) && t < |s.threads| && CanStep(s, t)
    requires s.threads[t].Idle? || s.threads[t].MainLoad? || s.threads[t].Probe?
    ensures Inv(Advance(s, t))
  {
    hide Tables, Values, Drawn, Made;
    if s.threads[t].Idle? {
      assert Advance(s, t) == s;
    } else {
      var l := Advance(s, t).threads[t];
      assert LocalInv(s.tables, s.hashes[t], s.tickets, s.producers, t, s.threads[t]);
      if s.threads[t].MainLoad? {
        assert Passed(s.tables[|s.tables| - 1], s.hashes[t], t, 0);
        assert LocalInv(s.tables, s.hashes[t], s.tickets, s.producers, t, l);
      } else {
        ProbeFinds(s, t);
      }
      KeepLocal(s, t, l);
      assert Advance(s, t) == At(s, t, l);
    }
  }

  lemma AddAgainKeeps(s: State, t: nat)
    requires Inv(s) && t < |s.threads| && CanStep(s, t)
    requires s.threads[t].AgainProbe? || s.threads[t].AgainCas? || s.threads[t].AgainStore?
    ensures Inv(Advance(s, t))
  {
    hide Tables, Values, Drawn, Made, Adding, Added;
    var l, l' := s.threads[t], Advance(s, t).threads[t];
    var m, j, v := l.main, l.j, l.value;
    assert LocalInv(s.tables, s.hashes[t], s.tickets, s.producers, t, l);
    if l.AgainStore? {
      StoringKnows(s, t, m, j, v);
      KeepSetValue(s, t, m, j, v);
    } else if KeyAt(s, t, m, j) != None {
      AddingProbe(s, t, m, j, v);
      KeepLocal(s, t, l');
    } else if l.AgainProbe? {
      KeepLocal(s, t, l');
    } else {
      KeepSetKey(s, t, m, j, v, AgainStore(m, j, v));
    }
  }

  lemma AddKeeps(s: State, t: nat)
    requires Inv(s) && t < |s.threads| && CanStep(s, t)
    requires s.threads[t].AddProbe? || s.threads[t].AddCas? || s.threads[t].AddStore?
    ensures Inv(Advance(s, t))
  {
    hide Tables, Values, Drawn, Made, Adding, Added;
    var l, l' := s.threads[t], Advance(s, t).threads[t];
    var m, j, v := l.main, l.j, Some(l.producer);
    assert LocalInv(s.tables, s.hashes[t], s.tickets, s.producers, t, l);
    if l.AddStore? {
      StoringKnows(s, t, m, j, v);
      KeepSetValue(s, t, m, j, v);
    } else if KeyAt(s, t, m, j) != None {
      AddingProbe(s, t, m, j, v);
      KeepLocal(s, t, l');
    } else if l.AddProbe? {
      KeepLocal(s, t, l');
    } else {
      KeepSetKey(s, t, m, j, v, AddStore(m, j, l.producer));
    }
  }

  lemma StoringKnows(s: State, t: nat, m: nat, j: nat, v: Option<nat>)
    requires Inv(s) && t < |s.threads|
    requires s.threads[t] == AgainStore(m, j, v) || (v.Some? && s.threads[t] == AddStore(m, j, v.value))
    ensures Added(s.tables, s.hashes[t], s.producers, t, m, j, v) && t in s.producers
  {
    hide Tables, Values, Drawn, Made;
    assert LocalInv(s.tables, s.hashes[t], s.tickets, s.producers, t, s.threads[t]);
  }

  /** The steps between the first search and the entry of a new thread. */
  lemma RegisterKeeps(s: State, t: nat)
    requires Inv(s) && t < |s.threads| && CanStep(s, t)
    requires var l := s.threads[t];
             || l.CountAdd? || l.ResizeTest? || l.ResizeLoad? || l.Publish? || l.Unlock? || l.RoomTest? || l.Reload?
    ensures Inv(Advance(s, t))
  {
    hide Tables, Values, Drawn, Made, Absent;
    var l, l' := s.threads[t], Advance(s, t).threads[t];
    assert LocalInv(s.tables, s.hashes[t], s.tickets, s.producers, t, l);
    if l.CountAdd? {
      KeepCountAdd(s, t, l.main);
    } else if l.Publish? {
      KeepPublish(s, t, l.main, l.n);
    } else if l.RoomTest? && l'.AddProbe? {
      KeepRoomTest(s, t, l.main, l.n);
    } else if l.Unlock? {
      SumAtLeast(s.threads, t, Locks);
      KeepLock(s, t, l', false);
    } else if l.ResizeTest? && l'.ResizeLoad? {
      KeepLock(s, t, l', true);
    } else {
      KeepLocal(s, t, l');
    }
  }

  lemma StartInv(hashes: seq<nat>)
    ensures Inv(Start(hashes))
  {
    SumZero(Start(hashes).threads, Locks);
  }

  lemma {:induction false} EveryRunKeepsTheInvariant(hashes: seq<nat>, run: seq<Event>)
    ensures Inv(Exec(hashes, run)) && Exec(hashes, run).hashes == hashes
  {
    hide Inv, Next, Start;
    if run == [] {
      StartInv(hashes);
      StartHashes(hashes);
    } else {
      var s := Exec(hashes, run[..|run| - 1]);
      EveryRunKeepsTheInvariant(hashes, run[..|run| - 1]);
      NextKeeps(s, run[|run| - 1]);
    }
  }

  lemma StartHashes(hashes: seq<nat>)
    ensures Start(hashes).hashes == hashes
  {
  }

  // ---- What the hash guarantees ----

  function Taken(key: Option<nat>): int {
    Bit(key != None)
  }

  /** The number is the ticket of some thread in the table, less one. */
  ghost predicate TicketIn(keys: seq<Option<nat>>, tickets: map<nat, nat>, n: int) {
    exists p :: 0 <= p < |keys| && keys[p] != None && keys[p].value in tickets && tickets[keys[p].value] == n + 1
  }

  ghost predicate AllDifferent(keys: seq<Option<nat>>, tickets: map<nat, nat>) {
    && (forall p, q :: 0 <= p < q < |keys| && keys[p] != None ==> keys[p] != keys[q])
    && (forall t, u :: t in tickets && u in tickets && t != u ==> tickets[t] != tickets[u])
  }

  lemma TicketStays(keys: seq<Option<nat>>, tickets: map<nat, nat>, n: int)
    requires keys != [] && TicketIn(keys[..|keys| - 1], tickets, n)
    ensures TicketIn(keys, tickets, n)
    ensures AllDifferent(keys, tickets) && keys[|keys| - 1] != None && keys[|keys| - 1].value in tickets ==>
              tickets[keys[|keys| - 1].value] != n + 1
  {
    var front := keys[..|keys| - 1];
    var p :| 0 <= p < |front| && front[p] != None && front[p].value in tickets && tickets[front[p].value] == n + 1;
    assert keys[p] == front[p];
  }

  /** The tickets of the threads in a table, each less one. */
  lemma {:induction false} TicketsOf(keys: seq<Option<nat>>, tickets: map<nat, nat>, bound: nat)
    returns (drawn: seq<int>)
    requires forall p :: 0 <= p < |keys| && keys[p] != None ==>
               keys[p].value in tickets && 0 < tickets[keys[p].value] < bound
    ensures |drawn| == Sum(keys, Taken)
    ensures forall i :: 0 <= i < |drawn| ==> 0 <= drawn[i] < bound - 1 && TicketIn(keys, tickets, drawn[i])
    ensures AllDifferent(keys, tickets) ==> forall i, j :: 0 <= i < j < |drawn| ==> drawn[i] != drawn[j]
  {
    if keys == [] {
      drawn := [];
    } else {
      var n := |keys| - 1;
      assert forall p :: 0 <= p < n ==> keys[..n][p] == keys[p];
      assert AllDifferent(keys, tickets) ==> AllDifferent(keys[..n], tickets);
      var rest := TicketsOf(keys[..n], tickets, bound);
      hide AllDifferent;
      forall i | 0 <= i < |rest| ensures TicketIn(keys, tickets, rest[i]) {
        TicketStays(keys, tickets, rest[i]);
      }
      if keys[n] == None {
        drawn := rest;
      } else {
        var last: int := tickets[keys[n].value] - 1;
        drawn := rest + [last];
        assert TicketIn(keys, tickets, last);
        if AllDifferent(keys, tickets) {
          forall i | 0 <= i < |rest| ensures rest[i] != last {
            TicketStays(keys, tickets, rest[i]);
          }
        }
      }
    }
  }

  /** Every table of every run holds fewer keys than three quarters of its capacity, so every
      sequence of probes, of any thread in any table, meets an empty slot before that. */
  lemma EveryTableHasRoom(hashes: seq<nat>, run: seq<Event>, k: nat, hash: nat)
    requires k < |Exec(hashes, run).tables|
    ensures var tb := Exec(hashes, run).tables[k];
            && Shaped(tb) && Sum(tb.keys, Taken) < Limit(|tb.keys|)
            && exists j: nat :: j < Limit(|tb.keys|) && KeyIn(tb, hash, j) == None
  {
    EveryRunKeepsTheInvariant(hashes, run);
    var s := Exec(hashes, run);
    TableHasRoom(s.tables[k], s.hashes, s.tickets, s.producers, s.count, hash);
  }

  lemma TableHasRoom(tb: Table, hashes: seq<nat>, tickets: map<nat, nat>, producers: map<nat, nat>, count: nat,
                     hash: nat)
    requires TableInv(tb, hashes, tickets, producers) && Drawn(count, tickets)
    ensures Sum(tb.keys, Taken) < Limit(|tb.keys|)
    ensures exists j: nat :: j < Limit(|tb.keys|) && KeyIn(tb, hash, j) == None
  {
    var c := |tb.keys|;
    forall p | 0 <= p < c && tb.keys[p] != None
      ensures tb.keys[p].value in tickets && 0 < tickets[tb.keys[p].value] < Limit(c)
    {
      assert KeyOk(tb, hashes, tickets, producers, p);
    }
    var drawn := TicketsOf(tb.keys, tickets, Limit(c));
    Pigeonhole(drawn, Limit(c) - 1);
    if forall j: nat :: j < Limit(c) ==> KeyIn(tb, hash, j) != None {
      ProbesAreFew(tb, hashes, tickets, producers, count, hash, Limit(c));
    }
  }

  /** The table and the number of the probe that a thread is about to make. */
  function Probing(l: Local): Option<(nat, nat)> {
    match l
    case Probe(_, k, j) => Some((k, j))
    case AgainProbe(m, j, _) => Some((m, j))
    case AgainCas(m, j, _) => Some((m, j))
    case AddProbe(m, j, _) => Some((m, j))
    case AddCas(m, j, _) => Some((m, j))
    case _ => None
  }

  /** No probe loop of any thread, searching or adding, ever goes round as often as three quarters
      of the capacity of its table. */
  lemma EveryProbeLoopEnds(hashes: seq<nat>, run: seq<Event>, t: nat)
    requires t < |Exec(hashes, run).threads| && Probing(Exec(hashes, run).threads[t]).Some?
    ensures var s := Exec(hashes, run);
            var (k, j) := Probing(s.threads[t]).value;
            k < |s.tables| && j < Limit(|s.tables[k].keys|)
  {
    EveryRunKeepsTheInvariant(hashes, run);
    LoopIsShort(Exec(hashes, run), t);
  }

  lemma LoopIsShort(s: State, t: nat)
    requires Inv(s) && t < |s.threads| && Probing(s.threads[t]).Some?
    ensures var (k, j) := Probing(s.threads[t]).value;
            k < |s.tables| && j < Limit(|s.tables[k].keys|)
  {
    hide Values, Made;
    var (k, j) := Probing(s.threads[t]).value;
    assert LocalInv(s.tables, s.hashes[t], s.tickets, s.producers, t, s.threads[t]);
    assert TableInv(s.tables[k], s.hashes, s.tickets, s.producers);
    ProbesAreFew(s.tables[k], s.hashes, s.tickets, s.producers, s.count, s.hashes[t], j);
  }

  /** Once a sub-queue was made for a thread it is never replaced. */
  lemma NextKeepsProducers(s: State, e: Event)
    requires Inv(s)
    ensures forall u :: u in s.producers ==> u in Next(s, e).producers && Next(s, e).producers[u] == s.producers[u]
    ensures |Next(s, e).threads| == |s.threads|
  {
    hide Inv, LocalInv, KeyAt, GrowTo, EmptyTable;
    if e.t < |s.threads| && s.threads[e.t].RoomTest? {
      RoomTestIsUnknown(s, e.t);
    }
  }

  lemma RoomTestIsUnknown(s: State, t: nat)
    requires Inv(s) && t < |s.threads| && s.threads[t].RoomTest?
    ensures t !in s.producers
  {
    hide Tables, Values, Drawn, Made;
    assert LocalInv(s.tables, s.hashes[t], s.tickets, s.producers, t, s.threads[t]);
  }

  lemma {:induction false} ProducersStay(hashes: seq<nat>, run: seq<Event>, more: seq<Event>)
    ensures var s, s' := Exec(hashes, run), Exec(hashes, run + more);
            && |s'.threads| == |s.threads|
            && forall u :: u in s.producers ==> u in s'.producers && s'.producers[u] == s.producers[u]
  {
    hide Next, Inv;
    if more == [] {
      assert run + more == run;
    } else {
      var n := |more| - 1;
      assert (run + more)[..|run + more| - 1] == run + more[..n];
      ProducersStay(hashes, run, more[..n]);
      EveryRunKeepsTheInvariant(hashes, run + more[..n]);
      NextKeepsProducers(Exec(hashes, run + more[..n]), more[n]);
    }
  }

  /** Whatever the other threads do in between: when one call of a thread returned a sub-queue,
      every later one that returns gives that same sub-queue. */
  lemma EveryCallReturnsTheSame(hashes: seq<nat>, run: seq<Event>, more: seq<Event>, t: nat, p: nat)
    requires t < |Exec(hashes, run).threads| && Exec(hashes, run).threads[t] == Idle(Some(p))
    ensures var s' := Exec(hashes, run + more);
            t < |s'.threads| && (s'.threads[t].Idle? ==> s'.threads[t].result == Some(p))
  {
    ProducersStay(hashes, run, more);
    EveryRunKeepsTheInvariant(hashes, run);
    EveryRunKeepsTheInvariant(hashes, run + more);
    IdleReturned(Exec(hashes, run), t);
    var s' := Exec(hashes, run + more);
    if s'.threads[t].Idle? {
      IdleReturned(s', t);
    }
  }

  lemma IdleReturned(s: State, t: nat)
    requires Inv(s) && t < |s.threads| && s.threads[t].Idle?
    ensures s.threads[t].result == if t in s.producers then Some(s.producers[t]) else None
  {
    hide Tables, Values, Drawn, Made;
    assert LocalInv(s.tables, s.hashes[t], s.tickets, s.producers, t, s.threads[t]);
  }

  /** No sub-queue is given to two threads, and none is made in vain: there are exactly as many
      as threads that got one. */
  lemma NoSubQueueIsShared(hashes: seq<nat>, run: seq<Event>, t: nat, u: nat)
    requires t < |Exec(hashes, run).threads| && u < |Exec(hashes, run).threads| && t != u
    requires Exec(hashes, run).threads[t].Idle? && Exec(hashes, run).threads[t].result.Some?
    requires Exec(hashes, run).threads[u].Idle?
    ensures Exec(hashes, run).threads[u].result != Exec(hashes, run).threads[t].result
    ensures Exec(hashes, run).made == |Exec(hashes, run).producers|
  {
    EveryRunKeepsTheInvariant(hashes, run);
    var s := Exec(hashes, run);
    IdleReturned(s, t);
    IdleReturned(s, u);
  }

  // ---- A call returns ----

  /** A step that returns gives the thread its sub-queue. */
  lemma ReturnsSome(s: State, t: nat)
    requires Inv(s) && t < |s.threads| && !s.threads[t].Idle? && CanStep(s, t)
    ensures Advance(s, t).threads[t].Idle? ==> Advance(s, t).threads[t].result.Some?
  {
    hide Tables, Values, Drawn, Made;
    var l := s.threads[t];
    assert LocalInv(s.tables, s.hashes[t], s.tickets, s.producers, t, l);
    if l.Probe? && KeyAt(s, t, l.table, l.j) == Some(t) {
      ProbeHit(s, t, l.main, l.table, l.j);
    }
  }

  /** Steps of one thread, undisturbed. */
  function Solo(s: State, t: nat, n: nat): State
    decreases n
  {
    if n == 0 then s else Solo(Next(s, Step(t)), t, n - 1)
  }

  function Slots(tables: seq<Table>): nat {
    if tables == [] then 0 else Slots(tables[..|tables| - 1]) + |tables[|tables| - 1].keys|
  }

  function CapacityOf(tables: seq<Table>, k: nat): nat {
    if k < |tables| then |tables[k].keys| else 0
  }

  /** The capacity that the last table would grow to for n threads. */
  function Grown(tables: seq<Table>, n: nat): nat {
    var c := CapacityOf(tables, |tables| - if tables == [] then 0 else 1);
    if c > 0 && c % 4 == 0 then GrowTo(2 * c, n) else 0
  }

  /** How many own steps an undisturbed thread is away from its return at most. */
  function StepsLeft(tables: seq<Table>, count: nat, l: Local): int {
    match l
    case Idle(_) => 0
    case AgainStore(_, _, _) => 1
    case AddStore(_, _, _) => 1
    case AgainCas(m, j, _) => 2 * (CapacityOf(tables, m) - j)
    case AddCas(m, j, _) => 2 * (CapacityOf(tables, m) - j)
    case AgainProbe(m, j, _) => 2 * (CapacityOf(tables, m) - j) + 1
    case AddProbe(m, j, _) => 2 * (CapacityOf(tables, m) - j) + 1
    case RoomTest(m, _) => 2 * CapacityOf(tables, m) + 2
    case Unlock(m, _) => 2 * CapacityOf(tables, m) + 3
    case Publish(_, n) => 2 * Grown(tables, n) + 4
    case ResizeLoad(n) => 2 * Grown(tables, n) + 5
    case ResizeTest(_, n) => 2 * Grown(tables, n) + 6
    case Reload(n) => 2 * Grown(tables, n) + 7
    case CountAdd(_) => 2 * Grown(tables, count + 1) + 7
    case Probe(_, k, j) =>
      (if k < |tables| then Slots(tables[..k]) else 0) + CapacityOf(tables, k) - j + 2 * Grown(tables, count + 1) + 7
    case MainLoad => Slots(tables) + 2 * Grown(tables, count + 1) + 8
  }

  /** What a thread that runs alone finds: the table it loaded is still the current one, nobody else
      holds the resize flag, and after its own resizing there is room. */
  predicate Undisturbed(tables: seq<Table>, resizing: bool, l: Local) {
    && (resizing ==> Resizing(l))
    && (!l.Idle? && !l.MainLoad? && !l.ResizeLoad? && !l.Reload? ==> l.main == |tables| - 1)
    && (l.Unlock? || l.RoomTest? ==> l.n < CapacityOf(tables, l.main) / 2)
    && (l.Idle? ==> l.result.Some?)
    && !l.Reload?
  }

  /** The probe numbers are below the capacities. */
  predicate ProbesBelow(tables: seq<Table>, l: Local) {
    match l
    case Probe(_, k, j) => k < |tables| && j < |tables[k].keys|
    case AgainProbe(m, j, _) => m < |tables| && j < |tables[m].keys|
    case AgainCas(m, j, _) => m < |tables| && j < |tables[m].keys|
    case AddProbe(m, j, _) => m < |tables| && j < |tables[m].keys|
    case AddCas(m, j, _) => m < |tables| && j < |tables[m].keys|
    case _ => true
  }

  lemma InvProbesBelow(s: State, t: nat)
    requires Inv(s) && t < |s.threads|
    ensures ProbesBelow(s.tables, s.threads[t])
  {
    hide Tables, Values, Drawn, Made;
    assert LocalInv(s.tables, s.hashes[t], s.tickets, s.producers, t, s.threads[t]);
  }

  lemma SlotsBelow(tables: seq<Table>, k: nat)
    requires k < |tables|
    ensures Slots(tables[..k + 1]) == Slots(tables[..k]) + |tables[k].keys|
    ensures k + 1 == |tables| ==> Slots(tables) == Slots(tables[..k]) + |tables[k].keys|
  {
    assert tables[..k + 1][..k] == tables[..k];
    if k + 1 == |tables| {
      assert tables[..k + 1] == tables;
    }
  }

  ghost predicate Closer(s: State, s': State, t: nat)
    requires t < |s.threads| && t < |s'.threads|
  {
    && Undisturbed(s'.tables, s'.resizing, s'.threads[t])
    && StepsLeft(s'.tables, s'.count, s'.threads[t]) < StepsLeft(s.tables, s.count, s.threads[t])
  }

  lemma LoadingGoesOn(s: State, t: nat)
    requires CanStep(s, t) && Undisturbed(s.tables, s.resizing, s.threads[t]) && s.threads[t].MainLoad?
    ensures Closer(s, Advance(s, t), t)
  {
    hide Grown, GrowTo, KeyIn, Position, Slots;
    SlotsBelow(s.tables, |s.tables| - 1);
  }

  lemma ProbingGoesOn(s: State, t: nat)
    requires CanStep(s, t) && Undisturbed(s.tables, s.resizing, s.threads[t]) && ProbesBelow(s.tables, s.threads[t])
    requires s.threads[t].Probe?
    requires Advance(s, t).threads[t].Idle? ==> Advance(s, t).threads[t].result.Some?
    ensures Closer(s, Advance(s, t), t)
  {
    hide Grown, GrowTo, KeyIn, Position, Slots;
    ProbeIsCloser(s.tables, s.count, s.threads[t].main, s.threads[t].table, s.threads[t].j);
    hide StepsLeft;
  }

  /** Each way on from a probe is shorter. */
  lemma ProbeIsCloser(tables: seq<Table>, count: nat, m: nat, k: nat, j: nat)
    requires tables != [] && m == |tables| - 1 && Shaped(tables[m]) && k < |tables| && j < |tables[k].keys|
    ensures var left := StepsLeft(tables, count, Probe(m, k, j));
            && left > StepsLeft(tables, count, Probe(m, k, j + 1)) && left > StepsLeft(tables, count, CountAdd(m))
            && (forall r :: left > StepsLeft(tables, count, Idle(r)))
            && (forall v :: left > StepsLeft(tables, count, AgainProbe(m, 0, v)))
            && (k > 0 ==> left > StepsLeft(tables, count, Probe(m, k - 1, 0)))
  {
    GrownIsLarger(tables, count + 1);
    hide Grown, GrowTo;
    if k > 0 {
      SlotsBelow(tables, k - 1);
    }
  }

  lemma AddingGoesOn(s: State, t: nat)
    requires CanStep(s, t) && Undisturbed(s.tables, s.resizing, s.threads[t]) && ProbesBelow(s.tables, s.threads[t])
    requires var l := s.threads[t]; l.AgainProbe? || l.AgainCas? || l.AddProbe? || l.AddCas?
    ensures Closer(s, Advance(s, t), t)
  {
    hide Grown, Position;
  }

  lemma StoringGoesOn(s: State, t: nat)
    requires CanStep(s, t) && Undisturbed(s.tables, s.resizing, s.threads[t])
    requires s.threads[t].AgainStore? || s.threads[t].AddStore?
    requires Advance(s, t).threads[t].Idle? ==> Advance(s, t).threads[t].result.Some?
    ensures Closer(s, Advance(s, t), t)
  {
    hide Grown, Position;
  }

  lemma CountingGoesOn(s: State, t: nat)
    requires CanStep(s, t) && Undisturbed(s.tables, s.resizing, s.threads[t]) && s.threads[t].CountAdd?
    ensures Closer(s, Advance(s, t), t)
  {
    hide Grown, GrowTo, KeyIn, Position, Slots;
  }

  lemma TestingGoesOn(s: State, t: nat)
    requires CanStep(s, t) && Undisturbed(s.tables, s.resizing, s.threads[t]) && s.threads[t].ResizeTest?
    ensures Closer(s, Advance(s, t), t)
  {
    GrownIsLarger(s.tables, s.threads[t].n);
    hide Grown, GrowTo, KeyIn, Position, Slots;
  }

  lemma EnteringGoesOn(s: State, t: nat)
    requires CanStep(s, t) && Undisturbed(s.tables, s.resizing, s.threads[t])
    requires s.threads[t].Unlock? || s.threads[t].RoomTest?
    ensures Closer(s, Advance(s, t), t)
  {
    hide Grown, GrowTo, KeyIn, Position, Slots;
  }

  lemma GrownIsLarger(tables: seq<Table>, n: nat)
    requires tables != [] && Shaped(tables[|tables| - 1])
    ensures Grown(tables, n) >= 2 * |tables[|tables| - 1].keys|
    ensures Grown(tables, n) == GrowTo(2 * |tables[|tables| - 1].keys|, n)
  {
    hide GrowTo;
  }

  lemma ResizingGoesOn(s: State, t: nat)
    requires CanStep(s, t) && Undisturbed(s.tables, s.resizing, s.threads[t])
    requires s.threads[t].ResizeLoad? || s.threads[t].Publish?
    ensures Closer(s, Advance(s, t), t)
  {
    GrownIsLarger(s.tables, s.threads[t].n);
    hide KeyIn, Position, Grown, GrowTo;
  }

  lemma GoesOn(s: State, t: nat)
    requires Inv(s) && CanStep(s, t) && !s.threads[t].Idle? && Undisturbed(s.tables, s.resizing, s.threads[t])
    ensures Closer(s, Advance(s, t), t)
  {
    InvProbesBelow(s, t);
    ReturnsSome(s, t);
    var l := s.threads[t];
    hide Inv, Advance, Closer;
    if l.MainLoad? {
      LoadingGoesOn(s, t);
    } else if l.Probe? {
      ProbingGoesOn(s, t);
    } else if l.AgainProbe? || l.AgainCas? || l.AddProbe? || l.AddCas? {
      AddingGoesOn(s, t);
    } else if l.AgainStore? || l.AddStore? {
      StoringGoesOn(s, t);
    } else if l.ResizeLoad? || l.Publish? {
      ResizingGoesOn(s, t);
    } else if l.CountAdd? {
      CountingGoesOn(s, t);
    } else if l.ResizeTest? {
      TestingGoesOn(s, t);
    } else {
      EnteringGoesOn(s, t);
    }
  }

  lemma StepsLeftNotNegative(tables: seq<Table>, count: nat, l: Local)
    requires ProbesBelow(tables, l)
    ensures StepsLeft(tables, count, l) >= 0
    ensures !l.Idle? ==> StepsLeft(tables, count, l) > 0
  {
  }

  lemma {:induction false} SoloReturns(s: State, t: nat, n: nat)
    requires Inv(s) && t < |s.threads| && Undisturbed(s.tables, s.resizing, s.threads[t])
    requires StepsLeft(s.tables, s.count, s.threads[t]) <= n
    ensures var s' := Solo(s, t, n); t < |s'.threads| && s'.threads[t].Idle? && s'.threads[t].result.Some?
    decreases n
  {
    hide Inv, CanStep, Advance, Next, ProbesBelow;
    InvProbesBelow(s, t);
    StepsLeftNotNegative(s.tables, s.count, s.threads[t]);
    if n > 0 {
      SoloGoesOn(s, t);
      hide Undisturbed, StepsLeft;
      SoloReturns(Next(s, Step(t)), t, n - 1);
    }
  }

  lemma SoloGoesOn(s: State, t: nat)
    requires Inv(s) && t < |s.threads| && Undisturbed(s.tables, s.resizing, s.threads[t])
    ensures var s' := Next(s, Step(t));
            && Inv(s') && Undisturbed(s'.tables, s'.resizing, s'.threads[t])
            && (if s.threads[t].Idle? then s' == s
                else StepsLeft(s'.tables, s'.count, s'.threads[t]) < StepsLeft(s.tables, s.count, s.threads[t]))
  {
    hide Inv, Advance, Undisturbed, StepsLeft;
    NextKeeps(s, Step(t));
    InvCanStep(s, t);
    hide CanStep;
    if s.threads[t].Idle? {
      IdleStays(s, t);
    } else {
      GoesOn(s, t);
    }
  }

  lemma IdleStays(s: State, t: nat)
    requires CanStep(s, t) && s.threads[t].Idle?
    ensures Next(s, Step(t)) == s
  {
  }

  /** After every run in which nobody is resizing, a call that nobody disturbs returns the thread's
      sub-queue within this many steps, however many tables there are and whether or not the table has
      to grow. */
  lemma UndisturbedCallReturns(hashes: seq<nat>, run: seq<Event>, t: nat)
    requires t < |Exec(hashes, run).threads| && Exec(hashes, run).threads[t].Idle? && !Exec(hashes, run).resizing
    ensures var s := Exec(hashes, run);
            var s' := Solo(Next(s, Call(t)), t, Slots(s.tables) + 2 * Grown(s.tables, s.count + 1) + 8);
            t < |s'.threads| && s'.threads[t].Idle? && s'.threads[t].result.Some?
  {
    hide Inv, Next, Grown, Slots, Solo, Exec, Undisturbed, StepsLeft;
    EveryRunKeepsTheInvariant(hashes, run);
    var s := Exec(hashes, run);
    NextKeeps(s, Call(t));
    CallIsUndisturbed(s, t);
    SoloReturns(Next(s, Call(t)), t, Slots(s.tables) + 2 * Grown(s.tables, s.count + 1) + 8);
  }

  lemma CallIsUndisturbed(s: State, t: nat)
    requires t < |s.threads| && s.threads[t].Idle? && !s.resizing
    ensures var s' := Next(s, Call(t));
            && Undisturbed(s'.tables, s'.resizing, s'.threads[t])
            && StepsLeft(s'.tables, s'.count, s'.threads[t]) == Slots(s.tables) + 2 * Grown(s.tables, s.count + 1) + 8
  {
    hide Grown, Slots;
  }

  /** In every run, whatever the others do: a step that returns gives the thread its sub-queue. */
  lemma EveryReturnGivesASubQueue(hashes: seq<nat>, run: seq<Event>, t: nat)
    requires t < |Exec(hashes, run).threads| && !Exec(hashes, run).threads[t].Idle?
    ensures var s' := Next(Exec(hashes, run), Step(t));
            s'.threads[t].Idle? ==> s'.threads[t].result == (if t in s'.producers then Some(s'.producers[t]) else None)
                                    && s'.threads[t].result.Some?
  {
    EveryRunKeepsTheInvariant(hashes, run);
    var s := Exec(hashes, run);
    InvCanStep(s, t);
    ReturnsSome(s, t);
    NextKeeps(s, Step(t));
    hide Inv, Advance;
    if Next(s, Step(t)).threads[t].Idle? {
      IdleReturned(Next(s, Step(t)), t);
    }
  }

  // ---- The outer loop repeats only while another thread resizes ----

  /** Past the last resize test: there is, or will be, room for the thread. */
  predicate Through(tables: seq<Table>, l: Local) {
    match l
    case ResizeLoad(_) => true
    case Publish(m, _) => m < |tables|
    case Unlock(m, n) => m < |tables| && n < Limit(|tables[m].keys|)
    case RoomTest(m, n) => m < |tables| && n < Limit(|tables[m].keys|)
    case AddProbe(_, _, _) => true
    case AddCas(_, _, _) => true
    case AddStore(_, _, _) => true
    case Idle(_) => true
    case _ => false
  }

  /** Tables stay where they are and keep their capacities. */
  predicate SameCapacities(tables: seq<Table>, tables': seq<Table>) {
    && |tables| <= |tables'|
    && forall k :: 0 <= k < |tables| ==> |tables'[k].keys| == |tables[k].keys|
  }

  predicate Writes(l: Local) {
    l.AgainCas? || l.AddCas? || l.AgainStore? || l.AddStore?
  }

  lemma WritingKeepsCapacities(s: State, t: nat)
    requires CanStep(s, t) && Writes(s.threads[t])
    ensures SameCapacities(s.tables, Advance(s, t).tables) && |Advance(s, t).tables| == |s.tables|
    ensures Advance(s, t).threads == s.threads[t := Advance(s, t).threads[t]] && Advance(s, t).count == s.count
    ensures !Advance(s, t).threads[t].Publish?
  {
    hide Advance;
    WritingKeepsKeys(s, t);
  }

  predicate Looks(l: Local) {
    l.Idle? || l.MainLoad? || l.Probe? || l.AgainProbe? || l.AddProbe?
  }

  /** The other steps but the publication move on, leave the tables alone, and count one thread at most. */
  predicate Moved(s: State, s': State, t: nat)
    requires t < |s.threads|
  {
    && s'.tables == s.tables && s'.count == s.count + Bit(s.threads[t].CountAdd?)
    && |s'.threads| == |s.threads| && s'.threads == s.threads[t := s'.threads[t]]
    && (s'.threads[t].Publish? ==> s.threads[t].ResizeLoad?)
    && (s'.threads[t].Idle? ==> s.threads[t].Idle? || s.threads[t].Probe?)
  }

  lemma LooksKeepTables(s: State, t: nat)
    requires CanStep(s, t) && Looks(s.threads[t])
    ensures Moved(s, Advance(s, t), t)
  {
    hide Position, KeyIn, Shaped, GrowTo;
  }

  lemma RegisteringKeepsTables(s: State, t: nat)
    requires CanStep(s, t) && !Looks(s.threads[t]) && !Writes(s.threads[t]) && !s.threads[t].Publish?
    ensures Moved(s, Advance(s, t), t)
  {
    hide Position, KeyIn, Shaped, GrowTo;
  }

  lemma OthersKeepTables(s: State, t: nat)
    requires CanStep(s, t) && !Writes(s.threads[t]) && !s.threads[t].Publish?
    ensures Moved(s, Advance(s, t), t)
  {
    hide Advance, Moved;
    if Looks(s.threads[t]) {
      LooksKeepTables(s, t);
    } else {
      RegisteringKeepsTables(s, t);
    }
  }

  lemma CapacitiesStay(s: State, t: nat)
    requires CanStep(s, t)
    ensures SameCapacities(s.tables, Advance(s, t).tables)
    ensures Advance(s, t).threads == s.threads[t := Advance(s, t).threads[t]]
  {
    if Writes(s.threads[t]) {
      WritingKeepsCapacities(s, t);
    } else if !s.threads[t].Publish? {
      OthersKeepTables(s, t);
      hide Advance;
    } else {
      hide Position, KeyIn, GrowTo;
    }
  }

  lemma ThroughStep(s: State, t: nat)
    requires CanStep(s, t) && Through(s.tables, s.threads[t])
    ensures Through(Advance(s, t).tables, Advance(s, t).threads[t])
  {
    if Writes(s.threads[t]) {
      WritingGoesThrough(s, t);
    } else if s.threads[t].Publish? {
      PublishGoesThrough(s, t);
    } else {
      MovingGoesThrough(s, t);
    }
    hide Advance, Through;
  }

  lemma WritingGoesThrough(s: State, t: nat)
    requires CanStep(s, t) && Through(s.tables, s.threads[t]) && Writes(s.threads[t])
    ensures Through(Advance(s, t).tables, Advance(s, t).threads[t])
  {
    hide Position, KeyIn, Limit;
  }

  lemma PublishGoesThrough(s: State, t: nat)
    requires CanStep(s, t) && s.threads[t].Publish?
    ensures Through(Advance(s, t).tables, Advance(s, t).threads[t])
  {
    hide Position, KeyIn;
  }

  lemma MovingGoesThrough(s: State, t: nat)
    requires CanStep(s, t) && Through(s.tables, s.threads[t]) && !Writes(s.threads[t]) && !s.threads[t].Publish?
    ensures Through(Advance(s, t).tables, Advance(s, t).threads[t])
  {
    if s.threads[t].ResizeLoad? {
      hide Position, KeyIn, GrowTo;
    } else {
      EnteringGoesThrough(s, t);
      hide Advance, Through;
    }
  }

  lemma EnteringGoesThrough(s: State, t: nat)
    requires CanStep(s, t) && Through(s.tables, s.threads[t]) && !Writes(s.threads[t]) && !s.threads[t].Publish?
    requires !s.threads[t].ResizeLoad?
    ensures Through(Advance(s, t).tables, Advance(s, t).threads[t])
  {
    hide Position, KeyIn, GrowTo, Shaped;
  }

  lemma ThroughNext(s: State, e: Event, t: nat)
    requires Inv(s) && t < |s.threads| && Through(s.tables, s.threads[t]) && e != Call(t)
    ensures Through(Next(s, e).tables, Next(s, e).threads[t])
  {
    if e.t < |s.threads| {
      InvCanStep(s, e.t);
      hide Inv;
      if e.Step? {
        ThroughStepOf(s, e.t, t);
      }
    }
  }

  lemma ThroughStepOf(s: State, u: nat, t: nat)
    requires CanStep(s, u) && t < |s.threads| && Through(s.tables, s.threads[t])
    ensures Through(Advance(s, u).tables, Advance(s, u).threads[t])
  {
    hide Advance, CanStep;
    if u == t {
      ThroughStep(s, t);
    } else {
      CapacitiesStay(s, u);
    }
  }

  lemma {:induction false} StaysThrough(hashes: seq<nat>, run: seq<Event>, more: seq<Event>, t: nat)
    requires t < |Exec(hashes, run).threads| && Through(Exec(hashes, run).tables, Exec(hashes, run).threads[t])
    requires Call(t) !in more
    ensures var s := Exec(hashes, run + more); t < |s.threads| && Through(s.tables, s.threads[t])
  {
    hide Inv, Next, Through, Start;
    if more == [] {
      assert run + more == run;
    } else {
      var n := |more| - 1;
      assert (run + more)[..|run + more| - 1] == run + more[..n];
      StaysThrough(hashes, run, more[..n], t);
      EveryRunKeepsTheInvariant(hashes, run + more[..n]);
      ThroughNext(Exec(hashes, run + more[..n]), more[n], t);
    }
  }

  /** A resize test that finds the flag free, or room left in its table, is the last one of its call,
      whatever the other threads do: the outer loop goes round again only if another thread held the
      flag at that test and the table was full. */
  lemma RepeatsOnlyWhileOthersResize(hashes: seq<nat>, run: seq<Event>, more: seq<Event>, t: nat)
    requires t < |Exec(hashes, run).threads| && Exec(hashes, run).threads[t].ResizeTest? && Call(t) !in more
    requires var s := Exec(hashes, run);
             !s.resizing
             || (s.threads[t].main < |s.tables| && s.threads[t].n < Limit(|s.tables[s.threads[t].main].keys|))
    ensures var s := Exec(hashes, run + [Step(t)] + more);
            t < |s.threads| && !s.threads[t].Reload? && !s.threads[t].ResizeTest?
  {
    EveryRunKeepsTheInvariant(hashes, run);
    var s := Exec(hashes, run);
    InvCanStep(s, t);
    hide Inv;
    assert (run + [Step(t)])[..|run|] == run;
    assert Through(Next(s, Step(t)).tables, Next(s, Step(t)).threads[t]);
    hide Next, Through;
    StaysThrough(hashes, run + [Step(t)], more, t);
  }

  // ---- A call brings the thread into a current table ----

  ghost predicate InNew(tables: seq<Table>, t: nat, oldest: nat) {
    exists k :: oldest <= k < |tables| && Present(tables[k], t)
  }

  /** Since the table numbered `oldest` became current, the call loaded only that one or newer ones. */
  ghost predicate Fresh(tables: seq<Table>, l: Local, t: nat, oldest: nat) {
    match l
    case Idle(_) => InNew(tables, t, oldest)
    case MainLoad => oldest < |tables|
    case ResizeLoad(_) => oldest < |tables|
    case Reload(_) => oldest < |tables|
    case _ => oldest <= l.main < |tables|
  }

  predicate KeysStay(tables: seq<Table>, tables': seq<Table>) {
    && |tables| <= |tables'|
    && forall k :: 0 <= k < |tables| ==>
         && |tables'[k].keys| == |tables[k].keys|
         && forall p :: 0 <= p < |tables[k].keys| && tables[k].keys[p] != None ==>
              tables'[k].keys[p] == tables[k].keys[p]
  }

  /** A step that writes a key or a value stays in its table, and returns only from a store. */
  ghost predicate Written(s: State, s': State, t: nat)
    requires t < |s.threads|
  {
    && KeysStay(s.tables, s'.tables) && |s'.tables| == |s.tables| && s'.count == s.count
    && |s'.threads| == |s.threads| && s'.threads == s.threads[t := s'.threads[t]]
    && (var l, l' := s.threads[t], s'.threads[t];
        if l.AgainStore? || l.AddStore? then l'.Idle?
        else
          (l'.AgainProbe? || l'.AgainStore? || l'.AddProbe? || l'.AddStore?)
          && (l.AgainCas? || l.AddCas? ==> l'.main == l.main))
  }

  lemma CasKeepsKeys(s: State, t: nat)
    requires CanStep(s, t) && (s.threads[t].AgainCas? || s.threads[t].AddCas?)
    ensures Written(s, Advance(s, t), t)
  {
    hide Position;
  }

  lemma StoreKeepsKeys(s: State, t: nat)
    requires CanStep(s, t) && (s.threads[t].AgainStore? || s.threads[t].AddStore?)
    ensures Written(s, Advance(s, t), t)
  {
    hide Position, KeyIn;
  }

  lemma WritingKeepsKeys(s: State, t: nat)
    requires CanStep(s, t) && Writes(s.threads[t])
    ensures Written(s, Advance(s, t), t)
  {
    hide Advance, Written;
    if s.threads[t].AgainCas? || s.threads[t].AddCas? {
      CasKeepsKeys(s, t);
    } else {
      StoreKeepsKeys(s, t);
    }
  }

  lemma KeysOfAll(s: State, t: nat)
    requires CanStep(s, t)
    ensures KeysStay(s.tables, Advance(s, t).tables)
  {
    if Writes(s.threads[t]) {
      WritingKeepsKeys(s, t);
    } else if !s.threads[t].Publish? {
      OthersKeepTables(s, t);
      hide Advance;
    } else {
      hide Position, KeyIn, GrowTo;
    }
  }

  lemma InNewStays(tables: seq<Table>, tables': seq<Table>, t: nat, oldest: nat)
    requires KeysStay(tables, tables') && InNew(tables, t, oldest)
    ensures InNew(tables', t, oldest)
  {
    var k :| oldest <= k < |tables| && Present(tables[k], t);
    var p :| 0 <= p < |tables[k].keys| && tables[k].keys[p] == Some(t);
    assert tables'[k].keys[p] == Some(t);
  }

  /** A step that returns found the thread in the table it loaded, or put it there. */
  lemma ReturnedIsPresent(s: State, t: nat)
    requires Inv(s) && CanStep(s, t) && !s.threads[t].Idle? && Advance(s, t).threads[t].Idle?
    ensures s.threads[t].Probe? || s.threads[t].AgainStore? || s.threads[t].AddStore?
    ensures s.threads[t].main < |s.tables| && Present(s.tables[s.threads[t].main], t)
  {
    hide Inv;
    ReturnsFrom(s, t);
    hide Advance;
    ReturningKnows(s, t);
    var tb := s.tables[s.threads[t].main];
    assert tb.keys[Position(s.hashes[t], s.threads[t].j, |tb.keys|)] == Some(t);
  }

  lemma ReturnsFrom(s: State, t: nat)
    requires CanStep(s, t) && !s.threads[t].Idle? && Advance(s, t).threads[t].Idle?
    ensures var l := s.threads[t];
            || l.AgainStore? || l.AddStore?
            || (l.Probe? && l.table == l.main && KeyAt(s, t, l.main, l.j) == Some(t))
  {
    if Writes(s.threads[t]) {
      WritingKeepsKeys(s, t);
      hide Advance;
    } else if s.threads[t].Probe? {
      hide Position, GrowTo;
    } else if s.threads[t].Publish? {
      hide Position, GrowTo;
    } else {
      OthersKeepTables(s, t);
      hide Advance;
    }
  }

  lemma ReturningKnows(s: State, t: nat)
    requires Inv(s) && CanStep(s, t)
    requires var l := s.threads[t];
             || l.AgainStore? || l.AddStore?
             || (l.Probe? && l.table == l.main && KeyAt(s, t, l.main, l.j) == Some(t))
    ensures KeyAt(s, t, s.threads[t].main, s.threads[t].j) == Some(t)
  {
    hide Tables, Values, Drawn, Made;
    assert LocalInv(s.tables, s.hashes[t], s.tickets, s.producers, t, s.threads[t]);
  }

  lemma FreshStep(s: State, t: nat, oldest: nat)
    requires Inv(s) && CanStep(s, t) && !s.threads[t].Idle? && Fresh(s.tables, s.threads[t], t, oldest)
    ensures Fresh(Advance(s, t).tables, Advance(s, t).threads[t], t, oldest)
  {
    var l := s.threads[t];
    KeysOfAll(s, t);
    if Advance(s, t).threads[t].Idle? {
      ReturnedIsPresent(s, t);
      assert InNew(s.tables, t, oldest);
      InNewStays(s.tables, Advance(s, t).tables, t, oldest);
    } else if Writes(l) {
      WritingKeepsKeys(s, t);
      hide Advance, Inv, KeysStay;
    } else {
      hide Inv, KeysStay;
      MainStays(s, t, oldest);
    }
  }

  lemma MainStays(s: State, t: nat, oldest: nat)
    requires CanStep(s, t) && !Writes(s.threads[t]) && Fresh(s.tables, s.threads[t], t, oldest)
    requires !s.threads[t].Idle? && !Advance(s, t).threads[t].Idle?
    ensures Fresh(Advance(s, t).tables, Advance(s, t).threads[t], t, oldest)
  {
    if s.threads[t].Publish? {
      hide KeyIn, Position, GrowTo;
    } else {
      OthersKeepTables(s, t);
      MainOrLast(s, t);
      hide Advance;
    }
  }

  lemma MainOrLast(s: State, t: nat)
    requires CanStep(s, t) && !Writes(s.threads[t]) && !s.threads[t].Publish? && !s.threads[t].Idle?
    ensures var l, l' := s.threads[t], Advance(s, t).threads[t];
            l'.Idle? || l'.ResizeLoad? || l'.Reload? || (!l'.MainLoad? && (l'.main == |s.tables| - 1
              || (!l.MainLoad? && !l.ResizeLoad? && !l.Reload? && l'.main == l.main)))
  {
    hide KeyIn, Position, GrowTo, Shaped;
  }

  lemma FreshNext(s: State, e: Event, t: nat, oldest: nat)
    requires Inv(s) && t < |s.threads| && Fresh(s.tables, s.threads[t], t, oldest) && e != Call(t)
    ensures Fresh(Next(s, e).tables, Next(s, e).threads[t], t, oldest)
  {
    if e.Step? && e.t < |s.threads| {
      InvCanStep(s, e.t);
      hide Inv, CanStep, Advance, KeysStay, Fresh;
      if e.t != t {
        KeysOfAll(s, e.t);
        CapacitiesStay(s, e.t);
        FreshAfter(s.tables, Advance(s, e.t).tables, s.threads[t], t, oldest);
      } else if s.threads[t].Idle? {
        IdleStays(s, t);
      } else {
        FreshStep(s, t, oldest);
      }
    }
  }

  lemma FreshAfter(tables: seq<Table>, tables': seq<Table>, l: Local, t: nat, oldest: nat)
    requires KeysStay(tables, tables') && Fresh(tables, l, t, oldest)
    ensures Fresh(tables', l, t, oldest)
  {
    if l.Idle? {
      InNewStays(tables, tables', t, oldest);
    }
  }

  lemma {:induction false} LoadsFreshTables(hashes: seq<nat>, run: seq<Event>, more: seq<Event>, t: nat)
    requires t < |Exec(hashes, run).threads| && Exec(hashes, run).threads[t].MainLoad? && Call(t) !in more
    requires Exec(hashes, run).tables != []
    ensures var s := Exec(hashes, run + more);
            t < |s.threads| && Fresh(s.tables, s.threads[t], t, |Exec(hashes, run).tables| - 1)
  {
    hide Inv, Next, Start;
    if more == [] {
      assert run + more == run;
    } else {
      hide Fresh;
      var n := |more| - 1;
      assert (run + more)[..|run + more| - 1] == run + more[..n];
      LoadsFreshTables(hashes, run, more[..n], t);
      EveryRunKeepsTheInvariant(hashes, run + more[..n]);
      FreshNext(Exec(hashes, run + more[..n]), more[n], t, |Exec(hashes, run).tables| - 1);
    }
  }

  /** Whatever the others do: a call that has returned left the thread in the table that was current
      when the call began or in a newer one, so a thread found in an old table was added again. */
  lemma CallAddsAgain(hashes: seq<nat>, run: seq<Event>, more: seq<Event>, t: nat)
    requires t < |Exec(hashes, run).threads| && Exec(hashes, run).threads[t].Idle? && Call(t) !in more
    ensures var s, s' := Exec(hashes, run), Exec(hashes, run + [Call(t)] + more);
            && s.tables != [] && t < |s'.threads|
            && (s'.threads[t].Idle? ==> InNew(s'.tables, t, |s.tables| - 1))
  {
    EveryRunKeepsTheInvariant(hashes, run);
    assert (run + [Call(t)])[..|run|] == run;
    CallLoads(Exec(hashes, run), t);
    hide Inv, Next, InNew;
    LoadsFreshTables(hashes, run + [Call(t)], more, t);
  }

  lemma CallLoads(s: State, t: nat)
    requires Inv(s) && t < |s.threads| && s.threads[t].Idle?
    ensures s.tables != [] && Next(s, Call(t)).threads[t].MainLoad? && Next(s, Call(t)).tables == s.tables
  {
  }

  // ---- The tables grow only when they are half full ----

  lemma {:induction false} GrowToIsTight(capacity: nat, n: nat)
    requires capacity > 0 && capacity % 4 == 0 && capacity <= 4 * n
    ensures GrowTo(capacity, n) <= 4 * n
    decreases 4 * n - capacity
  {
    hide GrowTo;
    GrowToOnce(capacity, n);
    if n >= capacity / 2 {
      Doubled(capacity, n);
      GrowToIsTight(2 * capacity, n);
    }
  }

  lemma Doubled(capacity: nat, n: nat)
    requires capacity % 4 == 0 && capacity / 2 <= n
    ensures (2 * capacity) % 4 == 0 && 2 * capacity <= 4 * n
  {
  }

  /** One round of the resizing loop. */
  lemma GrowToOnce(capacity: nat, n: nat)
    requires capacity > 0 && capacity % 4 == 0
    ensures GrowTo(capacity, n) == if n >= capacity / 2 then GrowTo(2 * capacity, n) else capacity
  {
  }

  /** A thread publishes a table only when half of the current one's capacity was drawn, and no table
      but the first has more than four slots for each ticket drawn. */
  ghost predicate Tight(s: State) {
    && (forall k :: 1 <= k < |s.tables| ==> |s.tables[k].keys| <= 4 * s.count)
    && (forall t :: 0 <= t < |s.threads| && s.threads[t].Publish? ==>
          && s.threads[t].main < |s.tables|
          && |s.tables[s.threads[t].main].keys| / 2 <= s.threads[t].n <= s.count)
  }

  lemma TicketDrawn(s: State, t: nat)
    requires Inv(s) && t < |s.threads|
    ensures s.threads[t].ResizeLoad? || s.threads[t].Publish? ==> s.threads[t].n <= s.count
  {
    assert LocalInv(s.tables, s.hashes[t], s.tickets, s.producers, t, s.threads[t]);
  }

  lemma TightStep(s: State, t: nat)
    requires CanStep(s, t) && Tight(s)
    requires s.threads[t].ResizeLoad? || s.threads[t].Publish? ==> s.threads[t].n <= s.count
    ensures Tight(Advance(s, t))
  {
    var l := s.threads[t];
    if l.Publish? {
      TightPublish(s, t);
    } else if Writes(l) {
      WritingKeepsCapacities(s, t);
      hide Advance;
    } else {
      OthersKeepTables(s, t);
      if l.ResizeLoad? {
        PublishesAtHalf(s, t);
      }
      hide Advance;
    }
  }

  lemma PublishesAtHalf(s: State, t: nat)
    requires CanStep(s, t) && s.threads[t].ResizeLoad?
    ensures var n, last := s.threads[t].n, |s.tables| - 1;
            Advance(s, t) == At(s, t, if |s.tables[last].keys| / 2 <= n then Publish(last, n) else Unlock(last, n))
  {
    hide Position, KeyIn, GrowTo;
  }

  lemma TightPublish(s: State, t: nat)
    requires CanStep(s, t) && Tight(s) && s.threads[t].Publish?
    ensures Tight(Advance(s, t))
  {
    var l := s.threads[t];
    assert Shaped(s.tables[l.main]);
    GrowsTight(|s.tables[l.main].keys|, l.n);
    hide GrowTo, Position, KeyIn, Shaped;
  }

  lemma GrowsTight(capacity: nat, n: nat)
    requires capacity > 0 && capacity % 4 == 0 && capacity / 2 <= n
    ensures GrowTo(2 * capacity, n) <= 4 * n
  {
    hide GrowTo;
    Doubled(capacity, n);
    GrowToIsTight(2 * capacity, n);
  }

  lemma {:induction false} TablesAreSmall(hashes: seq<nat>, run: seq<Event>)
    ensures Tight(Exec(hashes, run))
  {
    if run != [] {
      var s, e := Exec(hashes, run[..|run| - 1]), run[|run| - 1];
      TablesAreSmall(hashes, run[..|run| - 1]);
      EveryRunKeepsTheInvariant(hashes, run[..|run| - 1]);
      if e.t < |s.threads| {
        InvCanStep(s, e.t);
        TicketDrawn(s, e.t);
        hide Inv, Advance;
        if e.Step? {
          TightStep(s, e.t);
        }
      }
    }
  }

  // ---- The loops, on the arrays of one table ----

  /** The resizing loop. */
  method NewCapacity(capacity: nat, n: nat) returns (c: nat)
    requires capacity > 0 && capacity % 4 == 0
    ensures c == GrowTo(2 * capacity, n) && c >= 2 * capacity && n < c / 2
  {
    c := 2 * capacity;
    ghost var goal := GrowTo(c, n);
    while n >= c / 2
      invariant c >= 2 * capacity && c % 4 == 0 && GrowTo(c, n) == goal
      decreases 2 * n + 2 - c
    {
      var larger := 2 * c;
      assert larger % 4 == 0 && GrowTo(c, n) == GrowTo(larger, n);
      c := larger;
    }
  }

  /** The search in one table. It ends, and finds the thread's value exactly when the thread is in
      the table. */
  method Search(keys: array<Option<nat>>, values: array<Option<nat>>, t: nat, ghost hashes: seq<nat>,
                hash: nat, ghost tickets: map<nat, nat>, ghost producers: map<nat, nat>, ghost count: nat)
    returns (found: bool, value: Option<nat>)
    requires keys.Length == values.Length && t < |hashes| && hash == hashes[t]
    requires TableInv(Table(keys[..], values[..]), hashes, tickets, producers) && Drawn(count, tickets)
    ensures found <==> Some(t) in keys[..]
    ensures found ==> exists p :: 0 <= p < keys.Length && keys[p] == Some(t) && value == values[p]
  {
    ghost var tb := Table(keys[..], values[..]);
    var index, j := hash % keys.Length, 0;
    while keys[index] != None && keys[index] != Some(t)
      invariant index == Position(hash, j, keys.Length) && Passed(tb, hash, t, j)
      decreases keys.Length - j
    {
      PassOne(tb, hashes, tickets, producers, count, hash, t, j);
      BlockIndex.ModMod(hash + j, 1, keys.Length);
      index, j := (index + 1) % keys.Length, j + 1;
    }
    found := keys[index] == Some(t);
    value := values[index];
    if !found {
      EmptySlotMeansAbsent(tb, hashes, tickets, producers, t, j);
    } else {
      assert keys[..][index] == Some(t);
    }
  }

  /** The insertion of a thread that is not in the table, in place: one empty slot becomes its key,
      which keeps the table's invariant. */
  method Insert(keys: array<Option<nat>>, values: array<Option<nat>>, t: nat, ghost hashes: seq<nat>,
                hash: nat, value: nat, ghost tickets: map<nat, nat>, ghost producers: map<nat, nat>, ghost count: nat)
    returns (index: nat)
    requires keys != values && keys.Length == values.Length && t < |hashes| && hash == hashes[t]
    requires TableInv(Table(keys[..], values[..]), hashes, tickets, producers) && Drawn(count, tickets)
    requires !Present(Table(keys[..], values[..]), t)
    requires t in tickets && t in producers && 0 < tickets[t] < Limit(keys.Length) && value == producers[t]
    modifies keys, values
    ensures index < keys.Length && old(keys[index]) == None
    ensures keys[..] == old(keys[..])[index := Some(t)] && values[..] == old(values[..])[index := Some(value)]
    ensures TableInv(Table(keys[..], old(values[..])), hashes, tickets, producers)
  {
    ghost var tb := Table(keys[..], values[..]);
    var j := 0;
    index := hash % keys.Length;
    while keys[index] != None
      invariant index == Position(hash, j, keys.Length) && Passed(tb, hash, t, j)
      invariant keys[..] == tb.keys && values[..] == tb.values
      decreases keys.Length - j
    {
      assert tb.keys[index] in tb.keys;
      PassOne(tb, hashes, tickets, producers, count, hash, t, j);
      BlockIndex.ModMod(hash + j, 1, keys.Length);
      index, j := (index + 1) % keys.Length, j + 1;
    }
    keys[index] := Some(t);
    values[index] := Some(value);
    assert keys[..] == tb.keys[index := Some(t)];
    SetKeyTable(tb, Table(keys[..], tb.values), hashes, tickets, producers, t, j);
  }
}

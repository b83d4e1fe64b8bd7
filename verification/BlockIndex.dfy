/** The circular block index of one sub-queue and how a dequeuer looks a block up in it.

    Blocks are numbered 0, 1, 2, ...; block k starts at index k * BLOCK_SIZE. One thread inserts
    and grows; any number of threads look up, each with whatever header it loaded, however old. */
module BlockIndex {
  import opened Threads
  import opened CircularIndex

  const BLOCK_SIZE: nat := 32
  const INITIAL_CAPACITY: nat := 32
  const INVALID_BLOCK_BASE: nat := 1
  /** How many blocks a 64-bit index can number. */
  const WORDS: nat := 0x800_0000_0000_0000

  datatype Entry = Entry(key: nat, value: Option<nat>)

  /** `shift` is bookkeeping: slot (shift + k) modulo the capacity is the one of block k. */
  datatype Header = Header(capacity: nat, tail: nat, slots: seq<nat>, shift: int)

  /** The entries are shared by all headers; the last header is the current one. `newest` is the
      last block whose key was written, `first` the oldest block the index had room for since it
      last grew, `pending` says that the newest key is written but the tail not yet moved. */
  datatype Index = Index(entries: seq<Entry>, headers: seq<Header>, newest: int, first: int, pending: bool) {
    predicate Shaped() {
      && headers != []
      && (forall h :: 0 <= h < |headers| ==> HeaderShaped(h))
    }

    predicate HeaderShaped(h: nat)
      requires h < |headers|
    {
      var hd := headers[h];
      && hd.capacity > 1 && |hd.slots| == hd.capacity && hd.tail < hd.capacity
      && (forall p :: 0 <= p < hd.capacity ==> hd.slots[p] < |entries|)
    }

    function Hd(h: nat): (hd: Header)
      requires Shaped() && h < |headers|
      ensures hd.capacity > 1 && |hd.slots| == hd.capacity && hd.tail < hd.capacity
      ensures forall p :: 0 <= p < hd.capacity ==> hd.slots[p] < |entries|
    {
      assert HeaderShaped(h);
      headers[h]
    }

    function Current(): (hd: Header)
      requires Shaped()
      ensures hd.capacity > 1 && |hd.slots| == hd.capacity && hd.tail < hd.capacity
      ensures forall p :: 0 <= p < hd.capacity ==> hd.slots[p] < |entries|
    {
      Hd(|headers| - 1)
    }

    /** The entry that header h has for block k. */
    function EntryFor(h: nat, k: int): nat
      requires Shaped() && h < |headers|
      ensures EntryFor(h, k) < |entries|
    {
      Hd(h).slots[(Hd(h).shift + k) % Hd(h).capacity]
    }

    /** The key now in the slot of block k. */
    function KeyFor(h: nat, k: int): nat
      requires Shaped() && h < |headers|
    {
      entries[EntryFor(h, k)].key
    }

    /** The slot after the tail. */
    function NextEntry(): nat
      requires Shaped()
      ensures NextEntry() < |entries|
    {
      Current().slots[(Current().tail + 1) % Current().capacity]
    }

    /** Whether the next slot is free. */
    predicate Reusable()
      requires Shaped()
    {
      entries[NextEntry()].key == INVALID_BLOCK_BASE || entries[NextEntry()].value.None?
    }

    /** Whether the next slot has been used before; then it may or may not be free. */
    predicate Keyed()
      requires Shaped()
    {
      entries[NextEntry()].key != INVALID_BLOCK_BASE
    }

    /** Whether the index can double once more; each capacity is a power of two. */
    predicate CanGrow()
      requires Shaped()
    {
      WORDS % (2 * Current().capacity) == 0
    }

    /** `get_block_index_index_for_index` for block k with a header and a tail position loaded before. */
    function Find(h: nat, tail: nat, k: nat): nat
      requires Shaped() && h < |headers| && tail < headers[h].capacity
      ensures Find(h, tail, k) < |entries|
    {
      var hd := Hd(h);
      hd.slots[(tail + Offset(BLOCK_SIZE * k, entries[hd.slots[tail]].key, BLOCK_SIZE, WORDS)) % hd.capacity]
    }
  }

  function Empty(): Index {
    Index(seq(INITIAL_CAPACITY, _ => Entry(INVALID_BLOCK_BASE, None)),
          [Header(INITIAL_CAPACITY, INITIAL_CAPACITY - 1, seq(INITIAL_CAPACITY, i => i), 0)],
          -1, 0, false)
  }

  /** Storing the key of the next block. */
  function WriteKey(ix: Index): Index
    requires ix.Shaped() && ix.newest >= -1
  {
    ix.(entries := ix.entries[ix.NextEntry() := ix.entries[ix.NextEntry()].(key := BLOCK_SIZE * (ix.newest + 1))],
        newest := ix.newest + 1, pending := true)
  }

  /** Storing the new tail. */
  function MoveTail(ix: Index): Index
    requires ix.Shaped()
  {
    var hd := ix.Current();
    ix.(headers := ix.headers[|ix.headers| - 1 := hd.(tail := (hd.tail + 1) % hd.capacity)], pending := false)
  }

  function SetValue(ix: Index, e: nat, value: Option<nat>): Index
    requires e < |ix.entries|
  {
    ix.(entries := ix.entries[e := ix.entries[e].(value := value)])
  }

  /** The slots of a header twice as large: the old ones from the oldest block to the newest, then
      fresh ones. */
  function GrownSlots(hd: Header, base: nat): seq<nat>
    requires hd.capacity > 0 && |hd.slots| == hd.capacity && hd.tail < hd.capacity
  {
    seq(2 * hd.capacity, i requires 0 <= i < 2 * hd.capacity =>
      if i < hd.capacity then hd.slots[(hd.tail + 1 + i) % hd.capacity] else base + (i - hd.capacity))
  }

  /** `new_block_index`: publishing a header twice as large. */
  function Grow(ix: Index): Index
    requires ix.Shaped()
  {
    var hd := ix.Current();
    var c := hd.capacity;
    ix.(entries := ix.entries + seq(c, _ => Entry(INVALID_BLOCK_BASE, None)),
        headers := ix.headers + [Header(2 * c, c - 1, GrownSlots(hd, |ix.entries|), c - 1 - ix.newest)],
        first := ix.newest - c + 1)
  }

  // ---- Invariant ----

  /** The current header: its slots are distinct, the last `capacity` block numbers have the slots
      after each other, and each slot holds its block's key or, before its first use, no key. */
  ghost predicate Window(ix: Index)
    requires ix.Shaped()
  {
    var h := |ix.headers| - 1;
    var hd := ix.Current();
    && (forall p, q :: 0 <= p < q < hd.capacity ==> hd.slots[p] != hd.slots[q])
    && hd.tail == (hd.shift + ix.newest - Bit(ix.pending)) % hd.capacity
    && -1 <= ix.newest && 0 <= ix.first <= ix.newest + 1
    && (ix.pending ==> ix.first <= ix.newest)
    && (forall m :: ix.newest - hd.capacity < m <= ix.newest ==>
          ix.KeyFor(h, m) == if m >= ix.first then BLOCK_SIZE * m else INVALID_BLOCK_BASE)
  }

  /** Header h, old or current: a key in one of its slots is the key of a block that belongs there. */
  ghost predicate Congruent(ix: Index, h: nat)
    requires ix.Shaped() && h < |ix.headers|
  {
    var hd := ix.Hd(h);
    && WORDS % hd.capacity == 0 && ix.Current().capacity % hd.capacity == 0
    && (forall p :: 0 <= p < hd.capacity && ix.entries[hd.slots[p]].key != INVALID_BLOCK_BASE ==>
          (ix.entries[hd.slots[p]].key / BLOCK_SIZE + hd.shift) % hd.capacity == p)
    && (h < |ix.headers| - 1 ==>
          forall p :: 0 <= p < hd.capacity ==> ix.entries[hd.slots[p]].key != INVALID_BLOCK_BASE)
  }

  ghost predicate Keys(ix: Index) {
    && (forall e :: 0 <= e < |ix.entries| && ix.entries[e].key != INVALID_BLOCK_BASE ==>
          ix.entries[e].key % BLOCK_SIZE == 0 && ix.entries[e].key <= BLOCK_SIZE * ix.newest)
    && (forall e, f :: 0 <= e < f < |ix.entries| && ix.entries[e].key != INVALID_BLOCK_BASE ==>
          ix.entries[e].key != ix.entries[f].key)
  }

  /** A live block has a slot in the current header, and every entry with its key points to it. */
  ghost predicate Holds(ix: Index, live: map<int, nat>)
    requires ix.Shaped()
  {
    && (forall k :: k in live ==>
          ix.first <= k && ix.newest - ix.Current().capacity < k <= ix.newest - Bit(ix.pending))
    && (forall k, e :: k in live && 0 <= e < |ix.entries| && ix.entries[e].key == BLOCK_SIZE * k ==>
          ix.entries[e].value == Some(live[k]))
  }

  ghost predicate IndexInv(ix: Index, live: map<int, nat>) {
    && ix.Shaped()
    && Window(ix)
    && (forall h :: 0 <= h < |ix.headers| ==> Congruent(ix, h))
    && Keys(ix)
    && Holds(ix, live)
  }

  lemma EmptyInv()
    ensures IndexInv(Empty(), map[])
  {
    var ix := Empty();
    assert ix.HeaderShaped(0);
    assert WORDS % 32 == 0;
  }

  lemma ModMod(x: int, y: int, c: int)
    requires c > 0
    ensures (x % c + y) % c == (x + y) % c
  {
    assert x == c * (x / c) + x % c;
    ModShift(x % c + y, c, x / c);
  }

  /** Two numbers less than c apart have different remainders. */
  lemma ModApart(x: int, y: int, c: int)
    requires c > 0 && x < y < x + c
    ensures x % c != y % c
  {
    if x % c == y % c {
      var q := y / c - x / c;
      assert y - x == c * q by {
        assert x == c * (x / c) + x % c && y == c * (y / c) + y % c;
        assert c * q == c * (y / c) - c * (x / c);
      }
      if q >= 1 {
        MulAtLeast(c, q);
      } else {
        assert c * q <= 0 by {
          if q < 0 {
            assert c * -q == -(c * q);
            MulAtLeast(c, -q);
          }
        }
      }
    }
  }

  /** The next slot is the one of the next block, and of the oldest block in the window. */
  lemma NextEntryIsForNext(ix: Index)
    requires ix.Shaped() && Window(ix) && !ix.pending
    ensures ix.NextEntry() == ix.EntryFor(|ix.headers| - 1, ix.newest + 1)
    ensures ix.NextEntry() == ix.EntryFor(|ix.headers| - 1, ix.newest + 1 - ix.Current().capacity)
  {
    var hd := ix.Current();
    ModMod(hd.shift + ix.newest, 1, hd.capacity);
    ModShift(hd.shift + ix.newest + 1, hd.capacity, -1);
  }

  // ---- Lookups ----

  /** A tail position that a dequeuer read is usable as long as its slot has a key. */
  predicate TailUsable(ix: Index, h: nat, tail: nat)
    requires ix.Shaped() && h < |ix.headers|
  {
    tail < ix.Hd(h).capacity && ix.entries[ix.Hd(h).slots[tail]].key != INVALID_BLOCK_BASE
  }

  /** Header h has block k in the block's slot. */
  predicate Covers(ix: Index, h: nat, k: int)
    requires ix.Shaped() && h < |ix.headers|
  {
    ix.KeyFor(h, k) == BLOCK_SIZE * k
  }

  /** Whatever tail position was read and whatever key its slot holds by now, the computed slot is
      the one that the header has for the block. */
  lemma FindSelectsTheSlot(ix: Index, live: map<int, nat>, h: nat, tail: nat, k: nat)
    requires IndexInv(ix, live) && h < |ix.headers| && TailUsable(ix, h, tail)
    ensures ix.Find(h, tail, k) == ix.EntryFor(h, k)
  {
    assert Congruent(ix, h);
    var hd := ix.Hd(h);
    var e := hd.slots[tail];
    var m := ix.entries[e].key / BLOCK_SIZE;
    assert ix.entries[e].key == BLOCK_SIZE * m;
    SlotOfBlock(tail, k, m, BLOCK_SIZE, WORDS, hd.capacity);
    ModMod(m + hd.shift, k - m, hd.capacity);
  }

  /** The lookup of a live block is exact: key and block are the ones looked for. */
  lemma FindIsExact(ix: Index, live: map<int, nat>, h: nat, tail: nat, k: nat)
    requires IndexInv(ix, live) && h < |ix.headers| && TailUsable(ix, h, tail)
    requires k in live && Covers(ix, h, k)
    ensures ix.entries[ix.Find(h, tail, k)] == Entry(BLOCK_SIZE * k, Some(live[k]))
  {
    FindSelectsTheSlot(ix, live, h, tail, k);
  }

  /** A live block is found through the current header with the current tail. */
  lemma CurrentCoversLive(ix: Index, live: map<int, nat>, k: nat)
    requires IndexInv(ix, live) && k in live
    ensures Covers(ix, |ix.headers| - 1, k)
    ensures TailUsable(ix, |ix.headers| - 1, ix.Current().tail)
  {
    CurrentIsExact(ix, k);
    var n := ix.newest - Bit(ix.pending);
    CurrentIsExact(ix, n);
  }

  /** The window, said of one block: it has its slot, and the tail is the slot of the newest one. */
  lemma CurrentIsExact(ix: Index, k: int)
    requires ix.Shaped() && Window(ix) && ix.first <= k
    requires ix.newest - ix.Current().capacity < k <= ix.newest - Bit(ix.pending)
    ensures Covers(ix, |ix.headers| - 1, k)
    ensures k == ix.newest - Bit(ix.pending) ==> TailUsable(ix, |ix.headers| - 1, ix.Current().tail)
  {
    var h := |ix.headers| - 1;
    assert ix.KeyFor(h, k) == BLOCK_SIZE * k;
    assert k == ix.newest - Bit(ix.pending) ==> ix.EntryFor(h, k) == ix.Current().slots[ix.Current().tail];
  }

  /** The tail of any header that covers a live block has a key. */
  lemma AnyTailUsable(ix: Index, live: map<int, nat>, h: nat, k: nat)
    requires IndexInv(ix, live) && k in live && h < |ix.headers|
    ensures TailUsable(ix, h, ix.Hd(h).tail)
  {
    assert Congruent(ix, h);
    if h == |ix.headers| - 1 {
      CurrentCoversLive(ix, live, k);
    }
  }

  /** No step of the index writes over the key of a live block or takes a key away. */
  ghost predicate KeepsKeys(ix: Index, ix': Index, live: map<int, nat>)
    requires ix.Shaped() && ix'.Shaped()
  {
    && |ix'.headers| >= |ix.headers| && |ix'.entries| >= |ix.entries|
    && (forall h :: 0 <= h < |ix.headers| ==>
          && ix'.headers[h].slots == ix.headers[h].slots && ix'.headers[h].shift == ix.headers[h].shift
          && ix'.headers[h].capacity == ix.headers[h].capacity)
    && (forall e :: 0 <= e < |ix.entries| && ix.entries[e].key != INVALID_BLOCK_BASE ==>
          ix'.entries[e].key != INVALID_BLOCK_BASE)
    && (forall e, k :: 0 <= e < |ix.entries| && k in live && ix.entries[e].key == BLOCK_SIZE * k ==>
          ix'.entries[e].key == BLOCK_SIZE * k)
  }

  lemma LookupsStayValid(ix: Index, ix': Index, live: map<int, nat>, h: nat, tail: nat, k: int)
    requires ix.Shaped() && ix'.Shaped() && KeepsKeys(ix, ix', live) && h < |ix.headers| && k in live
    ensures Covers(ix, h, k) ==> Covers(ix', h, k)
    ensures TailUsable(ix, h, tail) ==> TailUsable(ix', h, tail)
  {
    assert ix'.Hd(h).slots == ix.Hd(h).slots;
    assert ix'.EntryFor(h, k) == ix.EntryFor(h, k);
  }

  // ---- Every step keeps the invariant ----

  lemma KeepMoveTail(ix: Index, live: map<int, nat>)
    requires IndexInv(ix, live) && ix.pending
    ensures IndexInv(MoveTail(ix), live) && KeepsKeys(ix, MoveTail(ix), live)
  {
    var ix' := MoveTail(ix);
    var hd := ix.Current();
    var last := |ix.headers| - 1;
    forall h | 0 <= h < |ix'.headers| ensures ix'.HeaderShaped(h) {
      assert ix.HeaderShaped(h);
    }
    MovedTailWindow(ix);
    forall h | 0 <= h < |ix'.headers| ensures Congruent(ix', h) {
      assert Congruent(ix, h);
      assert ix'.Hd(h).slots == ix.Hd(h).slots;
    }
  }

  lemma MovedTailWindow(ix: Index)
    requires ix.Shaped() && Window(ix) && ix.pending && MoveTail(ix).Shaped()
    ensures Window(MoveTail(ix))
  {
    var ix', hd, last := MoveTail(ix), ix.Current(), |ix.headers| - 1;
    ModMod(hd.shift + ix.newest - 1, 1, hd.capacity);
    forall m: int ensures ix'.KeyFor(last, m) == ix.KeyFor(last, m) {
      assert ix'.Hd(last).slots == ix.Hd(last).slots;
    }
  }

  lemma KeepSetValue(ix: Index, live: map<int, nat>, e: nat, value: Option<nat>, live': map<int, nat>)
    requires IndexInv(ix, live) && e < |ix.entries|
    requires SetValue(ix, e, value).Shaped() && Holds(SetValue(ix, e, value), live')
    ensures IndexInv(SetValue(ix, e, value), live') && KeepsKeys(ix, SetValue(ix, e, value), live)
  {
    var ix' := SetValue(ix, e, value);
    var last := |ix.headers| - 1;
    assert forall m :: ix'.KeyFor(last, m) == ix.KeyFor(last, m);
    forall h | 0 <= h < |ix'.headers| ensures Congruent(ix', h) {
      assert Congruent(ix, h);
      assert ix'.Hd(h).slots == ix.Hd(h).slots;
    }
  }

  /** Storing the block of the newest key makes the block live. */
  lemma KeepInsertValue(ix: Index, live: map<int, nat>, e: nat, block: nat)
    requires IndexInv(ix, live) && e < |ix.entries| && !ix.pending && ix.first <= ix.newest
    requires ix.entries[e].key == BLOCK_SIZE * ix.newest && ix.newest !in live
    ensures IndexInv(SetValue(ix, e, Some(block)), live[ix.newest := block])
    ensures KeepsKeys(ix, SetValue(ix, e, Some(block)), live)
  {
    var ix' := SetValue(ix, e, Some(block));
    var live' := live[ix.newest := block];
    forall h | 0 <= h < |ix'.headers| ensures ix'.HeaderShaped(h) {
      assert ix.HeaderShaped(h);
    }
    assert Holds(ix', live');
    KeepSetValue(ix, live, e, Some(block), live');
  }

  /** Clearing the block of a live key ends its life. */
  lemma KeepClearValue(ix: Index, live: map<int, nat>, e: nat, k: int)
    requires IndexInv(ix, live) && e < |ix.entries| && k in live && ix.entries[e].key == BLOCK_SIZE * k
    ensures IndexInv(SetValue(ix, e, None), live - {k})
    ensures KeepsKeys(ix, SetValue(ix, e, None), live)
  {
    var ix' := SetValue(ix, e, None);
    forall h | 0 <= h < |ix'.headers| ensures ix'.HeaderShaped(h) {
      assert ix.HeaderShaped(h);
    }
    assert Holds(ix', live - {k});
    KeepSetValue(ix, live, e, None, live - {k});
  }

  /** The entry that is overwritten has the key of the oldest block of the window, or none yet. */
  lemma OverwrittenKey(ix: Index)
    requires ix.Shaped() && Window(ix) && !ix.pending
    ensures var oldest := ix.newest + 1 - ix.Current().capacity;
            ix.entries[ix.NextEntry()].key ==
            if oldest >= ix.first then BLOCK_SIZE * oldest else INVALID_BLOCK_BASE
  {
    NextEntryIsForNext(ix);
    var oldest, last := ix.newest + 1 - ix.Current().capacity, |ix.headers| - 1;
    assert ix.KeyFor(last, oldest) == ix.entries[ix.NextEntry()].key;
  }

  /** An older header that shares the overwritten entry has it in a slot where the new key belongs
      too, because the two keys are one capacity of the current header apart. */
  lemma OverwrittenSlot(ix: Index, live: map<int, nat>, h: nat, p: nat)
    requires IndexInv(ix, live) && !ix.pending && h < |ix.headers| && p < ix.Hd(h).capacity
    requires ix.Hd(h).slots[p] == ix.NextEntry()
    ensures (ix.newest + 1 + ix.Hd(h).shift) % ix.Hd(h).capacity == p
  {
    assert Congruent(ix, h);
    var hd, cur := ix.Hd(h), ix.Current();
    NextEntryIsForNext(ix);
    OverwrittenKey(ix);
    if h == |ix.headers| - 1 {
      assert cur.slots[(cur.shift + (ix.newest + 1)) % cur.capacity] == cur.slots[p];
      assert ix.newest + 1 + hd.shift == cur.shift + (ix.newest + 1);
    } else {
      var oldest := ix.newest + 1 - cur.capacity;
      assert (oldest + hd.shift) % hd.capacity == p;
      var c := cur.capacity / hd.capacity;
      assert cur.capacity == hd.capacity * c;
      ModShift(oldest + hd.shift, hd.capacity, c);
    }
  }

  lemma WriteKeyCongruent(ix: Index, live: map<int, nat>, h: nat)
    requires IndexInv(ix, live) && !ix.pending && h < |ix.headers| && WriteKey(ix).Shaped()
    ensures Congruent(WriteKey(ix), h)
  {
    assert Congruent(ix, h);
    var ix', hd := WriteKey(ix), ix.Hd(h);
    assert ix'.Hd(h) == hd && ix'.Current() == ix.Current();
    forall p | 0 <= p < hd.capacity && ix'.entries[hd.slots[p]].key != INVALID_BLOCK_BASE
      ensures (ix'.entries[hd.slots[p]].key / BLOCK_SIZE + hd.shift) % hd.capacity == p
    {
      if hd.slots[p] == ix.NextEntry() {
        OverwrittenSlot(ix, live, h, p);
      }
    }
  }

  lemma WriteKeyWindow(ix: Index, live: map<int, nat>)
    requires IndexInv(ix, live) && !ix.pending && ix.Reusable()
    ensures WriteKey(ix).Shaped() && Window(WriteKey(ix))
  {
    var ix' := WriteKey(ix);
    forall h | 0 <= h < |ix'.headers| ensures ix'.HeaderShaped(h) {
      assert ix.HeaderShaped(h);
    }
    var cur, last := ix.Current(), |ix.headers| - 1;
    NextEntryIsForNext(ix);
    forall m | ix'.newest - cur.capacity < m <= ix'.newest
      ensures ix'.KeyFor(last, m) == if m >= ix'.first then BLOCK_SIZE * m else INVALID_BLOCK_BASE
    {
      if m < ix'.newest {
        OtherSlotsStay(ix, m);
      }
    }
  }

  /** The slots of the blocks still in the window are not the overwritten one. */
  lemma OtherSlotsStay(ix: Index, m: int)
    requires ix.Shaped() && Window(ix) && !ix.pending && WriteKey(ix).Shaped()
    requires ix.newest + 1 - ix.Current().capacity < m <= ix.newest
    ensures WriteKey(ix).KeyFor(|ix.headers| - 1, m) == ix.KeyFor(|ix.headers| - 1, m)
  {
    var cur := ix.Current();
    NextEntryIsForNext(ix);
    ModApart(cur.shift + m, cur.shift + ix.newest + 1, cur.capacity);
    var a, b := (cur.shift + m) % cur.capacity, (cur.shift + (ix.newest + 1)) % cur.capacity;
    assert cur.shift + (ix.newest + 1) == cur.shift + ix.newest + 1;
    assert cur.slots[a] != cur.slots[b];
    assert WriteKey(ix).Hd(|ix.headers| - 1) == cur;
  }

  lemma WriteKeyKeys(ix: Index, live: map<int, nat>)
    requires IndexInv(ix, live) && !ix.pending && ix.Reusable()
    requires WriteKey(ix).Shaped()
    ensures Keys(WriteKey(ix)) && Holds(WriteKey(ix), live) && KeepsKeys(ix, WriteKey(ix), live)
  {
    OverwrittenKey(ix);
    NewKeyIsDead(ix, live);
    hide Window, Congruent;
    NewKeyIsUnique(ix);
    NewKeyHolds(ix, live);
  }

  /** The block of a slot that may be reused is not live. */
  lemma NewKeyIsDead(ix: Index, live: map<int, nat>)
    requires ix.Shaped() && Holds(ix, live) && ix.Reusable()
    ensures forall k :: k in live ==> ix.entries[ix.NextEntry()].key != BLOCK_SIZE * k
  {
  }

  lemma NewKeyIsUnique(ix: Index)
    requires ix.Shaped() && Keys(ix) && ix.newest >= -1
    ensures Keys(WriteKey(ix))
  {
  }

  lemma NewKeyHolds(ix: Index, live: map<int, nat>)
    requires ix.Shaped() && ix.newest >= -1 && WriteKey(ix).Shaped() && Holds(ix, live) && !ix.pending
    requires ix.first <= ix.newest + 1
    requires forall k :: k in live ==> ix.entries[ix.NextEntry()].key != BLOCK_SIZE * k
    requires ix.newest + 1 - ix.Current().capacity !in live
    ensures Holds(WriteKey(ix), live) && KeepsKeys(ix, WriteKey(ix), live)
  {
    assert WriteKey(ix).Current() == ix.Current();
  }

  lemma KeepWriteKey(ix: Index, live: map<int, nat>)
    requires IndexInv(ix, live) && !ix.pending && ix.Reusable()
    ensures IndexInv(WriteKey(ix), live) && KeepsKeys(ix, WriteKey(ix), live)
    ensures WriteKey(ix).entries[ix.NextEntry()].key == BLOCK_SIZE * (ix.newest + 1)
  {
    WriteKeyWindow(ix, live);
    WriteKeyKeys(ix, live);
    forall h | 0 <= h < |ix.headers| ensures Congruent(WriteKey(ix), h) {
      WriteKeyCongruent(ix, live, h);
    }
  }

  /** A full index has a key in every slot. */
  lemma FullWindow(ix: Index)
    requires ix.Shaped() && Window(ix) && !ix.pending && ix.Keyed()
    ensures ix.first <= ix.newest + 1 - ix.Current().capacity
  {
    OverwrittenKey(ix);
  }

  /** The slot that the grown header has for a block of the old window. */
  lemma GrownSlotOf(ix: Index, m: int)
    requires ix.Shaped() && Window(ix) && !ix.pending && Grow(ix).Shaped()
    requires ix.newest - 2 * ix.Current().capacity < m <= ix.newest
    ensures var c := ix.Current().capacity;
            Grow(ix).EntryFor(|ix.headers|, m) ==
            if m > ix.newest - c then ix.EntryFor(|ix.headers| - 1, m)
            else |ix.entries| + c - 1 - ix.newest + m + c
  {
    var ix', hd := Grow(ix), ix.Current();
    var c := hd.capacity;
    var i := c - 1 - ix.newest + m;
    assert ix'.Hd(|ix.headers|) == Header(2 * c, c - 1, GrownSlots(hd, |ix.entries|), c - 1 - ix.newest);
    if m > ix.newest - c {
      ModUnique(i, 2 * c, 0, i);
      OldPosition(hd.shift, ix.newest, m, c);
    } else {
      ModUnique(i, 2 * c, -1, i + 2 * c);
    }
  }

  /** Counting on from the slot after the tail leads to the slot of block m again. */
  lemma OldPosition(shift: int, newest: int, m: int, c: nat)
    requires c > 0
    ensures ((shift + newest) % c + 1 + (c - 1 - newest + m)) % c == (shift + m) % c
  {
    ModMod(shift + newest, c - newest + m, c);
    assert shift + newest + (c - newest + m) == shift + m + c * 1;
    ModShift(shift + m, c, 1);
  }

  lemma GrowShaped(ix: Index)
    requires ix.Shaped()
    ensures Grow(ix).Shaped()
  {
    var ix', hd := Grow(ix), ix.Current();
    forall h | 0 <= h < |ix'.headers| ensures ix'.HeaderShaped(h) {
      if h < |ix.headers| {
        assert ix.HeaderShaped(h);
        assert ix'.headers[h] == ix.headers[h];
      }
    }
  }

  lemma GrownSlotsDistinct(hd: Header, base: nat)
    requires hd.capacity > 0 && |hd.slots| == hd.capacity && hd.tail < hd.capacity
    requires forall p, q :: 0 <= p < q < hd.capacity ==> hd.slots[p] != hd.slots[q]
    requires forall p :: 0 <= p < hd.capacity ==> hd.slots[p] < base
    ensures forall p, q :: 0 <= p < q < 2 * hd.capacity ==> GrownSlots(hd, base)[p] != GrownSlots(hd, base)[q]
  {
    forall p, q | 0 <= p < q < 2 * hd.capacity
      ensures GrownSlots(hd, base)[p] != GrownSlots(hd, base)[q]
    {
      if q < hd.capacity {
        ModApart(hd.tail + 1 + p, hd.tail + 1 + q, hd.capacity);
        var a, b := (hd.tail + 1 + p) % hd.capacity, (hd.tail + 1 + q) % hd.capacity;
        assert hd.slots[a] != hd.slots[b];
      } else if p < hd.capacity {
        assert hd.slots[(hd.tail + 1 + p) % hd.capacity] < base;
      }
    }
  }

  lemma GrowWindow(ix: Index, live: map<int, nat>)
    requires IndexInv(ix, live) && !ix.pending && ix.Keyed()
    ensures Grow(ix).Shaped() && Window(Grow(ix))
  {
    GrowShaped(ix);
    FullWindow(ix);
    var ix', hd, last := Grow(ix), ix.Current(), |ix.headers|;
    var c := hd.capacity;
    GrownSlotsDistinct(hd, |ix.entries|);
    ModUnique(c - 1, 2 * c, 0, c - 1);
    forall m | ix'.newest - 2 * c < m <= ix'.newest
      ensures ix'.KeyFor(last, m) == if m >= ix'.first then BLOCK_SIZE * m else INVALID_BLOCK_BASE
    {
      GrownSlotOf(ix, m);
      if m > ix.newest - c {
        assert ix.KeyFor(last - 1, m) == BLOCK_SIZE * m;
      }
    }
  }

  lemma GrowCongruent(ix: Index, live: map<int, nat>, h: nat)
    requires IndexInv(ix, live) && !ix.pending && ix.Keyed() && ix.CanGrow()
    requires h <= |ix.headers| && Grow(ix).Shaped() && Window(Grow(ix))
    ensures Congruent(Grow(ix), h)
  {
    var ix', cur, last := Grow(ix), ix.Current(), |ix.headers|;
    var c := cur.capacity;
    var hd := ix'.Hd(h);
    if h < last {
      OldCongruent(ix, live, h);
    } else {
      ModUnique(2 * c, 2 * c, 1, 0);
      forall p | 0 <= p < hd.capacity && ix'.entries[hd.slots[p]].key != INVALID_BLOCK_BASE
        ensures (ix'.entries[hd.slots[p]].key / BLOCK_SIZE + hd.shift) % hd.capacity == p
      {
        assert p < c;
        var m := p - c + 1 + ix.newest;
        ModUnique(p, 2 * c, 0, p);
        assert ix'.KeyFor(last, m) == ix'.entries[hd.slots[p]].key;
      }
    }
  }

  lemma TwiceDivides(c: nat, d: nat)
    requires d > 0 && c % d == 0
    ensures (2 * c) % d == 0
  {
    var k := c / d;
    assert c == d * k;
    assert 2 * c == d * (2 * k) by {
      assert d * (2 * k) == 2 * (d * k);
    }
    ModUnique(2 * c, d, 2 * k, 0);
  }

  /** The headers that are not current any more stay as they are. */
  lemma OldCongruent(ix: Index, live: map<int, nat>, h: nat)
    requires IndexInv(ix, live) && !ix.pending && ix.Keyed()
    requires h < |ix.headers| && Grow(ix).Shaped()
    ensures Congruent(Grow(ix), h)
  {
    var ix', hd := Grow(ix), ix.Hd(h);
    assert Congruent(ix, h);
    assert ix'.Hd(h) == hd && ix'.Current().capacity == 2 * ix.Current().capacity;
    TwiceDivides(ix.Current().capacity, hd.capacity);
    if h == |ix.headers| - 1 {
      FullWindow(ix);
      forall p | 0 <= p < hd.capacity ensures ix'.entries[hd.slots[p]].key != INVALID_BLOCK_BASE {
        SlotHasBlock(ix, p);
      }
    }
  }

  /** Every slot of the current header is the slot of a block of the window. */
  lemma SlotHasBlock(ix: Index, p: nat)
    requires ix.Shaped() && Window(ix) && p < ix.Current().capacity
    requires ix.first <= ix.newest + 1 - ix.Current().capacity
    ensures ix.entries[ix.Current().slots[p]].key != INVALID_BLOCK_BASE
  {
    var hd, last := ix.Current(), |ix.headers| - 1;
    var c := hd.capacity;
    var a := hd.shift + ix.newest;
    var m := ix.newest - (a - p) % c;
    var q := (a - p) / c;
    assert a - p == c * q + (a - p) % c;
    assert hd.shift + m == p + c * q;
    ModShift(p, c, q);
    ModUnique(p, c, 0, p);
    assert ix.KeyFor(last, m) == ix.entries[hd.slots[p]].key;
  }

  lemma KeepGrow(ix: Index, live: map<int, nat>)
    requires IndexInv(ix, live) && !ix.pending && ix.Keyed() && ix.CanGrow()
    ensures IndexInv(Grow(ix), live) && KeepsKeys(ix, Grow(ix), live)
    ensures !Grow(ix).Keyed()
  {
    GrowWindow(ix, live);
    var ix' := Grow(ix);
    forall h | 0 <= h < |ix'.headers| ensures Congruent(ix', h) {
      GrowCongruent(ix, live, h);
    }
    assert ix'.Current().slots[ix.Current().capacity] == |ix.entries|;
    ModUnique(ix.Current().capacity, 2 * ix.Current().capacity, 0, ix.Current().capacity);
  }

  // ---- When the index grows ----

  /** An entry with a block belongs to a live block: released entries are cleared. */
  ghost predicate Valued(ix: Index, live: map<int, nat>) {
    forall e :: 0 <= e < |ix.entries| && ix.entries[e].value.Some? ==>
      ix.entries[e].key != INVALID_BLOCK_BASE && ix.entries[e].key / BLOCK_SIZE in live
  }

  /** The next slot can be used again exactly when the block one capacity earlier is not live. */
  lemma ReusableExactly(ix: Index, live: map<int, nat>)
    requires IndexInv(ix, live) && Valued(ix, live) && !ix.pending
    ensures ix.Reusable() <==> ix.newest + 1 - ix.Current().capacity !in live
  {
    NextEntryIsForNext(ix);
    var k, e := ix.newest + 1 - ix.Current().capacity, ix.NextEntry();
    assert ix.KeyFor(|ix.headers| - 1, k) == if k >= ix.first then BLOCK_SIZE * k else INVALID_BLOCK_BASE;
    if k >= ix.first {
      assert ix.entries[e].key == BLOCK_SIZE * k;
    }
  }

  lemma WriteKeyKeepsValued(ix: Index, live: map<int, nat>)
    requires ix.Shaped() && ix.newest >= -1 && ix.Reusable() && Valued(ix, live)
    ensures Valued(WriteKey(ix), live)
  {
  }

  lemma MoveTailKeepsValued(ix: Index, live: map<int, nat>)
    requires ix.Shaped() && Valued(ix, live)
    ensures Valued(MoveTail(ix), live)
  {
  }

  lemma GrowKeepsValued(ix: Index, live: map<int, nat>)
    requires ix.Shaped() && Valued(ix, live)
    ensures Valued(Grow(ix), live)
  {
  }

  lemma InsertKeepsValued(ix: Index, live: map<int, nat>, e: nat, k: nat, block: nat)
    requires e < |ix.entries| && ix.entries[e].key == BLOCK_SIZE * k && Valued(ix, live)
    ensures Valued(SetValue(ix, e, Some(block)), live[k := block])
  {
  }

  lemma ReleaseKeepsValued(ix: Index, live: map<int, nat>, e: nat, k: int)
    requires e < |ix.entries| && ix.entries[e].key == BLOCK_SIZE * k && Keys(ix) && Valued(ix, live)
    ensures Valued(SetValue(ix, e, None), live - {k})
  {
    var ix', live' := SetValue(ix, e, None), live - {k};
    forall f | 0 <= f < |ix'.entries| && ix'.entries[f].value.Some?
      ensures ix'.entries[f].key != INVALID_BLOCK_BASE && ix'.entries[f].key / BLOCK_SIZE in live'
    {
      assert ix.entries[f].key % BLOCK_SIZE == 0 && ix.entries[f].key != ix.entries[e].key;
    }
  }

  /** The index can double exactly as long as the doubled capacity is at most the number of blocks. */
  lemma CanGrowExactly(ix: Index, live: map<int, nat>)
    requires IndexInv(ix, live)
    ensures ix.CanGrow() <==> 2 * ix.Current().capacity <= WORDS
  {
    assert Congruent(ix, |ix.headers| - 1);
    WordsArePow2();
    DoublesExactly(ix.Current().capacity, 59);
  }

  lemma WordsArePow2()
    ensures WORDS == Pow2(59)
  {
    assert Pow2(7) == 128;
    assert Pow2(14) == 16384 by {
      Pow2Sum(7, 7);
    }
    assert Pow2(28) == 0x1000_0000 by {
      Pow2Sum(14, 14);
    }
    assert Pow2(56) == 0x100_0000_0000_0000 by {
      Pow2Sum(28, 28);
    }
    Pow2Sum(3, 56);
    assert Pow2(3) == 8;
  }

  // ---- The copying loops ----

  /** Some slots from behind the tail on, round the old index. */
  function Round(slots: seq<nat>, tail: nat, n: nat): seq<nat>
    requires slots != []
  {
    seq(n, p => slots[(tail + 1 + p) % |slots|])
  }

  /** The first loop of `new_block_index`: one round, ending with the tail. */
  method CopyRound(slots: array<nat>, tail: nat, grown: array<nat>)
    requires 0 < slots.Length <= grown.Length && tail < slots.Length && slots != grown
    modifies grown
    ensures grown[..slots.Length] == Round(slots[..], tail, slots.Length)
  {
    var pos, i, again := tail, 0, true;
    while again
      invariant 0 <= i <= slots.Length && pos == (tail + i) % slots.Length && again == (i < slots.Length)
      invariant slots[..] == old(slots[..]) && grown[..i] == Round(slots[..], tail, i)
      decreases slots.Length - i
    {
      ModMod(tail + i, 1, slots.Length);
      pos := (pos + 1) % slots.Length;
      grown[i] := slots[pos];
      RoundStep(slots[..], tail, i);
      i := i + 1;
      OneRound(tail, i, slots.Length);
      again := pos != tail;
    }
  }

  lemma RoundStep(slots: seq<nat>, tail: nat, n: nat)
    requires slots != []
    ensures Round(slots, tail, n + 1) == Round(slots, tail, n) + [slots[(tail + n + 1) % |slots|]]
  {
  }

  /** What `new_block_index` builds, on arrays: the old slots one round from behind the tail, then
      the slots of the new entries. */
  method GrowSlots(slots: array<nat>, tail: nat, base: nat) returns (grown: array<nat>)
    requires slots.Length > 0 && tail < slots.Length
    ensures fresh(grown) && grown[..] == GrownSlots(Header(slots.Length, tail, slots[..], 0), base)
  {
    var capacity := slots.Length;
    grown := new nat[2 * capacity];
    CopyRound(slots, tail, grown);
    ghost var round := Round(slots[..], tail, capacity);
    var i := 0;
    while i != capacity
      invariant 0 <= i <= capacity && slots[..] == old(slots[..]) && grown[..capacity] == round
      invariant forall p :: capacity <= p < capacity + i ==> grown[p] == base + (p - capacity)
    {
      grown[capacity + i] := base + i;
      i := i + 1;
    }
    assert forall p :: 0 <= p < capacity ==> grown[p] == round[p];
  }

  /** The round ends after as many steps as there are slots. */
  lemma OneRound(tail: nat, i: nat, capacity: nat)
    requires tail < capacity && 1 <= i <= capacity
    ensures (tail + i) % capacity == tail <==> i == capacity
  {
    ModUnique(tail, capacity, 0, tail);
    if i < capacity {
      ModApart(tail, tail + i, capacity);
    } else {
      ModUnique(tail + capacity, capacity, 1, tail);
    }
  }
}

/** Wrap-around arithmetic of the queue's unsigned indices.

    Counters are unbounded here; a machine word holds a counter modulo 2 * half, where half is
    2^(w-1) for w-bit words. */
module CircularIndex {

  /** `circular_less_than` on two machine words. */
  predicate CircularLess(a: nat, b: nat, half: nat)
    requires half > 0
  {
    (a - b) % (2 * half) > half
  }

  lemma MulAtLeast(m: int, k: int)
    requires m > 0 && k >= 1
    ensures m * k >= m
  {
    assert m * k == m + m * (k - 1);
  }

  lemma ModUnique(x: int, m: int, q: int, r: int)
    requires m > 0 && x == m * q + r && 0 <= r < m
    ensures x % m == r && x / m == q
  {
    var q', r' := x / m, x % m;
    assert x == m * q' + r';
    var k := q' - q;
    assert m * k == r - r' by {
      assert m * k == m * q' - m * q;
    }
    if k >= 1 {
      MulAtLeast(m, k);
    } else if k <= -1 {
      assert m * -k == -(m * k);
      MulAtLeast(m, -k);
    }
  }

  lemma ModShift(x: int, m: int, k: int)
    requires m > 0
    ensures (x + m * k) % m == x % m
  {
    assert x + m * k == m * (x / m + k) + x % m by {
      assert m * (x / m + k) == m * (x / m) + m * k;
    }
    ModUnique(x + m * k, m, x / m + k, x % m);
  }

  /** Differences of words are differences of counters. */
  lemma WordDifference(x: int, y: int, m: int)
    requires m > 0
    ensures (x % m - y % m) % m == (x - y) % m
  {
    var k := y / m - x / m;
    assert x % m - y % m == (x - y) + m * k by {
      assert x == m * (x / m) + x % m && y == m * (y / m) + y % m;
      assert m * k == m * (y / m) - m * (x / m);
    }
    ModShift(x - y, m, k);
  }

  /** Exactly what the comparison of two words says about the two counters. */
  lemma CircularLessMeaning(x: nat, y: nat, half: nat)
    requires half > 0
    ensures CircularLess(x % (2 * half), y % (2 * half), half) <==> 0 < (y - x) % (2 * half) < half
  {
    var m := 2 * half;
    WordDifference(x, y, m);
    var r := (y - x) % m;
    var q := (y - x) / m;
    assert y - x == m * q + r;
    if r == 0 {
      assert x - y == m * (-q) + 0;
      ModUnique(x - y, m, -q, 0);
    } else {
      assert x - y == m * (-q - 1) + (m - r) by {
        assert m * (-q - 1) == -(m * q) - m;
      }
      ModUnique(x - y, m, -q - 1, m - r);
    }
  }

  /** The comparison agrees with the unbounded order while the true distance is below 2^(w-1). */
  lemma CircularLessIsLess(x: nat, y: nat, half: nat)
    requires half > 0 && x - y < half && y - x < half
    ensures CircularLess(x % (2 * half), y % (2 * half), half) <==> x < y
  {
    CircularLessMeaning(x, y, half);
    if y >= x {
      ModUnique(y - x, 2 * half, 0, y - x);
    } else {
      ModUnique(y - x, 2 * half, -1, 2 * half + (y - x));
    }
  }

  /** Beyond that distance it does not: a queue of exactly 2^(w-1) elements looks empty. */
  lemma CircularLessFailsAtHalf(x: nat, half: nat)
    requires half > 0
    ensures !CircularLess(x % (2 * half), (x + half) % (2 * half), half)
  {
    CircularLessMeaning(x, x + half, half);
    ModUnique(half, 2 * half, 0, half);
  }

  // ---- The fullness test of enqueue ----

  /** The two indices of a sub-queue. */
  datatype Indices = Indices(head: nat, tail: nat)

  datatype Move = Enqueue | Dequeue

  /** `enqueue` tests for room only when it starts a block, on machine words. */
  predicate HasRoom(i: Indices, block: nat, half: nat)
    requires half > 0 && block > 0
  {
    i.tail % block != 0 || CircularLess(i.head % (2 * half), (i.tail + block) % (2 * half), half)
  }

  function MoveIndices(i: Indices, e: Move, block: nat, half: nat): Indices
    requires half > 0 && block > 0
  {
    match e
    case Enqueue => if HasRoom(i, block, half) then i.(tail := i.tail + 1) else i
    case Dequeue => if i.head < i.tail then i.(head := i.head + 1) else i
  }

  function MoveAll(moves: seq<Move>, block: nat, half: nat): Indices
    requires half > 0 && block > 0
  {
    if moves == [] then Indices(0, 0)
    else MoveIndices(MoveAll(moves[..|moves| - 1], block, half), moves[|moves| - 1], block, half)
  }

  /** The end of the block that the tail is in. */
  function BlockEnd(tail: nat, block: nat): nat
    requires block > 0
  {
    if tail % block == 0 then tail else tail + (block - tail % block)
  }

  predicate InRange(i: Indices, block: nat, half: nat)
    requires block > 0
  {
    i.head <= i.tail && BlockEnd(i.tail, block) - i.head < half
  }

  lemma NextInBlock(tail: nat, block: nat)
    requires block > 0
    ensures BlockEnd(tail + 1, block) == if tail % block == 0 then tail + block else BlockEnd(tail, block)
  {
    var q, r := tail / block, tail % block;
    assert tail == block * q + r;
    if r + 1 < block {
      ModUnique(tail + 1, block, q, r + 1);
    } else {
      assert tail + 1 == block * (q + 1) + 0;
      ModUnique(tail + 1, block, q + 1, 0);
    }
  }

  /** The test admits a block exactly when the block's last slot stays within 2^(w-1) of the head. */
  lemma RoomMeansInRange(i: Indices, block: nat, half: nat)
    requires 0 < block <= half && InRange(i, block, half) && i.tail % block == 0
    ensures HasRoom(i, block, half) <==> i.tail + block - i.head < half
  {
    CircularLessMeaning(i.head, i.tail + block, half);
    ModUnique(i.tail + block - i.head, 2 * half, 0, i.tail + block - i.head);
  }

  /** In every run the indices stay so close that comparing their words compares the counters. */
  lemma {:induction false} IndicesStayInRange(moves: seq<Move>, block: nat, half: nat)
    requires 0 < block <= half
    ensures var i := MoveAll(moves, block, half);
            && InRange(i, block, half)
            && (CircularLess(i.head % (2 * half), i.tail % (2 * half), half) <==> i.head < i.tail)
            && !CircularLess(i.tail % (2 * half), i.head % (2 * half), half)
  {
    var i := MoveAll(moves, block, half);
    if moves != [] {
      var before := MoveAll(moves[..|moves| - 1], block, half);
      IndicesStayInRange(moves[..|moves| - 1], block, half);
      NextInBlock(before.tail, block);
      if before.tail % block == 0 {
        RoomMeansInRange(before, block, half);
      }
    } else {
      assert 0 % block == 0;
    }
    CircularLessIsLess(i.head, i.tail, half);
    CircularLessIsLess(i.tail, i.head, half);
  }

  // ---- The slot of a block in the circular block index ----

  /** Block offset as the source computes it: the word difference is converted to a signed value,
      but the divisor is unsigned, so the division is unsigned. */
  function Offset(index: int, tailBase: int, block: nat, words: nat): nat
    requires block > 0 && words > 0
  {
    var d := (index - tailBase) % (words * block);
    d / block
  }

  /** The offset a signed division would give, which is what the source's comment describes. */
  function SignedOffset(index: int, tailBase: int, block: nat, words: nat): int
    requires block > 0 && words > 0
  {
    var d := (index - tailBase) % (words * block);
    if 2 * d < words * block then d / block else -((words * block - d) / block)
  }

  lemma WordOfBases(i: int, j: int, block: nat, words: nat)
    requires block > 0 && words > 0
    ensures (block * i - block * j) % (words * block) == block * ((i - j) % words)
  {
    var d := i - j;
    var r := d % words;
    var q := d / words;
    assert d == words * q + r;
    assert block * i - block * j == block * d;
    assert block * d == (words * block) * q + block * r by {
      assert block * (words * q + r) == block * (words * q) + block * r;
      assert block * (words * q) == (words * block) * q;
    }
    assert block * r < words * block by {
      MulAtLeast(block, words - r);
      assert block * (words - r) == words * block - block * r;
    }
    assert 0 <= block * r;
    ModUnique(block * d, words * block, q, block * r);
  }

  /** For block bases, the unsigned division gives the block distance modulo the number of blocks
      that fit in a word. */
  lemma OffsetOfBases(i: int, j: int, block: nat, words: nat)
    requires block > 0 && words > 0
    ensures Offset(block * i, block * j, block, words) == (i - j) % words
  {
    WordOfBases(i, j, block, words);
    var r := (i - j) % words;
    ModUnique(block * r, block, r, 0);
  }

  /** So for every capacity that divides that number, in particular every power of two up to it,
      the slot is the one at the signed block distance from the tail, also across wrap-around. */
  lemma SlotOfBlock(tail: int, i: int, j: int, block: nat, words: nat, capacity: nat)
    requires block > 0 && words > 0 && capacity > 0 && words % capacity == 0
    ensures (tail + Offset(block * i, block * j, block, words)) % capacity == (tail + (i - j)) % capacity
  {
    OffsetOfBases(i, j, block, words);
    var d := i - j;
    var q, c := d / words, words / capacity;
    assert words == capacity * c;
    assert d == words * q + d % words;
    assert words * q == capacity * (c * q) by {
      assert (capacity * c) * q == capacity * (c * q);
    }
    ModShift(tail + d % words, capacity, c * q);
  }

  /** The signed reading in the source's comment selects the same slot. */
  lemma SignedOffsetSelectsTheSameSlot(tail: int, i: int, j: int, block: nat, words: nat, capacity: nat)
    requires block > 0 && words > 0 && capacity > 0 && words % capacity == 0
    ensures (tail + SignedOffset(block * i, block * j, block, words)) % capacity
         == (tail + Offset(block * i, block * j, block, words)) % capacity
  {
    OffsetOfBases(i, j, block, words);
    var r := (i - j) % words;
    var d := (block * i - block * j) % (words * block);
    assert d == block * r by {
      WordOfBases(i, j, block, words);
    }
    if 2 * d >= words * block {
      SignedDistance(r, block, words);
      var c := words / capacity;
      assert tail + (r - words) == tail + r + capacity * (-c) by {
        assert capacity * (-c) == -(capacity * c);
      }
      ModShift(tail + r, capacity, -c);
    }
  }

  lemma SignedDistance(r: nat, block: nat, words: nat)
    requires block > 0 && words > 0 && r < words
    ensures -((words * block - block * r) / block) == r - words
  {
    assert words * block - block * r == block * (words - r) + 0 by {
      assert block * (words - r) == block * words - block * r;
    }
    ModUnique(block * (words - r), block, words - r, 0);
  }

  function Pow2(n: nat): nat
    ensures Pow2(n) > 0
  {
    if n == 0 then 1 else 2 * Pow2(n - 1)
  }

  /** A power of two divides every larger one. */
  lemma {:induction false} Pow2Divides(m: nat, n: nat)
    requires m <= n
    ensures Pow2(n) % Pow2(m) == 0
  {
    if m == n {
      ModUnique(Pow2(n), Pow2(m), 1, 0);
    } else {
      Pow2Divides(m, n - 1);
      var c := Pow2(n - 1) / Pow2(m);
      assert Pow2(n - 1) == Pow2(m) * c;
      assert Pow2(n) == Pow2(m) * (2 * c) by {
        assert Pow2(m) * (2 * c) == 2 * (Pow2(m) * c);
      }
      ModUnique(Pow2(n), Pow2(m), 2 * c, 0);
    }
  }

  lemma {:induction false} Pow2Sum(m: nat, n: nat)
    ensures Pow2(m + n) == Pow2(m) * Pow2(n)
  {
    if m != 0 {
      Pow2Sum(m - 1, n);
    }
  }

  /** A divisor of a power of two is a power of two. */
  lemma {:induction false} DivisorOfPow2(c: nat, n: nat)
    requires c > 0 && Pow2(n) % c == 0
    ensures exists m: nat :: m <= n && c == Pow2(m)
  {
    var q := Pow2(n) / c;
    assert Pow2(n) == c * q;
    if n == 0 {
      if c > 1 {
        MulAtLeast(c, q);
      }
      assert c == Pow2(0);
    } else if q % 2 == 0 {
      assert Pow2(n - 1) == c * (q / 2);
      ModUnique(Pow2(n - 1), c, q / 2, 0);
      DivisorOfPow2(c, n - 1);
    } else {
      Halves(c, q, Pow2(n - 1));
      ModUnique(Pow2(n - 1), c / 2, q, 0);
      DivisorOfPow2(c / 2, n - 1);
      var m: nat :| m <= n - 1 && c / 2 == Pow2(m);
      assert c == Pow2(m + 1);
    }
  }

  lemma Halves(c: nat, q: nat, half: nat)
    requires c > 0 && c * q == 2 * half && q % 2 == 1
    ensures c % 2 == 0 && c / 2 > 0 && (c / 2) * q == half
  {
    var h := q / 2;
    assert c * q == 2 * (c * h) + c by {
      assert q == 2 * h + 1;
      assert c * (2 * h) == 2 * (c * h);
    }
    var d := c / 2;
    assert c == 2 * d;
    assert (2 * d) * q == 2 * (d * q);
  }

  lemma DivisorIsAtMost(d: nat, x: nat)
    requires d > 0 && x > 0 && x % d == 0
    ensures d <= x
  {
    if x < d {
      ModUnique(x, d, 0, x);
    }
  }

  /** A divisor of a power of two can be doubled exactly as long as that does not exceed it. */
  lemma DoublesExactly(c: nat, n: nat)
    requires c > 0 && Pow2(n) % c == 0
    ensures Pow2(n) % (2 * c) == 0 <==> 2 * c <= Pow2(n)
  {
    DivisorOfPow2(c, n);
    var m: nat :| m <= n && c == Pow2(m);
    if m < n {
      Pow2Divides(m + 1, n);
      assert 2 * c == Pow2(m + 1);
      hide Pow2;
      DivisorIsAtMost(2 * c, Pow2(n));
    } else {
      hide Pow2;
      ModUnique(c, 2 * c, 0, c);
    }
  }

  /** The statement for w-bit indices, blocks of 2^b elements and an index of 2^c slots. */
  lemma SlotOfBlockInWords(tail: int, i: int, j: int, w: nat, b: nat, c: nat)
    requires b + c <= w
    ensures Pow2(w - b) * Pow2(b) == Pow2(w)
    ensures (tail + Offset(Pow2(b) * i, Pow2(b) * j, Pow2(b), Pow2(w - b))) % Pow2(c)
         == (tail + (i - j)) % Pow2(c)
  {
    Pow2Sum(w - b, b);
    Pow2Divides(c, w - b);
    SlotOfBlock(tail, i, j, Pow2(b), Pow2(w - b), Pow2(c));
  }
}

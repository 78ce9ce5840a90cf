/** Flat addressing: a cell of (slot, head, position), or of (row, head, chunk), as one index. */
module Layout {

  /** The flat row of a slot, a head and a position. */
  function FlatRow(heads: nat, capacity: nat, slot: int, head: nat, position: nat): int {
    (slot * heads + head) * capacity + position
  }

  function SlotOf(heads: nat, capacity: nat, row: int): int
    requires heads > 0 && capacity > 0
  {
    row / capacity / heads
  }

  function HeadOf(heads: nat, capacity: nat, row: int): int
    requires heads > 0 && capacity > 0
  {
    row / capacity % heads
  }

  function PositionOf(capacity: nat, row: int): int
    requires capacity > 0
  {
    row % capacity
  }

  lemma DivMod(a: int, b: int, n: nat)
    requires 0 <= b < n
    ensures (a * n + b) / n == a && (a * n + b) % n == b
  {
    var q, r := (a * n + b) / n, (a * n + b) % n;
    assert (q - a) * n == b - r;
    if q > a {
      Scale(1, q - a, n);
    } else if q < a {
      Scale(q - a, -1, n);
    }
  }

  /** Every flat row belongs to one slot, one head and one position, and a slot's rows are its own. */
  lemma FlatRowInverts(heads: nat, capacity: nat, slot: int, head: nat, position: nat)
    requires head < heads && position < capacity
    ensures SlotOf(heads, capacity, FlatRow(heads, capacity, slot, head, position)) == slot
    ensures HeadOf(heads, capacity, FlatRow(heads, capacity, slot, head, position)) == head
    ensures PositionOf(capacity, FlatRow(heads, capacity, slot, head, position)) == position
  {
    DivMod(slot * heads + head, position, capacity);
    DivMod(slot, head, heads);
  }

  /** A slot's rows are the interval of the pool that starts at slot * heads * capacity, and no other slot's. */
  lemma FlatRowInside(heads: nat, capacity: nat, slots: nat, slot: int, head: nat, position: nat)
    requires 0 <= slot < slots && head < heads && position < capacity
    ensures slot * heads * capacity <= FlatRow(heads, capacity, slot, head, position) < (slot + 1) * heads * capacity
    ensures 0 <= FlatRow(heads, capacity, slot, head, position) < slots * heads * capacity
  {
    var chunk := slot * heads + head;
    assert chunk + 1 <= (slot + 1) * heads by { assert (slot + 1) * heads == slot * heads + heads; }
    Scale(chunk + 1, (slot + 1) * heads, capacity);
    Scale(slot * heads, chunk, capacity);
    Scale(slot + 1, slots, heads);
    Scale((slot + 1) * heads, slots * heads, capacity);
    assert (chunk + 1) * capacity == chunk * capacity + capacity;
    assert 0 <= slot * heads && 0 <= slot * heads * capacity;
  }

  lemma Scale(a: int, b: int, n: nat)
    requires a <= b
    ensures a * n <= b * n
  {
  }

  lemma DivRange(x: int, n: nat, k: nat)
    requires 0 <= x < n * k
    ensures k > 0 && 0 <= x / k < n && 0 <= x % k < k && x / k * k <= x
  {
    if k == 0 {
      assert false;
    }
    if x / k >= n {
      Scale(n, x / k, k);
      assert false;
    }
  }

  /** Every index of the flat array is the row of one slot, head and position. */
  lemma FlatRowOnto(heads: nat, capacity: nat, slots: nat, row: nat)
    requires row < slots * heads * capacity
    ensures heads > 0 && capacity > 0
    ensures 0 <= SlotOf(heads, capacity, row) < slots && 0 <= HeadOf(heads, capacity, row) < heads
    ensures 0 <= PositionOf(capacity, row) < capacity
  {
    DivRange(row, slots * heads, capacity);
    DivRange(row / capacity, slots, heads);
  }

  lemma PairInside(a: nat, n: nat, b: nat, k: nat)
    requires a < n && b < k
    ensures 0 <= a * k + b < n * k
  {
    Scale(a + 1, n, k);
    Scale(0, a, k);
    assert (a + 1) * k == a * k + k;
  }

  /** The warps of a launch that needs `n` of them: whole blocks of 256 threads. */
  function Grid(n: nat): (warps: nat)
    ensures n <= warps < n + 8
  {
    (n + 7) / 8 * 8
  }
}

/** The row kernels: matrix products whose every output cell has one fixed expression.

    Rounded operations are uninterpreted, so nothing may be reordered: two results are the same only if the same
    operations were applied to the same operands in the same order. One warp computes up to `rowsPerWarp` output rows
    for every activation row; its 32 lanes walk the depth in chunks and a shuffle tree joins them. */
module RowKernels {
  import opened Layout
  import opened Warp

  /** A float; the conversions from bfloat16 are exact and belong to the data. */
  type F(!new, ==)

  /** A 32-bit word of eight packed nibbles. */
  type Word(!new, ==)

  datatype Ops = Ops(
    zero: F,
    add: (F, F) -> F,
    mul: (F, F) -> F,
    fma: (F, F, F) -> F,
    nibble: (Word, nat) -> F,
    round: F -> F)

  /** The chain of fused multiply-adds over a chunk, from zero, in index order. */
  function Chain(ops: Ops, a: seq<F>, b: seq<F>): F
    requires |a| == |b|
  {
    if a == [] then ops.zero
    else
      var n := |a| - 1;
      ops.fma(a[n], b[n], Chain(ops, a[..n], b[..n]))
  }

  function Total(ops: Ops, a: seq<F>): F {
    if a == [] then ops.zero else ops.add(Total(ops, a[..|a| - 1]), a[|a| - 1])
  }

  /** What a lane has after `steps` of its chunks: `lane`, `lane + 32`, ... */
  function LaneSum(ops: Ops, terms: seq<F>, lane: nat, steps: nat): F
    requires steps == 0 || lane + 32 * (steps - 1) < |terms|
  {
    if steps == 0 then ops.zero else ops.add(LaneSum(ops, terms, lane, steps - 1), terms[lane + 32 * (steps - 1)])
  }

  /** How many of `chunks` chunks a lane has. */
  function Steps(lane: nat, chunks: nat): (steps: nat)
    ensures lane + 32 * steps >= chunks && (steps == 0 || lane + 32 * (steps - 1) < chunks)
  {
    if lane < chunks then (chunks - lane + 31) / 32 else 0
  }

  /** The one expression of an output cell: every lane's chain over its chunks, joined by the tree, rounded once. */
  function Cell(ops: Ops, terms: seq<F>): F {
    ops.round(Tree(ops.add,
      seq(LANES, lane requires 0 <= lane < LANES => LaneSum(ops, terms, lane, Steps(lane, |terms|)))))
  }

  /** What a chain is, step by step: index 0 first. */
  lemma ChainSteps(ops: Ops, a: seq<F>, b: seq<F>) returns (steps: seq<F>)
    requires |a| == |b|
    ensures |steps| == |a| + 1 && steps[0] == ops.zero && steps[|a|] == Chain(ops, a, b)
    ensures forall i :: 0 <= i < |a| ==> steps[i + 1] == ops.fma(a[i], b[i], steps[i])
  {
    steps := seq(|a| + 1, i requires 0 <= i <= |a| => Chain(ops, a[..i], b[..i]));
    forall i | 0 <= i < |a|
      ensures steps[i + 1] == ops.fma(a[i], b[i], steps[i])
    {
      assert a[..i + 1][..i] == a[..i] && b[..i + 1][..i] == b[..i];
    }
    assert a[..|a|] == a && b[..|b|] == b;
  }

  lemma TotalSteps(ops: Ops, a: seq<F>) returns (steps: seq<F>)
    ensures |steps| == |a| + 1 && steps[0] == ops.zero && steps[|a|] == Total(ops, a)
    ensures forall i :: 0 <= i < |a| ==> steps[i + 1] == ops.add(steps[i], a[i])
  {
    steps := seq(|a| + 1, i requires 0 <= i <= |a| => Total(ops, a[..i]));
    forall i | 0 <= i < |a|
      ensures steps[i + 1] == ops.add(steps[i], a[i])
    {
      assert a[..i + 1][..i] == a[..i];
    }
    assert a[..|a|] == a;
  }

  /** What a lane sums: chunks `lane`, `lane + 32`, ... in that order, as long as there are any. */
  lemma LaneSteps(ops: Ops, terms: seq<F>, lane: nat) returns (steps: seq<F>)
    ensures steps != [] && steps[0] == ops.zero
    ensures var n := |steps| - 1; n == Steps(lane, |terms|) && steps[n] == LaneSum(ops, terms, lane, n)
    ensures var n := |steps| - 1; lane + 32 * n >= |terms| && (n > 0 ==> lane + 32 * (n - 1) < |terms|)
    ensures forall s :: 0 <= s < |steps| - 1 ==>
              lane + 32 * s < |terms| && steps[s + 1] == ops.add(steps[s], terms[lane + 32 * s])
  {
    var n := Steps(lane, |terms|);
    hide Steps;
    steps := seq(n + 1, s requires 0 <= s <= n => LaneSum(ops, terms, lane, s));
    forall s | 0 <= s < n
      ensures lane + 32 * s < |terms| && steps[s + 1] == ops.add(steps[s], terms[lane + 32 * s])
    {
      LaneNext(ops, terms, lane, s);
    }
  }

  lemma LaneNext(ops: Ops, terms: seq<F>, lane: nat, s: nat)
    requires lane + 32 * s < |terms|
    ensures LaneSum(ops, terms, lane, s + 1) == ops.add(LaneSum(ops, terms, lane, s), terms[lane + 32 * s])
  {
  }

  /** What a cell is: the 32 lanes' sums of its terms, joined by the warp's tree and rounded once. */
  lemma CellLanes(ops: Ops, terms: seq<F>) returns (lanes: seq<F>)
    ensures |lanes| == LANES && Cell(ops, terms) == ops.round(Tree(ops.add, lanes))
    ensures forall lane :: 0 <= lane < LANES ==> lanes[lane] == LaneSum(ops, terms, lane, Steps(lane, |terms|))
  {
    lanes := seq(LANES, lane requires 0 <= lane < LANES => LaneSum(ops, terms, lane, Steps(lane, |terms|)));
  }

  /** An output buffer that remembers which cells were written. */
  class Output {
    const cells: array<F>
    ghost var written: set<int>

    constructor (n: nat, anything: F)
      ensures cells.Length == n && written == {} && fresh(cells)
    {
      cells := new F[n](_ => anything);
      written := {};
    }

    /** Nothing is written twice. */
    method Write(i: nat, value: F)
      requires i < cells.Length && i !in written
      modifies this, cells
      ensures written == old(written) + {i}
      ensures cells[i] == value && forall j :: 0 <= j < cells.Length && j != i ==> cells[j] == old(cells[j])
    {
      cells[i] := value;
      written := written + {i};
    }
  }

  /** The registers of a warp: `registers[lane][r][mo]`. */
  type Registers = seq<seq<seq<F>>>

  ghost predicate IsRegisters(registers: Registers, rows: nat, width: nat) {
    && |registers| == LANES
    && forall lane :: 0 <= lane < LANES ==> IsTile(registers[lane], rows, width)
  }

  ghost predicate IsTile(tile: seq<seq<F>>, rows: nat, width: nat) {
    |tile| == rows && forall r :: 0 <= r < rows ==> |tile[r]| == width
  }

  function Column(registers: Registers, r: nat, mo: nat): (column: seq<F>)
    requires forall lane :: 0 <= lane < |registers| ==> r < |registers[lane]| && mo < |registers[lane][r]|
    ensures |column| == |registers|
  {
    seq(|registers|, lane requires 0 <= lane < |registers| => registers[lane][r][mo])
  }

  /** The flat cell of an output row and an activation row, and back. */
  function CellAt(base: nat, n: nat, mo: nat, row: nat): (cell: nat)
    ensures cell == base + mo * n + row
  {
    base + mo * n + row
  }

  function RowIn(base: nat, n: nat, cell: int): int
    requires n > 0
  {
    (cell - base) % n
  }

  function InputIn(base: nat, n: nat, cell: int): int
    requires n > 0
  {
    (cell - base) / n
  }

  lemma CellInverts(base: nat, n: nat, width: nat, mo: nat, row: nat)
    requires row < n && mo < width
    ensures RowIn(base, n, CellAt(base, n, mo, row)) == row && InputIn(base, n, CellAt(base, n, mo, row)) == mo
    ensures base <= CellAt(base, n, mo, row) < base + width * n
  {
    DivMod(mo, row, n);
    Scale(mo + 1, width, n);
    Scale(0, mo, n);
    assert (mo + 1) * n == mo * n + n;
  }

  lemma CellOnto(base: nat, n: nat, width: nat, cell: int)
    requires 0 <= cell - base < width * n
    ensures n > 0 && 0 <= RowIn(base, n, cell) < n && 0 <= InputIn(base, n, cell) < width
    ensures cell == CellAt(base, n, InputIn(base, n, cell), RowIn(base, n, cell))
  {
    DivRange(cell - base, width, n);
    var q := (cell - base) / n;
    assert cell - base == n * q + (cell - base) % n;
    assert n * q == q * n;
  }

  /** The output cells of rows `row0 .. row0 + rows` for every activation row. */
  ghost predicate InTile(cell: int, base: nat, n: nat, width: nat, row0: nat, rows: nat) {
    n > 0 && 0 <= cell - base < width * n && row0 <= RowIn(base, n, cell) < row0 + rows
  }

  /** The cells among them that the warp writes before step `i`. */
  ghost predicate Before(cell: int, base: nat, n: nat, width: nat, row0: nat, i: nat) {
    && n > 0 && 0 <= cell - base < width * n && row0 <= RowIn(base, n, cell)
    && (RowIn(base, n, cell) - row0) * width + InputIn(base, n, cell) < i
  }

  lemma TileIsBefore(cell: int, base: nat, n: nat, width: nat, row0: nat, rows: nat)
    ensures InTile(cell, base, n, width, row0, rows) <==> Before(cell, base, n, width, row0, rows * width)
  {
    if n > 0 && 0 <= cell - base < width * n && row0 <= RowIn(base, n, cell) {
      CellOnto(base, n, width, cell);
      var r, mo := RowIn(base, n, cell) - row0, InputIn(base, n, cell);
      if r < rows {
        Scale(r + 1, rows, width);
        assert (r + 1) * width == r * width + width;
      } else {
        Scale(rows, r, width);
      }
    }
  }

  /** Step `i` of a warp's write loop adds one cell, or none when the row does not exist. */
  lemma StepAdds(cell: int, base: nat, n: nat, width: nat, row0: nat, i: nat)
    requires n > 0 && width > 0
    ensures Before(cell, base, n, width, row0, i + 1) <==>
              Before(cell, base, n, width, row0, i)
              || (row0 + i / width < n && cell == CellAt(base, n, i % width, row0 + i / width))
  {
    hide RowIn;
    hide InputIn;
    hide CellAt;
    DivIdentity(i, width);
    if 0 <= cell - base < width * n && row0 <= RowIn(base, n, cell) {
      CellOnto(base, n, width, cell);
      DivMod(RowIn(base, n, cell) - row0, InputIn(base, n, cell), width);
    }
    if row0 + i / width < n {
      CellInverts(base, n, width, i % width, row0 + i / width);
    }
  }

  /** Step `i`'s own cell is not among the cells before it. */
  lemma StepIsNew(base: nat, n: nat, width: nat, row0: nat, i: nat)
    requires n > 0 && width > 0 && row0 + i / width < n
    ensures !Before(CellAt(base, n, i % width, row0 + i / width), base, n, width, row0, i)
  {
    DivIdentity(i, width);
    CellInverts(base, n, width, i % width, row0 + i / width);
  }

  lemma BeforeGrows(cell: int, base: nat, n: nat, width: nat, row0: nat, i: nat, j: nat)
    requires i <= j && Before(cell, base, n, width, row0, i)
    ensures Before(cell, base, n, width, row0, j) && base <= cell < base + width * n
  {
  }

  lemma DivIdentity(i: nat, n: nat)
    requires n > 0
    ensures i == i / n * n + i % n && 0 <= i / n && 0 <= i % n < n
  {
    assert i == n * (i / n) + i % n;
  }

  /** The end of every kernel: each register of the tile is joined over the lanes by the shuffle tree, and lane 0 writes
      it to its cell when the row exists. */
  method WriteTile(ops: Ops, registers: Registers, base: nat, n: nat, width: nat, row0: nat, rows: nat, out: Output)
    requires IsRegisters(registers, rows, width) && row0 < n && width > 0 && base + width * n <= out.cells.Length
    requires forall cell :: cell in out.written ==> !InTile(cell, base, n, width, row0, rows)
    modifies out, out.cells
    ensures forall cell :: cell in out.written <==> cell in old(out.written) || InTile(cell, base, n, width, row0, rows)
    ensures forall cell :: InTile(cell, base, n, width, row0, rows) ==>
              out.cells[cell] == Joined(ops, registers, RowIn(base, n, cell) - row0, InputIn(base, n, cell))
    ensures forall cell :: 0 <= cell < out.cells.Length && !InTile(cell, base, n, width, row0, rows) ==>
              out.cells[cell] == old(out.cells[cell])
  {
    hide RowIn;
    hide InputIn;
    hide CellAt;
    hide InTile;
    hide Before;
    forall cell {
      TileIsBefore(cell, base, n, width, row0, rows);
    }
    forall cell
      ensures !Before(cell, base, n, width, row0, 0)
    {
      NoneBefore(cell, base, n, width, row0);
    }
    for i := 0 to rows * width
      invariant forall cell :: cell in out.written <==>
                cell in old(out.written) || Before(cell, base, n, width, row0, i)
      invariant forall cell :: Before(cell, base, n, width, row0, i) ==> 0 <= cell < out.cells.Length
      invariant forall cell :: Before(cell, base, n, width, row0, i) ==>
                  out.cells[cell] == Joined(ops, registers, RowIn(base, n, cell) - row0, InputIn(base, n, cell))
      invariant forall cell :: 0 <= cell < out.cells.Length && !Before(cell, base, n, width, row0, i) ==>
                  out.cells[cell] == old(out.cells[cell])
    {
      forall cell {
        StepAdds(cell, base, n, width, row0, i);
      }
      forall cell | Before(cell, base, n, width, row0, i + 1)
        ensures Before(cell, base, n, width, row0, rows * width) && base <= cell < base + width * n
      {
        BeforeGrows(cell, base, n, width, row0, i + 1, rows * width);
      }
      DivRange(i, rows, width);
      var sum := ShuffleDown(ops.add, Column(registers, i / width, i % width));
      if row0 + i / width < n {
        CellInverts(base, n, width, i % width, row0 + i / width);
        StepIsNew(base, n, width, row0, i);
        out.Write(CellAt(base, n, i % width, row0 + i / width), ops.round(sum));
      }
    }
  }

  lemma NoneBefore(cell: int, base: nat, n: nat, width: nat, row0: nat)
    ensures !Before(cell, base, n, width, row0, 0)
  {
    if n > 0 && 0 <= cell - base < width * n && row0 <= RowIn(base, n, cell) {
      CellOnto(base, n, width, cell);
      Scale(0, RowIn(base, n, cell) - row0, width);
    }
  }

  /** A register of the tile, joined over the lanes and rounded. */
  ghost function Joined(ops: Ops, registers: Registers, r: int, mo: int): F {
    if 0 <= r && 0 <= mo && |registers| == LANES
       && forall lane :: 0 <= lane < LANES ==> r < |registers[lane]| && mo < |registers[lane][r]|
    then ops.round(Tree(ops.add, Column(registers, r, mo)))
    else ops.zero
  }

  /** A dense product: `width` activation rows and `n` weight rows of `chunks` vectors of eight values. */
  datatype Dense = Dense(n: nat, chunks: nat, width: nat, x: seq<seq<F>>, w: seq<seq<F>>)
  {
    ghost predicate Valid() {
      && width > 0 && |x| == width * chunks && |w| == n * chunks
      && (forall i :: 0 <= i < |x| ==> |x[i]| == 8)
      && (forall i :: 0 <= i < |w| ==> |w[i]| == 8)
    }

    function X(mo: nat, c: nat): (vector: seq<F>)
      requires Valid() && mo < width && c < chunks
      ensures |vector| == 8
    {
      PairInside(mo, width, c, chunks);
      x[mo * chunks + c]
    }

    function W(row: nat, c: nat): (vector: seq<F>)
      requires Valid() && row < n && c < chunks
      ensures |vector| == 8
    {
      PairInside(row, n, c, chunks);
      w[row * chunks + c]
    }

    /** One activation row and one weight row: all that a cell depends on. */
    function XRow(mo: nat): (row: seq<seq<F>>)
      requires Valid() && mo < width
      ensures |row| == chunks && forall c :: 0 <= c < chunks ==> |row[c]| == 8
    {
      seq(chunks, c requires 0 <= c < chunks => X(mo, c))
    }

    function WRow(r: nat): (row: seq<seq<F>>)
      requires Valid() && r < n
      ensures |row| == chunks && forall c :: 0 <= c < chunks ==> |row[c]| == 8
    {
      seq(chunks, c requires 0 <= c < chunks => W(r, c))
    }

    ghost function Terms(ops: Ops, row: nat, mo: nat): (terms: seq<F>)
      requires Valid() && row < n && mo < width
      ensures |terms| == chunks
    {
      DenseTerms(ops, WRow(row), XRow(mo))
    }
  }

  /** The terms of a dense cell: one chain per chunk of eight. */
  function DenseTerms(ops: Ops, w: seq<seq<F>>, x: seq<seq<F>>): (terms: seq<F>)
    requires |w| == |x| && forall c :: 0 <= c < |w| ==> |w[c]| == |x[c]|
    ensures |terms| == |w|
  {
    seq(|w|, c requires 0 <= c < |w| => Chain(ops, w[c], x[c]))
  }

  /** The terms of a dense cell, told by the flat arrays: row `row` of the weights against row `mo` of the activations,
      chunk by chunk. */
  ghost predicate AreDenseTerms(ops: Ops, d: Dense, row: nat, mo: nat, terms: seq<F>)
    requires d.Valid() && row < d.n && mo < d.width
  {
    var w0, x0 := row * d.chunks, mo * d.chunks;
    && |terms| == d.chunks && w0 + d.chunks <= |d.w| && x0 + d.chunks <= |d.x|
    && forall c :: 0 <= c < d.chunks ==> terms[c] == Chain(ops, d.w[w0 + c], d.x[x0 + c])
  }

  lemma DenseTermsAreRaw(ops: Ops, d: Dense, row: nat, mo: nat, terms: seq<F>)
    requires d.Valid() && row < d.n && mo < d.width && AreDenseTerms(ops, d, row, mo, terms)
    ensures terms == DenseTerms(ops, d.WRow(row), d.XRow(mo))
  {
    hide Chain;
    var w0, x0 := row * d.chunks, mo * d.chunks;
    forall c | 0 <= c < d.chunks
      ensures d.WRow(row)[c] == d.w[w0 + c] && d.XRow(mo)[c] == d.x[x0 + c]
    {
      assert d.WRow(row)[c] == d.W(row, c) && d.XRow(mo)[c] == d.X(mo, c);
    }
  }

  method RunChain(ops: Ops, a: seq<F>, b: seq<F>) returns (d: F)
    requires |a| == |b|
    ensures d == Chain(ops, a, b)
  {
    d := ops.zero;
    for i := 0 to |a|
      invariant d == Chain(ops, a[..i], b[..i])
    {
      d := ops.fma(a[i], b[i], d);
      assert a[..i + 1][..i] == a[..i] && b[..i + 1][..i] == b[..i];
    }
    assert a[..|a|] == a && b[..|b|] == b;
  }

  /** A lane's register before step `steps` of its chunks. */
  ghost predicate LaneAt(ops: Ops, terms: seq<F>, lane: nat, steps: nat, value: F) {
    (steps == 0 || lane + 32 * (steps - 1) < |terms|) && value == LaneSum(ops, terms, lane, steps)
  }

  ghost predicate DenseTile(ops: Ops, d: Dense, row0: nat, lane: nat, steps: nat, tile: seq<seq<F>>)
    requires d.Valid()
  {
    forall r, mo :: 0 <= r < |tile| && row0 + r < d.n && 0 <= mo < |tile[r]| && mo < d.width ==>
      LaneAt(ops, d.Terms(ops, row0 + r, mo), lane, steps, tile[r][mo])
  }

  lemma DenseTileGrows(ops: Ops, d: Dense, row0: nat, lane: nat, steps: nat, tile: seq<seq<F>>, r: nat)
    requires d.Valid() && r < |tile| && DenseTile(ops, d, row0, lane, steps, tile[..r])
    requires row0 + r < d.n ==>
               forall mo :: 0 <= mo < |tile[r]| && mo < d.width ==>
                 LaneAt(ops, d.Terms(ops, row0 + r, mo), lane, steps, tile[r][mo])
    ensures DenseTile(ops, d, row0, lane, steps, tile[..r + 1])
  {
    hide LaneAt;
    assert tile[..r + 1] == tile[..r] + [tile[r]];
  }

  /** One lane of the dense kernel: every (row, activation row) pair keeps its own chain over the lane's chunks. */
  method DenseLane(ops: Ops, d: Dense, row0: nat, rows: nat, lane: nat) returns (tile: seq<seq<F>>)
    requires d.Valid() && lane < LANES
    ensures IsTile(tile, rows, d.width) && DenseTile(ops, d, row0, lane, Steps(lane, d.chunks), tile)
  {
    hide LaneAt;
    tile := seq(rows, _ => seq(d.width, _ => ops.zero));
    var c := lane;
    ghost var steps := 0;
    NothingSummed(ops, lane);
    while c < d.chunks
      invariant c == lane + 32 * steps && IsTile(tile, rows, d.width)
      invariant DenseTile(ops, d, row0, lane, steps, tile)
      invariant steps == 0 || c - 32 < d.chunks
    {
      var xf := seq(d.width, mo requires 0 <= mo < d.width => d.X(mo, c));
      ghost var before := tile;
      for r := 0 to rows
        invariant IsTile(tile, rows, d.width)
        invariant forall i :: r <= i < rows ==> tile[i] == before[i]
        invariant DenseTile(ops, d, row0, lane, steps + 1, tile[..r])
      {
        if row0 + r < d.n {
          var wf, registers := d.W(row0 + r, c), tile[r];
          for mo := 0 to d.width
            invariant |registers| == d.width
            invariant forall i :: mo <= i < d.width ==> registers[i] == before[r][i]
            invariant forall i :: 0 <= i < mo ==> LaneAt(ops, d.Terms(ops, row0 + r, i), lane, steps + 1, registers[i])
          {
            var chain := RunChain(ops, wf, xf[mo]);
            LaneStep(ops, d.Terms(ops, row0 + r, mo), lane, steps, registers[mo]);
            registers := registers[mo := ops.add(registers[mo], chain)];
          }
          tile := tile[r := registers];
        }
        DenseTileGrows(ops, d, row0, lane, steps + 1, tile, r);
      }
      assert tile[..rows] == tile;
      c, steps := c + 32, steps + 1;
    }
    StepsUnique(lane, d.chunks, steps);
  }

  lemma NothingSummed(ops: Ops, lane: nat)
    ensures forall terms :: LaneAt(ops, terms, lane, 0, ops.zero)
  {
  }

  lemma LaneStep(ops: Ops, terms: seq<F>, lane: nat, steps: nat, value: F)
    requires LaneAt(ops, terms, lane, steps, value) && lane + 32 * steps < |terms|
    ensures LaneAt(ops, terms, lane, steps + 1, ops.add(value, terms[lane + 32 * steps]))
  {
  }

  lemma StepsUnique(lane: nat, chunks: nat, steps: nat)
    requires lane + 32 * steps >= chunks && (steps == 0 || lane + 32 * (steps - 1) < chunks)
    ensures steps == Steps(lane, chunks)
  {
  }

  /** A 4-bit product: per weight row, chunks of four words (32 nibbles), and one scale and bias per group of 64. */
  datatype Native = Native(n: nat, chunks: nat, width: nat, x: seq<seq<F>>, w: seq<seq<Word>>, scales: seq<F>,
                           biases: seq<F>)
  {
    const groups: nat := chunks / 2

    ghost predicate Valid() {
      && width > 0 && chunks % 2 == 0
      && |x| == width * (4 * chunks) && |w| == n * chunks && |scales| == |biases| == n * groups
      && (forall i :: 0 <= i < |x| ==> |x[i]| == 8)
      && (forall i :: 0 <= i < |w| ==> |w[i]| == 4)
    }

    function X(mo: nat, j: nat): (vector: seq<F>)
      requires Valid() && mo < width && j < 4 * chunks
      ensures |vector| == 8
    {
      PairInside(mo, width, j, 4 * chunks);
      x[mo * (4 * chunks) + j]
    }

    function W(row: nat, c: nat): (words: seq<Word>)
      requires Valid() && row < n && c < chunks
      ensures |words| == 4
    {
      PairInside(row, n, c, chunks);
      w[row * chunks + c]
    }

    function Scale64(row: nat, c: nat): F
      requires Valid() && row < n && c < chunks
    {
      PairInside(row, n, c * 32 / 64, groups);
      scales[row * groups + c * 32 / 64]
    }

    function Bias64(row: nat, c: nat): F
      requires Valid() && row < n && c < chunks
    {
      PairInside(row, n, c * 32 / 64, groups);
      biases[row * groups + c * 32 / 64]
    }

    /** `LOAD_X`: the 32 activations of a chunk. */
    function Load(mo: nat, c: nat): (xf: seq<F>)
      requires Valid() && mo < width && c < chunks
      ensures |xf| == 32
    {
      X(mo, c * 4) + X(mo, c * 4 + 1) + X(mo, c * 4 + 2) + X(mo, c * 4 + 3)
    }

    /** The terms of a cell, from one weight row with its scales and biases and one activation row. */
    ghost function Terms(ops: Ops, row: nat, mo: nat): (terms: seq<F>)
      requires Valid() && row < n && mo < width
      ensures |terms| == chunks
    {
      seq(chunks, c requires 0 <= c < chunks =>
        NativeTerm(ops, W(row, c), Scale64(row, c), Bias64(row, c), Load(mo, c)))
    }
  }

  function Nibbles(ops: Ops, words: seq<Word>): (values: seq<F>)
    requires |words| == 4
    ensures |values| == 32
  {
    seq(32, i requires 0 <= i < 32 => ops.nibble(words[i / 8], i % 8))
  }

  /** One chunk of a 4-bit cell: scale times the nibbles' chain, plus bias times the activations' sum. */
  function NativeTerm(ops: Ops, words: seq<Word>, scale: F, bias: F, xf: seq<F>): F
    requires |words| == 4 && |xf| == 32
  {
    ops.fma(scale, Chain(ops, Nibbles(ops, words), xf), ops.mul(bias, Total(ops, xf)))
  }

  ghost predicate NativeTile(ops: Ops, d: Native, row0: nat, lane: nat, steps: nat, tile: seq<seq<F>>)
    requires d.Valid()
  {
    forall r, mo :: 0 <= r < |tile| && row0 + r < d.n && 0 <= mo < |tile[r]| && mo < d.width ==>
      LaneAt(ops, d.Terms(ops, row0 + r, mo), lane, steps, tile[r][mo])
  }

  /** The terms of a 4-bit cell, told by the flat arrays: the weight row's words begin at `w0`, its scales and biases at
      `g0`, the activation row's vectors at `x0`. The 32 nibbles of a chunk come from four words, low nibble first; its
      activations from four vectors of eight. */
  ghost predicate AreTerms(ops: Ops, x: seq<seq<F>>, w: seq<seq<Word>>, scales: seq<F>, biases: seq<F>, chunks: nat,
                           x0: int, w0: int, g0: int, terms: seq<F>)
  {
    && |terms| == chunks
    && 0 <= x0 && x0 + 4 * chunks <= |x| && 0 <= w0 && w0 + chunks <= |w|
    && 0 <= g0 && g0 + chunks / 2 <= |scales| && |scales| == |biases| && chunks % 2 == 0
    && (forall i :: 0 <= i < |x| ==> |x[i]| == 8) && (forall i :: 0 <= i < |w| ==> |w[i]| == 4)
    && forall c :: 0 <= c < chunks ==>
         var nibbles := seq(32, i requires 0 <= i < 32 => ops.nibble(w[w0 + c][i / 8], i % 8));
         var xf := seq(32, i requires 0 <= i < 32 => x[x0 + 4 * c + i / 8][i % 8]);
         terms[c] == ops.fma(scales[g0 + c / 2], Chain(ops, nibbles, xf), ops.mul(biases[g0 + c / 2], Total(ops, xf)))
  }

  /** Row `row` of the weights against row `mo` of the activations. */
  ghost predicate AreNativeTerms(ops: Ops, d: Native, row: nat, mo: nat, terms: seq<F>) {
    AreTerms(ops, d.x, d.w, d.scales, d.biases, d.chunks, mo * (4 * d.chunks), row * d.chunks, row * d.groups, terms)
  }

  lemma TermsAreRaw(ops: Ops, d: Native, row: nat, mo: nat, terms: seq<F>)
    requires d.Valid() && row < d.n && mo < d.width
    requires AreNativeTerms(ops, d, row, mo, terms)
    ensures terms == d.Terms(ops, row, mo)
  {
    hide Chain;
    hide Total;
    var x0, w0, g0 := mo * (4 * d.chunks), row * d.chunks, row * d.groups;
    forall c | 0 <= c < d.chunks
      ensures terms[c] == d.Terms(ops, row, mo)[c]
    {
      assert d.W(row, c) == d.w[w0 + c] && c * 32 / 64 == c / 2;
      var xf := seq(32, i requires 0 <= i < 32 => d.x[x0 + 4 * c + i / 8][i % 8]);
      LoadIsRaw(d, mo, c, x0, xf);
      assert Nibbles(ops, d.W(row, c)) == seq(32, i requires 0 <= i < 32 => ops.nibble(d.w[w0 + c][i / 8], i % 8));
    }
  }

  lemma LoadIsRaw(d: Native, mo: nat, c: nat, x0: int, xf: seq<F>)
    requires d.Valid() && mo < d.width && c < d.chunks && x0 == mo * (4 * d.chunks)
    requires 0 <= x0 && x0 + 4 * d.chunks <= |d.x| && |xf| == 32
    requires forall i :: 0 <= i < 32 ==> xf[i] == d.x[x0 + 4 * c + i / 8][i % 8]
    ensures xf == d.Load(mo, c)
  {
    var j := 4 * c;
    assert d.X(mo, j) == d.x[x0 + j] && d.X(mo, j + 1) == d.x[x0 + j + 1];
    assert d.X(mo, j + 2) == d.x[x0 + j + 2] && d.X(mo, j + 3) == d.x[x0 + j + 3];
  }

  method RunTotal(ops: Ops, a: seq<F>) returns (total: F)
    ensures total == Total(ops, a)
  {
    total := ops.zero;
    for i := 0 to |a|
      invariant total == Total(ops, a[..i])
    {
      total := ops.add(total, a[i]);
      assert a[..i + 1][..i] == a[..i];
    }
    assert a[..|a|] == a;
  }

  /** The activations' sums of a chunk. `xf` is one register array: it ends holding the last activation row. */
  method ChunkTotals(ops: Ops, d: Native, c: nat) returns (totals: seq<F>, xf: seq<F>)
    requires d.Valid() && c < d.chunks
    ensures |totals| == d.width && xf == d.Load(d.width - 1, c)
    ensures forall mo :: 0 <= mo < d.width ==> totals[mo] == Total(ops, d.Load(mo, c))
  {
    totals, xf := [], [];
    for mo := 0 to d.width
      invariant |totals| == mo && (mo > 0 ==> xf == d.Load(mo - 1, c))
      invariant forall i :: 0 <= i < mo ==> totals[i] == Total(ops, d.Load(i, c))
    {
      xf := d.Load(mo, c);
      var total := RunTotal(ops, xf);
      totals := totals + [total];
    }
  }

  /** One weight row of a chunk. With more than one activation row the shared `xf` is loaded again for each. */
  method NativeRow(ops: Ops, d: Native, row: nat, c: nat, totals: seq<F>, xf: seq<F>, ghost lane: nat, ghost steps: nat,
                   registers: seq<F>) returns (next: seq<F>)
    requires d.Valid() && row < d.n && c < d.chunks && c == lane + 32 * steps
    requires |totals| == d.width && xf == d.Load(d.width - 1, c)
    requires forall mo :: 0 <= mo < d.width ==> totals[mo] == Total(ops, d.Load(mo, c))
    requires |registers| == d.width
    requires forall mo :: 0 <= mo < d.width ==> LaneAt(ops, d.Terms(ops, row, mo), lane, steps, registers[mo])
    ensures |next| == d.width
    ensures forall mo :: 0 <= mo < d.width ==> LaneAt(ops, d.Terms(ops, row, mo), lane, steps + 1, next[mo])
  {
    hide LaneAt;
    var q, s, b := Nibbles(ops, d.W(row, c)), d.Scale64(row, c), d.Bias64(row, c);
    var current := xf;
    next := registers;
    for mo := 0 to d.width
      invariant |next| == d.width && (d.width == 1 ==> current == d.Load(0, c))
      invariant forall i :: mo <= i < d.width ==> next[i] == registers[i]
      invariant forall i :: 0 <= i < mo ==> LaneAt(ops, d.Terms(ops, row, i), lane, steps + 1, next[i])
    {
      if d.width > 1 {
        current := d.Load(mo, c);
      }
      var chain := RunChain(ops, q, current);
      LaneStep(ops, d.Terms(ops, row, mo), lane, steps, next[mo]);
      next := next[mo := ops.add(next[mo], ops.fma(s, chain, ops.mul(b, totals[mo])))];
    }
  }

  /** One lane of the 4-bit kernel. */
  method NativeLane(ops: Ops, d: Native, row0: nat, rows: nat, lane: nat) returns (tile: seq<seq<F>>)
    requires d.Valid() && lane < LANES
    ensures IsTile(tile, rows, d.width) && NativeTile(ops, d, row0, lane, Steps(lane, d.chunks), tile)
  {
    hide LaneAt;
    tile := seq(rows, _ => seq(d.width, _ => ops.zero));
    var c := lane;
    ghost var steps := 0;
    NothingSummed(ops, lane);
    while c < d.chunks
      invariant c == lane + 32 * steps && IsTile(tile, rows, d.width)
      invariant NativeTile(ops, d, row0, lane, steps, tile)
      invariant steps == 0 || c - 32 < d.chunks
    {
      var totals, xf := ChunkTotals(ops, d, c);
      ghost var before := tile;
      for r := 0 to rows
        invariant IsTile(tile, rows, d.width)
        invariant forall i :: r <= i < rows ==> tile[i] == before[i]
        invariant NativeTile(ops, d, row0, lane, steps + 1, tile[..r])
      {
        if row0 + r < d.n {
          var registers := NativeRow(ops, d, row0 + r, c, totals, xf, lane, steps, tile[r]);
          tile := tile[r := registers];
        }
      }
      assert tile[..rows] == tile;
      c, steps := c + 32, steps + 1;
    }
    StepsUnique(lane, d.chunks, steps);
  }

  /** The lanes of a warp hold the sums of the cells of its rows: joined, they are the cells. */
  lemma JoinedIsCell(ops: Ops, registers: Registers, rows: nat, width: nat, r: nat, mo: nat, terms: seq<F>)
    requires IsRegisters(registers, rows, width) && r < rows && mo < width
    requires forall lane :: 0 <= lane < LANES ==> LaneAt(ops, terms, lane, Steps(lane, |terms|), registers[lane][r][mo])
    ensures Joined(ops, registers, r, mo) == Cell(ops, terms)
  {
    assert Column(registers, r, mo)
        == seq(LANES, lane requires 0 <= lane < LANES => LaneSum(ops, terms, lane, Steps(lane, |terms|)));
  }

  method DenseWarp(ops: Ops, d: Dense, row0: nat, rows: nat) returns (registers: Registers)
    requires d.Valid() && row0 < d.n
    ensures IsRegisters(registers, rows, d.width)
    ensures forall r, mo :: 0 <= r < rows && row0 + r < d.n && 0 <= mo < d.width ==>
              Joined(ops, registers, r, mo) == Cell(ops, d.Terms(ops, row0 + r, mo))
  {
    hide LaneAt;
    registers := [];
    for lane := 0 to LANES
      invariant |registers| == lane
      invariant forall l :: 0 <= l < lane ==>
                  IsTile(registers[l], rows, d.width) && DenseTile(ops, d, row0, l, Steps(l, d.chunks), registers[l])
    {
      var tile := DenseLane(ops, d, row0, rows, lane);
      registers := registers + [tile];
    }
    forall r, mo | 0 <= r < rows && row0 + r < d.n && 0 <= mo < d.width
      ensures Joined(ops, registers, r, mo) == Cell(ops, d.Terms(ops, row0 + r, mo))
    {
      JoinedIsCell(ops, registers, rows, d.width, r, mo, d.Terms(ops, row0 + r, mo));
    }
  }

  method NativeWarp(ops: Ops, d: Native, row0: nat, rows: nat) returns (registers: Registers)
    requires d.Valid() && row0 < d.n
    ensures IsRegisters(registers, rows, d.width)
    ensures forall r, mo :: 0 <= r < rows && row0 + r < d.n && 0 <= mo < d.width ==>
              Joined(ops, registers, r, mo) == Cell(ops, d.Terms(ops, row0 + r, mo))
  {
    hide LaneAt;
    registers := [];
    for lane := 0 to LANES
      invariant |registers| == lane
      invariant forall l :: 0 <= l < lane ==>
                  IsTile(registers[l], rows, d.width) && NativeTile(ops, d, row0, l, Steps(l, d.chunks), registers[l])
    {
      var tile := NativeLane(ops, d, row0, rows, lane);
      registers := registers + [tile];
    }
    forall r, mo | 0 <= r < rows && row0 + r < d.n && 0 <= mo < d.width
      ensures Joined(ops, registers, r, mo) == Cell(ops, d.Terms(ops, row0 + r, mo))
    {
      JoinedIsCell(ops, registers, rows, d.width, r, mo, d.Terms(ops, row0 + r, mo));
    }
  }

  /** Which warp computes a row. */
  lemma WarpOfRow(row: nat, rows: nat, warp: nat)
    requires rows > 0
    ensures warp * rows <= row < warp * rows + rows <==> row / rows == warp
  {
    DivIdentity(row, rows);
    if warp * rows <= row < warp * rows + rows {
      DivMod(warp, row - warp * rows, rows);
    }
  }

  /** The warps of `n` rows, `rows` each: the last one may be partly empty. */
  function Blocks(n: nat, rows: nat): (blocks: nat)
    requires rows > 0
  {
    (n + rows - 1) / rows
  }

  lemma RowInBlocks(n: nat, rows: nat, row: nat)
    requires rows > 0 && row < n
    ensures row / rows < Blocks(n, rows)
  {
    var blocks := Blocks(n, rows);
    DivIdentity(n + rows - 1, rows);
    DivIdentity(row, rows);
    if row / rows >= blocks {
      Scale(blocks, row / rows, rows);
    }
  }

  function RowsPerWarp(n: nat): (rows: nat)
    ensures rows > 0
  {
    if n >= 8192 then 4 else 2
  }

  /** A warp's share of a launch: the cells of the rows it computes. */
  ghost predicate OfWarp(cell: int, base: nat, n: nat, width: nat, rows: nat, warp: nat) {
    n > 0 && rows > 0 && 0 <= cell - base < width * n && RowIn(base, n, cell) / rows == warp
  }

  lemma TileIsOfWarp(cell: int, base: nat, n: nat, width: nat, rows: nat, warp: nat)
    requires rows > 0
    ensures InTile(cell, base, n, width, warp * rows, rows) <==> OfWarp(cell, base, n, width, rows, warp)
  {
    if n > 0 && 0 <= cell - base < width * n {
      CellOnto(base, n, width, cell);
      WarpOfRow(RowIn(base, n, cell), rows, warp);
    }
  }

  /** A warp writes its share of the output, each cell once, and nothing else. */
  method WriteBlock(ops: Ops, registers: Registers, base: nat, n: nat, width: nat, warp: nat, rows: nat, out: Output,
                    ghost value: (int, int) -> F)
    requires rows > 0 && width > 0 && warp * rows < n && base + width * n <= out.cells.Length
    requires IsRegisters(registers, rows, width)
    requires forall r, mo :: 0 <= r < rows && warp * rows + r < n && 0 <= mo < width ==>
               Joined(ops, registers, r, mo) == value(warp * rows + r, mo)
    requires forall cell :: cell in out.written ==> !OfWarp(cell, base, n, width, rows, warp)
    modifies out, out.cells
    ensures forall cell :: cell in out.written <==> cell in old(out.written) || OfWarp(cell, base, n, width, rows, warp)
    ensures forall cell :: OfWarp(cell, base, n, width, rows, warp) ==>
              base <= cell < base + width * n && out.cells[cell] == value(RowIn(base, n, cell), InputIn(base, n, cell))
    ensures forall cell :: 0 <= cell < out.cells.Length && !OfWarp(cell, base, n, width, rows, warp) ==>
              out.cells[cell] == old(out.cells[cell])
  {
    hide RowIn;
    hide InputIn;
    hide Joined;
    hide OfWarp;
    forall cell
      ensures InTile(cell, base, n, width, warp * rows, rows) <==> OfWarp(cell, base, n, width, rows, warp)
    {
      TileIsOfWarp(cell, base, n, width, rows, warp);
    }
    WriteTile(ops, registers, base, n, width, warp * rows, rows, out);
    forall cell | InTile(cell, base, n, width, warp * rows, rows)
      ensures base <= cell < base + width * n && out.cells[cell] == value(RowIn(base, n, cell), InputIn(base, n, cell))
    {
      CellOnto(base, n, width, cell);
      var r, mo := RowIn(base, n, cell) - warp * rows, InputIn(base, n, cell);
      assert Joined(ops, registers, r, mo) == value(warp * rows + r, mo);
    }
  }

  /** After the warps before `warp`, exactly their shares of the output are written, with the right values. */
  ghost predicate WrittenBefore(out: Output, n: nat, width: nat, rows: nat, warp: nat, value: (int, int) -> F)
    reads out, out.cells
  {
    && n > 0 && rows > 0 && width * n == out.cells.Length
    && (forall cell :: cell in out.written <==> 0 <= cell < width * n && RowIn(0, n, cell) / rows < warp)
    && (forall cell :: cell in out.written ==> out.cells[cell] == value(RowIn(0, n, cell), InputIn(0, n, cell)))
  }

  lemma NothingBefore(n: nat, width: nat, rows: nat)
    requires n > 0 && rows > 0
    ensures forall cell :: 0 <= cell < width * n ==> RowIn(0, n, cell) / rows >= 0
  {
  }

  /** A surplus warp has no share. */
  lemma SurplusWarp(n: nat, width: nat, rows: nat, warp: nat)
    requires n > 0 && rows > 0 && warp * rows >= n
    ensures forall cell :: 0 <= cell < width * n ==> RowIn(0, n, cell) / rows < warp
  {
    forall cell | 0 <= cell < width * n
      ensures RowIn(0, n, cell) / rows < warp
    {
      CellOnto(0, n, width, cell);
      var q := RowIn(0, n, cell) / rows;
      DivIdentity(RowIn(0, n, cell), rows);
      if q >= warp {
        Scale(warp, q, rows);
      }
    }
  }

  /** Every cell is the share of one of the warps. */
  lemma AllBefore(n: nat, width: nat, rows: nat, warps: nat)
    requires n > 0 && rows > 0 && warps >= Blocks(n, rows)
    ensures forall cell :: 0 <= cell < width * n ==> RowIn(0, n, cell) / rows < warps
  {
    forall cell | 0 <= cell < width * n
      ensures RowIn(0, n, cell) / rows < warps
    {
      CellOnto(0, n, width, cell);
      RowInBlocks(n, rows, RowIn(0, n, cell));
    }
  }

  /** A warp that has rows adds its share; one that has none is done already. */
  method Advance(ops: Ops, registers: Registers, n: nat, width: nat, warp: nat, rows: nat, out: Output,
                 ghost value: (int, int) -> F)
    requires WrittenBefore(out, n, width, rows, warp, value) && width > 0 && warp * rows < n
    requires IsRegisters(registers, rows, width)
    requires forall r, mo :: 0 <= r < rows && warp * rows + r < n && 0 <= mo < width ==>
               Joined(ops, registers, r, mo) == value(warp * rows + r, mo)
    modifies out, out.cells
    ensures WrittenBefore(out, n, width, rows, warp + 1, value)
  {
    hide RowIn;
    hide InputIn;
    hide Joined;
    WriteBlock(ops, registers, 0, n, width, warp, rows, out, value);
  }

  /** A launch of enough warps writes every cell of the output, once, with its value. */
  lemma AllWritten(out: Output, n: nat, width: nat, rows: nat, warps: nat, value: (int, int) -> F)
    requires rows > 0 && warps >= Blocks(n, rows) && WrittenBefore(out, n, width, rows, warps, value)
    ensures forall i :: i in out.written <==> 0 <= i < out.cells.Length
    ensures forall mo, row :: 0 <= mo < width && 0 <= row < n ==>
              0 <= CellAt(0, n, mo, row) < out.cells.Length && out.cells[CellAt(0, n, mo, row)] == value(row, mo)
  {
    hide RowIn;
    hide InputIn;
    hide CellAt;
    hide Blocks;
    AllBefore(n, width, rows, warps);
    forall mo, row | 0 <= mo < width && 0 <= row < n
      ensures 0 <= CellAt(0, n, mo, row) < out.cells.Length && out.cells[CellAt(0, n, mo, row)] == value(row, mo)
    {
      CellInverts(0, n, width, mo, row);
    }
  }

  /** The one value of a cell of a dense product. */
  ghost function DenseCell(ops: Ops, d: Dense): (int, int) -> F
    requires d.Valid()
  {
    (row, mo) =>
      if 0 <= row < d.n && 0 <= mo < d.width then Cell(ops, DenseTerms(ops, d.WRow(row), d.XRow(mo))) else ops.zero
  }

  /** `dense_rows`: one to eight activation rows, or a refusal. Every cell is written once, and it is `Cell` of its own
      activation row and weight row, whatever the width, the rows per warp and the other rows. */
  method DenseRows(ops: Ops, d: Dense, rowsPerWarp: nat) returns (ok: bool, out: Output)
    requires d.Valid() && d.n > 0
    ensures ok <==> d.width <= 8
    ensures ok ==> out.cells.Length == d.width * d.n && forall i :: i in out.written <==> 0 <= i < out.cells.Length
    ensures ok ==> forall mo, row :: 0 <= mo < d.width && 0 <= row < d.n ==>
              && 0 <= CellAt(0, d.n, mo, row) < out.cells.Length
              && out.cells[CellAt(0, d.n, mo, row)] == Cell(ops, DenseTerms(ops, d.WRow(row), d.XRow(mo)))
    ensures ok ==> forall mo, row, terms ::
              0 <= mo < d.width && 0 <= row < d.n && AreDenseTerms(ops, d, row, mo, terms) ==>
              0 <= mo * d.n + row < out.cells.Length && out.cells[mo * d.n + row] == Cell(ops, terms)
  {
    hide RowIn;
    hide CellAt;
    hide Cell;
    hide Joined;
    hide DenseTerms;
    out := new Output(d.width * d.n, ops.zero);
    if d.width > 8 {
      return false, out;
    }
    ok := true;
    var rows := if rowsPerWarp == 0 then RowsPerWarp(d.n) else rowsPerWarp;
    var warps := Grid(Blocks(d.n, rows));
    ghost var value := DenseCell(ops, d);
    NothingBefore(d.n, d.width, rows);
    assert WrittenBefore(out, d.n, d.width, rows, 0, value);
    hide WrittenBefore;
    for warp := 0 to warps
      invariant fresh(out) && fresh(out.cells) && WrittenBefore(out, d.n, d.width, rows, warp, value)
    {
      if warp * rows < d.n {
        var registers := DenseWarp(ops, d, warp * rows, rows);
        Advance(ops, registers, d.n, d.width, warp, rows, out, value);
      } else {
        SurplusStep(out, d.n, d.width, rows, warp, value);
      }
    }
    AllWritten(out, d.n, d.width, rows, warps, value);
    RawDenseRows(ops, d, out);
  }

  lemma RawDenseRows(ops: Ops, d: Dense, out: Output)
    requires d.Valid()
    requires forall mo, row :: 0 <= mo < d.width && 0 <= row < d.n ==>
               && 0 <= CellAt(0, d.n, mo, row) < out.cells.Length
               && out.cells[CellAt(0, d.n, mo, row)] == Cell(ops, DenseTerms(ops, d.WRow(row), d.XRow(mo)))
    ensures forall mo, row, terms ::
              0 <= mo < d.width && 0 <= row < d.n && AreDenseTerms(ops, d, row, mo, terms) ==>
              0 <= mo * d.n + row < out.cells.Length && out.cells[mo * d.n + row] == Cell(ops, terms)
  {
    hide Cell;
    hide DenseTerms;
    hide AreDenseTerms;
    forall mo, row, terms | 0 <= mo < d.width && 0 <= row < d.n && AreDenseTerms(ops, d, row, mo, terms)
      ensures 0 <= mo * d.n + row < out.cells.Length && out.cells[mo * d.n + row] == Cell(ops, terms)
    {
      DenseTermsAreRaw(ops, d, row, mo, terms);
      assert CellAt(0, d.n, mo, row) == mo * d.n + row;
    }
  }

  lemma SurplusStep(out: Output, n: nat, width: nat, rows: nat, warp: nat, value: (int, int) -> F)
    requires WrittenBefore(out, n, width, rows, warp, value) && warp * rows >= n
    ensures WrittenBefore(out, n, width, rows, warp + 1, value)
  {
    hide RowIn;
    SurplusWarp(n, width, rows, warp);
  }

  /** The one value of a cell of a 4-bit product. */
  ghost function NativeCell(ops: Ops, d: Native): (int, int) -> F
    requires d.Valid()
  {
    (row, mo) => if 0 <= row < d.n && 0 <= mo < d.width then Cell(ops, d.Terms(ops, row, mo)) else ops.zero
  }

  /** `_qmv`: the same of the 4-bit kernel. */
  method NativeRows(ops: Ops, d: Native) returns (out: Output)
    requires d.Valid() && d.n > 0
    ensures out.cells.Length == d.width * d.n && forall i :: i in out.written <==> 0 <= i < out.cells.Length
    ensures forall mo, row :: 0 <= mo < d.width && 0 <= row < d.n ==>
              && 0 <= CellAt(0, d.n, mo, row) < out.cells.Length
              && out.cells[CellAt(0, d.n, mo, row)] == Cell(ops, d.Terms(ops, row, mo))
    ensures forall mo, row, terms ::
              0 <= mo < d.width && 0 <= row < d.n && AreNativeTerms(ops, d, row, mo, terms) ==>
              0 <= mo * d.n + row < out.cells.Length && out.cells[mo * d.n + row] == Cell(ops, terms)
  {
    hide RowIn;
    hide CellAt;
    hide Cell;
    hide Joined;
    hide NativeTerm;
    out := new Output(d.width * d.n, ops.zero);
    var rows := RowsPerWarp(d.n);
    var warps := Grid(Blocks(d.n, rows));
    ghost var value := NativeCell(ops, d);
    NothingBefore(d.n, d.width, rows);
    assert WrittenBefore(out, d.n, d.width, rows, 0, value);
    hide WrittenBefore;
    for warp := 0 to warps
      invariant fresh(out) && fresh(out.cells) && WrittenBefore(out, d.n, d.width, rows, warp, value)
    {
      if warp * rows < d.n {
        var registers := NativeWarp(ops, d, warp * rows, rows);
        Advance(ops, registers, d.n, d.width, warp, rows, out, value);
      } else {
        SurplusStep(out, d.n, d.width, rows, warp, value);
      }
    }
    AllWritten(out, d.n, d.width, rows, warps, value);
    RawNativeRows(ops, d, out);
  }

  lemma RawNativeRows(ops: Ops, d: Native, out: Output)
    requires d.Valid()
    requires forall mo, row :: 0 <= mo < d.width && 0 <= row < d.n ==>
               && 0 <= CellAt(0, d.n, mo, row) < out.cells.Length
               && out.cells[CellAt(0, d.n, mo, row)] == Cell(ops, d.Terms(ops, row, mo))
    ensures forall mo, row, terms ::
              0 <= mo < d.width && 0 <= row < d.n && AreNativeTerms(ops, d, row, mo, terms) ==>
              0 <= mo * d.n + row < out.cells.Length && out.cells[mo * d.n + row] == Cell(ops, terms)
  {
    hide Cell;
    hide DenseTerms;
    hide AreNativeTerms;
    forall mo, row, terms | 0 <= mo < d.width && 0 <= row < d.n && AreNativeTerms(ops, d, row, mo, terms)
      ensures 0 <= mo * d.n + row < out.cells.Length && out.cells[mo * d.n + row] == Cell(ops, terms)
    {
      TermsAreRaw(ops, d, row, mo, terms);
      assert CellAt(0, d.n, mo, row) == mo * d.n + row;
    }
  }

  /** A cell depends on its own rows only: two products of any widths whose rows agree have the same cell. */
  lemma SameRowsSameCell(ops: Ops, d: Native, e: Native, row: nat, mo: nat, row1: nat, mo1: nat)
    requires d.Valid() && e.Valid() && d.chunks == e.chunks
    requires row < d.n && row1 < e.n && mo < d.width && mo1 < e.width
    requires forall c :: 0 <= c < d.chunks ==>
               d.W(row, c) == e.W(row1, c) && d.Scale64(row, c) == e.Scale64(row1, c)
                 && d.Bias64(row, c) == e.Bias64(row1, c)
    requires forall j :: 0 <= j < 4 * d.chunks ==> d.X(mo, j) == e.X(mo1, j)
    ensures Cell(ops, d.Terms(ops, row, mo)) == Cell(ops, e.Terms(ops, row1, mo1))
  {
    forall c | 0 <= c < d.chunks
      ensures d.Terms(ops, row, mo)[c] == e.Terms(ops, row1, mo1)[c]
    {
      assert d.Load(mo, c) == e.Load(mo1, c);
    }
    assert d.Terms(ops, row, mo) == e.Terms(ops, row1, mo1);
  }

  /** Part `a` of `n` equal parts of `k` elements. */
  function Part<T>(s: seq<T>, a: nat, n: nat, k: nat): (part: seq<T>)
    requires a < n && |s| == n * k
    ensures |part| == k && forall i :: 0 <= i < k ==> part[i] in s
    ensures 0 <= a * k && a * k + k <= |s| && part == s[a * k..a * k + k]
  {
    SliceInside(a, n, k);
    s[a * k..a * k + k]
  }

  /** A gathered product: `pairs` (token, expert) pairs over `experts` stacked weights of `n` rows each; `share` pairs
      in a row use one activation row. */
  datatype Gather = Gather(n: nat, chunks: nat, experts: nat, share: nat, x: seq<seq<F>>, w: seq<seq<Word>>,
                           scales: seq<F>, biases: seq<F>, idx: seq<nat>)
  {
    const groups: nat := chunks / 2
    const tokens: nat := if share == 0 then 0 else Blocks(|idx|, share)

    ghost predicate Valid() {
      && n > 0 && chunks % 2 == 0 && share > 0
      && |x| == tokens * (4 * chunks) && |w| == experts * (n * chunks)
      && |scales| == |biases| == experts * (n * groups)
      && (forall p :: 0 <= p < |idx| ==> idx[p] < experts)
      && (forall i :: 0 <= i < |x| ==> |x[i]| == 8)
      && (forall i :: 0 <= i < |w| ==> |w[i]| == 4)
    }

    /** The activation row that a pair uses. */
    function TokenOf(p: nat): (token: nat)
      requires Valid() && p < |idx|
      ensures token < tokens
    {
      RowInBlocks(|idx|, share, p);
      p / share
    }

    /** Pair `p` as a product of its own: one activation row, and its expert's weight. */
    function Pair(p: nat): (d: Native)
      requires Valid() && p < |idx|
      ensures d.Valid() && d.n == n && d.width == 1
    {
      var d := Native(n, chunks, 1, Part(x, TokenOf(p), tokens, 4 * chunks), Part(w, idx[p], experts, n * chunks),
                      Part(scales, idx[p], experts, n * groups), Part(biases, idx[p], experts, n * groups));
      PairIsValid(d);
      d
    }

    lemma PairIsValid(d: Native)
      requires d.width == 1 && d.n == n && d.chunks == chunks && chunks % 2 == 0
      requires |d.x| == 4 * chunks && |d.w| == n * chunks && |d.scales| == |d.biases| == n * groups
      requires (forall i :: 0 <= i < |d.x| ==> |d.x[i]| == 8) && (forall i :: 0 <= i < |d.w| ==> |d.w[i]| == 4)
      ensures d.Valid()
    {
    }
  }

  /** Row `row` of the pair's own expert against the activation row that the pair uses. */
  ghost predicate AreGatherTerms(ops: Ops, g: Gather, p: nat, row: nat, terms: seq<F>)
    requires g.Valid() && p < |g.idx|
  {
    AreTerms(ops, g.x, g.w, g.scales, g.biases, g.chunks, p / g.share * (4 * g.chunks),
             (g.idx[p] * g.n + row) * g.chunks, (g.idx[p] * g.n + row) * g.groups, terms)
  }

  /** The product of a pair is a window on the flat arrays. */
  lemma GatherTermsAreRaw(ops: Ops, g: Gather, p: nat, row: nat, terms: seq<F>)
    requires g.Valid() && p < |g.idx| && row < g.n && AreGatherTerms(ops, g, p, row, terms)
    ensures terms == g.Pair(p).Terms(ops, row, 0)
  {
    var d, e, x0 := g.Pair(p), g.idx[p], p / g.share * (4 * g.chunks);
    var w0, g0, w1, g1 := e * (g.n * g.chunks), e * (g.n * g.groups), row * g.chunks, row * g.groups;
    PairWindow(g, p, x0, w0, g0);
    RowOffset(e, g.n, row, g.chunks);
    RowOffset(e, g.n, row, g.groups);
    GatherTermsAt(ops, g, p, row, terms, x0, w0 + w1, g0 + g1);
    RowFits(d, row, w1, g1);
    hide AreTerms;
    hide AreGatherTerms;
    hide Gather.Pair;
    hide Native.Valid;
    hide Native.Terms;
    hide Gather.Valid;
    TermsOfWindow(ops, g, d, x0, w0, g0, w1, g1, terms);
    NativeTermsAt(ops, d, row, w1, g1, terms);
    TermsAreRaw(ops, d, row, 0, terms);
  }

  lemma GatherTermsAt(ops: Ops, g: Gather, p: nat, row: nat, terms: seq<F>, x0: int, w0: int, g0: int)
    requires g.Valid() && p < |g.idx| && AreGatherTerms(ops, g, p, row, terms)
    requires x0 == p / g.share * (4 * g.chunks)
    requires w0 == (g.idx[p] * g.n + row) * g.chunks && g0 == (g.idx[p] * g.n + row) * g.groups
    ensures AreTerms(ops, g.x, g.w, g.scales, g.biases, g.chunks, x0, w0, g0, terms)
  {
    hide AreTerms;
  }

  lemma NativeTermsAt(ops: Ops, d: Native, row: nat, w1: nat, g1: nat, terms: seq<F>)
    requires AreTerms(ops, d.x, d.w, d.scales, d.biases, d.chunks, 0, w1, g1, terms)
    requires w1 == row * d.chunks && g1 == row * d.groups
    ensures AreNativeTerms(ops, d, row, 0, terms)
  {
    hide AreTerms;
  }

  lemma RowFits(d: Native, row: nat, w1: int, g1: int)
    requires d.Valid() && row < d.n && w1 == row * d.chunks && g1 == row * d.groups
    ensures 0 <= w1 && w1 + d.chunks <= |d.w| && 0 <= g1 && g1 + d.groups <= |d.scales|
  {
    Scale(row + 1, d.n, d.chunks);
    Scale(row + 1, d.n, d.groups);
    NextRow(row, d.chunks);
    NextRow(row, d.groups);
  }

  lemma RowOffset(e: nat, n: nat, row: nat, k: nat)
    ensures (e * n + row) * k == e * (n * k) + row * k
  {
  }

  lemma NextRow(row: nat, k: nat)
    ensures (row + 1) * k == row * k + k && 0 <= row * k
  {
  }

  lemma PairWindow(g: Gather, p: nat, x0: int, w0: int, g0: int)
    requires g.Valid() && p < |g.idx|
    requires x0 == p / g.share * (4 * g.chunks)
    requires w0 == g.idx[p] * (g.n * g.chunks) && g0 == g.idx[p] * (g.n * g.groups)
    ensures IsWindow(g, g.Pair(p), x0, w0, g0)
  {
    var k, m, n := 4 * g.chunks, g.n * g.chunks, g.n * g.groups;
    var a, b := Part(g.x, g.TokenOf(p), g.tokens, k), Part(g.w, g.idx[p], g.experts, m);
    var c, e := Part(g.scales, g.idx[p], g.experts, n), Part(g.biases, g.idx[p], g.experts, n);
    assert g.Pair(p) == Native(g.n, g.chunks, 1, a, b, c, e);
  }

  /** `d` is one activation row and one expert of `g`. */
  ghost predicate IsWindow(g: Gather, d: Native, x0: int, w0: int, g0: int) {
    && d.chunks == g.chunks && d.n == g.n && d.width == 1
    && 0 <= x0 && x0 + |d.x| <= |g.x| && d.x == g.x[x0..x0 + |d.x|] && |d.x| == 4 * g.chunks
    && 0 <= w0 && w0 + |d.w| <= |g.w| && d.w == g.w[w0..w0 + |d.w|]
    && 0 <= g0 && g0 + |d.scales| <= |g.scales| == |g.biases| && |d.biases| == |d.scales|
    && d.scales == g.scales[g0..g0 + |d.scales|] && d.biases == g.biases[g0..g0 + |d.scales|]
  }

  lemma TermsOfWindow(ops: Ops, g: Gather, d: Native, x0: int, w0: int, g0: int, w1: nat, g1: nat, terms: seq<F>)
    requires IsWindow(g, d, x0, w0, g0) && w1 + g.chunks <= |d.w| && g1 + g.chunks / 2 <= |d.scales|
    requires AreTerms(ops, g.x, g.w, g.scales, g.biases, g.chunks, x0, w0 + w1, g0 + g1, terms)
    ensures AreTerms(ops, d.x, d.w, d.scales, d.biases, d.chunks, 0, w1, g1, terms)
  {
    hide Chain;
    hide Total;
    forall c | 0 <= c < d.chunks
      ensures var nibbles := seq(32, i requires 0 <= i < 32 => ops.nibble(d.w[w1 + c][i / 8], i % 8));
        var xf := seq(32, i requires 0 <= i < 32 => d.x[4 * c + i / 8][i % 8]);
        terms[c] == ops.fma(d.scales[g1 + c / 2], Chain(ops, nibbles, xf),
          ops.mul(d.biases[g1 + c / 2], Total(ops, xf)))
    {
      assert d.w[w1 + c] == g.w[w0 + w1 + c];
      assert seq(32, i requires 0 <= i < 32 => ops.nibble(d.w[w1 + c][i / 8], i % 8))
          == seq(32, i requires 0 <= i < 32 => ops.nibble(g.w[w0 + w1 + c][i / 8], i % 8));
      assert seq(32, i requires 0 <= i < 32 => d.x[4 * c + i / 8][i % 8])
          == seq(32, i requires 0 <= i < 32 => g.x[x0 + 4 * c + i / 8][i % 8]);
    }
  }

  lemma SliceInside(a: nat, n: nat, k: nat)
    requires a < n
    ensures 0 <= a * k <= a * k + k <= n * k
  {
    Scale(a + 1, n, k);
    Scale(0, a, k);
    assert (a + 1) * k == a * k + k;
  }

  /** The warp of the gather launch that writes a cell: `blocks` warps per pair. */
  ghost function GatherWarp(n: nat, rows: nat, blocks: nat, cell: int): int
    requires n > 0 && rows > 0
  {
    cell / n * blocks + cell % n / rows
  }

  ghost predicate GatheredBefore(ops: Ops, g: Gather, rows: nat, warp: nat, out: Output)
    requires g.Valid()
    reads out, out.cells
  {
    && rows > 0 && out.cells.Length == |g.idx| * g.n
    && (forall cell :: cell in out.written <==>
          0 <= cell < |g.idx| * g.n && GatherWarp(g.n, rows, Blocks(g.n, rows), cell) < warp)
    && (forall cell :: cell in out.written ==> out.cells[cell] == GatherCell(ops, g, cell))
  }

  /** The value of a gathered cell: what the row kernel computes for that activation row alone on that expert. */
  ghost function GatherCell(ops: Ops, g: Gather, cell: int): F
    requires g.Valid()
  {
    if 0 <= cell < |g.idx| * g.n
    then DivRange(cell, |g.idx|, g.n); Cell(ops, g.Pair(cell / g.n).Terms(ops, cell % g.n, 0))
    else ops.zero
  }

  /** A warp's share of the gather launch is its share of its pair. */
  lemma GatherShare(n: nat, pairs: nat, rows: nat, warp: nat, cell: int)
    requires n > 0 && rows > 0
    ensures var blocks := Blocks(n, rows);
      && blocks > 0 && 0 <= warp / blocks && 0 <= warp % blocks < blocks
      && (warp / blocks < pairs ==>
           (OfWarp(cell, warp / blocks * n, n, 1, rows, warp % blocks)
            <==> 0 <= cell < pairs * n && GatherWarp(n, rows, blocks, cell) == warp))
      && (OfWarp(cell, warp / blocks * n, n, 1, rows, warp % blocks) ==>
           RowIn(warp / blocks * n, n, cell) == cell % n && cell / n == warp / blocks
           && InputIn(warp / blocks * n, n, cell) == 0)
  {
    var blocks := Blocks(n, rows);
    RowInBlocks(n, rows, 0);
    DivIdentity(warp, blocks);
    var pair := warp / blocks;
    Scale(0, pair, n);
    if 0 <= cell - pair * n < n {
      DivMod(pair, cell - pair * n, n);
      DivMod(0, cell - pair * n, n);
      RowInBlocks(n, rows, cell - pair * n);
      DivIdentity(cell - pair * n, rows);
      DivMod(pair, (cell - pair * n) / rows, blocks);
      if pair < pairs {
        SliceInside(pair, pairs, n);
      }
    }
    if 0 <= cell < pairs * n {
      DivRange(cell, pairs, n);
      DivIdentity(cell, n);
      RowInBlocks(n, rows, cell % n);
      DivIdentity(cell % n, rows);
      DivMod(cell / n, cell % n / rows, blocks);
    }
  }

  /** `_gather_qmv`: every (token, expert) pair's row is, cell by cell, what the row kernel at one activation row
      computes on that expert. Every cell is written once. */
  method GatherRows(ops: Ops, g: Gather) returns (out: Output)
    requires g.Valid()
    ensures out.cells.Length == |g.idx| * g.n && forall i :: i in out.written <==> 0 <= i < out.cells.Length
    ensures forall p, row :: 0 <= p < |g.idx| && 0 <= row < g.n ==>
              && 0 <= CellAt(0, g.n, p, row) < out.cells.Length
              && out.cells[CellAt(0, g.n, p, row)] == Cell(ops, g.Pair(p).Terms(ops, row, 0))
    ensures forall p, row, terms ::
              0 <= p < |g.idx| && 0 <= row < g.n && AreGatherTerms(ops, g, p, row, terms) ==>
              0 <= p * g.n + row < out.cells.Length && out.cells[p * g.n + row] == Cell(ops, terms)
  {
    hide Cell;
    hide Gather.Pair;
    hide GatherWarp;
    hide CellAt;
    out := new Output(|g.idx| * g.n, ops.zero);
    var rows := RowsPerWarp(g.n);
    var warps := Grid(|g.idx| * Blocks(g.n, rows));
    NoGatherWarp(g.n, |g.idx|, rows);
    assert GatheredBefore(ops, g, rows, 0, out);
    hide GatheredBefore;
    for warp := 0 to warps
      invariant fresh(out) && fresh(out.cells) && GatheredBefore(ops, g, rows, warp, out)
    {
      GatherStep(ops, g, rows, warp, out);
    }
    AllGathered(ops, g, rows, warps, out);
    RawGatherRows(ops, g, out);
  }

  lemma RawGatherRows(ops: Ops, g: Gather, out: Output)
    requires g.Valid()
    requires forall p, row :: 0 <= p < |g.idx| && 0 <= row < g.n ==>
               && 0 <= CellAt(0, g.n, p, row) < out.cells.Length
               && out.cells[CellAt(0, g.n, p, row)] == Cell(ops, g.Pair(p).Terms(ops, row, 0))
    ensures forall p, row, terms ::
              0 <= p < |g.idx| && 0 <= row < g.n && AreGatherTerms(ops, g, p, row, terms) ==>
              0 <= p * g.n + row < out.cells.Length && out.cells[p * g.n + row] == Cell(ops, terms)
  {
    hide Cell;
    hide Gather.Pair;
    hide AreGatherTerms;
    forall p, row, terms | 0 <= p < |g.idx| && 0 <= row < g.n && AreGatherTerms(ops, g, p, row, terms)
      ensures 0 <= p * g.n + row < out.cells.Length && out.cells[p * g.n + row] == Cell(ops, terms)
    {
      GatherTermsAreRaw(ops, g, p, row, terms);
      assert CellAt(0, g.n, p, row) == p * g.n + row;
    }
  }

  lemma NoGatherWarp(n: nat, pairs: nat, rows: nat)
    requires n > 0 && rows > 0
    ensures forall cell :: 0 <= cell < pairs * n ==> GatherWarp(n, rows, Blocks(n, rows), cell) >= 0
  {
    forall cell | 0 <= cell < pairs * n
      ensures GatherWarp(n, rows, Blocks(n, rows), cell) >= 0
    {
      DivIdentity(cell, n);
      Scale(0, cell / n, Blocks(n, rows));
    }
  }

  /** One warp: pair `warp / W`, rows from `warp % W` on; a warp past the last pair or row returns at once. */
  method GatherStep(ops: Ops, g: Gather, rows: nat, warp: nat, out: Output)
    requires g.Valid() && GatheredBefore(ops, g, rows, warp, out)
    modifies out, out.cells
    ensures GatheredBefore(ops, g, rows, warp + 1, out)
  {
    hide Cell;
    hide Gather.Pair;
    hide GatherWarp;
    hide OfWarp;
    hide RowIn;
    hide InputIn;
    hide Joined;
    hide Blocks;
    GatherShare(g.n, |g.idx|, rows, warp, 0);
    var blocks := Blocks(g.n, rows);
    var pair, block := warp / blocks, warp % blocks;
    if pair >= |g.idx| || block * rows >= g.n {
      SurplusGather(g.n, |g.idx|, rows, warp);
      return;
    }
    SliceInside(pair, |g.idx|, g.n);
    forall cell
      ensures OfWarp(cell, pair * g.n, g.n, 1, rows, block)
              <==> 0 <= cell < |g.idx| * g.n && GatherWarp(g.n, rows, blocks, cell) == warp
      ensures OfWarp(cell, pair * g.n, g.n, 1, rows, block) ==>
                RowIn(pair * g.n, g.n, cell) == cell % g.n && cell / g.n == pair && InputIn(pair * g.n, g.n, cell) == 0
    {
      GatherShare(g.n, |g.idx|, rows, warp, cell);
    }
    var d := g.Pair(pair);
    ghost var value := NativeCell(ops, d);
    var registers := NativeWarp(ops, d, block * rows, rows);
    WriteBlock(ops, registers, pair * g.n, g.n, 1, block, rows, out, value);
    forall cell | OfWarp(cell, pair * g.n, g.n, 1, rows, block)
      ensures out.cells[cell] == GatherCell(ops, g, cell)
    {
      assert value(cell % g.n, 0) == Cell(ops, d.Terms(ops, cell % g.n, 0));
    }
  }

  lemma SurplusGather(n: nat, pairs: nat, rows: nat, warp: nat)
    requires n > 0 && rows > 0 && Blocks(n, rows) > 0
    requires warp / Blocks(n, rows) >= pairs || warp % Blocks(n, rows) * rows >= n
    ensures forall cell :: 0 <= cell < pairs * n ==> GatherWarp(n, rows, Blocks(n, rows), cell) != warp
  {
    var blocks := Blocks(n, rows);
    forall cell | 0 <= cell < pairs * n
      ensures GatherWarp(n, rows, blocks, cell) != warp
    {
      DivRange(cell, pairs, n);
      RowInBlocks(n, rows, cell % n);
      DivIdentity(cell % n, rows);
      DivMod(cell / n, cell % n / rows, blocks);
      if cell % n / rows == warp % blocks {
        assert warp % blocks * rows <= cell % n;
      }
    }
  }

  lemma AllGathered(ops: Ops, g: Gather, rows: nat, warps: nat, out: Output)
    requires g.Valid() && GatheredBefore(ops, g, rows, warps, out) && warps >= |g.idx| * Blocks(g.n, rows)
    ensures out.cells.Length == |g.idx| * g.n && forall i :: i in out.written <==> 0 <= i < out.cells.Length
    ensures forall p, row :: 0 <= p < |g.idx| && 0 <= row < g.n ==>
              && 0 <= CellAt(0, g.n, p, row) < out.cells.Length
              && out.cells[CellAt(0, g.n, p, row)] == Cell(ops, g.Pair(p).Terms(ops, row, 0))
  {
    hide Cell;
    hide Gather.Pair;
    var n, blocks := g.n, Blocks(g.n, rows);
    forall cell | 0 <= cell < |g.idx| * n
      ensures GatherWarp(n, rows, blocks, cell) < warps
    {
      DivRange(cell, |g.idx|, n);
      RowInBlocks(n, rows, cell % n);
      DivIdentity(cell % n, rows);
      PairInside(cell / n, |g.idx|, cell % n / rows, blocks);
    }
    forall p, row | 0 <= p < |g.idx| && 0 <= row < n
      ensures 0 <= CellAt(0, n, p, row) < out.cells.Length
           && out.cells[CellAt(0, n, p, row)] == Cell(ops, g.Pair(p).Terms(ops, row, 0))
    {
      PairInside(p, |g.idx|, row, n);
      DivMod(p, row, n);
    }
  }
}

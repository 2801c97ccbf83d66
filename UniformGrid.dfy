/**
  The CPU half of the uniform-grid particle demo (another_test.py): the
  sizes of the particle and offsets textures, the sort of the particle rows
  by grid cell, and the offsets table that records where each cell's run of
  rows begins, so that a neighbour scan can start there and stop as soon as
  the cell changes.

  A particle row is (x, y, theta, cell). The cell column is a float in the
  source and is read back with `int(...)`; cells are nonnegative, so the
  model keeps it as an integer.
 */
module UniformGrid {

  /** Width of every data texture: rows are laid out 8192 per texture line. */
  const TextureWidth: nat := 8192

  /** Marker of a cell no particle is in: 0xFFFFFFFF. */
  const EmptyCell: int := 0xFFFF_FFFF

  /** Height of the particle texture for `n` particles: the number of 8192-wide lines needed. */
  function ParticleTextureHeight(n: nat): (h: nat)
    ensures TextureWidth * h >= n
    ensures TextureWidth * (h - 1) < n
  {
    var h := n / TextureWidth;
    if n % TextureWidth != 0 then h + 1 else h
  }

  /** Smaller of two naturals. */
  function Min(a: nat, b: nat): nat
  {
    if a <= b then a else b
  }

  /**
    Size (width, height) of the offsets texture for `cells` grid cells:
    one line of `cells` entries when they fit in 8192, else 8192-wide lines.
    It always has room for every cell and wastes at most one line: a whole
    line when the count is a multiple of 8192 above 8192.
   */
  function OffsetsTextureSize(cells: nat): (size: (nat, nat))
    ensures size.0 == Min(TextureWidth, cells)
    ensures size.0 * size.1 >= cells
    ensures size.0 * size.1 <= cells + TextureWidth
  {
    var width := Min(TextureWidth, cells);
    var height := if cells > TextureWidth then cells / TextureWidth + 1 else 1;
    (width, height)
  }

  /** The sizes for the demo's own constants: 99999 particles on a 680 x 360 grid. */
  lemma DemoTextureSizes()
    ensures ParticleTextureHeight(99999) == 13
    ensures OffsetsTextureSize(680 * 360) == (8192, 30)
  {
  }

  /** 16384 cells, exactly two lines, still get a third, empty line. */
  lemma MultipleOfLineWastesALine()
    ensures OffsetsTextureSize(2 * TextureWidth) == (TextureWidth, 3)
  {
  }

  /** One particle row: position, heading and grid cell. */
  datatype Particle = Particle(x: real, y: real, theta: real, cell: int)

  /** Rows in non-decreasing cell order. */
  predicate SortedByCell(rows: seq<Particle>)
  {
    forall i, j :: 0 <= i < j < |rows| ==> rows[i].cell <= rows[j].cell
  }

  /** Insert one row into rows sorted by cell, keeping them sorted. */
  function InsertByCell(p: Particle, rows: seq<Particle>): (r: seq<Particle>)
    requires SortedByCell(rows)
    ensures SortedByCell(r)
    ensures multiset(r) == multiset(rows) + multiset{p}
    ensures |r| == |rows| + 1
    ensures r[0] == p || (|rows| > 0 && r[0] == rows[0])
  {
    if rows == [] || p.cell <= rows[0].cell then
      assert forall k :: 0 <= k < |rows| ==> p.cell <= rows[k].cell;
      [p] + rows
    else
      var tail := InsertByCell(p, rows[1..]);
      assert forall k :: 0 <= k < |tail| ==> rows[0].cell <= tail[0].cell <= tail[k].cell;
      assert rows == [rows[0]] + rows[1..];
      assert multiset([rows[0]] + tail) == multiset{rows[0]} + multiset(tail);
      [rows[0]] + tail
  }

  /**
    The rows ordered by cell, as `data[np.argsort(data[:, 3])]` orders them:
    a permutation of the input in non-decreasing cell order. (The order among
    rows of one cell is not specified by the source either.)
   */
  function SortByCell(rows: seq<Particle>): (sorted: seq<Particle>)
    ensures SortedByCell(sorted)
    ensures multiset(sorted) == multiset(rows)
    ensures |sorted| == |rows|
  {
    if rows == [] then []
    else
      assert rows == [rows[0]] + rows[1..];
      InsertByCell(rows[0], SortByCell(rows[1..]))
  }

  /**
    `np.resize(s, m)`: the elements of `s` repeated cyclically until there are
    `m` of them (all `fill`, numpy's zero, when `s` is empty). The original
    comes first, and from then on every element repeats the one `|s|` before.
   */
  function Resize<T>(s: seq<T>, m: nat, fill: T): (r: seq<T>)
    ensures |r| == m
    ensures |s| == 0 ==> forall i :: 0 <= i < m ==> r[i] == fill
    ensures m >= |s| ==> r[..|s|] == s
    ensures |s| > 0 ==> forall i :: |s| <= i < m ==> r[i] == r[i - |s|]
  {
    var r := seq(m, i requires 0 <= i < m => if |s| == 0 then fill else s[i % |s|]);
    if |s| == 0 then r else CyclicFacts(s, r); r
  }

  /** A sequence that reads `s` cyclically starts with `s` and repeats with period `|s|`. */
  lemma CyclicFacts<T>(s: seq<T>, r: seq<T>)
    requires |s| > 0
    requires forall i :: 0 <= i < |r| ==> r[i] == s[i % |s|]
    ensures |r| >= |s| ==> r[..|s|] == s
    ensures forall i :: |s| <= i < |r| ==> r[i] == r[i - |s|]
  {
    forall i | 0 <= i < |s| && i < |r|
      ensures r[i] == s[i]
    {
      ModOfSmaller(i, |s|);
    }
    forall i | |s| <= i < |r|
      ensures r[i] == r[i - |s|]
    {
      ModShift(i, |s|);
    }
  }

  lemma ModOfSmaller(i: int, n: int)
    requires 0 <= i < n
    ensures i % n == i
  {
  }

  lemma ModShift(i: int, n: int)
    requires 0 < n <= i
    ensures i % n == (i - n) % n
  {
    ModUnique(i, n, (i - n) / n + 1, (i - n) % n);
  }

  /** The remainder is the unique r in [0, n) with a == k * n + r. */
  lemma ModUnique(a: int, n: int, k: int, r: int)
    requires 0 <= r < n && a == k * n + r
    ensures a % n == r
  {
    var d := a / n - k;
    assert n * d == r - a % n;
  }

  /** A zero row: what numpy pads with. */
  const ZeroRow := Particle(0.0, 0.0, 0.0, 0)

  /** The rows written to the particle texture: sorted by cell, then resized to fill it. */
  function TextureRows(data: seq<Particle>): seq<Particle>
  {
    Resize(SortByCell(data), TextureWidth * ParticleTextureHeight(|data|), ZeroRow)
  }

  /**
    The first N texture rows, the ones the offsets loop reads, are the
    particles themselves, sorted by cell.
   */
  lemma TextureRowsStartSorted(data: seq<Particle>)
    ensures |TextureRows(data)| >= |data|
    ensures TextureRows(data)[..|data|] == SortByCell(data)
    ensures SortedByCell(TextureRows(data)[..|data|])
    ensures multiset(TextureRows(data)[..|data|]) == multiset(data)
  {
  }

  /** The cell column of rows: `int(cell)` for each. */
  function Cells(rows: seq<Particle>): seq<int>
  {
    seq(|rows|, i requires 0 <= i < |rows| => rows[i].cell)
  }

  /** Row i begins a run: it is the first row or its cell differs from the previous row's. */
  predicate RunStart(cells: seq<int>, i: int)
  {
    0 <= i < |cells| && (i == 0 || cells[i - 1] != cells[i])
  }

  /** `k` is where the last run of cell `c` among the first `n` rows begins. */
  predicate LastRunStart(cells: seq<int>, n: int, c: int, k: int)
    requires 0 <= n <= |cells|
  {
    0 <= k < n && RunStart(cells, k) && cells[k] == c
    && forall m :: k < m < n && RunStart(cells, m) ==> cells[m] != c
  }

  /** Every cell id indexes the offsets table. */
  predicate CellsInRange(cells: seq<int>, numCells: nat)
  {
    forall i :: 0 <= i < |cells| ==> 0 <= cells[i] < numCells
  }

  /** The entry for cell `c` after the offsets loop has read the first `n` rows. */
  predicate OffsetEntry(cells: seq<int>, n: int, c: int, v: int)
    requires 0 <= n <= |cells|
  {
    if c in cells[..n] then LastRunStart(cells, n, c, v) else v == EmptyCell
  }

  /**
    The offsets loop: every entry starts as 0xFFFFFFFF; rows are walked in
    order and, whenever a row's cell differs from the previous row's, the
    entry of that cell is set to the row's index. The last run of each cell
    therefore wins; cells that never occur keep the marker.
   */
  method ComputeOffsets(cells: seq<int>, numCells: nat) returns (offsets: array<int>)
    requires CellsInRange(cells, numCells)
    requires |cells| <= EmptyCell
    ensures fresh(offsets) && offsets.Length == numCells
    ensures forall c :: 0 <= c < numCells ==> OffsetEntry(cells, |cells|, c, offsets[c])
  {
    offsets := new int[numCells](_ => EmptyCell);
    var prevCell: int := -1;
    var hasPrev := false;
    for i := 0 to |cells|
      invariant hasPrev <==> i > 0
      invariant hasPrev ==> prevCell == cells[i - 1]
      invariant forall c :: 0 <= c < numCells ==> OffsetEntry(cells, i, c, offsets[c])
    {
      var cell := cells[i];
      assert cells[..i + 1] == cells[..i] + [cell];
      if !hasPrev || cell != prevCell {
        offsets[cell] := i;
        prevCell := cell;
        hasPrev := true;
      }
    }
    assert cells[..|cells|] == cells;
  }

  /** Index of the first row of cell `c`. */
  function FirstIndex(cells: seq<int>, c: int): (k: nat)
    requires c in cells
    ensures k < |cells| && cells[k] == c
    ensures forall j :: 0 <= j < k ==> cells[j] != c
  {
    if cells[0] == c then 0 else 1 + FirstIndex(cells[1..], c)
  }

  /** Cell ids in non-decreasing order, as after the sort by cell. */
  predicate SortedCells(cells: seq<int>)
  {
    forall i, j :: 0 <= i < j < |cells| ==> cells[i] <= cells[j]
  }

  /** Sorting the rows sorts their cell column. */
  lemma SortedRowsSortedCells(rows: seq<Particle>)
    requires SortedByCell(rows)
    ensures SortedCells(Cells(rows))
  {
  }

  /**
    On sorted cells each cell has one run, so the entry the offsets loop
    leaves for an occurring cell is the index of its first row.
   */
  lemma {:induction false} SortedOffsetIsFirstIndex(cells: seq<int>, c: int, v: int)
    requires SortedCells(cells)
    requires OffsetEntry(cells, |cells|, c, v)
    ensures c in cells ==> v == FirstIndex(cells, c)
    ensures c !in cells ==> v == EmptyCell
  {
    assert cells[..|cells|] == cells;
    if c in cells {
      assert RunStart(cells, FirstIndex(cells, c));
    }
  }

  /**
    On sorted cells the rows of cell `c` are exactly the rows a scan reaches
    when it starts at the first row of `c` and stops as soon as the cell
    changes: one contiguous run.
   */
  lemma {:induction false} SortedCellIsOneRun(cells: seq<int>, c: int, k: int)
    requires SortedCells(cells) && c in cells
    requires 0 <= k < |cells|
    ensures var f := FirstIndex(cells, c);
      cells[k] == c <==> f <= k && forall m :: f <= m <= k ==> cells[m] == c
  {
    var f := FirstIndex(cells, c);
    if cells[k] == c {
      assert f <= k;
      forall m | f <= m <= k
        ensures cells[m] == c
      {
        assert cells[f] <= cells[m] <= cells[k];
      }
    }
  }

  /**
    The table the demo computes each frame, for sorted particles whose cells
    all lie in the grid: an occurring cell maps to its first row, any other
    cell to 0xFFFFFFFF.
   */
  method SortedOffsets(data: seq<Particle>, numCells: nat) returns (offsets: array<int>)
    requires CellsInRange(Cells(data), numCells)
    requires |data| <= EmptyCell
    ensures fresh(offsets) && offsets.Length == numCells
    ensures forall c :: 0 <= c < numCells ==>
      offsets[c] == if c in Cells(SortByCell(data)) then FirstIndex(Cells(SortByCell(data)), c) else EmptyCell
  {
    var sorted := SortByCell(data);
    TextureRowsStartSorted(data);
    var rows := TextureRows(data)[..|data|];
    assert rows == sorted;
    var cells := Cells(rows);
    SortedRowsSortedCells(rows);
    forall i | 0 <= i < |cells|
      ensures 0 <= cells[i] < numCells
    {
      assert rows[i] in multiset(data);
      var j :| 0 <= j < |data| && data[j] == rows[i];
      assert Cells(data)[j] == cells[i];
    }
    offsets := ComputeOffsets(cells, numCells);
    forall c | 0 <= c < numCells
      ensures offsets[c] == if c in cells then FirstIndex(cells, c) else EmptyCell
    {
      SortedOffsetIsFirstIndex(cells, c, offsets[c]);
    }
  }
}

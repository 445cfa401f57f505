/** The cost field shared by planner, inflation and ray tracing. */
module Grids {
  import opened Arithmetic

  /** FREE, the inflation gradient 1..252, INSCRIBED and LETHAL. */
  type Cost = c: int | 0 <= c <= 254

  const FREE: Cost := 0
  const INSCRIBED: Cost := 253
  const LETHAL: Cost := 254

  datatype Cell = Cell(x: int, y: int)

  datatype GridData = GridData(width: int, height: int, cells: seq<Cost>) {
    ghost predicate Valid() {
      width >= 0 && height >= 0 && |cells| == width * height
    }

    predicate Inside(c: Cell) {
      0 <= c.x < width && 0 <= c.y < height
    }

    /** cost_at: cells outside the grid read as LETHAL. */
    function At(c: Cell): Cost
      requires Valid()
    {
      if Inside(c) then
        IndexInRange(c, width, height);
        cells[c.y * width + c.x]
      else LETHAL
    }

    predicate Traversable(c: Cell)
      requires Valid()
    {
      Inside(c) && At(c) < INSCRIBED
    }

    /** A write to one cell; writes outside the grid are dropped. */
    function Put(c: Cell, v: Cost): (g: GridData)
      requires Valid()
      ensures g.Valid() && g.width == width && g.height == height
    {
      if Inside(c) then
        IndexInRange(c, width, height);
        GridData(width, height, cells[c.y * width + c.x := v])
      else this
    }
  }

  type Grid = g: GridData | g.Valid() witness GridData(0, 0, [])

  lemma IndexInRange(c: Cell, width: int, height: int)
    requires 0 <= c.x < width && 0 <= c.y < height
    ensures 0 <= c.y * width + c.x < width * height
  {
    MulMonotone(c.y + 1, height, width);
    MulMonotone(0, c.y, width);
  }

  /** Row-major indexing never maps two cells to one slot. */
  lemma IndexInjective(a: Cell, b: Cell, width: int)
    requires 0 <= a.x < width && 0 <= b.x < width
    requires a.y * width + a.x == b.y * width + b.x
    ensures a == b
  {
    if a.y < b.y {
      MulMonotone(a.y + 1, b.y, width);
    } else if b.y < a.y {
      MulMonotone(b.y + 1, a.y, width);
    }
  }

  lemma PutAt(g: Grid, c: Cell, v: Cost, d: Cell)
    ensures g.Put(c, v).At(d) == if c == d && g.Inside(c) then v else g.At(d)
  {
    if g.Inside(c) && g.Inside(d) {
      IndexInRange(c, g.width, g.height);
      IndexInRange(d, g.width, g.height);
      if c.y * g.width + c.x == d.y * g.width + d.x {
        IndexInjective(c, d, g.width);
      }
    }
  }

  /** Two grids of one size that agree on every cell are equal. */
  lemma SameCells(a: Grid, b: Grid)
    requires a.width == b.width && a.height == b.height
    requires forall c: Cell :: a.Inside(c) ==> a.At(c) == b.At(c)
    ensures a == b
  {
    forall k | 0 <= k < |a.cells| ensures a.cells[k] == b.cells[k] {
      var w := a.width;
      CellOfIndex(k, w, a.height);
      var c := Cell(k % w, k / w);
      assert a.Inside(c) && a.At(c) == b.At(c);
    }
  }

  lemma CellOfIndex(k: int, width: int, height: int)
    requires 0 <= k < width * height && width >= 0
    ensures width > 0 && 0 <= k % width < width && 0 <= k / width < height
    ensures (k / width) * width + k % width == k
  {
    assert width > 0;
    if k / width >= height {
      MulMonotone(height, k / width, width);
    }
  }

  /** Squared distance in cells. */
  function Dist2(a: Cell, b: Cell): nat {
    SquareNonNegative(a.x - b.x);
    SquareNonNegative(a.y - b.y);
    (a.x - b.x) * (a.x - b.x) + (a.y - b.y) * (a.y - b.y)
  }

  function GridCells(width: nat, height: nat): (s: set<Cell>)
    ensures forall c :: c in s <==> 0 <= c.x < width && 0 <= c.y < height
  {
    set x, y | 0 <= x < width && 0 <= y < height :: Cell(x, y)
  }

  function Row(width: nat, y: int): (s: set<Cell>)
    ensures forall c :: c in s <==> 0 <= c.x < width && c.y == y
  {
    set x | 0 <= x < width :: Cell(x, y)
  }

  lemma {:induction false} RowSize(width: nat, y: int)
    ensures |Row(width, y)| == width
  {
    if width > 0 {
      RowSize(width - 1, y);
      assert Row(width, y) == Row(width - 1, y) + {Cell(width - 1, y)};
    }
  }

  lemma {:induction false} GridSize(width: nat, height: nat)
    ensures |GridCells(width, height)| == width * height
  {
    hide GridCells, Row;
    if height == 0 {
      assert GridCells(width, 0) == {};
    } else {
      GridSize(width, height - 1);
      RowSize(width, height - 1);
      OneMoreRow(width, height);
      assert GridCells(width, height) == GridCells(width, height - 1) + Row(width, height - 1);
      assert GridCells(width, height - 1) !! Row(width, height - 1);
    }
  }

  lemma OneMoreRow(width: nat, height: nat)
    requires height > 0
    ensures width * (height - 1) + width == width * height
  {
  }
}

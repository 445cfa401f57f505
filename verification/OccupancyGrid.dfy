/** The grid as the map layers see it: one buffer written in place. */
module OccupancyGrids {
  import opened Grids

  function MaxCost(a: Cost, b: Cost): Cost {
    if a < b then b else a
  }

  function Cleared(g: Grid, c: Cell): Grid {
    if g.Inside(c) && g.At(c) < LETHAL then g.Put(c, FREE) else g
  }

  class OccupancyGrid {
    const width: nat
    const height: nat
    const cells: array<Cost>

    ghost predicate Valid() {
      cells.Length == width * height
    }

    function View(): Grid
      requires Valid()
      reads cells
    {
      GridData(width, height, cells[..])
    }

    constructor (width: nat, height: nat)
      ensures Valid() && this.width == width && this.height == height && fresh(cells)
      ensures forall k :: 0 <= k < cells.Length ==> cells[k] == FREE
    {
      this.width, this.height := width, height;
      var n := width * height;
      cells := new Cost[n](_ => FREE);
    }

    method SetCost(c: Cell, v: Cost)
      requires Valid()
      modifies cells
      ensures View() == old(View()).Put(c, v)
    {
      if c.x < 0 || c.x >= width || c.y < 0 || c.y >= height { return; }
      IndexInRange(c, width, height);
      cells[c.y * width + c.x] := v;
    }

    method SetCostMax(c: Cell, v: Cost)
      requires Valid()
      modifies cells
      ensures View() == old(View()).Put(c, MaxCost(old(View()).At(c), v))
    {
      if c.x < 0 || c.x >= width || c.y < 0 || c.y >= height { return; }
      IndexInRange(c, width, height);
      var k := c.y * width + c.x;
      cells[k] := MaxCost(cells[k], v);
    }

    /** Clearing lowers everything but an obstacle body. */
    method SetFreeIfNotLethal(c: Cell)
      requires Valid()
      modifies cells
      ensures View() == Cleared(old(View()), c)
    {
      if c.x < 0 || c.x >= width || c.y < 0 || c.y >= height { return; }
      IndexInRange(c, width, height);
      var k := c.y * width + c.x;
      if cells[k] < LETHAL {
        cells[k] := FREE;
      }
    }
  }
}

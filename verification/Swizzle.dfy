/** The grouped program-id swizzle of learning/06_gemm/gemm.py and
    learning/06_gemm/qwen_prefill_gemm.py, and its inverse. */
module Swizzle {
  import opened Basics

  /** `p` by `q` output tiles, walked in groups of `g` tile rows. */
  datatype Grid = Grid(p: nat, q: nat, g: nat)
  {
    predicate Valid() {
      p > 0 && q > 0 && g > 0
    }

    function Group(pid: nat): nat
      requires Valid()
    {
      pid / Width()
    }

    /** `programs_per_group` */
    function Width(): (w: nat)
      requires Valid()
      ensures w > 0
    {
      Positive(g, q);
      g * q
    }

    /** Tile rows of group `i`; the last group may be smaller. */
    function GroupRows(i: nat): int
    {
      if p - i * g < g then p - i * g else g
    }
  }

  lemma Positive(a: nat, b: nat)
    requires a > 0 && b > 0
    ensures a * b > 0
  {
    MulMonotone(1, a, b);
  }

  /** A program id below `p * q` lies in a nonempty group, at a place below the group's tiles. */
  lemma GroupOf(grid: Grid, pid: nat)
    requires grid.Valid() && pid < grid.p * grid.q
    ensures var i := grid.Group(pid);
      && i * grid.g < grid.p && grid.GroupRows(i) > 0
      && i * grid.Width() <= pid && pid - i * grid.Width() == pid % grid.Width()
      && pid % grid.Width() < grid.GroupRows(i) * grid.q
  {
    var i, w := grid.Group(pid), grid.Width();
    assert pid == i * w + pid % w;
    assert i * w == (i * grid.g) * grid.q by { Associate(i, grid.g, grid.q); }
    if i * grid.g >= grid.p {
      MulMonotone(grid.p, i * grid.g, grid.q);
    }
    if grid.GroupRows(i) < grid.g {
      assert (grid.p - i * grid.g) * grid.q == grid.p * grid.q - (i * grid.g) * grid.q;
    }
  }

  lemma Commute(a: nat, b: nat)
    ensures a * b == b * a
  {
  }

  lemma Associate(a: int, b: int, c: int)
    ensures a * (b * c) == (a * b) * c
  {
  }

  /** `(program_m, program_n)`. Note that the row uses `program_id`, not its place in the group. */
  function Tile(grid: Grid, pid: nat): (t: (nat, nat))
    requires grid.Valid() && pid < grid.p * grid.q
  {
    GroupOf(grid, pid);
    var i := grid.Group(pid);
    var rows := grid.GroupRows(i);
    NatTimes(i, grid.g);
    (i * grid.g + pid % rows, pid % grid.Width() / rows)
  }

  /** The rotation that undoes `program_id % group_m` inside a group that starts at `base`. */
  function Unrotate(row: nat, base: nat, rows: nat): nat
    requires row < rows
  {
    (row + rows - base % rows) % rows
  }

  /** The program that owns tile `(m, n)`. */
  function Program(grid: Grid, m: nat, n: nat): nat
    requires grid.Valid() && m < grid.p && n < grid.q
  {
    RowGroup(grid, m);
    var i := m / grid.g;
    var rows, base := grid.GroupRows(i), i * grid.Width();
    NatTimes(i, grid.Width());
    NatTimes(n, rows);
    base + n * rows + Unrotate(m - i * grid.g, base, rows)
  }

  lemma RowGroup(grid: Grid, m: nat)
    requires grid.Valid() && m < grid.p
    ensures m / grid.g * grid.g <= m && m - m / grid.g * grid.g < grid.GroupRows(m / grid.g)
  {
    assert m == m / grid.g * grid.g + m % grid.g;
  }

  /** Unrotating gives the place in the group back, and the other way round. */
  lemma RotateUnrotate(local: nat, base: nat, rows: nat)
    requires rows > 0
    ensures (base + local) % rows < rows
    ensures Unrotate((base + local) % rows, base, rows) == local % rows
  {
    var b, l := base % rows, local % rows;
    var s := (base + local) % rows;
    ModOfSum(base, local, rows);
    if b + l < rows {
      DivIs(b + l, rows, 0, b + l);
      DivIs(s + rows - b, rows, 1, l);
    } else {
      DivIs(b + l, rows, 1, b + l - rows);
      DivIs(s + rows - b, rows, 0, l);
    }
  }

  lemma UnrotateRotate(row: nat, base: nat, rows: nat)
    requires row < rows
    ensures Unrotate(row, base, rows) < rows
    ensures (base + Unrotate(row, base, rows)) % rows == row
  {
    var b := base % rows;
    var l := Unrotate(row, base, rows);
    if row >= b {
      DivIs(row + rows - b, rows, 1, row - b);
    } else {
      DivIs(row + rows - b, rows, 0, row + rows - b);
    }
    ModOfSum(base, l, rows);
    DivIs(l, rows, 0, l);
    if row >= b {
      DivIs(b + l, rows, 0, row);
    } else {
      DivIs(b + l, rows, 1, row);
    }
  }

  lemma ModOfSum(a: nat, b: nat, m: nat)
    requires m > 0
    ensures (a + b) % m == (a % m + b % m) % m
  {
    var x, y, z := a / m, b / m, (a % m + b % m) / m;
    var r := (a % m + b % m) % m;
    assert a == x * m + a % m;
    assert b == y * m + b % m;
    assert a % m + b % m == z * m + r;
    ThreeParts(x, y, z, m);
    DivIs(a + b, m, x + y + z, r);
  }

  lemma ThreeParts(x: nat, y: nat, z: nat, m: nat)
    ensures (x + y + z) * m == x * m + y * m + z * m
  {
  }

  /** Where a program stands: group `i`, which starts at `base` and has `rows` tile rows, and its
      place `local` in the group. */
  lemma Place(grid: Grid, pid: nat) returns (i: nat, base: nat, rows: nat, local: nat)
    requires grid.Valid() && pid < grid.p * grid.q
    ensures i * grid.g < grid.p && base == i * grid.Width() && rows == grid.GroupRows(i) && rows > 0
    ensures pid == base + local && local < rows * grid.q && pid % rows < rows
    ensures Tile(grid, pid) == (i * grid.g + pid % rows, local / rows)
  {
    GroupOf(grid, pid);
    i, rows := grid.Group(pid), grid.GroupRows(grid.Group(pid));
    base, local := i * grid.Width(), pid % grid.Width();
  }

  /** Every program owns a tile of the grid, and the tile gives the program back: no two programs
      share a tile. */
  lemma TileThenProgram(grid: Grid, pid: nat)
    requires grid.Valid() && pid < grid.p * grid.q
    ensures Tile(grid, pid).0 < grid.p && Tile(grid, pid).1 < grid.q
    ensures Program(grid, Tile(grid, pid).0, Tile(grid, pid).1) == pid
  {
    hide Tile;
    hide Program;
    hide Unrotate;
    var i, base, rows, local := Place(grid, pid);
    var row := pid % rows;
    QuotientBelow(local, grid.q, rows);
    assert i * grid.g + row < grid.p;
    DivIs(i * grid.g + row, grid.g, i, row);
    PlaceIs(grid, i, row, local / rows, base, rows);
    RotateUnrotate(local, base, rows);
    assert local == local / rows * rows + local % rows;
  }

  lemma PlaceIs(grid: Grid, i: nat, row: nat, n: nat, base: nat, rows: nat)
    requires grid.Valid() && i * grid.g + row < grid.p && n < grid.q && (i * grid.g + row) / grid.g == i
    requires base == i * grid.Width() && rows == grid.GroupRows(i) && row < rows
    ensures Program(grid, i * grid.g + row, n) == base + n * rows + Unrotate(row, base, rows)
  {
  }

  /** Every tile is owned: its program is in the launch grid and maps to it. */
  lemma ProgramThenTile(grid: Grid, m: nat, n: nat)
    requires grid.Valid() && m < grid.p && n < grid.q
    ensures Program(grid, m, n) < grid.p * grid.q
    ensures Tile(grid, Program(grid, m, n)) == (m, n)
  {
    hide Tile;
    hide Unrotate;
    RowGroup(grid, m);
    var i := m / grid.g;
    var rows, base := grid.GroupRows(i), i * grid.Width();
    var l := Unrotate(m - i * grid.g, base, rows);
    UnrotateRotate(m - i * grid.g, base, rows);
    var local := n * rows + l;
    RowBelow(n, grid.q, rows);
    Commute(grid.q, rows);
    NatTimes(n, rows);
    TileAt(grid, i, local);
    DivIs(local, rows, n, l);
    DivIs(l, rows, 0, l);
    RowOfPlace(base, local, rows, l);
  }

  /** The row only depends on the place modulo the group's rows. */
  lemma RowOfPlace(base: nat, local: nat, rows: nat, l: nat)
    requires rows > 0 && local % rows == l % rows
    ensures (base + local) % rows == (base + l) % rows
  {
    ModOfSum(base, local, rows);
    ModOfSum(base, l, rows);
  }

  /** The tile of the program at place `local` of group `i`. */
  lemma TileAt(grid: Grid, i: nat, local: nat)
    requires grid.Valid() && i * grid.g < grid.p && local < grid.GroupRows(i) * grid.q
    ensures var pid := i * grid.Width() + local;
      && pid < grid.p * grid.q && grid.GroupRows(i) > 0
      && Tile(grid, pid) == (i * grid.g + pid % grid.GroupRows(i), local / grid.GroupRows(i))
  {
    InGrid(grid, i, local);
    MulMonotone(grid.GroupRows(i), grid.g, grid.q);
    DivIs(i * grid.Width() + local, grid.Width(), i, local);
  }

  lemma InGrid(grid: Grid, i: nat, local: nat)
    requires grid.Valid() && i * grid.g < grid.p && local < grid.GroupRows(i) * grid.q
    ensures i * grid.Width() + local < grid.p * grid.q
  {
    Associate(i, grid.g, grid.q);
    MulMonotone(grid.GroupRows(i), grid.p - i * grid.g, grid.q);
    assert (grid.p - i * grid.g) * grid.q == grid.p * grid.q - (i * grid.g) * grid.q;
  }

  /** The walk over the grid: programs of a group of `g` tile rows stay in it and take its columns
      from left to right; within a column each next program takes the next tile row, and the first
      row of the group after the last. */
  lemma Walk(grid: Grid, pid: nat, later: nat)
    requires grid.Valid() && pid < later < grid.p * grid.q
    ensures grid.g * grid.q > 0
    ensures pid / (grid.g * grid.q) == Tile(grid, pid).0 / grid.g
    ensures pid / (grid.g * grid.q) == later / (grid.g * grid.q) ==>
      && Tile(grid, pid).1 <= Tile(grid, later).1
      && (later == pid + 1 && Tile(grid, later).1 == Tile(grid, pid).1 ==>
            NextTileRow(grid, Tile(grid, pid).0, Tile(grid, later).0))
  {
    hide Tile;
    hide NextTileRow;
    Positive(grid.g, grid.q);
    var i, base, rows, local := Place(grid, pid);
    var i', base', rows', local' := Place(grid, later);
    GroupIs(grid, i, base, local);
    GroupIs(grid, i', base', local');
    DivIs(i * grid.g + pid % rows, grid.g, i, pid % rows);
    if pid / (grid.g * grid.q) == later / (grid.g * grid.q) {
      QuotientGrows(local, local', rows);
      if later == pid + 1 {
        NextResidue(pid, rows);
        RowsOfGroup(grid, i, pid % rows, later % rows);
      }
    }
  }

  /** The tile row after `row` in its group of `g`, or the first one of the group after the last. */
  predicate NextTileRow(grid: Grid, row: nat, next: nat)
    requires grid.g > 0
  {
    if row + 1 < grid.p && (row + 1) / grid.g == row / grid.g then next == row + 1 else next == row / grid.g * grid.g
  }

  lemma GroupIs(grid: Grid, i: nat, base: nat, local: nat)
    requires grid.Valid() && base == i * grid.Width() && local < grid.GroupRows(i) * grid.q
    ensures (base + local) / (grid.g * grid.q) == i
  {
    MulMonotone(grid.GroupRows(i), grid.g, grid.q);
    DivIs(base + local, grid.Width(), i, local);
  }

  lemma QuotientGrows(a: nat, b: nat, m: nat)
    requires m > 0 && a <= b
    ensures a / m <= b / m
  {
    if b / m + 1 <= a / m { MulMonotone(b / m + 1, a / m, m); }
    assert (b / m + 1) * m == b / m * m + m;
  }

  lemma NextResidue(a: nat, m: nat)
    requires m > 0
    ensures (a + 1) % m == if a % m + 1 < m then a % m + 1 else 0
  {
    var q := a / m;
    assert a == q * m + a % m;
    assert (q + 1) * m == q * m + m;
    if a % m + 1 < m { DivIs(a + 1, m, q, a % m + 1); } else { DivIs(a + 1, m, q + 1, 0); }
  }

  lemma RowsOfGroup(grid: Grid, i: nat, row: nat, next: nat)
    requires grid.Valid() && i * grid.g < grid.p && row < grid.GroupRows(i)
    requires next == if row + 1 < grid.GroupRows(i) then row + 1 else 0
    ensures i * grid.g >= 0 && NextTileRow(grid, i * grid.g + row, i * grid.g + next)
  {
    DivIs(i * grid.g + row, grid.g, i, row);
    if row + 1 < grid.g {
      DivIs(i * grid.g + row + 1, grid.g, i, row + 1);
    } else {
      assert (i + 1) * grid.g == i * grid.g + grid.g;
      DivIs(i * grid.g + row + 1, grid.g, i + 1, 0);
    }
  }
}

/** How many columns the participant grid gets: every possible grid is measured,
    and the best one that keeps tiles usable is chosen. */
module Layout {

  datatype Stage = Stage(
    width: real, height: real, gap: real, aspectRatio: real,
    minTileWidth: real, minTileHeight: real, maxTileWidth: real,
    preferredColumns: real, maxColumns: real)

  datatype Grid = Grid(
    columns: int, rows: int, tileWidth: real, tileHeight: real, rowCounts: seq<int>,
    belowMinimum: bool, score: real)

  datatype Choice = Nothing | Fallback | Chosen(grid: Grid)

  function Min(a: real, b: real): real {
    if a < b then a else b
  }

  function CeilDiv(a: nat, b: nat): (r: nat)
    requires b > 0
  {
    (a + b - 1) / b
  }

  function AvailableWidth(s: Stage, columns: nat): real
    requires columns > 0
  {
    (s.width - s.gap * (columns - 1) as real) / columns as real
  }

  function AvailableHeight(s: Stage, rows: nat): real
    requires rows > 0
  {
    (s.height - s.gap * (rows - 1) as real) / rows as real
  }

  function RowCounts(count: nat, columns: nat): seq<int>
    requires columns > 0
  {
    seq(CeilDiv(count, columns), row => if columns < count - row * columns then columns else count - row * columns)
  }

  lemma CeilIsLeast(a: nat, b: nat)
    requires b > 0
    ensures var r := CeilDiv(a, b); b * r >= a && (a > 0 ==> r > 0 && b * (r - 1) < a)
  {
  }

  // Whether a grid of so many columns leaves room for any tile at all.
  predicate Possible(s: Stage, count: nat, columns: nat) {
    0 < columns <= count && AvailableWidth(s, columns) > 0.0 &&
    (CeilIsLeast(count, columns); AvailableHeight(s, CeilDiv(count, columns)) > 0.0)
  }

  function TileWidth(s: Stage, count: nat, columns: nat): real
    requires Possible(s, count, columns)
  {
    CeilIsLeast(count, columns);
    Min(Min(AvailableWidth(s, columns), AvailableHeight(s, CeilDiv(count, columns)) * s.aspectRatio), s.maxTileWidth)
  }

  function Score(s: Stage, columns: nat, area: real, belowMinimum: bool): real {
    var bonus := if s.preferredColumns == columns as real then 0.06 else 0.0;
    (if belowMinimum then area * 0.2 else area) + area * bonus
  }

  function Measured(s: Stage, count: nat, columns: nat): Grid
    requires s.aspectRatio > 0.0 && Possible(s, count, columns)
  {
    var tileWidth := TileWidth(s, count, columns);
    var tileHeight := tileWidth / s.aspectRatio;
    var belowMinimum := tileWidth < s.minTileWidth || tileHeight < s.minTileHeight;
    Grid(columns, CeilDiv(count, columns), tileWidth, tileHeight, RowCounts(count, columns), belowMinimum,
         Score(s, columns, tileWidth * tileHeight * count as real, belowMinimum))
  }

  function ColumnLimit(s: Stage, count: nat): int {
    if s.maxColumns > 0.0 then (if s.maxColumns.Floor < count then s.maxColumns.Floor else count) else count
  }

  // -- What a grid promises -----------------------------------------------------------

  function Sum(counts: seq<int>): int {
    if counts == [] then 0 else Sum(counts[..|counts| - 1]) + counts[|counts| - 1]
  }

  lemma {:induction false} FullRowsSum(counts: seq<int>, columns: int)
    requires forall i :: 0 <= i < |counts| ==> counts[i] == columns
    ensures Sum(counts) == columns * |counts|
    decreases |counts|
  {
    if counts != [] { FullRowsSum(counts[..|counts| - 1], columns); }
  }

  // Full rows but for the last, which takes what is left.
  lemma RowsHoldEveryone(count: nat, columns: nat)
    requires 0 < columns && 0 < count
    ensures var rows := RowCounts(count, columns);
            && |rows| == CeilDiv(count, columns) && Sum(rows) == count
            && (forall i :: 0 <= i < |rows| ==> 0 < rows[i] <= columns)
            && (forall i :: 0 <= i < |rows| - 1 ==> rows[i] == columns)
  {
    CeilIsLeast(count, columns);
    var rows := RowCounts(count, columns);
    var n := |rows|;
    forall i | 0 <= i < n ensures 0 < rows[i] <= columns && (i < n - 1 ==> rows[i] == columns) {
      RowFits(count, columns, n, i);
    }
    FullRowsSum(rows[..n - 1], columns);
  }

  lemma ProductGrows(k: nat, a: int, b: int)
    requires a <= b
    ensures k * a <= k * b
  {
  }

  lemma RowFits(count: nat, columns: nat, n: nat, i: nat)
    requires i < n && columns * (n - 1) < count
    ensures i * columns < count && (i < n - 1 ==> count - i * columns > columns)
  {
    ProductGrows(columns, i, n - 1);
    if i < n - 1 {
      ProductGrows(columns, i + 1, n - 1);
      assert columns * (i + 1) == columns * i + columns;
    }
  }

  // The room that `n` tiles and the gaps between them take.
  function Extent(share: real, gap: real, n: int): real {
    share * n as real + gap * (n - 1) as real
  }

  lemma ShareFits(total: real, gap: real, n: nat, share: real)
    requires n > 0 && share <= (total - gap * (n - 1) as real) / n as real
    ensures Extent(share, gap, n) <= total
  {
    var rest := total - gap * (n - 1) as real;
    ShareTimes(rest, n as real, share);
  }

  lemma ShareTimes(rest: real, n: real, share: real)
    requires n > 0.0 && share <= rest / n
    ensures share * n <= rest
  {
    assert rest / n * n == rest;
    assert (rest / n - share) * n >= 0.0;
  }

  lemma ScaledBack(width: real, height: real, ratio: real)
    requires ratio > 0.0 && width <= height * ratio
    ensures width / ratio <= height
  {
  }

  lemma TileIsShare(s: Stage, count: nat, columns: nat)
    requires Possible(s, count, columns)
    ensures CeilDiv(count, columns) > 0
    ensures TileWidth(s, count, columns) <= AvailableWidth(s, columns)
    ensures TileWidth(s, count, columns) <= AvailableHeight(s, CeilDiv(count, columns)) * s.aspectRatio
  {
    CeilIsLeast(count, columns);
  }

  lemma WidthFits(s: Stage, count: nat, columns: nat)
    requires Possible(s, count, columns)
    ensures Extent(TileWidth(s, count, columns), s.gap, columns) <= s.width
  {
    TileIsShare(s, count, columns);
    var width := TileWidth(s, count, columns);
    assert width <= (s.width - s.gap * (columns - 1) as real) / columns as real;
    ShareFits(s.width, s.gap, columns, width);
  }

  lemma HeightFits(s: Stage, count: nat, columns: nat)
    requires s.aspectRatio > 0.0 && Possible(s, count, columns)
    ensures CeilDiv(count, columns) > 0
    ensures Extent(TileWidth(s, count, columns) / s.aspectRatio, s.gap, CeilDiv(count, columns)) <= s.height
  {
    TileIsShare(s, count, columns);
    var rows, width := CeilDiv(count, columns), TileWidth(s, count, columns);
    ScaledBack(width, AvailableHeight(s, rows), s.aspectRatio);
    ShareFits(s.height, s.gap, rows, width / s.aspectRatio);
  }

  lemma MeasuredTiles(s: Stage, count: nat, columns: nat)
    requires s.aspectRatio > 0.0 && Possible(s, count, columns)
    ensures var g := Measured(s, count, columns);
            && g.columns == columns && g.rows == CeilDiv(count, columns)
            && g.tileWidth == TileWidth(s, count, columns) <= s.maxTileWidth
            && g.tileHeight == g.tileWidth / s.aspectRatio
  {
  }

  // The grid fits the stage in both directions, gaps included, and its tiles keep
  // the aspect ratio.
  lemma TilesFit(s: Stage, count: nat, columns: nat)
    requires s.aspectRatio > 0.0 && Possible(s, count, columns)
    ensures var g := Measured(s, count, columns);
            && Extent(g.tileWidth, s.gap, g.columns) <= s.width
            && Extent(g.tileHeight, s.gap, g.rows) <= s.height
            && g.tileHeight == g.tileWidth / s.aspectRatio && g.tileWidth <= s.maxTileWidth
  {
    MeasuredTiles(s, count, columns);
    WidthFits(s, count, columns);
    HeightFits(s, count, columns);
  }

  // It seats everybody, in as few rows as its columns allow, none of them empty.
  lemma RowsFit(s: Stage, count: nat, columns: nat)
    requires s.aspectRatio > 0.0 && Possible(s, count, columns)
    ensures var g := Measured(s, count, columns);
            && g.columns == columns && g.rows > 0 && columns * (g.rows - 1) < count <= columns * g.rows
            && |g.rowCounts| == g.rows && Sum(g.rowCounts) == count
            && (forall i :: 0 <= i < g.rows ==> 0 < g.rowCounts[i] <= columns)
  {
    CeilIsLeast(count, columns);
    RowsHoldEveryone(count, columns);
  }

  // A grid is possible exactly when the gaps alone do not fill the stage.
  lemma PossibleExactly(s: Stage, count: nat, columns: nat, rows: nat)
    requires 0 < columns <= count && columns * (rows - 1) < count <= columns * rows
    ensures Possible(s, count, columns) <==>
            s.gap * (columns - 1) as real < s.width && s.gap * (rows - 1) as real < s.height
  {
    CeilIsLeast(count, columns);
    LeastIsUnique(count, columns, rows, CeilDiv(count, columns));
    SignOfShare(s.width - s.gap * (columns - 1) as real, columns);
    SignOfShare(s.height - s.gap * (rows - 1) as real, rows);
  }

  lemma LeastIsUnique(count: nat, columns: nat, a: int, b: int)
    requires columns > 0 && columns * (a - 1) < count <= columns * a && columns * (b - 1) < count <= columns * b
    ensures a == b
  {
    if a < b { ProductGrows(columns, a, b - 1); }
    if b < a { ProductGrows(columns, b, a - 1); }
  }

  lemma SignOfShare(x: real, n: nat)
    requires n > 0
    ensures x / n as real > 0.0 <==> x > 0.0
  {
    assert x / n as real * n as real == x;
  }

  // No larger tile of the same shape fits.
  lemma TilesAreLargest(s: Stage, count: nat, columns: nat, width: real)
    requires s.aspectRatio > 0.0 && Possible(s, count, columns)
    requires var g := Measured(s, count, columns);
             && Extent(width, s.gap, g.columns) <= s.width && Extent(width / s.aspectRatio, s.gap, g.rows) <= s.height
             && width <= s.maxTileWidth
    ensures width <= Measured(s, count, columns).tileWidth
  {
    MeasuredTiles(s, count, columns);
    LargestWidth(s, count, columns, CeilDiv(count, columns), width);
  }

  lemma LargestWidth(s: Stage, count: nat, columns: nat, rows: nat, width: real)
    requires s.aspectRatio > 0.0 && Possible(s, count, columns) && rows == CeilDiv(count, columns)
    requires Extent(width, s.gap, columns) <= s.width && Extent(width / s.aspectRatio, s.gap, rows) <= s.height
    requires width <= s.maxTileWidth
    ensures width <= TileWidth(s, count, columns)
  {
    CeilIsLeast(count, columns);
    ShareIsMost(s.width, s.gap, columns, width);
    ShareIsMost(s.height, s.gap, rows, width / s.aspectRatio);
    assert width <= AvailableWidth(s, columns);
    var height := AvailableHeight(s, rows);
    assert width / s.aspectRatio <= height;
    ScaledUp(width, height, s.aspectRatio);
  }

  lemma ShareIsMost(total: real, gap: real, n: nat, share: real)
    requires n > 0 && Extent(share, gap, n) <= total
    ensures share <= (total - gap * (n - 1) as real) / n as real
  {
    var available := (total - gap * (n - 1) as real) / n as real;
    assert available * n as real == total - gap * (n - 1) as real;
    assert (available - share) * n as real >= 0.0;
  }

  lemma ScaledUp(width: real, height: real, ratio: real)
    requires ratio > 0.0 && width / ratio <= height
    ensures width <= height * ratio
  {
    assert width / ratio * ratio == width;
    assert (height - width / ratio) * ratio >= 0.0;
  }

  // A grid is usable exactly when its tiles reach the minimum in both directions.
  lemma UsableExactly(s: Stage, count: nat, columns: nat)
    requires s.aspectRatio > 0.0 && Possible(s, count, columns)
    ensures var g := Measured(s, count, columns);
            !g.belowMinimum <==> g.tileWidth >= s.minTileWidth && g.tileHeight >= s.minTileHeight
  {
  }

  // The columns tried are those the participants fill and the limit allows.
  lemma LimitExactly(s: Stage, count: nat, columns: nat)
    ensures columns <= ColumnLimit(s, count) <==>
            columns <= count && (s.maxColumns > 0.0 ==> columns as real <= s.maxColumns)
  {
  }

  // How much of the stage the tiles cover.
  function Cover(g: Grid, count: nat): real {
    g.tileWidth * g.tileHeight * count as real
  }

  // Of two usable grids without the preferred columns, the one whose tiles cover
  // more of the stage wins.
  lemma MoreCoverWins(s: Stage, count: nat, a: nat, b: nat)
    requires s.aspectRatio > 0.0 && count > 0 && Possible(s, count, a) && Possible(s, count, b)
    requires s.preferredColumns != a as real && s.preferredColumns != b as real
    requires !Measured(s, count, a).belowMinimum && !Measured(s, count, b).belowMinimum
    requires Cover(Measured(s, count, a), count) > Cover(Measured(s, count, b), count)
    ensures !Beats(Measured(s, count, b), Measured(s, count, a))
  {
    UsableScore(s, count, a);
    UsableScore(s, count, b);
  }

  lemma UsableScore(s: Stage, count: nat, columns: nat)
    requires s.aspectRatio > 0.0 && Possible(s, count, columns) && s.preferredColumns != columns as real
    ensures var g := Measured(s, count, columns);
            !g.belowMinimum ==> g.score == Cover(g, count)
  {
    var g := Measured(s, count, columns);
    PlainScore(s, columns, Cover(g, count));
  }

  lemma PlainScore(s: Stage, columns: nat, area: real)
    requires s.preferredColumns != columns as real
    ensures Score(s, columns, area, false) == area
  {
    assert area * 0.0 == 0.0;
  }

  // -- The choice ------------------------------------------------------------------------

  predicate Beats(a: Grid, b: Grid) {
    a.score > b.score || (a.score == b.score && a.columns <= b.columns)
  }

  predicate InPool(s: Stage, count: nat, columns: int, limit: int, usableOnly: bool)
    requires s.aspectRatio > 0.0
  {
    0 < columns <= limit && Possible(s, count, columns) && (usableOnly ==> !Measured(s, count, columns).belowMinimum)
  }

  // Some grid in the pool, beaten by none of the pool.
  ghost predicate Best(s: Stage, count: nat, limit: int, usableOnly: bool, g: Grid)
    requires s.aspectRatio > 0.0
  {
    && InPool(s, count, g.columns, limit, usableOnly) && g == Measured(s, count, g.columns)
    && forall c :: InPool(s, count, c, limit, usableOnly) ==> Beats(g, Measured(s, count, c))
  }

  ghost predicate EmptyPool(s: Stage, count: nat, limit: int, usableOnly: bool)
    requires s.aspectRatio > 0.0
  {
    forall c :: !InPool(s, count, c, limit, usableOnly)
  }

  // The list holds the pool, and only the pool.
  ghost predicate Lists(s: Stage, count: nat, limit: int, usableOnly: bool, grids: seq<Grid>)
    requires s.aspectRatio > 0.0
  {
    && (forall g :: g in grids ==> InPool(s, count, g.columns, limit, usableOnly) && g == Measured(s, count, g.columns))
    && (forall c :: InPool(s, count, c, limit, usableOnly) ==> Measured(s, count, c) in grids)
  }

  method Candidates(s: Stage, count: nat) returns (candidates: seq<Grid>)
    requires s.aspectRatio > 0.0
    ensures Lists(s, count, ColumnLimit(s, count), false, candidates)
  {
    candidates := [];
    var limit := ColumnLimit(s, count);
    var columns := 1;
    while columns <= limit
      invariant 1 <= columns && Lists(s, count, if columns - 1 < limit then columns - 1 else limit, false, candidates)
    {
      if Possible(s, count, columns) {
        candidates := candidates + [Measured(s, count, columns)];
      }
      columns := columns + 1;
    }
  }

  // The head of the ranking: highest score, then fewest columns.
  method First(ranked: seq<Grid>) returns (best: Grid)
    requires ranked != []
    ensures best in ranked && forall g :: g in ranked ==> Beats(best, g)
  {
    best := ranked[0];
    for i := 1 to |ranked|
      invariant best in ranked && forall k :: 0 <= k < i ==> Beats(best, ranked[k])
    {
      if !Beats(best, ranked[i]) {
        best := ranked[i];
      }
    }
  }

  method Usable(candidates: seq<Grid>) returns (usable: seq<Grid>)
    ensures forall g :: g in usable <==> g in candidates && !g.belowMinimum
  {
    usable := [];
    for i := 0 to |candidates|
      invariant forall g :: g in usable <==> g in candidates[..i] && !g.belowMinimum
    {
      if !candidates[i].belowMinimum {
        usable := usable + [candidates[i]];
      }
    }
    assert candidates[..|candidates|] == candidates;
  }

  method FindTwoColumns(usable: seq<Grid>) returns (found: bool, grid: Grid)
    requires usable != []
    ensures found <==> exists g :: g in usable && g.columns == 2
    ensures found ==> grid in usable && grid.columns == 2
  {
    grid := usable[0];
    for i := 0 to |usable|
      invariant forall g :: g in usable[..i] ==> g.columns != 2
    {
      if usable[i].columns == 2 {
        return true, usable[i];
      }
    }
    assert usable[..|usable|] == usable;
    return false, grid;
  }

  lemma UsableLists(s: Stage, count: nat, limit: int, candidates: seq<Grid>, usable: seq<Grid>)
    requires s.aspectRatio > 0.0 && Lists(s, count, limit, false, candidates)
    requires forall g :: g in usable <==> g in candidates && !g.belowMinimum
    ensures Lists(s, count, limit, true, usable)
  {
  }

  lemma EmptyList(s: Stage, count: nat, limit: int, usableOnly: bool, grids: seq<Grid>)
    requires s.aspectRatio > 0.0 && Lists(s, count, limit, usableOnly, grids)
    ensures grids == [] <==> EmptyPool(s, count, limit, usableOnly)
  {
    if grids != [] { assert grids[0] in grids; }
  }

  lemma HeadIsBest(s: Stage, count: nat, limit: int, usableOnly: bool, grids: seq<Grid>, best: Grid)
    requires s.aspectRatio > 0.0 && Lists(s, count, limit, usableOnly, grids)
    requires best in grids && forall g :: g in grids ==> Beats(best, g)
    ensures Best(s, count, limit, usableOnly, best)
  {
  }

  lemma TwoColumns(s: Stage, count: nat, limit: int, usable: seq<Grid>)
    requires s.aspectRatio > 0.0 && Lists(s, count, limit, true, usable)
    ensures InPool(s, count, 2, limit, true) <==> exists g :: g in usable && g.columns == 2
  {
    if InPool(s, count, 2, limit, true) { assert Measured(s, count, 2) in usable; }
  }

  function Participants(count: real): nat {
    if count.Floor > 0 then count.Floor else 0
  }

  // Three people get two columns if that keeps tiles usable; otherwise the best
  // usable grid, and if none is usable the best of all.
  method ChooseParticipantLayout(s: Stage, count: real) returns (r: Choice)
    requires s.aspectRatio > 0.0
    ensures var n := Participants(count);
            var limit := ColumnLimit(s, n);
            if n == 0 || s.width <= 0.0 || s.height <= 0.0 then r == Nothing
            else if EmptyPool(s, n, limit, false) then r == Fallback
            else
              && r.Chosen?
              && (if n == 3 && InPool(s, n, 2, limit, true) then r.grid == Measured(s, n, 2)
                  else Best(s, n, limit, !EmptyPool(s, n, limit, true), r.grid))
  {
    var n := Participants(count);
    if n == 0 || s.width <= 0.0 || s.height <= 0.0 {
      return Nothing;
    }
    ghost var limit := ColumnLimit(s, n);
    var candidates := Candidates(s, n);
    EmptyList(s, n, limit, false, candidates);
    var usable := Usable(candidates);
    UsableLists(s, n, limit, candidates, usable);
    r := Pick(s, n, limit, candidates, usable);
  }

  method Pick(s: Stage, n: nat, ghost limit: int, candidates: seq<Grid>, usable: seq<Grid>) returns (r: Choice)
    requires s.aspectRatio > 0.0
    requires Lists(s, n, limit, false, candidates) && Lists(s, n, limit, true, usable)
    ensures r == Fallback <==> EmptyPool(s, n, limit, false) && EmptyPool(s, n, limit, true)
    ensures r != Nothing
    ensures r.Chosen? ==> if n == 3 && InPool(s, n, 2, limit, true) then r.grid == Measured(s, n, 2)
                          else Best(s, n, limit, !EmptyPool(s, n, limit, true), r.grid)
  {
    EmptyList(s, n, limit, false, candidates);
    EmptyList(s, n, limit, true, usable);
    TwoColumns(s, n, limit, usable);
    if usable != [] {
      var found, grid := FindTwoColumns(usable);
      if n == 3 && found {
        return Chosen(grid);
      }
      var best := First(usable);
      HeadIsBest(s, n, limit, true, usable, best);
      return Chosen(best);
    }
    if candidates != [] {
      var best := First(candidates);
      HeadIsBest(s, n, limit, false, candidates, best);
      return Chosen(best);
    }
    return Fallback;
  }
}

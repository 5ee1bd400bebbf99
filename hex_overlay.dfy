/**
 * The hex-lattice enumeration of the hex-crawl overlay tool: the dry-run counter
 * `count_hexes` and the traversal of `overlay_hex_grid`, which strokes one flat-top
 * hexagon per lattice position. Drawing is modelled as the sequence of outlines the
 * routine would hand to the drawing library, in the order it hands them over.
 */
module HexOverlay {
  import opened Lattice

  /** Lengths derived from the map scale, as both routines compute them. */
  datatype Pitches = Pitches(radius: real, hexHeight: real, hexWidth: real, hSpacing: real, vSpacing: real)

  /** What a run of one of the two routines comes to: a value, or an outer loop that never exits. */
  datatype Run<T> = Returns(value: T) | Diverges

  /**
   * The pitches for a scale of pixelsPerMile and a hex of hexMiles; sqrt3 stands for
   * the square root of three.
   */
  function GridPitches(pixelsPerMile: real, hexMiles: real, sqrt3: real): (p: Pitches)
    requires sqrt3 > 0.0
    ensures p.radius == pixelsPerMile * hexMiles
    ensures p.hexWidth == 2.0 * p.radius
    ensures p.hSpacing == 0.75 * p.hexWidth == 1.5 * p.radius
    ensures p.vSpacing == p.hexHeight == sqrt3 * p.radius
    ensures p.radius > 0.0 <==> p.hSpacing > 0.0
    ensures p.radius > 0.0 <==> p.vSpacing > 0.0
  {
    var radius := pixelsPerMile * hexMiles;
    var hexHeight := sqrt3 * radius;
    var hexWidth := 2.0 * radius;
    assert radius > 0.0 <==> sqrt3 * radius > 0.0 by {
      MulStrictMono(0.0, radius, sqrt3);
    }
    Pitches(radius, hexHeight, hexWidth, 0.75 * hexWidth, hexHeight)
  }

  /**
   * Both pitches are positive, so both loops advance, and the vertical pitch is
   * the hex height, as GridPitches makes them for a positive radius.
   */
  predicate Advancing(p: Pitches)
  {
    p.hSpacing > 0.0 && p.vSpacing > 0.0 && p.hexHeight == p.vSpacing
  }

  // ---------------------------------------------------------------------------
  // count_hexes: rows at y = 0, v, 2v, ...; odd rows shifted right by half a pitch
  // ---------------------------------------------------------------------------

  /** The number of rows the dry run visits: y = k*v for every k with k*v < height + v. */
  function RowCount(height: nat, p: Pitches): nat
    requires Advancing(p)
  {
    StepsBelow(0.0, p.vSpacing, height as real + p.vSpacing)
  }

  /** Where the dry run's row `row` starts: even rows at 0, odd rows half a pitch in. */
  function RowStart(row: nat, p: Pitches): real
  {
    if row % 2 == 0 then 0.0 else p.hSpacing / 2.0
  }

  /** The number of columns the dry run counts in row `row`. */
  function ColumnCount(row: nat, width: nat, p: Pitches): nat
    requires Advancing(p)
  {
    StepsBelow(RowStart(row, p), p.hSpacing, width as real + p.hSpacing)
  }

  /** The columns counted in the first `rows` rows. */
  function ColumnsBefore(rows: nat, width: nat, p: Pitches): nat
    requires Advancing(p)
  {
    if rows == 0 then 0 else ColumnsBefore(rows - 1, width, p) + ColumnCount(rows - 1, width, p)
  }

  /** The number of hexagons the dry run reports. */
  function DryRunCount(width: nat, height: nat, p: Pitches): nat
    requires Advancing(p)
  {
    ColumnsBefore(RowCount(height, p), width, p)
  }

  /**
   * count_hexes. With a positive radius it returns the number of lattice positions
   * visited; with a radius of zero or less y never grows, so the row loop is either
   * skipped (result 0) or never exits: every y it would reach stays below the bound.
   */
  method CountHexes(width: nat, height: nat, pixelsPerMile: real, hexMiles: real, sqrt3: real)
    returns (r: Run<nat>)
    requires sqrt3 > 0.0
    ensures var p := GridPitches(pixelsPerMile, hexMiles, sqrt3);
      && (r.Diverges? <==> p.radius <= 0.0 && 0.0 < height as real + p.vSpacing)
      && (r.Returns? && p.radius <= 0.0 ==> r.value == 0)
      && (p.radius > 0.0 ==> r == Returns(DryRunCount(width, height, p)))
      && (r.Diverges? ==> forall k: nat :: Point(0.0, p.vSpacing, k) < height as real + p.vSpacing)
  {
    var p := GridPitches(pixelsPerMile, hexMiles, sqrt3);
    var hSpacing, vSpacing := p.hSpacing, p.vSpacing;
    if p.radius <= 0.0 {
      // y starts at 0 and never grows: the first guard decides everything.
      r := if 0.0 < height as real + vSpacing then Diverges else Returns(0);
      if r.Diverges? {
        forall k: nat
          ensures Point(0.0, vSpacing, k) < height as real + vSpacing
        {
          GuardNeverFails(0.0, vSpacing, height as real + vSpacing, k);
        }
      }
      return;
    }
    var count := 0;
    var row := 0;
    var y := 0.0;
    ghost var rows := RowCount(height, p);
    while y < height as real + vSpacing
      invariant rows == row + StepsBelow(y, vSpacing, height as real + vSpacing)
      invariant count == ColumnsBefore(row, width, p)
      decreases StepsBelow(y, vSpacing, height as real + vSpacing)
    {
      StepsBelowNext(y, vSpacing, height as real + vSpacing);
      var xOffset := if row % 2 == 0 then 0.0 else hSpacing / 2.0;
      count := CountRow(count, xOffset, width, hSpacing);
      y := y + vSpacing;
      row := row + 1;
    }
    StepsBelowNext(y, vSpacing, height as real + vSpacing);
    r := Returns(count);
  }

  /**
   * The column loop of count_hexes: from xOffset, one more hexagon for every
   * column position below width + h.
   */
  method CountRow(count: nat, xOffset: real, width: nat, hSpacing: real) returns (total: nat)
    requires hSpacing > 0.0
    ensures total == count + StepsBelow(xOffset, hSpacing, width as real + hSpacing)
  {
    total := count;
    var x := xOffset;
    while x < width as real + hSpacing
      invariant total + StepsBelow(x, hSpacing, width as real + hSpacing)
        == count + StepsBelow(xOffset, hSpacing, width as real + hSpacing)
      decreases StepsBelow(x, hSpacing, width as real + hSpacing)
    {
      StepsBelowNext(x, hSpacing, width as real + hSpacing);
      total := total + 1;
      x := x + hSpacing;
    }
    StepsBelowNext(x, hSpacing, width as real + hSpacing);
  }

  // ---------------------------------------------------------------------------
  // overlay_hex_grid: rows at y = -v/2, v/2, 3v/2, ...; every row starts at x = 0
  // ---------------------------------------------------------------------------

  /**
   * The vertex of a hexagon at `angle` degrees: the point
   * (centreX + radius*cos(angle), centreY + radius*sin(angle)).
   */
  datatype Vertex = Vertex(angle: int, centreX: real, centreY: real, radius: real)

  /**
   * One polygon handed to the drawing library, with the loop state it was made from:
   * the row counter, the column counter, the unshifted centre (x, y), the row-level
   * offset and the column-level half-height shift.
   */
  datatype HexOutline = HexOutline(
    row: int, column: nat, x: real, y: real, yOffset: real, halfShift: real,
    points: seq<Vertex>, outline: string)

  /** The six vertices of a hexagon, at 0, 60, ..., 300 degrees. */
  function HexVertices(centreX: real, centreY: real, radius: real): seq<Vertex>
  {
    [Vertex(0, centreX, centreY, radius), Vertex(60, centreX, centreY, radius),
     Vertex(120, centreX, centreY, radius), Vertex(180, centreX, centreY, radius),
     Vertex(240, centreX, centreY, radius), Vertex(300, centreX, centreY, radius)]
  }

  /** The row-level offset: none when the real y is even (`y % 2 == 0`), else half a pitch. */
  function YOffset(y: real, p: Pitches): real
  {
    if PyMod2(y) == 0.0 then 0.0 else p.vSpacing / 2.0
  }

  /** The column-level shift: half a hex height on every second column of a row. */
  function HalfShift(column: nat, p: Pitches): real
  {
    if column % 2 == 0 then p.hexHeight / 2.0 else 0.0
  }

  /** The number of rows the overlay visits: y = -v/2 + k*v while y < height + v. */
  function OverlayRows(height: nat, p: Pitches): nat
    requires Advancing(p)
  {
    StepsBelow(-p.vSpacing / 2.0, p.vSpacing, height as real + p.vSpacing)
  }

  /** The number of columns in every overlay row: x = j*h while x < width + h. */
  function OverlayColumns(width: nat, p: Pitches): nat
    requires Advancing(p)
  {
    StepsBelow(0.0, p.hSpacing, width as real + p.hSpacing)
  }

  /** The outline drawn for the j-th hexagon of the k-th row (both counted from 0). */
  function Outline(k: nat, j: nat, p: Pitches, outline: string): HexOutline
  {
    var x := Point(0.0, p.hSpacing, j);
    var y := Point(-p.vSpacing / 2.0, p.vSpacing, k);
    var yOffset := YOffset(y, p);
    var shift := HalfShift(j + 1, p);
    HexOutline(k - 1, j + 1, x, y, yOffset, shift, HexVertices(x, yOffset + y + shift, p.radius), outline)
  }

  /**
   * What has been drawn once the first c hexagons of row k are: every row before k
   * in full (columns hexagons each), then those c, in drawing order.
   */
  function DrawnUpTo(k: nat, c: nat, columns: nat, p: Pitches, outline: string): seq<HexOutline>
    decreases k, c
  {
    if c > 0 then DrawnUpTo(k, c - 1, columns, p, outline) + [Outline(k, c - 1, p, outline)]
    else if k > 0 then DrawnUpTo(k - 1, columns, columns, p, outline)
    else []
  }

  /** The outlines of the first `rows` rows, row after row. */
  function GridOutlines(rows: nat, columns: nat, p: Pitches, outline: string): seq<HexOutline>
  {
    DrawnUpTo(rows, 0, columns, p, outline)
  }

  /** The inner `for angle in range(0, 360, 60)` loop: the six points of one hexagon. */
  method HexagonPoints(centreX: real, centreY: real, radius: real) returns (points: seq<Vertex>)
    ensures |points| == 6
    ensures forall i :: 0 <= i < 6 ==> points[i] == Vertex(60 * i, centreX, centreY, radius)
  {
    points := [];
    var angle := 0;
    while angle < 360
      invariant 0 <= angle <= 360 && angle % 60 == 0
      invariant points == HexVertices(centreX, centreY, radius)[..angle / 60]
    {
      points := points + [Vertex(angle, centreX, centreY, radius)];
      angle := angle + 60;
    }
  }

  /**
   * overlay_hex_grid, with the image reduced to its size and the strokes returned
   * in order. With a positive radius it draws the whole lattice row after row; with
   * a radius of zero or less y never grows, so the row loop is skipped or never exits:
   * every y it would reach stays below the bound.
   */
  method OverlayHexGrid(width: nat, height: nat, pixelsPerMile: real, hexMiles: real,
                        outline: string, sqrt3: real)
    returns (r: Run<seq<HexOutline>>)
    requires sqrt3 > 0.0
    ensures var p := GridPitches(pixelsPerMile, hexMiles, sqrt3);
      && (r.Diverges? <==> p.radius <= 0.0 && -p.vSpacing / 2.0 < height as real + p.vSpacing)
      && (r.Returns? && p.radius <= 0.0 ==> r.value == [])
      && (p.radius > 0.0 ==>
            r == Returns(GridOutlines(OverlayRows(height, p), OverlayColumns(width, p), p, outline)))
      && (r.Diverges? ==> var start := -p.vSpacing / 2.0;
            forall k: nat :: Point(start, p.vSpacing, k) < height as real + p.vSpacing)
  {
    var p := GridPitches(pixelsPerMile, hexMiles, sqrt3);
    if p.radius <= 0.0 {
      // y starts at -v/2 and never grows: the first guard decides everything.
      r := if -p.vSpacing / 2.0 < height as real + p.vSpacing then Diverges else Returns([]);
      if r.Diverges? {
        var start := -p.vSpacing / 2.0;
        forall k: nat
          ensures Point(start, p.vSpacing, k) < height as real + p.vSpacing
        {
          GuardNeverFails(start, p.vSpacing, height as real + p.vSpacing, k);
        }
      }
      return;
    }
    var radius, hexHeight, hSpacing, vSpacing := p.radius, p.hexHeight, p.hSpacing, p.vSpacing;
    var drawn: seq<HexOutline> := [];
    var row := 0 - 1;
    var y := 0.0 - vSpacing / 2.0;
    ghost var k: nat := 0;
    ghost var rows := OverlayRows(height, p);
    ghost var columns := OverlayColumns(width, p);
    while y < height as real + vSpacing
      invariant rows == k + StepsBelow(y, vSpacing, height as real + vSpacing)
      invariant row + 1 == k
      invariant y == Point(-vSpacing / 2.0, vSpacing, k)
      invariant drawn == DrawnUpTo(k, 0, columns, p, outline)
      decreases StepsBelow(y, vSpacing, height as real + vSpacing)
    {
      StepsBelowNext(y, vSpacing, height as real + vSpacing);
      var yOffset := if PyMod2(y) == 0.0 then 0.0 else vSpacing / 2.0;
      drawn := StrokeRow(drawn, k, row, y, yOffset, width, p, outline);
      y := y + vSpacing;
      row := row + 1;
      k := k + 1;
    }
    StepsBelowNext(y, vSpacing, height as real + vSpacing);
    r := Returns(drawn);
  }

  /**
   * The column loop of overlay_hex_grid for the row with counter `row` (its k-th
   * row) at height y: columns x = 0, h, 2h, ... below width + h, the column counter
   * choosing the half-height shift of each.
   */
  method StrokeRow(drawn: seq<HexOutline>, ghost k: nat, row: int, y: real, yOffset: real,
                   width: nat, p: Pitches, outline: string)
    returns (result: seq<HexOutline>)
    requires Advancing(p)
    requires row + 1 == k && y == Point(-p.vSpacing / 2.0, p.vSpacing, k) && yOffset == YOffset(y, p)
    requires drawn == DrawnUpTo(k, 0, OverlayColumns(width, p), p, outline)
    ensures result == DrawnUpTo(k, OverlayColumns(width, p), OverlayColumns(width, p), p, outline)
  {
    var radius, hexHeight, hSpacing := p.radius, p.hexHeight, p.hSpacing;
    ghost var columns := OverlayColumns(width, p);
    result := drawn;
    var x := 0.0;
    var halfHeightOffsetCounter := 0;
    while x < width as real + hSpacing
      invariant columns == halfHeightOffsetCounter + StepsBelow(x, hSpacing, width as real + hSpacing)
      invariant x == Point(0.0, hSpacing, halfHeightOffsetCounter)
      invariant result == DrawnUpTo(k, halfHeightOffsetCounter, columns, p, outline)
      decreases StepsBelow(x, hSpacing, width as real + hSpacing)
    {
      StepsBelowNext(x, hSpacing, width as real + hSpacing);
      halfHeightOffsetCounter := halfHeightOffsetCounter + 1;
      var shift := if halfHeightOffsetCounter % 2 == 0 then hexHeight / 2.0 else 0.0;
      var points := HexagonPoints(x, yOffset + y + shift, radius);
      assert points == HexVertices(x, yOffset + y + shift, radius);
      result := result + [HexOutline(row, halfHeightOffsetCounter, x, y, yOffset, shift, points, outline)];
      x := x + hSpacing;
    }
    StepsBelowNext(x, hSpacing, width as real + hSpacing);
  }

  // ---------------------------------------------------------------------------
  // What the dry run visits
  // ---------------------------------------------------------------------------

  /** The dry run visits row k, at y = k*v, exactly when k*v < height + v. */
  lemma DryRunRowsIff(height: nat, p: Pitches, k: nat)
    requires Advancing(p)
    ensures k < RowCount(height, p) <==> k as real * p.vSpacing < height as real + p.vSpacing
  {
    StepsBelowIff(0.0, p.vSpacing, height as real + p.vSpacing, k);
    PointClosedForm(0.0, p.vSpacing, k);
  }

  /**
   * In row `row` the dry run counts column j, at x = RowStart + j*h, exactly when
   * that x is below width + h.
   */
  lemma DryRunColumnsIff(row: nat, width: nat, p: Pitches, j: nat)
    requires Advancing(p)
    ensures j < ColumnCount(row, width, p) <==> RowStart(row, p) + j as real * p.hSpacing < width as real + p.hSpacing
  {
    StepsBelowIff(RowStart(row, p), p.hSpacing, width as real + p.hSpacing, j);
    PointClosedForm(RowStart(row, p), p.hSpacing, j);
  }

  /** A row of the dry run counts the full row of the overlay, or one column fewer when it is odd. */
  lemma RowColumnsVersusOverlay(row: nat, width: nat, p: Pitches)
    requires Advancing(p)
    ensures row % 2 == 0 ==> ColumnCount(row, width, p) == OverlayColumns(width, p)
    ensures ColumnCount(row, width, p) <= OverlayColumns(width, p) <= ColumnCount(row, width, p) + 1
  {
    var h, limit := p.hSpacing, width as real + p.hSpacing;
    var c, full := ColumnCount(row, width, p), OverlayColumns(width, p);
    if c > full {
      StepsBelowIff(RowStart(row, p), h, limit, full);
      StepsBelowIff(0.0, h, limit, full);
      PointClosedForm(RowStart(row, p), h, full);
      PointClosedForm(0.0, h, full);
    }
    if full > c + 1 {
      StepsBelowIff(RowStart(row, p), h, limit, c);
      StepsBelowIff(0.0, h, limit, c + 1);
      PointClosedForm(RowStart(row, p), h, c);
      PointClosedForm(0.0, h, c);
    }
  }

  /** Counting more rows never counts fewer columns. */
  lemma {:induction false} ColumnsBeforeMono(m: nat, n: nat, width: nat, p: Pitches)
    requires Advancing(p)
    requires m <= n
    ensures ColumnsBefore(m, width, p) <= ColumnsBefore(n, width, p)
  {
    if m < n {
      ColumnsBeforeMono(m, n - 1, width, p);
    }
  }

  /** The dry run reports at least one hexagon, whatever the image size. */
  lemma DryRunAtLeastOne(width: nat, height: nat, p: Pitches)
    requires Advancing(p)
    ensures DryRunCount(width, height, p) >= 1
  {
    DryRunRowsIff(height, p, 0);
    DryRunColumnsIff(0, width, p, 0);
    ColumnsBeforeMono(1, RowCount(height, p), width, p);
  }

  /** Over the first `rows` rows the dry run counts at most a full row each, and at most one less. */
  lemma {:induction false} ColumnsBeforeBounds(rows: nat, width: nat, p: Pitches)
    requires Advancing(p)
    ensures ColumnsBefore(rows, width, p) <= rows * OverlayColumns(width, p)
    ensures rows * OverlayColumns(width, p) <= ColumnsBefore(rows, width, p) + rows
  {
    if rows > 0 {
      ColumnsBeforeBounds(rows - 1, width, p);
      RowColumnsVersusOverlay(rows - 1, width, p);
      assert rows * OverlayColumns(width, p) == (rows - 1) * OverlayColumns(width, p) + OverlayColumns(width, p);
    }
  }

  // ---------------------------------------------------------------------------
  // What the overlay draws
  // ---------------------------------------------------------------------------

  /** Once c hexagons of row k are drawn, k full rows and those c are on the image. */
  lemma {:induction false} DrawnUpToLength(k: nat, c: nat, columns: nat, p: Pitches, outline: string)
    requires c <= columns
    ensures |DrawnUpTo(k, c, columns, p, outline)| == k * columns + c
    decreases k, c
  {
    if c > 0 {
      DrawnUpToLength(k, c - 1, columns, p, outline);
    } else if k > 0 {
      DrawnUpToLength(k - 1, columns, columns, p, outline);
      assert k * columns == (k - 1) * columns + columns;
    }
  }

  /**
   * Drawing is row-major: stroke number i*columns + j is the hexagon of row i,
   * column j, for every hexagon drawn so far.
   */
  lemma {:induction false} DrawnUpToAt(k: nat, c: nat, columns: nat, p: Pitches, outline: string, i: nat, j: nat)
    requires c <= columns && j < columns
    requires i < k || (i == k && j < c)
    ensures i * columns + j < |DrawnUpTo(k, c, columns, p, outline)|
    ensures DrawnUpTo(k, c, columns, p, outline)[i * columns + j] == Outline(i, j, p, outline)
    decreases k, c
  {
    if c > 0 {
      DrawnUpToLength(k, c - 1, columns, p, outline);
      if !(i == k && j == c - 1) {
        DrawnUpToAt(k, c - 1, columns, p, outline, i, j);
      }
    } else {
      DrawnUpToAt(k - 1, columns, columns, p, outline, i, j);
    }
  }

  /** The overlay draws rows*columns hexagons, stroke k*columns + j being row k, column j. */
  lemma GridOutlinesAt(rows: nat, columns: nat, p: Pitches, outline: string, k: nat, j: nat)
    requires k < rows && j < columns
    ensures |GridOutlines(rows, columns, p, outline)| == rows * columns
    ensures k * columns + j < rows * columns
    ensures GridOutlines(rows, columns, p, outline)[k * columns + j] == Outline(k, j, p, outline)
  {
    DrawnUpToLength(rows, 0, columns, p, outline);
    DrawnUpToAt(rows, 0, columns, p, outline, k, j);
  }

  /**
   * The overlay draws the hexagon of row k, column j exactly when its unshifted
   * centre (j*h, -v/2 + k*v) lies left of width + h and above height + v.
   */
  lemma OverlayVisitsIff(width: nat, height: nat, p: Pitches, k: nat, j: nat)
    requires Advancing(p)
    ensures k < OverlayRows(height, p) <==>
      -p.vSpacing / 2.0 + k as real * p.vSpacing < height as real + p.vSpacing
    ensures j < OverlayColumns(width, p) <==> j as real * p.hSpacing < width as real + p.hSpacing
  {
    StepsBelowIff(-p.vSpacing / 2.0, p.vSpacing, height as real + p.vSpacing, k);
    PointClosedForm(-p.vSpacing / 2.0, p.vSpacing, k);
    StepsBelowIff(0.0, p.hSpacing, width as real + p.hSpacing, j);
    PointClosedForm(0.0, p.hSpacing, j);
  }

  /**
   * Each outline records the loop state it came from: row counter k - 1, column
   * counter j + 1, centre (j*h, -v/2 + k*v), and six points at 0, 60, ..., 300
   * degrees around the shifted centre.
   */
  lemma OutlineShape(k: nat, j: nat, p: Pitches, outline: string)
    ensures var o := Outline(k, j, p, outline);
      && o.row == k - 1 && o.column == j + 1
      && o.x == j as real * p.hSpacing
      && o.y == -p.vSpacing / 2.0 + k as real * p.vSpacing
      && |o.points| == 6
      && (forall i :: 0 <= i < 6 ==>
            o.points[i] == Vertex(60 * i, o.x, o.y + o.yOffset + o.halfShift, p.radius))
      && o.outline == outline
  {
    PointClosedForm(0.0, p.hSpacing, j);
    PointClosedForm(-p.vSpacing / 2.0, p.vSpacing, k);
  }

  /**
   * The row-level offset is 0 exactly when the row's real y is an even integer,
   * and half a pitch otherwise; the column-level shift is 0 on the 1st, 3rd, ...
   * hexagon of a row and half a hex height on the 2nd, 4th, ....
   */
  lemma OutlineOffsets(k: nat, j: nat, p: Pitches, outline: string)
    requires Advancing(p)
    ensures var o := Outline(k, j, p, outline);
      && (o.yOffset == 0.0 <==> IsEvenInteger(o.y))
      && (o.yOffset != 0.0 ==> o.yOffset == p.vSpacing / 2.0)
      && (o.halfShift == 0.0 <==> j % 2 == 0)
      && (o.halfShift != 0.0 ==> o.halfShift == p.hexHeight / 2.0)
  {
    PyMod2ZeroIff(Point(-p.vSpacing / 2.0, p.vSpacing, k));
  }

  /**
   * When a row's y is not an even integer -- the usual case, y being a multiple of
   * v/2 with v an irrational multiple of the radius -- the row-level offset lifts
   * the row onto y = k*v, the rows of the dry run.
   */
  lemma UnevenRowLandsOnDryRunRow(k: nat, j: nat, p: Pitches, outline: string)
    requires Advancing(p)
    requires !IsEvenInteger(Outline(k, j, p, outline).y)
    ensures Outline(k, j, p, outline).y + Outline(k, j, p, outline).yOffset == k as real * p.vSpacing
  {
    OutlineOffsets(k, j, p, outline);
    PointClosedForm(-p.vSpacing / 2.0, p.vSpacing, k);
  }

  // ---------------------------------------------------------------------------
  // The dry run against the overlay
  // ---------------------------------------------------------------------------

  /** The overlay, starting half a pitch higher, visits the dry run's rows or one more. */
  lemma RowsDifferByAtMostOne(height: nat, p: Pitches)
    requires Advancing(p)
    ensures RowCount(height, p) <= OverlayRows(height, p) <= RowCount(height, p) + 1
  {
    var v, limit := p.vSpacing, height as real + p.vSpacing;
    var dry, drawn := RowCount(height, p), OverlayRows(height, p);
    if dry > drawn {
      DryRunRowsIff(height, p, drawn);
      OverlayVisitsIff(0, height, p, drawn, 0);
    }
    if drawn > dry + 1 {
      DryRunRowsIff(height, p, dry);
      OverlayVisitsIff(0, height, p, dry + 1, 0);
    }
  }

  /** If d is within r of r*c, then o*c, for o = r or r + 1, is within r + c of d and not below it. */
  lemma ProductBetween(d: nat, r: nat, o: nat, c: nat)
    requires d <= r * c <= d + r
    requires r <= o <= r + 1
    ensures d <= o * c <= d + r + c
  {
    if o == r + 1 {
      assert o * c == r * c + c;
    }
  }

  /**
   * The dry run's figure is a lower bound on the number of hexagons drawn, and
   * falls short of it by at most one row and one column's worth.
   */
  lemma DryRunVersusDrawn(width: nat, height: nat, p: Pitches, outline: string)
    requires Advancing(p)
    ensures var drawn := |GridOutlines(OverlayRows(height, p), OverlayColumns(width, p), p, outline)|;
      DryRunCount(width, height, p) <= drawn <=
      DryRunCount(width, height, p) + RowCount(height, p) + OverlayColumns(width, p)
  {
    var rows, columns := RowCount(height, p), OverlayColumns(width, p);
    DrawnUpToLength(OverlayRows(height, p), 0, columns, p, outline);
    ColumnsBeforeBounds(rows, width, p);
    RowsDifferByAtMostOne(height, p);
    ProductBetween(DryRunCount(width, height, p), rows, OverlayRows(height, p), columns);
  }
}

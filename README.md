# Hex overlay lattice, in Dafny

A model of the hex-lattice enumeration of the tabletop hex-crawl overlay tool
(`src/create_hex_overlay.py`). The tool draws a grid of flat-top hexagons over a map
image at a scale of `pixels_per_mile` and a hex size of `hex_miles`. It has two routines
that walk the grid:

- `count_hexes` is the dry run. It visits rows at `y = 0, v, 2v, …` while
  `y < height + v`. Odd rows start half a horizontal pitch in. It counts the columns
  `x = start, start + h, …` below `width + h`.
- `overlay_hex_grid` strokes the hexagons. Its rows start at `y = -v/2` and every row
  starts at `x = 0`. A row-level offset of `v/2` applies unless the real `y` is even
  (`y % 2 == 0`). A column counter shifts every second hexagon of a row down by half a
  hex height. Each hexagon has six points, at 0, 60, …, 300 degrees.

Both use `radius = pixels_per_mile * hex_miles`, `h = 0.75 * 2 * radius` and
`v = sqrt(3) * radius`.

Files:

- `lattice.dfy` (module `Lattice`): the lattice `start + k*step` that every loop walks.
  `StepsBelow` is the closed-form number of points below a limit. `StepsBelowIff` and
  `StepsBelowNext` tie it to the loop `x = start; while x < limit: x += step`.
  `PyMod2` is Python's float remainder `y % 2`.
- `hex_overlay.dfy` (module `HexOverlay`): the pitches, `CountHexes` and
  `OverlayHexGrid` as loop methods, the specification functions they are proved
  against (`DryRunCount`, `GridOutlines`), and the lemmas about both lattices. The row
  loops are in `CountHexes` and `OverlayHexGrid`. Each column loop is a separate method
  (`CountRow`, `StrokeRow`) that the row loop calls once per row. The angle loop is
  `HexagonPoints`.

Modelling choices:

- Reals are exact. `sqrt(3)` is a parameter `sqrt3 > 0`.
- The image enters as its size, `width` and `height` as `nat`.
- Drawing becomes data. `OverlayHexGrid` returns the sequence of `HexOutline` records
  it would hand to `draw.polygon`, in drawing order. Each record holds the row counter,
  the column counter, the unshifted centre `(x, y)`, the row-level offset, the
  half-height shift, the six points and the outline colour.
- A point is kept symbolic, as `Vertex(angle, centreX, centreY, radius)`. It stands for
  `(centreX + radius*cos(angle), centreY + radius*sin(angle))`.
- A radius of zero or less makes both pitches non-positive, so `y` never grows. The
  row loop is then either skipped or never exits. The methods are written to
  terminate, so each returns `Diverges` in exactly the cases where the source's loop
  never exits, and proves that every `y` that loop would reach stays below its bound
  (`Lattice.GuardNeverFails`). They return `Returns(0)` or `Returns([])` where the loop
  is skipped.

Notes on the code's behaviour, which the model follows:

- `hex_radius` is `pixels_per_mile * hex_miles`, and the `--hex-miles` help text
  calls that quantity the hex radius (src/create_hex_overlay.py:9, 32, 93).
- Neither routine checks its scale: with `pixels_per_mile * hex_miles <= 0` the row
  loop of each either does not run or never exits (lines 17-25, 38-57).
- `overlay_hex_grid` starts every row at `x = 0` (line 41); there is no per-row `x`
  offset, unlike the dry run's `x_offset` (line 19).
- The row-level offset `y_offset` is chosen from the parity of the real `y` (line 42).
  The `row` counter is updated (line 57) but never read.
- The dry run walks rows from `y = 0` with odd rows shifted right, while the overlay
  walks rows from `y = -v/2` with no shift, so the two routines walk different
  lattices. The model proves how their counts relate (`RowsDifferByAtMostOne`,
  `DryRunVersusDrawn`); it does not claim they are equal.

## Model

| member | source | states |
|---|---|---|
| `HexOverlay.GridPitches` | src/create_hex_overlay.py:9-13 | radius is `pixels_per_mile * hex_miles`; `hex_width = 2 * radius`; `h = 0.75 * hex_width = 1.5 * radius`; `v = hex_height = sqrt3 * radius`; each pitch is positive exactly when the radius is |
| `HexOverlay.CountHexes` | src/create_hex_overlay.py:8-26 | with a positive radius the result is `DryRunCount`, the sum of the per-row column counts over the rows visited; with radius <= 0 it reports `Diverges` exactly when `0 < height + v`, and then every `y = k*v` the loop reaches stays below `height + v`; otherwise it returns 0 |
| `HexOverlay.CountRow` | src/create_hex_overlay.py:20-23 | the column loop adds exactly the number of positions `x_offset + j*h` below `width + h` to the count |
| `Lattice.StepsBelowIff` | src/create_hex_overlay.py:21-23 | a loop `x = start; while x < limit: x += step` visits point k exactly when `k < StepsBelow(start, step, limit)`, i.e. when `start + k*step < limit` |
| `Lattice.StepsBelowNext` | src/create_hex_overlay.py:55-56 | one iteration below the limit leaves exactly one fewer point to visit; at or above the limit none is left (the loops' termination measure) |
| `Lattice.GuardNeverFails` | src/create_hex_overlay.py:18-24 | with a step of zero or less, a loop whose first guard `start < limit` holds keeps every later point below limit, so it never exits |
| `Lattice.PointClosedForm` | src/create_hex_overlay.py:23-24 | adding the pitch k times to a start moves it by exactly k pitches |
| `HexOverlay.DryRunRowsIff` | src/create_hex_overlay.py:16-25 | the dry run visits row k (at `y = k*v`) exactly when `k*v < height + v` |
| `HexOverlay.DryRunColumnsIff` | src/create_hex_overlay.py:19-23 | in a row the dry run counts column j exactly when `RowStart + j*h < width + h`; even rows start at 0, odd rows at `h/2` |
| `HexOverlay.RowColumnsVersusOverlay` | src/create_hex_overlay.py:19-21 | an even dry-run row counts exactly the overlay's columns per row; an odd one counts the same number or one fewer |
| `HexOverlay.ColumnsBeforeBounds` | src/create_hex_overlay.py:18-26 | over n rows the dry run counts at most n full rows, and at most n fewer than that |
| `HexOverlay.DryRunAtLeastOne` | src/create_hex_overlay.py:15-26 | for any image size and a positive radius the dry run reports at least one hexagon |
| `HexOverlay.OverlayHexGrid` | src/create_hex_overlay.py:28-59 | with a positive radius the strokes are exactly `GridOutlines` over `OverlayRows` rows and `OverlayColumns` columns, row after row; with radius <= 0 it reports `Diverges` exactly when `-v/2 < height + v`, and then every `y = -v/2 + k*v` the loop reaches stays below `height + v`; otherwise nothing is drawn |
| `HexOverlay.HexagonPoints` | src/create_hex_overlay.py:46-53 | the angle loop yields exactly six points, the i-th at `60*i` degrees around the given centre and radius |
| `HexOverlay.OverlayVisitsIff` | src/create_hex_overlay.py:39-44 | the overlay visits row k exactly when `-v/2 + k*v < height + v`, and column j of every row exactly when `j*h < width + h` |
| `HexOverlay.StrokeRow` | src/create_hex_overlay.py:41-55 | the column loop of row k, started after k full rows, ends with those rows and every column of row k drawn, in column order |
| `HexOverlay.DrawnUpToLength` | src/create_hex_overlay.py:40-57 | after k full rows and c hexagons of the next, exactly `k*columns + c` hexagons have been drawn |
| `HexOverlay.DrawnUpToAt` | src/create_hex_overlay.py:40-57 | drawing is row-major: among the hexagons drawn so far, stroke number `i*columns + j` is the hexagon of row i, column j |
| `HexOverlay.GridOutlinesAt` | src/create_hex_overlay.py:40-57 | the whole overlay draws `rows*columns` hexagons, stroke `k*columns + j` being row k, column j |
| `HexOverlay.OutlineShape` | src/create_hex_overlay.py:45-54 | each stroke records row counter `k - 1`, column counter `j + 1`, centre `(j*h, -v/2 + k*v)` and one polygon of six points at 0, 60, …, 300 degrees around the shifted centre |
| `HexOverlay.OutlineOffsets` | src/create_hex_overlay.py:42-52 | the row-level offset is 0 exactly when the row's real `y` is an even integer, else `v/2`; the half-height shift is 0 on the 1st, 3rd, … hexagon of a row and `hex_height/2` on the 2nd, 4th, … |
| `Lattice.PyMod2` | src/create_hex_overlay.py:42 | Python's float `y % 2` lies in [0, 2) |
| `Lattice.PyMod2ZeroIff` | src/create_hex_overlay.py:42 | `y % 2` differs from y by an even integer, and `y % 2 == 0` exactly when the real y is an even integer |
| `HexOverlay.UnevenRowLandsOnDryRunRow` | src/create_hex_overlay.py:39-42 | when a row's y is not an even integer, the offset puts the row's centres on `y = k*v`, the dry run's row positions |
| `HexOverlay.RowsDifferByAtMostOne` | src/create_hex_overlay.py:39-40 | the overlay visits as many rows as the dry run, or one more |
| `HexOverlay.DryRunVersusDrawn` | src/create_hex_overlay.py:117-121 | the dry-run figure never exceeds the number of hexagons drawn, and falls short of it by at most one row's and one column's worth |

## Left out

- `main` (argument parsing, image loading, output path, messages, exit codes, saving) is command-line and file I/O.
- The drawing library: `ImageDraw.Draw` and `draw.polygon` become the returned sequence of outlines; the image itself and its return value are not modelled.
- `math.sqrt(3)`, `math.radians`, `math.cos` and `math.sin` are floating-point transcendentals: the square root is a positive parameter, and a point is kept as its angle, centre and radius rather than its coordinates.
- `int(px)`, `int(py)`: the truncation of point coordinates to pixels is not modelled.
- IEEE-754 rounding in the repeated additions `x += h_spacing` and `y += v_spacing`: exact reals can differ from a float run by one iteration when a point falls exactly on a loop bound.
- Non-numeric inputs (NaN, infinities) are not modelled; scales are reals.
- The loops for a radius of zero or less are not run; the methods decide from the first guard that they never exit.

# plot_helpers: vector dispatch, plane colour cycling and arrow autoscaling

This project models the logic inside `plot_helpers.py`, a thin layer of
plotting helpers for 2D and 3D vectors, lines and planes. The drawing
library is abstracted to an axes object. The object holds a list of child
artists and optional x, y and z limits (module `Canvas`).

- `Vectors`: `plot_vec` dispatches on the length of the vector. A 3-vector
  appends one `Arrow3D` and a 2-vector one `Arrow2D`. Coordinate `j` of the
  arrow runs from `at[j]` to `vec[j]`, so the tip is the vector itself and
  not `at + vec`. Any other length prints an error and draws nothing. An
  `at` with fewer coordinates than the vector raises `IndexError`.
  `plot_vecs` calls `plot_vec` once per argument, with the colour
  `['k','b','g','r','c','m'][i % 6]` for argument `i`. For a 2-vector,
  `plot_vec` reads only `at[0]` and `at[1]`, so the default three-element
  origin serves both dimensions.
- `PlaneColors`: the singleton `PlaneColorPicker`. Its class-level
  `instance` slot holds one hidden counter object (`Cycler`, the inner
  `__PlaneColorPicker`). Only the first construction creates the counter;
  later constructions ignore `start`. `get_color` returns `COLORS[i]` with
  Python's list indexing, so a negative index counts from the end and an
  index outside the list raises. The counter is set to `(i + 1) % 6`
  before the palette is indexed, so it moves even when that raises. The
  colour flow of `plot_plane` is modelled too: only a 3D plane drawn
  without an explicit colour constructs a picker and takes one colour.
- `Autoscale`: `autoscale_arrows` filters the children by exact type.
  Mixed 2D and 3D arrows give `-1` and no limit changes. Otherwise the
  endpoint coordinates are gathered per axis, and every axis is set to
  `[min, min + side]`. The side is the largest per-axis extent: a cube in
  3D, a square on x and y in 2D. Coordinates are exact reals, so the
  containment and equal-width lemmas hold for exact arithmetic. With no
  arrows at all, `autoscale_arrows` changes nothing and returns `None`.

## Model

| member | source | states |
|---|---|---|
| PlaneColors.PyIndex | plot_helpers.py:204 | Python's `COLORS[cur]`: succeeds if and only if `-len <= cur < len`, and then gives the element at `cur % len`; its use in a call is stated by `Pick` |
| PlaneColors.Pick | plot_helpers.py:201-204 | one `__get_color` call: the new index is in 0..5 and congruent to the old index plus one modulo 6, and never equal to the old one; the call succeeds exactly when the old index is in -6..5, and then returns `COLORS[i % 6]` (Python negative indexing) |
| PlaneColors.Run | plot_helpers.py:201-204 | `n` successive calls give `n` results; which colour each call gives is stated by `RunCycles` |
| PlaneColors.RunCycles | plot_helpers.py:196-204 | call `k` of a run returns `COLORS[(start + k) % 6]`, for every call when the start is in 0..5 and for every call after the first whatever the start |
| PlaneColors.CycleWindowDistinct | plot_helpers.py:196-204 | any six consecutive calls on the cycle return pairwise different colours |
| PlaneColors.DefaultSequence | plot_helpers.py:196-205 | from the default start 0, seven calls give b, g, r, c, m, k, b |
| PlaneColors.Cycler.constructor | plot_helpers.py:199-200 | the hidden counter starts at the given index |
| PlaneColors.Cycler.GetColor | plot_helpers.py:201-204 | returns the colour of `Pick` at the old index and leaves the index `Pick` gives |
| PlaneColors.PlaneColorPicker.constructor | plot_helpers.py:197 | the class-level slot starts empty |
| PlaneColors.PlaneColorPicker.Init | plot_helpers.py:205-207 | the first construction creates a fresh counter at `start`; any later one keeps the same counter object with the same index and ignores `start` |
| PlaneColors.PlaneColorPicker.GetColor | plot_helpers.py:208-209 | delegates to the one shared counter: same slot afterwards, result and new index as `Pick` gives |
| PlaneColors.PlanePick | plot_helpers.py:91-114 | `plot_plane`'s colour flow: the slot is untouched and the call succeeds unless the plane is 3D and uncoloured; then the slot holds an index in 0..5, and a failure can only come from the picked index; the full properties are stated by `PlaneAdvancesOnlyWhenUncoloured` and `TwoPlanesDiffer` |
| PlaneColors.PlaneAdvancesOnlyWhenUncoloured | plot_helpers.py:91-114 | `plot_plane` moves the cycler if and only if the normal has length 3 and no colour is given, and then by exactly one step; an explicit colour is drawn as given and a 2D plane keeps its colour argument, possibly unset |
| PlaneColors.TwoPlanesDiffer | plot_helpers.py:101-103 | two successive uncoloured 3D planes that both succeed receive different colours |
| PlaneColors.FirstPlanesBlueThenGreen | plot_helpers.py:101-103 | in a fresh process the first uncoloured 3D plane is blue and the next green |
| PlaneColors.PlotPlane | plot_helpers.py:86-114 | the colour used and the new slot are those of the colour-flow function applied to the old slot, the normal's length and the colour argument; an existing counter object is kept, and a counter created by the call is fresh |
| PlaneColors.SuccessivePlanes | plot_helpers.py:91-114 | in a fresh process an uncoloured 3D plane is blue, a 2D plane keeps its unset colour, an explicitly coloured plane uses its colour, and the next uncoloured 3D plane is green |
| Vectors.ArrowFor | plot_helpers.py:18-45 | unsupported length if and only if the length is not 2 or 3; IndexError if and only if `at` is shorter than a supported vector; otherwise one arrow of the vector's dimension, with the given colour, whose axis `j` runs from `at[j]` to `vec[j]` |
| Vectors.DefaultArrowFromOrigin | plot_helpers.py:13-43 | with the default origin and colour, every 2- or 3-vector is drawn as one black arrow from the origin to the vector |
| Vectors.PlotVec | plot_helpers.py:13-45 | appends exactly the arrow `ArrowFor` gives, or nothing, and leaves the limits alone |
| Vectors.Plotted | plot_helpers.py:48-52 | the effect of the `plot_vecs` loop: at most one arrow per argument, and only arrows; contents and colours are stated by `PlottedAllDrawable` and `PlottedMembership` |
| Vectors.PlotVecs | plot_helpers.py:48-52 | appends, in order, what one `plot_vec` call per argument with the default origin and the positional colour appends |
| Vectors.PlottedAllDrawable | plot_helpers.py:48-52 | when every argument has length 2 or 3 there is one arrow per argument; arrow `i` has argument `i`'s dimension, colour `VEC_COLORS[i % 6]`, tails 0 and tips the vector |
| Vectors.PlottedMembership | plot_helpers.py:48-52 | an artist is added if and only if some argument `i` draws it with the colour of position `i`, so skipped arguments still use up their colour |
| Vectors.SevenVectorsColors | plot_helpers.py:50-52 | seven supported vectors are coloured k, b, g, r, c, m, k |
| Autoscale.Arrows3D | plot_helpers.py:157 | keeps the `Arrow3D` children (membership: an artist is kept if and only if it is a child of that type); empty if and only if there is none |
| Autoscale.Arrows2D | plot_helpers.py:158 | keeps the `Arrow2D` children (membership: an artist is kept if and only if it is a child of that type); empty if and only if there is none |
| Autoscale.Coords | plot_helpers.py:163-170 | the gathered list has two entries per arrow: entry `2k` is arrow `k`'s tail on the axis and entry `2k+1` its tip |
| Autoscale.Min | plot_helpers.py:171 | the result is an element of the list and no element is smaller |
| Autoscale.Max | plot_helpers.py:171 | the result is an element of the list and no element is larger |
| Autoscale.Autoscale | plot_helpers.py:151-189 | returns `-1` if and only if both kinds of arrow are present, and then the limits are unchanged; with no arrows at all it returns `None` and changes nothing |
| Autoscale.CubeLimits | plot_helpers.py:171-177 | the cube sets all three limits, with one non-negative width shared by x, y and z; containment and tightness are stated by `CubeContains` and `CubeTight` |
| Autoscale.SquareLimits | plot_helpers.py:185-189 | the square sets x and y with one non-negative shared width and keeps z; containment and tightness are stated by `SquareContains` and `SquareTight` |
| Autoscale.CubeContains | plot_helpers.py:171-177 | every endpoint of every 3D arrow lies within the new limits on each axis, and the three widths are equal |
| Autoscale.CubeTight | plot_helpers.py:171-177 | each lower limit is an endpoint coordinate on its axis, and on the axis of largest extent the upper limit is one too |
| Autoscale.SquareContains | plot_helpers.py:185-189 | every endpoint of every 2D arrow lies within the new x and y limits, the two widths are equal, and z keeps its old limit |
| Autoscale.SquareTight | plot_helpers.py:185-189 | each lower limit is an endpoint coordinate, and the side is reached on x or y |
| Autoscale.Autoscale3DContains | plot_helpers.py:159-177 | with no 2D arrow among the children, the result is `None` and every 3D child lies inside a cube of equal widths |
| Autoscale.Autoscale2DContains | plot_helpers.py:159-189 | with no 3D arrow among the children, the result is `None` and every 2D child lies inside a square on x and y; z is untouched |
| Autoscale.OneArrowExample | plot_helpers.py:162-177 | one 3D arrow from the origin to (2, 4, 6) gives `[0, 6]` on all three axes |
| Autoscale.Collect3D | plot_helpers.py:163-170 | the loop builds the x, y and z coordinate lists of the 3D arrows |
| Autoscale.Collect2D | plot_helpers.py:179-184 | the loop builds the x and y coordinate lists of the 2D arrows |
| Autoscale.CubeOf | plot_helpers.py:163-174 | gathers the coordinates, takes min, max and the cube side, and returns exactly the three `CubeLimits` intervals |
| Autoscale.FitCube | plot_helpers.py:171-177 | sets the three limits to the cube of the 3D arrows and leaves the children alone |
| Autoscale.FitSquare | plot_helpers.py:185-189 | sets x and y to the square of the 2D arrows and keeps z |
| Autoscale.AutoscaleArrows | plot_helpers.py:151-189 | the return value and new limits are what `Autoscale` gives for the old children and limits; the children are unchanged |
| Canvas.Axes.AddArtist | plot_helpers.py:31 | `add_artist` appends one artist and leaves the limits alone |
| Canvas.Axes.SetXLim | plot_helpers.py:175 | `set_xlim` replaces only the x limit |
| Canvas.Axes.SetYLim | plot_helpers.py:176 | `set_ylim` replaces only the y limit |
| Canvas.Axes.SetZLim | plot_helpers.py:177 | `set_zlim` replaces only the z limit |

## Left out

- Drawing: `plt.gca`, `set_aspect`, `add_artist`, `set_*lim`, `ax.plot` and `plot_surface` are library calls. Only `add_artist` (append one artist) and `set_*lim` (replace one limit) act on the modelled axes. The artists and data-limit updates of `ax.plot` and `plot_surface` are not represented, and `PlotPlane` does not take the axes. Both `plt.gca` calls are taken to return the one axes passed in, although `plt.gca(projection='3d')` can create a separate 3D axes after a 2D plot.
- The arrow adapters' `draw` methods (plot_helpers.py:127-145): they re-project through the library's projection with the renderer's matrix. This is rendering code that is not part of this model. Arrows keep only their endpoints and colour; `mutation_scale`, `lw` and `arrowstyle` are dropped.
- `plot_line` (plot_helpers.py:55-83), and the grid sampling and surface heights of `plot_plane` (plot_helpers.py:94-100, 104-105, 109-114): floating-point array arithmetic. Also left out are the unguarded divisions by the direction's x coordinate, by `normal_z` and by `normal_y`. On zero they give inf/nan with a numpy warning; what the plotting calls then do is left out. `PlotPlane` keeps only the colour decision and what kind of thing is drawn.
- Floating point: coordinates are exact `real`s, so `float(...)` conversions and the rounding of `min + side` are not modelled. The containment lemmas hold for exact arithmetic.
- Printed error messages are modelled only as an outcome value (`UnsupportedLength`) or the return value `-1`.
- The current-axes lookup (`ax=None` meaning `plt.gca()`) is not modelled. The axes are always a parameter, and `PlotPlane` takes the picker's class-level slot as a parameter too.
- PlaneColors.PlaneColorPicker.GetColor requires a filled slot. Through the public API it is only reachable on a constructed picker, and construction fills the slot. Clearing `PlaneColorPicker.instance` by hand from outside is not modelled.
- Autoscale.CubeContains, Autoscale.SquareContains, Autoscale.Autoscale3DContains and Autoscale.Autoscale2DContains assume the limits are stored exactly as given. The library's `set_*lim` widens a limit whose two ends are equal (with a warning), for example a single arrow whose tail equals its tip. The widths then differ per axis, and that widening is not modelled.

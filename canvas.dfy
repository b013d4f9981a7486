/**
 * The part of the plotting library's axes that the helpers touch: the list of
 * child artists (arrows are appended to it) and the x, y and z limits.
 * Drawing itself is not modelled.
 */
module Canvas {
  import opened Wrappers

  /** A matplotlib colour specifier such as "k" or "b". */
  type Color = string

  /** One coordinate of an arrow: the two-element list `[tail, tip]` given per axis. */
  datatype Ends = Ends(tail: real, tip: real)

  /** A child artist of the axes: one of the two arrow adapters, or anything else. */
  datatype Artist =
    | Arrow2D(xs: Ends, ys: Ends, color: Color)
    | Arrow3D(xs: Ends, ys: Ends, zs: Ends, color: Color)
    | OtherArtist

  /** Number of coordinates an artist carries (0 for non-arrows). */
  function Dim(a: Artist): nat
  {
    match a
    case Arrow2D(_, _, _) => 2
    case Arrow3D(_, _, _, _) => 3
    case OtherArtist => 0
  }

  /** The `[tail, tip]` pair of an arrow along axis `j` (0 = x, 1 = y, 2 = z). */
  function Along(a: Artist, j: nat): Ends
    requires j < Dim(a)
  {
    if j == 0 then a.xs else if j == 1 then a.ys else a.zs
  }

  /** A closed axis range `[lo, hi]` as passed to `set_xlim` and its siblings. */
  datatype Interval = Interval(lo: real, hi: real)

  /** The limits of the three axes; `None` is a limit this model never saw set. */
  datatype Limits = Limits(x: Option<Interval>, y: Option<Interval>, z: Option<Interval>)

  predicate Within(e: Ends, i: Interval)
  {
    i.lo <= e.tail <= i.hi && i.lo <= e.tip <= i.hi
  }

  /** The current axes: an artist list and three optional limits, updated in place. */
  class Axes {
    var children: seq<Artist>
    var xlim: Option<Interval>
    var ylim: Option<Interval>
    var zlim: Option<Interval>

    function Lims(): Limits
      reads this
    {
      Limits(xlim, ylim, zlim)
    }

    constructor ()
      ensures children == [] && Lims() == Limits(None, None, None)
    {
      children := [];
      xlim, ylim, zlim := None, None, None;
    }

    /** `ax.add_artist(a)`. */
    method AddArtist(a: Artist)
      modifies this
      ensures children == old(children) + [a]
      ensures Lims() == old(Lims())
    {
      children := children + [a];
    }

    /** `ax.set_xlim(lo, hi)`. */
    method SetXLim(lo: real, hi: real)
      modifies this
      ensures Lims() == old(Lims()).(x := Some(Interval(lo, hi)))
      ensures children == old(children)
    {
      xlim := Some(Interval(lo, hi));
    }

    /** `ax.set_ylim(lo, hi)`. */
    method SetYLim(lo: real, hi: real)
      modifies this
      ensures Lims() == old(Lims()).(y := Some(Interval(lo, hi)))
      ensures children == old(children)
    {
      ylim := Some(Interval(lo, hi));
    }

    /** `ax.set_zlim(lo, hi)`. */
    method SetZLim(lo: real, hi: real)
      modifies this
      ensures Lims() == old(Lims()).(z := Some(Interval(lo, hi)))
      ensures children == old(children)
    {
      zlim := Some(Interval(lo, hi));
    }
  }
}

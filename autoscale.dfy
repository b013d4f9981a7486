/**
 * `autoscale_arrows`: fit the axes' limits to all arrows drawn so far, as a
 * cube in 3D or a square in 2D anchored at the per-axis minimum. Coordinates
 * are exact reals, so the containment results hold for exact arithmetic.
 */
module Autoscale {
  import opened Wrappers
  import opened Canvas

  /** `[ch for ch in children if type(ch) == Arrow3D]`. */
  function Arrows3D(children: seq<Artist>): (r: seq<Artist>)
    ensures forall a :: a in r <==> a in children && a.Arrow3D?
    ensures r == [] <==> forall a :: a in children ==> !a.Arrow3D?
    ensures |r| <= |children|
  {
    if children == [] then []
    else
      var rest := Arrows3D(children[1..]);
      assert forall a :: a in children <==> a == children[0] || a in children[1..];
      if children[0].Arrow3D? then [children[0]] + rest else rest
  }

  /** `[ch for ch in children if type(ch) == Arrow2D]`. */
  function Arrows2D(children: seq<Artist>): (r: seq<Artist>)
    ensures forall a :: a in r <==> a in children && a.Arrow2D?
    ensures r == [] <==> forall a :: a in children ==> !a.Arrow2D?
    ensures |r| <= |children|
  {
    if children == [] then []
    else
      var rest := Arrows2D(children[1..]);
      assert forall a :: a in children <==> a == children[0] || a in children[1..];
      if children[0].Arrow2D? then [children[0]] + rest else rest
  }

  /** Every arrow in `arrows` has a coordinate `j`. */
  predicate HasAxis(arrows: seq<Artist>, j: nat)
  {
    forall a :: a in arrows ==> j < Dim(a)
  }

  /**
   * The list `all_xs` (for `j == 0`), `all_ys` or `all_zs` built by
   * `autoscale_arrows`: tail then tip of each arrow along axis `j`, in order.
   */
  function Coords(arrows: seq<Artist>, j: nat): (r: seq<real>)
    requires HasAxis(arrows, j)
    ensures |r| == 2 * |arrows|
    ensures forall k :: 0 <= k < |arrows| ==>
      r[2 * k] == Along(arrows[k], j).tail && r[2 * k + 1] == Along(arrows[k], j).tip
  {
    if arrows == [] then []
    else
      var last := arrows[|arrows| - 1];
      Coords(arrows[..|arrows| - 1], j) + [Along(last, j).tail, Along(last, j).tip]
  }

  /** Python's `min` over a non-empty list. */
  function Min(s: seq<real>): (m: real)
    requires |s| > 0
    ensures m in s
    ensures forall i :: 0 <= i < |s| ==> m <= s[i]
  {
    if |s| == 1 then s[0]
    else
      var rest := Min(s[1..]);
      if s[0] <= rest then s[0] else rest
  }

  /** Python's `max` over a non-empty list. */
  function Max(s: seq<real>): (m: real)
    requires |s| > 0
    ensures m in s
    ensures forall i :: 0 <= i < |s| ==> s[i] <= m
  {
    if |s| == 1 then s[0]
    else
      var rest := Max(s[1..]);
      if s[0] >= rest then s[0] else rest
  }

  /** The spread `max - min` of a non-empty list. */
  function Extent(s: seq<real>): real
    requires |s| > 0
  {
    Max(s) - Min(s)
  }

  /** The limit `[min, min + side]` for one axis. */
  function Fit(s: seq<real>, side: real): Interval
    requires |s| > 0
  {
    Interval(Min(s), Min(s) + side)
  }

  /** The cube `[min, min + side]` on x, y and z for a non-empty list of 3D arrows. */
  function CubeLimits(a3: seq<Artist>): (l: Limits)
    requires |a3| > 0 && HasAxis(a3, 2)
    ensures l.x.Some? && l.y.Some? && l.z.Some?
    ensures 0.0 <= l.x.value.hi - l.x.value.lo
    ensures l.x.value.hi - l.x.value.lo == l.y.value.hi - l.y.value.lo == l.z.value.hi - l.z.value.lo
  {
    var xs, ys, zs := Coords(a3, 0), Coords(a3, 1), Coords(a3, 2);
    var side := Max([Extent(xs), Extent(ys), Extent(zs)]);
    Limits(Some(Fit(xs, side)), Some(Fit(ys, side)), Some(Fit(zs, side)))
  }

  /** The square `[min, min + side]` on x and y for a non-empty list of 2D arrows; z is kept. */
  function SquareLimits(a2: seq<Artist>, z: Option<Interval>): (l: Limits)
    requires |a2| > 0 && HasAxis(a2, 1)
    ensures l.x.Some? && l.y.Some? && l.z == z
    ensures 0.0 <= l.x.value.hi - l.x.value.lo == l.y.value.hi - l.y.value.lo
  {
    var xs, ys := Coords(a2, 0), Coords(a2, 1);
    var side := Max([Extent(xs), Extent(ys)]);
    Limits(Some(Fit(xs, side)), Some(Fit(ys, side)), z)
  }

  /** What `autoscale_arrows` returns (`-1` or Python's `None`) and the limits it leaves. */
  datatype Autoscaled = Autoscaled(ret: Option<int>, lims: Limits)

  /** `autoscale_arrows` on axes with these children and limits. */
  function Autoscale(children: seq<Artist>, lims: Limits): (r: Autoscaled)
    ensures r.ret == Some(-1) <==> Arrows2D(children) != [] && Arrows3D(children) != []
    ensures r.ret != None ==> r.ret == Some(-1) && r.lims == lims
    ensures Arrows2D(children) == [] && Arrows3D(children) == [] ==> r == Autoscaled(None, lims)
  {
    var a3, a2 := Arrows3D(children), Arrows2D(children);
    if a2 != [] && a3 != [] then Autoscaled(Some(-1), lims)
    else if a3 != [] then Autoscaled(None, CubeLimits(a3))
    else if a2 != [] then Autoscaled(None, SquareLimits(a2, lims.z))
    else Autoscaled(None, lims)
  }

  /** Both endpoints of an arrow along axis `j` lie within `[Min, Max]` of `Coords(arrows, j)`. */
  lemma EndsWithinCoords(arrows: seq<Artist>, j: nat, a: Artist)
    requires HasAxis(arrows, j) && a in arrows
    ensures |Coords(arrows, j)| > 0
    ensures Min(Coords(arrows, j)) <= Along(a, j).tail <= Max(Coords(arrows, j))
    ensures Min(Coords(arrows, j)) <= Along(a, j).tip <= Max(Coords(arrows, j))
  {
    var k :| 0 <= k < |arrows| && arrows[k] == a;
    var s := Coords(arrows, j);
    assert s[2 * k] == Along(a, j).tail && s[2 * k + 1] == Along(a, j).tip;
  }

  /** Every value of `Coords(arrows, j)` is an endpoint of some arrow along axis `j`. */
  lemma CoordsRealised(arrows: seq<Artist>, j: nat, v: real)
    requires HasAxis(arrows, j) && v in Coords(arrows, j)
    ensures exists a :: a in arrows && (Along(a, j).tail == v || Along(a, j).tip == v)
  {
    var s := Coords(arrows, j);
    var m :| 0 <= m < |s| && s[m] == v;
    var k := m / 2;
    assert m == 2 * k || m == 2 * k + 1;
    assert arrows[k] in arrows;
  }

  /** The cube holds every endpoint of every arrow, and its three widths are equal. */
  lemma CubeContains(a3: seq<Artist>, a: Artist)
    requires |a3| > 0 && HasAxis(a3, 2) && a in a3
    ensures var l := CubeLimits(a3);
      && l.x.Some? && l.y.Some? && l.z.Some?
      && Within(Along(a, 0), l.x.value) && Within(Along(a, 1), l.y.value) && Within(Along(a, 2), l.z.value)
      && l.x.value.hi - l.x.value.lo == l.y.value.hi - l.y.value.lo == l.z.value.hi - l.z.value.lo
  {
    var xs, ys, zs := Coords(a3, 0), Coords(a3, 1), Coords(a3, 2);
    var es := [Extent(xs), Extent(ys), Extent(zs)];
    EndsWithinCoords(a3, 0, a);
    EndsWithinCoords(a3, 1, a);
    EndsWithinCoords(a3, 2, a);
    assert es[0] <= Max(es) && es[1] <= Max(es) && es[2] <= Max(es);
  }

  /** The square holds every endpoint of every arrow on x and y, and its two widths are equal. */
  lemma SquareContains(a2: seq<Artist>, z: Option<Interval>, a: Artist)
    requires |a2| > 0 && HasAxis(a2, 1) && a in a2
    ensures var l := SquareLimits(a2, z);
      && l.x.Some? && l.y.Some? && l.z == z
      && Within(Along(a, 0), l.x.value) && Within(Along(a, 1), l.y.value)
      && l.x.value.hi - l.x.value.lo == l.y.value.hi - l.y.value.lo
  {
    var xs, ys := Coords(a2, 0), Coords(a2, 1);
    var es := [Extent(xs), Extent(ys)];
    EndsWithinCoords(a2, 0, a);
    EndsWithinCoords(a2, 1, a);
    assert es[0] <= Max(es) && es[1] <= Max(es);
  }

  /**
   * The cube is tight: each lower limit is an endpoint coordinate on its
   * axis, and on the axis of largest extent the upper limit is one too.
   */
  lemma CubeTight(a3: seq<Artist>)
    requires |a3| > 0 && HasAxis(a3, 2)
    ensures var l := CubeLimits(a3);
      && l.x.Some? && l.y.Some? && l.z.Some?
      && (exists a :: a in a3 && (Along(a, 0).tail == l.x.value.lo || Along(a, 0).tip == l.x.value.lo))
      && (exists a :: a in a3 && (Along(a, 1).tail == l.y.value.lo || Along(a, 1).tip == l.y.value.lo))
      && (exists a :: a in a3 && (Along(a, 2).tail == l.z.value.lo || Along(a, 2).tip == l.z.value.lo))
      && ((exists a :: a in a3 && (Along(a, 0).tail == l.x.value.hi || Along(a, 0).tip == l.x.value.hi))
       || (exists a :: a in a3 && (Along(a, 1).tail == l.y.value.hi || Along(a, 1).tip == l.y.value.hi))
       || (exists a :: a in a3 && (Along(a, 2).tail == l.z.value.hi || Along(a, 2).tip == l.z.value.hi)))
  {
    var xs, ys, zs := Coords(a3, 0), Coords(a3, 1), Coords(a3, 2);
    var es := [Extent(xs), Extent(ys), Extent(zs)];
    CoordsRealised(a3, 0, Min(xs));
    CoordsRealised(a3, 1, Min(ys));
    CoordsRealised(a3, 2, Min(zs));
    assert Max(es) in es;
    if Max(es) == es[0] {
      CoordsRealised(a3, 0, Max(xs));
    } else if Max(es) == es[1] {
      CoordsRealised(a3, 1, Max(ys));
    } else {
      CoordsRealised(a3, 2, Max(zs));
    }
  }

  /** The square is tight in the same sense, on x and y. */
  lemma SquareTight(a2: seq<Artist>, z: Option<Interval>)
    requires |a2| > 0 && HasAxis(a2, 1)
    ensures var l := SquareLimits(a2, z);
      && l.x.Some? && l.y.Some?
      && (exists a :: a in a2 && (Along(a, 0).tail == l.x.value.lo || Along(a, 0).tip == l.x.value.lo))
      && (exists a :: a in a2 && (Along(a, 1).tail == l.y.value.lo || Along(a, 1).tip == l.y.value.lo))
      && ((exists a :: a in a2 && (Along(a, 0).tail == l.x.value.hi || Along(a, 0).tip == l.x.value.hi))
       || (exists a :: a in a2 && (Along(a, 1).tail == l.y.value.hi || Along(a, 1).tip == l.y.value.hi)))
  {
    var xs, ys := Coords(a2, 0), Coords(a2, 1);
    var es := [Extent(xs), Extent(ys)];
    CoordsRealised(a2, 0, Min(xs));
    CoordsRealised(a2, 1, Min(ys));
    assert Max(es) in es;
    if Max(es) == es[0] {
      CoordsRealised(a2, 0, Max(xs));
    } else {
      CoordsRealised(a2, 1, Max(ys));
    }
  }

  /**
   * With only 3D arrows among the children, `autoscale_arrows` returns
   * `None` and sets the cube: every endpoint of every 3D child lies inside
   * the new limits on all three axes, and the three widths are equal.
   */
  lemma Autoscale3DContains(children: seq<Artist>, lims: Limits, a: Artist)
    requires a in children && a.Arrow3D?
    requires forall b :: b in children ==> !b.Arrow2D?
    ensures var r := Autoscale(children, lims);
      && r.ret == None
      && r.lims.x.Some? && r.lims.y.Some? && r.lims.z.Some?
      && Within(a.xs, r.lims.x.value) && Within(a.ys, r.lims.y.value) && Within(a.zs, r.lims.z.value)
      && r.lims.x.value.hi - r.lims.x.value.lo == r.lims.y.value.hi - r.lims.y.value.lo
      && r.lims.y.value.hi - r.lims.y.value.lo == r.lims.z.value.hi - r.lims.z.value.lo
  {
    var a3 := Arrows3D(children);
    assert a in a3;
    assert Autoscale(children, lims) == Autoscaled(None, CubeLimits(a3));
    CubeContains(a3, a);
  }

  /**
   * With only 2D arrows among the children, `autoscale_arrows` returns
   * `None` and sets a square on x and y holding every 2D child's endpoints;
   * the z limit is left alone.
   */
  lemma Autoscale2DContains(children: seq<Artist>, lims: Limits, a: Artist)
    requires a in children && a.Arrow2D?
    requires forall b :: b in children ==> !b.Arrow3D?
    ensures var r := Autoscale(children, lims);
      && r.ret == None
      && r.lims.x.Some? && r.lims.y.Some? && r.lims.z == lims.z
      && Within(a.xs, r.lims.x.value) && Within(a.ys, r.lims.y.value)
      && r.lims.x.value.hi - r.lims.x.value.lo == r.lims.y.value.hi - r.lims.y.value.lo
  {
    var a2 := Arrows2D(children);
    assert a in a2;
    assert Autoscale(children, lims) == Autoscaled(None, SquareLimits(a2, lims.z));
    SquareContains(a2, lims.z, a);
  }

  /** One 3D arrow from the origin to (2, 4, 6) gives the cube `[0, 6]` on every axis. */
  lemma OneArrowExample(lims: Limits)
    ensures Autoscale([Arrow3D(Ends(0.0, 2.0), Ends(0.0, 4.0), Ends(0.0, 6.0), "k")], lims)
         == Autoscaled(None, Limits(Some(Interval(0.0, 6.0)), Some(Interval(0.0, 6.0)), Some(Interval(0.0, 6.0))))
  {
    var a := Arrow3D(Ends(0.0, 2.0), Ends(0.0, 4.0), Ends(0.0, 6.0), "k");
    assert [a][1..] == [];
    assert Arrows3D([a]) == [a];
    assert Arrows2D([a]) == [];
    assert [a][..0] == [];
    assert Coords([a], 0) == [0.0, 2.0];
    assert Coords([a], 1) == [0.0, 4.0];
    assert Coords([a], 2) == [0.0, 6.0];
    MinMaxPair(0.0, 2.0);
    MinMaxPair(0.0, 4.0);
    MinMaxPair(0.0, 6.0);
    var es := [2.0, 4.0, 6.0];
    assert es[1..] == [4.0, 6.0];
    assert es[1..][1..] == [6.0];
    assert Max(es) == 6.0;
  }

  lemma MinMaxPair(lo: real, hi: real)
    requires lo <= hi
    ensures Min([lo, hi]) == lo && Max([lo, hi]) == hi
  {
    assert [lo, hi][1..] == [hi];
  }

  /** The loop that builds `all_xs`, `all_ys` and `all_zs` from the 3D arrows. */
  method Collect3D(arrows: seq<Artist>) returns (allXs: seq<real>, allYs: seq<real>, allZs: seq<real>)
    requires forall a :: a in arrows ==> a.Arrow3D?
    ensures allXs == Coords(arrows, 0) && allYs == Coords(arrows, 1) && allZs == Coords(arrows, 2)
  {
    allXs, allYs, allZs := [], [], [];
    for i := 0 to |arrows|
      invariant allXs == Coords(arrows[..i], 0)
      invariant allYs == Coords(arrows[..i], 1)
      invariant allZs == Coords(arrows[..i], 2)
    {
      var arrow := arrows[i];
      assert arrows[..i + 1][..i] == arrows[..i];
      allXs := allXs + [arrow.xs.tail];
      allXs := allXs + [arrow.xs.tip];
      allYs := allYs + [arrow.ys.tail];
      allYs := allYs + [arrow.ys.tip];
      allZs := allZs + [arrow.zs.tail];
      allZs := allZs + [arrow.zs.tip];
    }
    assert arrows[..|arrows|] == arrows;
  }

  /** The loop that builds `all_xs` and `all_ys` from the 2D arrows. */
  method Collect2D(arrows: seq<Artist>) returns (allXs: seq<real>, allYs: seq<real>)
    requires forall a :: a in arrows ==> a.Arrow2D?
    ensures allXs == Coords(arrows, 0) && allYs == Coords(arrows, 1)
  {
    allXs, allYs := [], [];
    for i := 0 to |arrows|
      invariant allXs == Coords(arrows[..i], 0)
      invariant allYs == Coords(arrows[..i], 1)
    {
      var arrow := arrows[i];
      assert arrows[..i + 1][..i] == arrows[..i];
      allXs := allXs + [arrow.xs.tail];
      allXs := allXs + [arrow.xs.tip];
      allYs := allYs + [arrow.ys.tail];
      allYs := allYs + [arrow.ys.tip];
    }
    assert arrows[..|arrows|] == arrows;
  }

  /** The per-axis limits the 3D branch computes from the gathered coordinates. */
  method CubeOf(arrow3Ds: seq<Artist>) returns (xlim: Interval, ylim: Interval, zlim: Interval)
    requires arrow3Ds != [] && forall a :: a in arrow3Ds ==> a.Arrow3D?
    ensures Limits(Some(xlim), Some(ylim), Some(zlim)) == CubeLimits(arrow3Ds)
  {
    var allXs, allYs, allZs := Collect3D(arrow3Ds);
    var minX, maxX := Min(allXs), Max(allXs);
    var minY, maxY := Min(allYs), Max(allYs);
    var minZ, maxZ := Min(allZs), Max(allZs);
    var cubeSide := Max([maxX - minX, maxY - minY, maxZ - minZ]);
    assert [maxX - minX, maxY - minY, maxZ - minZ] == [Extent(allXs), Extent(allYs), Extent(allZs)];
    xlim, ylim, zlim := Interval(minX, minX + cubeSide), Interval(minY, minY + cubeSide), Interval(minZ, minZ + cubeSide);
    assert xlim == Fit(allXs, cubeSide) && ylim == Fit(allYs, cubeSide) && zlim == Fit(allZs, cubeSide);
  }

  /** The 3D branch of `autoscale_arrows`: set every axis to `[min, min + cube_side]`. */
  method FitCube(ax: Axes, arrow3Ds: seq<Artist>)
    requires arrow3Ds != [] && forall a :: a in arrow3Ds ==> a.Arrow3D?
    modifies ax
    ensures ax.Lims() == CubeLimits(arrow3Ds)
    ensures ax.children == old(ax.children)
  {
    var xlim, ylim, zlim := CubeOf(arrow3Ds);
    ax.SetXLim(xlim.lo, xlim.hi);
    ax.SetYLim(ylim.lo, ylim.hi);
    ax.SetZLim(zlim.lo, zlim.hi);
  }

  /** The 2D branch of `autoscale_arrows`: set x and y to `[min, min + square_side]`. */
  method FitSquare(ax: Axes, arrow2Ds: seq<Artist>)
    requires arrow2Ds != [] && forall a :: a in arrow2Ds ==> a.Arrow2D?
    modifies ax
    ensures ax.Lims() == SquareLimits(arrow2Ds, old(ax.zlim))
    ensures ax.children == old(ax.children)
  {
    var allXs, allYs := Collect2D(arrow2Ds);
    var minX, maxX := Min(allXs), Max(allXs);
    var minY, maxY := Min(allYs), Max(allYs);
    var squareSide := Max([maxX - minX, maxY - minY]);
    ax.SetXLim(minX, minX + squareSide);
    ax.SetYLim(minY, minY + squareSide);
  }

  /** `autoscale_arrows(ax)` on the given axes. */
  method AutoscaleArrows(ax: Axes) returns (ret: Option<int>)
    modifies ax
    ensures Autoscaled(ret, ax.Lims()) == Autoscale(old(ax.children), old(ax.Lims()))
    ensures ax.children == old(ax.children)
  {
    var arrow3Ds := Arrows3D(ax.children);
    var arrow2Ds := Arrows2D(ax.children);
    if arrow2Ds != [] && arrow3Ds != [] {
      return Some(-1);
    }
    if arrow3Ds != [] {
      FitCube(ax, arrow3Ds);
    }
    if arrow2Ds != [] {
      FitSquare(ax, arrow2Ds);
    }
    ret := None;
  }
}

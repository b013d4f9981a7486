/**
 * `plot_vec`, which dispatches on the length of its vector and appends one
 * arrow to the current axes, and `plot_vecs`, which plots each argument with
 * the colour of its position.
 */
module Vectors {
  import opened Canvas

  /** The default tail point `at=[0,0,0]`. */
  const DEFAULT_AT: seq<real> := [0.0, 0.0, 0.0]

  /** The default arrow colour `color='k'`. */
  const DEFAULT_COLOR: Color := "k"

  /** The palette of `plot_vecs`, black first. */
  const VEC_COLORS: seq<Color> := ["k", "b", "g", "r", "c", "m"]

  /** The colour `plot_vecs` gives to its argument at position `i`. */
  function VecColor(i: nat): Color
  {
    VEC_COLORS[i % |VEC_COLORS|]
  }

  /** The colour carried by an arrow. */
  function ColorOf(a: Artist): Color
    requires !a.OtherArtist?
  {
    a.color
  }

  /**
   * The outcome of one `plot_vec` call: the arrow it adds; the error it
   * prints for an unsupported length; or the IndexError raised when `at`
   * has fewer coordinates than the vector.
   */
  datatype VecOutcome = Drawn(arrow: Artist) | UnsupportedLength | IndexError

  /**
   * `plot_vec(vec, at, color)`: a 3-vector gives an Arrow3D and a 2-vector
   * an Arrow2D whose coordinate `j` runs from `at[j]` to `vec[j]` (the tip
   * is the vector itself, not `at + vec`); any other length draws nothing.
   */
  function ArrowFor(vec: seq<real>, at: seq<real>, color: Color): (r: VecOutcome)
    ensures r.UnsupportedLength? <==> |vec| != 2 && |vec| != 3
    ensures r.IndexError? <==> (|vec| == 2 || |vec| == 3) && |at| < |vec|
    ensures r.Drawn? ==>
      && Dim(r.arrow) == |vec|
      && ColorOf(r.arrow) == color
      && forall j :: 0 <= j < |vec| ==> Along(r.arrow, j) == Ends(at[j], vec[j])
  {
    if |vec| == 3 then
      if |at| < 3 then IndexError
      else Drawn(Arrow3D(Ends(at[0], vec[0]), Ends(at[1], vec[1]), Ends(at[2], vec[2]), color))
    else if |vec| == 2 then
      if |at| < 2 then IndexError
      else Drawn(Arrow2D(Ends(at[0], vec[0]), Ends(at[1], vec[1]), color))
    else
      UnsupportedLength
  }

  /** The artists a `plot_vec` outcome appends to the axes. */
  function Added(r: VecOutcome): seq<Artist>
  {
    if r.Drawn? then [r.arrow] else []
  }

  /** `plot_vec` against the current axes. */
  method PlotVec(ax: Axes, vec: seq<real>, at: seq<real>, color: Color) returns (r: VecOutcome)
    modifies ax
    ensures r == ArrowFor(vec, at, color)
    ensures ax.children == old(ax.children) + Added(r)
    ensures ax.Lims() == old(ax.Lims())
  {
    if |vec| == 3 {
      if |at| < 3 {
        return IndexError;
      }
      var a := Arrow3D(Ends(at[0], vec[0]), Ends(at[1], vec[1]), Ends(at[2], vec[2]), color);
      ax.AddArtist(a);
      r := Drawn(a);
    } else if |vec| == 2 {
      if |at| < 2 {
        return IndexError;
      }
      var a := Arrow2D(Ends(at[0], vec[0]), Ends(at[1], vec[1]), color);
      ax.AddArtist(a);
      r := Drawn(a);
    } else {
      r := UnsupportedLength;
    }
  }

  /** The arrows the first `n` arguments of `plot_vecs(*args)` append, in order. */
  function Plotted(args: seq<seq<real>>, n: nat): (r: seq<Artist>)
    requires n <= |args|
    ensures |r| <= n
    ensures forall a :: a in r ==> !a.OtherArtist?
  {
    if n == 0 then []
    else Plotted(args, n - 1) + Added(ArrowFor(args[n - 1], DEFAULT_AT, VecColor(n - 1)))
  }

  /** `plot_vecs(*args)`: one `plot_vec` call per argument, in order, with the positional colour. */
  method PlotVecs(ax: Axes, args: seq<seq<real>>)
    modifies ax
    ensures ax.children == old(ax.children) + Plotted(args, |args|)
    ensures ax.Lims() == old(ax.Lims())
  {
    for i := 0 to |args|
      invariant ax.children == old(ax.children) + Plotted(args, i)
      invariant ax.Lims() == old(ax.Lims())
    {
      var _ := PlotVec(ax, args[i], DEFAULT_AT, VecColor(i));
    }
  }

  /** Every argument has a length `plot_vec` supports. */
  predicate AllDrawable(args: seq<seq<real>>)
  {
    forall i :: 0 <= i < |args| ==> |args[i]| == 2 || |args[i]| == 3
  }

  /**
   * When every argument is a 2- or 3-vector, `plot_vecs` adds one arrow per
   * argument: arrow `i` has argument `i`'s dimension, the colour
   * `VEC_COLORS[i % 6]`, tails at the origin and tips at the vector.
   */
  lemma {:induction false} PlottedAllDrawable(args: seq<seq<real>>, n: nat)
    requires n <= |args| && AllDrawable(args)
    ensures |Plotted(args, n)| == n
    ensures forall i :: 0 <= i < n ==>
      && Dim(Plotted(args, n)[i]) == |args[i]|
      && ColorOf(Plotted(args, n)[i]) == VEC_COLORS[i % |VEC_COLORS|]
      && forall j :: 0 <= j < |args[i]| ==> Along(Plotted(args, n)[i], j) == Ends(0.0, args[i][j])
  {
    if n > 0 {
      PlottedAllDrawable(args, n - 1);
      var r := ArrowFor(args[n - 1], DEFAULT_AT, VecColor(n - 1));
      assert r.Drawn?;
      assert Plotted(args, n) == Plotted(args, n - 1) + [r.arrow];
    }
  }

  /**
   * An artist is among those `plot_vecs` adds exactly when some argument `i`
   * draws it with colour `VEC_COLORS[i % 6]`; arguments of other lengths add
   * nothing but still use up their position's colour.
   */
  lemma {:induction false} PlottedMembership(args: seq<seq<real>>, n: nat, a: Artist)
    requires n <= |args|
    ensures a in Plotted(args, n) <==>
      exists i :: 0 <= i < n && ArrowFor(args[i], DEFAULT_AT, VecColor(i)) == Drawn(a)
  {
    if n > 0 {
      PlottedMembership(args, n - 1, a);
      var r := ArrowFor(args[n - 1], DEFAULT_AT, VecColor(n - 1));
      assert a in Plotted(args, n) <==> a in Plotted(args, n - 1) || a in Added(r);
      if a in Added(r) {
        assert ArrowFor(args[n - 1], DEFAULT_AT, VecColor(n - 1)) == Drawn(a);
      }
      if exists i :: 0 <= i < n && ArrowFor(args[i], DEFAULT_AT, VecColor(i)) == Drawn(a) {
        var i :| 0 <= i < n && ArrowFor(args[i], DEFAULT_AT, VecColor(i)) == Drawn(a);
        if i == n - 1 {
          assert a in Added(r);
        }
      }
    }
  }

  /** Seven supported vectors get black, blue, green, red, cyan, magenta, and black again. */
  lemma SevenVectorsColors(args: seq<seq<real>>)
    requires |args| == 7 && AllDrawable(args)
    ensures |Plotted(args, 7)| == 7
    ensures forall i :: 0 <= i < 7 ==> !Plotted(args, 7)[i].OtherArtist?
    ensures forall i :: 0 <= i < 7 ==> ColorOf(Plotted(args, 7)[i]) == ["k", "b", "g", "r", "c", "m", "k"][i]
  {
    PlottedAllDrawable(args, 7);
  }

  /**
   * With its defaults, `plot_vec(vec)` draws a black arrow from the origin
   * to `vec` for every 2- or 3-vector.
   */
  lemma DefaultArrowFromOrigin(vec: seq<real>)
    requires |vec| == 2 || |vec| == 3
    ensures ArrowFor(vec, DEFAULT_AT, DEFAULT_COLOR).Drawn?
    ensures var a := ArrowFor(vec, DEFAULT_AT, DEFAULT_COLOR).arrow;
      && ColorOf(a) == "k" && Dim(a) == |vec|
      && forall j :: 0 <= j < |vec| ==> Along(a, j) == Ends(0.0, vec[j])
  {
  }
}

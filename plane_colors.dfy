/**
 * The plane colour cycler (the singleton `PlaneColorPicker` with its hidden
 * inner class) and the part of `plot_plane` that consults it.
 */
module PlaneColors {
  import opened Wrappers
  import opened Canvas

  /** `PlaneColorPicker.COLORS`, in order. */
  const COLORS: seq<Color> := ["b", "g", "r", "c", "m", "k"]

  /** The exception Python raises when `COLORS[cur]` is outside the list. */
  datatype PickError = IndexError

  /** Python's `s[i]`: a negative index counts from the end, anything else outside raises. */
  function PyIndex<T>(s: seq<T>, i: int): (r: Result<T, PickError>)
    ensures r.Ok? <==> -|s| <= i < |s|
    ensures r.Ok? ==> r.value == s[i % |s|]
  {
    if 0 <= i < |s| then Ok(s[i])
    else if -|s| <= i < 0 then Ok(s[|s| + i])
    else Err(IndexError)
  }

  /** What one call of the inner `__get_color` returns, and the index it leaves behind. */
  datatype Picked = Picked(color: Result<Color, PickError>, next: int)

  /**
   * One `__get_color` call on a counter holding `cur`. The counter is
   * reassigned before the palette is indexed, so it advances even when the
   * indexing raises.
   */
  function Pick(cur: int): (p: Picked)
    ensures 0 <= p.next < |COLORS|
    ensures (p.next - cur - 1) % |COLORS| == 0
    ensures p.next != cur
    ensures p.color.Ok? <==> -|COLORS| <= cur < |COLORS|
    ensures p.color.Ok? ==> p.color.value == COLORS[cur % |COLORS|]
  {
    Picked(PyIndex(COLORS, cur), (cur + 1) % |COLORS|)
  }

  /** The results of `n` successive `get_color` calls on a counter starting at `cur`. */
  function Run(cur: int, n: nat): (r: seq<Result<Color, PickError>>)
    ensures |r| == n
    decreases n
  {
    if n == 0 then [] else [Pick(cur).color] + Run(Pick(cur).next, n - 1)
  }

  /**
   * Successive calls walk the palette cyclically: call `k` returns
   * `COLORS[(cur + k) % 6]`. This holds for every call when the start index is
   * inside the palette, and for every call after the first whatever the start.
   */
  lemma {:induction false} RunCycles(cur: int, n: nat, k: nat)
    requires k < n
    requires 0 <= cur < |COLORS| || 1 <= k
    ensures |Run(cur, n)| == n
    ensures Run(cur, n)[k] == Ok(COLORS[(cur + k) % |COLORS|])
    decreases n
  {
    var nx := Pick(cur).next;
    if k == 0 {
    } else {
      RunCycles(nx, n - 1, k - 1);
      assert Run(cur, n)[k] == Run(nx, n - 1)[k - 1];
      assert (nx + (k - 1)) % |COLORS| == (cur + k) % |COLORS|;
    }
  }

  /** Any six consecutive successful calls return six different colours. */
  lemma CycleWindowDistinct(cur: int, n: nat, k1: nat, k2: nat)
    requires k1 < k2 < n && k2 < k1 + |COLORS|
    requires 0 <= cur < |COLORS| || 1 <= k1
    ensures |Run(cur, n)| == n
    ensures Run(cur, n)[k1] != Run(cur, n)[k2]
  {
    RunCycles(cur, n, k1);
    RunCycles(cur, n, k2);
    var i1, i2 := (cur + k1) % |COLORS|, (cur + k2) % |COLORS|;
    assert i1 != i2;
    assert COLORS[i1] != COLORS[i2] by {
      assert forall a, b :: 0 <= a < b < |COLORS| ==> COLORS[a] != COLORS[b];
    }
  }

  /** From the default start 0, seven calls return b, g, r, c, m, k and then b again. */
  lemma DefaultSequence()
    ensures Run(0, 7) == [Ok("b"), Ok("g"), Ok("r"), Ok("c"), Ok("m"), Ok("k"), Ok("b")]
  {
    forall k | 0 <= k < 7 ensures Run(0, 7)[k] == Ok(COLORS[k % |COLORS|]) {
      RunCycles(0, 7, k);
    }
  }

  /** The hidden inner class `__PlaneColorPicker`: one counter into `COLORS`. */
  class Cycler {
    var colorIndex: int

    constructor (startIndex: int)
      ensures colorIndex == startIndex
    {
      colorIndex := startIndex;
    }

    /** `__get_color`: return the current entry and advance the counter modulo 6. */
    method GetColor() returns (c: Result<Color, PickError>)
      modifies this
      ensures c == Pick(old(colorIndex)).color
      ensures colorIndex == Pick(old(colorIndex)).next
    {
      var cur := colorIndex;
      colorIndex := (cur + 1) % |COLORS|;
      c := PyIndex(COLORS, cur);
    }
  }

  /** The counter's index after a construction with `start`: the held index if the slot is filled, else `start`. */
  function SlotIndex(slot: Option<int>, start: int): int
  {
    if slot.Some? then slot.value else start
  }

  /**
   * The class object `PlaneColorPicker` itself: its class attribute
   * `instance` is the process-wide slot, empty until the first construction.
   */
  class PlaneColorPicker {
    var instance: Option<Cycler>

    /** The counter the slot holds, as a value. */
    function Slot(): Option<int>
      reads this, if instance.Some? then {instance.value} else {}
    {
      if instance.Some? then Some(instance.value.colorIndex) else None
    }

    /** The class as first loaded: no instance yet. */
    constructor ()
      ensures instance == None
    {
      instance := None;
    }

    /**
     * `PlaneColorPicker(start)`: only the first construction creates the
     * counter; later ones ignore `start` and keep the same counter and index.
     */
    method Init(start: int)
      modifies this
      ensures old(instance).None? ==>
        instance.Some? && fresh(instance.value) && instance.value.colorIndex == start
      ensures old(instance).Some? ==>
        instance == old(instance) && instance.value.colorIndex == old(instance.value.colorIndex)
      ensures Slot() == Some(SlotIndex(old(Slot()), start))
    {
      if instance.None? {
        var c := new Cycler(start);
        instance := Some(c);
      }
    }

    /**
     * `get_color`: delegates to the one shared counter. It is only reachable
     * through a constructed picker, whose construction filled the slot.
     */
    method GetColor() returns (c: Result<Color, PickError>)
      requires instance.Some?
      modifies instance.value
      ensures instance == old(instance)
      ensures c == Pick(old(instance.value.colorIndex)).color
      ensures instance.value.colorIndex == Pick(old(instance.value.colorIndex)).next
    {
      c := instance.value.GetColor();
    }
  }

  /** What `plot_plane` draws: a 3D surface, a 2D line, or nothing for other lengths. */
  datatype PlaneDrawing = Surface(color: Color) | Line(lineColor: Option<Color>) | NoDrawing

  /** The colour outcome of one `plot_plane` call and the slot it leaves. */
  datatype PlaneStep = PlaneStep(drawing: Result<PlaneDrawing, PickError>, slot: Option<int>)

  /**
   * `plot_plane`'s colour flow for a normal of length `dim`, given the slot
   * before the call: a 3D plane without an explicit colour constructs a
   * picker with the default start 0 and takes one colour from it.
   */
  function PlanePick(slot: Option<int>, dim: nat, color: Option<Color>): (s: PlaneStep)
    ensures dim != 3 || color.Some? ==> s.slot == slot && s.drawing.Ok?
    ensures dim == 3 && color.None? ==> s.slot.Some? && 0 <= s.slot.value < |COLORS|
    ensures s.drawing.Err? ==> dim == 3 && color.None? && s.slot == Some(Pick(SlotIndex(slot, 0)).next)
  {
    if dim == 3 then
      if color.None? then
        var p := Pick(SlotIndex(slot, 0));
        var d := if p.color.Ok? then Ok(Surface(p.color.value)) else Err(p.color.error);
        PlaneStep(d, Some(p.next))
      else
        PlaneStep(Ok(Surface(color.value)), slot)
    else if dim == 2 then
      PlaneStep(Ok(Line(color)), slot)
    else
      PlaneStep(Ok(NoDrawing), slot)
  }

  /**
   * The cycler moves exactly when the plane is 3D and has no explicit colour,
   * and then by exactly one step; an explicit colour is used as given.
   */
  lemma PlaneAdvancesOnlyWhenUncoloured(slot: Option<int>, dim: nat, color: Option<Color>)
    ensures PlanePick(slot, dim, color).slot != slot <==> dim == 3 && color.None?
    ensures dim == 3 && color.None? ==>
      PlanePick(slot, dim, color).slot == Some(Pick(SlotIndex(slot, 0)).next)
    ensures dim == 3 && color.Some? ==> PlanePick(slot, dim, color).drawing == Ok(Surface(color.value))
    ensures dim == 2 ==> PlanePick(slot, dim, color).drawing == Ok(Line(color))
  {
    if dim == 3 && color.None? {
      var i := SlotIndex(slot, 0);
      assert Pick(i).next != i;
    }
  }

  /** Two successive uncoloured 3D planes that both succeed get two different colours. */
  lemma TwoPlanesDiffer(slot: Option<int>)
    requires PlanePick(slot, 3, None).drawing.Ok?
    ensures PlanePick(PlanePick(slot, 3, None).slot, 3, None).drawing.Ok?
    ensures PlanePick(PlanePick(slot, 3, None).slot, 3, None).drawing.value.color
         != PlanePick(slot, 3, None).drawing.value.color
  {
    var i := SlotIndex(slot, 0);
    var j := Pick(i).next;
    assert j % |COLORS| == (i + 1) % |COLORS|;
    assert forall a, b :: 0 <= a < b < |COLORS| ==> COLORS[a] != COLORS[b];
  }

  /** In a fresh process the first two uncoloured 3D planes are blue, then green. */
  lemma FirstPlanesBlueThenGreen()
    ensures PlanePick(None, 3, None) == PlaneStep(Ok(Surface("b")), Some(1))
    ensures PlanePick(Some(1), 3, None) == PlaneStep(Ok(Surface("g")), Some(2))
  {
  }

  /**
   * The colour decision of `plot_plane(normal, d, color)`. The sampling and
   * the surface itself are not modelled; the colour is taken before the
   * heights are computed, so the counter advances whatever the normal's
   * last coordinate is.
   */
  method PlotPlane(picker: PlaneColorPicker, normal: seq<real>, color: Option<Color>)
    returns (r: Result<PlaneDrawing, PickError>)
    modifies picker, if picker.instance.Some? then {picker.instance.value} else {}
    ensures r == PlanePick(old(picker.Slot()), |normal|, color).drawing
    ensures picker.Slot() == PlanePick(old(picker.Slot()), |normal|, color).slot
    ensures old(picker.instance).Some? ==> picker.instance == old(picker.instance)
    ensures old(picker.instance).None? && picker.instance.Some? ==> fresh(picker.instance.value)
  {
    if |normal| == 3 {
      var c := color;
      if c.None? {
        picker.Init(0);
        var got := picker.GetColor();
        if got.Err? {
          return Err(got.error);
        }
        c := Some(got.value);
      }
      r := Ok(Surface(c.value));
    }
    if |normal| == 2 {
      r := Ok(Line(color));
    }
    if |normal| != 2 && |normal| != 3 {
      r := Ok(NoDrawing);
    }
  }

  /**
   * Planes drawn one after another in a fresh process: two uncoloured 3D
   * planes get blue and then green, while a 2D plane and an explicitly
   * coloured 3D plane in between leave the cycler alone.
   */
  method SuccessivePlanes() returns (r1: Result<PlaneDrawing, PickError>, r2: Result<PlaneDrawing, PickError>,
                                     r3: Result<PlaneDrawing, PickError>, r4: Result<PlaneDrawing, PickError>)
    ensures r1 == Ok(Surface("b"))
    ensures r2 == Ok(Line(None))
    ensures r3 == Ok(Surface("r"))
    ensures r4 == Ok(Surface("g"))
  {
    var picker := new PlaneColorPicker();
    r1 := PlotPlane(picker, [1.0, 2.0, 3.0], None);
    r2 := PlotPlane(picker, [1.0, 2.0], None);
    r3 := PlotPlane(picker, [0.0, 0.0, 1.0], Some("r"));
    r4 := PlotPlane(picker, [0.0, 1.0, 1.0], None);
  }
}

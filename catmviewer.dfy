/**
 * The numeric helpers of the CAT-M viewer: extrapolating a track to a
 * plane, the nearest sample to a value, and the integer bins and colour
 * lookup used to colour points. The colour map itself and the hex
 * formatting are supplied by the caller.
 */
module CatmViewer {
  import opened Wrappers
  import opened Numerics

  // ------------------------------------------------------- extrapolation

  /**
   * `calculate_extrapolated_position`: the point of the line through `p`
   * along `d` whose coordinate on axis `axis` is `target`. An axis outside
   * 0..2, or a direction without a component on that axis, is a ValueError.
   */
  function ExtrapolatedPosition(p: Vec3, d: Vec3, target: real, axis: int): (r: Result<Vec3>)
    ensures r.Ok? <==> 0 <= axis <= 2 && Coord(d, axis as nat) != 0.0
    ensures r.Err? ==> r.error == ValueError
    ensures r.Ok? ==> Coord(r.value, axis as nat) == target
  {
    if axis == 0 then
      if d.x == 0.0 then Err(ValueError)
      else
        var t := (target - p.x) / d.x;
        Ok(Vec3(target, p.y + t * d.y, p.z + t * d.z))
    else if axis == 1 then
      if d.y == 0.0 then Err(ValueError)
      else
        var t := (target - p.y) / d.y;
        Ok(Vec3(p.x + t * d.x, target, p.z + t * d.z))
    else if axis == 2 then
      if d.z == 0.0 then Err(ValueError)
      else
        var t := (target - p.z) / d.z;
        Ok(Vec3(p.x + t * d.x, p.y + t * d.y, target))
    else Err(ValueError)
  }

  /** Solving p + s·d = target for s. */
  lemma SolveLine(pa: real, da: real, target: real, s: real)
    requires da != 0.0
    ensures pa + s * da == target <==> s == (target - pa) / da
  {
    var t := (target - pa) / da;
    assert t * da == target - pa;
    if pa + s * da == target {
      assert (s - t) * da == 0.0;
    }
  }

  /** Coordinate `axis` of p + s·d. */
  lemma CoordOnLine(p: Vec3, d: Vec3, s: real, axis: nat)
    ensures Coord(Add(p, Scale(s, d)), axis) == Coord(p, axis) + s * Coord(d, axis)
  {
  }

  /** The extrapolated point is `p + t·d` with t = (target − p_axis) / d_axis. */
  lemma ExtrapolationOnLine(p: Vec3, d: Vec3, target: real, axis: nat)
    requires ExtrapolatedPosition(p, d, target, axis).Ok?
    ensures var t := (target - Coord(p, axis)) / Coord(d, axis);
      ExtrapolatedPosition(p, d, target, axis).value == Add(p, Scale(t, d))
  {
    if axis == 0 {
      OnLineX(p, d, target);
    } else if axis == 1 {
      OnLineY(p, d, target);
    } else {
      OnLineZ(p, d, target);
    }
  }

  lemma OnLineX(p: Vec3, d: Vec3, target: real)
    requires d.x != 0.0
    ensures ExtrapolatedPosition(p, d, target, 0).value == Add(p, Scale((target - p.x) / d.x, d))
  {
    DivTimes(target - p.x, d.x);
  }

  lemma OnLineY(p: Vec3, d: Vec3, target: real)
    requires d.y != 0.0
    ensures ExtrapolatedPosition(p, d, target, 1).value == Add(p, Scale((target - p.y) / d.y, d))
  {
    DivTimes(target - p.y, d.y);
  }

  lemma OnLineZ(p: Vec3, d: Vec3, target: real)
    requires d.z != 0.0
    ensures ExtrapolatedPosition(p, d, target, 2).value == Add(p, Scale((target - p.z) / d.z, d))
  {
    DivTimes(target - p.z, d.z);
  }

  /** No other point of the line has that coordinate: the extrapolation is the only one. */
  lemma ExtrapolationUnique(p: Vec3, d: Vec3, target: real, axis: nat, s: real)
    requires ExtrapolatedPosition(p, d, target, axis).Ok?
    requires Coord(Add(p, Scale(s, d)), axis) == target
    ensures Add(p, Scale(s, d)) == ExtrapolatedPosition(p, d, target, axis).value
  {
    CoordOnLine(p, d, s, axis);
    SolveLine(Coord(p, axis), Coord(d, axis), target, s);
    ExtrapolationOnLine(p, d, target, axis);
  }

  // ------------------------------------------------------ nearest sample

  /** The first position among `a[..n]` closest to `v`. */
  function NearestIn(a: seq<real>, v: real, n: nat): (r: nat)
    requires 1 <= n <= |a|
    ensures r < n
    ensures forall j :: 0 <= j < n ==> Abs(a[r] - v) <= Abs(a[j] - v)
    ensures forall j :: 0 <= j < r ==> Abs(a[j] - v) > Abs(a[r] - v)
  {
    if n == 1 then 0
    else
      var best := NearestIn(a, v, n - 1);
      if Abs(a[n - 1] - v) < Abs(a[best] - v) then n - 1 else best
  }

  /**
   * `find_nearest_index`: the argmin of |array − value|, the first one on
   * ties; an empty array has no argmin (ValueError).
   */
  function FindNearestIndex(a: seq<real>, v: real): (r: Result<nat>)
    ensures r.Err? <==> a == []
    ensures r.Err? ==> r.error == ValueError
    ensures r.Ok? ==> r.value < |a|
    ensures r.Ok? ==> forall j :: 0 <= j < |a| ==> Abs(a[r.value] - v) <= Abs(a[j] - v)
    ensures r.Ok? ==> forall j :: 0 <= j < r.value ==> Abs(a[j] - v) > Abs(a[r.value] - v)
  {
    if a == [] then Err(ValueError) else Ok(NearestIn(a, v, |a|))
  }

  // ---------------------------------------------------------- colours

  /** A colour as `to_hex` gives it, or as an (R, G, B) tuple of 0..255 channels. */
  datatype Color = HexCode(code: string) | Rgb(r: int, g: int, b: int)

  /** `plt.get_cmap(name, n)(i)`: the RGB fractions of colour `i` of `n`. */
  type Colormap = (nat, nat) -> (real, real, real)

  /** `to_hex` of the RGB part of a colour: a "#rrggbb" code. */
  type HexFormat = ((real, real, real)) -> string

  /** The consecutive integers from floor(min) to ceil(max). */
  function Bins(values: seq<real>): (b: seq<int>)
    requires values != []
    ensures |b| >= 1 && b[0] == Floor(SeqMin(values)) && b[|b| - 1] == Ceil(SeqMax(values))
    ensures forall i :: 0 <= i < |b| ==> b[i] == b[0] + i
  {
    var lo, hi := Floor(SeqMin(values)), Ceil(SeqMax(values));
    assert SeqMin(values) <= values[0] <= SeqMax(values);
    seq(hi - lo + 1, i => lo + i)
  }

  function Channel(x: real): int
  {
    RoundHalfEven(x * 255.0)
  }

  /**
   * `get_color_list`: empty input gives empty bins and colours whatever
   * the format; otherwise one colour per bin, sampled evenly from the
   * colour map, as hex codes or rounded RGB tuples; any other format is a
   * ValueError.
   */
  function GetColorList(values: seq<real>, fmt: string, cmap: Colormap, toHex: HexFormat)
    : (r: Result<(seq<int>, seq<Color>)>)
    ensures values == [] ==> r == Ok(([], []))
    ensures r.Err? <==> values != [] && fmt != "hex" && fmt != "rgb"
    ensures r.Err? ==> r.error == ValueError
    ensures r.Ok? && values != [] ==> r.value.0 == Bins(values) && |r.value.1| == |r.value.0|
    ensures r.Ok? && fmt == "hex" ==> forall i :: 0 <= i < |r.value.1| ==>
              r.value.1[i] == HexCode(toHex(cmap(i, |r.value.0|)))
    ensures r.Ok? && fmt == "rgb" ==> forall i :: 0 <= i < |r.value.1| ==>
              var c := cmap(i, |r.value.0|); r.value.1[i] == Rgb(Channel(c.0), Channel(c.1), Channel(c.2))
  {
    if values == [] then Ok(([], []))
    else
      var b := Bins(values);
      var n := |b|;
      if fmt == "hex" then Ok((b, seq(n, i requires 0 <= i < n => HexCode(toHex(cmap(i, n))))))
      else if fmt == "rgb" then
        Ok((b, seq(n, i requires 0 <= i < n => var c := cmap(i, n); Rgb(Channel(c.0), Channel(c.1), Channel(c.2)))))
      else Err(ValueError)
  }

  /**
   * The colour of the first `n` values: the colour at the position of
   * `int(value)` among the bins. A value whose integer part is not a bin
   * is a ValueError, a position past the colours an IndexError.
   */
  function ColorRun<T>(values: seq<real>, bins: seq<int>, colors: seq<T>, n: nat): (r: Result<seq<T>>)
    requires n <= |values|
    ensures r.Ok? ==> |r.value| == n
  {
    if n == 0 then Ok([])
    else match ColorRun(values, bins, colors, n - 1)
      case Err(e) => Err(e)
      case Ok(prev) =>
        match FirstIndexOf(bins, Trunc(values[n - 1]))
        case None => Err(ValueError)
        case Some(k) => if k < |colors| then Ok(prev + [colors[k]]) else Err(IndexError)
  }

  /**
   * Every value's integer part lies between floor(min) and ceil(max), so
   * with the bins and colours of `GetColorList` the lookup never fails and
   * value `i` gets the colour of bin int(values[i]) − floor(min).
   */
  lemma ColorArrayTotal(values: seq<real>, fmt: string, cmap: Colormap, toHex: HexFormat, n: nat)
    requires n <= |values| && GetColorList(values, fmt, cmap, toHex).Ok?
    ensures var (bins, colors) := GetColorList(values, fmt, cmap, toHex).value;
      var r := ColorRun(values, bins, colors, n);
      && r.Ok?
      && forall i :: 0 <= i < n ==>
           0 <= BinIndex(values, i) < |colors| && r.value[i] == colors[BinIndex(values, i)]
  {
    if values != [] {
      var (bins, colors) := GetColorList(values, fmt, cmap, toHex).value;
      ColorRunTotal(values, colors, n);
    }
  }

  /** The lookup over the bins of the values themselves, with one colour per bin. */
  lemma {:induction false} ColorRunTotal<T>(values: seq<real>, colors: seq<T>, n: nat)
    requires values != [] && n <= |values| && |colors| == |Bins(values)|
    ensures var r := ColorRun(values, Bins(values), colors, n);
      && r.Ok?
      && forall i :: 0 <= i < n ==>
           0 <= BinIndex(values, i) < |colors| && r.value[i] == colors[BinIndex(values, i)]
  {
    if n > 0 {
      ColorRunTotal(values, colors, n - 1);
      var bins := Bins(values);
      var lo := Floor(SeqMin(values));
      var x := Trunc(values[n - 1]);
      TruncInBins(values[n - 1], SeqMin(values), SeqMax(values));
      BinPosition(values, x);
      var prev := ColorRun(values, bins, colors, n - 1).value;
      var r := prev + [colors[x - lo]];
      assert ColorRun(values, bins, colors, n) == Ok(r);
      assert BinIndex(values, n - 1) == x - lo;
      forall i | 0 <= i < n - 1
        ensures r[i] == colors[BinIndex(values, i)]
      {
        assert r[i] == prev[i];
      }
    }
  }

  /** The bin of value `i`: its integer part counted from floor(min). */
  function BinIndex(values: seq<real>, i: nat): int
    requires i < |values| && values != []
  {
    Trunc(values[i]) - Floor(SeqMin(values))
  }

  /** Inside the range, the integer `x` is found at position x − floor(min). */
  lemma BinPosition(values: seq<real>, x: int)
    requires values != [] && Floor(SeqMin(values)) <= x <= Ceil(SeqMax(values))
    ensures FirstIndexOf(Bins(values), x) == Some(x - Floor(SeqMin(values)))
  {
    var bins := Bins(values);
    assert bins[x - bins[0]] == x;
  }

  /** The integer part of a value between `lo` and `hi` lies between floor(lo) and ceil(hi). */
  lemma TruncInBins(v: real, lo: real, hi: real)
    requires lo <= v <= hi
    ensures Floor(lo) <= Trunc(v) <= Ceil(hi)
  {
    if v >= 0.0 {
      assert Floor(lo) as real <= v;
      assert Floor(lo) <= v.Floor;
    }
  }

  /** `get_color_array`: the colour of every value in turn, or the first lookup error. */
  method GetColorArray<T>(values: seq<real>, bins: seq<int>, colors: seq<T>) returns (r: Result<seq<T>>)
    ensures r == ColorRun(values, bins, colors, |values|)
  {
    var colorArray: seq<T> := [];
    for i := 0 to |values|
      invariant ColorRun(values, bins, colors, i) == Ok(colorArray)
    {
      var k := FirstIndexOf(bins, Trunc(values[i]));
      if k.None? {
        ColorRunStops(values, bins, colors, i + 1, |values|);
        return Err(ValueError);
      }
      if k.value >= |colors| {
        ColorRunStops(values, bins, colors, i + 1, |values|);
        return Err(IndexError);
      }
      colorArray := colorArray + [colors[k.value]];
    }
    r := Ok(colorArray);
  }

  /** Once the lookup has failed, the later values change nothing. */
  lemma {:induction false} ColorRunStops<T>(values: seq<real>, bins: seq<int>, colors: seq<T>, m: nat, n: nat)
    requires m <= n <= |values| && ColorRun(values, bins, colors, m).Err?
    ensures ColorRun(values, bins, colors, n) == ColorRun(values, bins, colors, m)
    decreases n
  {
    if n > m {
      ColorRunStops(values, bins, colors, m, n - 1);
    }
  }
}

/**
 * The simplified track simulator of the beam TPC: Monte-Carlo track
 * parameters, ionisation electrons sampled along a straight track,
 * diffusion of each electron into a cloud of points, hit counting on the
 * readout pads and conversion of the counts into charge, followed by the
 * threshold, multiplicity and residual bookkeeping of the analysis.
 *
 * Random draws are supplied by the caller as functions of their loop
 * indices, and the point-in-polygon test as a predicate `inside`.
 */
module TrackSimulation {
  import opened Wrappers
  import opened Numerics
  import opened Text
  import opened BasePad

  // ------------------------------------------------------------ sampling

  /** `np.random.normal(value, sigma)` given the standard normal draw `z`. */
  function GaussValue(value: real, sigma: real, z: real): (r: Result<real>)
    ensures r.Ok? <==> sigma >= 0.0
    ensures sigma == 0.0 ==> r == Ok(value)
  {
    assert sigma == 0.0 ==> value + sigma * z == value;
    if sigma < 0.0 then Err(ValueError) else Ok(value + sigma * z)
  }

  /** `np.random.uniform(value - width, value + width)` given the unit draw `u`. */
  function UniformValue(value: real, width: real, u: real): (r: real)
    ensures 0.0 <= u <= 1.0 ==> value - Abs(width) <= r <= value + Abs(width)
  {
    var low, high := value - width, value + width;
    UniformBetween(value, width, u);
    low + (high - low) * u
  }

  lemma UniformBetween(value: real, width: real, u: real)
    ensures 0.0 <= u <= 1.0 ==>
      value - Abs(width) <= (value - width) + ((value + width) - (value - width)) * u <= value + Abs(width)
  {
    if 0.0 <= u <= 1.0 {
      var d := 2.0 * u - 1.0;
      assert (value - width) + ((value + width) - (value - width)) * u == value + width * d;
      if width >= 0.0 {
        MulBetween(width, u);
        assert width * d == 2.0 * (width * u) - width;
      } else {
        MulBetween(-width, u);
        assert width * d == -2.0 * (-width * u) - width;
      }
    }
  }

  lemma MulBetween(w: real, u: real)
    requires 0.0 <= w && 0.0 <= u <= 1.0
    ensures 0.0 <= w * u <= w
  {
    assert w * u <= w * 1.0;
  }

  /** Whether a distribution label is one of those `monte_carlo_track` knows. */
  predicate Recognised(name: string)
  {
    name == "null" || name == "gaus" || name == "uniform"
  }

  /**
   * Component `i` of a Monte-Carlo tuple: the exception it raises, nothing
   * (an unknown label adds no component), or the drawn value.
   */
  function Component(labels: seq<string>, params: seq<real>, value: real, z: real, u: real, i: nat)
    : (r: Result<Option<real>>)
  {
    if i >= |labels| then Err(IndexError)
    else if labels[i] == "null" then Ok(Some(value))
    else if labels[i] == "gaus" then
      if i >= |params| then Err(IndexError)
      else
        match GaussValue(value, params[i], z)
        case Err(e) => Err(e)
        case Ok(x) => Ok(Some(x))
    else if labels[i] == "uniform" then
      if i >= |params| then Err(IndexError)
      else Ok(Some(UniformValue(value, params[i], u)))
    else Ok(None)
  }

  /**
   * Tuple `j` of `monte_carlo_track` built from the first `n` track
   * parameters, with the draws `gauss(j, i)` and `unif(j, i)` for component `i`.
   */
  function McTuple(labels: seq<string>, params: seq<real>, values: seq<real>,
                   gauss: (nat, nat) -> real, unif: (nat, nat) -> real, j: nat, n: nat): Result<seq<real>>
    requires n <= |values|
  {
    if n == 0 then Ok([])
    else
      match McTuple(labels, params, values, gauss, unif, j, n - 1)
      case Err(e) => Err(e)
      case Ok(t) =>
        match Component(labels, params, values[n - 1], gauss(j, n - 1), unif(j, n - 1), n - 1)
        case Err(e) => Err(e)
        case Ok(None) => Ok(t)
        case Ok(Some(x)) => Ok(t + [x])
  }

  /** Once a prefix raises, every longer prefix raises the same exception. */
  lemma {:induction false} McTupleErrorPersists(labels: seq<string>, params: seq<real>, values: seq<real>,
                                                gauss: (nat, nat) -> real, unif: (nat, nat) -> real,
                                                j: nat, k: nat, n: nat)
    requires k <= n <= |values|
    requires McTuple(labels, params, values, gauss, unif, j, k).Err?
    ensures McTuple(labels, params, values, gauss, unif, j, n) == McTuple(labels, params, values, gauss, unif, j, k)
    decreases n
  {
    if n > k {
      McTupleErrorPersists(labels, params, values, gauss, unif, j, k, n - 1);
    }
  }

  /**
   * Whether a tuple raises, and which exception, depends on the labels and
   * parameters only, never on the random draws: all tuples fail alike.
   */
  lemma {:induction false} McTupleErrorIgnoresDraws(labels: seq<string>, params: seq<real>, values: seq<real>,
                                                    gauss: (nat, nat) -> real, unif: (nat, nat) -> real,
                                                    j1: nat, j2: nat, n: nat)
    requires n <= |values|
    ensures McTuple(labels, params, values, gauss, unif, j1, n).Err?
        <==> McTuple(labels, params, values, gauss, unif, j2, n).Err?
    ensures McTuple(labels, params, values, gauss, unif, j1, n).Err? ==>
      McTuple(labels, params, values, gauss, unif, j1, n) == McTuple(labels, params, values, gauss, unif, j2, n)
    decreases n
  {
    if n > 0 {
      McTupleErrorIgnoresDraws(labels, params, values, gauss, unif, j1, j2, n - 1);
      var c1 := Component(labels, params, values[n - 1], gauss(j1, n - 1), unif(j1, n - 1), n - 1);
      var c2 := Component(labels, params, values[n - 1], gauss(j2, n - 1), unif(j2, n - 1), n - 1);
      assert c1.Err? <==> c2.Err?;
      assert c1.Err? ==> c1 == c2;
    }
  }

  /** Number of the first `n` labels that are not recognised. */
  function Omitted(labels: seq<string>, n: nat): (r: nat)
    requires n <= |labels|
    ensures r <= n
  {
    if n == 0 then 0 else Omitted(labels, n - 1) + (if Recognised(labels[n - 1]) then 0 else 1)
  }

  /**
   * A tuple has one component per recognised label: each unrecognised
   * label silently shortens it by one.
   */
  lemma {:induction false} McTupleLength(labels: seq<string>, params: seq<real>, values: seq<real>,
                                         gauss: (nat, nat) -> real, unif: (nat, nat) -> real, j: nat, n: nat)
    requires n <= |values| && n <= |labels|
    requires McTuple(labels, params, values, gauss, unif, j, n).Ok?
    ensures |McTuple(labels, params, values, gauss, unif, j, n).value| == n - Omitted(labels, n)
    decreases n
  {
    if n > 0 {
      McTupleLength(labels, params, values, gauss, unif, j, n - 1);
    }
  }

  /** With every label "null" a tuple is the track parameters themselves. */
  lemma {:induction false} McTupleAllNull(labels: seq<string>, params: seq<real>, values: seq<real>,
                                          gauss: (nat, nat) -> real, unif: (nat, nat) -> real, j: nat, n: nat)
    requires n <= |values| && n <= |labels|
    requires forall i :: 0 <= i < n ==> labels[i] == "null"
    ensures McTuple(labels, params, values, gauss, unif, j, n) == Ok(values[..n])
    decreases n
  {
    if n > 0 {
      McTupleAllNull(labels, params, values, gauss, unif, j, n - 1);
      assert values[..n] == values[..n - 1] + [values[n - 1]];
    }
  }

  // ------------------------------------------------------ track sampling

  /** Unit direction from the elevation and azimuth angles in degrees. */
  function Direction(m: Math, eAngle: real, aAngle: real): Vec3
  {
    var theta, phi := DegToRad * eAngle, DegToRad * aAngle;
    Vec3(m.sin(theta) * m.cos(phi), m.sin(theta) * m.sin(phi), m.cos(theta))
  }

  /** `np.linspace(0, stop, n)`: `n` evenly spaced values from 0 to `stop`. */
  function Linspace(stop: real, n: nat): (ts: seq<real>)
    ensures |ts| == n
    ensures n >= 1 ==> ts[0] == 0.0
    ensures n >= 2 ==> ts[n - 1] == stop
  {
    if n == 1 then [0.0]
    else seq(n, k requires 0 <= k < n => if k == n - 1 then stop else (k as real) * (stop / (n - 1) as real))
  }

  /** Consecutive values of a linspace differ by `stop / (n - 1)`. */
  lemma LinspaceIsEvenlySpaced(stop: real, n: nat, k: nat)
    requires n >= 2 && k + 1 < n
    ensures Linspace(stop, n)[k + 1] - Linspace(stop, n)[k] == stop / (n - 1) as real
  {
    var step := stop / (n - 1) as real;
    if k + 1 == n - 1 {
      assert (n - 1) as real * step == stop;
      assert (k as real + 1.0) * step == (k as real) * step + step;
    } else {
      assert ((k + 1) as real) * step == (k as real) * step + step;
    }
  }

  /** The points `start + t * dir` for `t` in `np.linspace(0, tMax, n)`. */
  function TrackPoints(start: Vec3, dir: Vec3, tMax: real, n: nat): (ps: seq<Vec3>)
    ensures |ps| == n
    ensures n >= 1 ==> ps[0] == start
  {
    var ts := Linspace(tMax, n);
    seq(n, k requires 0 <= k < n => Add(start, Scale(ts[k], dir)))
  }

  /**
   * A track sampled up to `zRange / dir.z` ends `zRange` further along z
   * than it starts, and its points are evenly spaced along `dir`.
   */
  lemma TrackSpansRange(start: Vec3, dir: Vec3, zRange: real, n: nat, k: nat)
    requires dir.z != 0.0 && n >= 2 && k + 1 < n
    ensures var ps := TrackPoints(start, dir, zRange / dir.z, n);
      ps[n - 1].z == start.z + zRange
      && ps[k + 1] == Add(ps[k], Scale(zRange / dir.z / (n - 1) as real, dir))
  {
    var tMax := zRange / dir.z;
    var ts := Linspace(tMax, n);
    LinspaceIsEvenlySpaced(tMax, n, k);
    var step := tMax / (n - 1) as real;
    assert ts[k + 1] == ts[k] + step;
    assert Scale(ts[k + 1], dir) == Add(Scale(ts[k], dir), Scale(step, dir));
  }

  /** `np.linalg.norm(t_max * vector)`, the length of the sampled track. */
  function TrackLength(m: Math, dir: Vec3, zRange: real): real
    requires dir.z != 0.0
  {
    m.sqrt(SquaredNorm(Scale(zRange / dir.z, dir)))
  }

  /**
   * `int(dedx * 10e6 * L / W)`. A horizontal direction makes `L` NaN and
   * `int` raise ValueError; `W = 0` gives NaN (ValueError) for a zero
   * numerator and infinity (OverflowError) otherwise.
   */
  function ElectronCount(m: Math, dir: Vec3, zRange: real, dedx: real, W: real): (r: Result<int>)
    ensures r.Ok? <==> dir.z != 0.0 && W != 0.0
  {
    if dir.z == 0.0 then Err(ValueError)
    else
      var energy := dedx * 10000000.0 * TrackLength(m, dir, zRange);
      if W == 0.0 then (if energy == 0.0 then Err(ValueError) else Err(OverflowError))
      else Ok(Trunc(energy / W))
  }

  /** `int(num_of_electron / points)`: the electrons each sample point stands for. */
  function ElectronFactor(count: int, points: int): int
    requires points != 0
  {
    Trunc(count as real / points as real)
  }

  /** For a non-negative electron count the factor is the count shared out over the points, rounded down. */
  lemma ElectronFactorShares(count: int, points: int)
    requires count >= 0 && points > 0
    ensures ElectronFactor(count, points) * points <= count < (ElectronFactor(count, points) + 1) * points
  {
    var f := ElectronFactor(count, points);
    var p := points as real;
    var q := count as real / p;
    assert q * p == count as real;
    ScaleBetween(f as real, q, f as real + 1.0, p);
    IntProductAsReal(f, points);
    IntProductAsReal(f + 1, points);
    assert (f + 1) as real == f as real + 1.0;
    assert count as real < ((f + 1) * points) as real;
  }

  lemma ScaleBetween(lo: real, x: real, hi: real, p: real)
    requires p > 0.0 && lo <= x < hi
    ensures lo * p <= x * p < hi * p
  {
  }

  lemma IntProductAsReal(a: int, b: int)
    ensures (a * b) as real == a as real * b as real
  {
  }

  // ------------------------------------------------------------- diffusion

  /** `self.mapping.get(c, 0)`: axis index of a plane letter, 0 for any other letter. */
  function AxisIndex(c: char): (k: nat)
    ensures k <= 2
  {
    if c == 'y' then 1 else if c == 'z' then 2 else 0
  }

  /** One smeared copy of electron point `p`: offset `d` added in the plane `(a, b)`, y kept. */
  function Smeared(p: Vec3, a: nat, b: nat, d: Vec2): (q: Vec3)
    ensures q.y == p.y
  {
    Vec3(Coord(p, a) + d.u, p.y, Coord(p, b) + d.v)
  }

  /** The `gain` smeared copies of point `i`, with the offsets `noise(i, j)`. */
  function Cloud(p: Vec3, i: nat, a: nat, b: nat, gain: nat, noise: (nat, nat) -> Vec2): (c: seq<Vec3>)
    ensures |c| == gain
  {
    seq(gain, j requires 0 <= j < gain => Smeared(p, a, b, noise(i, j)))
  }

  /** The clouds of all points, in the order of the points. */
  function Diffused(pts: seq<Vec3>, a: nat, b: nat, gain: nat, noise: (nat, nat) -> Vec2): (r: seq<Vec3>)
    ensures |r| == |pts| * gain
  {
    if pts == [] then []
    else Diffused(pts[..|pts| - 1], a, b, gain, noise) + Cloud(pts[|pts| - 1], |pts| - 1, a, b, gain, noise)
  }

  /**
   * Entry `i * gain + j` of the diffused points is copy `j` of electron
   * point `i`; in particular it has that point's y.
   */
  lemma {:induction false} DiffusedLayout(pts: seq<Vec3>, a: nat, b: nat, gain: nat, noise: (nat, nat) -> Vec2,
                                          i: nat, j: nat)
    requires i < |pts| && j < gain
    ensures i * gain + j < |Diffused(pts, a, b, gain, noise)|
    ensures Diffused(pts, a, b, gain, noise)[i * gain + j] == Smeared(pts[i], a, b, noise(i, j))
    ensures Diffused(pts, a, b, gain, noise)[i * gain + j].y == pts[i].y
    decreases |pts|
  {
    var n := |pts|;
    var init := pts[..n - 1];
    var front := Diffused(init, a, b, gain, noise);
    assert |front| == (n - 1) * gain;
    if i < n - 1 {
      DiffusedLayout(init, a, b, gain, noise, i, j);
      SlotBelow(i, j, gain, n - 1);
    } else {
      assert i * gain == |front|;
    }
  }

  /** Slot `j` of block `i` lies before the end of `m` blocks of `gain` slots when `i < m`. */
  lemma SlotBelow(i: nat, j: nat, gain: nat, m: nat)
    requires i < m && j < gain
    ensures i * gain + j < m * gain
  {
    assert (i + 1) * gain <= m * gain;
  }

  // ------------------------------------------------------------ hit counting

  /** The `(x, z)` projection of a point, as `calclate_pad_electrons` takes it. */
  function Project(p: Vec3): Vec2
  {
    Vec2(p.x, p.z)
  }

  function ProjectPolygon(poly: seq<Vec3>): (r: seq<Vec2>)
    ensures |r| == |poly|
  {
    seq(|poly|, k requires 0 <= k < |poly| => Project(poly[k]))
  }

  /** Number of points whose projection `inside` reports within `outline`. */
  function HitCount(pts: seq<Vec3>, outline: seq<Vec2>, inside: (seq<Vec2>, Vec2) -> bool): (n: nat)
    ensures n <= |pts|
  {
    if pts == [] then 0
    else HitCount(pts[..|pts| - 1], outline, inside) + (if inside(outline, Project(pts[|pts| - 1])) then 1 else 0)
  }

  /** Number of outlines containing the projection of `p`. */
  function PadsHit(p: Vec3, outlines: seq<seq<Vec2>>, inside: (seq<Vec2>, Vec2) -> bool): (n: nat)
    ensures n <= |outlines|
  {
    if outlines == [] then 0
    else PadsHit(p, outlines[..|outlines| - 1], inside) + (if inside(outlines[|outlines| - 1], Project(p)) then 1 else 0)
  }

  /** Sum of the hit counts of all outlines: the total count over the pads. */
  function TotalHits(pts: seq<Vec3>, outlines: seq<seq<Vec2>>, inside: (seq<Vec2>, Vec2) -> bool): nat
  {
    if outlines == [] then 0
    else TotalHits(pts, outlines[..|outlines| - 1], inside) + HitCount(pts, outlines[|outlines| - 1], inside)
  }

  /** Sum over the points of the number of outlines each lies in. */
  function TotalPadsHit(pts: seq<Vec3>, outlines: seq<seq<Vec2>>, inside: (seq<Vec2>, Vec2) -> bool): nat
  {
    if pts == [] then 0
    else TotalPadsHit(pts[..|pts| - 1], outlines, inside) + PadsHit(pts[|pts| - 1], outlines, inside)
  }

  lemma {:induction false} TotalHitsOfNoPoints(outlines: seq<seq<Vec2>>, inside: (seq<Vec2>, Vec2) -> bool)
    ensures TotalHits([], outlines, inside) == 0
    decreases |outlines|
  {
    if outlines != [] {
      TotalHitsOfNoPoints(outlines[..|outlines| - 1], inside);
    }
  }

  lemma {:induction false} TotalHitsLastPoint(pts: seq<Vec3>, outlines: seq<seq<Vec2>>,
                                              inside: (seq<Vec2>, Vec2) -> bool)
    requires pts != []
    ensures TotalHits(pts, outlines, inside)
         == TotalHits(pts[..|pts| - 1], outlines, inside) + PadsHit(pts[|pts| - 1], outlines, inside)
    decreases |outlines|
  {
    if outlines != [] {
      TotalHitsLastPoint(pts, outlines[..|outlines| - 1], inside);
    }
  }

  /**
   * Counting pad by pad and counting point by point agree: the counts
   * summed over the pads equal, summed over the points, the number of
   * pads each point lies in (a point inside several pads counts for each).
   */
  lemma {:induction false} DoubleCounting(pts: seq<Vec3>, outlines: seq<seq<Vec2>>,
                                          inside: (seq<Vec2>, Vec2) -> bool)
    ensures TotalHits(pts, outlines, inside) == TotalPadsHit(pts, outlines, inside)
    decreases |pts|
  {
    if pts == [] {
      TotalHitsOfNoPoints(outlines, inside);
    } else {
      TotalHitsLastPoint(pts, outlines, inside);
      DoubleCounting(pts[..|pts| - 1], outlines, inside);
    }
  }

  /**
   * When no point lies in two pads, the counts over all pads add up to at
   * most the number of points, and to exactly that when every point lands
   * in one pad.
   */
  lemma {:induction false} DisjointPadsConserveCount(pts: seq<Vec3>, outlines: seq<seq<Vec2>>,
                                                     inside: (seq<Vec2>, Vec2) -> bool)
    requires forall k :: 0 <= k < |pts| ==> PadsHit(pts[k], outlines, inside) <= 1
    ensures TotalHits(pts, outlines, inside) <= |pts|
    ensures (forall k :: 0 <= k < |pts| ==> PadsHit(pts[k], outlines, inside) == 1)
      ==> TotalHits(pts, outlines, inside) == |pts|
    decreases |pts|
  {
    DoubleCounting(pts, outlines, inside);
    if pts != [] {
      var init := pts[..|pts| - 1];
      assert forall k :: 0 <= k < |init| ==> init[k] == pts[k];
      DisjointPadsConserveCount(init, outlines, inside);
      DoubleCounting(init, outlines, inside);
    }
  }

  // ------------------------------------------------------------ charge

  /** The factor `calclate_pad_charge` multiplies each count by. */
  function ChargeScale(factor: int, gain: real, Qe: real, pC: real, difusionGain: real): real
    requires difusionGain != 0.0
  {
    (factor as real) * gain * Qe * pC / difusionGain
  }

  /** The charge scale is linear in the GEM gain. */
  lemma ChargeScaleIsLinearInGain(factor: int, g1: real, g2: real, a: real, Qe: real, pC: real, difusionGain: real)
    requires difusionGain != 0.0
    ensures ChargeScale(factor, g1 + g2, Qe, pC, difusionGain)
         == ChargeScale(factor, g1, Qe, pC, difusionGain) + ChargeScale(factor, g2, Qe, pC, difusionGain)
    ensures ChargeScale(factor, a * g1, Qe, pC, difusionGain) == a * ChargeScale(factor, g1, Qe, pC, difusionGain)
  {
    var c := (factor as real) * Qe * pC / difusionGain;
    assert ChargeScale(factor, g1 + g2, Qe, pC, difusionGain) == (g1 + g2) * c;
    assert ChargeScale(factor, g1, Qe, pC, difusionGain) == g1 * c;
    assert ChargeScale(factor, g2, Qe, pC, difusionGain) == g2 * c;
    assert ChargeScale(factor, a * g1, Qe, pC, difusionGain) == (a * g1) * c;
  }

  // ------------------------------------------------------------ positions

  /** `np.array(xs) * np.array(qs)`, with numpy's broadcasting of a length-1 operand. */
  function Products(xs: seq<real>, qs: seq<real>): (ps: seq<real>)
    requires |xs| == |qs| || |xs| == 1 || |qs| == 1
  {
    if |xs| == |qs| then seq(|xs|, k requires 0 <= k < |xs| => xs[k] * qs[k])
    else if |xs| == 1 then seq(|qs|, k requires 0 <= k < |qs| => xs[0] * qs[k])
    else seq(|xs|, k requires 0 <= k < |xs| => xs[k] * qs[0])
  }

  /**
   * `sum(np.array(xs) * np.array(qs)) / sum(np.array(qs))`. Lengths that
   * do not broadcast raise ValueError; with no charges both sums are the
   * integer 0 and the division raises ZeroDivisionError; a zero total
   * charge gives NaN or infinity, represented by `None`.
   */
  function WeightedMean(xs: seq<real>, qs: seq<real>): (r: Result<Option<real>>)
    ensures r == Err(ValueError) <==> |xs| != |qs| && |xs| != 1 && |qs| != 1
    ensures r == Err(ZeroDivisionError) <==> qs == [] && (|xs| <= 1)
    ensures r.Ok? ==> (r.value.None? <==> SumReals(qs) == 0.0)
  {
    if |xs| != |qs| && |xs| != 1 && |qs| != 1 then Err(ValueError)
    else if qs == [] then Err(ZeroDivisionError)
    else if SumReals(qs) == 0.0 then Ok(None)
    else Ok(Some(SumReals(Products(xs, qs)) / SumReals(qs)))
  }

  /** `sum(x * q)` over paired positions and charges, accumulated left to right. */
  function WeightedSum(xs: seq<real>, qs: seq<real>): real
    requires |xs| == |qs|
  {
    if qs == [] then 0.0 else WeightedSum(xs[..|xs| - 1], qs[..|qs| - 1]) + xs[|xs| - 1] * qs[|qs| - 1]
  }

  lemma {:induction false} WeightedSumIsSumOfProducts(xs: seq<real>, qs: seq<real>)
    requires |xs| == |qs|
    ensures SumReals(Products(xs, qs)) == WeightedSum(xs, qs)
    decreases |qs|
  {
    if qs != [] {
      var n := |qs|;
      var ps, pi := Products(xs, qs), Products(xs[..n - 1], qs[..n - 1]);
      assert |ps[..n - 1]| == |pi|;
      assert forall k :: 0 <= k < n - 1 ==> ps[..n - 1][k] == pi[k];
      assert ps[..n - 1] == pi;
      WeightedSumIsSumOfProducts(xs[..n - 1], qs[..n - 1]);
    }
  }

  /** With non-negative charges and every position at least `lo`, the weighted sum is at least `lo` times the total. */
  lemma {:induction false} WeightedSumAbove(xs: seq<real>, qs: seq<real>, lo: real)
    requires |xs| == |qs|
    requires forall k :: 0 <= k < |qs| ==> 0.0 <= qs[k] && lo <= xs[k]
    ensures lo * SumReals(qs) <= WeightedSum(xs, qs)
    decreases |qs|
  {
    if qs != [] {
      var n := |qs|;
      WeightedSumAbove(xs[..n - 1], qs[..n - 1], lo);
      var x, q := xs[n - 1], qs[n - 1];
      MulMonotone(lo, x, q);
      StepAbove(lo, WeightedSum(xs[..n - 1], qs[..n - 1]), SumReals(qs[..n - 1]), x * q, q,
                WeightedSum(xs, qs), SumReals(qs));
    }
  }

  /** With non-negative charges and every position at most `hi`, the weighted sum is at most `hi` times the total. */
  lemma {:induction false} WeightedSumBelow(xs: seq<real>, qs: seq<real>, hi: real)
    requires |xs| == |qs|
    requires forall k :: 0 <= k < |qs| ==> 0.0 <= qs[k] && xs[k] <= hi
    ensures WeightedSum(xs, qs) <= hi * SumReals(qs)
    decreases |qs|
  {
    if qs != [] {
      var n := |qs|;
      WeightedSumBelow(xs[..n - 1], qs[..n - 1], hi);
      var x, q := xs[n - 1], qs[n - 1];
      MulMonotone(x, hi, q);
      StepBelow(hi, WeightedSum(xs[..n - 1], qs[..n - 1]), SumReals(qs[..n - 1]), x * q, q,
                WeightedSum(xs, qs), SumReals(qs));
    }
  }

  lemma MulMonotone(x: real, y: real, q: real)
    requires x <= y && 0.0 <= q
    ensures x * q <= y * q
  {
  }

  lemma StepAbove(lo: real, s: real, t: real, a: real, q: real, s': real, t': real)
    requires lo * t <= s && lo * q <= a && s' == s + a && t' == t + q
    ensures lo * t' <= s'
  {
  }

  lemma StepBelow(hi: real, s: real, t: real, a: real, q: real, s': real, t': real)
    requires s <= hi * t && a <= hi * q && s' == s + a && t' == t + q
    ensures s' <= hi * t'
  {
  }

  /**
   * With non-negative charges and a positive total, the charge-weighted
   * position lies between the smallest and the largest pad position; if
   * all pads share one position, that is the result.
   */
  lemma WeightedMeanWithin(xs: seq<real>, qs: seq<real>, lo: real, hi: real)
    requires |xs| == |qs| && SumReals(qs) > 0.0
    requires forall k :: 0 <= k < |qs| ==> 0.0 <= qs[k] && lo <= xs[k] <= hi
    ensures WeightedMean(xs, qs).Ok? && WeightedMean(xs, qs).value.Some?
    ensures lo <= WeightedMean(xs, qs).value.value <= hi
  {
    WeightedSumAbove(xs, qs, lo);
    WeightedSumBelow(xs, qs, hi);
    WeightedSumIsSumOfProducts(xs, qs);
    var s, t := SumReals(Products(xs, qs)), SumReals(qs);
    assert qs != [];
    QuotientBetween(s, t, lo, hi);
  }

  lemma QuotientBetween(s: real, t: real, lo: real, hi: real)
    requires t > 0.0 && lo * t <= s <= hi * t
    ensures lo <= s / t <= hi
  {
    assert (s / t) * t == s;
  }

  // ------------------------------------------------------------ the simulator

  /** The scalar settings of a simulator. */
  datatype Settings = Settings(beaminfo: string, dedx: real, W: real, gain: real, pC: real, Qe: real,
                               gausSigma: real, uniformWidth: real)

  /** Charges below or at `threshold` become 0, the others are kept. */
  function ThresholdRow(q: seq<real>, threshold: real): (r: seq<real>)
    ensures |r| == |q|
  {
    seq(|q|, j requires 0 <= j < |q| => if q[j] > threshold then q[j] else 0.0)
  }

  /** Number of charges strictly above `threshold`. */
  function CountAbove(q: seq<real>, threshold: real): (n: nat)
    ensures n <= |q|
  {
    if q == [] then 0 else CountAbove(q[..|q| - 1], threshold) + (if q[|q| - 1] > threshold then 1 else 0)
  }

  /** Number of non-zero entries. */
  function NonZero(q: seq<real>): nat
  {
    if q == [] then 0 else NonZero(q[..|q| - 1]) + (if q[|q| - 1] != 0.0 then 1 else 0)
  }

  /**
   * For a non-negative threshold, the multiplicity of an event is the
   * number of pads that keep a charge after the threshold cut.
   */
  lemma {:induction false} MultiplicityCountsKeptPads(q: seq<real>, threshold: real)
    requires threshold >= 0.0
    ensures CountAbove(q, threshold) == NonZero(ThresholdRow(q, threshold))
    decreases |q|
  {
    if q != [] {
      var n := |q|;
      assert ThresholdRow(q, threshold)[..n - 1] == ThresholdRow(q[..n - 1], threshold);
      MultiplicityCountsKeptPads(q[..n - 1], threshold);
    }
  }

  /** Raising the threshold never raises the multiplicity. */
  lemma {:induction false} CountAboveAntitone(q: seq<real>, lower: real, higher: real)
    requires lower <= higher
    ensures CountAbove(q, higher) <= CountAbove(q, lower)
    decreases |q|
  {
    if q != [] {
      CountAboveAntitone(q[..|q| - 1], lower, higher);
    }
  }

  /**
   * A threshold below every non-zero charge changes nothing, so the
   * position after the cut is the position before it.
   */
  lemma ThresholdKeepsClearCharges(q: seq<real>, threshold: real)
    requires threshold >= 0.0
    requires forall j :: 0 <= j < |q| ==> q[j] > threshold || q[j] == 0.0
    ensures ThresholdRow(q, threshold) == q
  {
  }

  /** `[point[0] for point in centers]`. */
  function CenterXs(centers: seq<Vec3>): (xs: seq<real>)
    ensures |xs| == |centers|
  {
    seq(|centers|, k requires 0 <= k < |centers| => centers[k].x)
  }

  /** `xpos[i] - xpos_thre[i]`, NaN when either side is. */
  function Residual(a: Option<real>, b: Option<real>): Option<real>
  {
    if a.Some? && b.Some? then Some(a.value - b.value) else None
  }

  /** The simple track simulator: its settings, the Monte-Carlo tuples and the sampled points. */
  class TrackSimulator {
    var beaminfo: string
    var dedx: real
    var W: real
    var gain: real
    var pC: real
    var Qe: real
    var gausSigma: real
    var uniformWidth: real
    var mcTrackParam: seq<seq<real>>
    var padsinfo: ReadoutPadArray?
    var trackPoint: Option<seq<Vec3>>
    var trackElectronPoints: seq<Vec3>
    var trackElectronPointsFactor: int
    var trackDifusedPoints: seq<Vec3>

    function Config(): Settings
      reads this
    {
      Settings(beaminfo, dedx, W, gain, pC, Qe, gausSigma, uniformWidth)
    }

    /** The track fields: the sampled track, the electron points, their factor and the diffused points. */
    function Track(): (Option<seq<Vec3>>, seq<Vec3>, int, seq<Vec3>)
      reads this
    {
      (trackPoint, trackElectronPoints, trackElectronPointsFactor, trackDifusedPoints)
    }

    /** The fields one event sets: the electron factor, the electron points and the diffused points. */
    function EventFields(): (int, seq<Vec3>, seq<Vec3>)
      reads this
    {
      (trackElectronPointsFactor, trackElectronPoints, trackDifusedPoints)
    }

    /** A deuteron track in D2: dE/dx 0.0708 MeV/mm, W = 37 eV, GEM gain 100, no tuples yet. */
    constructor ()
      ensures Config() == Settings("136Xe@100[MeV/u] in D2gas@40[kPa]", 0.0708, 37.0, 100.0, 1.0e12, 1.602e-19, 0.0, 0.0)
      ensures mcTrackParam == [] && padsinfo == null
    {
      beaminfo := "136Xe@100[MeV/u] in D2gas@40[kPa]";
      dedx := 0.0708;
      W := 37.0;
      gain := 100.0;
      pC := 1.0e12;
      Qe := 1.602e-19;
      gausSigma := 0.0;
      uniformWidth := 0.0;
      mcTrackParam := [];
      padsinfo := null;
      trackPoint := None;
      trackElectronPoints := [];
      trackElectronPointsFactor := 0;
      trackDifusedPoints := [];
    }

    method SetBeaminfo(info: string)
      modifies this
      ensures Config() == old(Config()).(beaminfo := info)
      ensures mcTrackParam == old(mcTrackParam) && padsinfo == old(padsinfo) && Track() == old(Track())
    {
      beaminfo := info;
    }

    method SetDedx(value: real)
      modifies this
      ensures Config() == old(Config()).(dedx := value)
      ensures mcTrackParam == old(mcTrackParam) && padsinfo == old(padsinfo) && Track() == old(Track())
    {
      dedx := value;
    }

    method SetGain(value: real)
      modifies this
      ensures Config() == old(Config()).(gain := value)
      ensures mcTrackParam == old(mcTrackParam) && padsinfo == old(padsinfo) && Track() == old(Track())
    {
      gain := value;
    }

    /** The pad array is shared with the caller, not copied. */
    method SetPadarray(data: ReadoutPadArray)
      modifies this
      ensures padsinfo == data
      ensures Config() == old(Config()) && mcTrackParam == old(mcTrackParam) && Track() == old(Track())
    {
      padsinfo := data;
    }

    /**
     * `monte_carlo_track`: clears the tuples, splits the labels and the
     * parameters at commas, then draws `nmax` tuples. A parameter that is
     * not a number raises ValueError; a label or parameter list too short
     * raises IndexError, a negative Gaussian sigma ValueError, and then no
     * tuple is kept.
     */
    method MonteCarloTrack(nmax: int, trackParameters: seq<real>, distribution: string, parameter: string,
                           parse: string -> Option<real>, gauss: (nat, nat) -> real, unif: (nat, nat) -> real)
      returns (o: Outcome)
      modifies this
      ensures Config() == old(Config()) && padsinfo == old(padsinfo)
      ensures trackElectronPoints == old(trackElectronPoints) && trackDifusedPoints == old(trackDifusedPoints)
      ensures trackElectronPointsFactor == old(trackElectronPointsFactor) && trackPoint == old(trackPoint)
      ensures var labels, params := SplitOn(distribution, ','), ParseAll(SplitOn(parameter, ','), parse);
        var n := |trackParameters|;
        (params.None? ==> o == Fail(ValueError) && mcTrackParam == [])
        && (params.Some? && nmax > 0 && McTuple(labels, params.value, trackParameters, gauss, unif, 0, n).Err? ==>
              o == Fail(McTuple(labels, params.value, trackParameters, gauss, unif, 0, n).error) && mcTrackParam == [])
        && (params.Some? && (nmax <= 0 || McTuple(labels, params.value, trackParameters, gauss, unif, 0, n).Ok?) ==>
              o == Pass && |mcTrackParam| == Max(nmax, 0)
              && forall j :: 0 <= j < |mcTrackParam| ==>
                   McTuple(labels, params.value, trackParameters, gauss, unif, j, n) == Ok(mcTrackParam[j]))
    {
      mcTrackParam := [];
      var labels := SplitOn(distribution, ',');
      var parsed := ParseAll(SplitOn(parameter, ','), parse);
      if parsed.None? {
        return Fail(ValueError);
      }
      var params := parsed.value;
      var n := |trackParameters|;
      var j := 0;
      while j < nmax
        invariant 0 <= j <= Max(nmax, 0)
        invariant |mcTrackParam| == j
        invariant forall k :: 0 <= k < j ==> McTuple(labels, params, trackParameters, gauss, unif, k, n) == Ok(mcTrackParam[k])
        invariant Config() == old(Config()) && padsinfo == old(padsinfo)
        invariant trackElectronPoints == old(trackElectronPoints) && trackDifusedPoints == old(trackDifusedPoints)
        invariant trackElectronPointsFactor == old(trackElectronPointsFactor) && trackPoint == old(trackPoint)
      {
        var r := DrawTuple(labels, params, trackParameters, gauss, unif, j);
        if r.Err? {
          McTupleErrorIgnoresDraws(labels, params, trackParameters, gauss, unif, j, 0, n);
          return Fail(r.error);
        }
        var tuple := r.value;
        mcTrackParam := mcTrackParam + [tuple];
        j := j + 1;
      }
      o := Pass;
    }

    /**
     * `genarate_track`: `points` samples of the straight track from
     * `start` along the direction of the two angles, up to a z travel of
     * `zRange`. A horizontal direction fills the samples with NaN or
     * infinity (`None`); a negative count raises ValueError.
     */
    method GenerateTrack(m: Math, start: Vec3, eAngle: real, aAngle: real, zRange: real, points: int)
      returns (o: Outcome)
      modifies this
      ensures Config() == old(Config()) && padsinfo == old(padsinfo) && mcTrackParam == old(mcTrackParam)
      ensures trackElectronPoints == old(trackElectronPoints) && trackDifusedPoints == old(trackDifusedPoints)
      ensures trackElectronPointsFactor == old(trackElectronPointsFactor)
      ensures points < 0 ==> o == Fail(ValueError) && trackPoint == old(trackPoint)
      ensures points >= 0 ==> o == Pass
      ensures points >= 0 ==> var dir := Direction(m, eAngle, aAngle);
        trackPoint == if dir.z != 0.0 then Some(TrackPoints(start, dir, zRange / dir.z, points))
                      else if points == 0 then Some([]) else None
    {
      var dir := Direction(m, eAngle, aAngle);
      if points < 0 {
        return Fail(ValueError);
      }
      if dir.z == 0.0 {
        trackPoint := if points == 0 then Some([]) else None;
      } else {
        trackPoint := Some(TrackPoints(start, dir, zRange / dir.z, points));
      }
      o := Pass;
    }

    /**
     * `genarate_ionized_electrons`: the multiplicity factor
     * `int(int(dedx * 1e7 * L / W) / points)` and `points` electron
     * positions sampled along the track as in `genarate_track`.
     */
    method GenerateIonizedElectrons(m: Math, start: Vec3, eAngle: real, aAngle: real, zRange: real, points: int)
      returns (o: Outcome)
      modifies this
      ensures Config() == old(Config()) && padsinfo == old(padsinfo) && mcTrackParam == old(mcTrackParam)
      ensures trackPoint == old(trackPoint) && trackDifusedPoints == old(trackDifusedPoints)
      ensures var dir := Direction(m, eAngle, aAngle);
        var count := ElectronCount(m, dir, zRange, dedx, W);
        (count.Err? ==> o == Fail(count.error))
        && (count.Ok? && points == 0 ==> o == Fail(ZeroDivisionError))
        && (count.Err? || points == 0 ==> trackElectronPointsFactor == old(trackElectronPointsFactor))
        && (count.Ok? && points != 0 ==> trackElectronPointsFactor == ElectronFactor(count.value, points))
        && (count.Ok? && points < 0 ==> o == Fail(ValueError))
        && (o.Fail? ==> trackElectronPoints == old(trackElectronPoints))
        && (count.Ok? && points > 0 ==> o == Pass && trackElectronPoints == TrackPoints(start, dir, zRange / dir.z, points))
    {
      var dir := Direction(m, eAngle, aAngle);
      var count := ElectronCount(m, dir, zRange, dedx, W);
      if count.Err? {
        return Fail(count.error);
      }
      if points == 0 {
        return Fail(ZeroDivisionError);
      }
      trackElectronPointsFactor := ElectronFactor(count.value, points);
      if points < 0 {
        return Fail(ValueError);
      }
      trackElectronPoints := TrackPoints(start, dir, zRange / dir.z, points);
      o := Pass;
    }

    /**
     * `calclate_difused_point`: every electron point becomes `gain` points
     * smeared in the named plane, in order. The result is stored inside
     * the loop over the electron points, so with no electron points the
     * previous diffused points stay.
     */
    method CalculateDifusedPoint(plane: string, gain: int, noise: (nat, nat) -> Vec2) returns (o: Outcome)
      modifies this
      ensures Config() == old(Config()) && padsinfo == old(padsinfo) && mcTrackParam == old(mcTrackParam)
      ensures trackPoint == old(trackPoint) && trackElectronPoints == old(trackElectronPoints)
      ensures trackElectronPointsFactor == old(trackElectronPointsFactor)
      ensures |plane| < 2 ==> o == Fail(IndexError) && trackDifusedPoints == old(trackDifusedPoints)
      ensures |plane| >= 2 ==> o == Pass
      ensures |plane| >= 2 ==>
        trackDifusedPoints == if trackElectronPoints == [] then old(trackDifusedPoints)
                              else Diffused(trackElectronPoints, AxisIndex(plane[0]), AxisIndex(plane[1]), Max(gain, 0), noise)
    {
      if |plane| < 2 {
        return Fail(IndexError);
      }
      var a, b := AxisIndex(plane[0]), AxisIndex(plane[1]);
      var g: nat := Max(gain, 0);
      var pts := trackElectronPoints;
      var randomPoints: seq<Vec3> := [];
      for i := 0 to |pts|
        invariant randomPoints == Diffused(pts[..i], a, b, g, noise)
        invariant i == 0 ==> trackDifusedPoints == old(trackDifusedPoints)
        invariant i > 0 ==> trackDifusedPoints == randomPoints
        invariant Config() == old(Config()) && padsinfo == old(padsinfo) && mcTrackParam == old(mcTrackParam)
        invariant trackPoint == old(trackPoint) && trackElectronPoints == pts
        invariant trackElectronPointsFactor == old(trackElectronPointsFactor)
      {
        ghost var before := randomPoints;
        for j := 0 to g
          invariant randomPoints == before + Cloud(pts[i], i, a, b, g, noise)[..j]
        {
          randomPoints := randomPoints + [Smeared(pts[i], a, b, noise(i, j))];
        }
        assert pts[..i + 1][..i] == pts[..i];
        trackDifusedPoints := randomPoints;
      }
      assert pts[..|pts|] == pts;
      o := Pass;
    }

    /**
     * `calclate_pad_electrons`: zeroes every charge, then adds one to pad
     * `j` for each diffused point whose `(x, z)` projection lies in the
     * pad's projected outline.
     */
    method CalculatePadElectrons(inside: (seq<Vec2>, Vec2) -> bool)
      requires padsinfo != null && padsinfo.Valid()
      modifies padsinfo
      ensures padsinfo.Valid()
      ensures padsinfo.basepadlist == old(padsinfo.basepadlist) && padsinfo.pads == old(padsinfo.pads)
      ensures padsinfo.ids == old(padsinfo.ids) && padsinfo.centers == old(padsinfo.centers)
      ensures forall j :: 0 <= j < |padsinfo.pads| ==>
        padsinfo.charges[j] == HitCount(trackDifusedPoints, ProjectPolygon(padsinfo.pads[j]), inside) as real
    {
      var pa := padsinfo;
      for i := 0 to |pa.charges|
        invariant pa.Valid() && pa.pads == old(pa.pads) && pa.centers == old(pa.centers)
        invariant pa.ids == old(pa.ids) && pa.basepadlist == old(pa.basepadlist)
        invariant forall k :: 0 <= k < i ==> pa.charges[k] == 0.0
      {
        pa.charges := pa.charges[i := 0.0];
      }
      var xzpads: seq<seq<Vec2>> := [];
      for i := 0 to |pa.pads|
        invariant |xzpads| == i
        invariant forall k :: 0 <= k < i ==> xzpads[k] == ProjectPolygon(pa.pads[k])
        invariant pa.Valid() && pa.pads == old(pa.pads) && pa.centers == old(pa.centers)
        invariant pa.ids == old(pa.ids) && pa.basepadlist == old(pa.basepadlist)
        invariant forall k :: 0 <= k < |pa.charges| ==> pa.charges[k] == 0.0
      {
        var projected: seq<Vec2> := [];
        for v := 0 to |pa.pads[i]|
          invariant projected == ProjectPolygon(pa.pads[i][..v])
        {
          assert pa.pads[i][..v + 1] == pa.pads[i][..v] + [pa.pads[i][v]];
          projected := projected + [Project(pa.pads[i][v])];
        }
        assert pa.pads[i][..|pa.pads[i]|] == pa.pads[i];
        xzpads := xzpads + [projected];
      }
      var pts := trackDifusedPoints;
      for i := 0 to |pts|
        invariant pa.Valid() && pa.pads == old(pa.pads) && pa.centers == old(pa.centers)
        invariant pa.ids == old(pa.ids) && pa.basepadlist == old(pa.basepadlist)
        invariant forall j :: 0 <= j < |xzpads| ==> pa.charges[j] == HitCount(pts[..i], xzpads[j], inside) as real
      {
        assert pts[..i + 1][..i] == pts[..i];
        for j := 0 to |xzpads|
          invariant pa.Valid() && pa.pads == old(pa.pads) && pa.centers == old(pa.centers)
          invariant pa.ids == old(pa.ids) && pa.basepadlist == old(pa.basepadlist)
          invariant forall k :: 0 <= k < j ==> pa.charges[k] == HitCount(pts[..i + 1], xzpads[k], inside) as real
          invariant forall k :: j <= k < |xzpads| ==> pa.charges[k] == HitCount(pts[..i], xzpads[k], inside) as real
        {
          if inside(xzpads[j], Project(pts[i])) {
            pa.charges := pa.charges[j := pa.charges[j] + 1.0];
          }
        }
      }
      assert pts[..|pts|] == pts;
    }

    /**
     * `calclate_pad_charge`: every count is multiplied in place by
     * `factor * gain * Qe * pC / difusionGain`; a zero divisor raises
     * ZeroDivisionError at the first pad, before anything changes.
     */
    method CalculatePadCharge(difusionGain: real) returns (o: Outcome)
      requires padsinfo != null && padsinfo.Valid()
      modifies padsinfo
      ensures padsinfo.Valid()
      ensures padsinfo.basepadlist == old(padsinfo.basepadlist) && padsinfo.pads == old(padsinfo.pads)
      ensures padsinfo.ids == old(padsinfo.ids) && padsinfo.centers == old(padsinfo.centers)
      ensures difusionGain == 0.0 && padsinfo.charges != [] ==>
        o == Fail(ZeroDivisionError) && padsinfo.charges == old(padsinfo.charges)
      ensures difusionGain != 0.0 || padsinfo.charges == [] ==> o == Pass
      ensures difusionGain != 0.0 ==> forall i :: 0 <= i < |padsinfo.charges| ==>
        padsinfo.charges[i] == old(padsinfo.charges[i]) * ChargeScale(trackElectronPointsFactor, gain, Qe, pC, difusionGain)
    {
      var pa := padsinfo;
      if difusionGain == 0.0 {
        if pa.charges != [] {
          return Fail(ZeroDivisionError);
        }
        return Pass;
      }
      var scale := ChargeScale(trackElectronPointsFactor, gain, Qe, pC, difusionGain);
      for i := 0 to |pa.charges|
        invariant pa.Valid() && pa.pads == old(pa.pads) && pa.centers == old(pa.centers)
        invariant pa.ids == old(pa.ids) && pa.basepadlist == old(pa.basepadlist)
        invariant forall k :: 0 <= k < i ==> pa.charges[k] == old(pa.charges[k]) * scale
        invariant forall k :: i <= k < |pa.charges| ==> pa.charges[k] == old(pa.charges[k])
      {
        var c := pa.charges[i];
        ProductRegroups(c, trackElectronPointsFactor as real, gain, Qe, pC, difusionGain);
        pa.charges := pa.charges[i := c * (trackElectronPointsFactor as real) * gain * Qe * pC / difusionGain];
      }
      o := Pass;
    }
  }

  /**
   * The inner loop of `monte_carlo_track`: tuple `j`, component by
   * component, stopping at the first exception.
   */
  method DrawTuple(labels: seq<string>, params: seq<real>, values: seq<real>,
                   gauss: (nat, nat) -> real, unif: (nat, nat) -> real, j: nat) returns (r: Result<seq<real>>)
    ensures r == McTuple(labels, params, values, gauss, unif, j, |values|)
  {
    var tuple: seq<real> := [];
    var i := 0;
    while i < |values|
      invariant 0 <= i <= |values|
      invariant McTuple(labels, params, values, gauss, unif, j, i) == Ok(tuple)
    {
      var c := Component(labels, params, values[i], gauss(j, i), unif(j, i), i);
      if c.Err? {
        McTupleErrorPersists(labels, params, values, gauss, unif, j, i + 1, |values|);
        return Err(c.error);
      }
      if c.value.Some? {
        tuple := tuple + [c.value.value];
      }
      i := i + 1;
    }
    r := Ok(tuple);
  }

  lemma ProductRegroups(c: real, f: real, g: real, q: real, p: real, d: real)
    requires d != 0.0
    ensures c * f * g * q * p / d == c * (f * g * q * p / d)
  {
  }

  // ------------------------------------------------------- event pipeline

  /** The z of every vertex of every pad, pad by pad (the flattened `z_values`). */
  function VertexZs(pads: seq<seq<Vec3>>): (zs: seq<real>)
  {
    if pads == [] then []
    else
      var last := pads[|pads| - 1];
      VertexZs(pads[..|pads| - 1]) + seq(|last|, k requires 0 <= k < |last| => last[k].z)
  }

  /**
   * The pad charges one event leaves: 100 ionisation points along the
   * track of tuple `prm`, `difusionGain` smeared copies of each in the
   * x-z plane, hits counted per pad and scaled by the charge factor.
   */
  function EventCharges(m: Math, pads: seq<seq<Vec3>>, prm: seq<real>, zRange: real, cfg: Settings,
                        difusionGain: int, noise: (nat, nat) -> Vec2, inside: (seq<Vec2>, Vec2) -> bool)
    : (r: Result<seq<real>>)
    requires |prm| >= 5
    ensures r.Ok? ==> |r.value| == |pads|
  {
    match EventTrack(m, prm, zRange, cfg, difusionGain, noise)
    case Err(e) => Err(e)
    case Ok(fields) => PadCharges(pads, fields.2, fields.0, cfg, difusionGain as real, inside)
  }

  /**
   * The track fields an event of tuple `prm` sets once its electron count
   * is defined: the factor of that count over 100 points, the 100
   * ionisation points along its track, and their `difusionGain` smeared
   * copies in the x-z plane; otherwise the exception the count raises.
   */
  function EventTrack(m: Math, prm: seq<real>, zRange: real, cfg: Settings, difusionGain: int,
                      noise: (nat, nat) -> Vec2): (r: Result<(int, seq<Vec3>, seq<Vec3>)>)
    requires |prm| >= 5
    ensures r.Ok? ==> |r.value.1| == 100 && r.value.1[0] == Vec3(prm[0], prm[1], prm[2])
    ensures r.Ok? ==> |r.value.2| == 100 * Max(difusionGain, 0)
  {
    var dir := Direction(m, prm[3], prm[4]);
    match ElectronCount(m, dir, zRange, cfg.dedx, cfg.W)
    case Err(e) => Err(e)
    case Ok(count) =>
      var electrons := TrackPoints(Vec3(prm[0], prm[1], prm[2]), dir, zRange / dir.z, 100);
      Ok((ElectronFactor(count, 100), electrons, Diffused(electrons, 0, 2, Max(difusionGain, 0), noise)))
  }

  /**
   * The pad charges after `calclate_pad_electrons` and
   * `calclate_pad_charge`: the hit count of every pad times the charge
   * factor, or ZeroDivisionError for a zero divisor and at least one pad.
   */
  function PadCharges(pads: seq<seq<Vec3>>, diffused: seq<Vec3>, factor: int, cfg: Settings,
                      difusionGain: real, inside: (seq<Vec2>, Vec2) -> bool): (r: Result<seq<real>>)
    ensures r.Ok? ==> |r.value| == |pads|
  {
    if difusionGain == 0.0 && pads != [] then Err(ZeroDivisionError)
    else
      Ok(seq(|pads|, j requires 0 <= j < |pads| =>
           HitCount(diffused, ProjectPolygon(pads[j]), inside) as real
           * ChargeScale(factor, cfg.gain, cfg.Qe, cfg.pC, difusionGain)))
  }

  /** The z travel given to every event: the z extent of the pad vertices plus 2 mm (0 with no vertices). */
  function ZRange(pads: seq<seq<Vec3>>): real
  {
    var zs := VertexZs(pads);
    if zs == [] then 0.0 else SeqMax(zs) - SeqMin(zs) + 2.0
  }

  /** The x position and the pad charges of one event of `simulate_pad_charge`, or the exception it raises. */
  function EventResult(m: Math, pads: seq<seq<Vec3>>, centers: seq<Vec3>, prm: seq<real>, cfg: Settings,
                       difusionGain: int, noise: (nat, nat) -> Vec2, inside: (seq<Vec2>, Vec2) -> bool)
    : Result<(Option<real>, seq<real>)>
  {
    var zs := VertexZs(pads);
    if |prm| < 5 then Err(IndexError)
    else if zs == [] then Err(ValueError)
    else EventOutcome(centers, EventCharges(m, pads, prm, ZRange(pads), cfg, difusionGain, noise, inside))
  }

  /** The weighted x position of an event's pad charges, or the exception either step raised. */
  function EventOutcome(centers: seq<Vec3>, charges: Result<seq<real>>): Result<(Option<real>, seq<real>)>
  {
    match charges
    case Err(e) => Err(e)
    case Ok(q) =>
      match WeightedMean(CenterXs(centers), q)
      case Err(e) => Err(e)
      case Ok(x) => Ok((x, q))
  }

  /** The result of every event of a run, event `i` with tuple `mc[i]` and the draws `noise(i)`. */
  function EventResults(m: Math, pads: seq<seq<Vec3>>, centers: seq<Vec3>, mc: seq<seq<real>>, cfg: Settings,
                        difusionGain: int, noise: nat -> (nat, nat) -> Vec2, inside: (seq<Vec2>, Vec2) -> bool)
    : seq<Result<(Option<real>, seq<real>)>>
  {
    seq(|mc|, i requires 0 <= i < |mc| => EventResult(m, pads, centers, mc[i], cfg, difusionGain, noise(i), inside))
  }

  /**
   * The lists `xpos` and `charge` a run of events fills, event by event,
   * or the exception of the first event that raises.
   */
  function CollectEvents(evs: seq<Result<(Option<real>, seq<real>)>>): Result<(seq<Option<real>>, seq<seq<real>>)>
  {
    if evs == [] then Ok(([], []))
    else
      match CollectEvents(evs[..|evs| - 1])
      case Err(e) => Err(e)
      case Ok((xs, qs)) =>
        match evs[|evs| - 1]
        case Err(e) => Err(e)
        case Ok((x, q)) => Ok((xs + [x], qs + [q]))
  }

  /**
   * After a completed prefix, the next event either extends the lists by
   * its x position and charges, or raises and ends the whole run.
   */
  lemma CollectEventsNext(evs: seq<Result<(Option<real>, seq<real>)>>, i: nat,
                          xs: seq<Option<real>>, qs: seq<seq<real>>)
    requires i < |evs| && CollectEvents(evs[..i]) == Ok((xs, qs))
    ensures evs[i].Err? ==> CollectEvents(evs) == Err(evs[i].error)
    ensures evs[i].Ok? ==> CollectEvents(evs[..i + 1]) == Ok((xs + [evs[i].value.0], qs + [evs[i].value.1]))
  {
    assert evs[..i + 1][..i] == evs[..i];
    if evs[i].Err? {
      CollectEventsStops(evs, i + 1);
    }
  }

  /**
   * A run completes exactly when every event does, and then its lists hold
   * every event's x position and charges in event order.
   */
  lemma {:induction false} CollectEventsOk(evs: seq<Result<(Option<real>, seq<real>)>>)
    ensures CollectEvents(evs).Ok? <==> forall i :: 0 <= i < |evs| ==> evs[i].Ok?
    ensures CollectEvents(evs).Ok? ==>
      var (xs, qs) := CollectEvents(evs).value;
      |xs| == |evs| && |qs| == |evs| && forall i :: 0 <= i < |evs| ==> evs[i] == Ok((xs[i], qs[i]))
    decreases |evs|
  {
    if evs != [] {
      var init := evs[..|evs| - 1];
      CollectEventsOk(init);
      assert forall i :: 0 <= i < |init| ==> init[i] == evs[i];
    }
  }

  /** A run that raises raises the exception of its first failing event. */
  lemma {:induction false} CollectEventsErr(evs: seq<Result<(Option<real>, seq<real>)>>)
    requires CollectEvents(evs).Err?
    ensures exists i :: 0 <= i < |evs| && evs[i] == Err(CollectEvents(evs).error)
                        && forall k :: 0 <= k < i ==> evs[k].Ok?
    decreases |evs|
  {
    var init := evs[..|evs| - 1];
    assert forall i :: 0 <= i < |init| ==> init[i] == evs[i];
    if CollectEvents(init).Err? {
      CollectEventsErr(init);
      var i :| 0 <= i < |init| && init[i] == Err(CollectEvents(init).error) && forall k :: 0 <= k < i ==> init[k].Ok?;
      assert evs[i] == Err(CollectEvents(evs).error);
    } else {
      CollectEventsOk(init);
      assert evs[|evs| - 1] == Err(CollectEvents(evs).error);
    }
  }

  /** Once a prefix of the events raises, so does the whole run, with the same exception. */
  lemma {:induction false} CollectEventsStops(evs: seq<Result<(Option<real>, seq<real>)>>, n: nat)
    requires n <= |evs| && CollectEvents(evs[..n]).Err?
    ensures CollectEvents(evs) == CollectEvents(evs[..n])
    decreases |evs|
  {
    if n < |evs| {
      var init := evs[..|evs| - 1];
      assert init[..n] == evs[..n];
      CollectEventsStops(init, n);
    } else {
      assert evs[..n] == evs;
    }
  }

  /**
   * `simulate_pad_charge`: sets the GEM gain, then simulates every
   * Monte-Carlo tuple in turn (event `i` with the draws `noise(i)`),
   * collecting each event's charge-weighted x position and pad charges.
   * The first event that raises ends the run with its exception.
   */
  method SimulatePadCharge(sim: TrackSimulator, m: Math, gain: real, difusionGain: int,
                           noise: nat -> (nat, nat) -> Vec2, inside: (seq<Vec2>, Vec2) -> bool)
    returns (o: Outcome, xpos: seq<Option<real>>, charge: seq<seq<real>>)
    requires sim.padsinfo != null && sim.padsinfo.Valid()
    modifies sim, sim.padsinfo
    ensures sim.Config() == old(sim.Config()).(gain := gain) && sim.padsinfo == old(sim.padsinfo)
    ensures sim.mcTrackParam == old(sim.mcTrackParam)
    ensures sim.padsinfo.Valid() && sim.padsinfo.pads == old(sim.padsinfo.pads)
    ensures sim.padsinfo.centers == old(sim.padsinfo.centers) && sim.padsinfo.ids == old(sim.padsinfo.ids)
    ensures CollectEvents(EventResults(m, sim.padsinfo.pads, sim.padsinfo.centers, sim.mcTrackParam, sim.Config(),
                                       difusionGain, noise, inside))
            == if o.Pass? then Ok((xpos, charge)) else Err(o.error)
    ensures sim.trackPoint == old(sim.trackPoint)
    ensures sim.mcTrackParam == [] ==> sim.padsinfo.charges == old(sim.padsinfo.charges) && sim.Track() == old(sim.Track())
    ensures o.Pass? && sim.mcTrackParam != [] ==>
      var n := |sim.mcTrackParam|;
      |charge| == n && VertexZs(sim.padsinfo.pads) != [] && sim.padsinfo.charges == charge[n - 1]
      && |sim.mcTrackParam[n - 1]| >= 5
      && EventTrack(m, sim.mcTrackParam[n - 1], ZRange(sim.padsinfo.pads), sim.Config(), difusionGain, noise(n - 1))
         == Ok(sim.EventFields())
  {
    sim.SetGain(gain);
    o, xpos, charge := SimulateEvents(sim, m, difusionGain, noise, inside);
  }

  /** The loop of `simulate_pad_charge` over the Monte-Carlo tuples, after the gain is set. */
  method SimulateEvents(sim: TrackSimulator, m: Math, difusionGain: int,
                        noise: nat -> (nat, nat) -> Vec2, inside: (seq<Vec2>, Vec2) -> bool)
    returns (o: Outcome, xpos: seq<Option<real>>, charge: seq<seq<real>>)
    requires sim.padsinfo != null && sim.padsinfo.Valid()
    modifies sim, sim.padsinfo
    ensures sim.Config() == old(sim.Config()) && sim.padsinfo == old(sim.padsinfo)
    ensures sim.mcTrackParam == old(sim.mcTrackParam)
    ensures sim.padsinfo.Valid() && sim.padsinfo.pads == old(sim.padsinfo.pads)
    ensures sim.padsinfo.centers == old(sim.padsinfo.centers) && sim.padsinfo.ids == old(sim.padsinfo.ids)
    ensures CollectEvents(EventResults(m, sim.padsinfo.pads, sim.padsinfo.centers, sim.mcTrackParam, sim.Config(),
                                       difusionGain, noise, inside))
            == if o.Pass? then Ok((xpos, charge)) else Err(o.error)
    ensures sim.trackPoint == old(sim.trackPoint)
    ensures sim.mcTrackParam == [] ==> sim.padsinfo.charges == old(sim.padsinfo.charges) && sim.Track() == old(sim.Track())
    ensures o.Pass? && sim.mcTrackParam != [] ==>
      var n := |sim.mcTrackParam|;
      |charge| == n && VertexZs(sim.padsinfo.pads) != [] && sim.padsinfo.charges == charge[n - 1]
      && |sim.mcTrackParam[n - 1]| >= 5
      && EventTrack(m, sim.mcTrackParam[n - 1], ZRange(sim.padsinfo.pads), sim.Config(), difusionGain, noise(n - 1))
         == Ok(sim.EventFields())
  {
    var pa := sim.padsinfo;
    xpos, charge := [], [];
    var zs := VertexZs(pa.pads);
    var mc, cfg := sim.mcTrackParam, sim.Config();
    var pads, centers := pa.pads, pa.centers;
    ghost var evs := EventResults(m, pads, centers, mc, cfg, difusionGain, noise, inside);
    if mc == [] {
      return Pass, xpos, charge;
    }
    for i := 0 to |mc|
      invariant sim.padsinfo == pa && sim.Config() == cfg && sim.mcTrackParam == mc
      invariant pa.Valid() && pa.pads == pads && pa.centers == centers && pa.ids == old(pa.ids)
      invariant CollectEvents(evs[..i]) == Ok((xpos, charge))
      invariant |charge| == i && sim.trackPoint == old(sim.trackPoint)
      invariant i > 0 ==>
        (zs != [] && pa.charges == charge[i - 1] && |mc[i - 1]| >= 5
         && EventTrack(m, mc[i - 1], ZRange(pads), cfg, difusionGain, noise(i - 1)) == Ok(sim.EventFields()))
    {
      var res;
      res, xpos, charge := NextEvent(sim, m, mc, i, zs, pads, centers, cfg, difusionGain, noise, inside, evs, xpos, charge);
      if res.Err? {
        return Fail(res.error), xpos, charge;
      }
    }
    assert evs[..|mc|] == evs;
    o := Pass;
  }

  /** One pass of the loop of `simulate_pad_charge`: event `i` runs and its results are appended. */
  method NextEvent(sim: TrackSimulator, m: Math, mc: seq<seq<real>>, i: nat, zs: seq<real>,
                   pads: seq<seq<Vec3>>, centers: seq<Vec3>, cfg: Settings, difusionGain: int,
                   noise: nat -> (nat, nat) -> Vec2, inside: (seq<Vec2>, Vec2) -> bool,
                   ghost evs: seq<Result<(Option<real>, seq<real>)>>, xpos: seq<Option<real>>, charge: seq<seq<real>>)
    returns (res: Result<(Option<real>, seq<real>)>, xpos': seq<Option<real>>, charge': seq<seq<real>>)
    requires sim.padsinfo != null && sim.padsinfo.Valid() && sim.padsinfo.pads == pads
    requires sim.padsinfo.centers == centers && sim.Config() == cfg && zs == VertexZs(pads)
    requires i < |mc| && evs == EventResults(m, pads, centers, mc, cfg, difusionGain, noise, inside)
    requires CollectEvents(evs[..i]) == Ok((xpos, charge))
    modifies sim, sim.padsinfo
    ensures sim.Config() == cfg && sim.padsinfo == old(sim.padsinfo) && sim.mcTrackParam == old(sim.mcTrackParam)
    ensures sim.padsinfo.Valid() && sim.padsinfo.pads == pads && sim.padsinfo.centers == centers
    ensures sim.padsinfo.ids == old(sim.padsinfo.ids) && sim.trackPoint == old(sim.trackPoint)
    ensures res.Err? ==> CollectEvents(evs) == Err(res.error)
    ensures res.Ok? ==>
      (CollectEvents(evs[..i + 1]) == Ok((xpos', charge')) && |charge'| == |charge| + 1
       && zs != [] && sim.padsinfo.charges == charge'[|charge|] && |mc[i]| >= 5
       && EventTrack(m, mc[i], ZRange(pads), cfg, difusionGain, noise(i)) == Ok(sim.EventFields()))
  {
    res := RunEvent(sim, m, mc[i], zs, difusionGain, noise(i), inside);
    assert evs[i] == res;
    CollectEventsNext(evs, i, xpos, charge);
    if res.Err? {
      return res, xpos, charge;
    }
    xpos', charge' := xpos + [res.value.0], charge + [res.value.1];
  }

  /**
   * One event of `simulate_pad_charge`: the index checks on the tuple and
   * the z extent, the simulation of the event and its weighted x position.
   */
  method RunEvent(sim: TrackSimulator, m: Math, prm: seq<real>, zs: seq<real>, difusionGain: int,
                  noise: (nat, nat) -> Vec2, inside: (seq<Vec2>, Vec2) -> bool)
    returns (res: Result<(Option<real>, seq<real>)>)
    requires sim.padsinfo != null && sim.padsinfo.Valid() && zs == VertexZs(sim.padsinfo.pads)
    modifies sim, sim.padsinfo
    ensures sim.Config() == old(sim.Config()) && sim.padsinfo == old(sim.padsinfo)
    ensures sim.mcTrackParam == old(sim.mcTrackParam)
    ensures sim.padsinfo.Valid() && sim.padsinfo.pads == old(sim.padsinfo.pads)
    ensures sim.padsinfo.centers == old(sim.padsinfo.centers) && sim.padsinfo.ids == old(sim.padsinfo.ids)
    ensures sim.padsinfo.basepadlist == old(sim.padsinfo.basepadlist)
    ensures res == EventResult(m, sim.padsinfo.pads, sim.padsinfo.centers, prm, sim.Config(), difusionGain, noise, inside)
    ensures sim.trackPoint == old(sim.trackPoint)
    ensures |prm| < 5 || zs == [] ==> sim.padsinfo.charges == old(sim.padsinfo.charges) && sim.Track() == old(sim.Track())
    ensures res.Ok? ==>
      (|prm| >= 5 && zs != [] && sim.padsinfo.charges == res.value.1
       && EventTrack(m, prm, ZRange(sim.padsinfo.pads), sim.Config(), difusionGain, noise) == Ok(sim.EventFields()))
  {
    if |prm| < 5 {
      res := Err(IndexError);
    } else if zs == [] {
      res := Err(ValueError);
    } else {
      var zRange := SeqMax(zs) - SeqMin(zs) + 2.0;
      assert zRange == ZRange(sim.padsinfo.pads);
      ghost var pads, centers, cfg := sim.padsinfo.pads, sim.padsinfo.centers, sim.Config();
      ghost var expected := EventResult(m, pads, centers, prm, cfg, difusionGain, noise, inside);
      assert pads != [];
      assert expected == EventOutcome(centers, EventCharges(m, pads, prm, zRange, cfg, difusionGain, noise, inside));
      res := RunTrack(sim, m, prm, zRange, difusionGain, noise, inside);
      assert sim.padsinfo.pads == pads && sim.padsinfo.centers == centers && sim.Config() == cfg;
    }
  }

  /** The simulation of one event whose tuple and z extent passed the index checks, and its weighted x. */
  method RunTrack(sim: TrackSimulator, m: Math, prm: seq<real>, zRange: real, difusionGain: int,
                  noise: (nat, nat) -> Vec2, inside: (seq<Vec2>, Vec2) -> bool)
    returns (res: Result<(Option<real>, seq<real>)>)
    requires sim.padsinfo != null && sim.padsinfo.Valid() && |prm| >= 5 && sim.padsinfo.pads != []
    modifies sim, sim.padsinfo
    ensures sim.Config() == old(sim.Config()) && sim.padsinfo == old(sim.padsinfo)
    ensures sim.mcTrackParam == old(sim.mcTrackParam)
    ensures sim.padsinfo.Valid() && sim.padsinfo.pads == old(sim.padsinfo.pads)
    ensures sim.padsinfo.centers == old(sim.padsinfo.centers) && sim.padsinfo.ids == old(sim.padsinfo.ids)
    ensures sim.padsinfo.basepadlist == old(sim.padsinfo.basepadlist)
    ensures res == EventOutcome(sim.padsinfo.centers,
                                EventCharges(m, sim.padsinfo.pads, prm, zRange, sim.Config(), difusionGain, noise, inside))
    ensures sim.trackPoint == old(sim.trackPoint)
    ensures var ev := EventCharges(m, sim.padsinfo.pads, prm, zRange, sim.Config(), difusionGain, noise, inside);
      ev.Ok? ==>
        sim.padsinfo.charges == ev.value && EventTrack(m, prm, zRange, sim.Config(), difusionGain, noise) == Ok(sim.EventFields())
  {
    var pa := sim.padsinfo;
    var events := SimulateEvent(sim, m, prm, zRange, difusionGain, noise, inside);
    if events.Err? {
      res := Err(events.error);
    } else {
      var icharge := events.value;
      var mean := WeightedMean(CenterXs(pa.centers), icharge);
      res := if mean.Ok? then Ok((mean.value, icharge)) else Err(mean.error);
    }
  }

  /**
   * One pass of the loop body of `simulate_pad_charge`: ionisation,
   * diffusion in the x-z plane, hit counting and charge scaling, then a
   * copy of the pad charges.
   */
  method SimulateEvent(sim: TrackSimulator, m: Math, prm: seq<real>, zRange: real, difusionGain: int,
                       noise: (nat, nat) -> Vec2, inside: (seq<Vec2>, Vec2) -> bool)
    returns (r: Result<seq<real>>)
    requires sim.padsinfo != null && sim.padsinfo.Valid() && |prm| >= 5
    modifies sim, sim.padsinfo
    ensures sim.Config() == old(sim.Config()) && sim.padsinfo == old(sim.padsinfo)
    ensures r == EventCharges(m, sim.padsinfo.pads, prm, zRange, sim.Config(), difusionGain, noise, inside)
    ensures sim.mcTrackParam == old(sim.mcTrackParam)
    ensures sim.padsinfo.Valid() && sim.padsinfo.pads == old(sim.padsinfo.pads)
    ensures sim.padsinfo.centers == old(sim.padsinfo.centers) && sim.padsinfo.ids == old(sim.padsinfo.ids)
    ensures sim.padsinfo.basepadlist == old(sim.padsinfo.basepadlist)
    ensures sim.trackPoint == old(sim.trackPoint)
    ensures r.Ok? ==>
      sim.padsinfo.charges == r.value && EventTrack(m, prm, zRange, sim.Config(), difusionGain, noise) == Ok(sim.EventFields())
  {
    var pos := Vec3(prm[0], prm[1], prm[2]);
    ghost var dir := Direction(m, prm[3], prm[4]);
    ghost var count := ElectronCount(m, dir, zRange, sim.dedx, sim.W);
    var o1 := sim.GenerateIonizedElectrons(m, pos, prm[3], prm[4], zRange, 100);
    if o1.Fail? {
      return Err(o1.error);
    }
    ghost var electrons := TrackPoints(pos, dir, zRange / dir.z, 100);
    assert sim.trackElectronPoints == electrons && |electrons| == 100;
    var o2 := sim.CalculateDifusedPoint("xz", difusionGain, noise);
    assert AxisIndex("xz"[0]) == 0 && AxisIndex("xz"[1]) == 2;
    r := CountPadCharges(sim, difusionGain as real, inside);
  }

  /** `calclate_pad_electrons`, `calclate_pad_charge` and the copy of the charges, as one step. */
  method CountPadCharges(sim: TrackSimulator, difusionGain: real, inside: (seq<Vec2>, Vec2) -> bool)
    returns (r: Result<seq<real>>)
    requires sim.padsinfo != null && sim.padsinfo.Valid()
    modifies sim.padsinfo
    ensures sim.padsinfo.Valid() && sim.padsinfo.pads == old(sim.padsinfo.pads)
    ensures sim.padsinfo.centers == old(sim.padsinfo.centers) && sim.padsinfo.ids == old(sim.padsinfo.ids)
    ensures sim.padsinfo.basepadlist == old(sim.padsinfo.basepadlist)
    ensures r == PadCharges(sim.padsinfo.pads, sim.trackDifusedPoints, sim.trackElectronPointsFactor, sim.Config(),
                            difusionGain, inside)
    ensures r.Ok? ==> sim.padsinfo.charges == r.value
    ensures r.Err? ==> forall j :: 0 <= j < |sim.padsinfo.pads| ==>
      sim.padsinfo.charges[j] == HitCount(sim.trackDifusedPoints, ProjectPolygon(sim.padsinfo.pads[j]), inside) as real
  {
    var pa := sim.padsinfo;
    sim.CalculatePadElectrons(inside);
    ghost var counts := pa.charges;
    var o3 := sim.CalculatePadCharge(difusionGain);
    if o3.Fail? {
      assert difusionGain == 0.0 && pa.pads != [];
      r := Err(o3.error);
      assert r == PadCharges(pa.pads, sim.trackDifusedPoints, sim.trackElectronPointsFactor, sim.Config(),
                             difusionGain, inside);
      return;
    }
    var icharge: seq<real> := [];
    for j := 0 to |pa.charges|
      invariant icharge == pa.charges[..j]
    {
      icharge := icharge + [pa.charges[j]];
    }
    assert pa.charges[..|pa.charges|] == pa.charges;
    r := Ok(icharge);
    ghost var expected := PadCharges(pa.pads, sim.trackDifusedPoints, sim.trackElectronPointsFactor, sim.Config(),
                                     difusionGain, inside);
    assert expected.Ok? && |expected.value| == |icharge|;
    forall j | 0 <= j < |icharge|
      ensures icharge[j] == expected.value[j]
    {
      assert counts[j] == HitCount(sim.trackDifusedPoints, ProjectPolygon(pa.pads[j]), inside) as real;
    }
    assert icharge == expected.value;
  }

  /**
   * `calculate_pad_charge_threshold`: each event's charges with every
   * entry at or below `threshold` set to 0, and the charge-weighted x
   * position of what is left; the first event whose position raises ends
   * the run with that exception.
   */
  method CalculatePadChargeThreshold(centers: seq<Vec3>, charge: seq<seq<real>>, threshold: real)
    returns (o: Outcome, xposThre: seq<Option<real>>, chargeThre: seq<seq<real>>)
    ensures o.Pass? <==> forall i :: 0 <= i < |charge| ==> WeightedMean(CenterXs(centers), ThresholdRow(charge[i], threshold)).Ok?
    ensures o.Pass? ==> |xposThre| == |charge| && |chargeThre| == |charge|
    ensures o.Pass? ==> forall i :: 0 <= i < |charge| ==>
      chargeThre[i] == ThresholdRow(charge[i], threshold)
      && WeightedMean(CenterXs(centers), chargeThre[i]) == Ok(xposThre[i])
    ensures o.Fail? ==>
      exists i :: 0 <= i < |charge|
        && WeightedMean(CenterXs(centers), ThresholdRow(charge[i], threshold)) == Err(o.error)
        && forall k :: 0 <= k < i ==> WeightedMean(CenterXs(centers), ThresholdRow(charge[k], threshold)).Ok?
  {
    xposThre, chargeThre := [], [];
    for i := 0 to |charge|
      invariant |xposThre| == i && |chargeThre| == i
      invariant forall k :: 0 <= k < i ==>
        chargeThre[k] == ThresholdRow(charge[k], threshold)
        && WeightedMean(CenterXs(centers), chargeThre[k]) == Ok(xposThre[k])
    {
      var q := charge[i];
      var row: seq<real> := [];
      for j := 0 to |q|
        invariant row == ThresholdRow(q, threshold)[..j]
      {
        if q[j] > threshold {
          row := row + [q[j]];
        } else {
          row := row + [0.0];
        }
      }
      assert row == ThresholdRow(q, threshold);
      var xs := CenterXs(centers);
      var mean := WeightedMean(xs, row);
      if mean.Err? {
        return Fail(mean.error), xposThre, chargeThre;
      }
      xposThre := xposThre + [mean.value];
      chargeThre := chargeThre + [row];
    }
    o := Pass;
  }

  /** The multiplicity loop: per event, the number of pads with charge strictly above `globalThreshold`. */
  method Multiplicities(charge: seq<seq<real>>, globalThreshold: real) returns (ms: seq<nat>)
    ensures |ms| == |charge|
    ensures forall i :: 0 <= i < |charge| ==> ms[i] == CountAbove(charge[i], globalThreshold)
  {
    ms := [];
    for i := 0 to |charge|
      invariant |ms| == i
      invariant forall k :: 0 <= k < i ==> ms[k] == CountAbove(charge[k], globalThreshold)
    {
      var q := charge[i];
      var multiplicity := 0;
      for j := 0 to |q|
        invariant multiplicity == CountAbove(q[..j], globalThreshold)
      {
        assert q[..j + 1][..j] == q[..j];
        if q[j] > globalThreshold {
          multiplicity := multiplicity + 1;
        }
      }
      assert q[..|q|] == q;
      ms := ms + [multiplicity];
    }
  }

  /**
   * The resolution loop: `xpos[i] - xposThre[i]` for every thresholded
   * event; an original list shorter than the thresholded one raises IndexError.
   */
  method Residuals(xpos: seq<Option<real>>, xposThre: seq<Option<real>>)
    returns (o: Outcome, resolution: seq<Option<real>>)
    ensures o.Pass? <==> |xposThre| <= |xpos|
    ensures o.Fail? ==> o.error == IndexError
    ensures o.Pass? ==> |resolution| == |xposThre|
    ensures o.Pass? ==> forall i :: 0 <= i < |xposThre| ==> resolution[i] == Residual(xpos[i], xposThre[i])
  {
    resolution := [];
    for i := 0 to |xposThre|
      invariant i <= |xpos|
      invariant |resolution| == i
      invariant forall k :: 0 <= k < i ==> resolution[k] == Residual(xpos[k], xposThre[k])
    {
      if i >= |xpos| {
        return Fail(IndexError), resolution;
      }
      resolution := resolution + [Residual(xpos[i], xposThre[i])];
    }
    o := Pass;
  }
}

/**
 * The three fixed readout layouts of CAT-M: the beam TPC (22 triangular
 * pads in two rows), the recoil TPC (4048 triangular pads in two mirrored
 * halves) and the silicon strip detectors (96 rectangular strips). Each
 * layout is given as a placement plan, and each builder is proved to
 * realise its plan.
 */
module Catm {
  import opened Wrappers
  import opened Numerics
  import opened BasePad

  /** Python `(-1)**i` for `i >= 0`. */
  function Sign(i: nat): real
  {
    if i % 2 == 0 then 1.0 else -1.0
  }

  // ---------------------------------------------------------------- beam TPC

  /** Pad `i` of the first beam TPC row. */
  function BeamTpcRow1(m: Math, i: nat): Placement
    requires NonDegenerate(m) && i < 11
  {
    var sq3 := m.sqrt(3.0);
    Placement(Vec3((i as real) * 5.0 / 2.0 - 12.5, -99.0,
                   5.0 / sq3 / 2.0 * (((i - 1) % 2) as real) - 2.886751345948129 - 255.0),
              0.0, 180.0 * (((i - 1) % 2) as real), 0.0, i)
  }

  /** Pad `i` of the second beam TPC row, offset by `sqrt(3) * 5 / 2` in z. */
  function BeamTpcRow2(m: Math, i: nat): Placement
    requires NonDegenerate(m) && i < 11
  {
    var sq3 := m.sqrt(3.0);
    Placement(Vec3((i as real) * 5.0 / 2.0 - 12.5, -99.0,
                   5.0 / sq3 / 2.0 * ((i % 2) as real) + sq3 * 5.0 / 2.0 - 2.886751345948129 - 255.0),
              0.0, 180.0 * ((i % 2) as real), 0.0, 11 + i)
  }

  /**
   * The beam TPC layout: 22 pads with ids 0..21, all at y = -99, in two
   * rows of 11 at x = -12.5, -10, ..., 12.5; even-numbered pads are
   * turned by 180 degrees about y and odd-numbered ones are not, so
   * neighbours in a row, and the two pads at the same x, point opposite ways.
   */
  function BeamTpcPlan(m: Math): (plan: seq<Placement>)
    requires NonDegenerate(m)
    ensures |plan| == 22
    ensures forall k :: 0 <= k < 22 ==>
      plan[k].id == k && plan[k].center.y == -99.0 && plan[k].center.x == ((k % 11) as real) * 2.5 - 12.5
      && plan[k].degX == 0.0 && plan[k].degZ == 0.0 && plan[k].degY == (if k % 2 == 0 then 180.0 else 0.0)
  {
    seq(11, i requires 0 <= i < 11 => BeamTpcRow1(m, i)) + seq(11, i requires 0 <= i < 11 => BeamTpcRow2(m, i))
  }

  /** `generate_regular_n_polygon(3, length, 90)` as a template vertex list. */
  function Triangle(m: Math, length: real): seq<Vec3>
    requires NonDegenerate(m)
  {
    RegularTemplate(m, 3, length, 90.0)
  }

  /** Builds the beam TPC array: one triangle template of side 4.74, then the plan. */
  method GetBeamTpcArray(m: Math) returns (pad: ReadoutPadArray)
    requires NonDegenerate(m)
    ensures fresh(pad) && pad.Valid()
    ensures |pad.basepadlist| == 1 && pad.basepadlist[0].polygon == Triangle(m, 4.74)
    ensures Realizes(m, Triangle(m, 4.74), pad.pads, pad.ids, pad.charges, BeamTpcPlan(m))
  {
    var base := GenerateRegularNPolygon(m, 3, 4.74, 90.0);
    pad := new ReadoutPadArray();
    pad.AddBasepad(base);
    AddLayout(pad, m, BeamTpcPlan(m));
  }

  // --------------------------------------------------------------- recoil TPC

  /** Height of a recoil pad triangle row, `7 * sqrt(3) / 2`. */
  function RecoilRowHeight(m: Math): real
  {
    7.0 * m.sqrt(3.0) / 2.0
  }

  /**
   * Pad `k` of the recoil TPC. The first 2024 pads are the half at x < 0
   * and the rest the half at x > 0; each half is 44 double rows
   * (`j = 0..43`) of two rows of 23 triangles (`i = 0..22`), the second row
   * shifted by 3.5 in z.
   */
  function RecoilPlacement(m: Math, k: nat): (p: Placement)
    requires k < 4048
    ensures p.id == k && p.center.y == -99.0 && p.degX == 0.0 && p.degZ == 0.0
    ensures p.degY == 90.0 || p.degY == -90.0
    ensures -152.25 <= p.center.z <= 152.25
  {
    var half, r := k / 2024, k % 2024;
    var j, s := r / 46, r % 46;
    var i := s % 23;
    var h := RecoilRowHeight(m);
    var ir := i as real;
    var zoffset := -152.25;
    if half == 0 && s < 23 then
      var x := if i % 2 == 0 then -ir * h - h / 3.0 else -ir * h - h / 3.0 - h / 3.0;
      Placement(Vec3(x, -99.0, 7.0 * (j as real) + zoffset), 0.0, -90.0 * Sign(i), 0.0, k)
    else if half == 0 then
      var x := if i % 2 == 0 then -ir * h - h * 2.0 / 3.0 else -ir * h - h / 3.0;
      Placement(Vec3(x, -99.0, 7.0 / 2.0 + 7.0 * (j as real) + zoffset), 0.0, -90.0 * Sign(i + 1), 0.0, k)
    else if s < 23 then
      var x := if i % 2 == 0 then ir * h + h / 3.0 else ir * h + h * 2.0 / 3.0;
      Placement(Vec3(x, -99.0, 7.0 * (j as real) + zoffset), 0.0, -90.0 * Sign(i + 1), 0.0, k)
    else
      var x := if i % 2 == 0 then ir * h + h * 2.0 / 3.0 else ir * h + h / 3.0;
      Placement(Vec3(x, -99.0, 7.0 / 2.0 + 7.0 * (j as real) + zoffset), 0.0, -90.0 * Sign(i), 0.0, k)
  }

  /** The recoil TPC layout: 4048 pads with ids 0..4047 (2 halves x 44 x 2 x 23). */
  function RecoilTpcPlan(m: Math): (plan: seq<Placement>)
    ensures |plan| == 4048
    ensures forall k :: 0 <= k < 4048 ==> plan[k] == RecoilPlacement(m, k)
  {
    seq(4048, k requires 0 <= k < 4048 => RecoilPlacement(m, k))
  }

  /**
   * The half at x > 0 is the mirror image of the half at x < 0: pad
   * `k + 2024` sits at `(-x, y, z)` of pad `k` and is turned the opposite way.
   */
  lemma RecoilHalvesAreMirrored(m: Math, k: nat)
    requires k < 2024
    ensures var left, right := RecoilPlacement(m, k), RecoilPlacement(m, k + 2024);
      right.center == Vec3(-left.center.x, left.center.y, left.center.z) && right.degY == -left.degY
  {
    assert (k + 2024) / 2024 == 1 && (k + 2024) % 2024 == k % 2024;
  }

  /** Builds the recoil TPC array: one triangle template of side 6.9133974596, then the plan. */
  method GetRecoilTpcArray(m: Math) returns (pad: ReadoutPadArray)
    requires NonDegenerate(m)
    ensures fresh(pad) && pad.Valid()
    ensures |pad.basepadlist| == 1 && pad.basepadlist[0].polygon == Triangle(m, 6.9133974596)
    ensures Realizes(m, Triangle(m, 6.9133974596), pad.pads, pad.ids, pad.charges, RecoilTpcPlan(m))
  {
    var base := GenerateRegularNPolygon(m, 3, 6.9133974596, 90.0);
    pad := new ReadoutPadArray();
    pad.AddBasepad(base);
    AddLayout(pad, m, RecoilTpcPlan(m));
  }

  // ---------------------------------------------------------- silicon strips

  /** Width of one strip, `90.6 / 8`. */
  const StripWidth: real := 90.6 / 8.0

  /**
   * Strip `k`: block `k / 8` of twelve, strip `k % 8` in the block. Blocks
   * 0-5 are at x = -255 and 6-11 at x = 255; within each group of six the
   * first three are at y = 54 and the rest at y = -54; the three blocks of
   * a row start from z = -42.55, 65.45 and 168.45.
   */
  function SsdPlacement(k: nat): (p: Placement)
    requires k < 96
    ensures p.id == k && p.degX == 0.0 && p.degY == 0.0 && p.degZ == 0.0
    ensures (p.center.x == -255.0) == (k < 48) && (p.center.x == 255.0) == (k >= 48)
    ensures p.center.y == (if k % 48 < 24 then 54.0 else -54.0)
    ensures p.center.z - StripWidth * ((k % 8) as real)
      == (if k / 8 % 3 == 0 then -42.55 else if k / 8 % 3 == 1 then 65.45 else 168.45) - 45.3
  {
    var b, i := k / 8, k % 8;
    var x := if b < 6 then -255.0 else 255.0;
    var y := if b % 6 < 3 then 54.0 else -54.0;
    var z0 := if b % 3 == 0 then -42.55 else if b % 3 == 1 then 65.45 else 168.45;
    Placement(Vec3(x, y, z0 + 90.6 / 8.0 * (i as real) - 90.6 / 2.0), 0.0, 0.0, 0.0, k)
  }

  /** The strip layout: 96 strips, ids 0..95, none rotated. */
  function SsdPlan(): (plan: seq<Placement>)
    ensures |plan| == 96
    ensures forall k :: 0 <= k < 96 ==> plan[k] == SsdPlacement(k)
  {
    seq(96, k requires 0 <= k < 96 => SsdPlacement(k))
  }

  /**
   * Neighbouring strips of a block share x and y and are one strip width
   * apart in z, which is the z extent of the strip template, so a block
   * covers its 90.6 mm without gaps or overlaps.
   */
  lemma SsdStripsAbut(k: nat)
    requires k < 95 && k % 8 != 7
    ensures var a, b := SsdPlacement(k), SsdPlacement(k + 1);
      b.center.x == a.center.x && b.center.y == a.center.y && b.center.z - a.center.z == StripWidth
    ensures var t := OblongVertices(StripWidth, 90.6, "yz");
      t[0].z - t[1].z == StripWidth
  {
    assert (k + 1) / 8 == k / 8 && (k + 1) % 8 == k % 8 + 1;
  }

  /** Builds the strip array: one `yz` rectangle template 90.6/8 by 90.6, then the plan. */
  method GetSsdArray(m: Math) returns (pad: ReadoutPadArray)
    ensures fresh(pad) && pad.Valid()
    ensures |pad.basepadlist| == 1 && pad.basepadlist[0].polygon == OblongVertices(StripWidth, 90.6, "yz")
    ensures Realizes(m, OblongVertices(StripWidth, 90.6, "yz"), pad.pads, pad.ids, pad.charges, SsdPlan())
  {
    var base := GenerateOblong4Polygon(90.6 / 8.0, 90.6, "yz");
    pad := new ReadoutPadArray();
    pad.AddBasepad(base);
    AddLayout(pad, m, SsdPlan());
  }
}

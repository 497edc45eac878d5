/**
 * Trial beam-TPC pad layouts: the original 22-pad layout, the layout whose
 * second row is shifted by 1.25 in x, the 60-pad layout, and the
 * version switch that picks one of them.
 */
module TrialPad {
  import opened Numerics
  import opened BasePad
  import Catm

  /** A pad of a trial layout: centre `(x, 0, z)`, turned `rotY` degrees about y. */
  function TrialPlacement(x: real, z: real, rotY: real, id: int): Placement
  {
    Placement(Vec3(x, 0.0, z), 0.0, rotY, 0.0, id)
  }

  // ------------------------------------------------------- 22-pad layouts

  /** Pad `i` of the first row of both 22-pad layouts. */
  function FirstRow(m: Math, i: nat): Placement
    requires NonDegenerate(m) && i < 11
  {
    var sq3 := m.sqrt(3.0);
    TrialPlacement((i as real) * 5.0 / 2.0, 5.0 / sq3 / 2.0 * (((i - 1) % 2) as real),
                   180.0 * (((i - 1) % 2) as real), i)
  }

  /** Pad `i` of the second row, starting `shift` pitches to the right. */
  function SecondRow(m: Math, i: nat, shift: real): Placement
    requires NonDegenerate(m) && i < 11
  {
    var sq3 := m.sqrt(3.0);
    TrialPlacement(((i as real) + shift) * 5.0 / 2.0, 5.0 / sq3 / 2.0 * ((i % 2) as real) + sq3 * 5.0 / 2.0,
                   180.0 * ((i % 2) as real), 11 + i)
  }

  /** The original 22-pad layout: two rows of 11 with pitch 2.5. */
  function OriginalPlan(m: Math): (plan: seq<Placement>)
    requires NonDegenerate(m)
    ensures |plan| == 22
  {
    seq(11, i requires 0 <= i < 11 => FirstRow(m, i)) + seq(11, i requires 0 <= i < 11 => SecondRow(m, i, 0.0))
  }

  /** The 22-pad layout whose second row is shifted by 1.25 in x. */
  function OneFourthShiftPlan(m: Math): (plan: seq<Placement>)
    requires NonDegenerate(m)
    ensures |plan| == 22
  {
    seq(11, i requires 0 <= i < 11 => FirstRow(m, i)) + seq(11, i requires 0 <= i < 11 => SecondRow(m, i, 0.5))
  }

  /**
   * The shifted layout keeps the first row and the ids of the original one
   * and moves every second-row pad by +1.25 in x only.
   */
  lemma ShiftMovesOnlySecondRow(m: Math)
    requires NonDegenerate(m)
    ensures var a, b := OriginalPlan(m), OneFourthShiftPlan(m);
      (forall k :: 0 <= k < 11 ==> b[k] == a[k])
      && forall k :: 11 <= k < 22 ==>
           b[k] == a[k].(center := Vec3(a[k].center.x + 1.25, a[k].center.y, a[k].center.z))
  {
  }

  /**
   * The detector's beam TPC layout is the original trial layout moved by
   * `(-12.5, -99, -2.886751345948129 - 255)`, pad by pad, with the same
   * orientations and ids.
   */
  lemma BeamTpcIsOriginalMoved(m: Math)
    requires NonDegenerate(m)
    ensures var a, b := OriginalPlan(m), Catm.BeamTpcPlan(m);
      forall k :: 0 <= k < 22 ==>
        b[k] == a[k].(center := Add(a[k].center, Vec3(-12.5, -99.0, -2.886751345948129 - 255.0)))
  {
  }

  /** `get_original_beamtpc_pad_array`: triangle template of side 4.74, original layout. */
  method GetOriginalBeamtpcPadArray(m: Math) returns (pad: ReadoutPadArray)
    requires NonDegenerate(m)
    ensures fresh(pad) && pad.Valid()
    ensures |pad.basepadlist| == 1 && pad.basepadlist[0].polygon == Catm.Triangle(m, 4.74)
    ensures Realizes(m, Catm.Triangle(m, 4.74), pad.pads, pad.ids, pad.charges, OriginalPlan(m))
  {
    var base := GenerateRegularNPolygon(m, 3, 4.74, 90.0);
    pad := new ReadoutPadArray();
    pad.AddBasepad(base);
    AddLayout(pad, m, OriginalPlan(m));
  }

  /** `get_beamtpc_one_fourth_shift_pad_array`: same template, shifted second row. */
  method GetBeamtpcOneFourthShiftPadArray(m: Math) returns (pad: ReadoutPadArray)
    requires NonDegenerate(m)
    ensures fresh(pad) && pad.Valid()
    ensures |pad.basepadlist| == 1 && pad.basepadlist[0].polygon == Catm.Triangle(m, 4.74)
    ensures Realizes(m, Catm.Triangle(m, 4.74), pad.pads, pad.ids, pad.charges, OneFourthShiftPlan(m))
  {
    var base := GenerateRegularNPolygon(m, 3, 4.74, 90.0);
    pad := new ReadoutPadArray();
    pad.AddBasepad(base);
    AddLayout(pad, m, OneFourthShiftPlan(m));
  }

  // -------------------------------------------------------- 60-pad layout

  /** Row 1 of the 60-pad layout, loop index `i = 2..21`. */
  function Row60First(m: Math, i: nat): Placement
    requires NonDegenerate(m) && 2 <= i <= 21
  {
    var sq3 := m.sqrt(3.0);
    TrialPlacement(((i as real) - 0.5) * 3.0 / 2.0 - 15.75, 3.0 / sq3 / 2.0 * (((i - 1) % 2) as real),
                   180.0 * (((i - 1) % 2) as real), i - 2)
  }

  /** Row 2 of the 60-pad layout, loop index `i = 1..20`. */
  function Row60Second(m: Math, i: nat): Placement
    requires NonDegenerate(m) && 1 <= i <= 20
  {
    var sq3 := m.sqrt(3.0);
    TrialPlacement(((i + 0) as real) * 3.0 / 2.0 - 15.75,
                   3.0 / sq3 / 2.0 * ((i % 2) as real) + sq3 * 3.0 / 2.0,
                   180.0 * ((i % 2) as real), 19 + i)
  }

  /** Row 3 of the 60-pad layout, loop index `i = 0..19`. */
  function Row60Third(m: Math, i: nat): Placement
    requires NonDegenerate(m) && i <= 19
  {
    var sq3 := m.sqrt(3.0);
    TrialPlacement(((i as real) + 0.5) * 3.0 / 2.0 - 15.75,
                   3.0 / sq3 / 2.0 * (((i - 1) % 2) as real) + 2.0 * sq3 * 3.0 / 2.0,
                   180.0 * (((i - 1) % 2) as real), 40 + i)
  }

  /**
   * The 60-pad layout: three rows of 20 pads with ids 0..59 at y = 0, each
   * row with pitch 1.5 in x, every pad turned by 0 or 180 degrees about y.
   */
  function Plan60ch(m: Math): (plan: seq<Placement>)
    requires NonDegenerate(m)
    ensures |plan| == 60
    ensures forall k :: 0 <= k < 60 ==>
      plan[k].id == k && plan[k].center.y == 0.0 && plan[k].degX == 0.0 && plan[k].degZ == 0.0
      && (plan[k].degY == 0.0 || plan[k].degY == 180.0)
    ensures forall k :: 0 <= k < 59 && k % 20 != 19 ==> plan[k + 1].center.x - plan[k].center.x == 1.5
  {
    seq(20, k requires 0 <= k < 20 => Row60First(m, k + 2))
    + seq(20, k requires 0 <= k < 20 => Row60Second(m, k + 1))
    + seq(20, k requires 0 <= k < 20 => Row60Third(m, k))
  }

  /** `get_beamtpc_60ch_pad_array`: triangle template of side 2.75, 60-pad layout. */
  method GetBeamtpc60chPadArray(m: Math) returns (pad: ReadoutPadArray)
    requires NonDegenerate(m)
    ensures fresh(pad) && pad.Valid()
    ensures |pad.basepadlist| == 1 && pad.basepadlist[0].polygon == Catm.Triangle(m, 2.75)
    ensures Realizes(m, Catm.Triangle(m, 2.75), pad.pads, pad.ids, pad.charges, Plan60ch(m))
  {
    var base := GenerateRegularNPolygon(m, 3, 2.75, 90.0);
    pad := new ReadoutPadArray();
    pad.AddBasepad(base);
    AddLayout(pad, m, Plan60ch(m));
  }

  /**
   * `get_trail_beamtpc_array`: versions 0 and 1 both give the shifted
   * 22-pad layout, version 2 the 60-pad layout, any other version nothing.
   */
  method GetTrailBeamtpcArray(m: Math, version: int) returns (pad: ReadoutPadArray?)
    requires NonDegenerate(m)
    ensures (version == 0 || version == 1 || version == 2) <==> pad != null
    ensures pad != null ==> fresh(pad) && pad.Valid() && |pad.basepadlist| == 1
    ensures version == 0 || version == 1 ==>
      pad != null && Realizes(m, Catm.Triangle(m, 4.74), pad.pads, pad.ids, pad.charges, OneFourthShiftPlan(m))
    ensures version == 2 ==>
      pad != null && Realizes(m, Catm.Triangle(m, 2.75), pad.pads, pad.ids, pad.charges, Plan60ch(m))
  {
    if version == 0 {
      pad := GetBeamtpcOneFourthShiftPadArray(m);
    } else if version == 1 {
      pad := GetBeamtpcOneFourthShiftPadArray(m);
    } else if version == 2 {
      pad := GetBeamtpc60chPadArray(m);
    } else {
      pad := null;
    }
  }
}

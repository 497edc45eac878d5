/**
 * The voltage-setting bookkeeping of a GEM-based TPC: the condition
 * dictionary (one value per gap, keyed by the gap labels of `spaces`), the
 * field strengths computed from electrode voltages, the running-sum
 * estimate of the input voltages that realise a set of conditions, and the
 * readings taken from simulated stages. The simulator itself is not
 * modelled: its node voltages and branch currents are lists of numbers
 * handed to the object.
 */
module VoltageSetting {
  import opened Wrappers
  import opened Text
  import opened Numerics

  // -------------------------------------------------------- field strength

  /** Voltage drop over gap `i`: to the next electrode, or to 0 after the last. */
  function Dv(ev: seq<real>, i: nat): real
    requires i < |ev|
  {
    if i < |ev| - 1 then ev[i] - ev[i + 1] else ev[i] - 0.0
  }

  /**
   * The value written for gap `i`: the absolute drop for a GEM gap, the
   * reduced field dv/dx/pressure/1e3 otherwise. The division is evaluated
   * for GEM gaps too, so a zero gap or pressure fails for every gap.
   */
  function FieldValue(ev: seq<real>, dx: seq<real>, labels: seq<string>, pressure: real, i: nat): (r: Result<real>)
    requires i < |ev| && |labels| == |dx|
    ensures r.Ok? ==> i < |dx|
  {
    if i >= |dx| then Err(IndexError)
    else if dx[i] == 0.0 || pressure == 0.0 then Err(ZeroDivisionError)
    else
      var dv := Dv(ev, i);
      var e := dv / dx[i] / pressure / 1000.0;
      Ok(if Contains(labels[i], "gem") then Abs(dv) else e)
  }

  /** The conditions after the first `n` turns of the field loop, which stops at the first exception. */
  function FieldRun(ev: seq<real>, dx: seq<real>, labels: seq<string>, pressure: real, conds: seq<real>, n: nat)
    : (r: (seq<real>, Outcome))
    requires n <= |ev| && |labels| == |dx| && |conds| == |dx|
    ensures |r.0| == |conds|
  {
    if n == 0 then (conds, Pass)
    else
      var prev := FieldRun(ev, dx, labels, pressure, conds, n - 1);
      if prev.1.Fail? then prev
      else match FieldValue(ev, dx, labels, pressure, n - 1)
        case Err(e) => (prev.0, Fail(e))
        case Ok(v) => (prev.0[n - 1 := v], Pass)
  }

  /**
   * The loop passes exactly when every gap's value can be computed; then
   * each of the first `n` conditions holds its gap's value and the rest
   * are untouched. A failure carries the exception of some gap.
   */
  lemma {:induction false} FieldRunMeaning(ev: seq<real>, dx: seq<real>, labels: seq<string>, pressure: real,
                                           conds: seq<real>, n: nat)
    requires n <= |ev| && |labels| == |dx| && |conds| == |dx|
    ensures var r := FieldRun(ev, dx, labels, pressure, conds, n);
      && (r.1.Pass? <==> forall k :: 0 <= k < n ==> FieldValue(ev, dx, labels, pressure, k).Ok?)
      && (r.1.Pass? ==> forall k :: 0 <= k < n ==> r.0[k] == FieldValue(ev, dx, labels, pressure, k).value)
      && (forall k :: n <= k < |conds| ==> r.0[k] == conds[k])
      && (r.1.Fail? ==> exists k :: 0 <= k < n && FieldValue(ev, dx, labels, pressure, k) == Err(r.1.error))
  {
    if n > 0 {
      FieldRunMeaning(ev, dx, labels, pressure, conds, n - 1);
    }
  }

  // ------------------------------------------------------ trial estimate

  /** The factor turning a condition back into a voltage drop. */
  function Factor(gap: string, space: real, pressure: real): real
  {
    if Contains(gap, "gem") then -1.0 else 1000.0 * space * pressure
  }

  function Contributions(labels: seq<string>, dx: seq<real>, conds: seq<real>, pressure: real): (c: seq<real>)
    requires |labels| == |conds| && |dx| == |conds|
    ensures |c| == |conds|
    ensures forall i :: 0 <= i < |c| ==> c[i] == conds[i] * Factor(labels[i], dx[i], pressure)
  {
    seq(|conds|, i requires 0 <= i < |conds| => conds[i] * Factor(labels[i], dx[i], pressure))
  }

  /** The sum of `c[j..]`. */
  function RunningSum(c: seq<real>, j: nat): real
    requires j <= |c|
    decreases |c| - j
  {
    if j == |c| then 0.0 else c[j] + RunningSum(c, j + 1)
  }

  /** Entry `i` is the sum of the contributions of the last `i + 1` gaps. */
  function TrialVoltages(labels: seq<string>, dx: seq<real>, conds: seq<real>, pressure: real): (t: seq<real>)
    requires |labels| == |conds| && |dx| == |conds|
    ensures |t| == |conds|
  {
    var c := Contributions(labels, dx, conds, pressure);
    seq(|conds|, i requires 0 <= i < |conds| => RunningSum(c, |conds| - 1 - i))
  }

  /** Contributions that are the gaps' voltage drops add up to the electrode voltages. */
  lemma {:induction false} DropsTelescope(ev: seq<real>, c: seq<real>, j: nat)
    requires |c| == |ev| && j < |ev|
    requires forall k :: 0 <= k < |c| ==> c[k] == Dv(ev, k)
    ensures RunningSum(c, j) == ev[j]
    decreases |c| - j
  {
    if j < |c| - 1 {
      DropsTelescope(ev, c, j + 1);
    }
  }

  /** For a non-GEM gap, multiplying the reduced field by the trial factor undoes the division. */
  lemma FactorUndoesField(dv: real, space: real, pressure: real)
    requires space != 0.0 && pressure != 0.0
    ensures dv / space / pressure / 1000.0 * (1000.0 * space * pressure) == dv
  {
    calc {
      dv / space / pressure / 1000.0 * (1000.0 * space * pressure);
      (dv / space) / pressure / 1000.0 * 1000.0 * pressure * space;
      (dv / space) / pressure * pressure * space;
      (dv / space) * space;
    }
  }

  /**
   * The trial estimate inverts the field computation: with every gap and
   * the pressure non-zero and every GEM gap's drop non-positive (the
   * voltages rise towards the anode), the trial voltages computed from the
   * conditions the field loop writes are the electrode voltages, last
   * electrode first.
   */
  lemma TrialInvertsFields(ev: seq<real>, dx: seq<real>, labels: seq<string>, pressure: real, conds: seq<real>)
    requires |ev| == |dx| && |labels| == |dx| && |conds| == |dx|
    requires pressure != 0.0 && forall i :: 0 <= i < |dx| ==> dx[i] != 0.0
    requires forall i :: 0 <= i < |ev| && Contains(labels[i], "gem") ==> Dv(ev, i) <= 0.0
    ensures var r := FieldRun(ev, dx, labels, pressure, conds, |ev|);
      && r.1.Pass?
      && forall i :: 0 <= i < |ev| ==> TrialVoltages(labels, dx, r.0, pressure)[i] == ev[|ev| - 1 - i]
  {
    var n := |ev|;
    var r := FieldRun(ev, dx, labels, pressure, conds, n);
    FieldRunMeaning(ev, dx, labels, pressure, conds, n);
    var c := Contributions(labels, dx, r.0, pressure);
    forall k | 0 <= k < n
      ensures c[k] == Dv(ev, k)
    {
      if !Contains(labels[k], "gem") {
        FactorUndoesField(Dv(ev, k), dx[k], pressure);
      }
    }
    forall i | 0 <= i < n
      ensures TrialVoltages(labels, dx, r.0, pressure)[i] == ev[n - 1 - i]
    {
      DropsTelescope(ev, c, n - 1 - i);
    }
  }

  // ---------------------------------------------------- simulator readings

  /**
   * The source and electrode voltages read from the first `n` stages'
   * node voltages: stage 0 gives sources (vol[2], vol[0]) and electrodes
   * (vol[2], vol[1]), every later stage gives vol[0] to both. A stage with
   * too few nodes is an IndexError.
   */
  function SourceReadings(av: seq<seq<real>>, n: nat): (r: Result<(seq<real>, seq<real>)>)
    requires n <= |av|
  {
    if n == 0 then Ok(([], []))
    else match SourceReadings(av, n - 1)
      case Err(e) => Err(e)
      case Ok(prev) =>
        var vol := av[n - 1];
        if n - 1 == 0 then
          if |vol| <= 2 then Err(IndexError) else Ok((prev.0 + [vol[2], vol[0]], prev.1 + [vol[2], vol[1]]))
        else if |vol| == 0 then Err(IndexError) else Ok((prev.0 + [vol[0]], prev.1 + [vol[0]]))
  }

  /**
   * The readings succeed exactly when stage 0 has three nodes and every
   * other stage one; then stage 0 contributes two sources and every other
   * stage one, and sources and electrodes agree except at position 1.
   */
  lemma {:induction false} SourceReadingsShape(av: seq<seq<real>>, n: nat)
    requires n <= |av|
    ensures var r := SourceReadings(av, n);
      && (r.Ok? <==> n == 0 || (|av[0]| >= 3 && forall i :: 1 <= i < n ==> |av[i]| >= 1))
      && (r.Ok? && n > 0 ==>
            && |r.value.0| == n + 1 && |r.value.1| == n + 1
            && r.value.0[0] == av[0][2] && r.value.1[0] == av[0][2]
            && r.value.0[1] == av[0][0] && r.value.1[1] == av[0][1]
            && (forall k :: 2 <= k <= n ==> r.value.0[k] == av[k - 1][0])
            && (forall k :: 2 <= k <= n ==> r.value.1[k] == av[k - 1][0]))
  {
    if n > 1 {
      SourceReadingsShape(av, n - 1);
      var r := SourceReadings(av, n);
      if r.Ok? {
        var prev := SourceReadings(av, n - 1).value;
        assert r.value == (prev.0 + [av[n - 1][0]], prev.1 + [av[n - 1][0]]);
      }
    }
  }

  /** A stage's branch currents in microampere. */
  function Scaled(row: seq<real>): (s: seq<real>)
    ensures |s| == |row|
    ensures forall k :: 0 <= k < |s| ==> s[k] == row[k] * 1000000.0
  {
    seq(|row|, k requires 0 <= k < |row| => row[k] * 1000000.0)
  }

  /** Every stage's currents, stage after stage. */
  function ScaledCurrents(ac: seq<seq<real>>): seq<real>
  {
    if ac == [] then [] else ScaledCurrents(ac[..|ac| - 1]) + Scaled(ac[|ac| - 1])
  }

  function TotalLength(ac: seq<seq<real>>): nat
  {
    if ac == [] then 0 else TotalLength(ac[..|ac| - 1]) + |ac[|ac| - 1]|
  }

  lemma {:induction false} ScaledCurrentsLength(ac: seq<seq<real>>)
    ensures |ScaledCurrents(ac)| == TotalLength(ac)
  {
    if ac != [] {
      ScaledCurrentsLength(ac[..|ac| - 1]);
    }
  }

  /** Current `j` of stage `i` sits after all currents of the earlier stages. */
  lemma {:induction false} ScaledCurrentsAt(ac: seq<seq<real>>, i: nat, j: nat)
    requires i < |ac| && j < |ac[i]|
    ensures TotalLength(ac[..i]) + j < |ScaledCurrents(ac)|
    ensures ScaledCurrents(ac)[TotalLength(ac[..i]) + j] == ac[i][j] * 1000000.0
  {
    var init := ac[..|ac| - 1];
    ScaledCurrentsLength(init);
    if i == |ac| - 1 {
      assert ac[..i] == init;
    } else {
      assert init[..i] == ac[..i];
      ScaledCurrentsAt(init, i, j);
    }
  }

  // ------------------------------------------------------------- stages

  /** The circuits `double_minitpc_double_thgem` builds, by kind, pull-down resistor and title. */
  datatype StageCircuit = FieldCage(version: int, pullDown: real, title: string) | Plate(pullDown: real, title: string)

  const StageTitles: seq<string> := ["Filed Cage and THGEM1 top", "THGEM1 bottom", "THGEM2 top", "THGEM2 bottom"]

  /** Anything but four resistors gives None; otherwise a field cage (version 2) and three plates. */
  method DoubleMinitpcDoubleThgem(resistors: seq<real>) returns (r: Option<seq<StageCircuit>>)
    ensures r.Some? <==> |resistors| == 4
    ensures r.Some? ==> |r.value| == 4 && r.value[0] == FieldCage(2, resistors[0], StageTitles[0])
    ensures r.Some? ==> forall i :: 1 <= i < 4 ==> r.value[i] == Plate(resistors[i], StageTitles[i])
  {
    if |resistors| != 4 {
      return None;
    }
    var circuits: seq<StageCircuit> := [];
    for i := 0 to |resistors|
      invariant |circuits| == i
      invariant i > 0 ==> circuits[0] == FieldCage(2, resistors[0], StageTitles[0])
      invariant forall k :: 1 <= k < i ==> circuits[k] == Plate(resistors[k], StageTitles[k])
    {
      if i == 0 {
        circuits := circuits + [FieldCage(2, resistors[i], StageTitles[i])];
      } else {
        circuits := circuits + [Plate(resistors[i], StageTitles[i])];
      }
    }
    r := Some(circuits);
  }

  // --------------------------------------------------------- the object

  class VoltageSettingData {
    const pressure: real
    /** The keys of `spaces`, in order; the condition dictionary has the same keys. */
    const spaceLabels: seq<string>
    /** The values of `spaces`, in order. */
    const spaces: seq<real>
    /** The values of the condition dictionary, key by key. */
    var conditions: seq<real>
    var electrodeVoltages: seq<real>
    /** Node voltages of each simulated stage, in the simulator's node order. */
    var analysisVoltages: seq<seq<real>>
    /** Branch currents of each simulated stage. */
    var analysisCurrents: seq<seq<real>>

    ghost predicate Valid()
      reads this`conditions
    {
      |spaces| == |spaceLabels| && |conditions| == |spaceLabels|
    }

    /** A setting without stages or source voltages: every condition starts at 0. */
    constructor (labels: seq<string>, values: seq<real>, p: real)
      requires |labels| == |values|
      requires forall i, j :: 0 <= i < j < |labels| ==> labels[i] != labels[j]
      ensures Valid()
      ensures spaceLabels == labels && spaces == values && pressure == p
      ensures conditions == seq(|labels|, _ => 0.0)
      ensures electrodeVoltages == [] && analysisVoltages == [] && analysisCurrents == []
    {
      pressure, spaceLabels, spaces := p, labels, values;
      electrodeVoltages, analysisVoltages, analysisCurrents := [], [], [];
      var c: seq<real> := [];
      for i := 0 to |labels|
        invariant c == seq(i, _ => 0.0)
      {
        c := c + [0.0];
      }
      conditions := c;
    }

    /** The dictionary as (key, value) pairs, in key order. */
    function Condition(): (r: seq<(string, real)>)
      reads this`conditions
      requires Valid()
      ensures |r| == |spaceLabels|
      ensures forall i :: 0 <= i < |r| ==> r[i].0 == spaceLabels[i] && r[i].1 == conditions[i]
    {
      var values := conditions;
      seq(|spaceLabels|, i requires 0 <= i < |spaceLabels| && |values| == |spaceLabels| => (spaceLabels[i], values[i]))
    }

    /** A list of the wrong length is refused; otherwise the values are assigned key by key. */
    method SetCondition(inputs: seq<real>) returns (r: Option<seq<real>>)
      requires Valid()
      modifies this`conditions
      ensures Valid()
      ensures |inputs| != |spaceLabels| ==> r == None && conditions == old(conditions)
      ensures |inputs| == |spaceLabels| ==> conditions == inputs && r == Some(inputs)
    {
      if |inputs| != |conditions| {
        return None;
      }
      for i := 0 to |spaceLabels|
        invariant |conditions| == |spaceLabels|
        invariant conditions == inputs[..i] + old(conditions)[i..]
      {
        conditions := conditions[i := inputs[i]];
        assert inputs[..i + 1] == inputs[..i] + [inputs[i]];
      }
      r := Some(conditions);
    }

    /** Writes each gap's field value (or GEM drop) into the conditions, up to the first exception. */
    method CalculateFieldStrength() returns (o: Outcome)
      requires Valid()
      modifies this`conditions
      ensures Valid()
      ensures (conditions, o) == FieldRun(electrodeVoltages, spaces, spaceLabels, pressure, old(conditions), |electrodeVoltages|)
    {
      var ev := electrodeVoltages;
      var i := 0;
      o := Pass;
      while i < |ev|
        invariant 0 <= i <= |ev| && |conditions| == |spaceLabels| && o == Pass
        invariant (conditions, o) == FieldRun(ev, spaces, spaceLabels, pressure, old(conditions), i)
      {
        var dv := if i < |ev| - 1 then ev[i] - ev[i + 1] else ev[i] - 0.0;
        if i >= |spaces| {
          o := Fail(IndexError);
        } else if spaces[i] == 0.0 || pressure == 0.0 {
          o := Fail(ZeroDivisionError);
        }
        if o.Fail? {
          FieldRunStops(ev, spaces, spaceLabels, pressure, old(conditions), i + 1);
          return;
        }
        var e := dv / spaces[i] / pressure / 1000.0;
        conditions := conditions[i := if Contains(spaceLabels[i], "gem") then Abs(dv) else e];
        i := i + 1;
      }
    }

    /** The trial input voltages: running sums of the conditions, from the last gap backwards. */
    method EstimateTrialInputVoltage() returns (trial: seq<real>)
      requires Valid()
      ensures trial == TrialVoltages(spaceLabels, spaces, conditions, pressure)
    {
      var n := |conditions|;
      ghost var c := Contributions(spaceLabels, spaces, conditions, pressure);
      trial := [];
      var voltage := 0.0;
      for i := 0 to n
        invariant |trial| == i && voltage == RunningSum(c, n - i)
        invariant forall k :: 0 <= k < i ==> trial[k] == RunningSum(c, n - 1 - k)
      {
        var factor := if Contains(spaceLabels[n - i - 1], "gem") then -1.0 else 1000.0 * spaces[n - i - 1] * pressure;
        voltage := voltage + conditions[n - i - 1] * factor;
        trial := trial + [voltage];
      }
    }

    /**
     * The source voltages and the branch currents (in microampere) of all
     * simulated stages; the electrode voltages are kept when nothing
     * fails. With `dump`, a listing of one current per source raises
     * IndexError when there are fewer currents than sources.
     */
    method GetSimulatedSourceVoltageCurrent(dump: bool) returns (r: Result<(seq<real>, seq<real>)>)
      modifies this`electrodeVoltages
      ensures match SourceReadings(analysisVoltages, |analysisVoltages|)
        case Err(e) => r == Err(e) && electrodeVoltages == old(electrodeVoltages)
        case Ok(readings) =>
          var currents := ScaledCurrents(analysisCurrents);
          if dump && |currents| < |readings.0| then r == Err(IndexError) && electrodeVoltages == old(electrodeVoltages)
          else r == Ok((readings.0, currents)) && electrodeVoltages == readings.1
    {
      var av := analysisVoltages;
      var voltages: seq<real>, electrode: seq<real> := [], [];
      for i := 0 to |av|
        invariant SourceReadings(av, i) == Ok((voltages, electrode))
      {
        var vol := av[i];
        if i == 0 {
          if |vol| <= 2 {
            SourceReadingsStop(av, i + 1);
            return Err(IndexError);
          }
          voltages, electrode := voltages + [vol[2], vol[0]], electrode + [vol[2], vol[1]];
        } else {
          if |vol| == 0 {
            SourceReadingsStop(av, i + 1);
            return Err(IndexError);
          }
          voltages, electrode := voltages + [vol[0]], electrode + [vol[0]];
        }
      }
      var ac := analysisCurrents;
      var currents: seq<real> := [];
      for i := 0 to |ac|
        invariant currents == ScaledCurrents(ac[..i])
      {
        var cur := ac[i];
        assert ac[..i + 1][..i] == ac[..i];
        for j := 0 to |cur|
          invariant currents == ScaledCurrents(ac[..i]) + Scaled(cur[..j])
        {
          assert Scaled(cur[..j + 1]) == Scaled(cur[..j]) + [cur[j] * 1000000.0];
          currents := currents + [cur[j] * 1000000.0];
        }
        assert cur[..|cur|] == cur;
      }
      assert ac[..|ac|] == ac;
      if dump && |currents| < |voltages| {
        return Err(IndexError);
      }
      electrodeVoltages := electrode;
      r := Ok((voltages, currents));
    }
  }

  /** Once the field loop has failed, later turns change nothing. */
  lemma {:induction false} FieldRunFailStays(ev: seq<real>, dx: seq<real>, labels: seq<string>, pressure: real,
                                             conds: seq<real>, m: nat, n: nat)
    requires m <= n <= |ev| && |labels| == |dx| && |conds| == |dx|
    requires FieldRun(ev, dx, labels, pressure, conds, m).1.Fail?
    ensures FieldRun(ev, dx, labels, pressure, conds, n) == FieldRun(ev, dx, labels, pressure, conds, m)
    decreases n
  {
    if n > m {
      FieldRunFailStays(ev, dx, labels, pressure, conds, m, n - 1);
    }
  }

  /** A failed turn ends the field loop with that turn's exception, conditions as they were. */
  lemma FieldRunStops(ev: seq<real>, dx: seq<real>, labels: seq<string>, pressure: real,
                      conds: seq<real>, n: nat)
    requires 0 < n <= |ev| && |labels| == |dx| && |conds| == |dx|
    requires FieldRun(ev, dx, labels, pressure, conds, n - 1).1.Pass?
    requires FieldValue(ev, dx, labels, pressure, n - 1).Err?
    ensures FieldRun(ev, dx, labels, pressure, conds, |ev|)
         == (FieldRun(ev, dx, labels, pressure, conds, n - 1).0, Fail(FieldValue(ev, dx, labels, pressure, n - 1).error))
  {
    FieldRunFailStays(ev, dx, labels, pressure, conds, n, |ev|);
  }

  /** Once a stage has failed the readings, later stages change nothing. */
  lemma {:induction false} SourceReadingsErrStays(av: seq<seq<real>>, m: nat, n: nat)
    requires m <= n <= |av| && SourceReadings(av, m).Err?
    ensures SourceReadings(av, n) == SourceReadings(av, m)
    decreases n
  {
    if n > m {
      SourceReadingsErrStays(av, m, n - 1);
    }
  }

  /** A stage with too few nodes fails the readings of the whole list. */
  lemma SourceReadingsStop(av: seq<seq<real>>, n: nat)
    requires 0 < n <= |av| && SourceReadings(av, n - 1).Ok?
    requires if n == 1 then |av[0]| <= 2 else |av[n - 1]| == 0
    ensures SourceReadings(av, |av|) == Err(IndexError)
  {
    SourceReadingsErrStays(av, n, |av|);
  }
}

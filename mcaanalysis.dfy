/**
 * The bookkeeping half of the multichannel-analyser gain analysis: the
 * gain-calculation parameters, measured charge and gain from fitted peak
 * positions, the inversion of the calibration line, the removal of fitted
 * peaks, and the run number taken from a spectrum file name.
 *
 * The peak fits themselves (Minuit) are not modelled: fitted means and
 * sigmas are fields that the caller fills, and the straight-line fit of the
 * calibration is a function passed in.
 */
module McaAnalysis {
  import opened Wrappers
  import opened Numerics
  import opened Text
  import opened PeakRemoval

  // ---------------------------------------------------------------- linear

  /** `linear(x, p0, p1)`: the straight line through `p0` with slope `p1`. */
  function Linear(x: real, p0: real, p1: real): real
  {
    p0 + p1 * x
  }

  /**
   * The calibration parameters `a = 1/p1`, `b = -p0/p1` give the inverse of
   * the fitted line: mapping a channel to a charge and back gives the
   * channel again, and the other way round.
   */
  lemma CalibrationInvertsFit(p0: real, p1: real, x: real)
    requires p1 != 0.0
    ensures Linear(Linear(x, -p0 / p1, 1.0 / p1), p0, p1) == x
    ensures Linear(Linear(x, p0, p1), -p0 / p1, 1.0 / p1) == x
  {
    assert p1 * (-p0 / p1) == -p0;
    assert p1 * (1.0 / p1) == 1.0;
    calc {
      Linear(Linear(x, -p0 / p1, 1.0 / p1), p0, p1);
      p0 + p1 * (-p0 / p1 + (1.0 / p1) * x);
      p0 + p1 * (-p0 / p1) + (p1 * (1.0 / p1)) * x;
      x;
    }
    var q := 1.0 / p1;
    assert q * p0 == p0 / p1;
    assert q * (p1 * x) == (q * p1) * x;
    calc {
      Linear(Linear(x, p0, p1), -p0 / p1, q);
      -p0 / p1 + q * (p0 + p1 * x);
      -p0 / p1 + q * p0 + q * (p1 * x);
      -p0 / p1 + p0 / p1 + (q * p1) * x;
      x;
    }
  }

  // ---------------------------------------------------------- flattening

  /** numpy's `flatten` accepts only rows of one common length. */
  predicate Rectangular(rows: seq<seq<real>>)
  {
    forall i :: 0 <= i < |rows| ==> |rows[i]| == |rows[0]|
  }

  /** The rows laid end to end. */
  function Flatten(rows: seq<seq<real>>): seq<real>
  {
    if rows == [] then [] else Flatten(rows[..|rows| - 1]) + rows[|rows| - 1]
  }

  /** Entry `j` of row `i` comes before the end of row `n - 1`. */
  lemma {:induction false} RowBound(i: nat, j: nat, n: nat, w: nat)
    requires i < n && j < w
    ensures i * w + j < n * w
    decreases n
  {
    assert n * w == (n - 1) * w + w;
    if i < n - 1 {
      RowBound(i, j, n - 1, w);
    }
  }

  /** Row-major length. */
  lemma {:induction false} FlattenLength(rows: seq<seq<real>>, w: nat)
    requires forall i :: 0 <= i < |rows| ==> |rows[i]| == w
    ensures |Flatten(rows)| == |rows| * w
    decreases |rows|
  {
    if rows != [] {
      var n := |rows|;
      FlattenLength(rows[..n - 1], w);
      assert n * w == (n - 1) * w + w;
    }
  }

  /** Row-major order: entry `j` of row `i` lands at `i * w + j`. */
  lemma {:induction false} FlattenAt(rows: seq<seq<real>>, w: nat, i: nat, j: nat)
    requires forall k :: 0 <= k < |rows| ==> |rows[k]| == w
    requires i < |rows| && j < w
    ensures i * w + j < |Flatten(rows)| && Flatten(rows)[i * w + j] == rows[i][j]
    decreases |rows|
  {
    var n := |rows|;
    var init := rows[..n - 1];
    FlattenLength(init, w);
    RowBound(i, j, n, w);
    assert Flatten(rows) == Flatten(init) + rows[n - 1];
    assert n * w == (n - 1) * w + w;
    if i < n - 1 {
      FlattenAt(init, w, i, j);
      assert init[i] == rows[i];
    } else {
      assert i * w == |Flatten(init)|;
    }
  }

  /** The calibration line applied to every entry. */
  function LinearAll(xs: seq<real>, p0: real, p1: real): (r: seq<real>)
    ensures |r| == |xs| && forall k :: 0 <= k < |xs| ==> r[k] == Linear(xs[k], p0, p1)
  {
    seq(|xs|, k requires 0 <= k < |xs| => Linear(xs[k], p0, p1))
  }

  // --------------------------------------------------------------- gain

  /**
   * One entry of `G`: the charge divided by the conversion gain and by the
   * primary charge `dEdX * dL * Qe / W`. numpy turns a zero divisor into an
   * infinite or undefined value; that is `None` here.
   */
  function Gain(q: real, cg: real, dEdX: real, dL: real, qe: real, w: real): (g: Option<real>)
    requires w != 0.0
    ensures g.None? <==> cg == 0.0 || dEdX * dL * qe == 0.0
    ensures g.Some? ==> g.value * cg * (dEdX * dL * qe / w) == q
  {
    var primary := dEdX * dL * qe / w;
    assert primary == 0.0 <==> dEdX * dL * qe == 0.0;
    if cg == 0.0 || primary == 0.0 then None
    else
      var g := (q / cg) / primary;
      assert g * primary == q / cg;
      assert (q / cg) * cg == q;
      Some(g)
  }

  // ---------------------------------------------------------- calibration

  /**
   * The relative errors `sigma / mean` of the calibration peaks, built in
   * order until a sigma is missing (IndexError) or a mean is zero
   * (ZeroDivisionError); the second component says how the loop ended.
   */
  function RelativeErrors(means: seq<real>, sigmas: seq<real>): (r: (seq<real>, Outcome))
    ensures |r.0| <= |means|
    ensures r.1.Pass? <==> |r.0| == |means|
  {
    if means == [] then ([], Pass)
    else
      var n := |means| - 1;
      var prev := RelativeErrors(means[..n], sigmas);
      if prev.1.Fail? then prev
      else if n >= |sigmas| then (prev.0, Fail(IndexError))
      else if means[n] == 0.0 then (prev.0, Fail(ZeroDivisionError))
      else (prev.0 + [sigmas[n] / means[n]], Pass)
  }

  /**
   * Every relative error built times its mean is its sigma; the loop stops
   * at the first position without a sigma (IndexError) or with a zero mean
   * (ZeroDivisionError).
   */
  lemma RelativeErrorsMeaning(means: seq<real>, sigmas: seq<real>)
    ensures var r := RelativeErrors(means, sigmas);
      && (forall k :: 0 <= k < |r.0| ==> k < |sigmas| && means[k] != 0.0 && r.0[k] * means[k] == sigmas[k])
      && (r.1.Fail? ==> r.1.error == (if |r.0| < |sigmas| then ZeroDivisionError else IndexError))
      && (r.1.Fail? && |r.0| < |sigmas| ==> means[|r.0|] == 0.0)
  {
    RelativeErrorsValues(means, sigmas);
    RelativeErrorsFailure(means, sigmas);
  }

  /** Every relative error built times its mean is its sigma. */
  lemma {:induction false} RelativeErrorsValues(means: seq<real>, sigmas: seq<real>)
    ensures var r := RelativeErrors(means, sigmas);
      forall k :: 0 <= k < |r.0| ==> k < |sigmas| && means[k] != 0.0 && r.0[k] * means[k] == sigmas[k]
    decreases |means|
  {
    if means != [] {
      var n := |means| - 1;
      var init := means[..n];
      var prev := RelativeErrors(init, sigmas);
      RelativeErrorsValues(init, sigmas);
      var r := RelativeErrors(means, sigmas);
      if prev.1.Fail? || n >= |sigmas| || means[n] == 0.0 {
        assert r.0 == prev.0;
      } else {
        var e := sigmas[n] / means[n];
        assert r.0 == prev.0 + [e];
        DivTimes(sigmas[n], means[n]);
        assert r.0[n] == e;
      }
      forall k | 0 <= k < |prev.0|
        ensures k < |sigmas| && means[k] != 0.0 && r.0[k] * means[k] == sigmas[k]
      {
        assert r.0[k] == prev.0[k] && init[k] == means[k];
      }
    }
  }

  /**
   * The loop stops at the first position without a sigma (IndexError) or
   * with a zero mean (ZeroDivisionError).
   */
  lemma {:induction false} RelativeErrorsFailure(means: seq<real>, sigmas: seq<real>)
    ensures var r := RelativeErrors(means, sigmas);
      && (r.1.Fail? ==> r.1.error == (if |r.0| < |sigmas| then ZeroDivisionError else IndexError))
      && (r.1.Fail? && |r.0| < |sigmas| ==> means[|r.0|] == 0.0)
    decreases |means|
  {
    if means != [] {
      var n := |means| - 1;
      var init := means[..n];
      var prev := RelativeErrors(init, sigmas);
      RelativeErrorsFailure(init, sigmas);
      if prev.1.Fail? {
        assert RelativeErrors(means, sigmas) == prev;
        assert |prev.0| < |sigmas| ==> init[|prev.0|] == means[|prev.0|];
      } else {
        assert |prev.0| == n;
      }
    }
  }

  /** A fit of `y = p0 + p1 * x` with y-errors, returning `(p0, p1)` or the error it raised. */
  type LineFit = (seq<real>, seq<real>, seq<real>) -> Result<(real, real)>

  /** The fitted values of `datas_means`/`datas_sigmas` of one file each, and the lists beside them. */
  datatype FitLists = FitLists(xs: seq<seq<seq<real>>>, ys: seq<seq<seq<real>>>, oys: seq<seq<seq<real>>>,
                               means: seq<seq<real>>, sigmas: seq<seq<real>>)
  {
    /** As many rows in each list as in `l`'s. */
    predicate SameShape(l: FitLists)
    {
      |xs| == |l.xs| && |ys| == |l.ys| && |oys| == |l.oys| && |means| == |l.means| && |sigmas| == |l.sigmas|
    }
  }

  // ------------------------------------------------- remove_fitted_peak('data')

  /**
   * Whether the bound check `0 <= index < len(row)` reaches `len(row)` for
   * some index of `d`: the chained comparison stops at a negative index.
   */
  predicate ReadsRow(d: seq<int>)
  {
    exists k :: 0 <= k < |d| && d[k] >= 0
  }

  /**
   * Deleting the sorted indices `d` from row `i`. A missing row is an
   * IndexError as soon as a non-negative index is checked against it;
   * negative indices never read the row.
   */
  function RowDelete<T>(rows: seq<seq<T>>, i: nat, d: seq<int>): (r: Result<seq<seq<T>>>)
    ensures r.Ok? ==> |r.value| == |rows|
  {
    if i >= |rows| then (if ReadsRow(d) then Err(IndexError) else Ok(rows))
    else Ok(rows[i := DeleteEach(rows[i], d)])
  }

  /** A row deletion raises exactly for a missing row and a non-negative index, and then only IndexError. */
  lemma RowDeleteFails<T>(rows: seq<seq<T>>, i: nat, d: seq<int>)
    ensures RowDelete(rows, i, d).Err? <==> i >= |rows| && ReadsRow(d)
    ensures RowDelete(rows, i, d).Err? ==> RowDelete(rows, i, d).error == IndexError
    ensures i >= |rows| && !ReadsRow(d) ==> RowDelete(rows, i, d) == Ok(rows)
  {
  }

  /**
   * The deletions of one file raise exactly when one of the five lists has
   * no row `i` and some index is non-negative.
   */
  lemma FileStepFails(l: FitLists, i: nat, d: seq<int>)
    ensures FileStep(l, i, d).1.Fail? <==>
      ReadsRow(d) && (i >= |l.xs| || i >= |l.ys| || i >= |l.oys| || i >= |l.means| || i >= |l.sigmas|)
  {
  }

  /** The five deletion loops for file `i`, in source order, stopping at the first error. */
  function FileStep(l: FitLists, i: nat, d: seq<int>): (r: (FitLists, Outcome))
    ensures r.0.SameShape(l)
  {
    match RowDelete(l.xs, i, d)
    case Err(e) => (l, Fail(e))
    case Ok(xs) =>
      var l1 := l.(xs := xs);
      match RowDelete(l1.ys, i, d)
      case Err(e) => (l1, Fail(e))
      case Ok(ys) =>
        var l2 := l1.(ys := ys);
        match RowDelete(l2.oys, i, d)
        case Err(e) => (l2, Fail(e))
        case Ok(oys) =>
          var l3 := l2.(oys := oys);
          match RowDelete(l3.means, i, d)
          case Err(e) => (l3, Fail(e))
          case Ok(means) =>
            var l4 := l3.(means := means);
            match RowDelete(l4.sigmas, i, d)
            case Err(e) => (l4, Fail(e))
            case Ok(sigmas) => (l4.(sigmas := sigmas), Pass)
  }

  /** The lists after files `0 .. n-1` were processed, or at the first error. */
  function RemoveFromFiles(l: FitLists, indexLists: seq<seq<int>>, n: nat): (r: (FitLists, Outcome))
    ensures r.0.SameShape(l)
  {
    if n == 0 then (l, Pass)
    else
      var prev := RemoveFromFiles(l, indexLists, n - 1);
      if prev.1.Fail? then prev
      else if n - 1 >= |indexLists| then (prev.0, Fail(IndexError))
      else FileStep(prev.0, n - 1, SortDescending(indexLists[n - 1]))
  }

  /** Rows below `n` lost the positions listed for their file; the other rows are as before. */
  predicate RowsRemoved<T(==)>(before: seq<seq<T>>, after: seq<seq<T>>, indexLists: seq<seq<int>>, n: nat)
    requires n <= |indexLists|
  {
    |after| == |before|
    && forall k :: 0 <= k < |before| ==>
         after[k] == if k < n then DeleteEach(before[k], SortDescending(indexLists[k])) else before[k]
  }

  /** One more file through one list. */
  lemma RowsRemovedStep<T>(before: seq<seq<T>>, mid: seq<seq<T>>, after: seq<seq<T>>, indexLists: seq<seq<int>>, n: nat)
    requires 0 < n <= |indexLists| && RowsRemoved(before, mid, indexLists, n - 1)
    requires RowDelete(mid, n - 1, SortDescending(indexLists[n - 1])) == Ok(after)
    ensures RowsRemoved(before, after, indexLists, n)
  {
  }

  /** A file that went through changed each list by one row deletion. */
  lemma FileStepPasses(l: FitLists, i: nat, d: seq<int>)
    requires FileStep(l, i, d).1.Pass?
    ensures var r := FileStep(l, i, d).0;
      && RowDelete(l.xs, i, d) == Ok(r.xs) && RowDelete(l.ys, i, d) == Ok(r.ys)
      && RowDelete(l.oys, i, d) == Ok(r.oys) && RowDelete(l.means, i, d) == Ok(r.means)
      && RowDelete(l.sigmas, i, d) == Ok(r.sigmas)
  {
  }

  /**
   * When every file went through, each of the five lists lost, in the row
   * of every file, exactly what that file's sorted index list deletes.
   */
  lemma {:induction false} RemoveFromFilesDeletes(l: FitLists, indexLists: seq<seq<int>>, n: nat)
    requires RemoveFromFiles(l, indexLists, n).1.Pass?
    ensures n <= |indexLists|
    ensures var r := RemoveFromFiles(l, indexLists, n).0;
      && RowsRemoved(l.xs, r.xs, indexLists, n) && RowsRemoved(l.ys, r.ys, indexLists, n)
      && RowsRemoved(l.oys, r.oys, indexLists, n) && RowsRemoved(l.means, r.means, indexLists, n)
      && RowsRemoved(l.sigmas, r.sigmas, indexLists, n)
  {
    if n > 0 {
      var prev := RemoveFromFiles(l, indexLists, n - 1);
      RemoveFromFilesDeletes(l, indexLists, n - 1);
      var d := SortDescending(indexLists[n - 1]);
      var r := FileStep(prev.0, n - 1, d);
      FileStepPasses(prev.0, n - 1, d);
      RowsRemovedStep(l.xs, prev.0.xs, r.0.xs, indexLists, n);
      RowsRemovedStep(l.ys, prev.0.ys, r.0.ys, indexLists, n);
      RowsRemovedStep(l.oys, prev.0.oys, r.0.oys, indexLists, n);
      RowsRemovedStep(l.means, prev.0.means, r.0.means, indexLists, n);
      RowsRemovedStep(l.sigmas, prev.0.sigmas, r.0.sigmas, indexLists, n);
    } else {
      KeepRows(l.xs, indexLists);
      KeepRows(l.ys, indexLists);
      KeepRows(l.oys, indexLists);
      KeepRows(l.means, indexLists);
      KeepRows(l.sigmas, indexLists);
    }
  }

  /** A file whose only index is -1 completes even without fitted rows: the row is never read. */
  lemma NegativeIndexSkipsMissingRow()
    ensures RemoveFromFiles(FitLists([], [], [], [[1.0]], [[0.5]]), [[-1]], 1)
            == (FitLists([], [], [], [[1.0]], [[0.5]]), Pass)
  {
    var l := FitLists([], [], [], [[1.0]], [[0.5]]);
    assert SortDescending([-1]) == [-1];
    assert !ReadsRow([-1]);
    assert DeleteEach([1.0], [-1]) == [1.0];
    assert DeleteEach([0.5], [-1]) == [0.5];
    assert [[1.0]][0 := [1.0]] == [[1.0]];
    assert [[0.5]][0 := [0.5]] == [[0.5]];
  }

  lemma KeepRows<T>(rows: seq<seq<T>>, indexLists: seq<seq<int>>)
    ensures RowsRemoved(rows, rows, indexLists, 0)
  {
  }

  // -------------------------------------------------------- extract_number

  /** The sort key of a spectrum file: its run number, or infinity. */
  datatype FileNumber = Number(value: nat) | Infinite

  /**
   * The pattern `-(\d+)\.spe$` matches with the '-' at `i` and the digits
   * in `i+1 .. j`; `$` also matches just before a final newline.
   */
  predicate MatchAt(path: string, i: nat, j: nat)
  {
    i < j <= |path| && path[i] == '-' && IsDigits(path[i + 1..j]) && (path[j..] == ".spe" || path[j..] == ".spe\n")
  }

  /** Where the ".spe" ending starts, if the path has one. */
  function SuffixStart(path: string): (j: Option<nat>)
    ensures j.Some? ==> j.value <= |path| && (path[j.value..] == ".spe" || path[j.value..] == ".spe\n")
  {
    if EndsWith(path, ".spe") then Some(|path| - 4)
    else if EndsWith(path, ".spe\n") then Some(|path| - 5)
    else None
  }

  /** The start of the longest run of digits that ends at `j`. */
  function DigitRunStart(s: string, j: nat): (k: nat)
    requires j <= |s|
    ensures k <= j && (k == 0 || !IsDigit(s[k - 1]))
    ensures forall t :: k <= t < j ==> IsDigit(s[t])
  {
    if j == 0 || !IsDigit(s[j - 1]) then j else DigitRunStart(s, j - 1)
  }

  /** `extract_number`: the digits between the last '-' and the ".spe" ending, else infinity. */
  function ExtractNumber(path: string): (r: FileNumber)
    ensures r.Number? ==> exists i: nat, j: nat :: MatchAt(path, i, j) && r.value == DecimalValue(path[i + 1..j])
  {
    match SuffixStart(path)
    case None => Infinite
    case Some(j) =>
      var k := DigitRunStart(path, j);
      if 0 < k < j && path[k - 1] == '-' then
        assert MatchAt(path, k - 1, j);
        Number(DecimalValue(path[k..j]))
      else Infinite
  }

  /** Any match of the pattern gives the number; with no match the key is infinity. */
  lemma ExtractNumberMatches(path: string, i: nat, j: nat)
    requires MatchAt(path, i, j)
    ensures ExtractNumber(path) == Number(DecimalValue(path[i + 1..j]))
  {
    SuffixOfMatch(path, j);
    DigitRunOfMatch(path, i, j);
  }

  lemma SuffixOfMatch(path: string, j: nat)
    requires j <= |path| && (path[j..] == ".spe" || path[j..] == ".spe\n")
    ensures SuffixStart(path) == Some(j)
  {
    if path[j..] == ".spe" {
      assert EndsWith(path, ".spe");
    } else {
      assert path[|path| - 1] == '\n';
      assert !EndsWith(path, ".spe");
      assert EndsWith(path, ".spe\n");
    }
  }

  lemma DigitRunOfMatch(path: string, i: nat, j: nat)
    requires MatchAt(path, i, j)
    ensures DigitRunStart(path, j) == i + 1
  {
    forall t | i + 1 <= t < j
      ensures IsDigit(path[t])
    {
      assert path[t] == path[i + 1..j][t - i - 1];
    }
  }

  // ------------------------------------------------------------ analyser

  /** `TMultiChannelAnalyzer`: the fields the gain analysis reads and writes. */
  class MultiChannelAnalyzer {
    var qMeas: seq<real>
    var qMeasErr: seq<real>
    var dEdX: real
    var dL: real
    var w: real
    var qe: real
    var cg: real
    var gain: seq<Option<real>>
    var gainErr: seq<Option<real>>
    var a: real
    var b: real
    var inputValues: seq<real>
    var calibMeans: seq<real>
    var calibSigmas: seq<real>
    var calibMeansErr: seq<real>
    var datasFitXs: seq<seq<seq<real>>>
    var datasFitYs: seq<seq<seq<real>>>
    var datasFitOys: seq<seq<seq<real>>>
    var datasMeans: seq<seq<real>>
    var datasSigmas: seq<seq<real>>

    /** The default parameters: 1 MeV/mm stopping power, 12 mm pad, 26 eV per pair, unit line. */
    constructor ()
      ensures qMeas == [] && qMeasErr == [] && gain == [] && gainErr == []
      ensures dEdX == 1000000.0 && dL == 12.0 && w == 26.0 && qe == 0.0000001602 && cg == 1.0
      ensures a == 1.0 && b == 0.0
      ensures inputValues == [] && calibMeans == [] && calibSigmas == [] && calibMeansErr == []
      ensures datasFitXs == [] && datasFitYs == [] && datasFitOys == [] && datasMeans == [] && datasSigmas == []
    {
      qMeas, qMeasErr := [], [];
      dEdX, dL, w, qe, cg := 1000000.0, 12.0, 26.0, 0.0000001602, 1.0;
      gain, gainErr := [], [];
      a, b := 1.0, 0.0;
      inputValues, calibMeans, calibSigmas, calibMeansErr := [], [], [], [];
      datasFitXs, datasFitYs, datasFitOys, datasMeans, datasSigmas := [], [], [], [], [];
    }

    /** The per-file lists as one value. */
    function Files(): FitLists
      reads this
    {
      FitLists(datasFitXs, datasFitYs, datasFitOys, datasMeans, datasSigmas)
    }

    /** `set_gain_caluculation_parameters`: only the parameters that are given change. */
    method SetGainCalculationParameters(dedx: Option<real>, dl: Option<real>, wv: Option<real>,
                                        qev: Option<real>, cgv: Option<real>)
      modifies this`dEdX, this`dL, this`w, this`qe, this`cg
      ensures dEdX == (if dedx.Some? then dedx.value else old(dEdX))
      ensures dL == (if dl.Some? then dl.value else old(dL))
      ensures w == (if wv.Some? then wv.value else old(w))
      ensures qe == (if qev.Some? then qev.value else old(qe))
      ensures cg == (if cgv.Some? then cgv.value else old(cg))
    {
      if dedx.Some? {
        dEdX := dedx.value;
      }
      if dl.Some? {
        dL := dl.value;
      }
      if wv.Some? {
        w := wv.value;
      }
      if qev.Some? {
        qe := qev.value;
      }
      if cgv.Some? {
        cg := cgv.value;
      }
    }

    /**
     * `calculate_Qmeas`: with fitted means and sigmas present, the measured
     * charge is the calibration line applied to every fitted mean, file by
     * file, and its error the sigma scaled by the slope. Rows of unequal
     * length cannot be flattened (ValueError); the charge is assigned
     * before the error is, so a failure on the sigmas leaves the new charge.
     */
    method CalculateQmeas() returns (o: Outcome)
      modifies this`qMeas, this`qMeasErr
      ensures |datasMeans| == 0 || |datasSigmas| == 0 ==> o == Pass && qMeas == old(qMeas) && qMeasErr == old(qMeasErr)
      ensures |datasMeans| > 0 && |datasSigmas| > 0 ==>
        && (!Rectangular(datasMeans) ==> o == Fail(ValueError) && qMeas == old(qMeas) && qMeasErr == old(qMeasErr))
        && (Rectangular(datasMeans) ==> qMeas == LinearAll(Flatten(datasMeans), b, a))
        && (Rectangular(datasMeans) && Rectangular(datasSigmas) ==> o == Pass && qMeasErr == LinearAll(Flatten(datasSigmas), 0.0, a))
        && (Rectangular(datasMeans) && !Rectangular(datasSigmas) ==> o == Fail(ValueError) && qMeasErr == old(qMeasErr))
    {
      o := Pass;
      if |datasMeans| * |datasSigmas| > 0 {
        if !Rectangular(datasMeans) {
          o := Fail(ValueError);
        } else {
          qMeas := LinearAll(Flatten(datasMeans), b, a);
          if !Rectangular(datasSigmas) {
            o := Fail(ValueError);
          } else {
            qMeasErr := LinearAll(Flatten(datasSigmas), 0.0, a);
          }
        }
      }
    }

    /**
     * `calculate_Gain`: with a measured charge present, the gain of every
     * entry is its charge over the conversion gain and the primary charge.
     * `W` is a plain number, so `W == 0` raises ZeroDivisionError before
     * anything is assigned.
     */
    method CalculateGain() returns (o: Outcome)
      modifies this`gain, this`gainErr
      ensures |qMeas| == 0 || |qMeasErr| == 0 ==> o == Pass && gain == old(gain) && gainErr == old(gainErr)
      ensures |qMeas| > 0 && |qMeasErr| > 0 && w == 0.0 ==> o == Fail(ZeroDivisionError) && gain == old(gain) && gainErr == old(gainErr)
      ensures |qMeas| > 0 && |qMeasErr| > 0 && w != 0.0 ==>
        && o == Pass
        && |gain| == |qMeas| && |gainErr| == |qMeasErr|
        && (forall k :: 0 <= k < |gain| ==> gain[k] == Gain(qMeas[k], cg, dEdX, dL, qe, w))
        && (forall k :: 0 <= k < |gainErr| ==> gainErr[k] == Gain(qMeasErr[k], cg, dEdX, dL, qe, w))
    {
      o := Pass;
      if |qMeas| * |qMeasErr| > 0 {
        if w == 0.0 {
          o := Fail(ZeroDivisionError);
        } else {
          var q, qErr, c, e, l, pc, wv := qMeas, qMeasErr, cg, dEdX, dL, qe, w;
          gain := seq(|q|, k requires 0 <= k < |q| => Gain(q[k], c, e, l, pc, wv));
          gainErr := seq(|qErr|, k requires 0 <= k < |qErr| => Gain(qErr[k], c, e, l, pc, wv));
        }
      }
    }

    /**
     * `calculate_calibration_parameters`: when there are as many peaks as
     * input values, the relative errors are rebuilt, the line is fitted and
     * its inverse becomes the calibration (`a = 1/p1`, `b = -p0/p1`); a
     * failure along the way leaves `a` and `b` as they were. Otherwise
     * nothing changes.
     */
    method CalculateCalibrationParameters(fit: LineFit) returns (o: Outcome)
      modifies this`calibMeansErr, this`a, this`b
      ensures |calibSigmas| != |inputValues| ==> o == Pass && calibMeansErr == old(calibMeansErr) && a == old(a) && b == old(b)
      ensures |calibSigmas| == |inputValues| ==>
        var errs := RelativeErrors(calibMeans, calibSigmas);
        && calibMeansErr == errs.0
        && (errs.1.Fail? ==> o == errs.1 && a == old(a) && b == old(b))
        && (errs.1.Pass? ==>
              match fit(inputValues, calibMeans, errs.0)
              case Err(e) => o == Fail(e) && a == old(a) && b == old(b)
              case Ok(p) =>
                if p.1 == 0.0 then o == Fail(ZeroDivisionError) && a == old(a) && b == old(b)
                else o == Pass && a == 1.0 / p.1 && b == -p.0 / p.1)
    {
      o := Pass;
      if |calibSigmas| == |inputValues| {
        calibMeansErr := [];
        var i := 0;
        while i < |calibMeans|
          invariant 0 <= i <= |calibMeans|
          invariant o == Pass && RelativeErrors(calibMeans[..i], calibSigmas) == (calibMeansErr, Pass)
          invariant a == old(a) && b == old(b)
        {
          assert calibMeans[..i + 1][..i] == calibMeans[..i];
          if i >= |calibSigmas| {
            o := Fail(IndexError);
            break;
          }
          if calibMeans[i] == 0.0 {
            o := Fail(ZeroDivisionError);
            break;
          }
          calibMeansErr := calibMeansErr + [calibSigmas[i] / calibMeans[i]];
          i := i + 1;
        }
        if o.Fail? {
          RelativeErrorsStops(calibMeans, calibSigmas, i + 1);
        } else {
          assert calibMeans[..i] == calibMeans;
          var fitted := fit(inputValues, calibMeans, calibMeansErr);
          if fitted.Err? {
            o := Fail(fitted.error);
          } else if fitted.value.1 == 0.0 {
            o := Fail(ZeroDivisionError);
          } else {
            var (p0, p1) := fitted.value;
            b := -p0 / p1;
            a := 1.0 / p1;
          }
        }
      }
    }

    /**
     * `remove_fitted_peak('calib', index_list)`: the listed positions are
     * deleted, largest first, from the calibration sigmas and then from the
     * calibration means; positions outside a list are skipped.
     */
    method RemoveFittedPeakCalib(indexList: seq<int>)
      modifies this`calibSigmas, this`calibMeans
      ensures calibSigmas == DeleteEach(old(calibSigmas), SortDescending(indexList))
      ensures calibMeans == DeleteEach(old(calibMeans), SortDescending(indexList))
    {
      var order := SortDescending(indexList);
      calibSigmas := DeleteSorted(calibSigmas, order);
      calibMeans := DeleteSorted(calibMeans, order);
    }

    /** The five deletion loops of one file, in source order, stopping at the first IndexError. */
    method RemoveFromFile(i: nat, d: seq<int>) returns (o: Outcome)
      modifies this`datasFitXs, this`datasFitYs, this`datasFitOys, this`datasMeans, this`datasSigmas
      ensures (Files(), o) == FileStep(old(Files()), i, d)
    {
      o := Pass;
      var xs := DeleteFromRow(datasFitXs, i, d);
      if xs.Err? {
        o := Fail(xs.error);
        return;
      }
      datasFitXs := xs.value;
      var ys := DeleteFromRow(datasFitYs, i, d);
      if ys.Err? {
        o := Fail(ys.error);
        return;
      }
      datasFitYs := ys.value;
      var oys := DeleteFromRow(datasFitOys, i, d);
      if oys.Err? {
        o := Fail(oys.error);
        return;
      }
      datasFitOys := oys.value;
      var means := DeleteFromRow(datasMeans, i, d);
      if means.Err? {
        o := Fail(means.error);
        return;
      }
      datasMeans := means.value;
      var sigmas := DeleteFromRow(datasSigmas, i, d);
      if sigmas.Err? {
        o := Fail(sigmas.error);
        return;
      }
      datasSigmas := sigmas.value;
    }

    /**
     * `remove_fitted_peak('data', index_lists)`: for every file, the sorted
     * positions of its own index list are deleted from its row of each of
     * the five per-file lists. A missing index list raises IndexError, and
     * so does a missing row once a non-negative index is checked against
     * it; either leaves the deletions done so far.
     */
    method RemoveFittedPeakData(indexLists: seq<seq<int>>) returns (o: Outcome)
      modifies this`datasFitXs, this`datasFitYs, this`datasFitOys, this`datasMeans, this`datasSigmas
      ensures (Files(), o) == RemoveFromFiles(old(Files()), indexLists, |old(datasMeans)|)
    {
      o := Pass;
      ghost var start := Files();
      var n := |datasMeans|;
      var i := 0;
      while i < n && o.Pass?
        invariant 0 <= i <= n
        invariant o.Pass? ==> (Files(), Pass) == RemoveFromFiles(start, indexLists, i)
        invariant o.Fail? ==> i < n && (Files(), o) == RemoveFromFiles(start, indexLists, i + 1)
        decreases n - i, if o.Pass? then 1 else 0
      {
        ghost var before := Files();
        if i >= |indexLists| {
          o := Fail(IndexError);
          assert RemoveFromFiles(start, indexLists, i + 1) == (before, o);
        } else {
          var d := SortDescending(indexLists[i]);
          assert RemoveFromFiles(start, indexLists, i + 1) == FileStep(before, i, d);
          o := RemoveFromFile(i, d);
          if o.Pass? {
            i := i + 1;
          }
        }
      }
      if o.Fail? {
        RemoveFromFilesStops(start, indexLists, i + 1, n);
      }
    }
  }

  /** The deletion loop of one row of a per-file list. */
  method DeleteFromRow<T>(rows: seq<seq<T>>, i: nat, d: seq<int>) returns (r: Result<seq<seq<T>>>)
    ensures r == RowDelete(rows, i, d)
  {
    if i >= |rows| {
      for k := 0 to |d|
        invariant forall j :: 0 <= j < k ==> d[j] < 0
      {
        if d[k] >= 0 {
          return Err(IndexError);
        }
      }
      r := Ok(rows);
    } else {
      var row := DeleteSorted(rows[i], d);
      r := Ok(rows[i := row]);
    }
  }

  /** Once a prefix of the means fails, the whole loop fails the same way. */
  lemma {:induction false} RelativeErrorsStops(means: seq<real>, sigmas: seq<real>, m: nat)
    requires m <= |means| && RelativeErrors(means[..m], sigmas).1.Fail?
    ensures RelativeErrors(means, sigmas) == RelativeErrors(means[..m], sigmas)
    decreases |means|
  {
    if m < |means| {
      var n := |means| - 1;
      assert means[..n][..m] == means[..m];
      RelativeErrorsStops(means[..n], sigmas, m);
    } else {
      assert means[..m] == means;
    }
  }

  /** Once a file fails, the later files are not processed. */
  lemma {:induction false} RemoveFromFilesStops(l: FitLists, indexLists: seq<seq<int>>, m: nat, n: nat)
    requires m <= n && RemoveFromFiles(l, indexLists, m).1.Fail?
    ensures RemoveFromFiles(l, indexLists, n) == RemoveFromFiles(l, indexLists, m)
    decreases n
  {
    if m < n {
      RemoveFromFilesStops(l, indexLists, m, n - 1);
      var prev := RemoveFromFiles(l, indexLists, n - 1);
      assert prev.1.Fail?;
      assert RemoveFromFiles(l, indexLists, n) == prev;
    }
  }
}

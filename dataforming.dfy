/**
 * The data-shaping utilities: floats and integers read from text, the
 * scan of an MCA `.spe` spectrum, the expansion of a histogram into its
 * data points, peak finding, and the rebinning and normalisation used to
 * draw a spectrum in a terminal.
 *
 * Python's `float(s)` and `int(s)` on a piece of text are supplied by the
 * caller as `parse` and `toInt`.
 */
module DataForming {
  import opened Wrappers
  import opened Numerics
  import opened Text

  // ------------------------------------------------------- text to numbers

  /**
   * `str_to_array`: the floats of the whitespace-separated words of `s`,
   * or the empty array as soon as one word is not a float.
   */
  function StrToArray(s: string, parse: string -> Option<real>): (r: seq<real>)
    ensures var ws := Words(s);
      (forall k :: 0 <= k < |ws| ==> parse(ws[k]).Some?) ==>
        |r| == |ws| && forall k :: 0 <= k < |ws| ==> r[k] == parse(ws[k]).value
    ensures var ws := Words(s);
      (exists k :: 0 <= k < |ws| && parse(ws[k]).None?) ==> r == []
  {
    match ParseAll(Words(s), parse)
    case Some(xs) => xs
    case None => []
  }

  /** A line `load_numbers` keeps: its stripped text is a non-empty run of digits. */
  predicate NumberLine(line: string)
  {
    IsDigits(Strip(line))
  }

  /** `int(line.strip())` of a kept line. */
  function NumberValue(line: string): nat
    requires NumberLine(line)
  {
    DecimalValue(Strip(line))
  }

  /** The positions of the lines `load_numbers` keeps, in file order. */
  function NumberLineIndices(lines: seq<string>): (idx: seq<nat>)
    ensures forall k :: 0 <= k < |idx| ==> idx[k] < |lines| && NumberLine(lines[idx[k]])
    ensures forall k, l :: 0 <= k < l < |idx| ==> idx[k] < idx[l]
    ensures forall i :: 0 <= i < |lines| && NumberLine(lines[i]) ==> i in idx
    decreases |lines|
  {
    if lines == [] then []
    else
      var init := lines[..|lines| - 1];
      var rest := NumberLineIndices(init);
      assert forall i :: 0 <= i < |init| ==> init[i] == lines[i];
      if NumberLine(lines[|lines| - 1]) then rest + [|lines| - 1] else rest
  }

  /**
   * `load_numbers` over the lines of a file: `int(line.strip())` of every
   * line whose stripped text is all digits, in file order.
   */
  function LoadNumbers(lines: seq<string>): (ns: seq<nat>)
    ensures var idx := NumberLineIndices(lines);
      |ns| == |idx| && forall k :: 0 <= k < |idx| ==> ns[k] == NumberValue(lines[idx[k]])
    decreases |lines|
  {
    if lines == [] then []
    else
      var init, last := lines[..|lines| - 1], lines[|lines| - 1];
      var before := NumberLineIndices(init);
      assert NumberLineIndices(lines) == before + if NumberLine(last) then [|lines| - 1] else [];
      assert forall k :: 0 <= k < |before| ==> lines[before[k]] == init[before[k]];
      LoadNumbers(init) + if NumberLine(last) then [NumberValue(last)] else []
  }

  // ------------------------------------------------------------ .spe scan

  /** The first line at or after `i` whose stripped text is `$DATA:`. */
  function DataMarker(lines: seq<string>, i: nat): (r: Option<nat>)
    ensures r.Some? ==> i <= r.value < |lines| && Strip(lines[r.value]) == "$DATA:"
    ensures forall j :: i <= j < |lines| && (r.None? || j < r.value) ==> Strip(lines[j]) != "$DATA:"
    decreases |lines| - i
  {
    if i >= |lines| then None
    else if Strip(lines[i]) == "$DATA:" then Some(i)
    else DataMarker(lines, i + 1)
  }

  /**
   * The channel values read from line `i` up to (not including) line
   * `stop`: each line's stripped text as an integer, until a line reads
   * `$ENER_FIT:`. Reading past the last line is an IndexError and a line
   * that is not an integer a ValueError.
   */
  function SpeValues(lines: seq<string>, i: nat, stop: int, toInt: string -> Option<int>): (r: Result<seq<int>>)
    ensures r.Ok? ==> |r.value| <= Max(stop - i, 0) && (r.value != [] ==> i + |r.value| <= |lines|)
    decreases stop - i
  {
    if i >= stop then Ok([])
    else if i >= |lines| then Err(IndexError)
    else if Strip(lines[i]) == "$ENER_FIT:" then Ok([])
    else
      match toInt(Strip(lines[i]))
      case None => Err(ValueError)
      case Some(v) =>
        match SpeValues(lines, i + 1, stop, toInt)
        case Err(e) => Err(e)
        case Ok(rest) => Ok([v] + rest)
  }

  /** Every value read is the integer of its line, and none of those lines is `$ENER_FIT:`. */
  lemma {:induction false} SpeValuesAreLines(lines: seq<string>, i: nat, stop: int, toInt: string -> Option<int>)
    requires SpeValues(lines, i, stop, toInt).Ok?
    ensures var vs := SpeValues(lines, i, stop, toInt).value;
      forall j :: i <= j < i + |vs| ==> Strip(lines[j]) != "$ENER_FIT:" && toInt(Strip(lines[j])) == Some(vs[j - i])
    decreases stop - i
  {
    var vs := SpeValues(lines, i, stop, toInt).value;
    if vs != [] {
      SpeValuesAreLines(lines, i + 1, stop, toInt);
      var rest := SpeValues(lines, i + 1, stop, toInt).value;
      assert vs == [vs[0]] + rest;
      forall j | i + 1 <= j < i + |vs|
        ensures Strip(lines[j]) != "$ENER_FIT:" && toInt(Strip(lines[j])) == Some(vs[j - i])
      {
        assert vs[j - i] == rest[j - (i + 1)];
      }
    }
  }

  /**
   * The read stops before `stop` only at a `$ENER_FIT:` line: a run that
   * reads fewer than `stop - i` values ends on that line.
   */
  lemma {:induction false} SpeValuesStopsAtMarker(lines: seq<string>, i: nat, stop: int, toInt: string -> Option<int>)
    requires SpeValues(lines, i, stop, toInt).Ok?
    ensures var vs := SpeValues(lines, i, stop, toInt).value;
      i + |vs| < stop ==> i + |vs| < |lines| && Strip(lines[i + |vs|]) == "$ENER_FIT:"
    decreases stop - i
  {
    var vs := SpeValues(lines, i, stop, toInt).value;
    if vs != [] {
      SpeValuesStopsAtMarker(lines, i + 1, stop, toInt);
    }
  }

  /** `0, 1, ..., n - 1`. */
  function Range(n: nat): (xs: seq<int>)
    ensures |xs| == n && forall k :: 0 <= k < n ==> xs[k] == k
  {
    seq(n, k requires 0 <= k < n => k)
  }

  /**
   * What `read_spe_file` returns for the lines of a file: nothing when
   * there is no `$DATA:` line; otherwise the channel count is the second
   * word of the next line, and at most that many values follow it.
   */
  function SpeData(lines: seq<string>, toInt: string -> Option<int>): (r: Result<(seq<int>, seq<int>)>)
    ensures DataMarker(lines, 0).None? ==> r == Ok(([], []))
    ensures r.Ok? ==> |r.value.0| == |r.value.1| && forall k :: 0 <= k < |r.value.0| ==> r.value.0[k] == k
  {
    match DataMarker(lines, 0)
    case None => Ok(([], []))
    case Some(i) =>
      if i + 1 >= |lines| then Err(IndexError)
      else
        var ws := Words(lines[i + 1]);
        if |ws| < 2 then Err(IndexError)
        else
          match toInt(ws[1])
          case None => Err(ValueError)
          case Some(count) =>
            match SpeValues(lines, i + 2, i + 2 + count, toInt)
            case Err(e) => Err(e)
            case Ok(y) => Ok((Range(|y|), y))
  }

  /** `SpeValues` read as a prefix `ys` already read and the rest from `i`. */
  function Prepend(ys: seq<int>, r: Result<seq<int>>): Result<seq<int>>
  {
    match r
    case Err(e) => Err(e)
    case Ok(rest) => Ok(ys + rest)
  }

  lemma PrependStep(ys: seq<int>, v: int, r: Result<seq<int>>)
    ensures Prepend(ys, Prepend([v], r)) == Prepend(ys + [v], r)
  {
    if r.Ok? {
      assert ys + ([v] + r.value) == (ys + [v]) + r.value;
    }
  }

  /** The first loop of `read_spe_file`: the search for the `$DATA:` line. */
  method FindDataLine(lines: seq<string>) returns (found: bool, i: nat)
    ensures found <==> DataMarker(lines, 0).Some?
    ensures found ==> DataMarker(lines, 0) == Some(i)
  {
    found, i := false, 0;
    while i < |lines|
      invariant 0 <= i <= |lines|
      invariant DataMarker(lines, 0) == DataMarker(lines, i)
    {
      if Strip(lines[i]) == "$DATA:" {
        return true, i;
      }
      i := i + 1;
    }
  }

  /**
   * The second loop of `read_spe_file`: lines `start` to
   * `start + count - 1` until `$ENER_FIT:`, each value appended to y and
   * its position to x.
   */
  method ReadChannels(lines: seq<string>, start: nat, count: int, toInt: string -> Option<int>)
    returns (r: Result<(seq<int>, seq<int>)>)
    ensures match SpeValues(lines, start, start + count, toInt)
            case Err(e) => r == Err(e)
            case Ok(y) => r == Ok((Range(|y|), y))
  {
    var x: seq<int>, y: seq<int> := [], [];
    var j := start;
    assert Prepend([], SpeValues(lines, j, start + count, toInt)) == SpeValues(lines, j, start + count, toInt) by {
      if SpeValues(lines, j, start + count, toInt).Ok? {
        assert [] + SpeValues(lines, j, start + count, toInt).value == SpeValues(lines, j, start + count, toInt).value;
      }
    }
    while j < start + count
      invariant start <= j && (j <= start + count || count <= 0)
      invariant |x| == |y| && forall k :: 0 <= k < |x| ==> x[k] == k
      invariant SpeValues(lines, start, start + count, toInt) == Prepend(y, SpeValues(lines, j, start + count, toInt))
      decreases start + count - j
    {
      if j >= |lines| {
        assert SpeValues(lines, j, start + count, toInt) == Err(IndexError);
        return Err(IndexError);
      }
      if Strip(lines[j]) == "$ENER_FIT:" {
        break;
      }
      var v := toInt(Strip(lines[j]));
      if v.None? {
        assert SpeValues(lines, j, start + count, toInt) == Err(ValueError);
        return Err(ValueError);
      }
      assert SpeValues(lines, j, start + count, toInt)
          == Prepend([v.value], SpeValues(lines, j + 1, start + count, toInt));
      PrependStep(y, v.value, SpeValues(lines, j + 1, start + count, toInt));
      y := y + [v.value];
      x := x + [|x|];
      j := j + 1;
    }
    assert SpeValues(lines, j, start + count, toInt) == Ok([]);
    assert y + [] == y;
    assert x == Range(|y|);
    r := Ok((x, y));
  }

  /** The scan of `read_spe_file` over the lines of a file. */
  method ReadSpeLines(lines: seq<string>, toInt: string -> Option<int>) returns (r: Result<(seq<int>, seq<int>)>)
    ensures r == SpeData(lines, toInt)
  {
    var dataSection, i := FindDataLine(lines);
    if !dataSection {
      return Ok(([], []));
    }
    if i + 1 >= |lines| {
      return Err(IndexError);
    }
    var ws := Words(lines[i + 1]);
    if |ws| < 2 {
      return Err(IndexError);
    }
    var channelCount := toInt(ws[1]);
    if channelCount.None? {
      return Err(ValueError);
    }
    r := ReadChannels(lines, i + 2, channelCount.value, toInt);
  }

  // --------------------------------------------------------- histograms

  /** `[v] * n`: `n` copies of `v`, none when `n <= 0`. */
  function Repeat<T>(v: T, n: int): (r: seq<T>)
    ensures |r| == Max(n, 0) && forall k :: 0 <= k < |r| ==> r[k] == v
  {
    seq(Max(n, 0), _ => v)
  }

  /**
   * The frequency distribution of `create_histogram_data_from_points`:
   * `y[i]` copies of `x[i]` for each pair of `zip(x, y)`, in order.
   */
  function Histogram<T>(x: seq<T>, y: seq<int>): seq<T>
    decreases |x|
  {
    var n := if |x| < |y| then |x| else |y|;
    if n == 0 then []
    else Histogram(x[..n - 1], y[..n - 1]) + Repeat(x[n - 1], y[n - 1])
  }

  /** `create_histogram_data_from_points`: extends the distribution pair by pair. */
  method CreateHistogramDataFromPoints<T>(x: seq<T>, y: seq<int>) returns (fd: seq<T>)
    ensures fd == Histogram(x, y)
  {
    var n := if |x| < |y| then |x| else |y|;
    fd := [];
    for i := 0 to n
      invariant fd == Histogram(x[..i], y[..i])
    {
      assert x[..i + 1][..i] == x[..i] && y[..i + 1][..i] == y[..i];
      fd := fd + Repeat(x[i], y[i]);
    }
    assert x[..n] == x[..n][..n] && y[..n] == y[..n][..n];
    HistogramTruncates(x, y);
  }

  /** `zip` stops at the shorter list: the longer list's tail adds nothing. */
  lemma {:induction false} HistogramTruncates<T>(x: seq<T>, y: seq<int>)
    ensures var n := if |x| < |y| then |x| else |y|;
      Histogram(x, y) == Histogram(x[..n], y[..n])
  {
    var n := if |x| < |y| then |x| else |y|;
    if n > 0 {
      assert x[..n][..n - 1] == x[..n - 1] && y[..n][..n - 1] == y[..n - 1];
    }
  }

  /** The total weight of value `v` in the histogram: the sum of the positive frequencies paired with it. */
  function Frequency<T(==)>(x: seq<T>, y: seq<int>, v: T): (f: nat)
    decreases |x|
  {
    var n := if |x| < |y| then |x| else |y|;
    if n == 0 then 0
    else Frequency(x[..n - 1], y[..n - 1], v) + if x[n - 1] == v then Max(y[n - 1], 0) else 0
  }

  /** The total of the positive frequencies. */
  function TotalFrequency(y: seq<int>): nat
  {
    if y == [] then 0 else TotalFrequency(y[..|y| - 1]) + Max(y[|y| - 1], 0)
  }

  /**
   * Each value occurs in the distribution exactly as often as its positive
   * frequencies add up to; a pair with frequency `<= 0` contributes nothing.
   */
  lemma {:induction false} HistogramCounts<T>(x: seq<T>, y: seq<int>, v: T)
    ensures multiset(Histogram(x, y))[v] == Frequency(x, y, v)
    decreases |x|
  {
    var n := if |x| < |y| then |x| else |y|;
    if n > 0 {
      HistogramCounts(x[..n - 1], y[..n - 1], v);
      var rep := Repeat(x[n - 1], y[n - 1]);
      assert multiset(Histogram(x, y)) == multiset(Histogram(x[..n - 1], y[..n - 1])) + multiset(rep);
      RepeatCount(x[n - 1], y[n - 1], v);
    }
  }

  lemma {:induction false} RepeatCount<T>(a: T, n: int, v: T)
    ensures multiset(Repeat(a, n))[v] == if a == v then Max(n, 0) else 0
    decreases Max(n, 0)
  {
    if n > 0 {
      RepeatCount(a, n - 1, v);
      assert Repeat(a, n) == Repeat(a, n - 1) + [a];
    }
  }

  /** The distribution holds as many points as the positive frequencies of the paired prefix add up to. */
  lemma {:induction false} HistogramLength<T>(x: seq<T>, y: seq<int>)
    requires |x| >= |y|
    ensures |Histogram(x, y)| == TotalFrequency(y)
    decreases |y|
  {
    if y != [] {
      HistogramLength(x[..|y| - 1], y[..|y| - 1]);
    }
  }

  // --------------------------------------------------------------- peaks

  /** Position `i` is a strict local maximum of `data`, away from both ends. */
  predicate IsPeak(data: seq<real>, i: int)
  {
    1 <= i < |data| - 1 && data[i] > data[i - 1] && data[i] > data[i + 1]
  }

  /**
   * `find_peaks`: the number of strict local maxima and their positions in
   * increasing order; nothing for fewer than three values.
   */
  method FindPeaks(data: seq<real>) returns (peaks: nat, indices: seq<nat>)
    ensures |data| < 3 ==> peaks == 0 && indices == []
    ensures peaks == |indices|
    ensures forall k :: 0 <= k < |indices| ==> IsPeak(data, indices[k])
    ensures forall k, l :: 0 <= k < l < |indices| ==> indices[k] < indices[l]
    ensures forall i :: IsPeak(data, i) ==> i in indices
  {
    if |data| < 3 {
      return 0, [];
    }
    peaks, indices := 0, [];
    for i := 1 to |data| - 1
      invariant peaks == |indices|
      invariant forall k :: 0 <= k < |indices| ==> IsPeak(data, indices[k]) && indices[k] < i
      invariant forall k, l :: 0 <= k < l < |indices| ==> indices[k] < indices[l]
      invariant forall j :: 1 <= j < i && IsPeak(data, j) ==> j in indices
    {
      if data[i] > data[i - 1] && data[i] > data[i + 1] {
        peaks := peaks + 1;
        indices := indices + [i];
      }
    }
  }

  // ------------------------------------------------ terminal spectrum view

  /** Python `sum(chunk) / len(chunk)`. */
  function Mean(xs: seq<real>): real
    requires xs != []
  {
    SumReals(xs) / (|xs| as real)
  }

  /** `i * (n / bins)`: where bin `i` of `spe_rebin` starts, before truncation. */
  function RebinPoint(n: nat, bins: nat, i: nat): real
    requires bins > 0
  {
    (i as real) * ((n as real) / (bins as real))
  }

  /** `int(i * (n / bins))`: the first position of bin `i`. */
  function ChunkStart(n: nat, bins: nat, i: nat): int
    requires bins > 0
  {
    Trunc(RebinPoint(n, bins, i))
  }

  /** Where bin `i` of `spe_rebin` ends: the next bin's start, but at least one past its own. */
  function ChunkEnd(n: nat, bins: nat, i: nat): int
    requires bins > 0
  {
    var end := ChunkStart(n, bins, i + 1);
    if end <= ChunkStart(n, bins, i) then ChunkStart(n, bins, i) + 1 else end
  }

  lemma MulBelow(a: real, b: real, s: real)
    requires 0.0 <= a <= b && 0.0 <= s
    ensures 0.0 <= a * s <= b * s
  {
  }

  lemma RebinPointFacts(n: nat, bins: nat, i: nat)
    requires 0 < bins && i <= bins
    ensures 0.0 <= RebinPoint(n, bins, i) <= n as real
    ensures RebinPoint(n, bins, i + 1) == RebinPoint(n, bins, i) + (n as real) / (bins as real)
    ensures RebinPoint(n, bins, bins) == n as real
  {
    var s := (n as real) / (bins as real);
    DivTimes(n as real, bins as real);
    assert RebinPoint(n, bins, i) == (i as real) * s;
    assert RebinPoint(n, bins, bins) == (bins as real) * s;
    MulBelow(i as real, bins as real, s);
    assert RebinPoint(n, bins, i + 1) == ((i + 1) as real) * s;
    SuccTimes(i as real, s);
  }

  lemma SuccTimes(x: real, s: real)
    ensures (x + 1.0) * s == x * s + s
  {
  }

  /** A value between 0 and a positive maximum divides down into the unit interval. */
  lemma RatioInUnit(v: real, maxVal: real)
    requires maxVal != 0.0 && 0.0 <= v <= maxVal
    ensures 0.0 <= v / maxVal <= 1.0
  {
    assert maxVal > 0.0;
    DivTimes(v, maxVal);
  }

  lemma BinSizeAboveOne(n: nat, bins: nat)
    requires 0 < bins < n
    ensures (n as real) / (bins as real) > 1.0
  {
    var s := (n as real) / (bins as real);
    assert s * (bins as real) == n as real;
    if s <= 1.0 {
      MulBelow(s, 1.0, bins as real);
    }
  }

  /**
   * For `0 < bins < n` the bins of `spe_rebin` cut the data into
   * consecutive non-empty chunks: the first starts at 0, each ends where
   * the next starts, and the last ends at `n`.
   */
  lemma ChunksPartition(n: nat, bins: nat, i: nat)
    requires 0 < bins < n && i < bins
    ensures ChunkStart(n, bins, 0) == 0
    ensures 0 <= ChunkStart(n, bins, i) < ChunkEnd(n, bins, i) <= n
    ensures ChunkEnd(n, bins, i) == ChunkStart(n, bins, i + 1)
    ensures i == bins - 1 ==> ChunkEnd(n, bins, i) == n
  {
    BinSizeAboveOne(n, bins);
    RebinPointFacts(n, bins, i);
    RebinPointFacts(n, bins, i + 1);
    RebinPointFacts(n, bins, bins);
    assert RebinPoint(n, bins, 0) == 0.0;
  }

  /** Bin `i` of `spe_rebin` for `0 < bins < |data|`: the mean of its chunk. */
  function RebinValue(data: seq<real>, bins: nat, i: nat): real
    requires 0 < bins < |data| && i < bins
  {
    ChunksPartition(|data|, bins, i);
    Mean(data[ChunkStart(|data|, bins, i)..ChunkEnd(|data|, bins, i)])
  }

  /**
   * `spe_rebin`: `bins` entries, the data padded with zeros when there
   * are at least as many bins as values, else the mean of each chunk.
   * A zero bin count with some data divides by zero; a negative count
   * gives nothing.
   */
  method SpeRebin(data: seq<real>, bins: int) returns (r: Result<seq<real>>)
    ensures r.Err? <==> bins == 0 && data != []
    ensures r.Err? ==> r.error == ZeroDivisionError
    ensures r.Ok? ==> |r.value| == Max(bins, 0)
    ensures bins >= |data| ==> r == Ok(data + seq(bins - |data|, _ => 0.0))
    ensures r.Ok? && 0 < bins < |data| ==> forall i :: 0 <= i < bins ==> r.value[i] == RebinValue(data, bins, i)
  {
    var n := |data|;
    if bins >= n {
      return Ok(data + seq(bins - n, _ => 0.0));
    }
    if bins == 0 {
      return Err(ZeroDivisionError);
    }
    if bins < 0 {
      return Ok([]);
    }
    var rebinned: seq<real> := [];
    for i := 0 to bins
      invariant |rebinned| == i
      invariant forall k :: 0 <= k < i ==> rebinned[k] == RebinValue(data, bins, k)
    {
      ChunksPartition(n, bins, i);
      var start := ChunkStart(n, bins, i);
      var end := ChunkEnd(n, bins, i);
      var chunk := data[start..end];
      rebinned := rebinned + [SumReals(chunk) / (|chunk| as real)];
    }
    r := Ok(rebinned);
  }

  /** `round((v / maxVal) * height)`: one value of `spe_normalize`. */
  function NormalizedValue(v: real, maxVal: real, height: int): (r: int)
    requires maxVal != 0.0
    ensures v == maxVal ==> r == height
    ensures 0.0 <= v <= maxVal && height >= 0 ==> 0 <= r <= height
  {
    var x := v / maxVal * (height as real);
    assert v == maxVal ==> x == height as real;
    assert 0.0 <= v <= maxVal && height >= 0 ==> 0.0 <= x <= height as real by {
      if 0.0 <= v <= maxVal && height >= 0 {
        RatioInUnit(v, maxVal);
        MulBelow(v / maxVal, 1.0, height as real);
        assert 1.0 * (height as real) == height as real;
      }
    }
    RoundHalfEven(x)
  }

  /**
   * `spe_normalize`: every value scaled so the maximum becomes `height`
   * and rounded; all zeros when the maximum is 0. The maximum of nothing
   * is a ValueError.
   */
  function SpeNormalize(data: seq<real>, height: int): (r: Result<seq<int>>)
    ensures r.Err? <==> data == []
    ensures r.Ok? ==> |r.value| == |data|
    ensures r.Ok? && SeqMax(data) == 0.0 ==> forall k :: 0 <= k < |data| ==> r.value[k] == 0
    ensures r.Ok? && SeqMax(data) != 0.0 ==> forall k :: 0 <= k < |data| && data[k] == SeqMax(data) ==> r.value[k] == height
    ensures r.Ok? && height >= 0 && (forall k :: 0 <= k < |data| ==> data[k] >= 0.0) ==>
      forall k :: 0 <= k < |data| ==> 0 <= r.value[k] <= height
  {
    if data == [] then Err(ValueError)
    else
      var maxVal := SeqMax(data);
      if maxVal == 0.0 then Ok(seq(|data|, _ => 0))
      else Ok(seq(|data|, k requires 0 <= k < |data| => NormalizedValue(data[k], maxVal, height)))
  }
}

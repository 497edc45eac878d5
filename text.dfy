/**
 * The string operations the code relies on: `str.strip()`, `str.split()`
 * with no separator, `str.isdigit()`, `int(s)` on a digit string and the
 * `in` substring test.
 */
module Text {
  import opened Wrappers

  /** Python's `str.isspace()` for one character. */
  predicate IsSpace(c: char)
  {
    ('\t' <= c <= '\r') || ('\U{1c}' <= c <= ' ') || c == '\U{85}' || c == '\U{a0}'
    || c == '\U{1680}' || ('\U{2000}' <= c <= '\U{200a}') || c == '\U{2028}' || c == '\U{2029}'
    || c == '\U{202f}' || c == '\U{205f}' || c == '\U{3000}'
  }

  /** `s.lstrip()`. */
  function StripLeft(s: string): string
  {
    if s != [] && IsSpace(s[0]) then StripLeft(s[1..]) else s
  }

  /** `s.rstrip()`. */
  function StripRight(s: string): string
  {
    if s != [] && IsSpace(s[|s| - 1]) then StripRight(s[..|s| - 1]) else s
  }

  /** `s.strip()`: leading and trailing whitespace removed. */
  function Strip(s: string): string
  {
    StripRight(StripLeft(s))
  }

  /** `lstrip` drops exactly the leading whitespace: what it keeps is a suffix that starts with a non-space. */
  lemma {:induction false} StripLeftKeepsSuffix(s: string)
    ensures var r := StripLeft(s);
      |r| <= |s| && r == s[|s| - |r|..] && (r != [] ==> !IsSpace(r[0]))
      && forall k :: 0 <= k < |s| - |r| ==> IsSpace(s[k])
    decreases |s|
  {
    if s != [] && IsSpace(s[0]) {
      StripLeftKeepsSuffix(s[1..]);
    }
  }

  /** `rstrip` drops exactly the trailing whitespace: what it keeps is a prefix that ends with a non-space. */
  lemma {:induction false} StripRightKeepsPrefix(s: string)
    ensures var r := StripRight(s);
      |r| <= |s| && r == s[..|r|] && (r != [] ==> !IsSpace(r[|r| - 1]))
      && forall k :: |r| <= k < |s| ==> IsSpace(s[k])
    decreases |s|
  {
    if s != [] && IsSpace(s[|s| - 1]) {
      StripRightKeepsPrefix(s[..|s| - 1]);
    }
  }

  /**
   * `strip` keeps a slice `s[a..a + |r|]` that neither starts nor ends with
   * whitespace, and everything outside the slice is whitespace.
   */
  lemma StripKeepsSlice(s: string)
    ensures var r, a := Strip(s), |s| - |StripLeft(s)|;
      0 <= a && a + |r| <= |s| && r == s[a..a + |r|]
      && (r != [] ==> !IsSpace(r[0]) && !IsSpace(r[|r| - 1]))
      && (forall k :: 0 <= k < a ==> IsSpace(s[k]))
      && (forall k :: a + |r| <= k < |s| ==> IsSpace(s[k]))
  {
    var l := StripLeft(s);
    StripLeftKeepsSuffix(s);
    StripRightKeepsPrefix(l);
    var r, a := Strip(s), |s| - |l|;
    assert r == l[..|r|];
    assert r == s[a..a + |r|];
    forall k | a + |r| <= k < |s|
      ensures IsSpace(s[k])
    {
      assert s[k] == l[k - a];
    }
  }

  /** Length of the run of non-whitespace characters that starts `s`. */
  function TokenLength(s: string): (n: nat)
    ensures n <= |s|
    ensures forall k :: 0 <= k < n ==> !IsSpace(s[k])
    ensures n < |s| ==> IsSpace(s[n])
  {
    if s == [] || IsSpace(s[0]) then 0 else 1 + TokenLength(s[1..])
  }

  /** `s.split()`: the maximal runs of non-whitespace characters, in order. */
  function Words(s: string): (ws: seq<string>)
    ensures forall k :: 0 <= k < |ws| ==> ws[k] != []
    ensures forall k, j :: 0 <= k < |ws| && 0 <= j < |ws[k]| ==> !IsSpace(ws[k][j])
    decreases |s|
  {
    StripLeftKeepsSuffix(s);
    var t := StripLeft(s);
    if t == [] then []
    else
      var n := TokenLength(t);
      [t[..n]] + Words(t[n..])
  }

  /** The end of the run of non-whitespace characters of `s` that starts at `i`. */
  function RunEnd(s: string, i: nat): (e: nat)
    requires i <= |s|
    ensures i <= e <= |s|
    ensures forall j :: i <= j < e ==> !IsSpace(s[j])
    ensures e < |s| ==> IsSpace(s[e])
    decreases |s| - i
  {
    if i == |s| || IsSpace(s[i]) then i else RunEnd(s, i + 1)
  }

  /**
   * `s[a..b]` is a non-empty run of non-whitespace characters that ends at
   * whitespace or at the end of `s`.
   */
  predicate IsRun(s: string, a: nat, b: nat)
  {
    a < b <= |s| && (forall j :: a <= j < b ==> !IsSpace(s[j])) && (b == |s| || IsSpace(s[b]))
  }

  /**
   * Where the words of `s[i..]` lie in `s`, as `(start, end)` pairs, found
   * one character at a time: each span is a run of non-whitespace bounded
   * by whitespace, by `i` or by the end of `s`, and the spans come in
   * increasing order with whitespace between them.
   */
  function WordSpans(s: string, i: nat): (sp: seq<(nat, nat)>)
    requires i <= |s|
    ensures forall k :: 0 <= k < |sp| ==> i <= sp[k].0 && IsRun(s, sp[k].0, sp[k].1)
    ensures forall k :: 0 <= k < |sp| - 1 ==> sp[k].1 < sp[k + 1].0
    decreases |s| - i
  {
    if i == |s| then []
    else if IsSpace(s[i]) then WordSpans(s, i + 1)
    else
      var e := RunEnd(s, i);
      assert IsRun(s, i, e);
      var rest := WordSpans(s, e);
      assert rest != [] ==> e < rest[0].0 by {
        if rest != [] {
          assert IsRun(s, rest[0].0, rest[0].1);
        }
      }
      [(i, e)] + rest
  }

  /** Each span starts at `i` or just after a whitespace character. */
  lemma {:induction false} SpanStartsAfterSpace(s: string, i: nat, k: nat)
    requires i <= |s| && k < |WordSpans(s, i)|
    ensures var a := WordSpans(s, i)[k].0;
      a == i || (0 < a && IsSpace(s[a - 1]))
    decreases |s| - i
  {
    if IsSpace(s[i]) {
      assert WordSpans(s, i) == WordSpans(s, i + 1);
      SpanStartsAfterSpace(s, i + 1, k);
    } else if k > 0 {
      var e := RunEnd(s, i);
      assert WordSpans(s, i)[k] == WordSpans(s, e)[k - 1];
      SpanStartsAfterSpace(s, e, k - 1);
    }
  }

  /** Every non-whitespace character of `s` from `i` on lies in one of the spans: span `k`. */
  lemma {:induction false} SpansCover(s: string, i: nat, j: nat) returns (k: nat)
    requires i <= j < |s| && !IsSpace(s[j])
    ensures k < |WordSpans(s, i)| && WordSpans(s, i)[k].0 <= j < WordSpans(s, i)[k].1
    decreases |s| - i
  {
    if IsSpace(s[i]) {
      k := SpansCover(s, i + 1, j);
    } else {
      var e := RunEnd(s, i);
      if j >= e {
        var r := SpansCover(s, e, j);
        k := r + 1;
      } else {
        k := 0;
      }
    }
  }

  /** The token `split()` takes at a non-space position ends where the run does. */
  lemma TokenIsRun(s: string, i: nat)
    requires i <= |s|
    ensures i + TokenLength(s[i..]) == RunEnd(s, i)
  {
  }

  /** A leading whitespace character does not change `split()`. */
  lemma WordsSkipSpace(s: string, i: nat)
    requires i < |s| && IsSpace(s[i])
    ensures Words(s[i..]) == Words(s[i + 1..])
  {
    assert s[i..][1..] == s[i + 1..];
    assert StripLeft(s[i..]) == StripLeft(s[i + 1..]);
  }

  /** A string that starts with a non-space splits into its first token and the words after it. */
  lemma WordsOfToken(t: string)
    requires t != [] && !IsSpace(t[0])
    ensures Words(t) == [t[..TokenLength(t)]] + Words(t[TokenLength(t)..])
  {
    assert StripLeft(t) == t;
  }

  /** At a non-space character `split()` takes the run that starts there, then splits the rest. */
  lemma WordsTakeRun(s: string, i: nat)
    requires i < |s| && !IsSpace(s[i])
    ensures Words(s[i..]) == [s[i..RunEnd(s, i)]] + Words(s[RunEnd(s, i)..])
  {
    var t, e := s[i..], RunEnd(s, i);
    assert t[0] == s[i];
    WordsOfToken(t);
    TokenIsRun(s, i);
    SliceOfSuffix(s, i, e - i);
  }

  lemma SliceOfSuffix(s: string, i: nat, n: nat)
    requires i + n <= |s|
    ensures s[i..][..n] == s[i..i + n] && s[i..][n..] == s[i + n..]
  {
  }

  /** `split()` of a suffix `s[i..]` returns exactly the slices of `s` its spans mark. */
  lemma {:induction false} WordsAreSpans(s: string, i: nat)
    requires i <= |s|
    ensures var ws, sp := Words(s[i..]), WordSpans(s, i);
      |ws| == |sp| && forall k :: 0 <= k < |ws| ==> ws[k] == s[sp[k].0..sp[k].1]
    decreases |s| - i
  {
    if i == |s| {
      assert s[i..] == [];
    } else if IsSpace(s[i]) {
      WordsSkipSpace(s, i);
      WordsAreSpans(s, i + 1);
    } else {
      var e := RunEnd(s, i);
      WordsTakeRun(s, i);
      WordsAreSpans(s, e);
      var ws, rest := Words(s[e..]), WordSpans(s, e);
      assert Words(s[i..]) == [s[i..e]] + ws;
      assert WordSpans(s, i) == [(i, e)] + rest;
    }
  }

  /**
   * `s.split()` is the maximal runs of non-whitespace of `s`, in order:
   * word `k` is the slice of `s` that span `k` marks; each span is a run
   * with whitespace or an end of `s` on both sides; the spans increase;
   * and every non-whitespace character of `s` lies in some word.
   */
  lemma WordsAreMaximalRuns(s: string)
    ensures var ws, sp := Words(s), WordSpans(s, 0);
      |ws| == |sp| && forall k :: 0 <= k < |ws| ==> ws[k] == s[sp[k].0..sp[k].1]
    ensures var sp := WordSpans(s, 0);
      forall k :: 0 <= k < |sp| ==> IsRun(s, sp[k].0, sp[k].1) && (sp[k].0 == 0 || IsSpace(s[sp[k].0 - 1]))
    ensures var sp := WordSpans(s, 0);
      forall k :: 0 <= k < |sp| - 1 ==> sp[k].1 < sp[k + 1].0
    ensures var sp := WordSpans(s, 0);
      forall j :: 0 <= j < |s| && !IsSpace(s[j]) ==> exists k :: 0 <= k < |sp| && sp[k].0 <= j < sp[k].1
  {
    WordsAreSpans(s, 0);
    assert s[0..] == s;
    SpansFollowSpace(s);
    SpansCoverString(s);
  }

  /** Every span of `s` starts at its beginning or right after whitespace. */
  lemma SpansFollowSpace(s: string)
    ensures var sp := WordSpans(s, 0);
      forall k :: 0 <= k < |sp| ==> sp[k].0 == 0 || IsSpace(s[sp[k].0 - 1])
  {
    var sp := WordSpans(s, 0);
    forall k | 0 <= k < |sp|
      ensures sp[k].0 == 0 || IsSpace(s[sp[k].0 - 1])
    {
      SpanStartsAfterSpace(s, 0, k);
    }
  }

  /** Every non-whitespace character of `s` lies in a span. */
  lemma SpansCoverString(s: string)
    ensures var sp := WordSpans(s, 0);
      forall j :: 0 <= j < |s| && !IsSpace(s[j]) ==> exists k :: 0 <= k < |sp| && sp[k].0 <= j < sp[k].1
  {
    var sp := WordSpans(s, 0);
    forall j | 0 <= j < |s| && !IsSpace(s[j])
      ensures exists k :: 0 <= k < |sp| && sp[k].0 <= j < sp[k].1
    {
      var k := SpansCover(s, 0, j);
      assert k < |sp| && sp[k].0 <= j < sp[k].1;
    }
  }

  predicate IsDigit(c: char)
  {
    '0' <= c <= '9'
  }

  /** `s.isdigit()`: non-empty and made of digits only. */
  predicate IsDigits(s: string)
  {
    s != [] && forall k :: 0 <= k < |s| ==> IsDigit(s[k])
  }

  function DigitValue(c: char): (d: nat)
    requires IsDigit(c)
    ensures d < 10
  {
    c as int - '0' as int
  }

  /** `int(s)` for a digit string: its decimal value. */
  function DecimalValue(s: string): (r: nat)
    requires forall k :: 0 <= k < |s| ==> IsDigit(s[k])
    decreases |s|
  {
    if s == [] then 0
    else DecimalValue(s[..|s| - 1]) * 10 + DigitValue(s[|s| - 1])
  }

  /** The decimal digits of `n`, without leading zeros (`str(n)`). */
  function DecimalDigits(n: nat): (s: string)
    ensures IsDigits(s)
    ensures DecimalValue(s) == n
  {
    if n < 10 then [(n + '0' as int) as char]
    else DecimalDigits(n / 10) + [((n % 10) + '0' as int) as char]
  }

  /** The `in` test `sub in s`. */
  predicate Contains(s: string, sub: string)
    decreases |s|
  {
    sub <= s || (s != [] && Contains(s[1..], sub))
  }

  predicate EndsWith(s: string, suffix: string)
  {
    |suffix| <= |s| && s[|s| - |suffix|..] == suffix
  }

  /** `s.split(sep)`: the pieces between separators, empty pieces included. */
  function SplitOn(s: string, sep: char): (parts: seq<string>)
    ensures |parts| >= 1
    ensures forall k :: 0 <= k < |parts| ==> sep !in parts[k]
    decreases |s|
  {
    if s == [] then [[]]
    else
      var rest := SplitOn(s[..|s| - 1], sep);
      if s[|s| - 1] == sep then rest + [[]]
      else rest[..|rest| - 1] + [rest[|rest| - 1] + [s[|s| - 1]]]
  }

  /** `sep.join(parts)`. */
  function Join(parts: seq<string>, sep: char): string
    requires |parts| >= 1
  {
    if |parts| == 1 then parts[0]
    else Join(parts[..|parts| - 1], sep) + [sep] + parts[|parts| - 1]
  }

  /** Joining the pieces of `s.split(sep)` with `sep` gives `s` back. */
  lemma {:induction false} JoinSplitOn(s: string, sep: char)
    ensures Join(SplitOn(s, sep), sep) == s
    decreases |s|
  {
    if s != [] {
      var init, c := s[..|s| - 1], s[|s| - 1];
      var rest := SplitOn(init, sep);
      JoinSplitOn(init, sep);
      if c == sep {
        assert (rest + [[]])[..|rest|] == rest;
      } else {
        var parts := rest[..|rest| - 1] + [rest[|rest| - 1] + [c]];
        if |rest| > 1 {
          assert parts[..|parts| - 1] == rest[..|rest| - 1];
        }
      }
      assert init + [c] == s;
    }
  }

  /** `[float(x) for x in pieces]`, with `parse` standing for `float`; `None` when any piece fails. */
  function ParseAll(pieces: seq<string>, parse: string -> Option<real>): (r: Option<seq<real>>)
    ensures r.Some? <==> forall k :: 0 <= k < |pieces| ==> parse(pieces[k]).Some?
    ensures r.Some? ==> |r.value| == |pieces| && forall k :: 0 <= k < |pieces| ==> r.value[k] == parse(pieces[k]).value
  {
    if forall k :: 0 <= k < |pieces| ==> parse(pieces[k]).Some? then
      Some(seq(|pieces|, k requires 0 <= k < |pieces| => parse(pieces[k]).value))
    else None
  }
}

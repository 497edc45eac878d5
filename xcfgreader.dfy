/**
 * The two index utilities of the GET-electronics configuration reader:
 * grouping the positions of a list by value, and selecting the rows of a
 * channel table by CoBo, AsAd, AGET and channel number.
 */
module XcfgReader {

  // ------------------------------------------------------ classify_indices

  /** The positions of `v` in `values`, in increasing order. */
  function IndicesOf<T(==)>(values: seq<T>, v: T): (idx: seq<nat>)
    ensures forall k :: 0 <= k < |idx| ==> idx[k] < |values| && values[idx[k]] == v
    ensures forall k, l :: 0 <= k < l < |idx| ==> idx[k] < idx[l]
    ensures forall i :: 0 <= i < |values| && values[i] == v ==> i in idx
    decreases |values|
  {
    if values == [] then []
    else
      var init := values[..|values| - 1];
      var rest := IndicesOf(init, v);
      assert forall i :: 0 <= i < |init| ==> init[i] == values[i];
      if values[|values| - 1] == v then rest + [|values| - 1] else rest
  }

  /** A value that does not occur has no positions. */
  lemma {:induction false} AbsentHasNoIndices<T>(values: seq<T>, v: T)
    requires v !in values
    ensures IndicesOf(values, v) == []
    decreases |values|
  {
    if values != [] {
      var init := values[..|values| - 1];
      assert forall w :: w in init ==> w in values;
      AbsentHasNoIndices(init, v);
    }
  }

  /** A strictly increasing sequence holds each of its elements once. */
  lemma {:induction false} IncreasingHoldsOnce(s: seq<nat>, i: nat)
    requires forall k, l :: 0 <= k < l < |s| ==> s[k] < s[l]
    requires i in s
    ensures multiset(s)[i] == 1
  {
    var init, last := s[..|s| - 1], s[|s| - 1];
    assert s == init + [last];
    if last == i {
      assert i !in init by {
        forall k | 0 <= k < |init|
          ensures init[k] != i
        {
          assert s[k] < s[|s| - 1];
        }
      }
    } else {
      IncreasingHoldsOnce(init, i);
    }
  }

  /**
   * Every position appears exactly once over all the groups: once in the
   * group of its own value, and in no other group.
   */
  lemma EachIndexOnce<T>(values: seq<T>, i: nat, w: T)
    requires i < |values|
    ensures multiset(IndicesOf(values, values[i]))[i] == 1
    ensures w != values[i] ==> i !in IndicesOf(values, w)
  {
    IncreasingHoldsOnce(IndicesOf(values, values[i]), i);
  }

  /** Appending one element adds its position to its own group only. */
  lemma IndicesOfSnoc<T>(prev: seq<T>, val: T, v: T)
    ensures IndicesOf(prev + [val], v) == if v == val then IndicesOf(prev, v) + [|prev|] else IndicesOf(prev, v)
  {
    assert (prev + [val])[..|prev|] == prev;
  }

  /**
   * `classify_indices`: the positions of the list grouped by value, each
   * group in increasing order; the keys are exactly the values that occur.
   */
  method ClassifyIndices<T(==)>(values: seq<T>) returns (groups: map<T, seq<nat>>)
    ensures forall v :: v in groups <==> v in values
    ensures forall v :: v in groups ==> groups[v] == IndicesOf(values, v)
  {
    groups := map[];
    for idx := 0 to |values|
      invariant forall v :: v in groups <==> v in values[..idx]
      invariant forall v :: v in groups ==> groups[v] == IndicesOf(values[..idx], v)
    {
      var val := values[idx];
      ghost var prev := values[..idx];
      assert values[..idx + 1] == prev + [val];
      if val in groups {
        groups := groups[val := groups[val] + [idx]];
      } else {
        AbsentHasNoIndices(prev, val);
        groups := groups[val := [idx]];
      }
      forall v | v in groups
        ensures groups[v] == IndicesOf(prev + [val], v)
      {
        IndicesOfSnoc(prev, val, v);
      }
    }
    assert values[..|values|] == values;
  }

  // -------------------------------------------------- get_matching_indices

  /** The four address columns of a channel table, row by row, with its row ids. */
  datatype ChannelTable = ChannelTable(ids: seq<int>, cobos: seq<int>, asads: seq<int>, agets: seq<int>,
                                       channels: seq<int>)
  {
    /** Columns of a data frame all have the same length. */
    predicate WellFormed()
    {
      |cobos| == |ids| && |asads| == |ids| && |agets| == |ids| && |channels| == |ids|
    }
  }

  /** One filter: a negative value matches anything, any other value only itself. */
  predicate Accepts(filter: int, field: int)
  {
    filter < 0 || field == filter
  }

  /** Row `i` passes all four filters. */
  predicate RowMatches(t: ChannelTable, i: nat, cobo: int, asad: int, aget: int, channel: int)
    requires t.WellFormed() && i < |t.ids|
  {
    Accepts(cobo, t.cobos[i]) && Accepts(asad, t.asads[i]) && Accepts(aget, t.agets[i])
    && Accepts(channel, t.channels[i])
  }

  /** The first `n` rows that pass all four filters, in increasing order. */
  function MatchingRows(t: ChannelTable, n: nat, cobo: int, asad: int, aget: int, channel: int): (r: seq<nat>)
    requires t.WellFormed() && n <= |t.ids|
    ensures forall k :: 0 <= k < |r| ==> r[k] < n && RowMatches(t, r[k], cobo, asad, aget, channel)
    ensures forall k, l :: 0 <= k < l < |r| ==> r[k] < r[l]
    ensures forall i :: 0 <= i < n && RowMatches(t, i, cobo, asad, aget, channel) ==> i in r
  {
    if n == 0 then []
    else
      var rest := MatchingRows(t, n - 1, cobo, asad, aget, channel);
      if RowMatches(t, n - 1, cobo, asad, aget, channel) then rest + [n - 1] else rest
  }

  /** With every filter negative, every row index is returned, in order. */
  lemma {:induction false} WildcardsMatchAll(t: ChannelTable, n: nat, cobo: int, asad: int, aget: int, channel: int)
    requires t.WellFormed() && n <= |t.ids|
    requires cobo < 0 && asad < 0 && aget < 0 && channel < 0
    ensures var r := MatchingRows(t, n, cobo, asad, aget, channel);
      |r| == n && forall k :: 0 <= k < n ==> r[k] == k
  {
    if n > 0 {
      WildcardsMatchAll(t, n - 1, cobo, asad, aget, channel);
      assert RowMatches(t, n - 1, cobo, asad, aget, channel);
    }
  }

  /** `get_matching_indices`: the rows that pass every non-negative filter, in order. */
  method GetMatchingIndices(t: ChannelTable, cobo: int, asad: int, aget: int, channel: int)
    returns (matching: seq<nat>)
    requires t.WellFormed()
    ensures matching == MatchingRows(t, |t.ids|, cobo, asad, aget, channel)
  {
    matching := [];
    for i := 0 to |t.ids|
      invariant matching == MatchingRows(t, i, cobo, asad, aget, channel)
    {
      var coboFlag := if cobo >= 0 then t.cobos[i] == cobo else true;
      var asadFlag := if asad >= 0 then t.asads[i] == asad else true;
      var agetFlag := if aget >= 0 then t.agets[i] == aget else true;
      var chanFlag := if channel >= 0 then t.channels[i] == channel else true;
      if chanFlag && agetFlag && asadFlag && coboFlag {
        matching := matching + [i];
      }
    }
  }
}

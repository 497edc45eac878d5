/**
 * Index deletion as `remove_fitted_peak` does it: the index list is sorted
 * in descending order and each index still inside the list is deleted in
 * turn, so that earlier deletions do not shift the positions of later ones.
 */
module PeakRemoval {

  // ------------------------------------------------ sorted(..., reverse=True)

  predicate Descending(r: seq<int>)
  {
    forall i, j :: 0 <= i < j < |r| ==> r[i] >= r[j]
  }

  predicate StrictlyDescending(r: seq<int>)
  {
    forall i, j :: 0 <= i < j < |r| ==> r[i] > r[j]
  }

  /** No value occurs twice. */
  ghost predicate Distinct(s: seq<int>)
  {
    forall v :: multiset(s)[v] <= 1
  }

  function InsertDescending(x: int, r: seq<int>): (t: seq<int>)
    ensures |t| == |r| + 1 && t[0] == if r != [] && r[0] > x then r[0] else x
  {
    if r == [] then [x]
    else if x >= r[0] then [x] + r
    else [r[0]] + InsertDescending(x, r[1..])
  }

  /** Python `sorted(s, reverse=True)` on integers: insertion sort. */
  function SortDescending(s: seq<int>): (r: seq<int>)
    ensures |r| == |s|
  {
    if s == [] then [] else InsertDescending(s[0], SortDescending(s[1..]))
  }

  lemma {:induction false} InsertDescendingKeeps(x: int, r: seq<int>)
    ensures multiset(InsertDescending(x, r)) == multiset(r) + multiset{x}
  {
    if r != [] && x < r[0] {
      var rest := InsertDescending(x, r[1..]);
      InsertDescendingKeeps(x, r[1..]);
      assert r == [r[0]] + r[1..];
      assert multiset(r) == multiset{r[0]} + multiset(r[1..]);
      assert multiset([r[0]] + rest) == multiset{r[0]} + multiset(rest);
    }
  }

  lemma {:induction false} InsertDescendingOrders(x: int, r: seq<int>)
    requires Descending(r)
    ensures Descending(InsertDescending(x, r))
  {
    if r != [] {
      var t := InsertDescending(x, r);
      var rest := if x >= r[0] then r else InsertDescending(x, r[1..]);
      var head := if x >= r[0] then x else r[0];
      if x < r[0] {
        InsertDescendingOrders(x, r[1..]);
      }
      assert t == [head] + rest;
      assert Descending(rest);
      forall i, j | 0 <= i < j < |t|
        ensures t[i] >= t[j]
      {
        if i == 0 {
          assert rest[0] <= head;
          assert t[j] == rest[j - 1] <= rest[0];
        } else {
          assert t[i] == rest[i - 1] && t[j] == rest[j - 1];
        }
      }
    }
  }

  /** The result is in descending order and holds the same values, as often. */
  lemma {:induction false} SortDescendingSorts(s: seq<int>)
    ensures Descending(SortDescending(s)) && multiset(SortDescending(s)) == multiset(s)
  {
    if s != [] {
      SortDescendingSorts(s[1..]);
      InsertDescendingKeeps(s[0], SortDescending(s[1..]));
      InsertDescendingOrders(s[0], SortDescending(s[1..]));
      assert s == [s[0]] + s[1..];
    }
  }

  /** Sorting a list without repeated values gives a strictly descending list of the same values. */
  lemma SortDistinct(s: seq<int>)
    requires Distinct(s)
    ensures StrictlyDescending(SortDescending(s))
    ensures forall v :: v in SortDescending(s) <==> v in s
  {
    var r := SortDescending(s);
    SortDescendingSorts(s);
    forall i, j | 0 <= i < j < |r|
      ensures r[i] != r[j]
    {
      RepeatCounts(r, i, j);
    }
    forall v
      ensures v in r <==> v in s
    {
      assert v in r <==> v in multiset(r);
      assert v in s <==> v in multiset(s);
    }
  }

  /** A value found at two positions occurs at least twice. */
  lemma RepeatCounts(r: seq<int>, i: nat, j: nat)
    requires i < j < |r|
    ensures r[i] == r[j] ==> multiset(r)[r[i]] >= 2
  {
    assert r == r[..j] + r[j..];
    assert r[i] in multiset(r[..j]) && r[j] in multiset(r[j..]);
  }

  // -------------------------------------------------------------- deletion

  /** `del xs[i]`. */
  function DeleteAt<T>(xs: seq<T>, i: nat): (r: seq<T>)
    requires i < |xs|
    ensures |r| == |xs| - 1
  {
    xs[..i] + xs[i + 1..]
  }

  /**
   * The deletion loop over an already sorted index list: every index
   * inside the current list is deleted, the others are skipped.
   */
  function DeleteEach<T>(xs: seq<T>, d: seq<int>): seq<T>
    decreases |d|
  {
    if d == [] then xs
    else DeleteEach(if 0 <= d[0] < |xs| then DeleteAt(xs, d[0]) else xs, d[1..])
  }

  /** The elements of `xs` whose positions are not in `gone`, in order. */
  function Keep<T>(xs: seq<T>, gone: set<int>): (r: seq<T>)
    ensures |r| <= |xs|
  {
    if xs == [] then []
    else Keep(xs[..|xs| - 1], gone) + if |xs| - 1 in gone then [] else [xs[|xs| - 1]]
  }

  /** `Keep` only looks at positions inside the list. */
  lemma {:induction false} KeepInside<T>(xs: seq<T>, gone: set<int>, gone': set<int>)
    requires forall k :: 0 <= k < |xs| ==> (k in gone <==> k in gone')
    ensures Keep(xs, gone) == Keep(xs, gone')
    decreases |xs|
  {
    if xs != [] {
      KeepInside(xs[..|xs| - 1], gone, gone');
    }
  }

  lemma {:induction false} KeepNone<T>(xs: seq<T>)
    ensures Keep(xs, {}) == xs
    decreases |xs|
  {
    if xs != [] {
      KeepNone(xs[..|xs| - 1]);
      assert xs == xs[..|xs| - 1] + [xs[|xs| - 1]];
    }
  }

  /** Deleting position `i`, above every position in `gone`, adds `i` to the positions dropped. */
  lemma {:induction false} KeepAfterDelete<T>(xs: seq<T>, i: nat, gone: set<int>)
    requires i < |xs| && forall r :: r in gone ==> r < i
    ensures Keep(DeleteAt(xs, i), gone) == Keep(xs, gone + {i})
    decreases |xs|
  {
    var n := |xs|;
    var init := xs[..n - 1];
    if i == n - 1 {
      assert DeleteAt(xs, i) == init;
      KeepInside(init, gone, gone + {i});
    } else {
      var ys := DeleteAt(xs, i);
      assert ys[..n - 2] == DeleteAt(init, i);
      assert ys[n - 2] == xs[n - 1];
      KeepAfterDelete(init, i, gone);
    }
  }

  /**
   * Deleting a strictly descending list of positions, largest first,
   * leaves exactly the elements at the other positions, in order.
   */
  lemma {:induction false} DeleteEachKeeps<T>(xs: seq<T>, d: seq<int>)
    requires StrictlyDescending(d)
    ensures DeleteEach(xs, d) == Keep(xs, set v | v in d)
    decreases |d|
  {
    if d == [] {
      assert (set v | v in d) == {};
      KeepNone(xs);
    } else {
      var i, rest := d[0], d[1..];
      assert forall v :: v in d <==> v == i || v in rest;
      assert forall r :: r in rest ==> r < i;
      DeleteEachKeeps(if 0 <= i < |xs| then DeleteAt(xs, i) else xs, rest);
      if 0 <= i < |xs| {
        KeepAfterDelete(xs, i, set v | v in rest);
        assert (set v | v in rest) + {i} == set v | v in d;
      } else {
        KeepInside(xs, set v | v in rest, set v | v in d);
      }
    }
  }

  /**
   * The deletion `remove_fitted_peak` performs on one list: with no index
   * listed twice, exactly the listed positions inside the list are gone
   * and the survivors keep their order.
   */
  lemma RemoveListed<T>(xs: seq<T>, indexList: seq<int>)
    requires Distinct(indexList)
    ensures DeleteEach(xs, SortDescending(indexList)) == Keep(xs, set v | v in indexList)
  {
    SortDistinct(indexList);
    var order := SortDescending(indexList);
    DeleteEachKeeps(xs, order);
    KeepInside(xs, set v | v in order, set v | v in indexList);
  }

  /** Deleting one more index after a run of deletions. */
  lemma {:induction false} DeleteEachSnoc<T>(xs: seq<T>, d: seq<int>, x: int)
    ensures DeleteEach(xs, d + [x]) == var ys := DeleteEach(xs, d); if 0 <= x < |ys| then DeleteAt(ys, x) else ys
    decreases |d|
  {
    if d == [] {
      assert d + [x] == [x];
    } else {
      assert (d + [x])[0] == d[0] && (d + [x])[1..] == d[1..] + [x];
      DeleteEachSnoc(if 0 <= d[0] < |xs| then DeleteAt(xs, d[0]) else xs, d[1..], x);
    }
  }

  /** The loop `for index in order: if 0 <= index < len(xs): del xs[index]`. */
  method DeleteSorted<T>(xs: seq<T>, order: seq<int>) returns (ys: seq<T>)
    ensures ys == DeleteEach(xs, order)
  {
    ys := xs;
    for k := 0 to |order|
      invariant ys == DeleteEach(xs, order[..k])
    {
      var index := order[k];
      assert order[..k + 1] == order[..k] + [index];
      DeleteEachSnoc(xs, order[..k], index);
      if 0 <= index < |ys| {
        ys := DeleteAt(ys, index);
      }
    }
    assert order[..|order|] == order;
  }
}

// The client-side list pipeline shared by the list pages: filtering, a stable sort by a
// comparison key, `Array.prototype.slice` pagination with ten rows per page, and the
// find-by-id refreshes.
module ListPipeline {
  /** Rows shown per page. */
  const ItemsPerPage := 10

  /** `s.filter(p)` */
  function Filter<T>(s: seq<T>, p: T -> bool): (r: seq<T>)
    ensures |r| <= |s|
  {
    if s == [] then [] else (if p(s[0]) then [s[0]] else []) + Filter(s[1..], p)
  }

  lemma {:induction false} FilterMember<T>(s: seq<T>, p: T -> bool, x: T)
    ensures x in Filter(s, p) <==> x in s && p(x)
  {
    if s != [] {
      assert s == [s[0]] + s[1..];
      FilterMember(s[1..], p, x);
    }
  }

  /** Two tests that agree on every element keep the same elements. */
  lemma {:induction false} FilterAgree<T>(s: seq<T>, p: T -> bool, q: T -> bool)
    requires forall i :: 0 <= i < |s| ==> p(s[i]) == q(s[i])
    ensures Filter(s, p) == Filter(s, q)
  {
    if s != [] {
      FilterAgree(s[1..], p, q);
    }
  }

  /** Filtering distributes over concatenation, so it keeps the input order. */
  lemma {:induction false} FilterAppend<T>(a: seq<T>, b: seq<T>, p: T -> bool)
    ensures Filter(a + b, p) == Filter(a, p) + Filter(b, p)
    decreases |a|
  {
    if a == [] {
      assert a + b == b;
    } else {
      var h := if p(a[0]) then [a[0]] else [];
      assert (a + b)[0] == a[0] && (a + b)[1..] == a[1..] + b;
      assert Filter(a + b, p) == h + Filter(a[1..] + b, p);
      FilterAppend(a[1..], b, p);
      assert Filter(a, p) == h + Filter(a[1..], p);
      assert h + (Filter(a[1..], p) + Filter(b, p)) == (h + Filter(a[1..], p)) + Filter(b, p);
    }
  }

  // ---- pagination ----

  /** Where `slice` puts an index: negative counts from the end, and both ends are clamped. */
  function SliceIndex(k: int, n: nat): (i: nat)
    ensures i <= n
  {
    if k < 0 then (if n + k < 0 then 0 else n + k) else (if k < n then k else n)
  }

  /** `s.slice(start, end)` */
  function JsSlice<T>(s: seq<T>, start: int, end: int): (r: seq<T>)
  {
    var from, to := SliceIndex(start, |s|), SliceIndex(end, |s|);
    if from < to then s[from..to] else []
  }

  /** The rows on page `page` (counted from 1): `slice((page - 1) * 10, page * 10)`. */
  function Paginate<T>(rows: seq<T>, page: int): (r: seq<T>)
  {
    JsSlice(rows, (page - 1) * ItemsPerPage, page * ItemsPerPage)
  }

  /** `Math.ceil(n / 10)` */
  function TotalPages(n: nat): (t: nat)
    ensures 10 * t >= n && (t == 0 || 10 * (t - 1) < n)
  {
    (n + ItemsPerPage - 1) / ItemsPerPage
  }

  /** A page never holds more than ten rows, whatever the page number, even zero or negative. */
  lemma PageAtMostTen<T>(rows: seq<T>, page: int)
    ensures |Paginate(rows, page)| <= 10
  {
  }

  /** For a positive page number, the page is the window of rows `10 (page - 1)` up to `10 page`. */
  lemma PageIsWindow<T>(rows: seq<T>, page: int)
    requires page >= 1
    ensures var from := if 10 * (page - 1) < |rows| then 10 * (page - 1) else |rows|;
            var to := if 10 * page < |rows| then 10 * page else |rows|;
            Paginate(rows, page) == rows[from..to]
  {
  }

  /** A positive page is non-empty exactly up to the last page. */
  lemma PageNonEmptyIff<T>(rows: seq<T>, page: int)
    requires page >= 1
    ensures Paginate(rows, page) != [] <==> page <= TotalPages(|rows|)
  {
  }

  /** Pages 1 to k, one after another. */
  function Pages<T>(rows: seq<T>, k: nat): seq<T>
  {
    if k == 0 then [] else Pages(rows, k - 1) + Paginate(rows, k)
  }

  lemma {:induction false} PagesArePrefix<T>(rows: seq<T>, k: nat)
    ensures Pages(rows, k) == rows[..if 10 * k < |rows| then 10 * k else |rows|]
  {
    if k > 0 {
      PagesArePrefix(rows, k - 1);
      PageIsWindow(rows, k);
      var a := if 10 * (k - 1) < |rows| then 10 * (k - 1) else |rows|;
      var b := if 10 * k < |rows| then 10 * k else |rows|;
      assert rows[..a] + rows[a..b] == rows[..b];
    }
  }

  /** Reading pages 1 to `TotalPages` in turn shows every row once, in order. */
  lemma PagesCoverAll<T>(rows: seq<T>)
    ensures Pages(rows, TotalPages(|rows|)) == rows
  {
    PagesArePrefix(rows, TotalPages(|rows|));
  }

  // ---- stable sort ----

  predicate SortedBy<T>(s: seq<T>, key: T -> real)
  {
    forall i, j :: 0 <= i < j < |s| ==> key(s[i]) <= key(s[j])
  }

  /** Puts `x` before the first element whose key is not smaller. */
  function Insert<T>(x: T, s: seq<T>, key: T -> real): (r: seq<T>)
    ensures |r| == |s| + 1
  {
    if s == [] || key(x) <= key(s[0]) then [x] + s else [s[0]] + Insert(x, s[1..], key)
  }

  /** Inserting adds exactly `x`. */
  lemma {:induction false} InsertPermutes<T>(x: T, s: seq<T>, key: T -> real)
    ensures multiset(Insert(x, s, key)) == multiset(s) + multiset{x}
    decreases |s|
  {
    if s != [] && key(x) > key(s[0]) {
      assert s == [s[0]] + s[1..];
      InsertPermutes(x, s[1..], key);
    }
  }

  /** `sort(compare)` for a comparator whose sign is that of `key(a) - key(b)`:
      JavaScript's sort is stable, and so is this insertion sort. */
  function SortBy<T>(s: seq<T>, key: T -> real): (r: seq<T>)
    ensures |r| == |s|
  {
    if s == [] then [] else Insert(s[0], SortBy(s[1..], key), key)
  }

  /** The sort is a permutation: every row is kept as often as it occurs. */
  lemma {:induction false} SortByPermutes<T>(s: seq<T>, key: T -> real)
    ensures multiset(SortBy(s, key)) == multiset(s)
    decreases |s|
  {
    if s != [] {
      assert s == [s[0]] + s[1..];
      SortByPermutes(s[1..], key);
      InsertPermutes(s[0], SortBy(s[1..], key), key);
    }
  }

  lemma SortByMember<T>(s: seq<T>, key: T -> real, x: T)
    ensures x in SortBy(s, key) <==> x in s
  {
    SortByPermutes(s, key);
    assert x in SortBy(s, key) <==> x in multiset(SortBy(s, key));
    assert x in s <==> x in multiset(s);
  }

  /** Rows with equal keys appear in the same relative order in both sequences. */
  ghost predicate SameTies<T>(a: seq<T>, b: seq<T>, key: T -> real)
  {
    forall v :: WithKey(a, key, v) == WithKey(b, key, v)
  }

  /** Inserting adds `x` and nothing else. */
  lemma InsertMembers<T>(x: T, s: seq<T>, key: T -> real)
    ensures forall y :: y in Insert(x, s, key) ==> y == x || y in s
  {
    InsertPermutes(x, s, key);
    forall y | y in Insert(x, s, key) ensures y == x || y in s {
      assert y in multiset(Insert(x, s, key));
    }
  }

  /** A row that no element of `t` is below stays in front of it in order. */
  lemma SortedCons<T>(y: T, t: seq<T>, key: T -> real)
    requires SortedBy(t, key) && forall z :: z in t ==> key(y) <= key(z)
    ensures SortedBy([y] + t, key)
  {
    forall i, j | 0 <= i < j < |[y] + t| ensures key(([y] + t)[i]) <= key(([y] + t)[j]) {
      assert ([y] + t)[j] == t[j - 1];
      assert t[j - 1] in t;
      if i > 0 {
        assert ([y] + t)[i] == t[i - 1];
      }
    }
  }

  lemma {:induction false} InsertSorted<T>(x: T, s: seq<T>, key: T -> real)
    requires SortedBy(s, key)
    ensures SortedBy(Insert(x, s, key), key)
    decreases |s|
  {
    if s != [] && key(x) > key(s[0]) {
      InsertSorted(x, s[1..], key);
      InsertMembers(x, s[1..], key);
      var t := Insert(x, s[1..], key);
      forall z | z in t ensures key(s[0]) <= key(z) {
        if z != x {
          var k :| 0 <= k < |s[1..]| && s[1..][k] == z;
          assert s[k + 1] == z;
        }
      }
      SortedCons(s[0], t, key);
    } else {
      forall z | z in s ensures key(x) <= key(z) {
        var k :| 0 <= k < |s| && s[k] == z;
      }
      SortedCons(x, s, key);
    }
  }

  /** The output is ordered by the key. */
  lemma {:induction false} SortBySorted<T>(s: seq<T>, key: T -> real)
    ensures SortedBy(SortBy(s, key), key)
    decreases |s|
  {
    if s != [] {
      SortBySorted(s[1..], key);
      InsertSorted(s[0], SortBy(s[1..], key), key);
    }
  }

  /** The rows whose key is `v`, in order. */
  function WithKey<T>(s: seq<T>, key: T -> real, v: real): seq<T>
  {
    if s == [] then [] else (if key(s[0]) == v then [s[0]] else []) + WithKey(s[1..], key, v)
  }

  lemma {:induction false} InsertWithKey<T>(x: T, s: seq<T>, key: T -> real, v: real)
    ensures WithKey(Insert(x, s, key), key, v) == (if key(x) == v then [x] else []) + WithKey(s, key, v)
    decreases |s|
  {
    var hx := if key(x) == v then [x] else [];
    if s == [] || key(x) <= key(s[0]) {
      assert ([x] + s)[1..] == s;
      assert WithKey([x] + s, key, v) == hx + WithKey(s, key, v);
    } else {
      var t := Insert(x, s[1..], key);
      var h0 := if key(s[0]) == v then [s[0]] else [];
      assert ([s[0]] + t)[1..] == t;
      assert WithKey([s[0]] + t, key, v) == h0 + WithKey(t, key, v);
      InsertWithKey(x, s[1..], key, v);
      assert WithKey(s, key, v) == h0 + WithKey(s[1..], key, v);
      assert h0 == [] || hx == [];
      assert h0 + hx == hx + h0;
    }
  }

  /** Stability: rows that compare equal keep their input order. */
  lemma {:induction false} SortByStable<T>(s: seq<T>, key: T -> real, v: real)
    ensures WithKey(SortBy(s, key), key, v) == WithKey(s, key, v)
    decreases |s|
  {
    if s != [] {
      SortByStable(s[1..], key, v);
      InsertWithKey(s[0], SortBy(s[1..], key), key, v);
    }
  }

  /** The stable sort keeps ties in input order. */
  lemma SortByKeepsTies<T>(s: seq<T>, key: T -> real)
    ensures SameTies(SortBy(s, key), s, key)
  {
    forall v ensures WithKey(SortBy(s, key), key, v) == WithKey(s, key, v) {
      SortByStable(s, key, v);
    }
  }

  /** A comparator that always answers 0 (an unknown sort field) leaves the order as it was. */
  lemma {:induction false} ConstantKeyKeepsOrder<T>(s: seq<T>, key: T -> real, c: real)
    requires forall x :: key(x) == c
    ensures SortBy(s, key) == s
    decreases |s|
  {
    if s != [] {
      ConstantKeyKeepsOrder(s[1..], key, c);
    }
  }

  // ---- the filter-then-sort pipelines ----

  /** `rows.filter(matches).sort(compare)` */
  function FilterSort<T>(rows: seq<T>, matches: T -> bool, key: T -> real): seq<T>
  {
    SortBy(Filter(rows, matches), key)
  }

  /** Keeps exactly the matching rows, ordered by the key, ties in input order. */
  lemma FilterSortSpec<T>(rows: seq<T>, matches: T -> bool, key: T -> real)
    ensures var r := FilterSort(rows, matches, key);
            (forall x :: x in r <==> x in rows && matches(x)) &&
            SortedBy(r, key) && SameTies(r, Filter(rows, matches), key) &&
            multiset(r) == multiset(Filter(rows, matches))
  {
    var kept := Filter(rows, matches);
    SortByPermutes(kept, key);
    SortBySorted(kept, key);
    SortByKeepsTies(kept, key);
    forall x ensures x in SortBy(kept, key) <==> x in rows && matches(x) {
      SortByMember(kept, key, x);
      FilterMember(rows, matches, x);
    }
  }

  function Not<T>(p: T -> bool): T -> bool
  {
    x => !p(x)
  }

  /** Pinned rows in input order, then the unpinned rows through `FilterSort`. */
  function PinnedFirst<T>(rows: seq<T>, pinned: T -> bool, matches: T -> bool, key: T -> real): seq<T>
  {
    Filter(rows, pinned) + FilterSort(Filter(rows, Not(pinned)), matches, key)
  }

  /** Pinned rows come first in their original order whatever the search and filters; the
      rest are exactly the unpinned matching rows, ordered by the key, ties in input order. */
  lemma PinnedFirstSpec<T>(rows: seq<T>, pinned: T -> bool, matches: T -> bool, key: T -> real)
    ensures var r := PinnedFirst(rows, pinned, matches, key);
            var n := |Filter(rows, pinned)|;
            r[..n] == Filter(rows, pinned) &&
            (forall x :: x in r[n..] <==> x in rows && !pinned(x) && matches(x)) &&
            SortedBy(r[n..], key) &&
            SameTies(r[n..], Filter(Filter(rows, Not(pinned)), matches), key)
  {
    var unpinned := Filter(rows, Not(pinned));
    var r := PinnedFirst(rows, pinned, matches, key);
    var n := |Filter(rows, pinned)|;
    assert r[n..] == FilterSort(unpinned, matches, key);
    FilterSortSpec(unpinned, matches, key);
    forall x ensures x in unpinned <==> x in rows && !pinned(x) {
      FilterMember(rows, Not(pinned), x);
    }
  }

  /** Every row the pipeline shows is a row of its input. */
  lemma PinnedFirstFromInput<T>(rows: seq<T>, pinned: T -> bool, matches: T -> bool, key: T -> real, x: T)
    requires x in PinnedFirst(rows, pinned, matches, key)
    ensures x in rows
  {
    var unpinned := Filter(rows, Not(pinned));
    if x in Filter(rows, pinned) {
      FilterMember(rows, pinned, x);
    } else {
      assert x in SortBy(Filter(unpinned, matches), key);
      SortByMember(Filter(unpinned, matches), key, x);
      FilterMember(unpinned, matches, x);
      FilterMember(rows, Not(pinned), x);
    }
  }

  /** Every row on a page is a row of the paginated list. */
  lemma PageFromList<T>(rows: seq<T>, page: int)
    ensures forall x :: x in Paginate(rows, page) ==> x in rows
  {
  }

  /** The sign a comparator returns. */
  function Sign(x: real): (s: int)
    ensures s == -1 || s == 0 || s == 1
    ensures s < 0 <==> x < 0.0
    ensures s > 0 <==> x > 0.0
  {
    if x < 0.0 then -1 else if x > 0.0 then 1 else 0
  }

  // ---- refreshes by id ----

  /** `rows.findIndex(item => item.id === id)` */
  function FindIndex<T>(rows: seq<T>, idOf: T -> string, id: string): (k: int)
    ensures -1 <= k < |rows|
    ensures k == -1 <==> forall i :: 0 <= i < |rows| ==> idOf(rows[i]) != id
    ensures k >= 0 ==> idOf(rows[k]) == id && forall i :: 0 <= i < k ==> idOf(rows[i]) != id
  {
    if rows == [] then -1
    else if idOf(rows[0]) == id then 0
    else
      var k := FindIndex(rows[1..], idOf, id);
      if k == -1 then -1 else k + 1
  }

  /** Replaces the first row with the given id by `update` of it; without such a row nothing changes. */
  function UpdateById<T>(rows: seq<T>, idOf: T -> string, id: string, update: T -> T): (r: seq<T>)
    ensures |r| == |rows|
    ensures var k := FindIndex(rows, idOf, id);
            (k == -1 ==> r == rows) &&
            (k >= 0 ==> r[k] == update(rows[k]) && forall i :: 0 <= i < |rows| && i != k ==> r[i] == rows[i])
  {
    var k := FindIndex(rows, idOf, id);
    if k == -1 then rows else rows[k := update(rows[k])]
  }

  /** `rows.filter(item => item.id !== id)` */
  function RemoveById<T>(rows: seq<T>, idOf: T -> string, id: string): (r: seq<T>)
    ensures |r| <= |rows|
  {
    Filter(rows, OtherId(idOf, id))
  }

  function OtherId<T>(idOf: T -> string, id: string): T -> bool
  {
    x => idOf(x) != id
  }

  /** A row survives the removal exactly when it was there and has another id. */
  lemma RemoveByIdMember<T>(rows: seq<T>, idOf: T -> string, id: string, x: T)
    ensures x in RemoveById(rows, idOf, id) <==> x in rows && idOf(x) != id
  {
    FilterMember(rows, OtherId(idOf, id), x);
  }

  /** Removing an id that is not there changes nothing. */
  lemma {:induction false} RemoveAbsentId<T>(rows: seq<T>, idOf: T -> string, id: string)
    requires forall i :: 0 <= i < |rows| ==> idOf(rows[i]) != id
    ensures RemoveById(rows, idOf, id) == rows
    decreases |rows|
  {
    if rows != [] {
      RemoveAbsentId(rows[1..], idOf, id);
    }
  }
}

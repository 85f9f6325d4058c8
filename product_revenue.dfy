// Revenue per product (utils/chartdata/productRevenue.js): total_paid is added up per
// product description, then the products are ordered by that total, largest first, the
// first five kept and two zero fields attached.
module ProductRevenue {
  import opened Wrappers
  import opened Entities
  import opened ListPipeline
  import opened Tally

  /** The product descriptions of the commissions that have a product, in input order. */
  function Products(data: seq<Commission>): (s: seq<string>)
    ensures |s| <= |data|
  {
    if data == [] then []
    else
      var c := data[|data| - 1];
      Products(data[..|data| - 1]) + (if c.product.Some? then [c.product.value.description] else [])
  }

  /** The sum of total_paid over the commissions whose product has this description. */
  function Earned(data: seq<Commission>, product: string): real
  {
    if data == [] then 0.0
    else
      var c := data[|data| - 1];
      Earned(data[..|data| - 1], product) +
      (if c.product.Some? && c.product.value.description == product then c.totalPaid else 0.0)
  }

  /** A product no commission has earned nothing. */
  lemma {:induction false} EarnedAbsent(data: seq<Commission>, product: string)
    requires product !in Products(data)
    ensures Earned(data, product) == 0.0
    decreases |data|
  {
    if data != [] {
      var init := data[..|data| - 1];
      assert Products(init) <= Products(data);
      EarnedAbsent(init, product);
    }
  }

  datatype Entry = Entry(product: string, earned: real)

  /** The per-product totals in the order the products were first met. */
  function Entries(data: seq<Commission>): (r: seq<Entry>)
    ensures |r| == |Distinct(Products(data))|
    ensures forall j :: 0 <= j < |r| ==> r[j] == Entry(Distinct(Products(data))[j], Earned(data, Distinct(Products(data))[j]))
  {
    var keys := Distinct(Products(data));
    seq(|keys|, j requires 0 <= j < |keys| => Entry(keys[j], Earned(data, keys[j])))
  }

  function EarnedKey(e: Entry): real { -e.earned }

  /** `sort((a, b) => b[1] - a[1]).slice(0, 5)` */
  function TopFive(entries: seq<Entry>): seq<Entry>
  {
    JsSlice(SortBy(entries, EarnedKey), 0, 5)
  }

  /** At most five entries, largest total first, all taken from the input; every entry left
      out earned no more than any entry kept. */
  lemma TopFiveSpec(entries: seq<Entry>)
    ensures var r := TopFive(entries);
            |r| == (if |entries| < 5 then |entries| else 5) &&
            (forall i, j :: 0 <= i < j < |r| ==> r[i].earned >= r[j].earned) &&
            (forall x :: x in r ==> x in entries) &&
            (forall x :: x in entries && x !in r ==> forall j :: 0 <= j < |r| ==> r[j].earned >= x.earned)
  {
    var sorted := SortBy(entries, EarnedKey);
    var r := TopFive(entries);
    SortBySorted(entries, EarnedKey);
    assert r == sorted[..|r|];
    forall x | x in r ensures x in entries {
      SortByMember(entries, EarnedKey, x);
    }
    forall x | x in entries && x !in r ensures forall j :: 0 <= j < |r| ==> r[j].earned >= x.earned {
      SortByMember(entries, EarnedKey, x);
      var k :| 0 <= k < |sorted| && sorted[k] == x;
      assert forall m :: 0 <= m < |r| ==> r[m] == sorted[m];
      assert k >= |r|;
      forall j | 0 <= j < |r| ensures r[j].earned >= x.earned {
        assert EarnedKey(sorted[j]) <= EarnedKey(sorted[k]);
      }
    }
  }

  datatype Row = Row(product: string, earned: real, ignore: int, ignore2: int)

  function Decorate(e: Entry): Row
  {
    Row(e.product, e.earned, 0, 0)
  }

  /** `totals` and `keys` hold the per-product sums of `seen`, keys in first-met order. */
  ghost predicate Tallied(seen: seq<Commission>, totals: map<string, real>, keys: seq<string>)
  {
    keys == Distinct(Products(seen)) &&
    (forall k :: k in totals <==> k in keys) &&
    (forall k :: k in totals ==> totals[k] == Earned(seen, k))
  }

  /** Appending a commission appends its product, if any, and adds its payment to that
      product's sum. */
  lemma Snoc(seen: seq<Commission>, c: Commission)
    ensures Products(seen + [c]) == Products(seen) + (if c.product.Some? then [c.product.value.description] else [])
    ensures forall k :: Earned(seen + [c], k) ==
                        Earned(seen, k) + (if c.product.Some? && c.product.value.description == k then c.totalPaid else 0.0)
  {
    var all := seen + [c];
    assert all[..|seen|] == seen && all[|seen|] == c;
  }

  /** A commission without a product leaves the tally as it is. */
  lemma AddNoProduct(seen: seq<Commission>, c: Commission, totals: map<string, real>, keys: seq<string>)
    requires Tallied(seen, totals, keys) && c.product.None?
    ensures Tallied(seen + [c], totals, keys)
  {
    Snoc(seen, c);
    assert Products(seen + [c]) == Products(seen) + [];
    assert Products(seen) + [] == Products(seen);
  }

  /** A payment for a product already met is added to its sum; the keys stay. */
  lemma AddToKnown(seen: seq<Commission>, c: Commission, totals: map<string, real>, keys: seq<string>)
    requires Tallied(seen, totals, keys) && c.product.Some? && c.product.value.description in totals
    ensures var product := c.product.value.description;
            Tallied(seen + [c], totals[product := totals[product] + c.totalPaid], keys)
  {
    var product := c.product.value.description;
    Snoc(seen, c);
    DistinctSpec(Products(seen));
    DistinctSnoc(Products(seen), product);
    var after := totals[product := totals[product] + c.totalPaid];
    forall k | k in after
      ensures after[k] == Earned(seen + [c], k)
    {
    }
  }

  /** A payment for a new product starts its sum from zero and appends its key. */
  lemma AddToNew(seen: seq<Commission>, c: Commission, totals: map<string, real>, keys: seq<string>)
    requires Tallied(seen, totals, keys) && c.product.Some? && c.product.value.description !in totals
    ensures var product := c.product.value.description;
            var started := totals[product := 0.0];
            Tallied(seen + [c], started[product := started[product] + c.totalPaid], keys + [product])
  {
    var product := c.product.value.description;
    Snoc(seen, c);
    DistinctSpec(Products(seen));
    DistinctSnoc(Products(seen), product);
    EarnedAbsent(seen, product);
    var started := totals[product := 0.0];
    var after := started[product := started[product] + c.totalPaid];
    forall k | k in after
      ensures after[k] == Earned(seen + [c], k)
    {
    }
  }

  /** One pass of the `forEach`, as a function of the commissions seen so far: the running
      sums and the keys in the order the object received them. */
  function Running(seen: seq<Commission>): (map<string, real>, seq<string>)
    decreases |seen|
  {
    if seen == [] then (map[], [])
    else
      var (totals, keys) := Running(seen[..|seen| - 1]);
      var c := seen[|seen| - 1];
      if c.product.None? then (totals, keys)
      else
        var product := c.product.value.description;
        if product in totals then (totals[product := totals[product] + c.totalPaid], keys)
        else
          var started := totals[product := 0.0];
          (started[product := started[product] + c.totalPaid], keys + [product])
  }

  /** The running state after any prefix holds that prefix's per-product sums. */
  lemma {:induction false} RunningTallied(seen: seq<Commission>)
    ensures Tallied(seen, Running(seen).0, Running(seen).1)
    decreases |seen|
  {
    if seen == [] {
      assert Products(seen) == [];
    } else {
      var init, c := seen[..|seen| - 1], seen[|seen| - 1];
      assert seen == init + [c];
      RunningTallied(init);
      var (totals, keys) := Running(init);
      if c.product.None? {
        AddNoProduct(init, c, totals, keys);
      } else if c.product.value.description in totals {
        AddToKnown(init, c, totals, keys);
      } else {
        AddToNew(init, c, totals, keys);
      }
    }
  }

  /** `totalEarnedByProduct`: total_paid added up per product description, with its keys
      in insertion order. */
  method TotalEarnedByProduct(data: seq<Commission>) returns (totals: map<string, real>, keys: seq<string>)
    ensures Tallied(data, totals, keys)
  {
    totals, keys := map[], [];
    var i := 0;
    while i < |data|
      invariant 0 <= i <= |data|
      invariant (totals, keys) == Running(data[..i])
    {
      var c := data[i];
      assert data[..i + 1][..i] == data[..i];
      if c.product.Some? {
        var product := c.product.value.description;
        if product !in totals {
          keys := keys + [product];
          totals := totals[product := 0.0];
        }
        totals := totals[product := totals[product] + c.totalPaid];
      }
      i := i + 1;
    }
    assert data[..i] == data;
    RunningTallied(data);
  }

  /** `getTotalRevenueByProduct(initialData)` */
  method GetTotalRevenueByProduct(data: seq<Commission>) returns (rows: seq<Row>)
    ensures var top := TopFive(Entries(data));
            |rows| == |top| && forall j :: 0 <= j < |rows| ==> rows[j] == Decorate(top[j])
  {
    var totals, keys := TotalEarnedByProduct(data);
    var entries := seq(|keys|, j requires 0 <= j < |keys| => Entry(keys[j], totals[keys[j]]));
    assert entries == Entries(data);
    var top := TopFive(entries);
    rows := seq(|top|, j requires 0 <= j < |top| => Decorate(top[j]));
  }

  /** Commissions without a product add nothing to any total. */
  lemma NoProductChangesNothing(data: seq<Commission>, c: Commission, product: string)
    requires c.product.None?
    ensures Earned(data + [c], product) == Earned(data, product)
    ensures Products(data + [c]) == Products(data)
  {
    assert (data + [c])[..|data + [c]| - 1] == data;
  }
}

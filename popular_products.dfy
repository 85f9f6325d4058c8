// The "popular products" chart data (utils/chartdata/popularProductData.js): completed
// commissions with a product are counted per product description, then one slice per
// description is emitted with a colour cycling through a five-entry palette.
module PopularProducts {
  import opened Wrappers
  import opened Entities
  import opened Tally

  const Palette: seq<string> := ["cyan", "cyan.6", "primary.5", "indigo.5", "blue.3"]

  datatype Slice = Slice(value: int, color: string, name: string)

  predicate Counted(c: Commission)
  {
    c.status == "completed" && c.product.Some?
  }

  /** The descriptions of the counted commissions, in input order. */
  function Descriptions(data: seq<Commission>): (s: seq<string>)
    ensures |s| <= |data|
  {
    if data == [] then []
    else
      var c := data[|data| - 1];
      Descriptions(data[..|data| - 1]) + (if Counted(c) then [c.product.value.description] else [])
  }

  /** `completionCounts` after the commissions `seen`: the counts, and the keys in the order
      the object received them. */
  function Completions(seen: seq<Commission>): (map<string, int>, seq<string>)
    decreases |seen|
  {
    if seen == [] then (map[], [])
    else
      var (counts, keys) := Completions(seen[..|seen| - 1]);
      var c := seen[|seen| - 1];
      if !Counted(c) then (counts, keys)
      else
        var description := c.product.value.description;
        if description in counts then (counts[description := counts[description] + 1], keys)
        else (counts[description := 1], keys + [description])
  }

  /** `counts` and `keys` hold how often each description of `seen` was counted, keys in
      first-met order. */
  ghost predicate CountedBy(seen: seq<Commission>, counts: map<string, int>, keys: seq<string>)
  {
    keys == Distinct(Descriptions(seen)) &&
    (forall k :: k in counts <==> k in keys) &&
    (forall k :: k in counts ==> counts[k] == Count(Descriptions(seen), k))
  }

  lemma CountSnoc(s: seq<string>, d: string)
    ensures forall k :: Count(s + [d], k) == Count(s, k) + (if d == k then 1 else 0)
  {
    assert (s + [d])[..|s|] == s;
  }

  /** One more count of a description already met: its count goes up by one. */
  lemma CountKnown(before: seq<string>, d: string, counts: map<string, int>, keys: seq<string>)
    requires keys == Distinct(before) && (forall k :: k in counts <==> k in keys)
    requires forall k :: k in counts ==> counts[k] == Count(before, k)
    requires d in counts
    ensures keys == Distinct(before + [d])
    ensures forall k :: k in counts[d := counts[d] + 1] ==> counts[d := counts[d] + 1][k] == Count(before + [d], k)
  {
    CountSnoc(before, d);
    DistinctSpec(before);
    DistinctSnoc(before, d);
  }

  /** A description met for the first time: it counts one and its key is appended. */
  lemma CountNew(before: seq<string>, d: string, counts: map<string, int>, keys: seq<string>)
    requires keys == Distinct(before) && (forall k :: k in counts <==> k in keys)
    requires forall k :: k in counts ==> counts[k] == Count(before, k)
    requires d !in counts
    ensures keys + [d] == Distinct(before + [d])
    ensures forall k :: k in counts[d := 1] ==> counts[d := 1][k] == Count(before + [d], k)
  {
    CountSnoc(before, d);
    DistinctSpec(before);
    DistinctSnoc(before, d);
    CountAbsent(before, d);
  }

  /** The counts after any prefix are that prefix's counts. */
  lemma {:induction false} CompletionsCounted(seen: seq<Commission>)
    ensures CountedBy(seen, Completions(seen).0, Completions(seen).1)
    decreases |seen|
  {
    if seen == [] {
      assert Descriptions(seen) == [];
    } else {
      var init, c := seen[..|seen| - 1], seen[|seen| - 1];
      CompletionsCounted(init);
      var (counts, keys) := Completions(init);
      if Counted(c) {
        assert Descriptions(seen) == Descriptions(init) + [c.product.value.description];
        var d := c.product.value.description;
        if d in counts {
          CountKnown(Descriptions(init), d, counts, keys);
        } else {
          CountNew(Descriptions(init), d, counts, keys);
        }
      } else {
        assert Descriptions(seen) == Descriptions(init);
      }
    }
  }

  /** `popularProductData(data)` */
  method PopularProductData(data: seq<Commission>) returns (chart: seq<Slice>)
    ensures var names := Distinct(Descriptions(data));
            |chart| == |names| &&
            forall j :: 0 <= j < |chart| ==>
              chart[j] == Slice(Count(Descriptions(data), names[j]), Palette[j % 5], names[j])
  {
    // completionCounts, with its keys in insertion order
    var counts: map<string, int> := map[];
    var keys: seq<string> := [];
    var i := 0;
    while i < |data|
      invariant 0 <= i <= |data|
      invariant (counts, keys) == Completions(data[..i])
    {
      assert data[..i + 1][..i] == data[..i];
      var c := data[i];
      if c.status == "completed" && c.product.Some? {
        var description := c.product.value.description;
        if description !in counts {
          keys := keys + [description];
          counts := counts[description := 1];
        } else {
          counts := counts[description := counts[description] + 1];
        }
      }
      i := i + 1;
    }
    assert data[..i] == data;
    CompletionsCounted(data);
    chart := [];
    var colorIndex := 0;
    while colorIndex < |keys|
      invariant 0 <= colorIndex <= |keys|
      invariant |chart| == colorIndex
      invariant forall j :: 0 <= j < colorIndex ==>
                  chart[j] == Slice(Count(Descriptions(data), keys[j]), Palette[j % 5], keys[j])
    {
      var name := keys[colorIndex];
      chart := chart + [Slice(counts[name], Palette[colorIndex % |Palette|], name)];
      colorIndex := colorIndex + 1;
    }
  }

  /** One slice per distinct description, none twice, and every counted description has one. */
  lemma SlicesAreDistinct(data: seq<Commission>)
    ensures NoDuplicates(Distinct(Descriptions(data)))
    ensures forall k :: k in Distinct(Descriptions(data)) <==> k in Descriptions(data)
  {
    DistinctSpec(Descriptions(data));
  }

  /** The slice values add up to the number of completed commissions that have a product. */
  lemma ValuesSumToCompleted(data: seq<Commission>)
    ensures SumCounts(Distinct(Descriptions(data)), Descriptions(data)) == |Descriptions(data)|
  {
    CountsSumToLength(Descriptions(data));
  }

  /** A commission that is not completed, or has no product, changes no count. */
  lemma UncountedChangesNothing(data: seq<Commission>, c: Commission)
    requires !Counted(c)
    ensures Descriptions(data + [c]) == Descriptions(data)
  {
    assert (data + [c])[..|data + [c]| - 1] == data;
  }
}

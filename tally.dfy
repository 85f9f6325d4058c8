// Tallies keyed by string in the order JavaScript objects keep their keys: a key's place is
// where it was first inserted. Sequences are read from the back, the way a `forEach` that
// updates an object builds them one element at a time.
module Tally {
  /** The keys of `s` in first-occurrence order. */
  function Distinct(s: seq<string>): (d: seq<string>)
    ensures |d| <= |s|
  {
    if s == [] then []
    else
      var d := Distinct(s[..|s| - 1]);
      if s[|s| - 1] in d then d else d + [s[|s| - 1]]
  }

  predicate NoDuplicates(d: seq<string>)
  {
    forall i, j :: 0 <= i < j < |d| ==> d[i] != d[j]
  }

  /** Every key of `s` is listed, nothing else, and no key twice. */
  lemma {:induction false} DistinctSpec(s: seq<string>)
    ensures NoDuplicates(Distinct(s))
    ensures forall k :: k in Distinct(s) <==> k in s
    decreases |s|
  {
    if s != [] {
      var init := s[..|s| - 1];
      DistinctSpec(init);
      assert s == init + [s[|s| - 1]];
    }
  }

  /** A key met again leaves the list as it is; a new key is added at the end. */
  lemma DistinctSnoc(s: seq<string>, k: string)
    ensures Distinct(s + [k]) == if k in s then Distinct(s) else Distinct(s) + [k]
  {
    DistinctSpec(s);
    assert (s + [k])[..|s|] == s;
  }

  /** How often `k` occurs in `s`. */
  function Count(s: seq<string>, k: string): (n: nat)
    ensures n <= |s|
  {
    if s == [] then 0 else Count(s[..|s| - 1], k) + (if s[|s| - 1] == k then 1 else 0)
  }

  lemma {:induction false} CountAbsent(s: seq<string>, k: string)
    requires k !in s
    ensures Count(s, k) == 0
    decreases |s|
  {
    if s != [] {
      assert s[..|s| - 1] <= s;
      CountAbsent(s[..|s| - 1], k);
    }
  }

  /** The counts of the listed keys, added up. */
  function SumCounts(keys: seq<string>, s: seq<string>): int
  {
    if keys == [] then 0 else Count(s, keys[0]) + SumCounts(keys[1..], s)
  }

  lemma {:induction false} SumCountsAppend(a: seq<string>, b: seq<string>, s: seq<string>)
    ensures SumCounts(a + b, s) == SumCounts(a, s) + SumCounts(b, s)
    decreases |a|
  {
    if a == [] {
      assert a + b == b;
    } else {
      assert (a + b)[1..] == a[1..] + b;
      SumCountsAppend(a[1..], b, s);
    }
  }

  /** One more element `x` adds one to the sum exactly when `x` is a listed key. */
  lemma {:induction false} SumCountsStep(keys: seq<string>, s: seq<string>, x: string)
    requires NoDuplicates(keys)
    ensures SumCounts(keys, s + [x]) == SumCounts(keys, s) + (if x in keys then 1 else 0)
    decreases |keys|
  {
    if keys != [] {
      assert (s + [x])[..|s + [x]| - 1] == s;
      assert NoDuplicates(keys[1..]) by {
        forall i, j | 0 <= i < j < |keys[1..]| ensures keys[1..][i] != keys[1..][j] {
          assert keys[1..][i] == keys[i + 1] && keys[1..][j] == keys[j + 1];
        }
      }
      SumCountsStep(keys[1..], s, x);
      assert x in keys <==> x == keys[0] || x in keys[1..] by {
        assert keys == [keys[0]] + keys[1..];
      }
      if x == keys[0] {
        assert x !in keys[1..] by {
          forall j | 0 <= j < |keys[1..]| ensures keys[1..][j] != x {
            assert keys[1..][j] == keys[j + 1];
          }
        }
      }
    }
  }

  /** The counts of the distinct keys add up to the number of elements. */
  lemma {:induction false} CountsSumToLength(s: seq<string>)
    ensures SumCounts(Distinct(s), s) == |s|
    decreases |s|
  {
    if s != [] {
      var init, x := s[..|s| - 1], s[|s| - 1];
      assert s == init + [x];
      CountsSumToLength(init);
      DistinctSpec(init);
      var d := Distinct(init);
      SumCountsStep(d, init, x);
      if x !in d {
        SumCountsAppend(d, [x], s);
        CountAbsent(init, x);
        assert SumCounts([x], s) == Count(s, x) + SumCounts([], s);
      }
    }
  }
}

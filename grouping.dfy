/** Group-by arithmetic shared by the log analyses: a list of (key, amount)
    entries summed per key, and the per-key sums adding up to the grand
    total. */
module Grouping {

  function Total(vs: seq<int>): int
    decreases |vs|
  {
    if vs == [] then 0 else Total(vs[..|vs| - 1]) + vs[|vs| - 1]
  }

  /** The amounts of the entries with key k. */
  function SumFor(ks: seq<string>, vs: seq<int>, k: string): int
    requires |ks| == |vs|
    decreases |ks|
  {
    if ks == [] then 0
    else SumFor(ks[..|ks| - 1], vs[..|vs| - 1], k) + (if ks[|ks| - 1] == k then vs[|vs| - 1] else 0)
  }

  /** The distinct keys, in order of first appearance. */
  function Keys(ks: seq<string>): (r: seq<string>)
    ensures forall k :: k in r <==> k in ks
    ensures forall i, j | 0 <= i < j < |r| :: r[i] != r[j]
    decreases |ks|
  {
    if ks == [] then []
    else
      var prev := Keys(ks[..|ks| - 1]);
      assert forall k :: k in ks <==> k in ks[..|ks| - 1] || k == ks[|ks| - 1];
      if ks[|ks| - 1] in prev then prev else prev + [ks[|ks| - 1]]
  }

  /** The sum over the keys `keys` of each key's sum. */
  function SumOver(keys: seq<string>, ks: seq<string>, vs: seq<int>): int
    requires |ks| == |vs|
    decreases |keys|
  {
    if keys == [] then 0 else SumOver(keys[..|keys| - 1], ks, vs) + SumFor(ks, vs, keys[|keys| - 1])
  }

  /** One more entry adds its amount to the sum of every key list that holds
      its key once, and nothing to one that does not hold it. */
  lemma {:induction false} SumOverSnoc(keys: seq<string>, ks: seq<string>, vs: seq<int>, k: string, v: int)
    requires |ks| == |vs|
    requires forall i, j | 0 <= i < j < |keys| :: keys[i] != keys[j]
    ensures SumOver(keys, ks + [k], vs + [v]) == SumOver(keys, ks, vs) + (if k in keys then v else 0)
    decreases |keys|
  {
    if keys != [] {
      var init := keys[..|keys| - 1];
      assert (ks + [k])[..|ks|] == ks && (vs + [v])[..|vs|] == vs;
      SumOverSnoc(init, ks, vs, k, v);
      assert k in keys <==> k in init || k == keys[|keys| - 1];
      assert keys[|keys| - 1] !in init;
    }
  }

  /** Extending a prefix of the entries by one adds that entry's amount to its
      key's sum and leaves the other keys' sums alone. */
  lemma SumForPrefix(ks: seq<string>, vs: seq<int>, i: nat)
    requires i < |ks| == |vs|
    ensures forall k :: SumFor(ks[..i + 1], vs[..i + 1], k) == SumFor(ks[..i], vs[..i], k) + (if ks[i] == k then vs[i] else 0)
  {
    assert ks[..i + 1][..i] == ks[..i] && vs[..i + 1][..i] == vs[..i];
  }

  /** The per-key sums after the first i entries. */
  function SumsTo(ks: seq<string>, vs: seq<int>, i: nat): map<string, int>
    requires i <= |ks| == |vs|
  {
    map k | k in ks[..i] :: SumFor(ks[..i], vs[..i], k)
  }

  /** Adding the i-th entry's amount to its key's running sum (0 when the key
      is new) gives the sums after i + 1 entries. */
  lemma SumsStep(ks: seq<string>, vs: seq<int>, i: nat)
    requires i < |ks| == |vs|
    ensures var m := SumsTo(ks, vs, i);
      SumsTo(ks, vs, i + 1) == m[ks[i] := (if ks[i] in m then m[ks[i]] else 0) + vs[i]]
  {
    SumForPrefix(ks, vs, i);
    assert ks[..i + 1] == ks[..i] + [ks[i]];
    if ks[i] !in ks[..i] {
      SumOverAbsent([], ks[..i], vs[..i], ks[i]);
    }
  }

  lemma {:induction false} SumOverAbsent(keys: seq<string>, ks: seq<string>, vs: seq<int>, k: string)
    requires |ks| == |vs| && k !in ks
    ensures SumFor(ks, vs, k) == 0
    decreases |ks|
  {
    if ks != [] {
      SumOverAbsent(keys, ks[..|ks| - 1], vs[..|vs| - 1], k);
    }
  }

  /** Summing each key's amounts over the distinct keys gives the grand
      total: a group-by loses and duplicates nothing. */
  lemma {:induction false} SumByKey(ks: seq<string>, vs: seq<int>)
    requires |ks| == |vs|
    ensures SumOver(Keys(ks), ks, vs) == Total(vs)
    decreases |ks|
  {
    if ks != [] {
      var ks', vs' := ks[..|ks| - 1], vs[..|vs| - 1];
      var k, v := ks[|ks| - 1], vs[|vs| - 1];
      assert ks == ks' + [k] && vs == vs' + [v];
      SumByKey(ks', vs');
      var prev := Keys(ks');
      SumOverSnoc(prev, ks', vs', k, v);
      assert SumOver(prev, ks, vs) == Total(vs') + (if k in prev then v else 0);
      if k !in prev {
        assert Keys(ks) == prev + [k];
        assert (prev + [k])[..|prev|] == prev;
        assert SumOver(Keys(ks), ks, vs) == SumOver(prev, ks, vs) + SumFor(ks, vs, k);
        SumOverAbsent(prev, ks', vs', k);
        assert SumFor(ks, vs, k) == SumFor(ks', vs', k) + v;
      }
    }
  }

  /** How many entries have key k. */
  function Count(ks: seq<string>, k: string): (c: nat)
    ensures c <= |ks|
    decreases |ks|
  {
    if ks == [] then 0 else Count(ks[..|ks| - 1], k) + (if ks[|ks| - 1] == k then 1 else 0)
  }

  function Ones(n: nat): (r: seq<int>)
    ensures |r| == n && forall i | 0 <= i < n :: r[i] == 1
  {
    seq(n, _ => 1)
  }

  lemma {:induction false} CountIsSumOfOnes(ks: seq<string>, k: string)
    ensures SumFor(ks, Ones(|ks|), k) == Count(ks, k)
    decreases |ks|
  {
    if ks != [] {
      assert Ones(|ks|)[..|ks| - 1] == Ones(|ks| - 1);
      CountIsSumOfOnes(ks[..|ks| - 1], k);
    }
  }

  lemma {:induction false} TotalOnes(n: nat)
    ensures Total(Ones(n)) == n
  {
    if n > 0 {
      assert Ones(n)[..n - 1] == Ones(n - 1);
      TotalOnes(n - 1);
    }
  }

  function CountOver(keys: seq<string>, ks: seq<string>): int
    decreases |keys|
  {
    if keys == [] then 0 else CountOver(keys[..|keys| - 1], ks) + Count(ks, keys[|keys| - 1])
  }

  /** The group sizes add up to the number of entries. */
  lemma {:induction false} CountsAddUp(ks: seq<string>)
    ensures CountOver(Keys(ks), ks) == |ks|
  {
    SumByKey(ks, Ones(|ks|));
    TotalOnes(|ks|);
    CountOverIsSumOver(Keys(ks), ks);
  }

  lemma {:induction false} CountOverIsSumOver(keys: seq<string>, ks: seq<string>)
    ensures CountOver(keys, ks) == SumOver(keys, ks, Ones(|ks|))
    decreases |keys|
  {
    if keys != [] {
      CountOverIsSumOver(keys[..|keys| - 1], ks);
      CountIsSumOfOnes(ks, keys[|keys| - 1]);
    }
  }
}

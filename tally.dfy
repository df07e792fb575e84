/** Keyed running sums: the specification of a `defaultdict(int)` that a
    loop fills with `d[k] += v`, one contribution `(k, v)` at a time. */
module Tally {

  /** The `d[k] += v` upsert of a `defaultdict(int)`. */
  function Upsert<K(==)>(m: map<K, int>, k: K, v: int): (r: map<K, int>)
    ensures r.Keys == m.Keys + {k}
    ensures r[k] == (if k in m then m[k] else 0) + v
    ensures forall j | j in m && j != k :: r[j] == m[j]
  {
    m[k := (if k in m then m[k] else 0) + v]
  }

  /** The keys that the contributions `xs` insert. */
  function Keys<K(==)>(xs: seq<(K, int)>): set<K>
  {
    if xs == [] then {} else Keys(xs[..|xs| - 1]) + {xs[|xs| - 1].0}
  }

  /** The sum of the contributions made under key `k`. */
  function SumFor<K(==)>(xs: seq<(K, int)>, k: K): int
  {
    if xs == [] then 0
    else SumFor(xs[..|xs| - 1], k) + (if xs[|xs| - 1].0 == k then xs[|xs| - 1].1 else 0)
  }

  /** The sum of all contributions. */
  function Total<K(==)>(xs: seq<(K, int)>): int
  {
    if xs == [] then 0 else Total(xs[..|xs| - 1]) + xs[|xs| - 1].1
  }

  /** The keys in order of first insertion (the iteration order of a dict). */
  function Order<K(==)>(xs: seq<(K, int)>): (ks: seq<K>)
    ensures Distinct(ks)
    ensures forall k | k in ks :: k in Keys(xs)
    ensures forall k | k in Keys(xs) :: k in ks
  {
    if xs == [] then []
    else
      var prev := Order(xs[..|xs| - 1]);
      if xs[|xs| - 1].0 in prev then prev else prev + [xs[|xs| - 1].0]
  }

  predicate Distinct<K(==)>(ks: seq<K>) {
    forall i, j | 0 <= i < j < |ks| :: ks[i] != ks[j]
  }

  /** The sum of `m[k]` over the keys listed in `ks`. */
  function SumOver<K(==)>(m: map<K, int>, ks: seq<K>): int
    requires forall k | k in ks :: k in m
  {
    if ks == [] then 0 else m[ks[0]] + SumOver(m, ks[1..])
  }

  /** The sum of the per-key sums over the keys listed in `ks`. */
  function SumOfSums<K(==)>(xs: seq<(K, int)>, ks: seq<K>): int
  {
    if ks == [] then 0 else SumFor(xs, ks[0]) + SumOfSums(xs, ks[1..])
  }

  lemma AppendOne<K>(xs: seq<(K, int)>, x: (K, int), k: K)
    ensures (xs + [x])[..|xs|] == xs
    ensures Keys(xs + [x]) == Keys(xs) + {x.0}
    ensures SumFor(xs + [x], k) == SumFor(xs, k) + (if x.0 == k then x.1 else 0)
    ensures Total(xs + [x]) == Total(xs) + x.1
    ensures Order(xs + [x]) == if x.0 in Order(xs) then Order(xs) else Order(xs) + [x.0]
  {
    assert (xs + [x])[..|xs|] == xs;
  }

  /** `m` is the accumulator after the contributions `xs`: it holds a key
      exactly when some contribution used it, with that key's sum. */
  predicate Accumulates<K(==)>(m: map<K, int>, xs: seq<(K, int)>) {
    && m.Keys == Keys(xs)
    && forall k | k in m :: m[k] == SumFor(xs, k)
  }

  /** `d[k] += v` keeps the accumulator in step with one more contribution,
      and appends `k` to the insertion order exactly when it is new. */
  lemma UpsertStep<K>(m: map<K, int>, xs: seq<(K, int)>, k: K, v: int)
    requires Accumulates(m, xs)
    ensures Accumulates(Upsert(m, k, v), xs + [(k, v)])
    ensures Order(xs + [(k, v)]) == if k in m then Order(xs) else Order(xs) + [k]
  {
    var r := Upsert(m, k, v);
    AppendOne(xs, (k, v), k);
    forall j | j in r ensures r[j] == SumFor(xs + [(k, v)], j) {
      AppendOne(xs, (k, v), j);
      if j == k && k !in m {
        SumForAbsent(xs, k);
      }
    }
  }

  /** A key that no contribution mentions sums to zero. */
  lemma {:induction false} SumForAbsent<K>(xs: seq<(K, int)>, k: K)
    requires k !in Keys(xs)
    ensures SumFor(xs, k) == 0
  {
    if xs != [] {
      SumForAbsent(xs[..|xs| - 1], k);
    }
  }

  /** Adding one contribution under `k` raises the per-key sums over a list
      of distinct keys by its value exactly once if `k` is listed. */
  lemma {:induction false} SumOfSumsAppend<K>(xs: seq<(K, int)>, x: (K, int), ks: seq<K>)
    requires Distinct(ks)
    ensures SumOfSums(xs + [x], ks) == SumOfSums(xs, ks) + (if x.0 in ks then x.1 else 0)
  {
    if ks != [] {
      AppendOne(xs, x, ks[0]);
      assert Distinct(ks[1..]) by {
        forall i, j | 0 <= i < j < |ks[1..]| ensures ks[1..][i] != ks[1..][j] {
          assert ks[1..][i] == ks[i + 1] && ks[1..][j] == ks[j + 1];
        }
      }
      SumOfSumsAppend(xs, x, ks[1..]);
      assert x.0 in ks <==> x.0 == ks[0] || x.0 in ks[1..] by {
        assert ks == [ks[0]] + ks[1..];
      }
    }
  }

  /** Conservation: summing the per-key totals over every key, each listed
      once, gives the sum of all contributions. */
  lemma {:induction false} Conservation<K>(xs: seq<(K, int)>, ks: seq<K>)
    requires Distinct(ks)
    requires forall k | k in Keys(xs) :: k in ks
    ensures SumOfSums(xs, ks) == Total(xs)
  {
    if xs == [] {
      ZeroSums(ks);
    } else {
      var init, x := xs[..|xs| - 1], xs[|xs| - 1];
      assert xs == init + [x];
      AppendOne(init, x, x.0);
      Conservation(init, ks);
      SumOfSumsAppend(init, x, ks);
    }
  }

  lemma {:induction false} ZeroSums<K>(ks: seq<K>)
    ensures SumOfSums([], ks) == 0
  {
    if ks != [] {
      ZeroSums(ks[1..]);
    }
  }

  /** A map that agrees with the per-key sums on the listed keys adds up to
      the same total. */
  lemma {:induction false} SumOverSums<K>(m: map<K, int>, xs: seq<(K, int)>, ks: seq<K>)
    requires forall k | k in ks :: k in m && m[k] == SumFor(xs, k)
    ensures SumOver(m, ks) == SumOfSums(xs, ks)
  {
    if ks != [] {
      SumOverSums(m, xs, ks[1..]);
    }
  }

  /** A list without repeats has as many elements as its set. */
  lemma {:induction false} DistinctCount<T>(s: seq<T>)
    requires Distinct(s)
    ensures |set x | x in s| == |s|
  {
    if s != [] {
      var init := s[..|s| - 1];
      DistinctCount(init);
      assert s == init + [s[|s| - 1]];
      assert s[|s| - 1] !in init;
      assert (set x | x in s) == (set x | x in init) + {s[|s| - 1]};
    }
  }
}

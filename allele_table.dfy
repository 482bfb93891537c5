/** The phaser's observation table (allele_map, a std::map from allele string
    to read count) and the selection of its two most frequent alleles.
    A std::map is ordered: the table keeps its keys in the map's iteration
    order, ascending in the lexicographic order of std::string. */
module AlleleTable {

  // ---------------------------------------------------------------------------
  // The key order of std::map<std::string, int>

  /** Strict lexicographic order on strings, character by character, a proper
      prefix first. */
  predicate LexLess(a: string, b: string)
    decreases |a|
  {
    if |a| == 0 then |b| > 0
    else if |b| == 0 then false
    else if a[0] != b[0] then a[0] < b[0]
    else LexLess(a[1..], b[1..])
  }

  lemma {:induction false} LexIrreflexive(a: string)
    ensures !LexLess(a, a)
    decreases |a|
  {
    if |a| > 0 { LexIrreflexive(a[1..]); }
  }

  lemma {:induction false} LexTransitive(a: string, b: string, c: string)
    requires LexLess(a, b) && LexLess(b, c)
    ensures LexLess(a, c)
    decreases |a|
  {
    if |a| > 0 && a[0] == b[0] && b[0] == c[0] {
      LexTransitive(a[1..], b[1..], c[1..]);
    }
  }

  lemma {:induction false} LexTotal(a: string, b: string)
    requires a != b
    ensures LexLess(a, b) || LexLess(b, a)
    decreases |a|
  {
    if |a| > 0 && |b| > 0 && a[0] == b[0] {
      assert a == [a[0]] + a[1..] && b == [b[0]] + b[1..];
      LexTotal(a[1..], b[1..]);
    }
  }

  predicate Sorted(s: seq<string>) {
    forall i, j :: 0 <= i < j < |s| ==> LexLess(s[i], s[j])
  }

  /** Where std::map places a new key: before the first greater key. */
  function InsertSorted(s: seq<string>, k: string): (r: seq<string>)
    ensures |r| == |s| + 1
    ensures forall x :: x in r <==> x in s || x == k
    decreases |s|
  {
    if s == [] then [k]
    else if LexLess(k, s[0]) then [k] + s
    else [s[0]] + InsertSorted(s[1..], k)
  }

  lemma {:induction false} InsertKeepsSorted(s: seq<string>, k: string)
    requires Sorted(s) && k !in s
    ensures Sorted(InsertSorted(s, k))
    decreases |s|
  {
    if s == [] {
    } else if LexLess(k, s[0]) {
      var r := [k] + s;
      forall i, j | 0 <= i < j < |r| ensures LexLess(r[i], r[j]) {
        if i == 0 {
          if j > 1 { LexTransitive(k, s[0], s[j - 1]); }
        } else {
          assert r[i] == s[i - 1] && r[j] == s[j - 1];
        }
      }
    } else {
      assert k != s[0];
      LexTotal(k, s[0]);
      InsertKeepsSorted(s[1..], k);
      var tail := InsertSorted(s[1..], k);
      var r := [s[0]] + tail;
      forall i, j | 0 <= i < j < |r| ensures LexLess(r[i], r[j]) {
        if i == 0 {
          assert r[j] in tail;
          if r[j] != k {
            assert r[j] in s[1..];
            var m :| 0 <= m < |s[1..]| && s[1..][m] == r[j];
            assert s[m + 1] == r[j];
          }
        } else {
          assert r[i] == tail[i - 1] && r[j] == tail[j - 1];
        }
      }
    }
  }

  // ---------------------------------------------------------------------------
  // The table

  /** The count stored for a key, 0 for a key the map does not hold. */
  function Get(counts: map<string, nat>, k: string): nat {
    if k in counts then counts[k] else 0
  }

  /** The sum of the counts over a list of keys. */
  function SumOver(keys: seq<string>, counts: map<string, nat>): nat
    decreases |keys|
  {
    if keys == [] then 0 else Get(counts, keys[0]) + SumOver(keys[1..], counts)
  }

  lemma {:induction false} SumOverFrame(keys: seq<string>, counts: map<string, nat>, k: string, v: nat)
    requires k !in keys
    ensures SumOver(keys, counts[k := v]) == SumOver(keys, counts)
    decreases |keys|
  {
    if keys != [] {
      assert keys[0] != k;
      SumOverFrame(keys[1..], counts, k, v);
    }
  }

  lemma {:induction false} SumOverInsert(keys: seq<string>, counts: map<string, nat>, k: string)
    ensures SumOver(InsertSorted(keys, k), counts) == SumOver(keys, counts) + Get(counts, k)
    decreases |keys|
  {
    if keys != [] && !LexLess(k, keys[0]) {
      SumOverInsert(keys[1..], counts, k);
      assert InsertSorted(keys, k)[1..] == InsertSorted(keys[1..], k);
    } else if keys != [] {
      assert ([k] + keys)[1..] == keys;
    }
  }

  /** Adding one to a key that occurs exactly once in the list adds one to the sum. */
  lemma {:induction false} SumOverBump(keys: seq<string>, counts: map<string, nat>, k: string)
    requires k in keys
    requires forall i, j :: 0 <= i < j < |keys| ==> keys[i] != keys[j]
    ensures SumOver(keys, counts[k := Get(counts, k) + 1]) == SumOver(keys, counts) + 1
    decreases |keys|
  {
    if keys[0] == k {
      assert k !in keys[1..];
      SumOverFrame(keys[1..], counts, k, Get(counts, k) + 1);
    } else {
      SumOverBump(keys[1..], counts, k);
    }
  }

  datatype Table = Table(counts: map<string, nat>, order: seq<string>)
  {
    /** The keys are kept in std::map order and are exactly the map's keys. */
    ghost predicate Valid() {
      && Sorted(order)
      && (forall k :: k in counts <==> k in order)
    }

    /** The count of an allele; 0 for one never observed. */
    function Count(k: string): nat {
      Get(counts, k)
    }

    /** The number of reads the table holds. */
    function Total(): nat {
      SumOver(order, counts)
    }

    /** observations[k]++: a missing key is created at 0 first. */
    function Increment(k: string): (r: Table)
      requires Valid()
      ensures r.Valid()
      ensures r.Count(k) == Count(k) + 1
      ensures forall x :: x != k ==> r.Count(x) == Count(x)
      ensures r.Total() == Total() + 1
    {
      if k in counts then
        var r := Table(counts[k := counts[k] + 1], order);
        assert forall i, j :: 0 <= i < j < |order| ==> order[i] != order[j] by {
          forall i, j | 0 <= i < j < |order| ensures order[i] != order[j] {
            if order[i] == order[j] { LexIrreflexive(order[i]); }
          }
        }
        SumOverBump(order, counts, k);
        r
      else
        var r := Table(counts[k := 1], InsertSorted(order, k));
        InsertKeepsSorted(order, k);
        SumOverInsert(order, counts[k := 1], k);
        SumOverFrame(order, counts, k, 1);
        r
    }

    /** A read of observations[k] through operator[]: it creates the key at 0
        when it is missing, and changes no count. */
    function Touch(k: string): (r: Table)
      requires Valid()
      ensures r.Valid()
      ensures k in r.counts
    {
      if k in counts then this
      else
        InsertKeepsSorted(order, k);
        Table(counts[k := 0], InsertSorted(order, k))
    }
  }

  /** Touching a key changes no count and so not the total. */
  lemma TouchKeepsCounts(t: Table, k: string)
    requires t.Valid()
    ensures forall x :: t.Touch(k).Count(x) == t.Count(x)
    ensures t.Touch(k).Total() == t.Total()
  {
    if k !in t.counts {
      InsertKeepsSorted(t.order, k);
      SumOverInsert(t.order, t.counts[k := 0], k);
      SumOverFrame(t.order, t.counts, k, 0);
    }
  }

  /** observations.clear() */
  function EmptyTable(): (r: Table)
    ensures r.Valid() && r.Total() == 0
    ensures forall x :: r.Count(x) == 0
  {
    Table(map[], [])
  }

  /** A table holding reads has an allele seen at least once. */
  lemma {:induction false} PositiveTotalHasAllele(keys: seq<string>, counts: map<string, nat>)
    requires SumOver(keys, counts) > 0
    ensures exists i :: 0 <= i < |keys| && Get(counts, keys[i]) > 0
    decreases |keys|
  {
    if Get(counts, keys[0]) == 0 {
      PositiveTotalHasAllele(keys[1..], counts);
      var i :| 0 <= i < |keys[1..]| && Get(counts, keys[1..][i]) > 0;
      assert keys[i + 1] == keys[1..][i];
    }
  }

  // ---------------------------------------------------------------------------
  // The two most frequent alleles

  /** One of the two slots of max_alleles. */
  datatype AlleleCount = AlleleCount(allele: string, count: nat)

  /** The initial value of both slots. */
  const NoAllele := AlleleCount("N", 0)

  /** One iteration of the ranking loop: a count above the leader's demotes the
      leader to second place; then a count above the runner-up's, for a key
      other than the leader, becomes the runner-up. Both tests are strict, so
      of two equal counts the one met first keeps its place. */
  function RankStep(top: (AlleleCount, AlleleCount), k: string, c: nat): (AlleleCount, AlleleCount) {
    var (m0, m1) := if c > top.0.count then (AlleleCount(k, c), top.0) else top;
    if c > m1.count && m0.allele != k then (m0, AlleleCount(k, c)) else (m0, m1)
  }

  /** The two slots after the loop has visited the given keys in order. */
  function TopTwoOf(keys: seq<string>, counts: map<string, nat>): (AlleleCount, AlleleCount)
    decreases |keys|
  {
    if keys == [] then (NoAllele, NoAllele)
    else
      var n := |keys| - 1;
      RankStep(TopTwoOf(keys[..n], counts), keys[n], Get(counts, keys[n]))
  }

  predicate Distinct(keys: seq<string>) {
    forall i, j :: 0 <= i < j < |keys| ==> keys[i] != keys[j]
  }

  /** What the ranking loop computes over keys visited in a given order:
      the leader is the first key with the largest count, and the runner-up
      the first key with the largest count among the others. A slot left at
      count 0 still holds the initial ("N", 0). */
  ghost predicate IsTopTwo(keys: seq<string>, counts: map<string, nat>, first: AlleleCount, second: AlleleCount) {
    && (forall i :: 0 <= i < |keys| ==> Get(counts, keys[i]) <= first.count)
    && second.count <= first.count
    && (forall i :: 0 <= i < |keys| && keys[i] != first.allele ==> Get(counts, keys[i]) <= second.count)
    && (first.count == 0 ==> first == NoAllele)
    && (second.count == 0 ==> second == NoAllele)
    && (first.count > 0 ==> first.allele in keys && Get(counts, first.allele) == first.count)
    && (second.count > 0 ==>
          second.allele in keys && second.allele != first.allele && Get(counts, second.allele) == second.count)
    && (first.count > 0 ==>
          forall i, j :: 0 <= i < j < |keys| && keys[j] == first.allele ==> Get(counts, keys[i]) < first.count)
    && (second.count > 0 ==>
          forall i, j :: 0 <= i < j < |keys| && keys[j] == second.allele && keys[i] != first.allele
            ==> Get(counts, keys[i]) < second.count)
  }

  lemma {:induction false} TopTwoCorrect(keys: seq<string>, counts: map<string, nat>)
    requires Distinct(keys)
    ensures IsTopTwo(keys, counts, TopTwoOf(keys, counts).0, TopTwoOf(keys, counts).1)
    decreases |keys|
  {
    if keys != [] {
      var n := |keys| - 1;
      var p := keys[..n];
      var k := keys[n];
      var c := Get(counts, k);
      assert Distinct(p);
      TopTwoCorrect(p, counts);
      var (f0, s0) := TopTwoOf(p, counts);
      var (f, s) := TopTwoOf(keys, counts);
      assert keys == p + [k];
      assert k !in p;
      assert forall i :: 0 <= i < n ==> keys[i] == p[i];
      TopTwoStep(p, k, counts, f0, s0, f, s);
    }
  }

  lemma TopTwoStep(p: seq<string>, k: string, counts: map<string, nat>,
                   f0: AlleleCount, s0: AlleleCount, f: AlleleCount, s: AlleleCount)
    requires k !in p
    requires IsTopTwo(p, counts, f0, s0)
    requires (f, s) == RankStep((f0, s0), k, Get(counts, k))
    ensures IsTopTwo(p + [k], counts, f, s)
  {
  }

  /** The ranking over a table in map order: the keys are distinct, so
      IsTopTwo holds; no count exceeds the leader's, and a table holding reads
      has a leader it actually holds. */
  lemma TableTopTwo(t: Table)
    requires t.Valid()
    ensures IsTopTwo(t.order, t.counts, TopTwoOf(t.order, t.counts).0, TopTwoOf(t.order, t.counts).1)
    ensures forall k :: k in t.counts ==> t.counts[k] <= TopTwoOf(t.order, t.counts).0.count
    ensures t.Total() > 0 ==>
              TopTwoOf(t.order, t.counts).0.count > 0 && TopTwoOf(t.order, t.counts).0.allele in t.counts
  {
    var (first, second) := TopTwoOf(t.order, t.counts);
    assert Distinct(t.order) by {
      forall i, j | 0 <= i < j < |t.order| ensures t.order[i] != t.order[j] {
        if t.order[i] == t.order[j] { LexIrreflexive(t.order[i]); }
      }
    }
    TopTwoCorrect(t.order, t.counts);
    if t.Total() > 0 {
      PositiveTotalHasAllele(t.order, t.counts);
    }
    forall k | k in t.counts ensures t.counts[k] <= first.count {
      var m :| 0 <= m < |t.order| && t.order[m] == k;
    }
  }

  /** The ranking loop of create_phased_record over the table in map order
      (TableTopTwo states what the ranking it computes satisfies). */
  method TopTwo(t: Table) returns (first: AlleleCount, second: AlleleCount)
    ensures (first, second) == TopTwoOf(t.order, t.counts)
  {
    first, second := NoAllele, NoAllele;
    var i := 0;
    while i < |t.order|
      invariant 0 <= i <= |t.order|
      invariant (first, second) == TopTwoOf(t.order[..i], t.counts)
    {
      var k := t.order[i];
      var c := t.Count(k);
      assert t.order[..i + 1][..i] == t.order[..i];
      if c > first.count {
        second := first;
        first := AlleleCount(k, c);
      }
      if c > second.count && first.allele != k {
        second := AlleleCount(k, c);
      }
      i := i + 1;
    }
    assert t.order[..|t.order|] == t.order;
  }
}

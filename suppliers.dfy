/** `find_alternative_suppliers`: keep the suppliers of a product outside the
    excluded regions, score them, sort them by descending score (stably), number
    them 1..n and report the first five together with the full count.
    The supplier table is a parameter; the table the tool hard-codes is
    `SimulatedSuppliers`. */
module SupplierRanking {
  import opened Text
  import RouteLookup

  datatype Supplier = Supplier(
    name: string,
    region: string,
    product: string,
    riskScore: int,
    costDelta: int,
    leadTime: int,
    capacity: int)

  /** A supplier record once the tool has written its `score` and, later, its `rank`
      (0 until ranked). */
  datatype Candidate = Candidate(supplier: Supplier, score: int, rank: nat)

  /** The tool's result. */
  datatype Alternatives = Alternatives(
    product: string,
    excludedRegions: seq<string>,
    alternatives: seq<Candidate>,
    count: nat)

  /** How many ranked candidates the tool reports. */
  const TopCount: nat := 5

  /** The composite score, lower risk + lower cost + higher capacity with weights
      0.4, 0.3 and 0.3, scaled by ten so that it is an exact integer. */
  function CompositeScore(s: Supplier): int
  {
    4 * (100 - s.riskScore) + 3 * (100 - s.costDelta) + 3 * s.capacity
  }

  /** The composite score is ten times the tool's weighted sum, exactly. */
  lemma CompositeScoreScaled(s: Supplier)
    ensures CompositeScore(s) as real
            == 10.0 * ((100 - s.riskScore) as real * 0.4 + (100 - s.costDelta) as real * 0.3
                       + s.capacity as real * 0.3)
  {
  }

  /** `[r.lower() for r in exclude_regions]`. */
  function LowerAll(xs: seq<string>): (r: seq<string>)
    ensures |r| == |xs| && forall i :: 0 <= i < |xs| ==> r[i] == Lower(xs[i])
  {
    seq(|xs|, i requires 0 <= i < |xs| => Lower(xs[i]))
  }

  /** Some lower-cased exclusion occurs in the lower-cased region. */
  predicate Excluded(region: string, excludeLower: seq<string>)
  {
    exists e :: e in excludeLower && Contains(Lower(region), e)
  }

  /** The comprehension's condition: the product matches case-insensitively and the region is not excluded. */
  predicate Eligible(s: Supplier, product: string, excludeLower: seq<string>)
  {
    Contains(Lower(s.product), Lower(product)) && !Excluded(s.region, excludeLower)
  }

  /** The comprehension: the eligible suppliers in table order. */
  function FilterCandidates(db: seq<Supplier>, product: string, excludeLower: seq<string>): seq<Supplier>
  {
    if db == [] then []
    else
      FilterCandidates(db[..|db| - 1], product, excludeLower)
      + (if Eligible(db[|db| - 1], product, excludeLower) then [db[|db| - 1]] else [])
  }

  /** A supplier is a candidate exactly when it is in the table and eligible. */
  lemma {:induction false} FilterMembers(db: seq<Supplier>, product: string, excludeLower: seq<string>, s: Supplier)
    ensures s in FilterCandidates(db, product, excludeLower) <==> s in db && Eligible(s, product, excludeLower)
  {
    if db != [] {
      FilterMembers(db[..|db| - 1], product, excludeLower, s);
      assert db == db[..|db| - 1] + [db[|db| - 1]];
    }
  }

  /** The candidates keep the table's order. */
  lemma {:induction false} FilterInTableOrder(db: seq<Supplier>, product: string, excludeLower: seq<string>)
    ensures RouteLookup.IsSubsequence(FilterCandidates(db, product, excludeLower), db)
  {
    if db != [] {
      var init := db[..|db| - 1];
      var last := db[|db| - 1];
      FilterInTableOrder(init, product, excludeLower);
      assert db == init + [last];
      var f := FilterCandidates(init, product, excludeLower);
      if Eligible(last, product, excludeLower) {
        RouteLookup.SubsequenceAppendBoth(f, init, last);
      } else {
        RouteLookup.SubsequenceExtend(f, init, [last]);
        assert f + [] == f;
      }
    }
  }

  /** With no excluded regions, only the product filter applies. */
  lemma NoExclusionsFiltersOnProduct(db: seq<Supplier>, product: string, s: Supplier)
    ensures s in FilterCandidates(db, product, LowerAll([])) <==>
              s in db && Contains(Lower(s.product), Lower(product))
  {
    FilterMembers(db, product, LowerAll([]), s);
  }

  /** Each candidate with the score the first loop writes into it. */
  function Scored(s: seq<Supplier>): (r: seq<Candidate>)
    ensures |r| == |s|
    ensures forall i :: 0 <= i < |s| ==> r[i] == Candidate(s[i], CompositeScore(s[i]), 0)
  {
    seq(|s|, i requires 0 <= i < |s| => Candidate(s[i], CompositeScore(s[i]), 0))
  }

  /** Scores never increase along `s`. */
  predicate SortedDesc(s: seq<Candidate>)
  {
    forall i, j :: 0 <= i < j < |s| ==> s[i].score >= s[j].score
  }

  /** Inserts `x` after every element whose score is at least its own:
      equal scores keep their order of arrival. */
  function Insert(s: seq<Candidate>, x: Candidate): seq<Candidate>
  {
    if s == [] then [x]
    else if s[0].score >= x.score then [s[0]] + Insert(s[1..], x)
    else [x] + s
  }

  /** The stable sort by descending score, as insertion from left to right:
      the specification of the in-place sort. */
  function SortDesc(s: seq<Candidate>): seq<Candidate>
  {
    if s == [] then [] else Insert(SortDesc(s[..|s| - 1]), s[|s| - 1])
  }

  /** The elements of `s` with score `v`, in order. */
  function WithScore(s: seq<Candidate>, v: int): seq<Candidate>
  {
    if s == [] then []
    else (if s[0].score == v then [s[0]] else []) + WithScore(s[1..], v)
  }

  lemma {:induction false} InsertPermutes(s: seq<Candidate>, x: Candidate)
    ensures multiset(Insert(s, x)) == multiset(s) + multiset{x}
    ensures |Insert(s, x)| == |s| + 1
  {
    if s != [] && s[0].score >= x.score {
      InsertPermutes(s[1..], x);
      assert s == [s[0]] + s[1..];
    }
  }

  /** The suppliers of the candidates, in order. */
  function Suppliers(s: seq<Candidate>): seq<Supplier>
  {
    seq(|s|, i requires 0 <= i < |s| => s[i].supplier)
  }

  lemma {:induction false} InsertKeepsSuppliers(s: seq<Candidate>, x: Candidate)
    ensures multiset(Suppliers(Insert(s, x))) == multiset(Suppliers(s)) + multiset{x.supplier}
  {
    if s == [] {
      assert Suppliers([x]) == [x.supplier];
    } else if s[0].score >= x.score {
      InsertKeepsSuppliers(s[1..], x);
      assert Suppliers(Insert(s, x)) == [s[0].supplier] + Suppliers(Insert(s[1..], x));
      assert Suppliers(s) == [s[0].supplier] + Suppliers(s[1..]);
    } else {
      assert Suppliers(Insert(s, x)) == [x.supplier] + Suppliers(s);
    }
  }

  lemma {:induction false} SortDescKeepsSuppliers(s: seq<Candidate>)
    ensures multiset(Suppliers(SortDesc(s))) == multiset(Suppliers(s))
  {
    if s != [] {
      var init := s[..|s| - 1];
      SortDescKeepsSuppliers(init);
      InsertKeepsSuppliers(SortDesc(init), s[|s| - 1]);
      assert Suppliers(s) == Suppliers(init) + [s[|s| - 1].supplier];
    }
  }

  lemma {:induction false} InsertSorted(s: seq<Candidate>, x: Candidate)
    requires SortedDesc(s)
    ensures SortedDesc(Insert(s, x))
  {
    if s != [] && s[0].score >= x.score {
      InsertSorted(s[1..], x);
      InsertPermutes(s[1..], x);
      var r := Insert(s[1..], x);
      forall k | 0 <= k < |r| ensures s[0].score >= r[k].score {
        assert r[k] in multiset(s[1..]) + multiset{x};
      }
    }
  }

  /** The sort returns a permutation of its input. */
  lemma {:induction false} SortDescPermutes(s: seq<Candidate>)
    ensures multiset(SortDesc(s)) == multiset(s)
    ensures |SortDesc(s)| == |s|
  {
    if s != [] {
      SortDescPermutes(s[..|s| - 1]);
      InsertPermutes(SortDesc(s[..|s| - 1]), s[|s| - 1]);
      assert s == s[..|s| - 1] + [s[|s| - 1]];
    }
  }

  /** The sort returns its input with non-increasing scores. */
  lemma {:induction false} SortDescSorted(s: seq<Candidate>)
    ensures SortedDesc(SortDesc(s))
  {
    if s != [] {
      SortDescSorted(s[..|s| - 1]);
      InsertSorted(SortDesc(s[..|s| - 1]), s[|s| - 1]);
    }
  }

  lemma {:induction false} WithScoreAppend(a: seq<Candidate>, b: seq<Candidate>, v: int)
    ensures WithScore(a + b, v) == WithScore(a, v) + WithScore(b, v)
  {
    if a == [] {
      assert a + b == b;
    } else {
      var head := if a[0].score == v then [a[0]] else [];
      var tail := a[1..];
      assert a + b == [a[0]] + (tail + b);
      calc {
        WithScore(a + b, v);
        { WithScoreCons(a[0], tail + b, v); }
        head + WithScore(tail + b, v);
        { WithScoreAppend(tail, b, v); }
        head + (WithScore(tail, v) + WithScore(b, v));
        (head + WithScore(tail, v)) + WithScore(b, v);
        WithScore(a, v) + WithScore(b, v);
      }
    }
  }

  lemma WithScoreCons(x: Candidate, s: seq<Candidate>, v: int)
    ensures WithScore([x] + s, v) == (if x.score == v then [x] else []) + WithScore(s, v)
  {
    assert ([x] + s)[0] == x;
    assert ([x] + s)[1..] == s;
  }

  lemma {:induction false} WithScoreNone(s: seq<Candidate>, v: int)
    requires forall k :: 0 <= k < |s| ==> s[k].score < v
    ensures WithScore(s, v) == []
  {
    if s != [] {
      WithScoreNone(s[1..], v);
    }
  }

  lemma {:induction false} InsertStable(s: seq<Candidate>, x: Candidate, v: int)
    requires SortedDesc(s)
    ensures WithScore(Insert(s, x), v) == WithScore(s, v) + (if x.score == v then [x] else [])
  {
    WithScoreSingleton(x, v);
    if s == [] {
      assert Insert(s, x) == [x];
    } else if s[0].score >= x.score {
      var tail := s[1..];
      assert SortedDesc(tail);
      InsertStable(tail, x, v);
      assert Insert(s, x) == [s[0]] + Insert(tail, x);
      WithScoreAppend([s[0]], Insert(tail, x), v);
      WithScoreAppend([s[0]], tail, v);
      assert s == [s[0]] + tail;
    } else {
      assert Insert(s, x) == [x] + s;
      WithScoreAppend([x], s, v);
      if x.score == v {
        WithScoreNone(s, v);
      }
    }
  }

  lemma WithScoreSingleton(x: Candidate, v: int)
    ensures WithScore([x], v) == if x.score == v then [x] else []
  {
    assert [x][1..] == [];
  }

  /** The sort is stable: the candidates that share a score keep their input order. */
  lemma {:induction false} SortDescStable(s: seq<Candidate>, v: int)
    ensures WithScore(SortDesc(s), v) == WithScore(s, v)
  {
    if s != [] {
      var init := s[..|s| - 1];
      var last := s[|s| - 1];
      calc {
        WithScore(SortDesc(s), v);
        WithScore(Insert(SortDesc(init), last), v);
        { SortDescSorted(init); InsertStable(SortDesc(init), last, v); }
        WithScore(SortDesc(init), v) + (if last.score == v then [last] else []);
        { SortDescStable(init, v); WithScoreSingleton(last, v); }
        WithScore(init, v) + WithScore([last], v);
        { WithScoreAppend(init, [last], v); }
        WithScore(init + [last], v);
        { assert s == init + [last]; }
        WithScore(s, v);
      }
    }
  }

  /** Where insertion lands: after the prefix that scores at least `x`, before the rest. */
  lemma {:induction false} InsertAt(p: seq<Candidate>, x: Candidate, j: nat)
    requires j <= |p|
    requires forall k :: 0 <= k < j ==> p[k].score >= x.score
    requires forall k :: j <= k < |p| ==> p[k].score < x.score
    ensures Insert(p, x) == p[..j] + [x] + p[j..]
  {
    if j == 0 {
      if p != [] {
        assert p[..0] + [x] + p[0..] == [x] + p;
      }
    } else {
      InsertAt(p[1..], x, j - 1);
      assert p[..j] == [p[0]] + p[1..][..j - 1];
      assert p[j..] == p[1..][j - 1..];
    }
  }

  /** A sequence laid out as `p` with `x` placed at position `j` is the insertion of `x` into `p`. */
  lemma InsertedLayout(p: seq<Candidate>, x: Candidate, j: nat, q: seq<Candidate>)
    requires SortedDesc(p) && j <= |p| && |q| == |p| + 1
    requires j > 0 ==> p[j - 1].score >= x.score
    requires forall k :: j <= k < |p| ==> p[k].score < x.score
    requires forall k :: 0 <= k < j ==> q[k] == p[k]
    requires q[j] == x
    requires forall k :: j < k < |q| ==> q[k] == p[k - 1]
    ensures q == Insert(p, x)
  {
    InsertAt(p, x, j);
    assert q == p[..j] + [x] + p[j..];
  }

  /** One step of the in-place sort: moves `a[i]` left past every element of the
      sorted prefix `a[..i]` that scores strictly less. */
  method InsertIntoPrefix(a: array<Candidate>, i: nat)
    requires i < a.Length && SortedDesc(a[..i])
    modifies a
    ensures a[..i + 1] == Insert(old(a[..i]), old(a[i]))
    ensures forall k :: i < k < a.Length ==> a[k] == old(a[k])
  {
    ghost var p := a[..i];
    var x := a[i];
    var j := i;
    while j > 0 && a[j - 1].score < x.score
      invariant 0 <= j <= i
      invariant forall k :: 0 <= k < j ==> a[k] == p[k]
      invariant forall k :: j < k <= i ==> a[k] == p[k - 1]
      invariant forall k :: i < k < a.Length ==> a[k] == old(a[k])
      invariant forall k :: j <= k < i ==> p[k].score < x.score
    {
      a[j] := a[j - 1];
      j := j - 1;
    }
    a[j] := x;
    InsertedLayout(p, x, j, a[..i + 1]);
  }

  /** `candidates.sort(key=score, reverse=True)`: an in-place stable insertion sort. */
  method SortByScore(a: array<Candidate>)
    modifies a
    ensures a[..] == SortDesc(old(a[..]))
  {
    ghost var orig := a[..];
    for i := 0 to a.Length
      invariant a[..i] == SortDesc(orig[..i])
      invariant forall k :: i <= k < a.Length ==> a[k] == orig[k]
    {
      SortDescSorted(orig[..i]);
      InsertIntoPrefix(a, i);
      assert orig[..i + 1][..i] == orig[..i];
    }
    assert orig[..a.Length] == orig;
  }

  /** Each candidate numbered by its position, starting at 1. */
  function Ranked(s: seq<Candidate>): (r: seq<Candidate>)
    ensures |r| == |s|
    ensures forall i :: 0 <= i < |s| ==> r[i] == s[i].(rank := i + 1)
  {
    seq(|s|, i requires 0 <= i < |s| => s[i].(rank := i + 1))
  }

  /** `candidates[:5]`. */
  function Top(s: seq<Candidate>): (r: seq<Candidate>)
    ensures |r| == if |s| < TopCount then |s| else TopCount
    ensures r <= s
  {
    if |s| <= TopCount then s else s[..TopCount]
  }

  /** The ranked candidates, before truncation. */
  function RankedCandidates(db: seq<Supplier>, product: string, excludeRegions: seq<string>): seq<Candidate>
  {
    Ranked(SortDesc(Scored(FilterCandidates(db, product, LowerAll(excludeRegions)))))
  }

  /** The scoring loop: a fresh array of the candidates, each with its composite score. */
  method ScoreAll(filtered: seq<Supplier>) returns (candidates: array<Candidate>)
    ensures fresh(candidates) && candidates[..] == Scored(filtered)
  {
    candidates := new Candidate[|filtered|];
    for i := 0 to |filtered|
      invariant forall k :: 0 <= k < i ==> candidates[k] == Scored(filtered)[k]
    {
      candidates[i] := Candidate(filtered[i], CompositeScore(filtered[i]), 0);
    }
    assert candidates[..] == Scored(filtered);
  }

  /** The ranking loop: numbers the candidates in place from 1. */
  method RankInPlace(candidates: array<Candidate>)
    modifies candidates
    ensures candidates[..] == Ranked(old(candidates[..]))
  {
    ghost var sorted := candidates[..];
    for i := 0 to candidates.Length
      invariant forall k :: 0 <= k < i ==> candidates[k] == sorted[k].(rank := k + 1)
      invariant forall k :: i <= k < candidates.Length ==> candidates[k] == sorted[k]
    {
      candidates[i] := candidates[i].(rank := i + 1);
    }
    assert candidates[..] == Ranked(sorted);
  }

  /** The tool itself: filter, score loop, in-place sort, rank loop, truncation. */
  method FindAlternativeSuppliers(db: seq<Supplier>, product: string, excludeRegions: seq<string>)
    returns (result: Alternatives)
    ensures result.product == product && result.excludedRegions == excludeRegions
    ensures result.count == |FilterCandidates(db, product, LowerAll(excludeRegions))|
    ensures result.alternatives == Top(RankedCandidates(db, product, excludeRegions))
    ensures |result.alternatives| <= result.count && |result.alternatives| <= TopCount
    ensures result.count > 0 ==> |result.alternatives| > 0
    // every reported supplier is in the table, matches the product and lies outside the excluded regions
    ensures forall c :: c in result.alternatives ==>
              c.supplier in db && Eligible(c.supplier, product, LowerAll(excludeRegions))
              && c.score == CompositeScore(c.supplier)
    // best first, numbered from 1
    ensures forall i, j :: 0 <= i < j < |result.alternatives| ==>
              result.alternatives[i].score >= result.alternatives[j].score
    ensures forall i :: 0 <= i < |result.alternatives| ==> result.alternatives[i].rank == i + 1
  {
    var excludeLower := LowerAll(excludeRegions);
    var filtered := FilterCandidates(db, product, excludeLower);
    var candidates := ScoreAll(filtered);
    SortByScore(candidates);
    RankInPlace(candidates);
    var ranked := candidates[..];
    result := Alternatives(product, excludeRegions, Top(ranked), |filtered|);
    RankedProperties(db, product, excludeRegions);
    forall c | c in result.alternatives
      ensures c.supplier in db && Eligible(c.supplier, product, excludeLower)
    {
      FilterMembers(db, product, excludeLower, c.supplier);
    }
  }

  /** The ranked candidates are the filtered suppliers, scored, best first, numbered 1..n. */
  lemma RankedProperties(db: seq<Supplier>, product: string, excludeRegions: seq<string>)
    ensures var f := FilterCandidates(db, product, LowerAll(excludeRegions));
            var r := RankedCandidates(db, product, excludeRegions);
            && |r| == |f|
            && multiset(Suppliers(r)) == multiset(f)
            && (forall c :: c in r ==> c.supplier in f && c.score == CompositeScore(c.supplier))
            && (forall i, j :: 0 <= i < j < |r| ==> r[i].score >= r[j].score)
            && (forall i :: 0 <= i < |r| ==> r[i].rank == i + 1)
  {
    var f := FilterCandidates(db, product, LowerAll(excludeRegions));
    var sc := Scored(f);
    SortDescPermutes(sc);
    SortDescSorted(sc);
    RankedSuppliers(f);
    RankedScores(f);
  }

  /** Ranking the scored suppliers returns each of them exactly once. */
  lemma RankedSuppliers(f: seq<Supplier>)
    ensures multiset(Suppliers(Ranked(SortDesc(Scored(f))))) == multiset(f)
  {
    var sorted := SortDesc(Scored(f));
    SortDescKeepsSuppliers(Scored(f));
    assert Suppliers(Scored(f)) == f;
    assert Suppliers(Ranked(sorted)) == Suppliers(sorted);
  }

  /** Every ranked candidate is a scored supplier of `f`. */
  lemma RankedScores(f: seq<Supplier>)
    ensures forall c :: c in Ranked(SortDesc(Scored(f))) ==> c.supplier in f && c.score == CompositeScore(c.supplier)
  {
    var sc := Scored(f);
    SortDescPermutes(sc);
    var sorted := SortDesc(sc);
    forall c | c in sorted ensures c.supplier in f && c.score == CompositeScore(c.supplier) {
      assert c in multiset(sc);
      var k :| 0 <= k < |sc| && sc[k] == c;
    }
    var r := Ranked(sorted);
    forall c | c in r ensures c.supplier in f && c.score == CompositeScore(c.supplier) {
      var k :| 0 <= k < |r| && r[k] == c;
      assert sorted[k] in sorted;
    }
  }

  /** Ranking keeps ties in table order: among the ranked candidates, those with
      score `v` are exactly the filtered suppliers with that score, in table order. */
  lemma RankedTiesKeepTableOrder(db: seq<Supplier>, product: string, excludeRegions: seq<string>, v: int)
    ensures var f := FilterCandidates(db, product, LowerAll(excludeRegions));
            var sorted := SortDesc(Scored(f));
            RankedCandidates(db, product, excludeRegions) == Ranked(sorted)
            && WithScore(sorted, v) == WithScore(Scored(f), v)
  {
    SortDescStable(Scored(FilterCandidates(db, product, LowerAll(excludeRegions))), v);
  }

  /** The supplier table the tool hard-codes. */
  const SimulatedSuppliers: seq<Supplier> := [
    Supplier("Samsung Foundry", "South Korea", "semiconductors", 23, 8, 52, 85),
    Supplier("Intel Foundry Services", "USA", "semiconductors", 12, 22, 38, 70),
    Supplier("GlobalFoundries Dresden", "Germany", "semiconductors", 18, 15, 48, 78),
    Supplier("SMIC", "China", "semiconductors", 55, -5, 40, 60),
    Supplier("Foxconn Mexico", "Mexico", "electronics", 25, 10, 25, 80),
    Supplier("Flex Malaysia", "Malaysia", "electronics", 20, 5, 35, 75)
  ]

  /** Scores of the hard-coded suppliers (ten times the tool's): all different, so
      the order among them does not depend on the stable tie-break. */
  lemma SimulatedScores()
    ensures CompositeScore(SimulatedSuppliers[0]) == 839
    ensures CompositeScore(SimulatedSuppliers[1]) == 796
    ensures CompositeScore(SimulatedSuppliers[2]) == 817
    ensures CompositeScore(SimulatedSuppliers[3]) == 675
    ensures CompositeScore(SimulatedSuppliers[4]) == 810
    ensures CompositeScore(SimulatedSuppliers[5]) == 830
  {
  }
}

/** RFM quintiles: percentile cut points of a merchant's cohort, ranks against them, and the
    churn score. Percentile positions are the exact integers ceil(kN/5) - 1. */
module Scoring {
  import opened Collections

  const INSUFFICIENT_COHORT_THRESHOLD: nat := 5

  datatype CohortRow = CohortRow(rDays: int, fCount: int, mCents: int)

  /** Four cut points, ascending. */
  datatype Cuts = Cuts(p20: int, p40: int, p60: int, p80: int) {
    function At(k: nat): int
      requires 1 <= k <= 4
    {
      if k == 1 then p20 else if k == 2 then p40 else if k == 3 then p60 else p80
    }

    predicate Ascending() {
      p20 <= p40 <= p60 <= p80
    }
  }

  datatype Boundaries = Boundaries(r: Cuts, f: Cuts, m: Cuts)

  datatype CustomerState = Active | Warm | AtRisk | Dormant | Lost | InsufficientData

  datatype Quintiles = Quintiles(r: nat, f: nat, m: nat)

  datatype Score = Score(row: CohortRow, quintiles: Option<Quintiles>, churnRisk: Option<real>, state: CustomerState)

  // ------------------------------------------------------------------ sorting

  predicate Sorted(s: seq<int>) {
    forall i, j :: 0 <= i < j < |s| ==> s[i] <= s[j]
  }

  function Insert(x: int, s: seq<int>): seq<int> {
    if s == [] || x <= s[0] then [x] + s else [s[0]] + Insert(x, s[1..])
  }

  function Sort(s: seq<int>): seq<int> {
    if s == [] then [] else Insert(s[0], Sort(s[1..]))
  }

  lemma {:induction false} InsertAdds(x: int, s: seq<int>)
    ensures multiset(Insert(x, s)) == multiset{x} + multiset(s) && |Insert(x, s)| == |s| + 1
    decreases |s|
  {
    if s != [] && x > s[0] {
      InsertAdds(x, s[1..]);
      assert s == [s[0]] + s[1..];
    }
  }

  lemma {:induction false} InsertSorts(x: int, s: seq<int>)
    requires Sorted(s)
    ensures Sorted(Insert(x, s))
    ensures Insert(x, s)[0] == if s == [] || x <= s[0] then x else s[0]
    decreases |s|
  {
    if s != [] && x > s[0] {
      InsertSorts(x, s[1..]);
      assert s[0] <= Insert(x, s[1..])[0];
      SortedFrom(s[0], Insert(x, s[1..]));
    }
  }

  lemma SortedFrom(x: int, s: seq<int>)
    requires Sorted(s) && (s == [] || x <= s[0])
    ensures Sorted([x] + s)
  {
  }

  lemma {:induction false} SortSorts(s: seq<int>)
    ensures Sorted(Sort(s)) && multiset(Sort(s)) == multiset(s) && |Sort(s)| == |s|
    decreases |s|
  {
    if s != [] {
      SortSorts(s[1..]);
      InsertSorts(s[0], Sort(s[1..]));
      InsertAdds(s[0], Sort(s[1..]));
      assert s == [s[0]] + s[1..];
    }
  }

  lemma {:induction false} SortedIsUnique(a: seq<int>, b: seq<int>)
    requires Sorted(a) && Sorted(b) && multiset(a) == multiset(b)
    ensures a == b
    decreases |a|
  {
    assert |a| == |multiset(a)| == |multiset(b)| == |b|;
    if a != [] {
      assert a[0] in multiset(b) && b[0] in multiset(a);
      assert a[0] == b[0];
      assert a == [a[0]] + a[1..] && b == [b[0]] + b[1..];
      assert multiset(a[1..]) == multiset(a) - multiset{a[0]};
      assert multiset(b[1..]) == multiset(b) - multiset{b[0]};
      SortedIsUnique(a[1..], b[1..]);
    }
  }

  // --------------------------------------------------------------- boundaries

  function Min(a: int, b: int): int {
    if a <= b then a else b
  }

  function Max(a: int, b: int): int {
    if a >= b then a else b
  }

  /** `max(0, min(N - 1, ceil(N k / 5) - 1))`: the clamps leave every position of a
      non-empty cohort alone. */
  function Position(n: nat, k: nat): (i: nat)
    ensures n >= 1 && 1 <= k <= 4 ==> i < n && i + 1 == (k * n + 4) / 5
  {
    Max(0, Min(n - 1, (k * n + 4) / 5 - 1))
  }

  function PickPercentilePositions(sorted: seq<int>): Cuts
    requires |sorted| >= INSUFFICIENT_COHORT_THRESHOLD
  {
    var n := |sorted|;
    Cuts(sorted[Position(n, 1)], sorted[Position(n, 2)], sorted[Position(n, 3)], sorted[Position(n, 4)])
  }

  /** The cut points of one dimension. */
  function CutsOf(values: seq<int>): Cuts
    requires |values| >= INSUFFICIENT_COHORT_THRESHOLD
  {
    SortSorts(values);
    PickPercentilePositions(Sort(values))
  }

  function RDays(cohort: seq<CohortRow>): (v: seq<int>)
    ensures |v| == |cohort|
  {
    seq(|cohort|, i requires 0 <= i < |cohort| => cohort[i].rDays)
  }

  function FCounts(cohort: seq<CohortRow>): (v: seq<int>)
    ensures |v| == |cohort|
  {
    seq(|cohort|, i requires 0 <= i < |cohort| => cohort[i].fCount)
  }

  function MCents(cohort: seq<CohortRow>): (v: seq<int>)
    ensures |v| == |cohort|
  {
    seq(|cohort|, i requires 0 <= i < |cohort| => cohort[i].mCents)
  }

  /** None stands for the throw on a cohort below the threshold. */
  function ComputeQuintileBoundaries(cohort: seq<CohortRow>): (b: Option<Boundaries>)
    ensures b.None? <==> |cohort| < INSUFFICIENT_COHORT_THRESHOLD
  {
    if |cohort| < INSUFFICIENT_COHORT_THRESHOLD then None
    else Some(Boundaries(CutsOf(RDays(cohort)), CutsOf(FCounts(cohort)), CutsOf(MCents(cohort))))
  }

  // -------------------------------------------------------------------- ranks

  /** The last cut point that the value exceeds decides. */
  function Rank(value: int, cuts: Cuts): nat {
    if value > cuts.p80 then 5
    else if value > cuts.p60 then 4
    else if value > cuts.p40 then 3
    else if value > cuts.p20 then 2
    else 1
  }

  /** The scan of the source, each cut point that is passed overwriting the rank: against
      ascending cuts it comes to one more than the number of cut points below the value. */
  method RankByAscendingBoundaries(value: int, cuts: Cuts) returns (rank: nat)
    ensures rank == Rank(value, cuts)
    ensures cuts.Ascending() ==>
              rank == 1 + (if value > cuts.p20 then 1 else 0) + (if value > cuts.p40 then 1 else 0)
                        + (if value > cuts.p60 then 1 else 0) + (if value > cuts.p80 then 1 else 0)
  {
    rank := 1;
    if value > cuts.p20 { rank := 2; }
    if value > cuts.p40 { rank := 3; }
    if value > cuts.p60 { rank := 4; }
    if value > cuts.p80 { rank := 5; }
  }

  function AssignRQuintile(rDays: int, cuts: Cuts): nat {
    6 - Rank(rDays, cuts)
  }

  function ChurnRiskScore(q: Quintiles): real {
    1.0 - (q.r + q.f + q.m) as real / 15.0
  }

  function StateFromRecency(rDays: int): CustomerState {
    if rDays <= 30 then Active
    else if rDays <= 90 then Warm
    else if rDays <= 180 then AtRisk
    else if rDays <= 365 then Dormant
    else Lost
  }

  function ResolveScorableCustomer(row: CohortRow, cohort: seq<CohortRow>,
                                   isInsufficientCohort: bool): Option<Score> {
    if isInsufficientCohort then Some(Score(row, None, None, InsufficientData))
    else
      var b := ComputeQuintileBoundaries(cohort);
      if b.None? then None
      else
        var q := Quintiles(AssignRQuintile(row.rDays, b.value.r), Rank(row.fCount, b.value.f),
                           Rank(row.mCents, b.value.m));
        Some(Score(row, Some(q), Some(ChurnRiskScore(q)), StateFromRecency(row.rDays)))
  }

  // ----------------------------------------------------------------- counting

  function CountAtMost(s: seq<int>, b: int): nat {
    if s == [] then 0 else CountAtMost(s[1..], b) + (if s[0] <= b then 1 else 0)
  }

  function CountBelow(s: seq<int>, b: int): nat {
    if s == [] then 0 else CountBelow(s[1..], b) + (if s[0] < b then 1 else 0)
  }

  lemma {:induction false} InsertCounts(x: int, s: seq<int>, b: int)
    ensures CountAtMost(Insert(x, s), b) == CountAtMost(s, b) + (if x <= b then 1 else 0)
    ensures CountBelow(Insert(x, s), b) == CountBelow(s, b) + (if x < b then 1 else 0)
    decreases |s|
  {
    if s != [] && x > s[0] {
      InsertCounts(x, s[1..], b);
      assert Insert(x, s)[1..] == Insert(x, s[1..]);
    } else {
      assert ([x] + s)[1..] == s;
    }
  }

  lemma {:induction false} SortCounts(s: seq<int>, b: int)
    ensures CountAtMost(Sort(s), b) == CountAtMost(s, b) && CountBelow(Sort(s), b) == CountBelow(s, b)
    decreases |s|
  {
    if s != [] {
      SortCounts(s[1..], b);
      InsertCounts(s[0], Sort(s[1..]), b);
    }
  }

  predicate Strict(s: seq<int>) {
    forall i, j :: 0 <= i < j < |s| ==> s[i] < s[j]
  }

  /** In sorted order the value at index i has at most i values below it, and at least
      i + 1 at most it: exactly i + 1 if no two are equal. */
  lemma {:induction false} SortedCounts(s: seq<int>, i: nat)
    requires Sorted(s) && i < |s|
    ensures CountBelow(s, s[i]) <= i && CountAtMost(s, s[i]) >= i + 1
    ensures Strict(s) ==> CountAtMost(s, s[i]) == i + 1
    decreases |s|
  {
    if i == 0 {
      NoneBelow(s, s[0]);
      if |s| > 1 && Strict(s) { NoneAtMost(s[1..], s[0]); }
    } else {
      SortedCounts(s[1..], i - 1);
    }
  }

  lemma {:induction false} NoneBelow(s: seq<int>, b: int)
    requires forall i :: 0 <= i < |s| ==> b <= s[i]
    ensures CountBelow(s, b) == 0
    decreases |s|
  {
    if s != [] { NoneBelow(s[1..], b); }
  }

  lemma {:induction false} NoneAtMost(s: seq<int>, b: int)
    requires forall i :: 0 <= i < |s| ==> b < s[i]
    ensures CountAtMost(s, b) == 0
    decreases |s|
  {
    if s != [] { NoneAtMost(s[1..], b); }
  }

  // ----------------------------------------------------------------- theorems

  /** Boundary k of any cohort is its ceil(kN/5)-th smallest value. */
  lemma BoundaryIsOrderStatistic(values: seq<int>, k: nat)
    requires |values| >= INSUFFICIENT_COHORT_THRESHOLD && 1 <= k <= 4
    ensures var cut := CutsOf(values).At(k);
            && cut in values
            && CountBelow(values, cut) < (k * |values| + 4) / 5 <= CountAtMost(values, cut)
  {
    hide Sort, Sorted, CountBelow, CountAtMost, CutsOf, Strict;
    CutIsSortedValue(values, k);
    SortedCounts(Sort(values), Position(|values|, k));
    SortCounts(values, CutsOf(values).At(k));
  }

  lemma CutIsSortedValue(values: seq<int>, k: nat)
    requires |values| >= INSUFFICIENT_COHORT_THRESHOLD && 1 <= k <= 4
    ensures Sorted(Sort(values)) && |Sort(values)| == |values|
    ensures CutsOf(values).At(k) == Sort(values)[Position(|values|, k)] && CutsOf(values).At(k) in values
  {
    hide Sort, Sorted;
    SortSorts(values);
    SortedMember(values, Position(|values|, k));
  }

  lemma SortedMember(values: seq<int>, i: nat)
    requires i < |values|
    ensures |Sort(values)| == |values| && Sort(values)[i] in values
  {
    hide Sort, Sorted;
    SortSorts(values);
    assert Sort(values)[i] in multiset(Sort(values));
  }

  lemma Complement(n: nat, k: nat)
    requires 1 <= k <= 4
    ensures n - (k * n + 4) / 5 == (5 - k) * n / 5
  {
    if k == 1 { } else if k == 2 { } else if k == 3 { } else { }
  }

  lemma CutsAscend(values: seq<int>)
    requires |values| >= INSUFFICIENT_COHORT_THRESHOLD
    ensures CutsOf(values).Ascending()
  {
    SortSorts(values);
    PositionsAscend(|values|);
  }

  lemma PositionsAscend(n: nat)
    ensures Position(n, 1) <= Position(n, 2) <= Position(n, 3) <= Position(n, 4)
  {
  }

  /** How many values rank above k. */
  function RankedAbove(values: seq<int>, cuts: Cuts, k: nat): nat {
    if values == [] then 0 else RankedAbove(values[1..], cuts, k) + (if Rank(values[0], cuts) > k then 1 else 0)
  }

  lemma {:induction false} AboveIsNotAtMost(values: seq<int>, cuts: Cuts, k: nat)
    requires cuts.Ascending() && 1 <= k <= 4
    ensures RankedAbove(values, cuts, k) + CountAtMost(values, cuts.At(k)) == |values|
    decreases |values|
  {
    if values != [] { AboveIsNotAtMost(values[1..], cuts, k); }
  }

  predicate AllDistinct(values: seq<int>) {
    forall i, j :: 0 <= i < j < |values| ==> values[i] != values[j]
  }

  lemma DistinctSortsStrictly(values: seq<int>)
    requires AllDistinct(values)
    ensures Strict(Sort(values))
  {
    SortSorts(values);
    var s := Sort(values);
    forall i, j | 0 <= i < j < |s|
      ensures s[i] < s[j]
    {
      if s[i] == s[j] {
        TwiceInMultiset(s, i, j);
        OnceInMultiset(values, s[i]);
      }
    }
  }

  lemma TwiceInMultiset(s: seq<int>, i: nat, j: nat)
    requires i < j < |s| && s[i] == s[j]
    ensures multiset(s)[s[i]] >= 2
  {
    assert s == s[..i] + [s[i]] + s[i + 1..j] + [s[j]] + s[j + 1..];
  }

  lemma {:induction false} OnceInMultiset(values: seq<int>, x: int)
    requires AllDistinct(values)
    ensures multiset(values)[x] <= 1
    decreases |values|
  {
    if values != [] {
      OnceInMultiset(values[1..], x);
      assert values == [values[0]] + values[1..];
      assert values[0] == x ==> x !in values[1..];
    }
  }

  /** At most floor((5 - k) N / 5) of the cohort rank above k, and exactly that many if all
      values differ. */
  lemma RanksAbove(values: seq<int>, k: nat)
    requires |values| >= INSUFFICIENT_COHORT_THRESHOLD && 1 <= k <= 4
    ensures RankedAbove(values, CutsOf(values), k) <= (5 - k) * |values| / 5
    ensures AllDistinct(values) ==> RankedAbove(values, CutsOf(values), k) == (5 - k) * |values| / 5
  {
    hide Sort, Sorted, CountBelow, CountAtMost, CutsOf, Strict, RankedAbove, AllDistinct;
    var cuts, n := CutsOf(values), |values|;
    CutsAscend(values);
    AboveIsNotAtMost(values, cuts, k);
    BoundaryIsOrderStatistic(values, k);
    Complement(n, k);
    if AllDistinct(values) {
      DistinctSortsStrictly(values);
      CutIsSortedValue(values, k);
      SortedCounts(Sort(values), Position(n, k));
      SortCounts(values, cuts.At(k));
    }
  }

  /** How many values have rank q. */
  function Bucket(values: seq<int>, cuts: Cuts, q: nat): nat {
    if values == [] then 0 else Bucket(values[1..], cuts, q) + (if Rank(values[0], cuts) == q then 1 else 0)
  }

  lemma {:induction false} BucketIsDifference(values: seq<int>, cuts: Cuts, q: nat)
    requires 1 <= q <= 5
    ensures Bucket(values, cuts, q) == RankedAbove(values, cuts, q - 1) - RankedAbove(values, cuts, q)
    decreases |values|
  {
    if values != [] { BucketIsDifference(values[1..], cuts, q); }
  }

  lemma {:induction false} EveryoneRanks(values: seq<int>, cuts: Cuts)
    ensures RankedAbove(values, cuts, 0) == |values| && RankedAbove(values, cuts, 5) == 0
    decreases |values|
  {
    if values != [] { EveryoneRanks(values[1..], cuts); }
  }

  /** Without ties the five quintiles are as even as they can be. */
  lemma BucketsAreEven(values: seq<int>, q: nat)
    requires |values| >= INSUFFICIENT_COHORT_THRESHOLD && AllDistinct(values) && 1 <= q <= 5
    ensures |values| / 5 <= Bucket(values, CutsOf(values), q) <= (|values| + 4) / 5
  {
    var cuts := CutsOf(values);
    BucketIsDifference(values, cuts, q);
    EveryoneRanks(values, cuts);
    if q > 1 { RanksAbove(values, q - 1); }
    if q < 5 { RanksAbove(values, q); }
  }

  /** Ranks are between 1 and 5 and follow the values; the recency quintile runs against them. */
  lemma RanksAreMonotone(v: int, w: int, cuts: Cuts)
    requires v <= w
    ensures 1 <= Rank(v, cuts) <= Rank(w, cuts) <= 5
    ensures 1 <= AssignRQuintile(w, cuts) <= AssignRQuintile(v, cuts) <= 5
  {
  }

  /** Only which customers are in the cohort matters, not their order. */
  lemma PermutationInvariant(row: CohortRow, cohort: seq<CohortRow>, cohort': seq<CohortRow>,
                             isInsufficientCohort: bool)
    requires multiset(cohort) == multiset(cohort')
    ensures ResolveScorableCustomer(row, cohort, isInsufficientCohort)
            == ResolveScorableCustomer(row, cohort', isInsufficientCohort)
  {
    assert |cohort| == |multiset(cohort)| == |cohort'|;
    if |cohort| >= INSUFFICIENT_COHORT_THRESHOLD {
      ColumnsPermute(cohort, cohort');
      SameCuts(RDays(cohort), RDays(cohort'));
      SameCuts(FCounts(cohort), FCounts(cohort'));
      SameCuts(MCents(cohort), MCents(cohort'));
    }
  }

  lemma SameCuts(a: seq<int>, b: seq<int>)
    requires multiset(a) == multiset(b) && |a| == |b| >= INSUFFICIENT_COHORT_THRESHOLD
    ensures CutsOf(a) == CutsOf(b)
  {
    SortSorts(a);
    SortSorts(b);
    SortedIsUnique(Sort(a), Sort(b));
  }

  /** A permutation of the rows permutes each column. */
  lemma {:induction false} ColumnsPermute(a: seq<CohortRow>, b: seq<CohortRow>)
    requires multiset(a) == multiset(b)
    ensures multiset(RDays(a)) == multiset(RDays(b))
    ensures multiset(FCounts(a)) == multiset(FCounts(b))
    ensures multiset(MCents(a)) == multiset(MCents(b))
    decreases |a|
  {
    hide RDays, FCounts, MCents;
    assert |a| == |multiset(a)| == |b|;
    if a != [] {
      assert a[0] in multiset(b);
      var i :| 0 <= i < |b| && b[i] == a[0];
      WithoutOne(a, 0);
      WithoutOne(b, i);
      Cancel(a[0], multiset(Without(a, 0)), multiset(Without(b, i)));
      ColumnsPermute(Without(a, 0), Without(b, i));
      ColumnsSplit(a, 0);
      ColumnsSplit(b, i);
    } else {
      assert b == a;
    }
  }

  function Without<T>(s: seq<T>, i: nat): (rest: seq<T>)
    requires i < |s|
    ensures |rest| == |s| - 1
  {
    s[..i] + s[i + 1..]
  }

  lemma WithoutOne<T>(s: seq<T>, i: nat)
    requires i < |s|
    ensures multiset(s) == multiset{s[i]} + multiset(Without(s, i))
  {
    assert s == s[..i] + [s[i]] + s[i + 1..];
  }

  lemma Cancel<T>(x: T, m: multiset<T>, n: multiset<T>)
    requires multiset{x} + m == multiset{x} + n
    ensures m == n
  {
    assert m == multiset{x} + m - multiset{x} == multiset{x} + n - multiset{x} == n;
  }

  lemma ColumnsSplit(b: seq<CohortRow>, i: nat)
    requires i < |b|
    ensures var rest := Without(b, i);
            && multiset(RDays(b)) == multiset{b[i].rDays} + multiset(RDays(rest))
            && multiset(FCounts(b)) == multiset{b[i].fCount} + multiset(FCounts(rest))
            && multiset(MCents(b)) == multiset{b[i].mCents} + multiset(MCents(rest))
  {
    var rest := Without(b, i);
    assert RDays(b) == RDays(rest)[..i] + [b[i].rDays] + RDays(rest)[i..];
    assert RDays(rest) == RDays(rest)[..i] + RDays(rest)[i..];
    assert FCounts(b) == FCounts(rest)[..i] + [b[i].fCount] + FCounts(rest)[i..];
    assert FCounts(rest) == FCounts(rest)[..i] + FCounts(rest)[i..];
    assert MCents(b) == MCents(rest)[..i] + [b[i].mCents] + MCents(rest)[i..];
    assert MCents(rest) == MCents(rest)[..i] + MCents(rest)[i..];
  }

  /** A scored customer's churn risk is between 0 and 4/5, is 0 only for the best quintile in
      all three dimensions, and falls as any quintile rises. */
  lemma ChurnIsBounded(row: CohortRow, cohort: seq<CohortRow>)
    requires |cohort| >= INSUFFICIENT_COHORT_THRESHOLD
    ensures var score := ResolveScorableCustomer(row, cohort, false);
            && score.Some? && score.value.churnRisk.Some? && score.value.quintiles.Some?
            && 0.0 <= score.value.churnRisk.value <= 0.8
            && (score.value.churnRisk.value == 0.0 <==> score.value.quintiles.value == Quintiles(5, 5, 5))
  {
    var b := ComputeQuintileBoundaries(cohort).value;
    RanksAreMonotone(row.rDays, row.rDays, b.r);
    RanksAreMonotone(row.fCount, row.fCount, b.f);
    RanksAreMonotone(row.mCents, row.mCents, b.m);
  }

  lemma ChurnIsAntitone(q: Quintiles, q': Quintiles)
    requires q.r <= q'.r && q.f <= q'.f && q.m <= q'.m
    ensures ChurnRiskScore(q') <= ChurnRiskScore(q)
    ensures q != q' ==> ChurnRiskScore(q') < ChurnRiskScore(q)
  {
  }

  // ------------------------------------------------- a score, by its cohort

  /** The k-th fifth of the values ends at `cut`: the ceil(kN/5)-th smallest of them. */
  predicate EndsFifth(values: seq<int>, k: nat, cut: int) {
    cut in values && CountBelow(values, cut) < (k * |values| + 4) / 5 <= CountAtMost(values, cut)
  }

  lemma {:induction false} CountsAscend(s: seq<int>, a: int, b: int)
    ensures a < b ==> CountAtMost(s, a) <= CountBelow(s, b)
    ensures a <= b ==> CountBelow(s, a) <= CountBelow(s, b)
    decreases |s|
  {
    if s != [] { CountsAscend(s[1..], a, b); }
  }

  /** Values are counted one by one. */
  lemma {:induction false} CountsIndices(values: seq<int>, b: int, j: nat)
    requires j <= |values|
    ensures CountBelow(values[j..], b) == |set i | j <= i < |values| && values[i] < b|
    decreases |values| - j
  {
    var from := set i | j <= i < |values| && values[i] < b;
    if j < |values| {
      CountsIndices(values, b, j + 1);
      var rest := set i | j + 1 <= i < |values| && values[i] < b;
      assert values[j..][1..] == values[j + 1..];
      assert from == (if values[j] < b then {j} else {}) + rest;
    } else {
      assert from == {};
    }
  }

  /** A value ranks above k exactly when it exceeds the end of the k-th fifth, and that is
      exactly when the values below it are a share of at least k fifths. */
  lemma RanksAboveIff(values: seq<int>, v: int, k: nat)
    requires |values| >= INSUFFICIENT_COHORT_THRESHOLD && 1 <= k <= 4
    ensures forall cut :: EndsFifth(values, k, cut) ==> (Rank(v, CutsOf(values)) > k <==> v > cut)
    ensures Rank(v, CutsOf(values)) > k <==> 5 * CountBelow(values, v) >= k * |values|
  {
    hide CountBelow, CountAtMost, CutsOf, EndsFifth;
    var end := CutsOf(values).At(k);
    CutsAscend(values);
    BoundaryIsOrderStatistic(values, k);
    CountsAscend(values, end, v);
    CountsAscend(values, v, end);
    assert Rank(v, CutsOf(values)) > k <==> v > end;
    forall cut | EndsFifth(values, k, cut)
      ensures cut == end
    {
      OneEnd(values, k, cut, end);
    }
  }

  lemma OneEnd(values: seq<int>, k: nat, a: int, b: int)
    requires EndsFifth(values, k, a)
    requires b in values && CountBelow(values, b) < (k * |values| + 4) / 5 <= CountAtMost(values, b)
    ensures a == b
  {
    CountsAscend(values, a, b);
    CountsAscend(values, b, a);
  }

  /** The whole fifths in `part` of n, four at most. */
  function Fifths(part: nat, n: nat): nat
    requires n > 0
  {
    Min(4, 5 * part / n)
  }

  lemma StepsOf(rank: nat, part: nat, n: nat)
    requires n > 0 && 1 <= rank <= 5
    requires (rank > 1 <==> 5 * part >= n) && (rank > 2 <==> 5 * part >= 2 * n)
    requires (rank > 3 <==> 5 * part >= 3 * n) && (rank > 4 <==> 5 * part >= 4 * n)
    ensures rank == 1 + Fifths(part, n)
  {
  }

  /** The rank of a value says how many whole fifths of the values lie below it. */
  lemma RankCountsFifths(values: seq<int>, v: int)
    requires |values| >= INSUFFICIENT_COHORT_THRESHOLD
    ensures Rank(v, CutsOf(values)) == 1 + Fifths(|set i | 0 <= i < |values| && values[i] < v|, |values|)
  {
    CountsIndices(values, v, 0);
    assert values[0..] == values;
    RanksAboveIff(values, v, 1);
    RanksAboveIff(values, v, 2);
    RanksAboveIff(values, v, 3);
    RanksAboveIff(values, v, 4);
    RanksAreMonotone(v, v, CutsOf(values));
    StepsOf(Rank(v, CutsOf(values)), CountBelow(values, v), |values|);
  }

  /** What a score comes to, on the cohort's rows. Each quintile counts the whole fifths of the
      cohort below the customer, recency the other way round; each step is worth a fifteenth of
      churn risk; the state is the band the recency falls in. */
  lemma ScoredByShares(row: CohortRow, cohort: seq<CohortRow>)
    requires |cohort| >= 5
    ensures var days := Fifths(|set i | 0 <= i < |cohort| && cohort[i].rDays < row.rDays|, |cohort|);
            var orders := Fifths(|set i | 0 <= i < |cohort| && cohort[i].fCount < row.fCount|, |cohort|);
            var spend := Fifths(|set i | 0 <= i < |cohort| && cohort[i].mCents < row.mCents|, |cohort|);
            var score := ResolveScorableCustomer(row, cohort, false);
            && score.Some? && score.value.row == row
            && score.value.quintiles == Some(Quintiles(5 - days, 1 + orders, 1 + spend))
            && score.value.churnRisk == Some((8 + days - orders - spend) as real / 15.0)
  {
    RankCountsFifths(RDays(cohort), row.rDays);
    RankCountsFifths(FCounts(cohort), row.fCount);
    RankCountsFifths(MCents(cohort), row.mCents);
    ColumnShares(row, cohort);
    hide CutsOf, Rank, Fifths;
  }

  lemma ColumnShares(row: CohortRow, cohort: seq<CohortRow>)
    ensures (set i | 0 <= i < |cohort| && RDays(cohort)[i] < row.rDays)
            == (set i | 0 <= i < |cohort| && cohort[i].rDays < row.rDays)
    ensures (set i | 0 <= i < |cohort| && FCounts(cohort)[i] < row.fCount)
            == (set i | 0 <= i < |cohort| && cohort[i].fCount < row.fCount)
    ensures (set i | 0 <= i < |cohort| && MCents(cohort)[i] < row.mCents)
            == (set i | 0 <= i < |cohort| && cohort[i].mCents < row.mCents)
  {
  }

  /** A quintile exceeds k exactly when the customer's own value exceeds the end of the k-th
      fifth of that column; for recency the quintile is then at most 5 - k. */
  lemma QuintilesFollowTheCuts(row: CohortRow, cohort: seq<CohortRow>, k: nat)
    requires |cohort| >= 5 && 1 <= k <= 4
    ensures var q := ResolveScorableCustomer(row, cohort, false).value.quintiles.value;
            && (forall cut :: EndsFifth(RDays(cohort), k, cut) ==> (q.r <= 5 - k <==> row.rDays > cut))
            && (forall cut :: EndsFifth(FCounts(cohort), k, cut) ==> (q.f > k <==> row.fCount > cut))
            && (forall cut :: EndsFifth(MCents(cohort), k, cut) ==> (q.m > k <==> row.mCents > cut))
  {
    RanksAboveIff(RDays(cohort), row.rDays, k);
    RanksAboveIff(FCounts(cohort), row.fCount, k);
    RanksAboveIff(MCents(cohort), row.mCents, k);
    hide CutsOf, Rank, EndsFifth;
  }

  /** The five recency bands; `InsufficientData`, with nothing but the raw row, exactly for a
      cohort flagged insufficient; no score exactly for an unflagged cohort below five. */
  lemma StateIsRecencyBand(row: CohortRow, cohort: seq<CohortRow>, isInsufficientCohort: bool)
    ensures var score := ResolveScorableCustomer(row, cohort, isInsufficientCohort);
            && (score.None? <==> !isInsufficientCohort && |cohort| < 5)
            && (isInsufficientCohort ==> score == Some(Score(row, None, None, InsufficientData)))
            && (score.Some? && !isInsufficientCohort ==>
                  && (score.value.state == Active <==> row.rDays <= 30)
                  && (score.value.state == Warm <==> 30 < row.rDays <= 90)
                  && (score.value.state == AtRisk <==> 90 < row.rDays <= 180)
                  && (score.value.state == Dormant <==> 180 < row.rDays <= 365)
                  && (score.value.state == Lost <==> 365 < row.rDays))
  {
  }
}

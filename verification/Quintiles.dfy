/** The RFM scores of the demo data: quintiles by mid-rank percentile. */
module Quintiles {
  import opened Prelude

  const LEVELS := 5

  // ---- counting ---------------------------------------------------------------------------

  function Count(xs: seq<int>, p: int -> bool): (n: nat)
    ensures n <= |xs|
  {
    if xs == [] then 0 else (if p(xs[0]) then 1 else 0) + Count(xs[1..], p)
  }

  function Below(v: int): int -> bool { x => x < v }

  function AtMost(v: int): int -> bool { x => x <= v }

  lemma {:induction false} CountOfSplit(xs: seq<int>, ys: seq<int>, p: int -> bool)
    ensures Count(xs + ys, p) == Count(xs, p) + Count(ys, p)
  {
    if xs == [] {
      assert xs + ys == ys;
    } else {
      assert (xs + ys)[1..] == xs[1..] + ys;
      CountOfSplit(xs[1..], ys, p);
    }
  }

  lemma {:induction false} CountIgnoresOrder(xs: seq<int>, ys: seq<int>, p: int -> bool)
    requires multiset(xs) == multiset(ys)
    ensures |xs| == |ys| && Count(xs, p) == Count(ys, p)
  {
    assert |multiset(xs)| == |multiset(ys)|;
    if xs != [] {
      var i := FindInPermutation(xs, ys);
      CountIgnoresOrder(xs[1..], ys[..i] + ys[i + 1..], p);
      assert ys == ys[..i] + ([ys[i]] + ys[i + 1..]);
      CountOfSplit(ys[..i], [ys[i]] + ys[i + 1..], p);
      CountOfSplit(ys[..i], ys[i + 1..], p);
    }
  }

  /** What implies another property is counted no more often. */
  lemma {:induction false} CountMonotone(xs: seq<int>, p: int -> bool, q: int -> bool)
    requires forall k :: 0 <= k < |xs| && p(xs[k]) ==> q(xs[k])
    ensures Count(xs, p) <= Count(xs, q)
    ensures (exists k :: 0 <= k < |xs| && q(xs[k]) && !p(xs[k])) ==> Count(xs, p) < Count(xs, q)
  {
    if xs != [] {
      CountMonotone(xs[1..], p, q);
      if k :| 0 < k < |xs| && q(xs[k]) && !p(xs[k]) {
        assert q(xs[1..][k - 1]) && !p(xs[1..][k - 1]);
      }
    }
  }

  // ---- the level of a value -----------------------------------------------------------------

  /** Twice the mid-rank of v, from 1 to 2n - 1. */
  function TwiceRank(values: seq<int>, v: int): nat {
    Count(values, Below(v)) + Count(values, AtMost(v))
  }

  function Level(values: seq<int>, v: int): int
    requires values != []
  {
    TwiceRank(values, v) * LEVELS / (2 * |values|) + 1
  }

  lemma RankBounds(values: seq<int>, v: int)
    requires v in values
    ensures 1 <= TwiceRank(values, v) <= 2 * |values| - 1
  {
    CountMonotone(values, Below(v), AtMost(v));
  }

  lemma Times(d: int, x: int, y: int)
    requires d >= 0 && x <= y
    ensures d * x <= d * y
  {
  }

  /** a / d is the q with d q <= a < d (q + 1). */
  lemma DivideIs(a: int, d: int, q: int)
    requires d > 0 && d * q <= a < d * q + d
    ensures a / d == q
  {
    var q' := a / d;
    assert a == d * q' + a % d;
    assert d * (q + 1) == d * q + d && d * (q' + 1) == d * q' + d;
    if q' > q {
      Times(d, q + 1, q');
    }
    if q' < q {
      Times(d, q' + 1, q);
    }
  }

  lemma FifthsOf(s: int, n: int)
    requires 0 <= s <= 2 * n - 1
    ensures 0 <= s * 5 / (2 * n) <= 4
  {
    var q := s * 5 / (2 * n);
    assert s * 5 == 2 * n * q + s * 5 % (2 * n);
    if q < 0 {
      Times(2 * n, q, -1);
    }
    if q > 4 {
      Times(2 * n, 5, q);
    }
  }

  lemma LevelIsAQuintile(values: seq<int>, v: int)
    requires v in values
    ensures 1 <= Level(values, v) <= 5
  {
    RankBounds(values, v);
    FifthsOf(TwiceRank(values, v), |values|);
  }

  lemma DivideMonotone(a: int, b: int, d: int)
    requires a <= b && d > 0
    ensures a / d <= b / d
  {
    assert a == d * (a / d) + a % d && b == d * (b / d) + b % d;
    assert d * (b / d + 1) == d * (b / d) + d;
    if b / d < a / d {
      Times(d, b / d + 1, a / d);
    }
  }

  /** A larger value never gets a lower level; equal values get the same one, being the same argument. */
  lemma LevelKeepsOrder(values: seq<int>, v: int, w: int)
    requires values != [] && v <= w
    ensures Level(values, v) <= Level(values, w)
  {
    CountMonotone(values, Below(v), Below(w));
    CountMonotone(values, AtMost(v), AtMost(w));
    DivideMonotone(TwiceRank(values, v) * LEVELS, TwiceRank(values, w) * LEVELS, 2 * |values|);
  }

  lemma {:induction false} CountAll(xs: seq<int>, p: int -> bool, b: bool)
    requires forall k :: 0 <= k < |xs| ==> p(xs[k]) == b
    ensures Count(xs, p) == if b then |xs| else 0
  {
    if xs != [] {
      CountAll(xs[1..], p, b);
    }
  }

  lemma AllEqualIsMiddle(values: seq<int>, v: int)
    requires values != [] && forall k :: 0 <= k < |values| ==> values[k] == v
    ensures Level(values, v) == 3
  {
    CountAll(values, Below(v), false);
    CountAll(values, AtMost(v), true);
    HalfOfFive(|values|);
  }

  lemma HalfOfFive(n: int)
    requires n > 0
    ensures n * 5 / (2 * n) == 2
  {
    DivideIs(n * 5, 2 * n, 2);
  }

  function Negated(values: seq<int>): (ns: seq<int>)
    ensures |ns| == |values|
  {
    if values == [] then [] else [-values[0]] + Negated(values[1..])
  }

  lemma {:induction false} CountOfNegated(values: seq<int>, v: int)
    ensures Count(Negated(values), Below(-v)) == |values| - Count(values, AtMost(v))
    ensures Count(Negated(values), AtMost(-v)) == |values| - Count(values, Below(v))
  {
    if values != [] {
      CountOfNegated(values[1..], v);
      assert Negated(values)[1..] == Negated(values[1..]);
    }
  }

  lemma Mirror(s: int, n: int)
    requires n > 0
    ensures (2 * n - s) * 5 / (2 * n) == if s * 5 % (2 * n) == 0 then 5 - s * 5 / (2 * n) else 4 - s * 5 / (2 * n)
  {
    MirrorDivide(s * 5, 2 * n);
    assert (2 * n - s) * 5 == 5 * (2 * n) - s * 5;
  }

  lemma MirrorDivide(a: int, d: int)
    requires d > 0
    ensures (5 * d - a) / d == if a % d == 0 then 5 - a / d else 4 - a / d
  {
    var q, r := a / d, a % d;
    assert a == d * q + r;
    assert d * (5 - q) == 5 * d - d * q && d * (4 - q) == 4 * d - d * q;
    DivideIs(5 * d - a, d, if r == 0 then 5 - q else 4 - q);
  }

  /** Ranking the other way round mirrors the levels: q + q' is 6, or 7 on a boundary between levels. */
  lemma NegationMirrors(values: seq<int>, v: int)
    requires values != []
    ensures var boundary := TwiceRank(values, v) * LEVELS % (2 * |values|) == 0;
      Level(values, v) + Level(Negated(values), -v) == if boundary then 7 else 6
  {
    NegatedRank(values, v);
    Mirror(TwiceRank(values, v), |values|);
  }

  lemma NegatedRank(values: seq<int>, v: int)
    ensures TwiceRank(Negated(values), -v) == 2 * |values| - TwiceRank(values, v)
  {
    CountOfNegated(values, v);
  }

  // ---- sizes of the levels ----------------------------------------------------------------------

  predicate Ascending(xs: seq<int>) {
    forall i, j :: 0 <= i < j < |xs| ==> xs[i] <= xs[j]
  }

  predicate Distinct(xs: seq<int>) {
    forall i, j :: 0 <= i < j < |xs| ==> xs[i] != xs[j]
  }

  function Insert(x: int, xs: seq<int>): seq<int> {
    if xs == [] || x <= xs[0] then [x] + xs else [xs[0]] + Insert(x, xs[1..])
  }

  function Sorted(xs: seq<int>): seq<int> {
    if xs == [] then [] else Insert(xs[0], Sorted(xs[1..]))
  }

  lemma {:induction false} InsertKeepsElements(x: int, xs: seq<int>)
    ensures multiset(Insert(x, xs)) == multiset(xs) + multiset{x}
  {
    if xs != [] && x > xs[0] {
      InsertKeepsElements(x, xs[1..]);
      assert xs == [xs[0]] + xs[1..];
    }
  }

  lemma InsertedFrom(x: int, xs: seq<int>, k: nat)
    requires k < |Insert(x, xs)|
    ensures Insert(x, xs)[k] == x || Insert(x, xs)[k] in xs
  {
    InsertKeepsElements(x, xs);
    assert Insert(x, xs)[k] in multiset(Insert(x, xs));
  }

  lemma {:induction false} InsertKeepsOrder(x: int, xs: seq<int>)
    requires Ascending(xs)
    ensures Ascending(Insert(x, xs))
  {
    if xs != [] && x > xs[0] {
      InsertKeepsOrder(x, xs[1..]);
      var rest := Insert(x, xs[1..]);
      forall k | 0 <= k < |rest| ensures xs[0] <= rest[k] {
        InsertedFrom(x, xs[1..], k);
      }
    }
  }

  lemma {:induction false} SortedIsSorted(xs: seq<int>)
    ensures Ascending(Sorted(xs)) && multiset(Sorted(xs)) == multiset(xs)
  {
    if xs != [] {
      SortedIsSorted(xs[1..]);
      InsertKeepsOrder(xs[0], Sorted(xs[1..]));
      InsertKeepsElements(xs[0], Sorted(xs[1..]));
      assert xs == [xs[0]] + xs[1..];
    }
  }

  lemma SplitCount(xs: seq<int>, m: nat, p: int -> bool)
    requires m <= |xs|
    requires (forall k :: 0 <= k < m ==> p(xs[k])) && (forall k :: m <= k < |xs| ==> !p(xs[k]))
    ensures Count(xs, p) == m
  {
    assert xs == xs[..m] + xs[m..];
    CountOfSplit(xs[..m], xs[m..], p);
    CountAll(xs[..m], p, true);
    CountAll(xs[m..], p, false);
  }

  /** In a sorted sequence the first and the last place of a value are counts. */
  lemma PlacesAreCounts(ordered: seq<int>, v: int, first: nat, last: nat)
    requires Ascending(ordered) && first <= last < |ordered| && ordered[first] == v && ordered[last] == v
    requires forall k :: 0 <= k < |ordered| && ordered[k] == v ==> first <= k <= last
    ensures Count(ordered, Below(v)) == first && Count(ordered, AtMost(v)) == last + 1
  {
    SplitCount(ordered, first, Below(v));
    SplitCount(ordered, last + 1, AtMost(v));
  }

  function UpTo(values: seq<int>, k: int): int -> bool
    requires values != []
  {
    x => Level(values, x) <= k
  }

  /** How many of the values have level k. */
  function Size(values: seq<int>, k: int): int
    requires values != []
  {
    Count(values, UpTo(values, k)) - Count(values, UpTo(values, k - 1))
  }

  lemma RankInOrder(values: seq<int>, ordered: seq<int>, i: nat)
    requires values != [] && Ascending(ordered) && Distinct(ordered) && multiset(ordered) == multiset(values)
    requires i < |ordered|
    ensures TwiceRank(values, ordered[i]) == 2 * i + 1
  {
    PlacesAreCounts(ordered, ordered[i], i, i);
    CountIgnoresOrder(ordered, values, Below(ordered[i]));
    CountIgnoresOrder(ordered, values, AtMost(ordered[i]));
  }

  lemma DivideBelow(a: int, d: int, k: int)
    requires d > 0
    ensures a / d < k <==> a < d * k
  {
    assert a == d * (a / d) + a % d;
    assert d * (a / d + 1) == d * (a / d) + d;
    if a / d < k {
      Times(d, a / d + 1, k);
    } else {
      Times(d, k, a / d);
    }
  }

  lemma LevelOfPlace(i: int, n: int, k: int)
    requires n > 0 && i >= 0 && k >= 0
    ensures (2 * i + 1) * 5 / (2 * n) + 1 <= k <==> i < (2 * n * k + 4) / 10
  {
    DivideBelow((2 * i + 1) * 5, 2 * n, k);
  }

  /** The places of a sorted sequence whose level is at most k are the first `bound`. */
  lemma {:induction false} CountUpTo(values: seq<int>, ordered: seq<int>, k: int, bound: int, m: nat)
    requires values != [] && m <= |ordered| && bound >= 0
    requires forall i :: 0 <= i < |ordered| ==> (Level(values, ordered[i]) <= k <==> i < bound)
    ensures Count(ordered[..m], UpTo(values, k)) == Min(m, bound)
  {
    if m > 0 {
      CountUpTo(values, ordered, k, bound, m - 1);
      assert ordered[..m] == ordered[..m - 1] + [ordered[m - 1]];
      CountOfSplit(ordered[..m - 1], [ordered[m - 1]], UpTo(values, k));
      CountOfOne(ordered[m - 1], UpTo(values, k));
    }
  }

  lemma CountOfOne(x: int, p: int -> bool)
    ensures Count([x], p) == if p(x) then 1 else 0
  {
    assert [x][1..] == [];
  }

  lemma FloorStep(a: int, n: int)
    requires n >= 0
    ensures var size := (a + 2 * n) / 10 - a / 10; n / 5 <= size <= (n + 4) / 5
  {
  }

  lemma UpToFormula(values: seq<int>, k: nat)
    requires values != [] && Distinct(values) && k <= LEVELS
    ensures Count(values, UpTo(values, k)) == (2 * |values| * k + 4) / 10
  {
    var n, ordered := |values|, Sorted(values);
    SortedIsSorted(values);
    CountIgnoresOrder(ordered, values, UpTo(values, k));
    SortedDistinct(values, ordered);
    assert ordered[..n] == ordered;
    forall i | 0 <= i < n ensures Level(values, ordered[i]) <= k <==> i < (2 * n * k + 4) / 10 {
      RankInOrder(values, ordered, i);
      LevelOfPlace(i, n, k);
    }
    BelowAll(n, k);
    CountUpTo(values, ordered, k, (2 * n * k + 4) / 10, n);
  }

  /** With distinct values every level has n / 5 clients, rounded down or up. */
  lemma LevelsAreEven(values: seq<int>, k: nat)
    requires values != [] && Distinct(values) && 1 <= k <= LEVELS
    ensures |values| / 5 <= Size(values, k) <= (|values| + 4) / 5
  {
    var n := |values|;
    UpToFormula(values, k);
    UpToFormula(values, k - 1);
    assert 2 * n * k + 4 == (2 * n * (k - 1) + 4) + 2 * n;
    FloorStep(2 * n * (k - 1) + 4, n);
  }

  lemma BelowAll(n: int, k: int)
    requires n > 0 && 0 <= k <= 5
    ensures 0 <= (2 * n * k + 4) / 10 <= n
  {
    Times(2 * n, 0, k);
    Times(2 * n, k, 5);
  }

  lemma SortedDistinct(values: seq<int>, ordered: seq<int>)
    requires Distinct(values) && multiset(ordered) == multiset(values)
    ensures Distinct(ordered)
  {
    forall i, j | 0 <= i < j < |ordered| ensures ordered[i] != ordered[j] {
      if ordered[i] == ordered[j] {
        TwiceInMultiset(ordered, i, j);
        OnceInMultiset(values, ordered[i]);
      }
    }
  }

  lemma TwiceInMultiset(xs: seq<int>, i: nat, j: nat)
    requires i < j < |xs| && xs[i] == xs[j]
    ensures multiset(xs)[xs[i]] >= 2
  {
    assert xs == xs[..j] + ([xs[j]] + xs[j + 1..]);
    assert xs[i] in xs[..j];
  }

  lemma {:induction false} OnceInMultiset(xs: seq<int>, x: int)
    requires Distinct(xs)
    ensures multiset(xs)[x] <= 1
  {
    if xs != [] {
      assert xs == [xs[0]] + xs[1..];
      OnceInMultiset(xs[1..], x);
      if x == xs[0] {
        assert x !in xs[1..];
      }
    }
  }

  // ---- the loop and the scores --------------------------------------------------------------------

  /** The dictionaries `first` and `last` after the first i places. */
  predicate Places(ordered: seq<int>, first: map<int, nat>, last: map<int, nat>, i: nat)
    requires i <= |ordered|
  {
    && first.Keys == last.Keys
    && (forall v <- first :: first[v] <= last[v] < i && ordered[first[v]] == v && ordered[last[v]] == v)
    && (forall k :: 0 <= k < i ==> ordered[k] in first && first[ordered[k]] <= k <= last[ordered[k]])
  }

  method FindPlaces(ordered: seq<int>) returns (first: map<int, nat>, last: map<int, nat>)
    ensures Places(ordered, first, last, |ordered|)
  {
    first, last := map[], map[];
    var i := 0;
    while i < |ordered|
      invariant 0 <= i <= |ordered| && Places(ordered, first, last, i)
    {
      var value := ordered[i];
      if value !in first {
        first := first[value := i];
      }
      last := last[value := i];
      i := i + 1;
    }
  }

  lemma PlacesGiveRank(values: seq<int>, ordered: seq<int>, first: map<int, nat>, last: map<int, nat>, v: int)
    requires Ascending(ordered) && multiset(ordered) == multiset(values) && Places(ordered, first, last, |ordered|)
    requires v in values
    ensures |ordered| == |values| && v in first && v in last && first[v] + last[v] + 1 == TwiceRank(values, v)
  {
    assert v in multiset(ordered);
    PlacesAreCounts(ordered, v, first[v], last[v]);
    CountIgnoresOrder(ordered, values, Below(v));
    CountIgnoresOrder(ordered, values, AtMost(v));
  }

  /** _quintiles: first and last places of each value in sorted order. */
  method QuintilesOf(values: seq<int>) returns (levels: seq<int>)
    ensures |levels| == |values|
    ensures forall k :: 0 <= k < |values| ==> levels[k] == Level(values, values[k])
  {
    var ordered := Sorted(values);
    SortedIsSorted(values);
    var first, last := FindPlaces(ordered);
    var n := |ordered|;
    levels := [];
    var j := 0;
    while j < |values|
      invariant 0 <= j <= |values| && |levels| == j
      invariant forall k :: 0 <= k < j ==> levels[k] == Level(values, values[k])
    {
      PlacesGiveRank(values, ordered, first, last, values[j]);
      levels := levels + [(first[values[j]] + last[values[j]] + 1) * LEVELS / (2 * n) + 1];
      j := j + 1;
    }
  }

  datatype Client = Client(recencyDays: int, frequency: int, monetary: int)

  function Column(rows: seq<Client>, f: Client -> int): (xs: seq<int>)
    ensures |xs| == |rows| && forall k :: 0 <= k < |rows| ==> xs[k] == f(rows[k])
  {
    seq(|rows|, k requires 0 <= k < |rows| => f(rows[k]))
  }

  function Recency(): Client -> int { (c: Client) => -c.recencyDays }

  function Frequency(): Client -> int { (c: Client) => c.frequency }

  function Monetary(): Client -> int { (c: Client) => c.monetary }

  function Sums(rows: seq<Client>): (xs: seq<int>)
    ensures |xs| == |rows|
  {
    seq(|rows|, k requires 0 <= k < |rows| =>
      Level(Column(rows, Recency()), -rows[k].recencyDays)
      + Level(Column(rows, Frequency()), rows[k].frequency)
      + Level(Column(rows, Monetary()), rows[k].monetary))
  }

  /** rfm_scores. */
  function Scores(rows: seq<Client>): (xs: seq<int>)
    ensures |xs| == |rows|
  {
    seq(|rows|, k requires 0 <= k < |rows| => Level(Sums(rows), Sums(rows)[k]))
  }

  /** A client at least as good in R, F and M never scores lower; every score is a quintile. */
  lemma ScoresRespectDominance(rows: seq<Client>, a: nat, b: nat)
    requires a < |rows| && b < |rows|
    requires rows[a].recencyDays <= rows[b].recencyDays
    requires rows[a].frequency >= rows[b].frequency && rows[a].monetary >= rows[b].monetary
    ensures 1 <= Scores(rows)[b] <= Scores(rows)[a] <= 5
  {
    LevelKeepsOrder(Column(rows, Recency()), -rows[b].recencyDays, -rows[a].recencyDays);
    LevelKeepsOrder(Column(rows, Frequency()), rows[b].frequency, rows[a].frequency);
    LevelKeepsOrder(Column(rows, Monetary()), rows[b].monetary, rows[a].monetary);
    LevelKeepsOrder(Sums(rows), Sums(rows)[b], Sums(rows)[a]);
    LevelIsAQuintile(Sums(rows), Sums(rows)[a]);
    LevelIsAQuintile(Sums(rows), Sums(rows)[b]);
  }

  lemma ColumnsExchanged(rows: seq<Client>, other: seq<Client>, f: Client -> int, g: Client -> int)
    requires |other| == |rows| && forall k :: 0 <= k < |rows| ==> f(other[k]) == g(rows[k])
    ensures Column(other, f) == Column(rows, g)
  {
  }

  lemma SumAt(rows: seq<Client>, k: nat, r: seq<int>, f: seq<int>, m: seq<int>)
    requires k < |rows| && r == Column(rows, Recency()) && f == Column(rows, Frequency()) && m == Column(rows, Monetary())
    ensures Sums(rows)[k] == Level(r, r[k]) + Level(f, f[k]) + Level(m, m[k])
  {
  }

  lemma MoneyForFrequency(rows: seq<Client>, fm: seq<Client>)
    requires |fm| == |rows|
    requires forall k :: 0 <= k < |rows| ==> fm[k] == Client(rows[k].recencyDays, rows[k].monetary, rows[k].frequency)
    ensures Sums(fm) == Sums(rows)
  {
    var r, f, m := Column(rows, Recency()), Column(rows, Frequency()), Column(rows, Monetary());
    ColumnsExchanged(rows, fm, Recency(), Recency());
    ColumnsExchanged(rows, fm, Frequency(), Monetary());
    ColumnsExchanged(rows, fm, Monetary(), Frequency());
    forall k | 0 <= k < |rows| ensures Sums(fm)[k] == Sums(rows)[k] {
      SumAt(rows, k, r, f, m);
      SumAt(fm, k, r, m, f);
    }
  }

  lemma FrequencyForRecency(rows: seq<Client>, rf: seq<Client>)
    requires |rf| == |rows|
    requires forall k :: 0 <= k < |rows| ==> rf[k] == Client(-rows[k].frequency, -rows[k].recencyDays, rows[k].monetary)
    ensures Sums(rf) == Sums(rows)
  {
    var r, f, m := Column(rows, Recency()), Column(rows, Frequency()), Column(rows, Monetary());
    ColumnsExchanged(rows, rf, Recency(), Frequency());
    ColumnsExchanged(rows, rf, Frequency(), Recency());
    ColumnsExchanged(rows, rf, Monetary(), Monetary());
    forall k | 0 <= k < |rows| ensures Sums(rf)[k] == Sums(rows)[k] {
      SumAt(rows, k, r, f, m);
      SumAt(rf, k, f, r, m);
    }
  }

  /** The three criteria weigh the same: exchanging two of them for all clients changes no score. */
  lemma CriteriaWeighTheSame(rows: seq<Client>, fm: seq<Client>, rf: seq<Client>)
    requires |fm| == |rows| && |rf| == |rows|
    requires forall k :: 0 <= k < |rows| ==> fm[k] == Client(rows[k].recencyDays, rows[k].monetary, rows[k].frequency)
    requires forall k :: 0 <= k < |rows| ==> rf[k] == Client(-rows[k].frequency, -rows[k].recencyDays, rows[k].monetary)
    ensures Scores(fm) == Scores(rows) && Scores(rf) == Scores(rows)
  {
    MoneyForFrequency(rows, fm);
    FrequencyForRecency(rows, rf);
  }
}

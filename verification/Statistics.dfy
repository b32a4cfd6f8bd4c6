/** Aggregates of node loads: the mean, and percentiles interpolated between ranks. Loads are reals. */
module Statistics {
  import opened Prelude
  import opened Settings

  ghost predicate Ascending(s: seq<real>) {
    forall i, j | 0 <= i < j < |s| :: s[i] <= s[j]
  }

  function Insert(x: real, s: seq<real>): seq<real> {
    if s == [] then [x]
    else if x <= s[0] then [x] + s
    else [s[0]] + Insert(x, s[1..])
  }

  /** The sorted copy that percentiles are read from. */
  function Sort(s: seq<real>): seq<real> {
    if s == [] then [] else Insert(s[0], Sort(s[1..]))
  }

  function Sum(s: seq<real>): real {
    if s == [] then 0.0 else Sum(s[..|s| - 1]) + s[|s| - 1]
  }

  function Mean(s: seq<real>): real {
    if s == [] then 0.0 else Sum(s) / |s| as real
  }

  /** The value at a fractional rank of a sorted sequence. */
  function AtRank(s: seq<real>, position: real): real
    requires s != [] && 0.0 <= position <= (|s| - 1) as real
  {
    var lower := position.Floor;
    var upper := lower + 1;
    if upper >= |s| then s[lower]
    else
      var weight := position - lower as real;
      s[lower] * (1.0 - weight) + s[upper] * weight
  }

  function Rank(n: nat, p: real): real
    requires n > 0 && 0.0 <= p <= 1.0
    ensures 0.0 <= Rank(n, p) <= (n - 1) as real
  {
    p * (n - 1) as real
  }

  lemma {:induction false} SortIsPermutation(s: seq<real>)
    ensures multiset(Sort(s)) == multiset(s) && |Sort(s)| == |s|
  {
    if s != [] {
      SortIsPermutation(s[1..]);
      InsertAdds(s[0], Sort(s[1..]));
      assert s == [s[0]] + s[1..];
    }
  }

  lemma {:induction false} InsertAdds(x: real, s: seq<real>)
    ensures multiset(Insert(x, s)) == multiset{x} + multiset(s) && |Insert(x, s)| == |s| + 1
  {
    if s != [] && x > s[0] {
      InsertAdds(x, s[1..]);
      assert s == [s[0]] + s[1..];
    }
  }

  lemma {:induction false} InsertKeepsOrder(x: real, s: seq<real>)
    requires Ascending(s)
    ensures Ascending(Insert(x, s))
  {
    if s != [] && x > s[0] {
      InsertKeepsOrder(x, s[1..]);
      InsertAdds(x, s[1..]);
      var rest := Insert(x, s[1..]);
      forall j | 0 <= j < |rest| ensures s[0] <= rest[j] {
        assert rest[j] in multiset(rest);
        assert rest[j] == x || rest[j] in s[1..];
      }
    }
  }

  lemma {:induction false} SortIsAscending(s: seq<real>)
    ensures Ascending(Sort(s)) && |Sort(s)| == |s|
  {
    SortIsPermutation(s);
    if s != [] {
      SortIsAscending(s[1..]);
      InsertKeepsOrder(s[0], Sort(s[1..]));
    }
  }

  function Percentile(values: seq<real>, p: real): real
    requires 0.0 <= p <= 1.0
  {
    if values == [] then 0.0
    else
      SortIsPermutation(values);
      AtRank(Sort(values), Rank(|values|, p))
  }

  /** Mean computed by accumulation. */
  method Average(values: seq<real>) returns (mean: real)
    ensures mean == Mean(values)
  {
    if |values| == 0 {
      return 0.0;
    }
    var sum := 0.0;
    for i := 0 to |values|
      invariant sum == Sum(values[..i])
    {
      assert values[..i + 1][..i] == values[..i];
      sum := sum + values[i];
    }
    assert values[..|values|] == values;
    mean := sum / |values| as real;
  }

  function Aggregate(loads: seq<real>, mode: EvalMode): real {
    match mode
    case Average => Mean(loads)
    case Median => Percentile(loads, 0.5)
    case P75 => Percentile(loads, 0.75)
    case P90 => Percentile(loads, 0.9)
  }

  /** The aggregate of the configured kind. */
  method EvaluateAggregate(loads: seq<real>, mode: EvalMode) returns (aggregate: real)
    ensures aggregate == Aggregate(loads, mode)
  {
    match mode {
      case Average => aggregate := Average(loads);
      case Median => aggregate := Percentile(loads, 0.5);
      case P75 => aggregate := Percentile(loads, 0.75);
      case P90 => aggregate := Percentile(loads, 0.9);
    }
  }

  lemma QuotientBelow(sum: real, n: nat, t: real)
    requires n > 0
    ensures sum / n as real < t <==> sum < t * n as real
  {
    var q := sum / n as real;
    assert sum == q * n as real;
    if q < t {
      assert (t - q) * n as real > 0.0;
      assert t * n as real - q * n as real == (t - q) * n as real;
    } else {
      assert (q - t) * n as real >= 0.0;
      assert q * n as real - t * n as real == (q - t) * n as real;
    }
  }

  /** The mean is below a threshold exactly if the total is below the threshold times the number of loads. */
  lemma AverageBelow(loads: seq<real>, t: real)
    requires loads != []
    ensures Aggregate(loads, EvalMode.Average) < t <==> Sum(loads) < t * |loads| as real
  {
    QuotientBelow(Sum(loads), |loads|, t);
  }

  // ----- How many loads lie below a percentile

  function CountBelow(s: seq<real>, t: real): nat {
    if s == [] then 0 else (if s[0] < t then 1 else 0) + CountBelow(s[1..], t)
  }

  lemma {:induction false} CountBelowInsert(x: real, s: seq<real>, t: real)
    ensures CountBelow(Insert(x, s), t) == CountBelow(s, t) + (if x < t then 1 else 0)
  {
    if s != [] && x > s[0] {
      CountBelowInsert(x, s[1..], t);
    } else if s != [] {
      assert ([x] + s)[1..] == s;
    }
  }

  lemma {:induction false} CountBelowSort(s: seq<real>, t: real)
    ensures CountBelow(Sort(s), t) == CountBelow(s, t)
  {
    if s != [] {
      CountBelowSort(s[1..], t);
      CountBelowInsert(s[0], Sort(s[1..]), t);
    }
  }

  lemma {:induction false} CountBelowBounds(s: seq<real>, t: real)
    ensures CountBelow(s, t) <= |s|
  {
    if s != [] {
      CountBelowBounds(s[1..], t);
    }
  }

  /** In a sorted sequence exactly the elements before the count lie below. */
  lemma {:induction false} CountBelowIsCut(s: seq<real>, t: real, k: nat)
    requires Ascending(s) && k < |s|
    ensures s[k] < t <==> k < CountBelow(s, t)
  {
    if k == 0 {
      if s[0] >= t {
        NoneBelow(s, t);
      }
    } else if s[0] < t {
      CountBelowIsCut(s[1..], t, k - 1);
    } else {
      NoneBelow(s, t);
    }
  }

  lemma {:induction false} NoneBelow(s: seq<real>, t: real)
    requires forall i | 0 <= i < |s| :: s[i] >= t
    ensures CountBelow(s, t) == 0
  {
    if s != [] {
      NoneBelow(s[1..], t);
    }
  }

  lemma Between(a: real, b: real, w: real)
    requires a <= b && 0.0 <= w <= 1.0
    ensures a <= a * (1.0 - w) + b * w <= b
  {
    BlendForm(a, b, w);
    Scale(b - a, 0.0, w);
    Scale(b - a, w, 1.0);
  }

  lemma BetweenStrict(a: real, b: real, w: real, t: real)
    requires a < t && b < t && 0.0 <= w <= 1.0
    ensures a * (1.0 - w) + b * w < t
  {
    if a <= b {
      Between(a, b, w);
    } else {
      Between(b, a, 1.0 - w);
      assert b * (1.0 - (1.0 - w)) + a * (1.0 - w) == a * (1.0 - w) + b * w;
    }
  }

  /** The value at a rank lies between its two neighbours. */
  lemma AtRankBetween(s: seq<real>, position: real)
    requires Ascending(s) && s != [] && 0.0 <= position <= (|s| - 1) as real
    ensures var lower := position.Floor;
            var upper := Min(lower + 1, |s| - 1);
            0 <= lower <= upper < |s| && s[lower] <= AtRank(s, position) <= s[upper]
  {
    var lower := position.Floor;
    if lower + 1 < |s| {
      Between(s[lower], s[lower + 1], position - lower as real);
    }
  }

  /** What a percentile gate says about nodes. If the percentile is below the threshold, so are the
      loads up to its rank and that one too; and one load more, if there is one, is enough for the
      percentile to be below. Only a count equal to the first figure leaves the decision to the
      interpolation. */
  lemma PercentileCounts(values: seq<real>, p: real, t: real)
    requires values != [] && 0.0 <= p <= 1.0
    ensures var lower := Rank(|values|, p).Floor;
            && 0 <= lower < |values|
            && (Percentile(values, p) < t ==> CountBelow(values, t) >= lower + 1)
            && (CountBelow(values, t) >= Min(lower + 2, |values|) ==> Percentile(values, p) < t)
  {
    var s := Sort(values);
    SortIsAscending(values);
    CountBelowSort(values, t);
    var position := Rank(|values|, p);
    var lower := position.Floor;
    AtRankBetween(s, position);
    CountBelowIsCut(s, t, lower);
    if lower + 1 < |s| {
      CountBelowIsCut(s, t, lower + 1);
      if s[lower] < t && s[lower + 1] < t {
        BetweenStrict(s[lower], s[lower + 1], position - lower as real, t);
      }
    }
  }

  lemma AtWholeRank(s: seq<real>, position: real, rank: nat)
    requires position == rank as real && rank < |s|
    ensures AtRank(s, position) == s[rank]
  {
  }

  lemma BetweenRanks(s: seq<real>, position: real, rank: nat)
    requires rank as real <= position <= (rank + 1) as real && rank + 1 < |s|
    ensures var w := position - rank as real; AtRank(s, position) == s[rank] * (1.0 - w) + s[rank + 1] * w
  {
    if position == (rank + 1) as real {
      AtWholeRank(s, position, rank + 1);
    }
  }

  /** Of the loads, x is the one at this rank when they are sorted: no more than that lie below it, and more
      lie below anything larger. */
  ghost predicate IsAtRank(values: seq<real>, x: real, rank: nat) {
    x in values && CountBelow(values, x) <= rank && forall t | t > x :: CountBelow(values, t) > rank
  }

  lemma SortedAtRank(values: seq<real>, rank: nat)
    requires rank < |Sort(values)|
    ensures IsAtRank(values, Sort(values)[rank], rank)
  {
    var s := Sort(values);
    var x := s[rank];
    SortIsAscending(values);
    SortIsPermutation(values);
    assert x in multiset(s);
    CountBelowSort(values, x);
    CountBelowIsCut(s, x, rank);
    forall t | t > x ensures CountBelow(values, t) > rank {
      CountBelowSort(values, t);
      CountBelowIsCut(s, t, rank);
    }
  }

  lemma ValueAt(values: seq<real>, p: real, position: real) returns (x: real)
    requires values != [] && 0.0 <= p <= 1.0 && position == p * (|values| - 1) as real
    ensures 0.0 <= position <= (|values| - 1) as real && |Sort(values)| == |values|
    ensures x == Percentile(values, p) == AtRank(Sort(values), position)
  {
    SortIsPermutation(values);
    assert Rank(|values|, p) == position;
    x := Percentile(values, p);
  }

  /** At a rank without a fraction the percentile is the load at that rank. */
  lemma PercentileAtRank(values: seq<real>, p: real, rank: nat)
    requires values != [] && 0.0 <= p <= 1.0 && rank as real == p * (|values| - 1) as real
    ensures IsAtRank(values, Percentile(values, p), rank)
  {
    var x := ValueAt(values, p, rank as real);
    AtWholeRank(Sort(values), rank as real, rank);
    SortedAtRank(values, rank);
  }

  /** A weighted mean of two neighbours. */
  function Blend(a: real, b: real, weight: real): real {
    a * (1.0 - weight) + b * weight
  }

  lemma ValueBetween(values: seq<real>, position: real, rank: nat, x: real) returns (a: real, b: real)
    requires |Sort(values)| > rank + 1 && rank as real <= position <= (rank + 1) as real
    requires x == AtRank(Sort(values), position)
    ensures IsAtRank(values, a, rank) && IsAtRank(values, b, rank + 1)
    ensures x == Blend(a, b, position - rank as real)
  {
    a, b := Sort(values)[rank], Sort(values)[rank + 1];
    SortedAtRank(values, rank);
    SortedAtRank(values, rank + 1);
    BetweenRanks(Sort(values), position, rank);
  }

  /** Between two ranks it is interpolated. */
  lemma PercentileInterpolates(values: seq<real>, p: real, position: real, rank: nat) returns (a: real, b: real)
    requires |values| > rank + 1 && 0.0 <= p <= 1.0 && position == p * (|values| - 1) as real
    requires rank as real <= position <= (rank + 1) as real
    ensures IsAtRank(values, a, rank) && IsAtRank(values, b, rank + 1)
    ensures Percentile(values, p) == Blend(a, b, position - rank as real)
  {
    var x := ValueAt(values, p, position);
    a, b := ValueBetween(values, position, rank, x);
  }

  /** The same seen from above: at or over the threshold, at least this many loads are too. */
  lemma PercentileCountsAbove(values: seq<real>, p: real, t: real)
    requires values != [] && 0.0 <= p <= 1.0 && Percentile(values, p) >= t
    ensures |values| - CountBelow(values, t) >= Max(1, |values| - 1 - Rank(|values|, p).Floor)
  {
    PercentileCounts(values, p, t);
  }

  // ----- Order laws

  /** The first of a sorted sequence is the least. */
  lemma FirstIsLeast(s: seq<real>, x: real)
    requires Ascending(s) && x in multiset(s)
    ensures s != [] && s[0] <= x
  {
    var i :| 0 <= i < |s| && s[i] == x;
  }

  lemma RestOf(s: seq<real>)
    requires s != [] && Ascending(s)
    ensures Ascending(s[1..]) && multiset(s[1..]) == multiset(s) - multiset{s[0]} && s[0] in multiset(s)
    ensures s == [s[0]] + s[1..]
  {
    assert s == [s[0]] + s[1..];
  }

  lemma NoElements(s: seq<real>)
    requires multiset(s) == multiset{}
    ensures s == []
  {
    assert |multiset(s)| == |s|;
  }

  lemma SameFirst(a: seq<real>, b: seq<real>)
    requires a != [] && Ascending(a) && Ascending(b) && multiset(a) == multiset(b)
    ensures b != [] && a[0] == b[0]
  {
    assert a[0] in multiset(a);
    FirstIsLeast(b, a[0]);
    assert b[0] in multiset(b);
    FirstIsLeast(a, b[0]);
  }

  /** Two sorted sequences with the same elements are the same sequence. */
  lemma {:induction false} SortedUnique(a: seq<real>, b: seq<real>)
    requires Ascending(a) && Ascending(b) && multiset(a) == multiset(b)
    ensures a == b
  {
    if a == [] {
      NoElements(b);
    } else {
      SameFirst(a, b);
      var c, d := a[1..], b[1..];
      assert Ascending(c) && multiset(c) == multiset(a) - multiset{a[0]} by {
        RestOf(a);
      }
      assert Ascending(d) && multiset(d) == multiset(b) - multiset{b[0]} by {
        RestOf(b);
      }
      SortedUnique(c, d);
      assert a == [a[0]] + c && b == [b[0]] + d;
    }
  }

  /** Elementwise comparison. */
  ghost predicate Dominated(a: seq<real>, b: seq<real>) {
    |a| == |b| && forall i | 0 <= i < |a| :: a[i] <= b[i]
  }

  lemma {:induction false} InsertMonotone(x: real, s: seq<real>, y: real, t: seq<real>)
    requires Ascending(s) && Ascending(t) && x <= y && Dominated(s, t)
    ensures Dominated(Insert(x, s), Insert(y, t))
    decreases |s|
  {
    if s != [] {
      var s', t' := s[1..], t[1..];
      assert s == [s[0]] + s' && t == [t[0]] + t';
      if x > s[0] && y > t[0] {
        InsertMonotone(x, s', y, t');
      } else if x > s[0] {
        InsertMonotone(x, s', t[0], t');
        InsertFirst(t);
      } else if y > t[0] {
        InsertMonotone(s[0], s', y, t');
        InsertFirst(s);
      }
    }
  }

  lemma InsertFirst(s: seq<real>)
    requires s != [] && Ascending(s)
    ensures Insert(s[0], s[1..]) == s
  {
    assert s == [s[0]] + s[1..];
  }

  /** Sorting preserves elementwise comparison. */
  lemma {:induction false} SortMonotone(a: seq<real>, b: seq<real>)
    requires Dominated(a, b)
    ensures Dominated(Sort(a), Sort(b))
  {
    if a != [] {
      SortMonotone(a[1..], b[1..]);
      SortIsAscending(a[1..]);
      SortIsAscending(b[1..]);
      InsertMonotone(a[0], Sort(a[1..]), b[0], Sort(b[1..]));
    }
  }

  lemma BlendMonotone(a: real, b: real, c: real, d: real, w: real)
    requires a <= c && b <= d && 0.0 <= w <= 1.0
    ensures a * (1.0 - w) + b * w <= c * (1.0 - w) + d * w
  {
    var u := 1.0 - w;
    Scale(u, a, c);
    Scale(w, b, d);
    var x, y, z, t := a * u, b * w, c * u, d * w;
    assert x <= z && y <= t;
  }

  lemma AtRankMonotone(s: seq<real>, t: seq<real>, position: real)
    requires Dominated(s, t) && s != [] && 0.0 <= position <= (|s| - 1) as real
    ensures AtRank(s, position) <= AtRank(t, position)
  {
    var lower := position.Floor;
    if lower + 1 < |s| {
      BlendMonotone(s[lower], s[lower + 1], t[lower], t[lower + 1], position - lower as real);
    }
  }

  lemma BlendForm(a: real, b: real, w: real)
    ensures a * (1.0 - w) + b * w == a + (b - a) * w
  {
    assert a * (1.0 - w) == a - a * w;
  }

  lemma Scale(c: real, a: real, b: real)
    requires 0.0 <= c && a <= b
    ensures c * a <= c * b && a * c <= b * c
  {
    var gap := b - a;
    assert c * gap >= 0.0;
    assert c * (a + gap) == c * a + c * gap;
  }

  lemma Steeper(x: real, y: real, v: real, w: real)
    requires x <= y && v <= w
    ensures x * (1.0 - v) + y * v <= x * (1.0 - w) + y * w
  {
    BlendForm(x, y, v);
    BlendForm(x, y, w);
    Scale(y - x, v, w);
  }

  /** The value at a rank grows with the rank, within one step and across steps. */
  lemma AtRankAscending(s: seq<real>, a: real, b: real)
    requires Ascending(s) && s != [] && 0.0 <= a <= b <= (|s| - 1) as real
    ensures AtRank(s, a) <= AtRank(s, b)
  {
    var low, high := a.Floor, b.Floor;
    if low == high {
      if low + 1 < |s| {
        var x, y, v, w := s[low], s[low + 1], a - low as real, b - low as real;
        Steeper(x, y, v, w);
      }
    } else {
      AtRankBetween(s, a);
      AtRankBetween(s, b);
    }
  }

  lemma RankAscending(n: nat, p: real, q: real)
    requires n > 0 && 0.0 <= p <= q <= 1.0
    ensures Rank(n, p) <= Rank(n, q)
  {
    var last := (n - 1) as real;
    Scale(last, p, q);
  }

  /** Medians, 75th and 90th percentiles come in this order. */
  lemma PercentileAscending(values: seq<real>, p: real, q: real)
    requires 0.0 <= p <= q <= 1.0
    ensures Percentile(values, p) <= Percentile(values, q)
  {
    if values != [] {
      SortIsAscending(values);
      RankAscending(|values|, p, q);
      AtRankAscending(Sort(values), Rank(|values|, p), Rank(|values|, q));
    }
  }

  lemma PercentileMonotone(a: seq<real>, b: seq<real>, p: real)
    requires Dominated(a, b) && 0.0 <= p <= 1.0
    ensures Percentile(a, p) <= Percentile(b, p)
  {
    if a != [] {
      SortMonotone(a, b);
      SortIsPermutation(a);
      AtRankMonotone(Sort(a), Sort(b), Rank(|a|, p));
    }
  }

  lemma PercentileBetween(s: seq<real>, p: real, low: real, high: real)
    requires s != [] && 0.0 <= p <= 1.0
    requires forall i | 0 <= i < |s| :: low <= s[i] <= high
    ensures low <= Percentile(s, p) <= high
  {
    var t := Sort(s);
    SortIsPermutation(s);
    SortIsAscending(s);
    forall i | 0 <= i < |t| ensures low <= t[i] <= high {
      assert t[i] in multiset(s);
    }
    AtRankBetween(t, Rank(|s|, p));
  }

  lemma {:induction false} SumOfInsert(x: real, s: seq<real>)
    ensures SumLeft(Insert(x, s)) == x + SumLeft(s)
  {
    if s != [] && x > s[0] {
      SumOfInsert(x, s[1..]);
    } else if s != [] {
      assert ([x] + s)[1..] == s;
    }
  }

  /** The sum taken from the other end. */
  ghost function SumLeft(s: seq<real>): real {
    if s == [] then 0.0 else s[0] + SumLeft(s[1..])
  }

  lemma {:induction false} SumEitherWay(s: seq<real>)
    ensures Sum(s) == SumLeft(s)
  {
    if |s| > 1 {
      var last := |s| - 1;
      SumEitherWay(s[..last]);
      SumEitherWay(s[1..]);
      SumEitherWay(s[1..last]);
      assert s[..last][1..] == s[1..last] == s[1..][..last - 1];
    } else if |s| == 1 {
      assert s[..0] == [] && s[1..] == [];
    }
  }

  lemma {:induction false} SumOfSort(s: seq<real>)
    ensures SumLeft(Sort(s)) == SumLeft(s)
  {
    if s != [] {
      SumOfSort(s[1..]);
      SumOfInsert(s[0], Sort(s[1..]));
    }
  }

  lemma {:induction false} SumMonotone(a: seq<real>, b: seq<real>)
    requires Dominated(a, b)
    ensures Sum(a) <= Sum(b)
  {
    if a != [] {
      SumMonotone(a[..|a| - 1], b[..|b| - 1]);
    }
  }

  /** Every aggregate depends on the loads alone, not on the order in which nodes were listed. */
  lemma AggregateIgnoresOrder(a: seq<real>, b: seq<real>, mode: EvalMode)
    requires multiset(a) == multiset(b)
    ensures Aggregate(a, mode) == Aggregate(b, mode)
  {
    assert |a| == |multiset(a)| == |multiset(b)| == |b|;
    SortIsPermutation(a);
    SortIsPermutation(b);
    SortIsAscending(a);
    SortIsAscending(b);
    SortedUnique(Sort(a), Sort(b));
    SumEitherWay(a);
    SumEitherWay(b);
    SumOfSort(a);
    SumOfSort(b);
  }

  /** Busier nodes never make an aggregate smaller. */
  lemma AggregateMonotone(a: seq<real>, b: seq<real>, mode: EvalMode)
    requires Dominated(a, b)
    ensures Aggregate(a, mode) <= Aggregate(b, mode)
  {
    match mode
    case Average =>
      if a != [] {
        SumMonotone(a, b);
        DivideMonotone(Sum(a), Sum(b), |a| as real);
      }
    case Median => PercentileMonotone(a, b, 0.5);
    case P75 => PercentileMonotone(a, b, 0.75);
    case P90 => PercentileMonotone(a, b, 0.9);
  }

  lemma DivideMonotone(x: real, y: real, n: real)
    requires n > 0.0 && x <= y
    ensures x / n <= y / n
  {
    assert y / n - x / n == (y - x) / n;
  }

  lemma {:induction false} SumBetween(s: seq<real>, low: real, high: real)
    requires forall i | 0 <= i < |s| :: low <= s[i] <= high
    ensures low * |s| as real <= Sum(s) <= high * |s| as real
  {
    if s != [] {
      SumBetween(s[..|s| - 1], low, high);
      assert low * |s| as real == low * (|s| - 1) as real + low;
      assert high * |s| as real == high * (|s| - 1) as real + high;
    }
  }

  /** Every aggregate lies between the smallest and the largest load. */
  lemma AggregateBetween(s: seq<real>, mode: EvalMode, low: real, high: real)
    requires s != [] && forall i | 0 <= i < |s| :: low <= s[i] <= high
    ensures low <= Aggregate(s, mode) <= high
  {
    match mode
    case Average =>
      SumBetween(s, low, high);
      var n := |s| as real;
      DivideMonotone(low * n, Sum(s), n);
      DivideMonotone(Sum(s), high * n, n);
      assert (low * n) / n == low && (high * n) / n == high;
    case Median => PercentileBetween(s, 0.5, low, high);
    case P75 => PercentileBetween(s, 0.75, low, high);
    case P90 => PercentileBetween(s, 0.9, low, high);
  }
}

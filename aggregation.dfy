/**
  The daily aggregation of `fetch_pricehistory`: `set_index("timestamp").sort_index()`
  followed by `resample("D").agg(price_mean=mean, price_median=median, volume_sum=sum)`.

  `resample("D")` labels each bin with the midnight of its day and emits one bin for
  every day from the day of the first observation to the day of the last, also for
  days without observations. On such a gap day the mean and the median are NaN
  (`None` here) and the sum is 0. Prices and volumes are exact `real`s.
*/
module DailyAggregation {
  import opened Wrappers
  import opened Calendar
  import opened Sorting

  /** One surviving history row: when, at what price, and how many items changed hands. */
  datatype Observation = Observation(time: DateTime, price: real, volume: real)

  /** One row of the daily table: the day, `price_mean`, `price_median` and `volume_sum`. */
  datatype DailyRow = DailyRow(day: Date, mean: Option<real>, median: Option<real>, volume: real)

  predicate AllValid(obs: seq<Observation>) {
    forall i :: 0 <= i < |obs| ==> ValidDateTime(obs[i].time)
  }

  function DayOf(o: Observation): Date {
    DateOf(o.time)
  }

  // ----- Statistics -----

  function Sum(xs: seq<real>): real {
    if xs == [] then 0.0 else xs[0] + Sum(xs[1..])
  }

  function Mean(xs: seq<real>): real
    requires xs != []
  {
    Sum(xs) / (|xs| as real)
  }

  function RealLe(a: real, b: real): bool {
    a <= b
  }

  lemma RealLeTotalPreorder()
    ensures TotalPreorder(RealLe)
  {
  }

  /**
    pandas' `median`: the middle value of the sorted values, or the average of the two
    middle values when there is an even number of them.
  */
  function Median(xs: seq<real>): (m: real)
    requires xs != []
  {
    RealLeTotalPreorder();
    Middle(Sort(xs, RealLe))
  }

  /** The middle value of `s`, or the average of its two middle values when `|s|` is even. */
  function Middle(s: seq<real>): real
    requires s != []
  {
    var n := |s|;
    if n % 2 == 1 then s[n / 2] else (s[n / 2 - 1] + s[n / 2]) / 2.0
  }

  /** Which side of a value `m` another value lies on, strictly. */
  datatype Side = Below | Above

  predicate Beyond(x: real, m: real, side: Side) {
    if side == Below then x < m else x > m
  }

  /** The number of values strictly on `side` of `m`. */
  function CountBeyond(xs: seq<real>, m: real, side: Side): (n: nat)
    ensures n <= |xs|
  {
    if xs == [] then 0 else (if Beyond(xs[0], m, side) then 1 else 0) + CountBeyond(xs[1..], m, side)
  }

  lemma {:induction false} CountBeyondAppend(a: seq<real>, b: seq<real>, m: real, side: Side)
    ensures CountBeyond(a + b, m, side) == CountBeyond(a, m, side) + CountBeyond(b, m, side)
  {
    if a == [] {
      assert a + b == b;
    } else {
      assert (a + b)[1..] == a[1..] + b;
      CountBeyondAppend(a[1..], b, m, side);
    }
  }

  lemma {:induction false} CountBeyondNone(xs: seq<real>, m: real, side: Side)
    requires forall i :: 0 <= i < |xs| ==> !Beyond(xs[i], m, side)
    ensures CountBeyond(xs, m, side) == 0
  {
    if xs != [] {
      CountBeyondNone(xs[1..], m, side);
    }
  }

  /** Taking the value at position `j` out of `b` takes its contribution out of the count. */
  lemma CountBeyondRemove(b: seq<real>, j: int, m: real, side: Side)
    requires 0 <= j < |b|
    ensures CountBeyond(b, m, side)
            == CountBeyond(b[..j] + b[j + 1..], m, side) + (if Beyond(b[j], m, side) then 1 else 0)
  {
    var before, after := b[..j], b[j + 1..];
    assert b == before + ([b[j]] + after);
    assert ([b[j]] + after)[1..] == after;
    CountBeyondAppend(before, [b[j]] + after, m, side);
    CountBeyondAppend(before, after, m, side);
  }

  /** Counting does not depend on the order of the values. */
  lemma {:induction false} CountBeyondPermutation(a: seq<real>, b: seq<real>, m: real, side: Side)
    requires multiset(a) == multiset(b)
    ensures CountBeyond(a, m, side) == CountBeyond(b, m, side)
    decreases |a|
  {
    if a == [] {
      assert |b| == |multiset(b)| == 0;
    } else {
      var j := PickHead(a, b);
      CountBeyondPermutation(a[1..], b[..j] + b[j + 1..], m, side);
      CountBeyondRemove(b, j, m, side);
    }
  }

  /** When no value from position `k` on lies beyond `m`, at most `k` values do. */
  lemma CountBeyondBefore(s: seq<real>, m: real, side: Side, k: int)
    requires 0 <= k <= |s|
    requires forall i :: k <= i < |s| ==> !Beyond(s[i], m, side)
    ensures CountBeyond(s, m, side) <= k
  {
    assert s == s[..k] + s[k..];
    CountBeyondAppend(s[..k], s[k..], m, side);
    CountBeyondNone(s[k..], m, side);
  }

  /** When no value up to position `k` lies beyond `m`, at most `|s| - 1 - k` values do. */
  lemma CountBeyondAfter(s: seq<real>, m: real, side: Side, k: int)
    requires 0 <= k < |s|
    requires forall i :: 0 <= i <= k ==> !Beyond(s[i], m, side)
    ensures CountBeyond(s, m, side) <= |s| - 1 - k
  {
    assert s == s[..k + 1] + s[k + 1..];
    CountBeyondAppend(s[..k + 1], s[k + 1..], m, side);
    CountBeyondNone(s[..k + 1], m, side);
  }

  /** The median lies between the two middle values of the sorted values. */
  lemma MedianBetweenMiddles(xs: seq<real>)
    requires xs != []
    ensures TotalPreorder(RealLe)
    ensures var s := Sort(xs, RealLe);
            s[(|s| - 1) / 2] <= Median(xs) <= s[|s| / 2]
  {
    RealLeTotalPreorder();
    MiddleBetween(Sort(xs, RealLe));
  }

  lemma MiddleBetween(s: seq<real>)
    requires s != [] && SortedBy(s, RealLe)
    ensures s[(|s| - 1) / 2] <= Middle(s) <= s[|s| / 2]
  {
    var n := |s|;
    var h := n / 2;
    if n % 2 == 0 {
      assert (n - 1) / 2 == h - 1;
      assert RealLe(s[h - 1], s[h]);
      Midpoint(s[h - 1], s[h]);
    } else {
      assert (n - 1) / 2 == h;
    }
  }

  lemma Midpoint(a: real, b: real)
    requires a <= b
    ensures a <= (a + b) / 2.0 <= b
  {
  }

  /** In sorted order, a value at or after position `k` is at least the value at `k`. */
  lemma SortedFrom(s: seq<real>, k: int, i: int)
    requires SortedBy(s, RealLe) && 0 <= k <= i < |s|
    ensures s[k] <= s[i]
  {
    if k < i {
      assert RealLe(s[k], s[i]);
    }
  }

  /** The two middle positions of `n` sorted values leave at most half of them on either side. */
  lemma MiddleIndices(n: int)
    requires n > 0
    ensures 0 <= (n - 1) / 2 <= n / 2 < n
    ensures 2 * (n / 2) <= n && 2 * (n - 1 - (n - 1) / 2) <= n
  {
  }

  /** At most half of the values lie strictly below the median. */
  lemma MedianBelow(xs: seq<real>)
    requires xs != []
    ensures CountBeyond(xs, Median(xs), Below) * 2 <= |xs|
  {
    MedianBetweenMiddles(xs);
    var s := Sort(xs, RealLe);
    var m := Median(xs);
    var hi := |s| / 2;
    forall i | hi <= i < |s| ensures !Beyond(s[i], m, Below) {
      SortedFrom(s, hi, i);
    }
    CountBeyondBefore(s, m, Below, hi);
    CountBeyondPermutation(xs, s, m, Below);
  }

  /** At most half of the values lie strictly above the median. */
  lemma MedianAbove(xs: seq<real>)
    requires xs != []
    ensures CountBeyond(xs, Median(xs), Above) * 2 <= |xs|
  {
    MedianBetweenMiddles(xs);
    var s := Sort(xs, RealLe);
    var lo := (|s| - 1) / 2;
    NoneAboveUpTo(s, Median(xs), lo);
    MiddleIndices(|s|);
    CountBeyondAfter(s, Median(xs), Above, lo);
    CountBeyondPermutation(xs, s, Median(xs), Above);
  }

  /** In sorted order, no value up to position `k` lies above a bound of the value at `k`. */
  lemma NoneAboveUpTo(s: seq<real>, m: real, k: int)
    requires SortedBy(s, RealLe) && 0 <= k < |s| && s[k] <= m
    ensures forall i :: 0 <= i <= k ==> !Beyond(s[i], m, Above)
  {
    forall i | 0 <= i <= k ensures !Beyond(s[i], m, Above) {
      SortedFrom(s, i, k);
    }
  }

  // ----- Order does not matter to the statistics -----

  lemma {:induction false} SumAppend(a: seq<real>, b: seq<real>)
    ensures Sum(a + b) == Sum(a) + Sum(b)
  {
    if a == [] {
      assert a + b == b;
    } else {
      assert (a + b)[1..] == a[1..] + b;
      SumAppend(a[1..], b);
    }
  }

  lemma SumRemove(b: seq<real>, j: int)
    requires 0 <= j < |b|
    ensures Sum(b) == Sum(b[..j] + b[j + 1..]) + b[j]
  {
    var before, after := b[..j], b[j + 1..];
    assert b == before + ([b[j]] + after);
    assert ([b[j]] + after)[1..] == after;
    SumAppend(before, [b[j]] + after);
    SumAppend(before, after);
  }

  /** The sum does not depend on the order of the values. */
  lemma {:induction false} SumPermutation(a: seq<real>, b: seq<real>)
    requires multiset(a) == multiset(b)
    ensures Sum(a) == Sum(b)
    decreases |a|
  {
    if a == [] {
      assert |b| == |multiset(b)| == 0;
    } else {
      var j := PickHead(a, b);
      SumPermutation(a[1..], b[..j] + b[j + 1..]);
      SumRemove(b, j);
    }
  }

  lemma RealLeAntisymmetric()
    ensures Antisymmetric(RealLe)
  {
  }

  /** The median does not depend on the order of the values. */
  lemma MedianPermutation(a: seq<real>, b: seq<real>)
    requires a != [] && multiset(a) == multiset(b)
    ensures b != [] && Median(a) == Median(b)
  {
    RealLeTotalPreorder();
    assert |b| == |multiset(b)| == |a|;
    RealLeAntisymmetric();
    SortedUnique(Sort(a, RealLe), Sort(b, RealLe), RealLe);
  }

  // ----- Grouping by day -----

  /** The two columns that are aggregated. */
  datatype Column = Price | Volume

  function ValueOf(o: Observation, k: Column): real {
    if k == Price then o.price else o.volume
  }

  /** The values of column `k` of the observations made on day `d`, in their order. */
  function ValuesOn(obs: seq<Observation>, d: Date, k: Column): (r: seq<real>)
    ensures |r| <= |obs|
  {
    if obs == [] then []
    else (if DayOf(obs[0]) == d then [ValueOf(obs[0], k)] else []) + ValuesOn(obs[1..], d, k)
  }

  lemma {:induction false} ValuesOnAppend(a: seq<Observation>, b: seq<Observation>, d: Date, k: Column)
    ensures ValuesOn(a + b, d, k) == ValuesOn(a, d, k) + ValuesOn(b, d, k)
  {
    if a == [] {
      assert a + b == b;
    } else {
      assert (a + b)[1..] == a[1..] + b;
      ValuesOnAppend(a[1..], b, d, k);
    }
  }

  /** A day has values iff one of the observations was made on it. */
  lemma {:induction false} ValuesOnEmpty(obs: seq<Observation>, d: Date, k: Column)
    ensures ValuesOn(obs, d, k) == [] <==> forall i :: 0 <= i < |obs| ==> DayOf(obs[i]) != d
  {
    if obs != [] {
      ValuesOnEmpty(obs[1..], d, k);
      assert forall i :: 1 <= i < |obs| ==> obs[i] == obs[1..][i - 1];
    }
  }

  lemma ValuesOnRemove(b: seq<Observation>, j: int, d: Date, k: Column)
    requires 0 <= j < |b|
    ensures multiset(ValuesOn(b, d, k))
            == multiset(ValuesOn(b[..j] + b[j + 1..], d, k)) + multiset(ValuesOn([b[j]], d, k))
  {
    var before, after := b[..j], b[j + 1..];
    assert b == before + ([b[j]] + after);
    ValuesOnAppend(before, [b[j]] + after, d, k);
    ValuesOnAppend([b[j]], after, d, k);
    ValuesOnAppend(before, after, d, k);
  }

  /** Reordering the observations reorders each day's values and nothing more. */
  lemma {:induction false} ValuesOnPermutation(a: seq<Observation>, b: seq<Observation>, d: Date, k: Column)
    requires multiset(a) == multiset(b)
    ensures multiset(ValuesOn(a, d, k)) == multiset(ValuesOn(b, d, k))
    decreases |a|
  {
    if a == [] {
      assert |b| == |multiset(b)| == 0;
    } else {
      var j := PickHead(a, b);
      ValuesOnPermutation(a[1..], b[..j] + b[j + 1..], d, k);
      ValuesOnRemove(b, j, d, k);
      assert a == [a[0]] + a[1..];
      ValuesOnAppend([a[0]], a[1..], d, k);
    }
  }

  /** The row of day `d`: NaN mean and median and a zero sum when nothing was observed that day. */
  function DayRow(obs: seq<Observation>, d: Date): (r: DailyRow)
    ensures r.day == d
  {
    var prices := ValuesOn(obs, d, Price);
    var volume := Sum(ValuesOn(obs, d, Volume));
    if prices == [] then DailyRow(d, None, None, volume)
    else DailyRow(d, Some(Mean(prices)), Some(Median(prices)), volume)
  }

  /** `DayRow` for each of `days`. */
  function Rows(obs: seq<Observation>, days: seq<Date>): (r: seq<DailyRow>)
    ensures |r| == |days| && forall i :: 0 <= i < |days| ==> r[i] == DayRow(obs, days[i])
    ensures forall i :: 0 <= i < |days| ==> r[i].day == days[i]
  {
    if days == [] then [] else [DayRow(obs, days[0])] + Rows(obs, days[1..])
  }

  /** A day's row does not depend on the order of the observations. */
  lemma DayRowPermutation(a: seq<Observation>, b: seq<Observation>, d: Date)
    requires multiset(a) == multiset(b)
    ensures DayRow(a, d) == DayRow(b, d)
  {
    ValuesOnPermutation(a, b, d, Price);
    ValuesOnPermutation(a, b, d, Volume);
    SumPermutation(ValuesOn(a, d, Volume), ValuesOn(b, d, Volume));
    var pa, pb := ValuesOn(a, d, Price), ValuesOn(b, d, Price);
    if pa != [] {
      SumPermutation(pa, pb);
      MedianPermutation(pa, pb);
      assert |pb| == |multiset(pb)| == |pa|;
    } else {
      assert |pb| == |multiset(pb)| == 0;
    }
  }

  // ----- The aggregation -----

  /** `sort_index()` orders the observations by time. */
  function TimeLe(a: Observation, b: Observation): bool {
    AtOrBefore(a.time, b.time)
  }

  lemma TimeLeTotalPreorder()
    ensures TotalPreorder(TimeLe)
  {
    forall a: Observation, b: Observation ensures TimeLe(a, b) || TimeLe(b, a) {
      AtOrBeforeTotal(a.time, b.time);
    }
    forall a: Observation, b: Observation, c: Observation | TimeLe(a, b) && TimeLe(b, c) ensures TimeLe(a, c) {
      AtOrBeforeTransitive(a.time, b.time, c.time);
    }
  }

  function SortByTime(obs: seq<Observation>): (r: seq<Observation>)
    ensures multiset(r) == multiset(obs) && |r| == |obs|
    ensures SortedBy(r, TimeLe)
  {
    TimeLeTotalPreorder();
    Sort(obs, TimeLe)
  }

  lemma AtOrBeforeDays(a: DateTime, b: DateTime)
    requires AtOrBefore(a, b)
    ensures DateLe(DateOf(a), DateOf(b))
  {
  }

  /** Every observation of a reordering is one of the original observations. */
  lemma PermutationMember(a: seq<Observation>, b: seq<Observation>, i: int)
    requires multiset(a) == multiset(b) && 0 <= i < |b|
    ensures exists j :: 0 <= j < |a| && a[j] == b[i]
  {
    assert b[i] in multiset(a);
  }

  /** The first and last days of the sorted observations: the range `resample("D")` covers. */
  function DayRange(obs: seq<Observation>): (r: (Date, Date))
    requires obs != [] && AllValid(obs)
    ensures ValidDate(r.0) && ValidDate(r.1) && DateLe(r.0, r.1)
  {
    var sorted := SortByTime(obs);
    var n := |sorted|;
    PermutationMember(obs, sorted, 0);
    PermutationMember(obs, sorted, n - 1);
    assert n > 1 ==> TimeLe(sorted[0], sorted[n - 1]);
    AtOrBeforeDays(sorted[0].time, sorted[n - 1].time);
    (DayOf(sorted[0]), DayOf(sorted[n - 1]))
  }

  /** The days `resample("D")` emits a bin for. */
  function DaysOf(obs: seq<Observation>): seq<Date>
    requires obs != [] && AllValid(obs)
  {
    DaysFromTo(DayRange(obs).0, DayRange(obs).1)
  }

  /**
    The daily table of `fetch_pricehistory`: one row for each day from the first
    observed day to the last.
  */
  function DailyAggregate(obs: seq<Observation>): (r: seq<DailyRow>)
    requires AllValid(obs)
    ensures obs != [] ==> |r| == |DaysOf(obs)| && forall i :: 0 <= i < |r| ==> r[i].day == DaysOf(obs)[i]
  {
    if obs == [] then [] else Rows(SortByTime(obs), DaysOf(obs))
  }

  /** Each observation lies between the first and the last day of the range. */
  lemma DayRangeBounds(obs: seq<Observation>, i: int)
    requires obs != [] && AllValid(obs) && 0 <= i < |obs|
    ensures DateLe(DayRange(obs).0, DayOf(obs[i])) && DateLe(DayOf(obs[i]), DayRange(obs).1)
  {
    var sorted := SortByTime(obs);
    var n := |sorted|;
    PermutationMember(sorted, obs, i);
    var k :| 0 <= k < n && sorted[k] == obs[i];
    assert k > 0 ==> TimeLe(sorted[0], sorted[k]);
    assert k < n - 1 ==> TimeLe(sorted[k], sorted[n - 1]);
    AtOrBeforeDays(sorted[0].time, sorted[k].time);
    AtOrBeforeDays(sorted[k].time, sorted[n - 1].time);
  }

  /** The first and the last day of the range are days with observations. */
  lemma DayRangeObserved(obs: seq<Observation>)
    requires obs != [] && AllValid(obs)
    ensures exists i :: 0 <= i < |obs| && DayOf(obs[i]) == DayRange(obs).0
    ensures exists i :: 0 <= i < |obs| && DayOf(obs[i]) == DayRange(obs).1
  {
    var sorted := SortByTime(obs);
    PermutationMember(obs, sorted, 0);
    PermutationMember(obs, sorted, |sorted| - 1);
  }

  /** The days of the daily table follow one another: each is the day after the one before. */
  lemma AggregateConsecutive(obs: seq<Observation>)
    requires obs != [] && AllValid(obs)
    ensures var r := DailyAggregate(obs);
            |r| >= 1 && forall i :: 0 <= i < |r| - 1 ==> r[i + 1].day == NextDay(r[i].day)
  {
    var r := DailyAggregate(obs);
    var days := DaysOf(obs);
    forall i | 0 <= i < |r| - 1 ensures r[i + 1].day == NextDay(r[i].day) {
      assert r[i].day == days[i] && r[i + 1].day == days[i + 1];
    }
  }

  /** The daily table runs from the earliest observed day to the latest. */
  lemma AggregateEnds(obs: seq<Observation>)
    requires obs != [] && AllValid(obs)
    ensures var r := DailyAggregate(obs);
            && |r| >= 1
            && (forall i :: 0 <= i < |obs| ==> DateLe(r[0].day, DayOf(obs[i])) && DateLe(DayOf(obs[i]), r[|r| - 1].day))
            && (exists i :: 0 <= i < |obs| && DayOf(obs[i]) == r[0].day)
            && (exists i :: 0 <= i < |obs| && DayOf(obs[i]) == r[|r| - 1].day)
  {
    forall i | 0 <= i < |obs| ensures DateLe(DayRange(obs).0, DayOf(obs[i])) && DateLe(DayOf(obs[i]), DayRange(obs).1) {
      DayRangeBounds(obs, i);
    }
    DayRangeObserved(obs);
  }

  /** Every observed day has its row. */
  lemma AggregateCovers(obs: seq<Observation>, i: int)
    requires AllValid(obs) && 0 <= i < |obs|
    ensures exists j :: 0 <= j < |DailyAggregate(obs)| && DailyAggregate(obs)[j].day == DayOf(obs[i])
  {
    var range := DayRange(obs);
    DayRangeBounds(obs, i);
    DaysFromToCovers(range.0, range.1, DayOf(obs[i]));
    var days := DaysOf(obs);
    var j :| 0 <= j < |days| && days[j] == DayOf(obs[i]);
    assert DailyAggregate(obs)[j].day == DayOf(obs[i]);
  }

  /** The rows are strictly ascending by day. */
  lemma AggregateAscending(obs: seq<Observation>, i: int, j: int)
    requires obs != [] && AllValid(obs)
    requires 0 <= i < j < |DailyAggregate(obs)|
    ensures DateLt(DailyAggregate(obs)[i].day, DailyAggregate(obs)[j].day)
  {
    var range := DayRange(obs);
    DaysFromToAscending(range.0, range.1, i, j);
  }

  /**
    The row of a day with observations holds the mean (sum over count) and the median
    of that day's prices and the sum of its volumes. A gap day holds no mean, no median
    and a volume of 0. The order of the observations does not matter.
  */
  lemma AggregateRow(obs: seq<Observation>, j: int)
    requires obs != [] && AllValid(obs)
    requires 0 <= j < |DailyAggregate(obs)|
    ensures var row := DailyAggregate(obs)[j];
            var prices := ValuesOn(obs, row.day, Price);
            && (prices == [] ==> row == DailyRow(row.day, None, None, 0.0))
            && (prices != [] ==>
                  row == DailyRow(row.day, Some(Sum(prices) / (|prices| as real)), Some(Median(prices)),
                                  Sum(ValuesOn(obs, row.day, Volume))))
  {
    var d := DaysOf(obs)[j];
    DayRowPermutation(SortByTime(obs), obs, d);
    ValuesOnEmpty(obs, d, Price);
    ValuesOnEmpty(obs, d, Volume);
  }

  /** An empty table for no observations. */
  lemma AggregateEmpty()
    ensures DailyAggregate([]) == []
  {
  }
}

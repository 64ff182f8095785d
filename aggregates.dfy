/** The statistics the pages show: the current month on the dashboard
    (`updateDashboard`), a time window on the analysis page (`updateAnalysis`)
    and the last thirty readings on the chart (`updateConsumptionChart`). */
module Aggregates {
  import opened Wrappers
  import opened Calendar
  import opened Ledger
  import opened Ordering

  /** Which readings a statistic takes in. */
  datatype Selector =
    | InMonth(year: int, month: int)   // dated in that month of that year
    | Since(cutoff: int)               // dated at or after a timestamp
    | Everything

  predicate Selects(sel: Selector, r: Reading)
  {
    match sel
    case InMonth(y, m) => r.date.year == y && r.date.month == m
    case Since(cutoff) => Timestamp(r.date) >= cutoff
    case Everything => true
  }

  /** `s.filter(...)`: the selected readings, in ledger order. */
  function Filter(s: seq<Reading>, sel: Selector): (r: seq<Reading>)
    ensures |r| <= |s|
  {
    if s == [] then []
    else Filter(s[..|s| - 1], sel) + (if Selects(sel, s[|s| - 1]) then [s[|s| - 1]] else [])
  }

  /** The filter keeps exactly the selected readings of the ledger. */
  lemma {:induction false} FilterMembers(s: seq<Reading>, sel: Selector)
    ensures forall x :: x in Filter(s, sel) <==> x in s && Selects(sel, x)
    decreases |s|
  {
    if s != [] {
      var init, last := s[..|s| - 1], s[|s| - 1];
      assert s == init + [last];
      FilterMembers(init, sel);
    }
  }

  /** The filter keeps each selected reading as often as the ledger holds it,
      and no other reading. */
  lemma {:induction false} FilterMultiset(s: seq<Reading>, sel: Selector)
    ensures forall x :: multiset(Filter(s, sel))[x] == if Selects(sel, x) then multiset(s)[x] else 0
    decreases |s|
  {
    if s != [] {
      var init, last := s[..|s| - 1], s[|s| - 1];
      assert s == init + [last];
      FilterMultiset(init, sel);
    }
  }

  /** The reference the filtered sums are checked against: every reading of the
      ledger counted, those not selected with zero. */
  function SumSelected(s: seq<Reading>, sel: Selector, m: Measure): real
  {
    if s == [] then 0.0
    else SumSelected(s[..|s| - 1], sel, m) + (if Selects(sel, s[|s| - 1]) then Value(s[|s| - 1], m) else 0.0)
  }

  lemma {:induction false} SumAppend(a: seq<Reading>, b: seq<Reading>, m: Measure)
    ensures Sum(a + b, m) == Sum(a, m) + Sum(b, m)
    decreases |b|
  {
    if b != [] {
      var b0 := b[..|b| - 1];
      var ab := a + b;
      assert ab[..|ab| - 1] == a + b0;
      assert ab[|ab| - 1] == b[|b| - 1];
      SumAppend(a, b0, m);
    } else {
      assert a + b == a;
    }
  }

  /** Taking out the entry at `i` takes one copy of it out of the multiset. */
  lemma RemoveAtMultiset(b: seq<Reading>, i: nat)
    requires i < |b|
    ensures multiset(b[..i] + b[i + 1..]) == multiset(b) - multiset{b[i]}
  {
    assert b == b[..i] + [b[i]] + b[i + 1..];
  }

  /** Taking out the entry at `i` takes its value out of the sum. */
  lemma RemoveAtSum(b: seq<Reading>, i: nat, m: Measure)
    requires i < |b|
    ensures Sum(b, m) == Sum(b[..i] + b[i + 1..], m) + Value(b[i], m)
  {
    var before, after := b[..i], b[i + 1..];
    assert b == (before + [b[i]]) + after;
    SumAppend(before + [b[i]], after, m);
    SumAppend(before, [b[i]], m);
    SumAppend(before, after, m);
    assert [b[i]][..0] == [];
  }

  /** Where an entry of the multiset sits in the sequence. */
  lemma IndexIn(b: seq<Reading>, x: Reading) returns (i: nat)
    requires x in multiset(b)
    ensures i < |b| && b[i] == x
  {
    i :| 0 <= i < |b| && b[i] == x;
  }

  /** The sums do not depend on the order of the readings. */
  lemma {:induction false} SumPermutation(a: seq<Reading>, b: seq<Reading>, m: Measure)
    requires multiset(a) == multiset(b)
    ensures Sum(a, m) == Sum(b, m)
    decreases |a|
  {
    if a == [] {
      assert |b| == |multiset(b)| == 0;
    } else {
      var i := IndexIn(b, a[|a| - 1]);
      RemoveAtMultiset(a, |a| - 1);
      RemoveAtMultiset(b, i);
      RemoveAtSum(b, i, m);
      SumPermutation(a[..|a| - 1], b[..i] + b[i + 1..], m);
    }
  }

  /** Summing the filtered readings is summing the selected part of the ledger. */
  lemma {:induction false} FilterSum(s: seq<Reading>, sel: Selector, m: Measure)
    ensures Sum(Filter(s, sel), m) == SumSelected(s, sel, m)
    decreases |s|
  {
    if s != [] {
      var init, last := s[..|s| - 1], s[|s| - 1];
      FilterSum(init, sel, m);
      SumAppend(Filter(init, sel), if Selects(sel, last) then [last] else [], m);
    }
  }

  /** Everything selects the whole ledger, in order. */
  lemma {:induction false} FilterEverything(s: seq<Reading>)
    ensures Filter(s, Everything) == s
    decreases |s|
  {
    if s != [] {
      FilterEverything(s[..|s| - 1]);
    }
  }

  /** With no negative consumption, any selection adds up to at most the whole
      ledger. */
  lemma {:induction false} SumSelectedAtMostSum(s: seq<Reading>, sel: Selector)
    requires forall i :: 0 <= i < |s| ==> s[i].consumption >= 0.0
    ensures 0.0 <= SumSelected(s, sel, Consumption) <= Sum(s, Consumption)
    decreases |s|
  {
    if s != [] {
      SumSelectedAtMostSum(s[..|s| - 1], sel);
    }
  }

  /** Bounds on every term bound the sum. */
  lemma {:induction false} SumBetween(s: seq<Reading>, m: Measure, lo: real, hi: real)
    requires forall i :: 0 <= i < |s| ==> lo <= Value(s[i], m) <= hi
    ensures (|s| as real) * lo <= Sum(s, m) <= (|s| as real) * hi
    decreases |s|
  {
    if s != [] {
      SumBetween(s[..|s| - 1], m, lo, hi);
      assert (|s| as real) * lo == ((|s| - 1) as real) * lo + lo;
      assert (|s| as real) * hi == ((|s| - 1) as real) * hi + hi;
    }
  }

  lemma DivBetween(total: real, n: real, lo: real, hi: real)
    requires n > 0.0 && n * lo <= total <= n * hi
    ensures lo <= total / n <= hi
  {
  }

  lemma DivTimes(total: real, n: real)
    requires n != 0.0
    ensures (total / n) * n == total
  {
  }

  lemma DivNonNegative(total: real, n: real)
    requires n > 0.0 && total >= 0.0
    ensures total / n >= 0.0
  {
  }

  /** `Math.max(...s.map(r => r.consumption))`. */
  function MaxConsumption(s: seq<Reading>): (m: real)
    requires s != []
    ensures forall i :: 0 <= i < |s| ==> s[i].consumption <= m
    ensures exists i :: 0 <= i < |s| && s[i].consumption == m
  {
    if |s| == 1 then s[0].consumption
    else
      var rest := MaxConsumption(s[..|s| - 1]);
      if s[|s| - 1].consumption <= rest then rest else s[|s| - 1].consumption
  }

  /** `Math.min(...s.map(r => r.consumption))`. */
  function MinConsumption(s: seq<Reading>): (m: real)
    requires s != []
    ensures forall i :: 0 <= i < |s| ==> m <= s[i].consumption
    ensures exists i :: 0 <= i < |s| && s[i].consumption == m
  {
    if |s| == 1 then s[0].consumption
    else
      var rest := MinConsumption(s[..|s| - 1]);
      if rest <= s[|s| - 1].consumption then rest else s[|s| - 1].consumption
  }

  // ---------------------------------------------------------------- dashboard

  /** The dashboard's figures for the current month: total consumption, total
      cost, the average per reading and the number of readings. */
  datatype MonthSummary = MonthSummary(consumption: real, cost: real, dailyAverage: real, days: nat)

  function MonthOf(today: Date): Selector
  {
    InMonth(today.year, today.month)
  }

  /** `updateDashboard`: the readings dated in today's month and year, their
      totals, the number of them and the average per reading (zero when there
      are none). */
  function Dashboard(s: seq<Reading>, today: Date): (d: MonthSummary)
    ensures d.days == |Filter(s, MonthOf(today))|
    ensures d.days == 0 ==> d.consumption == 0.0 && d.cost == 0.0 && d.dailyAverage == 0.0
    ensures d.days > 0 ==> d.dailyAverage * (d.days as real) == d.consumption
  {
    var month := Filter(s, MonthOf(today));
    var total := Sum(month, Consumption);
    var cost := Sum(month, Cost);
    var days := |month|;
    MonthSummary(total, cost, if days > 0 then total / days as real else 0.0, days)
  }

  /** The month's totals are the sums over exactly the ledger's readings dated
      in the current month and year. */
  lemma DashboardTotals(s: seq<Reading>, today: Date)
    ensures Dashboard(s, today).consumption == SumSelected(s, MonthOf(today), Consumption)
    ensures Dashboard(s, today).cost == SumSelected(s, MonthOf(today), Cost)
  {
    FilterSum(s, MonthOf(today), Consumption);
    FilterSum(s, MonthOf(today), Cost);
  }

  /** On a ledger without negative consumption the month's consumption is
      between zero and that of the whole ledger, and so is its average. */
  lemma DashboardBounds(s: seq<Reading>, today: Date)
    requires forall i :: 0 <= i < |s| ==> s[i].consumption >= 0.0
    ensures 0.0 <= Dashboard(s, today).consumption <= Sum(s, Consumption)
    ensures 0.0 <= Dashboard(s, today).dailyAverage
  {
    DashboardTotals(s, today);
    SumSelectedAtMostSum(s, MonthOf(today));
    var month := Filter(s, MonthOf(today));
    if |month| > 0 {
      DivNonNegative(Sum(month, Consumption), |month| as real);
    }
  }

  /** The dashboard does not depend on the order of the ledger: in particular
      it counts a reading held twice twice. */
  lemma DashboardPermutation(s: seq<Reading>, t: seq<Reading>, today: Date)
    requires multiset(s) == multiset(t)
    ensures Dashboard(s, today) == Dashboard(t, today)
  {
    var sel := MonthOf(today);
    var fs, ft := Filter(s, sel), Filter(t, sel);
    FilterMultiset(s, sel);
    FilterMultiset(t, sel);
    assert multiset(fs) == multiset(ft);
    assert |fs| == |multiset(fs)| == |multiset(ft)| == |ft|;
    SumPermutation(fs, ft, Consumption);
    SumPermutation(fs, ft, Cost);
  }

  /** A reading dated outside the current month leaves the dashboard as it was,
      whether appended at the end or pushed and sorted in as an add does. */
  lemma DashboardIgnoresOtherMonths(s: seq<Reading>, x: Reading, today: Date)
    requires !Selects(MonthOf(today), x)
    ensures Dashboard(s + [x], today) == Dashboard(s, today)
    ensures Dashboard(SortBy(s + [x], ReadingKey), today) == Dashboard(s, today)
  {
    assert (s + [x])[..|s|] == s;
    assert Filter(s + [x], MonthOf(today)) == Filter(s, MonthOf(today));
    SortByPermutes(s + [x], ReadingKey);
    DashboardPermutation(SortBy(s + [x], ReadingKey), s + [x], today);
  }

  // ----------------------------------------------------------------- analysis

  datatype Period = Last7Days | Last30Days | AllTime

  /** The readings a period takes in: those whose midnight is at or after the
      moment seven or thirty days before now, or all of them. */
  function PeriodSelector(now: Instant, period: Period): Selector
  {
    match period
    case Last7Days => Since(DaysBefore(now, 7))
    case Last30Days => Since(DaysBefore(now, 30))
    case AllTime => Everything
  }

  /** What the analysis page shows. */
  datatype Analysis =
    | NotEnoughData   // fewer than two readings in the whole ledger
    | NoData          // none in the chosen period
    | Stats(totalConsumption: real, totalCost: real, averageDaily: real,
            maxConsumption: real, minConsumption: real)

  /** The figures of a non-empty window: total consumption and cost, the
      average per reading, the peak and the least consumption. */
  function WindowStats(w: seq<Reading>): (a: Analysis)
    requires w != []
    ensures a.Stats?
    ensures a.totalConsumption == Sum(w, Consumption) && a.totalCost == Sum(w, Cost)
    ensures a.minConsumption <= a.maxConsumption
    ensures forall i :: 0 <= i < |w| ==> a.minConsumption <= w[i].consumption <= a.maxConsumption
    ensures exists i :: 0 <= i < |w| && w[i].consumption == a.maxConsumption
  {
    var total := Sum(w, Consumption);
    Stats(total, Sum(w, Cost), total / |w| as real, MaxConsumption(w), MinConsumption(w))
  }

  /** The average is the window's total spread evenly over its readings. */
  lemma WindowAverage(w: seq<Reading>)
    requires w != []
    ensures WindowStats(w).averageDaily * (|w| as real) == WindowStats(w).totalConsumption
  {
    DivTimes(Sum(w, Consumption), |w| as real);
  }

  /** The average lies between the least and the peak consumption. */
  lemma WindowAverageInRange(w: seq<Reading>)
    requires w != []
    ensures WindowStats(w).minConsumption <= WindowStats(w).averageDaily <= WindowStats(w).maxConsumption
  {
    var lo, hi := MinConsumption(w), MaxConsumption(w);
    SumBetween(w, Consumption, lo, hi);
    DivBetween(Sum(w, Consumption), |w| as real, lo, hi);
  }

  /** `updateAnalysis`: too few readings in the ledger, none in the period, or
      the figures of the period's readings. */
  function Analyze(s: seq<Reading>, now: Instant, period: Period): (a: Analysis)
    ensures a == NotEnoughData <==> |s| < 2
    ensures a == NoData <==> |s| >= 2 && Filter(s, PeriodSelector(now, period)) == []
    ensures a.Stats? ==> a == WindowStats(Filter(s, PeriodSelector(now, period)))
  {
    if |s| < 2 then NotEnoughData
    else
      var w := Filter(s, PeriodSelector(now, period));
      if w == [] then NoData else WindowStats(w)
  }

  /** With at least two readings the whole-history analysis covers every reading. */
  lemma AnalysisAllTime(s: seq<Reading>, now: Instant)
    requires |s| >= 2
    ensures Analyze(s, now, AllTime).Stats?
    ensures Analyze(s, now, AllTime).totalConsumption == Sum(s, Consumption)
    ensures Analyze(s, now, AllTime).totalCost == Sum(s, Cost)
  {
    FilterEverything(s);
    assert Filter(s, PeriodSelector(now, AllTime)) == s;
    assert Analyze(s, now, AllTime) == WindowStats(s);
  }

  /** Within a valid time of day, the seven-day window keeps the readings dated
      strictly after the day a week ago (that day too only at midnight), and
      likewise thirty days back. */
  lemma WindowByDay(r: Reading, now: Instant, period: Period)
    requires 0 <= now.millis < MsPerDay
    requires period != AllTime
    ensures var n := if period == Last7Days then 7 else 30;
            Selects(PeriodSelector(now, period), r) <==>
              DayNumber(r.date) > DayNumber(now.date) - n
              || (now.millis == 0 && DayNumber(r.date) == DayNumber(now.date) - n)
  {
    AtOrAfterDaysBefore(r.date, now, if period == Last7Days then 7 else 30);
  }

  lemma {:induction false} SumSelectedSinceMonotone(s: seq<Reading>, c: int, c': int)
    requires c' <= c
    requires forall i :: 0 <= i < |s| ==> s[i].consumption >= 0.0
    ensures SumSelected(s, Since(c), Consumption) <= SumSelected(s, Since(c'), Consumption)
    decreases |s|
  {
    if s != [] {
      SumSelectedSinceMonotone(s[..|s| - 1], c, c');
    }
  }

  /** A window reaching further back takes in every reading of a shorter one. */
  lemma SinceNested(s: seq<Reading>, c: int, c': int)
    requires c' <= c
    ensures forall x :: x in Filter(s, Since(c)) ==> x in Filter(s, Since(c'))
  {
    FilterMembers(s, Since(c));
    FilterMembers(s, Since(c'));
  }

  /** On a ledger without negative consumption a window reaching further back
      never has a smaller total. */
  lemma SinceTotalMonotone(s: seq<Reading>, c: int, c': int)
    requires c' <= c
    requires forall i :: 0 <= i < |s| ==> s[i].consumption >= 0.0
    ensures Sum(Filter(s, Since(c)), Consumption) <= Sum(Filter(s, Since(c')), Consumption)
  {
    FilterSum(s, Since(c), Consumption);
    FilterSum(s, Since(c'), Consumption);
    SumSelectedSinceMonotone(s, c, c');
  }

  /** The seven-day window is part of the thirty-day one: on a ledger without
      negative consumption it never shows a larger total or a higher peak. */
  lemma WeekWithinMonth(s: seq<Reading>, now: Instant)
    requires forall i :: 0 <= i < |s| ==> s[i].consumption >= 0.0
    requires Analyze(s, now, Last7Days).Stats?
    ensures Analyze(s, now, Last30Days).Stats?
    ensures Analyze(s, now, Last7Days).totalConsumption <= Analyze(s, now, Last30Days).totalConsumption
    ensures Analyze(s, now, Last7Days).maxConsumption <= Analyze(s, now, Last30Days).maxConsumption
  {
    var c7, c30 := DaysBefore(now, 7), DaysBefore(now, 30);
    var w7, w30 := Filter(s, Since(c7)), Filter(s, Since(c30));
    SinceNested(s, c7, c30);
    SinceTotalMonotone(s, c7, c30);
    assert w7[0] in w30;
    var a7 := WindowStats(w7);
    var i :| 0 <= i < |w7| && w7[i].consumption == a7.maxConsumption;
    assert w7[i] in w30;
    var j :| 0 <= j < |w30| && w30[j] == w7[i];
  }

  // -------------------------------------------------------------------- chart

  /** The chart shows at most this many readings. */
  const ChartLength: nat := 30

  /** The consumption series of the chart: none when the ledger is empty (the
      page shows a placeholder instead), otherwise that of the last thirty
      readings or of all of them when there are fewer (`slice(-30)`). */
  function ChartSeries(s: seq<Reading>): (p: Option<seq<real>>)
    ensures p.None? <==> s == []
    ensures p.Some? ==> |p.value| == (if |s| < ChartLength then |s| else ChartLength)
    ensures p.Some? ==> forall i :: 0 <= i < |p.value| ==> p.value[i] == s[|s| - |p.value| + i].consumption
  {
    if s == [] then None
    else
      var shown := if |s| < ChartLength then s else s[|s| - ChartLength..];
      Some(seq(|shown|, i requires 0 <= i < |shown| => shown[i].consumption))
  }

  /** Once the chart is full, appending a reading drops its oldest point and
      adds the new one. */
  lemma ChartSlides(s: seq<Reading>, x: Reading)
    requires |s| >= ChartLength
    ensures ChartSeries(s + [x]).Some? && ChartSeries(s).Some?
    ensures ChartSeries(s + [x]).value == ChartSeries(s).value[1..] + [x.consumption]
  {
    var p, q := ChartSeries(s + [x]).value, ChartSeries(s).value;
    assert |p| == |q[1..] + [x.consumption]|;
    forall i | 0 <= i < |p| ensures p[i] == (q[1..] + [x.consumption])[i] {
      if i < |p| - 1 {
        assert p[i] == (s + [x])[|s| + 1 - ChartLength + i].consumption;
      }
    }
  }

  /** An add dated on or after the last reading of a full, date-ordered ledger
      slides the chart: the push and sort append it. */
  lemma ChartSlidesOnAdd(s: seq<Reading>, x: Reading)
    requires |s| >= ChartLength && SortedBy(s, ReadingKey)
    requires ReadingKey(s[|s| - 1]) <= ReadingKey(x)
    ensures ChartSeries(SortBy(s + [x], ReadingKey)) == Some(ChartSeries(s).value[1..] + [x.consumption])
  {
    SortByAppend(s, x, ReadingKey);
    assert InsertBy(s, x, ReadingKey) == s + [x];
    ChartSlides(s, x);
  }

  /** An add dated before every reading of a full, date-ordered ledger is
      sorted to the front, out of the last thirty: the chart does not change. */
  lemma ChartIgnoresBackdated(s: seq<Reading>, x: Reading)
    requires |s| >= ChartLength && SortedBy(s, ReadingKey)
    requires forall i :: 0 <= i < |s| ==> ReadingKey(x) < ReadingKey(s[i])
    ensures ChartSeries(SortBy(s + [x], ReadingKey)) == ChartSeries(s)
  {
    SortByAppend(s, x, ReadingKey);
    InsertByFront(s, x, ReadingKey);
    ChartDropsFront(s, x);
  }

  /** A reading in front of a full ledger is not among the last thirty. */
  lemma ChartDropsFront(s: seq<Reading>, x: Reading)
    requires |s| >= ChartLength
    ensures ChartSeries([x] + s) == ChartSeries(s)
  {
    var t := [x] + s;
    var p, q := ChartSeries(t).value, ChartSeries(s).value;
    forall i | 0 <= i < |p| ensures p[i] == q[i] {
      assert t[|t| - |p| + i] == s[|s| - |q| + i];
    }
    assert p == q;
  }
}

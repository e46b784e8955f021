/**
 * Provider latency percentiles from a fixed-bucket histogram kept one attempt at a time, against the sorted samples
 * they stand for.
 */
module LatencyStats {
  import opened Common

  /** The inclusive upper bound of each bucket; one more slot holds the overflow. */
  const BOUNDS: seq<nat> := [50, 100, 200, 400, 800, 1600, 3200, 6400, 12800, 25600]

  function Bound(i: nat): nat
    requires i < |BOUNDS|
  {
    BOUNDS[i]
  }

  function BucketFrom(ms: nat, i: nat): (b: nat)
    requires i <= |BOUNDS|
    requires forall j :: 0 <= j < i ==> ms > Bound(j)
    ensures b <= |BOUNDS|
    ensures b < |BOUNDS| ==> ms <= Bound(b)
    ensures forall j :: 0 <= j < b ==> ms > Bound(j)
    decreases |BOUNDS| - i
  {
    if i == |BOUNDS| || ms <= Bound(i) then i else BucketFrom(ms, i + 1)
  }

  /** The first bucket that holds a latency, or the overflow. */
  function Bucket(ms: nat): (b: nat)
    ensures b <= |BOUNDS|
  {
    BucketFrom(ms, 0)
  }

  lemma BucketIsFirst(ms: nat)
    ensures Bucket(ms) < |BOUNDS| ==> ms <= Bound(Bucket(ms))
    ensures forall j :: 0 <= j < Bucket(ms) ==> ms > Bound(j)
  {
  }

  /** The least bound that a latency does not pass, or the last one when it passes them all. */
  ghost predicate EstimateOf(e: nat, ms: nat) {
    && e in BOUNDS
    && if ms <= BOUNDS[|BOUNDS| - 1] then ms <= e && forall b :: b in BOUNDS && ms <= b ==> e <= b
       else forall b :: b in BOUNDS ==> b <= e
  }

  lemma BoundsAscend(i: nat, j: nat)
    requires i <= j < |BOUNDS|
    ensures BOUNDS[i] <= BOUNDS[j]
  {
  }

  lemma BoundIsTheEstimate(ms: nat)
    ensures EstimateOf(BoundOf(Bucket(ms)), ms)
  {
    var i := Bucket(ms);
    BucketIsFirst(ms);
    hide Bucket;
    forall b | b in BOUNDS && ms <= b ensures BoundOf(i) <= b {
      var j :| 0 <= j < |BOUNDS| && BOUNDS[j] == b;
      assert Bound(j) == b;
      BoundsAscend(i, j);
    }
    if i == |BOUNDS| {
      assert ms > Bound(|BOUNDS| - 1);
      forall b | b in BOUNDS ensures b <= BoundOf(i) {
        var j :| 0 <= j < |BOUNDS| && BOUNDS[j] == b;
        BoundsAscend(j, |BOUNDS| - 1);
      }
    } else {
      BoundsAscend(i, |BOUNDS| - 1);
    }
  }

  /** The estimate a bucket stands for: its upper bound, or the last bound for the overflow. */
  function BoundOf(bucket: nat): nat { if bucket < |BOUNDS| then BOUNDS[bucket] else BOUNDS[|BOUNDS| - 1] }

  type Histogram = h: seq<nat> | |h| == |BOUNDS| + 1 witness EMPTY

  const EMPTY: seq<nat> := [0, 0, 0, 0, 0, 0, 0, 0, 0, 0, 0]

  function Total(h: seq<nat>): nat { if h == [] then 0 else Total(h[..|h| - 1]) + h[|h| - 1] }

  /** The rank a quantile asks for: the least whole number at or above `q` of the samples. */
  function Rank(q: real, total: nat): (k: int)
    ensures q * total as real <= k as real < q * total as real + 1.0
  {
    var x := q * total as real;
    if x.Floor as real == x then x.Floor else x.Floor + 1
  }

  /** The histogram of a list of samples: how many fall in each bucket. */
  function CountIn(samples: seq<nat>, bucket: nat): nat {
    if samples == [] then 0
    else CountIn(samples[..|samples| - 1], bucket) + (if Bucket(samples[|samples| - 1]) == bucket then 1 else 0)
  }

  ghost predicate HistogramOf(h: Histogram, samples: seq<nat>) {
    forall b :: 0 <= b < |h| ==> h[b] == CountIn(samples, b)
  }

  /** The estimate: the bound of the first bucket whose cumulative count reaches the rank. */
  function PercentileFrom(h: Histogram, target: int, i: nat, cum: nat): nat
    requires i <= |h|
    decreases |h| - i
  {
    if i == |h| then BoundOf(|BOUNDS|)
    else if cum + h[i] >= target then BoundOf(i)
    else PercentileFrom(h, target, i + 1, cum + h[i])
  }

  function Percentile(h: Histogram, q: real): Option<nat> {
    if Total(h) == 0 then None else Some(PercentileFrom(h, Rank(q, Total(h)), 0, 0))
  }

  method EstimatePercentile(h: Histogram, q: real) returns (estimate: Option<nat>)
    ensures estimate == Percentile(h, q)
  {
    var total := 0;
    for i := 0 to |h|
      invariant total == Total(h[..i])
    {
      assert h[..i + 1][..i] == h[..i];
      total := total + h[i];
    }
    assert h[..|h|] == h;
    if total == 0 { return None; }
    var target := Rank(q, total);
    var cum: nat := 0;
    for i := 0 to |h|
      invariant PercentileFrom(h, target, 0, 0) == PercentileFrom(h, target, i, cum)
    {
      cum := cum + h[i];
      if cum >= target { return Some(if i < |BOUNDS| then BOUNDS[i] else BOUNDS[|BOUNDS| - 1]); }
    }
    return Some(BOUNDS[|BOUNDS| - 1]);
  }

  // ----- the rollup -----

  /** What an attempt spent. */
  datatype Spent = Spent(cost: real, tokensIn: int, tokensOut: int)

  /** A finished attempt: its row, how it ended, its measured latency when there is one, and what it spent. */
  datatype Attempt = Attempt(provider: string, model: string, skipped: bool, ok: bool, latency: Option<real>,
                             spent: Spent)

  datatype RowKey = RowKey(day: string, provider: string, model: string)

  /** What is recorded of one attempt. */
  datatype Sample = Sample(ok: bool, latency: Option<nat>, spent: Spent)

  datatype Row = Row(requests: nat, ok: nat, errors: nat, spent: Spent,
                     hist: Histogram, p50: Option<nat>, p95: Option<nat>)

  const NOTHING := Spent(0.0, 0, 0)

  const NEW := Row(0, 0, 0, NOTHING, EMPTY, None, None)

  /** The recorded latency: the nearest whole number, the higher of two as near, and never negative. */
  function Rounded(latency: real): (ms: nat)
    ensures latency >= -0.5 ==> ms as real - 0.5 <= latency < ms as real + 0.5
    ensures latency < -0.5 ==> ms == 0
  {
    Max(0, (latency + 0.5).Floor)
  }

  predicate Recorded(a: Attempt) { a.provider != "" && !a.skipped }

  function Sampled(a: Attempt): Sample {
    Sample(a.ok, if a.latency.Some? then Some(Rounded(a.latency.value)) else None, a.spent)
  }

  function RowOf(rows: map<RowKey, Row>, k: RowKey): Row { if k in rows then rows[k] else NEW }

  function Added(h: Histogram, ms: nat): Histogram { h[Bucket(ms) := h[Bucket(ms)] + 1] }

  function HistogramAfter(h: Histogram, s: Sample): Histogram {
    if s.latency.Some? then Added(h, s.latency.value) else h
  }

  /** The latencies among the samples, in order. */
  function LatenciesIn(samples: seq<Sample>): seq<nat> {
    if samples == [] then []
    else
      var last := samples[|samples| - 1];
      LatenciesIn(samples[..|samples| - 1]) + (if last.latency.Some? then [last.latency.value] else [])
  }

  function Oks(samples: seq<Sample>): nat {
    if samples == [] then 0 else Oks(samples[..|samples| - 1]) + (if samples[|samples| - 1].ok then 1 else 0)
  }

  function Plus(a: Spent, b: Spent): Spent {
    Spent(a.cost + b.cost, a.tokensIn + b.tokensIn, a.tokensOut + b.tokensOut)
  }

  /** What the samples spent together. */
  function SpentIn(samples: seq<Sample>): Spent {
    if samples == [] then NOTHING else Plus(SpentIn(samples[..|samples| - 1]), samples[|samples| - 1].spent)
  }

  /** The row says how many samples there are, how they ended, what they spent, and where their latencies lie. */
  ghost predicate StandsFor(row: Row, samples: seq<Sample>) {
    && row.requests == |samples| && row.ok == Oks(samples) && row.errors == |samples| - row.ok
    && row.spent == SpentIn(samples)
    && HistogramOf(row.hist, LatenciesIn(samples))
    && row.p50 == Percentile(row.hist, 0.5) && row.p95 == Percentile(row.hist, 0.95)
  }

  class LatencyRollup {
    var rows: map<RowKey, Row>
    /** Everything recorded under a row, in order: what the rows stand for. */
    ghost var log: map<RowKey, seq<Sample>>

    ghost predicate Valid()
      reads this
    {
      Kept(rows, log)
    }

    constructor ()
      ensures Valid() && log == map[]
    {
      NothingKept();
      rows, log := map[], map[];
    }

    method AddSample(k: RowKey, s: Sample)
      requires Valid()
      modifies this
      ensures Valid()
      ensures forall x :: LogOf(log, x) == LogOf(old(log), x) + (if x == k then [s] else [])
    {
      hide HistogramOf, Percentile;
      var row := RowOf(rows, k);
      var hist := row.hist;
      if s.latency.Some? { hist := Added(hist, s.latency.value); }
      var p50 := EstimatePercentile(hist, 0.5);
      var p95 := EstimatePercentile(hist, 0.95);
      var ok := if s.ok then 1 else 0;
      var after := Row(row.requests + 1, row.ok + ok, row.errors + 1 - ok, Plus(row.spent, s.spent), hist, p50, p95);
      SampleKeeps(rows, log, k, s, after);
      rows := rows[k := after];
      log := log[k := LogOf(log, k) + [s]];
      forall x ensures LogOf(log, x) == LogOf(old(log), x) + (if x == k then [s] else []) {
        NothingAdded(LogOf(old(log), x));
      }
    }

    /** One finished run's attempts: each that reached a provider is recorded in its row. */
    method RecordStats(day: string, attempts: seq<Attempt>)
      requires Valid()
      modifies this
      ensures Valid()
      ensures forall k :: LogOf(log, k) == LogOf(old(log), k) + SamplesOf(day, attempts, k)
    {
      hide HistogramOf, Kept, Rounded, SamplesOf;
      forall k ensures LogOf(log, k) == LogOf(log, k) + SamplesOf(day, attempts[..0], k) {
        NoSamples(day, attempts, k);
      }
      for i := 0 to |attempts|
        invariant Valid()
        invariant forall k :: LogOf(log, k) == LogOf(old(log), k) + SamplesOf(day, attempts[..i], k)
      {
        var a := attempts[i];
        ghost var before := log;
        if Recorded(a) { AddSample(RowKey(day, a.provider, a.model), Sampled(a)); }
        forall k ensures LogOf(log, k) == LogOf(old(log), k) + SamplesOf(day, attempts[..i + 1], k) {
          SamplesStep(day, attempts, i, k);
          NothingAdded(LogOf(before, k));
          Associates(LogOf(old(log), k), SamplesOf(day, attempts[..i], k), SampleOf(day, a, k));
        }
      }
      assert attempts[..|attempts|] == attempts;
    }
  }

  ghost predicate Kept(rows: map<RowKey, Row>, log: map<RowKey, seq<Sample>>) {
    forall k :: StandsFor(RowOf(rows, k), LogOf(log, k))
  }

  ghost function LogOf(log: map<RowKey, seq<Sample>>, k: RowKey): seq<Sample> { if k in log then log[k] else [] }

  /** What a list of attempts adds to one row. */
  ghost function SamplesOf(day: string, attempts: seq<Attempt>, k: RowKey): seq<Sample> {
    if attempts == [] then []
    else SamplesOf(day, attempts[..|attempts| - 1], k) + SampleOf(day, attempts[|attempts| - 1], k)
  }

  ghost function SampleOf(day: string, a: Attempt, k: RowKey): seq<Sample> {
    if Recorded(a) && k == RowKey(day, a.provider, a.model) then [Sampled(a)] else []
  }

  lemma NoSamples(day: string, attempts: seq<Attempt>, k: RowKey)
    ensures SamplesOf(day, attempts[..0], k) == []
  {
  }

  lemma SamplesStep(day: string, attempts: seq<Attempt>, i: nat, k: RowKey)
    requires i < |attempts|
    ensures SamplesOf(day, attempts[..i + 1], k) == SamplesOf(day, attempts[..i], k) + SampleOf(day, attempts[i], k)
  {
    assert attempts[..i + 1][..i] == attempts[..i];
  }

  /** The sample says of the attempt how it ended, what it spent, and its latency to the nearest millisecond. */
  predicate Says(s: Sample, a: Attempt) {
    && s.ok == a.ok && s.spent == a.spent && (s.latency.Some? <==> a.latency.Some?)
    && (s.latency.Some? ==> IsRounded(s.latency.value, a.latency.value))
  }

  predicate IsRounded(ms: nat, latency: real) {
    if latency < 0.0 then ms == 0 else ms as real - 0.5 <= latency < ms as real + 0.5
  }

  /**
   * An attempt that reached a named provider adds one sample to the row of its day, provider and model, and none
   * elsewhere; an attempt that was skipped or has no provider adds none. A list adds what its attempts add, in order.
   */
  lemma AttemptsAreSampled(day: string, before: seq<Attempt>, a: Attempt, k: RowKey)
    ensures SamplesOf(day, before + [a], k)[..|SamplesOf(day, before, k)|] == SamplesOf(day, before, k)
    ensures var added := SamplesOf(day, before + [a], k)[|SamplesOf(day, before, k)|..];
            if a.provider != "" && !a.skipped && k.day == day && k.provider == a.provider && k.model == a.model
            then |added| == 1 && Says(added[0], a) else added == []
  {
    hide Rounded;
    assert (before + [a])[..|before|] == before;
    var old', one := SamplesOf(day, before, k), SampleOf(day, a, k);
    assert SamplesOf(day, before + [a], k) == old' + one;
    assert (old' + one)[..|old'|] == old' && (old' + one)[|old'|..] == one;
  }

  lemma NothingKept()
    ensures Kept(map[], map[])
  {
    NoneInTotal(EMPTY);
  }

  lemma {:induction false} NoneInTotal(h: seq<nat>)
    requires forall i :: 0 <= i < |h| ==> h[i] == 0
    ensures Total(h) == 0
  {
    if h != [] { NoneInTotal(h[..|h| - 1]); }
  }

  lemma OneMore(h: Histogram, samples: seq<nat>, ms: nat)
    requires HistogramOf(h, samples)
    ensures HistogramOf(Added(h, ms), samples + [ms])
  {
    assert (samples + [ms])[..|samples|] == samples;
  }

  lemma OneSampleMore(samples: seq<Sample>, s: Sample)
    ensures LatenciesIn(samples + [s]) == LatenciesIn(samples) + (if s.latency.Some? then [s.latency.value] else [])
    ensures Oks(samples + [s]) == Oks(samples) + (if s.ok then 1 else 0)
    ensures SpentIn(samples + [s]) == Plus(SpentIn(samples), s.spent)
  {
    assert (samples + [s])[..|samples|] == samples;
  }

  /** The totals start from nothing, and a sample adds its own cost and its own tokens to them. */
  lemma TotalsAdd(samples: seq<Sample>, s: Sample)
    ensures SpentIn([]) == Spent(0.0, 0, 0) && Oks([]) == 0
    ensures var was, now := SpentIn(samples), SpentIn(samples + [s]);
            && now.cost == was.cost + s.spent.cost
            && now.tokensIn == was.tokensIn + s.spent.tokensIn && now.tokensOut == was.tokensOut + s.spent.tokensOut
    ensures Oks(samples + [s]) == Oks(samples) + (if s.ok then 1 else 0)
  {
    OneSampleMore(samples, s);
  }

  lemma {:induction false} OksAtMost(samples: seq<Sample>)
    ensures Oks(samples) <= |samples|
  {
    if samples != [] { OksAtMost(samples[..|samples| - 1]); }
  }

  predicate Advances(row: Row, s: Sample, after: Row) {
    var ok := if s.ok then 1 else 0;
    && after.requests == row.requests + 1 && after.ok == row.ok + ok && after.errors == row.errors + 1 - ok
    && after.spent == Plus(row.spent, s.spent) && after.hist == HistogramAfter(row.hist, s)
    && after.p50 == Percentile(after.hist, 0.5) && after.p95 == Percentile(after.hist, 0.95)
  }

  lemma RowAdvances(row: Row, samples: seq<Sample>, s: Sample, after: Row)
    requires StandsFor(row, samples) && Advances(row, s, after)
    ensures StandsFor(after, samples + [s])
  {
    hide Percentile, HistogramOf, Added, LatenciesIn, Oks, SpentIn, Plus;
    OneSampleMore(samples, s);
    if s.latency.Some? {
      OneMore(row.hist, LatenciesIn(samples), s.latency.value);
    } else {
      NothingAdded(LatenciesIn(samples));
    }
  }

  lemma SampleKeeps(rows: map<RowKey, Row>, log: map<RowKey, seq<Sample>>, k: RowKey, s: Sample, after: Row)
    requires Kept(rows, log) && Advances(RowOf(rows, k), s, after)
    ensures Kept(rows[k := after], log[k := LogOf(log, k) + [s]])
  {
    hide StandsFor, Advances;
    assert StandsFor(RowOf(rows, k), LogOf(log, k));
    RowAdvances(RowOf(rows, k), LogOf(log, k), s, after);
    var rows', log' := rows[k := after], log[k := LogOf(log, k) + [s]];
    forall x ensures StandsFor(RowOf(rows', x), LogOf(log', x)) { assert StandsFor(RowOf(rows, x), LogOf(log, x)); }
  }

  // ----- the estimate against the sorted samples -----

  ghost predicate Sorted(s: seq<nat>) { forall i, j :: 0 <= i < j < |s| ==> s[i] <= s[j] }

  lemma BucketMonotone(a: nat, b: nat)
    requires a <= b
    ensures Bucket(a) <= Bucket(b)
  {
    BucketIsFirst(a);
    BucketIsFirst(b);
  }

  lemma CountInOne(samples: seq<nat>, x: nat, bucket: nat)
    ensures CountIn(samples + [x], bucket) == CountIn(samples, bucket) + (if Bucket(x) == bucket then 1 else 0)
  {
    assert (samples + [x])[..|samples|] == samples;
  }

  lemma {:induction false} CountInConcat(a: seq<nat>, b: seq<nat>, bucket: nat)
    ensures CountIn(a + b, bucket) == CountIn(a, bucket) + CountIn(b, bucket)
  {
    if b == [] {
      NothingAdded(a);
    } else {
      var front, x := b[..|b| - 1], b[|b| - 1];
      LastOf(a, b);
      CountInConcat(a, front, bucket);
      CountInOne(a + front, x, bucket);
      CountInOne(front, x, bucket);
      hide *;
    }
  }

  lemma CancelOne(p: multiset<nat>, q: multiset<nat>, x: nat)
    requires p + multiset{x} == q + multiset{x}
    ensures p == q
  {
    forall y ensures p[y] == q[y] { assert (p + multiset{x})[y] == (q + multiset{x})[y]; }
  }

  lemma CountInWithout(left: seq<nat>, x: nat, right: seq<nat>, bucket: nat)
    ensures CountIn((left + [x]) + right, bucket) ==
            CountIn(left + right, bucket) + (if Bucket(x) == bucket then 1 else 0)
  {
    hide *;
    CountInConcat(left + [x], right, bucket);
    CountInOne(left, x, bucket);
    CountInConcat(left, right, bucket);
  }

  lemma SameWithout(front: seq<nat>, left: seq<nat>, x: nat, right: seq<nat>)
    requires multiset(front + [x]) == multiset((left + [x]) + right)
    ensures multiset(front) == multiset(left + right)
  {
    assert multiset((left + [x]) + right) == multiset(left) + multiset{x} + multiset(right);
    assert multiset(left + right) == multiset(left) + multiset(right);
    assert multiset(front + [x]) == multiset(front) + multiset{x};
    CancelOne(multiset(left + right), multiset(front), x);
  }

  lemma SplitAt(b: seq<nat>, i: nat)
    requires i < |b|
    ensures b == (b[..i] + [b[i]]) + b[i + 1..]
  {
  }

  /** The histogram does not depend on the order of the samples. */
  lemma {:induction false} CountInPermutes(a: seq<nat>, b: seq<nat>, bucket: nat)
    requires multiset(a) == multiset(b)
    ensures CountIn(a, bucket) == CountIn(b, bucket)
    decreases |a|
  {
    hide CountIn, Bucket;
    if a == [] {
      assert |multiset(b)| == 0;
      assert b == [];
    } else {
      var front, x := a[..|a| - 1], a[|a| - 1];
      LastOf([], a);
      assert x in multiset(b);
      var i :| 0 <= i < |b| && b[i] == x;
      SplitAt(b, i);
      SameWithout(front, b[..i], x, b[i + 1..]);
      CountInPermutes(front, b[..i] + b[i + 1..], bucket);
      CountInWithout(b[..i], x, b[i + 1..], bucket);
      CountInOne(front, x, bucket);
    }
  }

  /** How many samples fall in the first `n` buckets. */
  function CountBelow(samples: seq<nat>, n: nat): nat {
    if n == 0 then 0 else CountBelow(samples, n - 1) + CountIn(samples, n - 1)
  }

  lemma {:induction false} CountBelowLast(samples: seq<nat>, x: nat, n: nat)
    ensures CountBelow(samples + [x], n) == CountBelow(samples, n) + (if Bucket(x) < n then 1 else 0)
  {
    hide CountIn, Bucket;
    if n > 0 {
      CountBelowLast(samples, x, n - 1);
      CountInOne(samples, x, n - 1);
    }
  }

  /** In sorted samples those of the first `n` buckets come first: there are `k` when the k-th is the last such. */
  lemma {:induction false} SortedCount(s: seq<nat>, n: nat, k: nat)
    requires Sorted(s) && k <= |s|
    requires k > 0 ==> Bucket(s[k - 1]) < n
    requires k < |s| ==> Bucket(s[k]) >= n
    ensures CountBelow(s, n) == k
    decreases |s|
  {
    hide Bucket, CountBelow;
    if s == [] {
      EmptyCount(n);
    } else {
      var front, x := s[..|s| - 1], s[|s| - 1];
      LastOf([], s);
      CountBelowLast(front, x, n);
      if k == |s| {
        if |front| > 0 { BucketMonotone(front[|front| - 1], x); }
        SortedCount(front, n, k - 1);
      } else {
        BucketMonotone(s[k], x);
        SortedCount(front, n, k);
      }
    }
  }

  lemma {:induction false} EmptyCount(n: nat)
    ensures CountBelow([], n) == 0
  {
    if n > 0 { EmptyCount(n - 1); }
  }

  /** The k-th smallest sample is in the first `n` buckets exactly when at least `k` samples are. */
  lemma KthIsBelow(s: seq<nat>, k: nat, n: nat)
    requires Sorted(s) && 1 <= k <= |s|
    ensures Bucket(s[k - 1]) < n <==> CountBelow(s, n) >= k
  {
    hide CountBelow, Bucket, FirstAtLeast;
    var m := FirstAtLeast(s, n);
    SortedCount(s, n, m);
    if m < |s| && m <= k - 1 { BucketMonotone(s[m], s[k - 1]); }
    if m > 0 && k - 1 <= m - 1 { BucketMonotone(s[k - 1], s[m - 1]); }
  }

  /** How many of the samples, from the start, are in the first `n` buckets. */
  function FirstAtLeast(s: seq<nat>, n: nat): (m: nat)
    ensures m <= |s| && (m > 0 ==> Bucket(s[m - 1]) < n) && (m < |s| ==> Bucket(s[m]) >= n)
  {
    if s == [] || Bucket(s[0]) >= n then 0 else 1 + FirstAtLeast(s[1..], n)
  }

  lemma {:induction false} ScanFindsKth(h: Histogram, s: seq<nat>, k: nat, i: nat, cum: nat)
    requires Sorted(s) && HistogramOf(h, s) && 1 <= k <= |s|
    requires i <= |h| && cum == CountBelow(s, i) && i <= Bucket(s[k - 1])
    ensures PercentileFrom(h, k, i, cum) == BoundOf(Bucket(s[k - 1]))
    decreases |h| - i
  {
    hide Bucket, CountIn, BoundOf;
    KthIsBelow(s, k, i + 1);
    if cum + h[i] < k { ScanFindsKth(h, s, k, i + 1, cum + h[i]); }
  }

  lemma {:induction false} TotalIsCount(h: Histogram, s: seq<nat>, n: nat)
    requires HistogramOf(h, s) && n <= |h|
    ensures Total(h[..n]) == CountBelow(s, n)
  {
    if n > 0 {
      TotalIsCount(h, s, n - 1);
      assert h[..n][..n - 1] == h[..n - 1];
    }
  }

  lemma {:induction false} AllBelow(s: seq<nat>)
    ensures CountBelow(s, |BOUNDS| + 1) == |s|
  {
    if s == [] {
      EmptyCount(|BOUNDS| + 1);
    } else {
      AllBelow(s[..|s| - 1]);
      assert s == s[..|s| - 1] + [s[|s| - 1]];
      CountBelowLast(s[..|s| - 1], s[|s| - 1], |BOUNDS| + 1);
    }
  }

  lemma SampleCount(h: Histogram, samples: seq<nat>)
    requires HistogramOf(h, samples)
    ensures Total(h) == |samples|
  {
    TotalIsCount(h, samples, |h|);
    assert h[..|h|] == h;
    AllBelow(samples);
  }

  lemma SortedHistogram(h: Histogram, samples: seq<nat>, sorted: seq<nat>)
    requires HistogramOf(h, samples) && multiset(samples) == multiset(sorted)
    ensures HistogramOf(h, sorted) && |sorted| == |samples|
  {
    forall b | 0 <= b < |h| ensures h[b] == CountIn(sorted, b) { CountInPermutes(samples, sorted, b); }
    assert |multiset(samples)| == |samples| && |multiset(sorted)| == |sorted|;
  }

  /**
   * The estimate of a quantile is the bound of the bucket that holds the k-th smallest sample, where k is the
   * quantile's share of the samples rounded up.
   */
  lemma PercentileIsTheKthSample(h: Histogram, samples: seq<nat>, sorted: seq<nat>, q: real)
    requires HistogramOf(h, samples) && multiset(samples) == multiset(sorted) && Sorted(sorted)
    requires 0.0 < q <= 1.0
    ensures Percentile(h, q).None? <==> samples == []
    ensures samples != [] ==>
              var k := Rank(q, |samples|);
              && 1 <= k <= |sorted| && Percentile(h, q) == Some(BoundOf(Bucket(sorted[k - 1])))
              && EstimateOf(Percentile(h, q).value, sorted[k - 1])
  {
    SampleCount(h, samples);
    SortedHistogram(h, samples, sorted);
    hide HistogramOf, Rank, Total, Bucket, BoundOf, EstimateOf;
    if samples != [] {
      RankInRange(q, |samples|);
      BoundIsTheEstimate(sorted[Rank(q, |samples|) - 1]);
      ScanFindsKth(h, sorted, Rank(q, |samples|), 0, 0);
    }
  }

  lemma RankInRange(q: real, n: nat)
    requires 0.0 < q <= 1.0 && n > 0
    ensures 1 <= Rank(q, n) <= n
  {
    var x, k := n as real, Rank(q, n);
    assert q * x <= k as real < q * x + 1.0;
    hide *;
    ProductMonotone(q, 1.0, x);
    assert q * x > 0.0;
  }

  lemma ProductMonotone(a: real, b: real, x: real)
    requires a <= b && x >= 0.0
    ensures a * x <= b * x
  {
  }

  lemma CeilingMonotone(a: real, b: real, low: int, high: int)
    requires a <= b && low as real < a + 1.0 && b <= high as real
    ensures low <= high
  {
  }

  lemma RankMonotone(a: real, b: real, n: nat)
    requires a <= b
    ensures Rank(a, n) <= Rank(b, n)
  {
    var x := n as real;
    var low, high := Rank(a, n), Rank(b, n);
    assert low as real < a * x + 1.0 && b * x <= high as real;
    hide *;
    ProductMonotone(a, b, x);
    CeilingMonotone(a * x, b * x, low, high);
  }

  lemma {:induction false} ScanMonotone(h: Histogram, low: int, high: int, i: nat, cum: nat)
    requires low <= high && i <= |h|
    ensures PercentileFrom(h, low, i, cum) <= PercentileFrom(h, high, i, cum)
    decreases |h| - i
  {
    if i < |h| {
      if cum + h[i] < low {
        ScanMonotone(h, low, high, i + 1, cum + h[i]);
      } else if cum + h[i] < high {
        ScanIsAtLeast(h, high, i + 1, cum + h[i], i);
      }
    }
  }

  lemma {:induction false} ScanIsAtLeast(h: Histogram, target: int, i: nat, cum: nat, bucket: nat)
    requires i <= |h| && bucket <= i
    ensures PercentileFrom(h, target, i, cum) >= BoundOf(bucket)
    decreases |h| - i
  {
    if i < |h| && cum + h[i] < target { ScanIsAtLeast(h, target, i + 1, cum + h[i], bucket); }
  }

  /**
   * A row kept attempt by attempt answers for everything recorded under it: its counts and totals are those of the
   * attempts, and its p50 and p95 stand for the k-th smallest of their latencies, in that order.
   */
  lemma RollupIsTheHistory(row: Row, samples: seq<Sample>, sorted: seq<nat>)
    requires StandsFor(row, samples) && multiset(LatenciesIn(samples)) == multiset(sorted) && Sorted(sorted)
    ensures row.requests == |samples| == row.ok + row.errors && row.ok == Oks(samples) && row.spent == SpentIn(samples)
    ensures sorted == [] ==> row.p50.None? && row.p95.None?
    ensures sorted != [] ==>
              var low, high := Rank(0.5, |sorted|), Rank(0.95, |sorted|);
              && 1 <= low <= high <= |sorted|
              && row.p50.Some? && EstimateOf(row.p50.value, sorted[low - 1])
              && row.p95.Some? && EstimateOf(row.p95.value, sorted[high - 1])
              && row.p50.value <= row.p95.value
  {
    var latencies := LatenciesIn(samples);
    OksAtMost(samples);
    hide Rank, BoundOf, Bucket, HistogramOf, Percentile, LatenciesIn, EstimateOf;
    assert |multiset(latencies)| == |latencies| && |multiset(sorted)| == |sorted|;
    PercentileIsTheKthSample(row.hist, latencies, sorted, 0.5);
    PercentileIsTheKthSample(row.hist, latencies, sorted, 0.95);
    if sorted != [] {
      RankMonotone(0.5, 0.95, |sorted|);
      QuantilesAreOrdered(row.hist, 0.5, 0.95);
    }
  }

  /** A higher quantile of the same histogram is never estimated lower: p50 is at most p95. */
  lemma QuantilesAreOrdered(h: Histogram, low: real, high: real)
    requires low <= high && Percentile(h, low).Some?
    ensures Percentile(h, high).Some? && Percentile(h, low).value <= Percentile(h, high).value
  {
    RankMonotone(low, high, Total(h));
    ScanMonotone(h, Rank(low, Total(h)), Rank(high, Total(h)), 0, 0);
  }
}

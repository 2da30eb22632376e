/** Latency statistics and the speech-to-text placement rule, over exact reals. */
module Measure {
  import opened Options
  import opened Ordering

  datatype Result<+T> = Ok(value: T) | ValueError

  predicate Le(x: real, y: real) { x <= y }

  function Sorted(values: seq<real>): (r: seq<real>)
    ensures |r| == |values|
  {
    StableSort(Le, values)
  }

  /** Position p percent of the way along a list of n, as `(p / 100) * (n - 1)`. */
  function Rank(n: nat, p: real): real {
    (p / 100.0) * (n as real - 1.0)
  }

  function Between(a: real, b: real, frac: real): real {
    a * (1.0 - frac) + b * frac
  }

  /** Linear interpolation at a rank of a sorted list. */
  function At(s: seq<real>, rank: real): real
    requires s != [] && 0.0 <= rank <= |s| as real - 1.0
  {
    var lo := rank.Floor;
    if rank == lo as real then s[lo] else Between(s[lo], s[lo + 1], rank - lo as real)
  }

  lemma NonNegativeProduct(x: real, y: real)
    requires 0.0 <= x && 0.0 <= y
    ensures 0.0 <= x * y
  {
  }

  lemma RankInRange(n: nat, p: real)
    requires n >= 1 && 0.0 <= p <= 100.0
    ensures 0.0 <= Rank(n, p) <= n as real - 1.0
  {
    var q, m := p / 100.0, n as real - 1.0;
    NonNegativeProduct(q, m);
    NonNegativeProduct(1.0 - q, m);
    assert (1.0 - q) * m == m - q * m;
  }

  /** Linear-interpolated percentile; an empty sample or a p outside [0, 100] is an error. */
  function Percentile(values: seq<real>, p: real): Result<real> {
    if values == [] then ValueError
    else if !(0.0 <= p <= 100.0) then ValueError
    else
      var ordered := Sorted(values);
      if |ordered| == 1 then Ok(ordered[0])
      else
        RankInRange(|ordered|, p);
        Ok(At(ordered, Rank(|ordered|, p)))
  }

  // ---- Sorting preserves pointwise order ----

  ghost predicate Pointwise(xs: seq<real>, ys: seq<real>) {
    |xs| == |ys| && forall i :: 0 <= i < |xs| ==> xs[i] <= ys[i]
  }

  lemma {:induction false} InsertHead(x: real, s: seq<real>)
    requires Ordered(Le, [x] + s)
    ensures Insert(Le, x, s) == [x] + s
  {
    if s == [] {
    } else {
      assert Le(([x] + s)[0], ([x] + s)[1]);
    }
  }

  lemma PointwiseCons(x: real, s: seq<real>, y: real, t: seq<real>)
    requires x <= y && Pointwise(s, t)
    ensures Pointwise([x] + s, [y] + t)
  {
  }

  lemma {:induction false} InsertPointwise(a: real, s: seq<real>, b: real, t: seq<real>)
    requires a <= b && Pointwise(s, t) && Ordered(Le, s) && Ordered(Le, t)
    ensures Pointwise(Insert(Le, a, s), Insert(Le, b, t))
    decreases |s|
  {
    if s == [] {
    } else {
      var s', t' := s[1..], t[1..];
      assert s[0] <= t[0] && Pointwise(s', t');
      if a <= s[0] {
        if b <= t[0] {
          PointwiseCons(a, s, b, t);
        } else {
          InsertHead(s[0], s');
          InsertPointwise(s[0], s', b, t');
          PointwiseCons(a, s, t[0], Insert(Le, b, t'));
        }
      } else {
        if b <= t[0] {
          InsertHead(t[0], t');
          InsertPointwise(a, s', t[0], t');
          PointwiseCons(s[0], Insert(Le, a, s'), b, t);
        } else {
          InsertPointwise(a, s', b, t');
          PointwiseCons(s[0], Insert(Le, a, s'), t[0], Insert(Le, b, t'));
        }
      }
    }
  }

  /** If every value grows or stays, every order statistic does. */
  lemma {:induction false} SortingPreservesPointwise(xs: seq<real>, ys: seq<real>)
    requires Pointwise(xs, ys)
    ensures Pointwise(Sorted(xs), Sorted(ys))
  {
    if xs == [] {
    } else {
      SortingPreservesPointwise(xs[1..], ys[1..]);
      StableSortOrdered(Le, xs[1..]);
      StableSortOrdered(Le, ys[1..]);
      InsertPointwise(xs[0], Sorted(xs[1..]), ys[0], Sorted(ys[1..]));
    }
  }

  // ---- Percentiles are monotone in the samples and in p ----

  lemma BetweenMonotone(a: real, b: real, a': real, b': real, f: real)
    requires a <= a' && b <= b' && 0.0 <= f <= 1.0
    ensures Between(a, b, f) <= Between(a', b', f)
  {
    NonNegativeProduct(a' - a, 1.0 - f);
    NonNegativeProduct(b' - b, f);
  }

  lemma BetweenBounds(a: real, b: real, f: real, g: real)
    requires a <= b && 0.0 <= f <= g <= 1.0
    ensures a <= Between(a, b, f) <= Between(a, b, g) <= b
  {
    NonNegativeProduct(b - a, f);
    NonNegativeProduct(b - a, g - f);
    NonNegativeProduct(b - a, 1.0 - g);
    assert Between(a, b, f) == a + (b - a) * f;
    assert Between(a, b, g) == a + (b - a) * g;
  }

  lemma AtPointwise(s: seq<real>, t: seq<real>, rank: real)
    requires s != [] && Pointwise(s, t) && 0.0 <= rank <= |s| as real - 1.0
    ensures At(s, rank) <= At(t, rank)
  {
    var lo := rank.Floor;
    if rank != lo as real { BetweenMonotone(s[lo], s[lo + 1], t[lo], t[lo + 1], rank - lo as real); }
  }

  lemma AtMonotone(s: seq<real>, r1: real, r2: real)
    requires s != [] && Ordered(Le, s) && 0.0 <= r1 <= r2 <= |s| as real - 1.0
    ensures At(s, r1) <= At(s, r2)
    ensures s[0] <= At(s, r1) && At(s, r2) <= s[|s| - 1]
  {
    var lo1, lo2 := r1.Floor, r2.Floor;
    AtInCell(s, r1);
    AtInCell(s, r2);
    if lo1 == lo2 {
      if r1 != lo1 as real { BetweenBounds(s[lo1], s[lo1 + 1], r1 - lo1 as real, r2 - lo1 as real); }
    } else {
      assert lo1 + 1 == lo2 || Le(s[lo1 + 1], s[lo2]);
    }
  }

  lemma AtInCell(s: seq<real>, r: real)
    requires s != [] && Ordered(Le, s) && 0.0 <= r <= |s| as real - 1.0
    ensures s[0] <= s[r.Floor] <= At(s, r)
    ensures r.Floor + 1 < |s| ==> At(s, r) <= s[r.Floor + 1] <= s[|s| - 1]
    ensures At(s, r) <= s[|s| - 1]
  {
    var lo := r.Floor;
    assert lo == 0 || Le(s[0], s[lo]);
    if r != lo as real {
      assert Le(s[lo], s[lo + 1]);
      BetweenBounds(s[lo], s[lo + 1], r - lo as real, 1.0);
      assert lo + 1 == |s| - 1 || Le(s[lo + 1], s[|s| - 1]);
    } else if lo + 1 < |s| {
      assert Le(s[lo], s[lo + 1]);
      assert lo + 1 == |s| - 1 || Le(s[lo + 1], s[|s| - 1]);
    }
  }

  /** Slower samples never give a lower percentile. */
  lemma PercentileMonotoneInSamples(xs: seq<real>, ys: seq<real>, p: real)
    requires Pointwise(xs, ys) && xs != [] && 0.0 <= p <= 100.0
    ensures Percentile(xs, p).Ok? && Percentile(ys, p).Ok? && Percentile(xs, p).value <= Percentile(ys, p).value
  {
    SortingPreservesPointwise(xs, ys);
    if |xs| > 1 {
      RankInRange(|xs|, p);
      AtPointwise(Sorted(xs), Sorted(ys), Rank(|xs|, p));
    }
  }

  ghost predicate IsMinimum(m: real, values: seq<real>) {
    m in values && forall v :: v in values ==> m <= v
  }

  ghost predicate IsMaximum(m: real, values: seq<real>) {
    m in values && forall v :: v in values ==> v <= m
  }

  lemma SortedEnds(values: seq<real>)
    requires values != []
    ensures Ordered(Le, Sorted(values))
    ensures IsMinimum(Sorted(values)[0], values) && IsMaximum(Sorted(values)[|values| - 1], values)
  {
    StableSortOrdered(Le, values);
    var s := Sorted(values);
    SameMultisetSameMembers(s, values);
    assert s[0] in s && s[|s| - 1] in s;
    forall v | v in values ensures s[0] <= v <= s[|s| - 1] {
      var i :| 0 <= i < |s| && s[i] == v;
      assert i == 0 || Le(s[0], s[i]);
      assert i == |s| - 1 || Le(s[i], s[|s| - 1]);
    }
  }

  /** A higher percentile is never lower; percentile 0 is the minimum, percentile 100 the maximum. */
  lemma PercentileMonotoneInP(values: seq<real>, p: real, q: real)
    requires values != [] && 0.0 <= p <= q <= 100.0
    ensures Percentile(values, p).Ok? && Percentile(values, q).Ok?
    ensures Percentile(values, p).value <= Percentile(values, q).value
    ensures forall m :: IsMinimum(m, values) ==>
              m <= Percentile(values, p).value && (p == 0.0 ==> m == Percentile(values, p).value)
    ensures forall m :: IsMaximum(m, values) ==>
              Percentile(values, q).value <= m && (q == 100.0 ==> m == Percentile(values, q).value)
  {
    SortedEnds(values);
    var n := |values|;
    if n > 1 {
      RankInRange(n, p);
      RankInRange(n, q);
      AtMonotone(Sorted(values), Rank(n, p), Rank(n, q));
    }
  }

  /** Between two ranks the percentile lies on the line between the two order statistics. */
  lemma PercentileInterpolates(values: seq<real>, p: real, k: nat, along: real)
    requires 0.0 <= p <= 100.0 && k + 1 < |values|
    requires 0.0 <= along <= 1.0 && k as real + along == p / 100.0 * (|values| as real - 1.0)
    ensures Ordered(Le, Sorted(values)) && multiset(Sorted(values)) == multiset(values)
    ensures var s := Sorted(values); Percentile(values, p) == Ok(s[k] + (s[k + 1] - s[k]) * along)
  {
    StableSortOrdered(Le, values);
    var s := Sorted(values);
    RankInRange(|values|, p);
    BetweenIsALine(s[k], s[k + 1], along);
    assert Rank(|values|, p).Floor == if along == 1.0 then k + 1 else k;
  }

  lemma BetweenIsALine(a: real, b: real, along: real)
    ensures Between(a, b, along) == a + (b - a) * along
    ensures along == 0.0 ==> a + (b - a) * along == a
    ensures along == 1.0 ==> a + (b - a) * along == b
  {
  }

  // ---- Summaries ----

  datatype Sample = Sample(stage: string, elapsed: real, ok: bool, audio: Option<real>)

  datatype StageSummary = StageSummary(
    stage: string, concurrency: int, n: nat, failures: int, p50: Option<real>, p95: Option<real>, min: Option<real>,
    max: Option<real>, mean: Option<real>, realtimeFactor: Option<real>, holdsConversation: Option<bool>)

  function RealtimeFactor(audio: real, elapsed: real): Result<real> {
    if audio < 0.0 then ValueError
    else if elapsed <= 0.0 then ValueError
    else Ok(audio / elapsed)
  }

  function OkTimes(samples: seq<Sample>): seq<real> {
    if samples == [] then []
    else (if samples[0].ok then [samples[0].elapsed] else []) + OkTimes(samples[1..])
  }

  /** The first audio duration an ok sample reports. */
  function FirstAudio(samples: seq<Sample>): Option<real> {
    if samples == [] then None
    else if samples[0].ok && samples[0].audio.Some? then samples[0].audio
    else FirstAudio(samples[1..])
  }

  function Sum(values: seq<real>): real {
    if values == [] then 0.0 else values[0] + Sum(values[1..])
  }

  function Minimum(values: seq<real>): real
    requires values != []
  {
    Sorted(values)[0]
  }

  function Maximum(values: seq<real>): real
    requires values != []
  {
    Sorted(values)[|values| - 1]
  }

  function Summarise(samples: seq<Sample>, concurrency: int, audio: Option<real>): Result<StageSummary> {
    if concurrency < 1 then ValueError
    else
      var times := OkTimes(samples);
      var stage := if samples != [] then samples[0].stage else "unknown";
      if times == [] then
        Ok(StageSummary(stage, concurrency, |samples|, |samples|, None, None, None, None, None, None, None))
      else
        var p50 := Percentile(times, 50.0).value;
        var duration := if audio.Some? then audio else FirstAudio(samples);
        var rtf := if duration.Some? then RealtimeFactor(duration.value, p50) else Ok(0.0);
        if rtf.ValueError? then ValueError
        else
          Ok(StageSummary(stage, concurrency, |samples|, |samples| - |times|, Some(p50),
                          Some(Percentile(times, 95.0).value), Some(Minimum(times)), Some(Maximum(times)),
                          Some(Sum(times) / |times| as real),
                          if duration.Some? then Some(rtf.value) else None,
                          if duration.Some? then Some(rtf.value >= 1.0) else None))
  }

  lemma {:induction false} SumBounds(values: seq<real>, lo: real, hi: real)
    requires forall v :: v in values ==> lo <= v <= hi
    ensures lo * |values| as real <= Sum(values) <= hi * |values| as real
  {
    if values == [] {
    } else {
      assert values[0] in values;
      assert forall v :: v in values[1..] ==> v in values;
      SumBounds(values[1..], lo, hi);
      var rest := |values[1..]| as real;
      assert |values| as real == 1.0 + rest;
      assert lo * (1.0 + rest) == lo + lo * rest;
      assert hi * (1.0 + rest) == hi + hi * rest;
    }
  }

  lemma MeanBounds(values: seq<real>, lo: real, hi: real)
    requires values != [] && forall v :: v in values ==> lo <= v <= hi
    ensures lo <= Sum(values) / |values| as real <= hi
  {
    SumBounds(values, lo, hi);
  }

  /** The columns of a row are ordered: min, p50, p95, max; the mean lies between min and max. */
  lemma SummaryOrdered(samples: seq<Sample>, concurrency: int, audio: Option<real>)
    requires Summarise(samples, concurrency, audio).Ok? && OkTimes(samples) != []
    ensures var r := Summarise(samples, concurrency, audio).value;
      && r.min.value <= r.p50.value <= r.p95.value <= r.max.value
      && r.min.value <= r.mean.value <= r.max.value
      && IsMinimum(r.min.value, OkTimes(samples)) && IsMaximum(r.max.value, OkTimes(samples))
  {
    var times := OkTimes(samples);
    PercentileMonotoneInP(times, 50.0, 95.0);
    SortedEnds(times);
    MeanBounds(times, Minimum(times), Maximum(times));
  }

  // ---- Placement ----

  const STT_MAX_P95 := 2.0
  const STT_TARGET_CONCURRENCY := 2

  datatype Placement = SelfHosted | Hosted

  datatype Reason = NoMeasurements | BelowRealtime(worst: StageSummary) | SlowSequential(worst: StageSummary)
                  | InsideTheGates | NoneUsable

  function SttRows(rows: seq<StageSummary>): seq<StageSummary> {
    if rows == [] then []
    else (if rows[0].stage == "stt" && rows[0].p50.Some? then [rows[0]] else []) + SttRows(rows[1..])
  }

  predicate IsContended(row: StageSummary) {
    row.concurrency >= STT_TARGET_CONCURRENCY && row.realtimeFactor.Some?
  }

  predicate IsSequential(row: StageSummary) {
    row.concurrency == 1 && row.p95.Some?
  }

  function Where(rows: seq<StageSummary>, keep: StageSummary -> bool): seq<StageSummary> {
    if rows == [] then [] else (if keep(rows[0]) then [rows[0]] else []) + Where(rows[1..], keep)
  }

  function GetOr(x: Option<real>, default: real): real {
    if x.Some? then x.value else default
  }

  /** The first row with the least key. */
  function FirstLeast(rows: seq<StageSummary>, key: StageSummary -> real): StageSummary
    requires rows != []
  {
    if |rows| == 1 then rows[0]
    else
      var best := FirstLeast(rows[..|rows| - 1], key);
      var last := rows[|rows| - 1];
      if key(last) < key(best) then last else best
  }

  function SttPlacement(summaries: seq<StageSummary>): (Placement, Reason) {
    var stt := SttRows(summaries);
    if stt == [] then (Hosted, NoMeasurements)
    else
      var contended := Where(stt, IsContended);
      if exists row :: row in contended && row.realtimeFactor.Some? && row.realtimeFactor.value < 1.0 then
        (Hosted, BelowRealtime(FirstLeast(contended, (row: StageSummary) => GetOr(row.realtimeFactor, 0.0))))
      else
        var sequential := Where(stt, IsSequential);
        if exists row :: row in sequential && row.p95.Some? && row.p95.value > STT_MAX_P95 then
          (Hosted, SlowSequential(FirstLeast(sequential, (row: StageSummary) => 0.0 - GetOr(row.p95, 0.0))))
        else if contended != [] || sequential != [] then (SelfHosted, InsideTheGates)
        else (Hosted, NoneUsable)
  }

  predicate IsStt(row: StageSummary) {
    row.stage == "stt" && row.p50.Some?
  }

  lemma {:induction false} SttRowsMembers(rows: seq<StageSummary>)
    ensures forall row :: row in SttRows(rows) <==> row in rows && IsStt(row)
  {
    if rows == [] {
    } else {
      SttRowsMembers(rows[1..]);
      assert rows == [rows[0]] + rows[1..];
    }
  }

  lemma {:induction false} WhereMembers(rows: seq<StageSummary>, keep: StageSummary -> bool)
    ensures forall row :: row in Where(rows, keep) <==> row in rows && keep(row)
  {
    if rows == [] {
    } else {
      WhereMembers(rows[1..], keep);
      assert rows == [rows[0]] + rows[1..];
    }
  }

  /** A usable STT row passes its gate. */
  predicate Passes(row: StageSummary) {
    && (IsContended(row) ==> row.realtimeFactor.value >= 1.0)
    && (IsSequential(row) ==> row.p95.value <= STT_MAX_P95)
  }

  predicate IsUsable(row: StageSummary) {
    IsStt(row) && (IsContended(row) || IsSequential(row))
  }

  ghost predicate SomeUsable(rows: seq<StageSummary>) {
    exists row :: row in rows && IsUsable(row)
  }

  ghost predicate AllPass(rows: seq<StageSummary>) {
    forall row :: row in rows && IsStt(row) ==> Passes(row)
  }

  lemma GateMembers(rows: seq<StageSummary>)
    ensures forall row :: row in Where(SttRows(rows), IsContended) <==> row in rows && IsStt(row) && IsContended(row)
    ensures forall row :: row in Where(SttRows(rows), IsSequential) <==> row in rows && IsStt(row) && IsSequential(row)
    ensures SttRows(rows) == [] ==> Where(SttRows(rows), IsContended) == [] && Where(SttRows(rows), IsSequential) == []
  {
    SttRowsMembers(rows);
    WhereMembers(SttRows(rows), IsContended);
    WhereMembers(SttRows(rows), IsSequential);
  }

  lemma NonEmptyIff(rows: seq<StageSummary>)
    ensures rows != [] <==> exists row :: row in rows
  {
    if rows != [] { assert rows[0] in rows; }
  }

  /** Self-hosting is recommended exactly when some STT row is usable and every usable one passes its gate. */
  lemma SelfHostedIff(rows: seq<StageSummary>)
    ensures SttPlacement(rows).0 == SelfHosted <==> SomeUsable(rows) && AllPass(rows)
  {
    GateMembers(rows);
    var contended, sequential := Where(SttRows(rows), IsContended), Where(SttRows(rows), IsSequential);
    NonEmptyIff(contended);
    NonEmptyIff(sequential);
    assert SomeUsable(rows) <==> contended != [] || sequential != [];
    assert AllPass(rows) <==>
      (forall row :: row in contended ==> row.realtimeFactor.value >= 1.0)
      && (forall row :: row in sequential ==> row.p95.value <= STT_MAX_P95);
  }

  lemma {:induction false} FirstLeastIsLeast(rows: seq<StageSummary>, key: StageSummary -> real)
    requires rows != []
    ensures FirstLeast(rows, key) in rows
    ensures forall row :: row in rows ==> key(FirstLeast(rows, key)) <= key(row)
  {
    if |rows| > 1 {
      FirstLeastIsLeast(rows[..|rows| - 1], key);
      assert rows == rows[..|rows| - 1] + [rows[|rows| - 1]];
    }
  }

  /** A refusal names the row that fails its gate worst. */
  lemma RefusalNamesTheWorst(rows: seq<StageSummary>)
    ensures match SttPlacement(rows).1
      case BelowRealtime(w) =>
        && w in rows && IsStt(w) && IsContended(w) && w.realtimeFactor.value < 1.0
        && (forall r :: r in rows && IsStt(r) && IsContended(r) ==> w.realtimeFactor.value <= r.realtimeFactor.value)
      case SlowSequential(w) =>
        && w in rows && IsStt(w) && IsSequential(w) && w.p95.value > STT_MAX_P95
        && (forall r :: r in rows && IsStt(r) && IsSequential(r) ==> r.p95.value <= w.p95.value)
      case _ => true
  {
    GateMembers(rows);
    var contended, sequential := Where(SttRows(rows), IsContended), Where(SttRows(rows), IsSequential);
    if contended != [] { FirstLeastIsLeast(contended, (row: StageSummary) => GetOr(row.realtimeFactor, 0.0)); }
    if sequential != [] { FirstLeastIsLeast(sequential, (row: StageSummary) => 0.0 - GetOr(row.p95, 0.0)); }
  }

  // ---- Slower probes ----

  datatype ProbeRun = ProbeRun(samples: seq<Sample>, concurrency: int, audio: Option<real>)

  /** The same probes with the same outcomes, each successful one at least as slow. */
  ghost predicate SlowerSamples(a: seq<Sample>, b: seq<Sample>) {
    && |a| == |b|
    && (forall i :: 0 <= i < |a| ==>
          a[i].stage == b[i].stage && a[i].ok == b[i].ok && a[i].audio == b[i].audio
            && (a[i].ok ==> a[i].elapsed <= b[i].elapsed))
  }

  lemma {:induction false} SlowerTimes(a: seq<Sample>, b: seq<Sample>)
    requires SlowerSamples(a, b)
    ensures Pointwise(OkTimes(a), OkTimes(b)) && FirstAudio(a) == FirstAudio(b)
  {
    if a == [] {
    } else {
      assert SlowerSamples(a[1..], b[1..]);
      SlowerTimes(a[1..], b[1..]);
    }
  }

  /** A row that is nowhere better. */
  ghost predicate NoBetter(r: StageSummary, r': StageSummary) {
    && r.stage == r'.stage && r.concurrency == r'.concurrency
    && (r.p50.Some? <==> r'.p50.Some?) && (r.p95.Some? <==> r'.p95.Some?)
    && (r.realtimeFactor.Some? <==> r'.realtimeFactor.Some?)
    && (r.p95.Some? ==> r.p95.value <= r'.p95.value)
    && (r.realtimeFactor.Some? ==> r.realtimeFactor.value >= r'.realtimeFactor.value)
  }

  lemma LargerDivisor(q: real, p: real, x: real, y: real)
    requires 0.0 < x <= y && 0.0 <= q && q * y == p * x
    ensures q <= p
  {
    NonNegativeProduct(q, y - x);
    assert q * (y - x) == q * y - q * x;
  }

  lemma QuotientAntitone(a: real, x: real, y: real)
    requires 0.0 <= a && 0.0 < x <= y
    ensures a / x >= a / y
  {
    var p, q := a / x, a / y;
    LargerDivisor(q, p, x, y);
  }

  lemma SlowerSummary(a: seq<Sample>, b: seq<Sample>, concurrency: int, audio: Option<real>)
    requires SlowerSamples(a, b) && Summarise(a, concurrency, audio).Ok?
    ensures Summarise(b, concurrency, audio).Ok?
    ensures NoBetter(Summarise(a, concurrency, audio).value, Summarise(b, concurrency, audio).value)
  {
    SlowerTimes(a, b);
    var times, times' := OkTimes(a), OkTimes(b);
    if times != [] {
      PercentileMonotoneInSamples(times, times', 50.0);
      PercentileMonotoneInSamples(times, times', 95.0);
      var duration := if audio.Some? then audio else FirstAudio(a);
      if duration.Some? {
        QuotientAntitone(duration.value, Percentile(times, 50.0).value, Percentile(times', 50.0).value);
      }
    }
  }

  function SummariseAll(runs: seq<ProbeRun>): Result<seq<StageSummary>> {
    if runs == [] then Ok([])
    else
      var first := Summarise(runs[0].samples, runs[0].concurrency, runs[0].audio);
      var rest := SummariseAll(runs[1..]);
      if first.ValueError? || rest.ValueError? then ValueError else Ok([first.value] + rest.value)
  }

  ghost predicate SlowerRuns(runs: seq<ProbeRun>, runs': seq<ProbeRun>) {
    && |runs| == |runs'|
    && (forall i :: 0 <= i < |runs| ==>
          && runs[i].concurrency == runs'[i].concurrency && runs[i].audio == runs'[i].audio
          && SlowerSamples(runs[i].samples, runs'[i].samples))
  }

  lemma {:induction false} SlowerSummaries(runs: seq<ProbeRun>, runs': seq<ProbeRun>)
    requires SlowerRuns(runs, runs') && SummariseAll(runs).Ok?
    ensures SummariseAll(runs').Ok?
    ensures var rows, rows' := SummariseAll(runs).value, SummariseAll(runs').value;
      |rows| == |rows'| && forall k :: 0 <= k < |rows| ==> NoBetter(rows[k], rows'[k])
  {
    if runs == [] {
    } else {
      SlowerSummary(runs[0].samples, runs'[0].samples, runs[0].concurrency, runs[0].audio);
      SlowerSummaries(runs[1..], runs'[1..]);
    }
  }

  /** Making successful probes slower never turns a hosted recommendation into a self-hosted one. */
  lemma SlowerNeverFlipsToSelfHosted(runs: seq<ProbeRun>, runs': seq<ProbeRun>)
    requires SlowerRuns(runs, runs') && SummariseAll(runs).Ok?
    requires SttPlacement(SummariseAll(runs).value).0 == Hosted
    ensures SummariseAll(runs').Ok? && SttPlacement(SummariseAll(runs').value).0 == Hosted
  {
    SlowerSummaries(runs, runs');
    var rows, rows' := SummariseAll(runs).value, SummariseAll(runs').value;
    SelfHostedIff(rows);
    SelfHostedIff(rows');
    if SomeUsable(rows') && AllPass(rows') {
      var row' :| row' in rows' && IsUsable(row');
      var k :| 0 <= k < |rows'| && rows'[k] == row';
      assert NoBetter(rows[k], rows'[k]) && rows[k] in rows && IsUsable(rows[k]);
      forall row | row in rows && IsStt(row) ensures Passes(row) {
        var j :| 0 <= j < |rows| && rows[j] == row;
        assert NoBetter(rows[j], rows'[j]) && rows'[j] in rows' && Passes(rows'[j]);
      }
    }
  }
}

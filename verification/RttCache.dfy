/** The bounded RTT sample cache of one carrier binding and direction
    (core/stream_rtt_probe_cache.go), against the full sample history. */
module RttCache {
  import opened Prelude
  import opened Sorting

  const SAMPLE_WINDOW := 30_000_000_000
  const MAX_SAMPLES := 5

  datatype Sample = Sample(rtt: int, at: int)

  /** `rtt` in nanoseconds, the number of fresh samples and the newest one's time. */
  datatype Feedback = Feedback(rtt: int, samples: nat, observedAt: int)

  // ------------------------------------------------------------- recording samples

  function At(s: Sample): int {
    s.at
  }

  /** The later of `end` and the newest sample. */
  function WindowEnd(s: seq<Sample>, end: int): int {
    if s == [] then end else WindowEnd(s[..|s| - 1], Max(end, s[|s| - 1].at))
  }

  /** The samples at most SAMPLE_WINDOW older than `end`, in order. */
  function Within(s: seq<Sample>, end: int): seq<Sample> {
    if s == [] then []
    else
      var front, last := s[..|s| - 1], s[|s| - 1];
      if end - last.at <= SAMPLE_WINDOW then Within(front, end) + [last] else Within(front, end)
  }

  /** The last `n` of a list, or all of it. */
  function Last<T>(s: seq<T>, n: nat): seq<T> {
    if |s| > n then s[|s| - n..] else s
  }

  function Newest(s: seq<Sample>): seq<Sample> {
    Last(s, MAX_SAMPLES)
  }

  /** The new sample joins what was kept if it is itself fresh; then sort and cut. */
  function Join(kept: seq<Sample>, x: Sample, end: int): seq<Sample> {
    Newest(SortBy(if end - x.at <= SAMPLE_WINDOW then kept + [x] else kept, At))
  }

  function RecordSample(current: seq<Sample>, x: Sample): seq<Sample> {
    var end := WindowEnd(current, x.at);
    Join(Within(current, end), x, end)
  }

  /** The cache after recording a whole history, in order. */
  function Cached(history: seq<Sample>): seq<Sample> {
    if history == [] then [] else RecordSample(Cached(history[..|history| - 1]), history[|history| - 1])
  }

  /** What an unbounded cache would say: sort everything ever recorded by time, keep
      what lies within 30 s of the newest, and of that the newest five. */
  function FullView(history: seq<Sample>): seq<Sample> {
    if history == [] then [] else Newest(Within(SortBy(history, At), NewestTime(history)))
  }

  function NewestTime(history: seq<Sample>): int
    requires history != []
  {
    WindowEnd(history[1..], history[0].at)
  }

  // ------------------------------------------------ the cache equals the full view

  lemma {:induction false} EndIsNewest(s: seq<Sample>, end: int)
    ensures end <= WindowEnd(s, end)
    ensures forall x <- s :: x.at <= WindowEnd(s, end)
    ensures WindowEnd(s, end) == end || exists x :: x in s && x.at == WindowEnd(s, end)
  {
    if s != [] {
      var front, last := s[..|s| - 1], s[|s| - 1];
      assert s == front + [last];
      EndIsNewest(front, Max(end, last.at));
    }
  }

  /** In time order, what lies within the window is a tail of the list. */
  lemma {:induction false} WithinIsTail(s: seq<Sample>, end: int) returns (k: nat)
    requires Ascending(s, At)
    ensures k <= |s| && Within(s, end) == s[k..]
    ensures forall i | 0 <= i < |s| :: i < k <==> end - s[i].at > SAMPLE_WINDOW
  {
    if s == [] {
      k := 0;
    } else {
      var front, last := s[..|s| - 1], s[|s| - 1];
      assert s == front + [last];
      k := WithinIsTail(front, end);
      if end - last.at > SAMPLE_WINDOW {
        forall i | 0 <= i < |front|
          ensures end - front[i].at > SAMPLE_WINDOW
        {
          assert At(s[i]) <= At(s[|s| - 1]);
        }
        k := |s|;
      } else {
        assert s[k..] == front[k..] + [last];
      }
    }
  }

  lemma LastSnoc<T>(s: seq<T>, y: T, n: nat)
    requires n > 0
    ensures Last(s + [y], n) == Last(s, n - 1) + [y]
  {
  }

  lemma {:induction false} WithinTwice(s: seq<Sample>, end: int, later: int)
    requires end <= later
    ensures Within(Within(s, end), later) == Within(s, later)
  {
    if s != [] {
      var front, last := s[..|s| - 1], s[|s| - 1];
      WithinTwice(front, end, later);
      if end - last.at <= SAMPLE_WINDOW {
        assert (Within(front, end) + [last])[..|Within(front, end)|] == Within(front, end);
      }
    }
  }

  lemma WithinSnoc(s: seq<Sample>, y: Sample, end: int)
    ensures Within(s + [y], end) == if end - y.at <= SAMPLE_WINDOW then Within(s, end) + [y] else Within(s, end)
  {
    assert (s + [y])[..|s|] == s;
  }

  lemma {:induction false} NothingWithin(s: seq<Sample>, end: int)
    requires forall i | 0 <= i < |s| :: end - s[i].at > SAMPLE_WINDOW
    ensures Within(s, end) == []
  {
    if s != [] {
      NothingWithin(s[..|s| - 1], end);
    }
  }

  lemma {:induction false} WithinLast(s: seq<Sample>, n: nat, end: int)
    requires Ascending(s, At)
    ensures Within(Last(s, n), end) == Last(Within(s, end), n)
  {
    if s != [] && n > 0 {
      var front, last := s[..|s| - 1], s[|s| - 1];
      assert s == front + [last];
      if end - last.at <= SAMPLE_WINDOW {
        WithinLast(front, n - 1, end);
        LastSnoc(front, last, n);
        WithinSnoc(Last(front, n - 1), last, end);
        LastSnoc(Within(front, end), last, n);
      } else {
        assert forall i | 0 <= i < |s| :: At(s[i]) <= At(last);
        NothingWithin(s, end);
        NothingWithin(Last(s, n), end);
      }
    }
  }

  /** A new sample inside the window joins the tail; an older one leaves it as it is. */
  lemma {:induction false} WithinInsert(s: seq<Sample>, x: Sample, end: int)
    requires Ascending(s, At)
    ensures Within(Insert(s, x, At), end)
            == if end - x.at <= SAMPLE_WINDOW then Insert(Within(s, end), x, At) else Within(s, end)
  {
    if s != [] && s[|s| - 1].at > x.at {
      var front, last := s[..|s| - 1], s[|s| - 1];
      WithinInsert(front, x, end);
      var placed := Insert(front, x, At);
      assert Insert(s, x, At) == placed + [last] && (placed + [last])[..|placed|] == placed;
      if end - x.at <= SAMPLE_WINDOW {
        assert Within(s, end)[..|Within(s, end)| - 1] == Within(front, end);
      }
    } else {
      assert (s + [x])[..|s|] == s;
      var k := WithinIsTail(s, end);
      if k < |s| {
        assert s[k..][|s[k..]| - 1] == s[|s| - 1];
      }
    }
  }

  /** Only the newest `n` of the old samples can be among the newest `n` of the new. */
  lemma {:induction false} LastInsert(s: seq<Sample>, x: Sample, n: nat)
    ensures Last(Insert(s, x, At), n) == Last(Insert(Last(s, n), x, At), n)
  {
    if s != [] && n > 0 {
      var front, y := s[..|s| - 1], s[|s| - 1];
      assert s == front + [y];
      LastSnoc(front, y, n);
      var kept := Last(front, n - 1);
      assert (kept + [y])[..|kept|] == kept;
      if y.at <= x.at {
        LastSnoc(s, x, n);
        LastSnoc(kept + [y], x, n);
      } else {
        LastInsert(front, x, n - 1);
        assert Insert(s, x, At) == Insert(front, x, At) + [y];
        assert Insert(kept + [y], x, At) == Insert(kept, x, At) + [y];
        LastSnoc(Insert(front, x, At), y, n);
        LastSnoc(Insert(kept, x, At), y, n);
      }
    }
  }

  lemma {:induction false} EndSnoc(s: seq<Sample>, first: int, x: Sample)
    ensures WindowEnd(s + [x], first) == Max(x.at, WindowEnd(s, first))
  {
    assert (s + [x])[..|s|] == s;
    EndMax(s, first, x.at);
  }

  lemma {:induction false} EndMax(s: seq<Sample>, a: int, b: int)
    ensures WindowEnd(s, Max(a, b)) == Max(b, WindowEnd(s, a))
  {
    if s != [] {
      EndMax(s[..|s| - 1], Max(a, s[|s| - 1].at), b);
      assert Max(Max(a, b), s[|s| - 1].at) == Max(Max(a, s[|s| - 1].at), b);
    }
  }

  /** The newest time in a list, at least `first`, is its last time once sorted. */
  lemma {:induction false} SortedEnd(s: seq<Sample>, floor: int)
    requires Ascending(s, At) && s != [] && floor <= s[|s| - 1].at
    ensures WindowEnd(s, floor) == s[|s| - 1].at
  {
    EndBelow(s[..|s| - 1], s[|s| - 1].at);
  }

  lemma {:induction false} EndBelow(s: seq<Sample>, end: int)
    requires Below(s, end, At)
    ensures WindowEnd(s, end) == end
  {
    if s != [] {
      EndBelow(s[..|s| - 1], end);
    }
  }

  /** Sorting does not move the newest time to anywhere but the end. */
  lemma {:induction false} NewestIsLast(history: seq<Sample>)
    requires history != []
    ensures SortBy(history, At)[|history| - 1].at == NewestTime(history)
  {
    if |history| > 1 {
      var before, x := history[..|history| - 1], history[|history| - 1];
      NewestIsLast(before);
      assert history[1..] == before[1..] + [x];
      EndSnoc(before[1..], before[0].at, x);
    } else {
      assert history[..0] == [];
    }
  }

  /** A list and any tail of it end at the same time. */
  lemma TailEnd(s: seq<Sample>, view: seq<Sample>, x: int)
    requires Ascending(s, At) && 0 < |view| <= |s| && view == s[|s| - |view|..]
    ensures WindowEnd(view, x) == Max(x, s[|s| - 1].at)
  {
    var last := s[|s| - 1].at;
    assert Below(view, last, At);
    if x <= last {
      SortedEnd(view, x);
    } else {
      EndBelow(view, x);
    }
  }

  /** The newest sample ever recorded is still in the cache. */
  lemma CacheKeepsNewest(history: seq<Sample>, x: Sample)
    requires history != []
    ensures WindowEnd(FullView(history), x.at) == Max(x.at, NewestTime(history))
  {
    var sorted, end := SortBy(history, At), NewestTime(history);
    SortAscends(history, At);
    NewestIsLast(history);
    var k := WithinIsTail(sorted, end);
    assert k < |sorted|;
    TailEnd(sorted, Newest(sorted[k..]), x.at);
  }

  /** After any sequence of samples, in any time order, the cache is exactly what an
      unbounded one would show: the newest five, by time and then by order of
      arrival, among those within 30 s of the newest ever recorded. */
  lemma {:induction false} CacheEqualsFullView(history: seq<Sample>)
    ensures Cached(history) == FullView(history)
  {
    if |history| == 1 {
      assert history[..0] == [] && history[1..] == [];
      assert SortBy(history, At) == history;
    } else if history != [] {
      var before, x := history[..|history| - 1], history[|history| - 1];
      CacheEqualsFullView(before);
      RecordRefines(before, x);
      assert history[1..] == before[1..] + [x];
      EndSnoc(before[1..], before[0].at, x);
    }
  }

  /** What the window keeps of the old cache is what it keeps of the old history. */
  lemma OldPart(sorted: seq<Sample>, end: int, later: int)
    requires Ascending(sorted, At) && end <= later
    ensures Within(Newest(Within(sorted, end)), later) == Newest(Within(sorted, later))
    ensures Ascending(Newest(Within(sorted, later)), At)
  {
    var k := WithinIsTail(sorted, end);
    WithinLast(Within(sorted, end), MAX_SAMPLES, later);
    WithinTwice(sorted, end, later);
    var m := WithinIsTail(sorted, later);
  }

  lemma RecordRefines(before: seq<Sample>, x: Sample)
    requires before != []
    ensures RecordSample(FullView(before), x)
            == Newest(Within(Insert(SortBy(before, At), x, At), Max(x.at, NewestTime(before))))
  {
    var newest := NewestTime(before);
    SortAscends(before, At);
    CacheKeepsNewest(before, x);
    OldPart(SortBy(before, At), newest, Max(x.at, newest));
    JoinRefines(SortBy(before, At), x, Max(x.at, newest));
  }

  lemma JoinRefines(sorted: seq<Sample>, x: Sample, end: int)
    requires Ascending(sorted, At) && Ascending(Newest(Within(sorted, end)), At)
    ensures Join(Newest(Within(sorted, end)), x, end)
            == Newest(Within(Insert(sorted, x, At), end))
  {
    var kept := Newest(Within(sorted, end));
    SortedIsFixed(kept, At);
    WithinInsert(sorted, x, end);
    if end - x.at <= SAMPLE_WINDOW {
      assert (kept + [x])[..|kept|] == kept;
      LastInsert(Within(sorted, end), x, MAX_SAMPLES);
    }
  }

  // ------------------------------------------------------------- reading feedback

  function Same(x: int): int {
    x
  }

  predicate IsFresh(x: Sample, now: int) {
    0 <= now - x.at <= SAMPLE_WINDOW
  }

  /** The RTTs of the samples fresh at `now`, in order. */
  function FreshRtts(s: seq<Sample>, now: int): seq<int> {
    if s == [] then []
    else
      var front, last := s[..|s| - 1], s[|s| - 1];
      if IsFresh(last, now) then FreshRtts(front, now) + [last.rtt] else FreshRtts(front, now)
  }

  /** The newest of the samples fresh at `now`. */
  function FreshEnd(s: seq<Sample>, now: int): Time {
    if s == [] then None
    else
      var before, last := FreshEnd(s[..|s| - 1], now), s[|s| - 1];
      if IsFresh(last, now) && (before.None? || last.at > before.value) then Some(last.at) else before
  }

  function Median(sorted: seq<int>): int
    requires sorted != []
  {
    var n := |sorted|;
    if n % 2 == 1 then sorted[n / 2]
    else sorted[n / 2 - 1] + (sorted[n / 2] - sorted[n / 2 - 1]) / 2
  }

  function FeedbackAt(s: seq<Sample>, now: int): Option<Feedback> {
    var rtts := FreshRtts(s, now);
    if rtts == [] then None
    else
      match FreshEnd(s, now)
      case None => None
      case Some(at) => Some(Feedback(Median(SortBy(rtts, Same)), |rtts|, at))
  }

  /** How many values are at most, or at least, `m`. */
  ghost function AtMost(s: seq<int>, m: int): nat {
    if s == [] then 0 else AtMost(s[..|s| - 1], m) + if s[|s| - 1] <= m then 1 else 0
  }

  ghost function AtLeast(s: seq<int>, m: int): nat {
    if s == [] then 0 else AtLeast(s[..|s| - 1], m) + if s[|s| - 1] >= m then 1 else 0
  }

  /** An order statistic of `s`: at least `k + 1` values are not above it and all but
      `k` are not below it. */
  ghost predicate IsRank(s: seq<int>, k: int, m: int) {
    m in s && AtMost(s, m) >= k + 1 && AtLeast(s, m) >= |s| - k
  }

  /** The middle value, or the midpoint of the two middle values rounded down. */
  ghost predicate IsMedian(s: seq<int>, m: int) {
    if |s| % 2 == 1 then IsRank(s, |s| / 2, m)
    else exists low, high :: AreMiddle(s, low, high) && m == low + (high - low) / 2
  }

  ghost predicate AreMiddle(s: seq<int>, low: int, high: int) {
    IsRank(s, |s| / 2 - 1, low) && IsRank(s, |s| / 2, high)
  }

  lemma {:induction false} InsertCounts(s: seq<int>, x: int, m: int)
    ensures AtMost(Insert(s, x, Same), m) == AtMost(s, m) + if x <= m then 1 else 0
    ensures AtLeast(Insert(s, x, Same), m) == AtLeast(s, m) + if x >= m then 1 else 0
  {
    if s != [] && s[|s| - 1] > x {
      var front, placed := s[..|s| - 1], Insert(s[..|s| - 1], x, Same);
      InsertCounts(front, x, m);
      assert (placed + [s[|s| - 1]])[..|placed|] == placed;
    } else {
      assert (s + [x])[..|s|] == s;
    }
  }

  lemma {:induction false} SortCounts(s: seq<int>, m: int)
    ensures AtMost(SortBy(s, Same), m) == AtMost(s, m) && AtLeast(SortBy(s, Same), m) == AtLeast(s, m)
  {
    if s != [] {
      SortCounts(s[..|s| - 1], m);
      InsertCounts(SortBy(s[..|s| - 1], Same), s[|s| - 1], m);
    }
  }

  lemma {:induction false} InsertFrom(s: seq<int>, x: int, i: nat)
    requires i <= |s|
    ensures Insert(s, x, Same)[i] == x || Insert(s, x, Same)[i] in s
  {
    if s != [] && s[|s| - 1] > x && i < |s| {
      InsertFrom(s[..|s| - 1], x, i);
    }
  }

  lemma {:induction false} SortFrom(s: seq<int>, i: nat)
    requires i < |s|
    ensures SortBy(s, Same)[i] in s
  {
    var front := s[..|s| - 1];
    var sorted := SortBy(front, Same);
    InsertFrom(sorted, s[|s| - 1], i);
    var y := SortBy(s, Same)[i];
    if y != s[|s| - 1] {
      var j :| 0 <= j < |sorted| && sorted[j] == y;
      SortFrom(front, j);
    }
  }

  lemma {:induction false} LowerCount(s: seq<int>, k: nat, m: int)
    requires k < |s| && forall i | 0 <= i <= k :: s[i] <= m
    ensures AtMost(s, m) >= k + 1
  {
    if k < |s| - 1 {
      LowerCount(s[..|s| - 1], k, m);
    } else if k > 0 {
      LowerCount(s[..|s| - 1], k - 1, m);
    }
  }

  lemma {:induction false} UpperCount(s: seq<int>, k: nat, m: int)
    requires k <= |s| && forall i | k <= i < |s| :: s[i] >= m
    ensures AtLeast(s, m) >= |s| - k
  {
    if k < |s| {
      UpperCount(s[..|s| - 1], k, m);
    }
  }

  /** Position `k` of the sorted list holds the order statistic of rank `k`. */
  lemma SortedRank(s: seq<int>, k: nat)
    requires k < |s|
    ensures IsRank(s, k, SortBy(s, Same)[k])
  {
    SortAscends(s, Same);
    RankCounts(SortBy(s, Same), k);
    SortCounts(s, SortBy(s, Same)[k]);
    SortFrom(s, k);
  }

  lemma RankCounts(sorted: seq<int>, k: nat)
    requires k < |sorted| && Ascending(sorted, Same)
    ensures AtMost(sorted, sorted[k]) >= k + 1 && AtLeast(sorted, sorted[k]) >= |sorted| - k
  {
    assert forall i, j | 0 <= i < j < |sorted| :: Same(sorted[i]) <= Same(sorted[j]);
    LowerCount(sorted, k, sorted[k]);
    UpperCount(sorted, k, sorted[k]);
  }

  lemma MedianIsMedian(s: seq<int>)
    requires s != []
    ensures IsMedian(s, Median(SortBy(s, Same)))
  {
    var sorted, n := SortBy(s, Same), |s| / 2;
    SortedRank(s, n);
    if |s| % 2 == 0 {
      SortedRank(s, n - 1);
      assert AreMiddle(s, sorted[n - 1], sorted[n]);
    }
  }

  /** `at` is the time of the newest sample that is fresh at `now`. */
  ghost predicate IsNewestFresh(s: seq<Sample>, now: int, at: int) {
    && (exists i | 0 <= i < |s| :: IsFresh(s[i], now) && s[i].at == at)
    && (forall i | 0 <= i < |s| && IsFresh(s[i], now) :: s[i].at <= at)
  }

  lemma {:induction false} FreshEndExists(s: seq<Sample>, now: int)
    ensures FreshRtts(s, now) == [] <==> FreshEnd(s, now).None?
    ensures FreshEnd(s, now).None? <==> forall i | 0 <= i < |s| :: !IsFresh(s[i], now)
    ensures FreshEnd(s, now).Some? ==> IsNewestFresh(s, now, FreshEnd(s, now).value)
  {
    if s != [] {
      var front, last := s[..|s| - 1], s[|s| - 1];
      FreshEndExists(front, now);
      assert forall i | 0 <= i < |front| :: s[i] == front[i];
      if FreshEnd(front, now).Some? {
        var i :| 0 <= i < |front| && IsFresh(front[i], now) && front[i].at == FreshEnd(front, now).value;
        assert IsFresh(s[i], now) && s[i].at == FreshEnd(front, now).value;
      }
      if IsFresh(last, now) {
        assert IsFresh(s[|s| - 1], now);
      }
    }
  }

  /** Feedback at any time, after any history: none exactly when no stored sample is
      fresh, else the true median of the fresh ones among the newest five, dated by the
      newest of them. */
  lemma FeedbackIsMedianOfNewest(history: seq<Sample>, now: int)
    ensures var rtts, answer := FreshRtts(FullView(history), now), FeedbackAt(Cached(history), now);
            && (answer.None? <==> rtts == [])
            && (answer.Some? ==> IsMedian(rtts, answer.value.rtt) && answer.value.samples == |rtts|
                                 && IsNewestFresh(FullView(history), now, answer.value.observedAt))
  {
    CacheEqualsFullView(history);
    var rtts := FreshRtts(FullView(history), now);
    FreshEndExists(FullView(history), now);
    if rtts != [] {
      MedianIsMedian(rtts);
    }
  }

  // ------------------------------------------------------------- the cache object

  /** The samples of one binding and direction. */
  class SampleCache {
    var samples: seq<Sample>

    constructor ()
      ensures samples == Cached([])
    {
      samples := [];
    }

    /** recordSampleLocked. */
    method Record(x: Sample)
      modifies this
      ensures samples == RecordSample(old(samples), x)
    {
      var end := x.at;
      for i := 0 to |samples|
        invariant samples == old(samples) && end == WindowEnd(samples[..i], x.at)
      {
        EndSnoc(samples[..i], x.at, samples[i]);
        assert samples[..i + 1] == samples[..i] + [samples[i]];
        end := Max(end, samples[i].at);
      }
      assert samples[..|samples|] == samples;
      EndIsNewest(samples, x.at);
      var recent := Keep(samples, end);
      if end - x.at <= SAMPLE_WINDOW {
        recent := recent + [x];
      }
      var a := Sorted(recent, At);
      samples := if |a| > MAX_SAMPLES then a[|a| - MAX_SAMPLES..] else a;
    }

    /** pathFeedbackAt, once the binding has matched. */
    method ReadFeedback(now: int) returns (answer: Option<Feedback>)
      ensures answer == FeedbackAt(samples, now)
    {
      var rtts, newest := ReadFresh(samples, now);
      FreshEndExists(samples, now);
      if rtts == [] {
        return None;
      }
      var a := Sorted(rtts, Same);
      var median := a[|a| / 2];
      if |a| % 2 == 0 {
        var low := a[|a| / 2 - 1];
        median := low + (a[|a| / 2] - low) / 2;
      }
      return Some(Feedback(median, |rtts|, newest.value));
    }
  }

  method Keep(samples: seq<Sample>, end: int) returns (recent: seq<Sample>)
    requires forall x <- samples :: x.at <= end
    ensures recent == Within(samples, end)
  {
    recent := [];
    for i := 0 to |samples|
      invariant recent == Within(samples[..i], end)
    {
      WithinSnoc(samples[..i], samples[i], end);
      assert samples[..i + 1] == samples[..i] + [samples[i]];
      var age := end - samples[i].at;
      if age >= 0 && age <= SAMPLE_WINDOW {
        recent := recent + [samples[i]];
      }
    }
    assert samples[..|samples|] == samples;
  }

  method ReadFresh(samples: seq<Sample>, now: int) returns (rtts: seq<int>, newest: Time)
    ensures rtts == FreshRtts(samples, now) && newest == FreshEnd(samples, now)
  {
    rtts, newest := [], None;
    for i := 0 to |samples|
      invariant rtts == FreshRtts(samples[..i], now) && newest == FreshEnd(samples[..i], now)
    {
      assert samples[..i + 1][..i] == samples[..i];
      var age := now - samples[i].at;
      if !(age < 0 || age > SAMPLE_WINDOW) {
        rtts := rtts + [samples[i].rtt];
        if newest.None? || samples[i].at > newest.value {
          newest := Some(samples[i].at);
        }
      }
    }
    assert samples[..|samples|] == samples;
  }
}

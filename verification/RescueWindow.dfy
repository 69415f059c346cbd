/** The sliding 60 s byte window of the rescue budget (core/stream_bounded_rescue.go):
    two event queues with cached byte counters, pruned as time passes, against the
    complete event history. */
module RescueWindow {
  import opened Prelude
  import opened Sorting

  const WINDOW := 60_000_000_000
  const MAX_UINT64 := 0xFFFF_FFFF_FFFF_FFFF

  datatype Event = Event(at: int, bytes: nat)

  /** `originals` is a queue in arrival order. `accepted` is a heap by time, given here
      as the list its pops would produce. The counters are the cached byte totals. */
  datatype Window = Window(originals: seq<Event>, accepted: seq<Event>, original: int, carried: int)

  const EMPTY_WINDOW := Window([], [], 0, 0)

  function At(e: Event): int {
    e.at
  }

  function SaturatingAdd(a: int, b: int): int {
    if MAX_UINT64 - a < b then MAX_UINT64 else a + b
  }

  function SaturatingSub(a: int, b: int): int {
    if a >= b then a - b else 0
  }

  /** Division before multiplication, so that no intermediate value overflows. */
  function Ratio(bytes: int, basisPoints: nat): int {
    (bytes / 10000) * basisPoints + ((bytes % 10000) * basisPoints) / 10000
  }

  lemma RatioIsFloor(bytes: nat, basisPoints: nat)
    ensures Ratio(bytes, basisPoints) == bytes * basisPoints / 10000
  {
    var q, r := bytes / 10000, bytes % 10000;
    assert bytes * basisPoints == (q * 10000 + r) * basisPoints == q * basisPoints * 10000 + r * basisPoints;
    FloorSplit(q * basisPoints, r * basisPoints);
  }

  lemma FloorSplit(a: nat, b: nat)
    ensures (a * 10000 + b) / 10000 == a + b / 10000
  {
  }

  lemma RatioMonotone(a: nat, b: nat, basisPoints: nat)
    requires a <= b
    ensures 0 <= Ratio(a, basisPoints) <= Ratio(b, basisPoints)
  {
    RatioIsFloor(a, basisPoints);
    RatioIsFloor(b, basisPoints);
    assert a * basisPoints <= b * basisPoints by {
      assert (b - a) * basisPoints >= 0;
    }
  }

  // ------------------------------------------------------------- sums over events

  function Sum(s: seq<Event>): nat {
    if s == [] then 0 else Sum(s[..|s| - 1]) + s[|s| - 1].bytes
  }

  function SumAfter(s: seq<Event>, cutoff: int): nat {
    if s == [] then 0
    else SumAfter(s[..|s| - 1], cutoff) + if s[|s| - 1].at > cutoff then s[|s| - 1].bytes else 0
  }

  lemma {:induction false} SumFront(s: seq<Event>, cutoff: int)
    requires s != []
    ensures Sum(s) == s[0].bytes + Sum(s[1..])
    ensures SumAfter(s, cutoff) == SumAfter(s[1..], cutoff) + if s[0].at > cutoff then s[0].bytes else 0
  {
    if |s| > 1 {
      var front := s[..|s| - 1];
      SumFront(front, cutoff);
      assert s[1..][..|s| - 2] == front[1..];
    }
  }

  lemma SumSnoc(s: seq<Event>, e: Event, cutoff: int)
    ensures Sum(s + [e]) == Sum(s) + e.bytes
    ensures SumAfter(s + [e], cutoff) == SumAfter(s, cutoff) + if e.at > cutoff then e.bytes else 0
  {
    assert (s + [e])[..|s|] == s;
  }

  lemma {:induction false} SumInsert(s: seq<Event>, e: Event, cutoff: int)
    ensures Sum(Insert(s, e, At)) == Sum(s) + e.bytes
    ensures SumAfter(Insert(s, e, At), cutoff) == SumAfter(s, cutoff) + if e.at > cutoff then e.bytes else 0
  {
    if s == [] || s[|s| - 1].at <= e.at {
      SumSnoc(s, e, cutoff);
    } else {
      var front, last := s[..|s| - 1], s[|s| - 1];
      SumInsert(front, e, cutoff);
      SumSnoc(Insert(front, e, At), last, cutoff);
    }
  }

  // ---------------------------------------------------------------------- pruning

  function PrunedEvents(s: seq<Event>, cutoff: int): seq<Event> {
    if s != [] && s[0].at <= cutoff then PrunedEvents(s[1..], cutoff) else s
  }

  function PrunedBytes(s: seq<Event>, bytes: int, cutoff: int): int {
    if s != [] && s[0].at <= cutoff then PrunedBytes(s[1..], SaturatingSub(bytes, s[0].bytes), cutoff) else bytes
  }

  function Prune(w: Window, now: int): Window {
    var cutoff := now - WINDOW;
    Window(PrunedEvents(w.originals, cutoff), PrunedEvents(w.accepted, cutoff),
           PrunedBytes(w.originals, w.original, cutoff), PrunedBytes(w.accepted, w.carried, cutoff))
  }

  function AddOriginal(w: Window, e: Event): Window {
    w.(originals := w.originals + [e], original := w.original + e.bytes)
  }

  function AddAccepted(w: Window, e: Event): Window {
    w.(accepted := Insert(w.accepted, e, At), carried := w.carried + e.bytes)
  }

  /** The counters are the queues' totals, and the heap is in time order. */
  ghost predicate Exact(w: Window) {
    w.original == Sum(w.originals) && w.carried == Sum(w.accepted) && Ascending(w.accepted, At)
  }

  /** Pruning keeps a counter exact, whatever the order of its queue, and only lowers it: the
      saturating subtractions never saturate. */
  lemma {:induction false} PruneCounts(s: seq<Event>, bytes: int, cutoff: int)
    requires bytes == Sum(s)
    ensures PrunedBytes(s, bytes, cutoff) == Sum(PrunedEvents(s, cutoff)) <= bytes
    decreases |s|
  {
    if s != [] && s[0].at <= cutoff {
      SumFront(s, cutoff);
      PruneCounts(s[1..], bytes - s[0].bytes, cutoff);
    }
  }

  /** No bytes at or before the cutoff stand behind an event after it. */
  predicate Unhidden(s: seq<Event>, cutoff: int) {
    forall i, j | 0 <= i < j < |s| && s[i].at > cutoff && s[j].at <= cutoff :: s[j].bytes == 0
  }

  lemma AscendingUnhidden(s: seq<Event>, cutoff: int)
    requires Ascending(s, At)
    ensures Unhidden(s, cutoff)
  {
    forall i, j | 0 <= i < j < |s|
      ensures s[i].at <= s[j].at
    {
      assert At(s[i]) <= At(s[j]);
    }
  }

  /** Pruning stops at the first event after the cutoff, so it leaves every byte after the cutoff, and
      none but those exactly when no older bytes stand behind a newer event. */
  lemma {:induction false} PruneExactIff(s: seq<Event>, cutoff: int)
    ensures Sum(PrunedEvents(s, cutoff)) >= SumAfter(s, cutoff)
    ensures Sum(PrunedEvents(s, cutoff)) == SumAfter(s, cutoff) <==> Unhidden(s, cutoff)
    decreases |s|
  {
    if s != [] && s[0].at <= cutoff {
      SumFront(s, cutoff);
      PruneExactIff(s[1..], cutoff);
      UnhiddenTail(s, cutoff);
    } else {
      SumSplits(s, cutoff);
      if s != [] {
        assert Unhidden(s, cutoff) <==> NoneBefore(s, cutoff);
      }
    }
  }

  predicate NoneBefore(s: seq<Event>, cutoff: int) {
    forall j | 0 <= j < |s| && s[j].at <= cutoff :: s[j].bytes == 0
  }

  lemma UnhiddenTail(s: seq<Event>, cutoff: int)
    requires s != [] && s[0].at <= cutoff
    ensures Unhidden(s, cutoff) <==> Unhidden(s[1..], cutoff)
  {
    if Unhidden(s[1..], cutoff) {
      forall i, j | 0 <= i < j < |s| && s[i].at > cutoff && s[j].at <= cutoff
        ensures s[j].bytes == 0
      {
        assert s[1..][i - 1] == s[i] && s[1..][j - 1] == s[j];
      }
    }
    if Unhidden(s, cutoff) {
      forall i, j | 0 <= i < j < |s[1..]| && s[1..][i].at > cutoff && s[1..][j].at <= cutoff
        ensures s[1..][j].bytes == 0
      {
        assert s[1..][i] == s[i + 1] && s[1..][j] == s[j + 1];
      }
    }
  }

  lemma {:induction false} SumSplits(s: seq<Event>, cutoff: int)
    ensures Sum(s) >= SumAfter(s, cutoff)
    ensures Sum(s) == SumAfter(s, cutoff) <==> NoneBefore(s, cutoff)
  {
    if s != [] {
      var front := s[..|s| - 1];
      SumSplits(front, cutoff);
      assert NoneBefore(s, cutoff) <==> NoneBefore(front, cutoff) && (s[|s| - 1].at > cutoff || s[|s| - 1].bytes == 0);
    }
  }

  /** What pruning drops is invisible from any later cutoff. */
  lemma {:induction false} PruneKeepsAfter(s: seq<Event>, cutoff: int, later: int)
    requires cutoff <= later
    ensures SumAfter(PrunedEvents(s, cutoff), later) == SumAfter(s, later)
    decreases |s|
  {
    if s != [] && s[0].at <= cutoff {
      SumFront(s, later);
      PruneKeepsAfter(s[1..], cutoff, later);
    }
  }

  // ------------------------------------------------------- against the full history

  /** From every cutoff not before `edge` the queue shows what the whole history shows. */
  ghost predicate Mirrors(history: seq<Event>, queue: seq<Event>, edge: int) {
    forall c | c >= edge :: SumAfter(queue, c) == SumAfter(history, c)
  }

  lemma MirrorsPruned(history: seq<Event>, queue: seq<Event>, edge: int, cutoff: int)
    requires Mirrors(history, queue, edge)
    ensures Mirrors(history, PrunedEvents(queue, cutoff), Max(edge, cutoff))
  {
    forall c | c >= Max(edge, cutoff)
      ensures SumAfter(PrunedEvents(queue, cutoff), c) == SumAfter(history, c)
    {
      PruneKeepsAfter(queue, cutoff, c);
    }
  }

  lemma MirrorsInsert(history: seq<Event>, queue: seq<Event>, edge: int, e: Event)
    requires Mirrors(history, queue, edge)
    ensures Mirrors(history + [e], Insert(queue, e, At), edge)
  {
    forall c | c >= edge
      ensures SumAfter(Insert(queue, e, At), c) == SumAfter(history + [e], c)
    {
      SumInsert(queue, e, c);
      SumSnoc(history, e, c);
    }
  }

  /** The queue is the history without some first events, none of them after `edge`. */
  ghost predicate Trails(history: seq<Event>, queue: seq<Event>, edge: int) {
    && |queue| <= |history|
    && queue == history[|history| - |queue|..]
    && forall i | 0 <= i < |history| - |queue| :: history[i].at <= edge
  }

  lemma {:induction false} TrailsPruned(history: seq<Event>, queue: seq<Event>, edge: int, cutoff: int)
    requires Trails(history, queue, edge)
    ensures Trails(history, PrunedEvents(queue, cutoff), Max(edge, cutoff))
    decreases |queue|
  {
    if queue != [] && queue[0].at <= cutoff {
      assert Trails(history, queue[1..], Max(edge, cutoff));
      TrailsPruned(history, queue[1..], Max(edge, cutoff), cutoff);
    }
  }

  /** Pruning at the present leaves what pruning the whole history would leave. */
  lemma {:induction false} TrailsToHistory(history: seq<Event>, queue: seq<Event>, edge: int, cutoff: int)
    requires Trails(history, queue, edge) && edge <= cutoff
    ensures PrunedEvents(queue, cutoff) == PrunedEvents(history, cutoff)
    decreases |history|
  {
    if |queue| < |history| {
      TrailsToHistory(history[1..], queue, edge, cutoff);
    }
  }

  // -------------------------------------------------------------- the window object

  class EventWindow {
    var originals: seq<Event>
    var accepted: seq<Event>
    var original: int
    var carried: int

    ghost function View(): Window
      reads this
    {
      Window(originals, accepted, original, carried)
    }

    constructor ()
      ensures View() == EMPTY_WINDOW
    {
      originals, accepted, original, carried := [], [], 0, 0;
    }

    method PushOriginal(e: Event)
      modifies this
      ensures View() == AddOriginal(old(View()), e)
    {
      originals := originals + [e];
      original := original + e.bytes;
    }

    method PushAccepted(e: Event)
      modifies this
      ensures View() == AddAccepted(old(View()), e)
    {
      accepted := Insert(accepted, e, At);
      carried := carried + e.bytes;
    }

    /** pruneLocked. */
    method PruneBefore(now: int)
      modifies this
      ensures View() == Prune(old(View()), now)
    {
      var cutoff := now - WINDOW;
      while originals != [] && originals[0].at <= cutoff
        invariant accepted == old(accepted) && carried == old(carried)
        invariant PrunedEvents(originals, cutoff) == PrunedEvents(old(originals), cutoff)
        invariant PrunedBytes(originals, original, cutoff) == PrunedBytes(old(originals), old(original), cutoff)
        decreases |originals|
      {
        original := if original >= originals[0].bytes then original - originals[0].bytes else 0;
        originals := originals[1..];
      }
      ghost var pruned := originals;
      ghost var left := original;
      while accepted != [] && accepted[0].at <= cutoff
        invariant originals == pruned && original == left
        invariant PrunedEvents(accepted, cutoff) == PrunedEvents(old(accepted), cutoff)
        invariant PrunedBytes(accepted, carried, cutoff) == PrunedBytes(old(accepted), old(carried), cutoff)
        decreases |accepted|
      {
        carried := if carried >= accepted[0].bytes then carried - accepted[0].bytes else 0;
        accepted := accepted[1..];
      }
    }

    /** The observer's scan: saturating sums over both queues, changing nothing. */
    method Scan(at: int) returns (o: int, a: int)
      ensures o == Min(MAX_UINT64, SumAfter(originals, at - WINDOW))
      ensures a == Min(MAX_UINT64, SumAfter(accepted, at - WINDOW))
    {
      o := ScanQueue(originals, at - WINDOW);
      a := ScanQueue(accepted, at - WINDOW);
    }
  }

  method ScanQueue(s: seq<Event>, cutoff: int) returns (total: int)
    ensures total == Min(MAX_UINT64, SumAfter(s, cutoff))
  {
    total := 0;
    for i := 0 to |s|
      invariant total == Min(MAX_UINT64, SumAfter(s[..i], cutoff))
    {
      assert s[..i + 1][..i] == s[..i];
      if s[i].at > cutoff {
        total := SaturatingAdd(total, s[i].bytes);
      }
    }
    assert s[..|s|] == s;
  }
}

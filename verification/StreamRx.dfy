/** The receive reorder window (core/stream_rx.go) and rxLoop's delivery loop around it. */
module StreamRx {
  import opened Prelude

  datatype RxFrame = RxFrame(sequence: nat, leg: nat, payload: Bytes)

  datatype Disposition = Ready | Buffered | Duplicate | BufferedDuplicate

  /** `ReorderLimit` is ErrStreamRXReorderLimit, which ends the logical session. */
  datatype InsertOutcome = Accepted(disposition: Disposition) | ReorderLimit

  /** The fields of StreamRXWindow as a value. */
  datatype Window = Window(
    expected: nat,
    pending: map<nat, RxFrame>,
    pendingBytes: int,
    gapExpected: nat,
    gapSince: Time,
    readyPending: bool)

  const EMPTY_WINDOW := Window(0, map[], 0, 0, None, false)

  function PayloadBytes(frame: RxFrame): nat {
    |frame.payload|
  }

  // ---------------------------------------------------------------- transitions

  function RefreshGap(w: Window, now: int): Window {
    if |w.pending| == 0 then w.(gapExpected := w.expected, gapSince := None)
    else if w.gapExpected != w.expected || w.gapSince == None then w.(gapExpected := w.expected, gapSince := Some(now))
    else w
  }

  function InsertFrame(w: Window, maxReorder: nat, frame: RxFrame, now: int): (Window, InsertOutcome) {
    if frame.sequence < w.expected then (w, Accepted(Duplicate))
    else if frame.sequence == w.expected then (w.(readyPending := true), Accepted(Ready))
    else if frame.sequence in w.pending then (w, Accepted(BufferedDuplicate))
    else if |w.pending| >= maxReorder then (w, ReorderLimit)
    else
      var kept := w.(pending := w.pending[frame.sequence := frame], pendingBytes := w.pendingBytes + |frame.payload|);
      (RefreshGap(kept, now), Accepted(Buffered))
  }

  function Commit(w: Window, now: int): Window {
    if !w.readyPending then w
    else
      var next := w.(readyPending := false, expected := w.expected + 1);
      if next.expected in next.pending then next else RefreshGap(next, now)
  }

  function Pop(w: Window): (Window, Option<RxFrame>) {
    if w.readyPending || w.expected !in w.pending then (w, None)
    else
      var frame := w.pending[w.expected];
      (w.(pending := w.pending - {w.expected}, pendingBytes := w.pendingBytes - |frame.payload|, readyPending := true),
       Some(frame))
  }

  // ------------------------------------------------------------------ invariant

  /** Every retained frame is filed under its own ordinal, none is behind the
      frontier, the byte counter is their total, and a frame handed out for
      delivery is no longer retained. */
  ghost predicate Consistent(w: Window) {
    && (forall k <- w.pending :: w.pending[k].sequence == k && w.expected <= k)
    && (w.readyPending ==> w.expected !in w.pending)
    && w.pendingBytes == MapSum(w.pending, PayloadBytes)
  }

  /** The states in which rxLoop accepts a frame: PopContiguous has just said no.
      The gap clock then runs exactly while something is held back, for the
      ordinal that is missing now. */
  ghost predicate Quiet(w: Window) {
    && !w.readyPending
    && w.expected !in w.pending
    && (w.gapSince == None <==> w.pending == map[])
    && (w.pending != map[] ==> w.gapExpected == w.expected)
  }

  lemma InsertKeeps(w: Window, maxReorder: nat, frame: RxFrame, now: int)
    requires Consistent(w) && Quiet(w)
    ensures var (w', o) := InsertFrame(w, maxReorder, frame, now);
            && Consistent(w') && (o != Accepted(Ready) ==> Quiet(w'))
            && (|w.pending| <= maxReorder ==> |w'.pending| <= maxReorder)
            && (o == ReorderLimit <==> w.expected < frame.sequence && frame.sequence !in w.pending
                                       && |w.pending| >= maxReorder)
  {
    MapSumUpdate(w.pending, PayloadBytes, frame.sequence, frame);
    if frame.sequence !in w.pending {
      MapSumAbsent(w.pending, PayloadBytes, frame.sequence);
    }
    assert frame.sequence in w.pending[frame.sequence := frame];
  }

  lemma CommitKeeps(w: Window, now: int)
    requires Consistent(w) && w.readyPending
    ensures var w' := Commit(w, now);
            Consistent(w') && (w'.expected in w'.pending || Quiet(w'))
  {
  }

  lemma PopKeeps(w: Window)
    requires Consistent(w)
    ensures Consistent(Pop(w).0)
  {
    if w.expected in w.pending {
      MapSumRemove(w.pending, PayloadBytes, w.expected);
    }
  }

  /** Why rxLoop never inserts between a commit and the pop that says no: taking
      the expected ordinal a second time strands its retained copy behind the
      frontier, where Pop can no longer reach it. */
  lemma InsertOutsideTheLoopStrands(w: Window, maxReorder: nat, frame: RxFrame, now: int)
    requires Consistent(w) && !w.readyPending && frame.sequence == w.expected
    ensures var w' := Commit(InsertFrame(w, maxReorder, frame, now).0, now);
            (exists k :: k in w'.pending && k < w'.expected) <==> w.expected in w.pending
  {
    var w' := Commit(InsertFrame(w, maxReorder, frame, now).0, now);
    if w.expected in w.pending {
      assert w.expected in w'.pending;
    }
  }

  // -------------------------------------------------------------- one delivery

  /** The retained frames that follow one another from ordinal `k` on. */
  function Run(pending: map<nat, RxFrame>, k: nat): seq<RxFrame>
    decreases |pending|
  {
    if k in pending then [pending[k]] + Run(pending - {k}, k + 1) else []
  }

  /** What stays in the window once that run is handed out. */
  function Rest(pending: map<nat, RxFrame>, k: nat): map<nat, RxFrame>
    decreases |pending|
  {
    if k in pending then Rest(pending - {k}, k + 1) else pending
  }

  /** What a delivery that starts with `first` hands out, and what it leaves. */
  ghost predicate Delivers(pending: map<nat, RxFrame>, expected: nat, first: RxFrame, delivered: seq<RxFrame>,
                           left: map<nat, RxFrame>) {
    delivered == [first] + Run(pending, expected + 1) && left == Rest(pending, expected + 1)
  }

  ghost predicate Retains(pending: map<nat, RxFrame>, j: nat, frame: RxFrame) {
    j in pending && pending[j] == frame
  }

  lemma {:induction false} RunAt(pending: map<nat, RxFrame>, k: nat, i: nat)
    requires i < |Run(pending, k)|
    ensures Retains(pending, k + i, Run(pending, k)[i])
    decreases |pending|
  {
    if i > 0 {
      RunAt(pending - {k}, k + 1, i - 1);
    }
  }

  lemma {:induction false} RunEnds(pending: map<nat, RxFrame>, k: nat)
    ensures k + |Run(pending, k)| !in pending
    decreases |pending|
  {
    if k in pending {
      RunEnds(pending - {k}, k + 1);
    }
  }

  /** A run is gapless and ends at the first missing ordinal. */
  lemma RunIsMaximal(pending: map<nat, RxFrame>, k: nat)
    ensures var run := Run(pending, k);
            && (forall i | 0 <= i < |run| :: Retains(pending, k + i, run[i]))
            && k + |run| !in pending
  {
    RunEnds(pending, k);
    var run := Run(pending, k);
    forall i | 0 <= i < |run|
      ensures Retains(pending, k + i, run[i])
    {
      RunAt(pending, k, i);
    }
  }

  /** The run and the rest account for every retained frame exactly once. */
  lemma {:induction false} RunAndRestPartition(pending: map<nat, RxFrame>, k: nat)
    requires forall j <- pending :: k <= j
    ensures Rest(pending, k) == map j | j in pending && k + |Run(pending, k)| < j :: pending[j]
    decreases |pending|
  {
    if k in pending {
      RunAndRestPartition(pending - {k}, k + 1);
    }
  }

  // ------------------------------------------------------------ the window class

  class RxWindow {
    const maxReorderFrames: nat
    var expected: nat
    var pending: map<nat, RxFrame>
    var pendingBytes: int
    var gapExpected: nat
    var gapSince: Time
    var readyPending: bool

    function View(): Window
      reads this
    {
      Window(expected, pending, pendingBytes, gapExpected, gapSince, readyPending)
    }

    /** The window is consistent and within its reorder limit. */
    ghost predicate Valid()
      reads this
    {
      Consistent(View()) && |pending| <= maxReorderFrames
    }

    constructor (maxReorder: nat)
      ensures maxReorderFrames == maxReorder && View() == EMPTY_WINDOW
      ensures Valid() && Quiet(View())
    {
      maxReorderFrames := maxReorder;
      expected, pending, pendingBytes, gapExpected, gapSince, readyPending := 0, map[], 0, 0, None, false;
    }

    method Insert(frame: RxFrame, now: int) returns (o: InsertOutcome)
      requires Valid() && Quiet(View())
      modifies this
      ensures (View(), o) == InsertFrame(old(View()), maxReorderFrames, frame, now)
      ensures Valid() && (o != Accepted(Ready) ==> Quiet(View()))
      ensures o == Accepted(Ready) ==> readyPending && pending == old(pending) && expected == old(expected)
    {
      InsertKeeps(View(), maxReorderFrames, frame, now);
      if frame.sequence < expected {
        return Accepted(Duplicate);
      }
      if frame.sequence == expected {
        readyPending := true;
        return Accepted(Ready);
      }
      if frame.sequence in pending {
        return Accepted(BufferedDuplicate);
      }
      if |pending| >= maxReorderFrames {
        return ReorderLimit;
      }
      pending := pending[frame.sequence := frame];
      pendingBytes := pendingBytes + |frame.payload|;
      RefreshGapAt(now);
      return Accepted(Buffered);
    }

    method CommitReady(now: int)
      requires Valid()
      modifies this
      ensures View() == Commit(old(View()), now)
      ensures Valid()
    {
      if !readyPending {
        return;
      }
      CommitKeeps(View(), now);
      readyPending := false;
      expected := expected + 1;
      if expected !in pending {
        RefreshGapAt(now);
      }
    }

    method PopContiguous() returns (frame: Option<RxFrame>)
      requires Valid()
      modifies this
      ensures (View(), frame) == Pop(old(View()))
      ensures Valid()
    {
      PopKeeps(View());
      if readyPending || expected !in pending {
        return None;
      }
      var next := pending[expected];
      pending := pending - {expected};
      pendingBytes := pendingBytes - |next.payload|;
      readyPending := true;
      return Some(next);
    }

    method RefreshGapAt(now: int)
      modifies this
      ensures View() == RefreshGap(old(View()), now)
    {
      if |pending| == 0 {
        gapExpected, gapSince := expected, None;
      } else if gapExpected != expected || gapSince == None {
        gapExpected, gapSince := expected, Some(now);
      }
    }

    /** The tail of one delivery: advance the frontier, then take the next frame if
        the window already holds it. */
    method CommitAndPop(now: int) returns (next: Option<RxFrame>)
      requires Valid() && readyPending
      modifies this
      ensures Valid() && expected == old(expected) + 1
      ensures expected !in old(pending) ==> next == None && pending == old(pending) && Quiet(View())
      ensures expected in old(pending) ==>
                next == Some(old(pending)[expected]) && pending == old(pending) - {expected} && readyPending
    {
      CommitKeeps(View(), now);
      CommitReady(now);
      next := PopContiguous();
    }

    /** rxLoop's inner loop: deliver `first`, then everything contiguous behind it. */
    method DeliverRun(first: RxFrame, now: int) returns (delivered: seq<RxFrame>)
      requires Valid() && readyPending
      modifies this
      ensures Valid() && Quiet(View())
      ensures Delivers(old(pending), old(expected), first, delivered, pending)
      ensures expected == old(expected) + |delivered|
    {
      ghost var run, rest := Run(pending, expected + 1), Rest(pending, expected + 1);
      delivered := [first];
      var next := CommitAndPop(now);
      while next != None
        invariant Valid() && expected == old(expected) + |delivered|
        invariant next == None ==> Quiet(View()) && delivered == [first] + run && pending == rest
        invariant next != None ==> readyPending && Rest(pending, expected + 1) == rest
        invariant next != None ==> delivered + ([next.value] + Run(pending, expected + 1)) == [first] + run
        decreases |pending| + if next == None then 0 else 1
      {
        ghost var tail := Run(pending, expected + 1);
        assert delivered + ([next.value] + tail) == (delivered + [next.value]) + tail;
        delivered := delivered + [next.value];
        next := CommitAndPop(now);
      }
    }

    /** rxLoop's turn for one arriving frame. A frame that fills the gap is
        delivered together with the whole contiguous run behind it; nothing
        deliverable is left in the window. */
    method Receive(frame: RxFrame, now: int) returns (o: InsertOutcome, delivered: seq<RxFrame>)
      requires Valid() && Quiet(View())
      modifies this
      ensures Valid() && Quiet(View())
      ensures o == InsertFrame(old(View()), maxReorderFrames, frame, now).1
      ensures o != Accepted(Ready) ==>
                delivered == [] && View() == InsertFrame(old(View()), maxReorderFrames, frame, now).0
      ensures o == Accepted(Ready) ==>
                && Delivers(old(pending), old(expected), frame, delivered, pending)
                && expected == old(expected) + |delivered|
    {
      o := Insert(frame, now);
      if o != Accepted(Ready) {
        return o, [];
      }
      delivered := DeliverRun(frame, now);
    }
  }
}

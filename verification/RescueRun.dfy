/** Whole runs of the rescue budget, with the complete event history and the log of
    rescue writes kept beside it. */
module RescueRun {
  import opened Prelude
  import opened Sorting
  import opened RescueWindow
  import opened RescueBudget
  import opened RescueInvariant

  datatype Step =
    | Original(sequence: nat, bytes: nat, at: int)
    | Ask(e: Evidence, payload: nat, at: int)
    | Begin(id: nat)
    | Recheck(id: nat, current: Evidence)
    | Finish(id: nat, wire: nat, at: int)
    | GiveBack(id: nat)
    | Ack(next: nat)
    | Shut
    | Observe(at: int)

  /** A rescue write that reached the carrier: which record, for which generation and epoch. */
  datatype Write = Write(sequence: nat, key: Key)

  /** The histories hold every event ever recorded; `clock` is the latest time seen. */
  datatype Run = Run(budget: Budget, originals: seq<Event>, accepted: seq<Event>, clock: int, writes: seq<Write>)

  const START := Run(EMPTY_BUDGET, [], [], 0, [])

  function TimeOf(step: Step, clock: int): int {
    match step
    case Original(_, _, at) => at
    case Ask(_, _, at) => at
    case Finish(_, _, at) => at
    case Observe(at) => at
    case _ => clock
  }

  /** The window never holds 2^64 bytes of originals. Time stamps may come in any order: callers take
      them before they take the budget's lock. */
  predicate Enabled(r: Run, step: Step) {
    step.Original? ==> r.budget.window.original + step.bytes <= MAX_UINT64
  }

  function NextBudget(c: Config, b: Budget, step: Step): Budget {
    match step
    case Original(s, bytes, at) => RecordOriginal(b, s, bytes, at).0
    case Ask(e, payload, at) => Reserve(c, b, e, payload, at).0
    case Begin(id) => BeginWrite(c, b, id).0
    case Recheck(id, current) => Revalidate(b, id, current).0
    case Finish(id, wire, at) => Settle(b, id, wire, at).0
    case GiveBack(id) => Release(b, id).0
    case Ack(next) => AckThrough(b, next)
    case Shut => b.(closed := true)
    case Observe(at) => b.(window := Prune(b.window, at))
  }

  /** The payload bytes a Finish step puts into the window. */
  function Taken(b: Budget, id: nat, wire: nat): nat {
    if id != 0 && id in b.reservations && b.reservations[id].started then Min(wire, b.reservations[id].bytes) else 0
  }

  function Next(c: Config, r: Run, step: Step): Run {
    var b := r.budget;
    Run(NextBudget(c, b, step),
        if step.Original? && RecordOriginal(b, step.sequence, step.bytes, step.at).1
        then r.originals + [Event(step.at, step.bytes)] else r.originals,
        if step.Finish? && Taken(b, step.id, step.wire) > 0
        then r.accepted + [Event(step.at, Taken(b, step.id, step.wire))] else r.accepted,
        Max(r.clock, TimeOf(step, r.clock)),
        if step.Begin? && BeginWrite(c, b, step.id).1
        then r.writes + [Write(b.reservations[step.id].sequence, b.reservations[step.id].key)] else r.writes)
  }

  function Exec(c: Config, steps: seq<Step>): Option<Run> {
    if steps == [] then Some(START)
    else
      match Exec(c, steps[..|steps| - 1])
      case None => None
      case Some(r) => if Enabled(r, steps[|steps| - 1]) then Some(Next(c, r, steps[|steps| - 1])) else None
  }

  // ------------------------------------------------------------- balance along a run

  ghost predicate Books(c: Config, r: Run) {
    Wired(r.budget) && Balanced(c, r.budget)
  }

  lemma BooksKept(c: Config, chunkBytes: nat, r: Run, step: Step)
    requires ValidConfig(c, chunkBytes) && Books(c, r) && Enabled(r, step)
    ensures Books(c, Next(c, r, step))
  {
    assert Wired(NextBudget(c, r.budget, step)) by {
      WiresKept(c, r.budget, step);
    }
    assert Balanced(c, NextBudget(c, r.budget, step)) by {
      BalanceKept(c, chunkBytes, r, step);
    }
  }

  lemma WiresKept(c: Config, b: Budget, step: Step)
    requires Wired(b) && Issued(b.reservations, b.nextReservation)
    ensures Wired(NextBudget(c, b, step))
  {
    match step
    case Original(s, bytes, at) => RecordOriginalWires(b, s, bytes, at);
    case Ask(e, payload, at) => ReserveWires(c, b, e, payload, at);
    case Begin(id) => BeginWriteWires(c, b, id);
    case Recheck(id, current) => RevalidateWires(b, id, current);
    case Finish(id, wire, at) => SettleWires(b, id, wire, at);
    case GiveBack(id) => ReleaseWires(b, id);
    case Ack(next) => AckWires(b, next);
    case _ =>
  }

  lemma BalanceKept(c: Config, chunkBytes: nat, r: Run, step: Step)
    requires ValidConfig(c, chunkBytes) && Balanced(c, r.budget) && Enabled(r, step)
    ensures Balanced(c, NextBudget(c, r.budget, step))
  {
    var b := r.budget;
    match step
    case Original(s, bytes, at) => RecordOriginalBalances(c, b, s, bytes, at);
    case Ask(e, payload, at) => ReserveBalances(c, chunkBytes, b, e, payload, at);
    case Begin(id) => BeginWriteBalances(c, b, id);
    case Recheck(id, current) => RevalidateBalances(c, b, id, current);
    case Finish(id, wire, at) => SettleBalances(c, b, id, wire, at);
    case GiveBack(id) => ReleaseBalances(c, b, id);
    case Observe(at) => PruneBalances(c, b, at);
    case _ =>
  }

  lemma {:induction false} RunBooks(c: Config, chunkBytes: nat, steps: seq<Step>)
    requires ValidConfig(c, chunkBytes) && Exec(c, steps).Some?
    ensures Books(c, Exec(c, steps).value)
  {
    if steps == [] {
      EmptyBudget(c);
    } else {
      RunBooks(c, chunkBytes, steps[..|steps| - 1]);
      BooksKept(c, chunkBytes, Exec(c, steps[..|steps| - 1]).value, steps[|steps| - 1]);
    }
  }

  /** In every run: the burst token is never overdrawn, the reserved counters are what the open
      reservations hold, and every admitted byte is released, accepted or still reserved. */
  lemma RunAccounts(c: Config, chunkBytes: nat, steps: seq<Step>)
    requires ValidConfig(c, chunkBytes) && Exec(c, steps).Some?
    ensures var b := Exec(c, steps).value.budget;
            && 0 <= b.tokens.committed && 0 <= b.tokens.burst && b.tokens.committed + b.tokens.burst <= c.burstBytes
            && b.tokens.base == MapSum(b.reservations, BaseBytes)
            && b.tokens.burst == MapSum(b.reservations, BurstBytes)
            && b.totals.reserved == b.totals.released + b.totals.accepted + MapSum(b.reservations, AllBytes)
  {
    RunBooks(c, chunkBytes, steps);
  }

  /** In every run a record kept below the ACK frontier has a pending reservation, and pending
      entries and open reservations match one to one. */
  lemma RunRecords(c: Config, chunkBytes: nat, steps: seq<Step>)
    requires ValidConfig(c, chunkBytes) && Exec(c, steps).Some?
    ensures var b := Exec(c, steps).value.budget;
            && (forall s <- b.records | s < b.ackedNext :: b.records[s].pending != map[])
            && (forall s: nat, k: Key, id: nat :: Held(b.records, s, k, id) <==> Backed(b.reservations, s, k, id))
  {
    RunBooks(c, chunkBytes, steps);
  }

  /** After any run in full mode, an admission leaves accepted plus reserved bytes within the
      window's quota plus what is left of the burst token. */
  lemma RunAdmission(c: Config, chunkBytes: nat, steps: seq<Step>, e: Evidence, payload: nat, at: int)
    requires ValidConfig(c, chunkBytes) && c.mode == Full && Exec(c, steps).Some?
    ensures var (after, answer) := Reserve(c, Exec(c, steps).value.budget, e, payload, at);
            answer.Reserved? ==>
              after.window.carried + MapSum(after.reservations, AllBytes)
              <= after.window.original * c.basisPoints / 10000 + c.burstBytes - after.tokens.committed
  {
    RunBooks(c, chunkBytes, steps);
    var b := Exec(c, steps).value.budget;
    var (after, answer) := Reserve(c, b, e, payload, at);
    ReserveBalances(c, chunkBytes, b, e, payload, at);
    RatioIsFloor(after.window.original, c.basisPoints);
    PartsAddUp(after.reservations, after.nextReservation);
  }

  lemma {:induction false} PartsAddUp(reservations: map<nat, Reservation>, nextReservation: nat)
    requires Issued(reservations, nextReservation)
    ensures MapSum(reservations, AllBytes) == MapSum(reservations, BaseBytes) + MapSum(reservations, BurstBytes)
    decreases |reservations|
  {
    if reservations != map[] {
      var id :| id in reservations;
      RemoveSums(reservations, id);
      PartsAddUp(reservations - {id}, nextReservation);
    }
  }

  // ------------------------------------------------------- the window and the history

  /** What a step does to the window's queues, before the pruning it may end with. */
  function Grown(b: Budget, step: Step): Window {
    match step
    case Original(s, bytes, at) =>
      if RecordOriginal(b, s, bytes, at).1 then AddOriginal(b.window, Event(at, bytes)) else b.window
    case Finish(id, wire, at) =>
      if Taken(b, id, wire) > 0 then AddAccepted(b.window, Event(at, Taken(b, id, wire))) else b.window
    case _ => b.window
  }

  /** Every step grows the window by its own event and then prunes it at its own time, or not at all. */
  lemma WindowStep(c: Config, b: Budget, step: Step, clock: int)
    ensures var w := NextBudget(c, b, step).window;
            w == Grown(b, step) || w == Prune(Grown(b, step), TimeOf(step, clock))
  {
    match step
    case Finish(id, wire, at) =>
    case Ask(e, payload, at) =>
    case _ =>
  }

  ghost predicate Tracked(r: Run) {
    && Trails(r.originals, r.budget.window.originals, r.clock - WINDOW)
    && Mirrors(r.accepted, r.budget.window.accepted, r.clock - WINDOW)
  }

  lemma GrownTracks(c: Config, r: Run, step: Step)
    requires Tracked(r)
    ensures Trails(Next(c, r, step).originals, Grown(r.budget, step).originals, r.clock - WINDOW)
    ensures Mirrors(Next(c, r, step).accepted, Grown(r.budget, step).accepted, r.clock - WINDOW)
  {
    if step.Finish? {
      MirrorsInsert(r.accepted, r.budget.window.accepted, r.clock - WINDOW,
                    Event(step.at, Taken(r.budget, step.id, step.wire)));
    }
  }

  lemma TrackingKept(c: Config, r: Run, step: Step)
    requires Tracked(r)
    ensures Tracked(Next(c, r, step))
  {
    var after, grown := Next(c, r, step), Grown(r.budget, step);
    GrownTracks(c, r, step);
    WindowStep(c, r.budget, step, r.clock);
    TrailsPruned(after.originals, grown.originals, r.clock - WINDOW, TimeOf(step, r.clock) - WINDOW);
    MirrorsPruned(after.accepted, grown.accepted, r.clock - WINDOW, TimeOf(step, r.clock) - WINDOW);
  }

  lemma {:induction false} RunTracks(c: Config, steps: seq<Step>)
    requires Exec(c, steps).Some?
    ensures Tracked(Exec(c, steps).value)
  {
    if steps != [] {
      RunTracks(c, steps[..|steps| - 1]);
      TrackingKept(c, Exec(c, steps[..|steps| - 1]).value, steps[|steps| - 1]);
    }
  }

  lemma WindowMatches(w: Window, originals: seq<Event>, accepted: seq<Event>, edge: int, at: int)
    requires Exact(w) && Trails(originals, w.originals, edge) && Mirrors(accepted, w.accepted, edge)
    requires edge <= at - WINDOW
    ensures Prune(w, at).original == Sum(PrunedEvents(originals, at - WINDOW)) >= SumAfter(originals, at - WINDOW)
    ensures Prune(w, at).original == SumAfter(originals, at - WINDOW) <==> Unhidden(originals, at - WINDOW)
    ensures Prune(w, at).carried == SumAfter(accepted, at - WINDOW)
  {
    assert Prune(w, at).carried == SumAfter(w.accepted, at - WINDOW) by {
      PruneWindow(w, at);
    }
    PruneCounts(w.originals, w.original, at - WINDOW);
    TrailsToHistory(originals, w.originals, edge, at - WINDOW);
    PruneExactIff(originals, at - WINDOW);
  }

  /** After any run, whatever the order of its time stamps, pruning at the present leaves the accepted
      counter equal to the sum over everything ever accepted in the last 60 s. The original counter is
      what pruning the complete history would leave: at least the originals of the last 60 s, and
      exactly those if and only if no older bytes were recorded after newer ones. */
  lemma CountersMatchHistory(c: Config, chunkBytes: nat, steps: seq<Step>, at: int)
    requires ValidConfig(c, chunkBytes) && Exec(c, steps).Some? && Exec(c, steps).value.clock <= at
    ensures var r := Exec(c, steps).value;
            var w := Prune(r.budget.window, at);
            && w.carried == SumAfter(r.accepted, at - WINDOW)
            && w.original == Sum(PrunedEvents(r.originals, at - WINDOW)) >= SumAfter(r.originals, at - WINDOW)
            && (w.original == SumAfter(r.originals, at - WINDOW) <==> Unhidden(r.originals, at - WINDOW))
  {
    var r := Exec(c, steps).value;
    RunBooks(c, chunkBytes, steps);
    RunTracks(c, steps);
    WindowMatches(r.budget.window, r.originals, r.accepted, r.clock - WINDOW, at);
  }

  /** The budget itself does not keep its callers to that: an original stamped before the one it follows
      stays counted after its 60 s are over. */
  lemma LateOriginalLingers(c: Config, first: nat, second: nat, early: int, late: int)
    requires 0 < first && 0 < second && first + second <= MAX_UINT64 && early < late <= early + WINDOW
    ensures var run := Exec(c, [Original(0, first, late), Original(1, second, early)]);
            && run.Some?
            && SumAfter(run.value.originals, early) == first
            && Prune(run.value.budget.window, early + WINDOW).original == first + second
  {
    var one, two := Original(0, first, late), Original(1, second, early);
    assert [one][..0] == [] && [one, two][..1] == [one];
    var r := Next(c, START, one);
    assert Exec(c, [one]) == Some(r);
    assert r.originals == [Event(late, first)] && r.budget.window.originals == [Event(late, first)];
    var after := Next(c, r, two);
    assert Exec(c, [one, two]) == Some(after);
    assert after.originals == [Event(late, first)] + [Event(early, second)];
    SumSnoc([Event(late, first)], Event(early, second), early);
  }

  /** So Reserve grants every rescue the complete 60 s history affords, and decides exactly as that
      history calls for unless older bytes were recorded after newer ones. */
  lemma DecisionMatchesHistory(c: Config, chunkBytes: nat, steps: seq<Step>, e: Evidence, payload: nat, at: int)
    requires ValidConfig(c, chunkBytes) && c.mode == Full
    requires Exec(c, steps).Some? && Exec(c, steps).value.clock <= at
    requires Refusal(c, Exec(c, steps).value.budget, e, payload).None?
    ensures var r := Exec(c, steps).value;
            var granted := Reserve(c, r.budget, e, payload, at).1.Reserved?;
            var affordable := Affordable(c, SumAfter(r.originals, at - WINDOW), SumAfter(r.accepted, at - WINDOW),
                                         r.budget.tokens, payload);
            (affordable ==> granted) && (Unhidden(r.originals, at - WINDOW) ==> (granted ==> affordable))
  {
    var r := Exec(c, steps).value;
    CountersMatchHistory(c, chunkBytes, steps, at);
    var original, carried := SumAfter(r.originals, at - WINDOW), SumAfter(r.accepted, at - WINDOW);
    if Affordable(c, original, carried, r.budget.tokens, payload) {
      MoreOriginalsAffordMore(c, original, Prune(r.budget.window, at).original, carried, r.budget.tokens, payload);
    }
  }

  lemma MoreOriginalsAffordMore(c: Config, fewer: nat, more: nat, carried: int, t: Tokens, payload: nat)
    requires fewer <= more && Affordable(c, fewer, carried, t, payload)
    ensures Affordable(c, more, carried, t, payload)
  {
    RatioMonotone(fewer, more, c.basisPoints);
  }

  /** The observer scans without pruning. What it approves Reserve approves; the two sums it forms are
      Reserve's exactly when no older bytes stand behind a newer original, and then so is its verdict. */
  lemma ObserverAgrees(c: Config, chunkBytes: nat, b: Budget, payload: nat, at: int)
    requires ValidConfig(c, chunkBytes) && c.mode == Full && Balanced(c, b)
    ensures var w := Prune(b.window, at);
            var original := Min(MAX_UINT64, SumAfter(b.window.originals, at - WINDOW));
            var carried := Min(MAX_UINT64, SumAfter(b.window.accepted, at - WINDOW));
            && (Affordable(c, original, carried, b.tokens, payload)
                ==> Affordable(c, w.original, w.carried, b.tokens, payload))
            && (original == w.original && carried == w.carried <==> Unhidden(b.window.originals, at - WINDOW))
            && (Unhidden(b.window.originals, at - WINDOW) ==>
                  (Affordable(c, original, carried, b.tokens, payload)
                   <==> Affordable(c, w.original, w.carried, b.tokens, payload)))
  {
    PruneWindow(b.window, at);
    NoSaturation(c, chunkBytes);
    var original := SumAfter(b.window.originals, at - WINDOW);
    if Affordable(c, original, Prune(b.window, at).carried, b.tokens, payload) {
      MoreOriginalsAffordMore(c, original, Prune(b.window, at).original, Prune(b.window, at).carried,
                              b.tokens, payload);
    }
  }

  // ---------------------------------------------------- originals recorded as they are made

  /** The originals come with time stamps that never go back, as from the one goroutine that records
      them; the stamps of all other steps are free. */
  predicate InTime(steps: seq<Step>) {
    forall i, j | 0 <= i < j < |steps| && steps[i].Original? && steps[j].Original? :: steps[i].at <= steps[j].at
  }

  lemma {:induction false} OriginalsBounded(c: Config, steps: seq<Step>, t: int)
    requires Exec(c, steps).Some? && forall i | 0 <= i < |steps| && steps[i].Original? :: steps[i].at <= t
    ensures forall i | 0 <= i < |Exec(c, steps).value.originals| :: Exec(c, steps).value.originals[i].at <= t
  {
    if steps != [] {
      OriginalsBounded(c, steps[..|steps| - 1], t);
    }
  }

  lemma {:induction false} InTimeAscends(c: Config, steps: seq<Step>)
    requires Exec(c, steps).Some? && InTime(steps)
    ensures Ascending(Exec(c, steps).value.originals, At)
  {
    if steps != [] {
      var before, last := steps[..|steps| - 1], steps[|steps| - 1];
      InTimeAscends(c, before);
      if last.Original? {
        OriginalsBounded(c, before, last.at);
      }
    }
  }

  lemma TrailsAscends(history: seq<Event>, queue: seq<Event>, edge: int)
    requires Trails(history, queue, edge) && Ascending(history, At)
    ensures Ascending(queue, At)
  {
    var n := |history| - |queue|;
    forall i, j | 0 <= i < j < |queue|
      ensures At(queue[i]) <= At(queue[j])
    {
      assert queue[i] == history[n + i] && queue[j] == history[n + j];
    }
  }

  /** For such a run both counters are the sums over the complete history of the last 60 s. */
  lemma InTimeCountersMatch(c: Config, chunkBytes: nat, steps: seq<Step>, at: int)
    requires ValidConfig(c, chunkBytes) && Exec(c, steps).Some? && InTime(steps) && Exec(c, steps).value.clock <= at
    ensures var r := Exec(c, steps).value;
            && Prune(r.budget.window, at).original == SumAfter(r.originals, at - WINDOW)
            && Prune(r.budget.window, at).carried == SumAfter(r.accepted, at - WINDOW)
            && Unhidden(r.budget.window.originals, at - WINDOW)
  {
    var r := Exec(c, steps).value;
    InTimeAscends(c, steps);
    AscendingUnhidden(r.originals, at - WINDOW);
    CountersMatchHistory(c, chunkBytes, steps, at);
    RunTracks(c, steps);
    TrailsAscends(r.originals, r.budget.window.originals, r.clock - WINDOW);
    AscendingUnhidden(r.budget.window.originals, at - WINDOW);
  }

  /** So Reserve grants exactly what that history affords, and the observer gives Reserve's verdict. */
  lemma InTimeDecisionsMatch(c: Config, chunkBytes: nat, steps: seq<Step>, e: Evidence, payload: nat, at: int)
    requires ValidConfig(c, chunkBytes) && c.mode == Full
    requires Exec(c, steps).Some? && InTime(steps) && Exec(c, steps).value.clock <= at
    requires Refusal(c, Exec(c, steps).value.budget, e, payload).None?
    ensures var r := Exec(c, steps).value;
            var granted := Reserve(c, r.budget, e, payload, at).1.Reserved?;
            && (granted <==> Affordable(c, SumAfter(r.originals, at - WINDOW), SumAfter(r.accepted, at - WINDOW),
                                        r.budget.tokens, payload))
            && (granted <==> Affordable(c, Min(MAX_UINT64, SumAfter(r.budget.window.originals, at - WINDOW)),
                                        Min(MAX_UINT64, SumAfter(r.budget.window.accepted, at - WINDOW)),
                                        r.budget.tokens, payload))
  {
    var r := Exec(c, steps).value;
    InTimeCountersMatch(c, chunkBytes, steps, at);
    RunBooks(c, chunkBytes, steps);
    ObserverAgrees(c, chunkBytes, r.budget, payload, at);
  }

  // ------------------------------------------------------ one rescue write per epoch

  /** No later write for this record, generation and epoch can start. */
  ghost predicate Spent(b: Budget, w: Write) {
    && b.lastOriginal.Some? && w.sequence <= b.lastOriginal.value
    && (w.sequence < b.ackedNext || (w.sequence in b.records && w.key in b.records[w.sequence].used))
  }

  lemma RemoveSpends(b: Budget, id: nat, taken: nat, w: Write)
    requires Wired(b) && id in b.reservations && Spent(b, w)
    ensures Spent(Remove(b, id, taken), w)
  {
  }

  lemma SpentForGood(c: Config, b: Budget, step: Step, w: Write)
    requires Wired(b) && Spent(b, w)
    ensures Spent(NextBudget(c, b, step), w)
  {
    match step
    case Original(s, bytes, at) =>
    case Ask(e, payload, at) => AskSpends(c, b, e, payload, at, w);
    case Begin(id) => BeginSpends(c, b, id, w);
    case Recheck(id, current) =>
      if NextBudget(c, b, step) != b {
        RemoveSpends(b, id, 0, w);
      }
    case Finish(id, wire, at) =>
      if NextBudget(c, b, step) != b {
        var r := b.reservations[id];
        RemoveSpends(Charge(b, r, Min(wire, r.bytes), at), id, Min(wire, r.bytes), w);
      }
    case GiveBack(id) =>
      if NextBudget(c, b, step) != b {
        RemoveSpends(b, id, 0, w);
      }
    case Ack(next) =>
    case _ =>
  }

  lemma AskSpends(c: Config, b: Budget, e: Evidence, payload: nat, at: int, w: Write)
    requires Spent(b, w)
    ensures Spent(Reserve(c, b, e, payload, at).0, w)
  {
  }

  /** A write starts only where nothing was spent, and spends it. */
  lemma BeginSpends(c: Config, b: Budget, id: nat, w: Write)
    requires Wired(b)
    ensures Spent(b, w) ==> Spent(BeginWrite(c, b, id).0, w)
    ensures BeginWrite(c, b, id).1 ==>
              var r := b.reservations[id];
              && Spent(BeginWrite(c, b, id).0, Write(r.sequence, r.key))
              && (c.mode != ClassOnly ==> !Spent(b, Write(r.sequence, r.key)))
  {
    if Spent(b, w) && !BeginWrite(c, b, id).1 && BeginWrite(c, b, id).0 != b {
      RemoveSpends(b, id, 0, w);
    }
  }

  ghost predicate Distinct(writes: seq<Write>) {
    forall i, j | 0 <= i < j < |writes| :: writes[i] != writes[j]
  }

  ghost predicate AllSpent(b: Budget, writes: seq<Write>) {
    forall i | 0 <= i < |writes| :: Spent(b, writes[i])
  }

  lemma WritesStaySpent(c: Config, b: Budget, step: Step, writes: seq<Write>)
    requires Wired(b) && AllSpent(b, writes)
    ensures AllSpent(NextBudget(c, b, step), writes)
  {
    forall i | 0 <= i < |writes|
      ensures Spent(NextBudget(c, b, step), writes[i])
    {
      SpentForGood(c, b, step, writes[i]);
    }
  }

  lemma OnceKept(c: Config, r: Run, step: Step)
    requires c.mode != ClassOnly && Wired(r.budget) && AllSpent(r.budget, r.writes) && Distinct(r.writes)
    ensures AllSpent(Next(c, r, step).budget, Next(c, r, step).writes) && Distinct(Next(c, r, step).writes)
  {
    WritesStaySpent(c, r.budget, step, r.writes);
    if step.Begin? && BeginWrite(c, r.budget, step.id).1 {
      var started := r.budget.reservations[step.id];
      BeginSpends(c, r.budget, step.id, Write(started.sequence, started.key));
    }
  }

  lemma {:induction false} RunOnce(c: Config, chunkBytes: nat, steps: seq<Step>)
    requires ValidConfig(c, chunkBytes) && c.mode != ClassOnly && Exec(c, steps).Some?
    ensures AllSpent(Exec(c, steps).value.budget, Exec(c, steps).value.writes) && Distinct(Exec(c, steps).value.writes)
  {
    if steps != [] {
      var before := steps[..|steps| - 1];
      RunOnce(c, chunkBytes, before);
      RunBooks(c, chunkBytes, before);
      OnceKept(c, Exec(c, before).value, steps[|steps| - 1]);
    }
  }

  // ---------------------------------------- without the per-record rule it does repeat

  const FRONTIER_COPY :=
    Evidence(0, 0, 0, 1, 1, 1, true, Frontier, true, true, false, true, true, true, true, false, false, true)

  const REPEATED := Key(1, 1)

  lemma ExecSnoc(c: Config, steps: seq<Step>, step: Step)
    requires Exec(c, steps).Some? && Enabled(Exec(c, steps).value, step)
    ensures Exec(c, steps + [step]) == Some(Next(c, Exec(c, steps).value, step))
  {
    assert (steps + [step])[..|steps|] == steps;
  }

  /** Record 0 is outstanding, unacknowledged and has nothing pending at time 0. */
  ghost predicate Ready(r: Run) {
    && !r.budget.closed && r.budget.ackedNext == 0 && r.clock == 0
    && 0 in r.budget.records && !r.budget.records[0].acked && REPEATED !in r.budget.records[0].pending
  }

  /** One admitted copy, written whole, leaves the record ready for the next. */
  lemma OneRound(c: Config, steps: seq<Step>) returns (more: seq<Step>)
    requires c.mode == ClassOnly && Exec(c, steps).Some? && Ready(Exec(c, steps).value)
    ensures Exec(c, more).Some? && Ready(Exec(c, more).value)
    ensures Exec(c, more).value.writes == Exec(c, steps).value.writes + [Write(0, REPEATED)]
  {
    var r := Exec(c, steps).value;
    var id := r.budget.nextReservation + 1;
    var ask := Ask(FRONTIER_COPY, 1, 0);
    ExecSnoc(c, steps, ask);
    var asked := Next(c, r, ask);
    assert Backed(asked.budget.reservations, 0, REPEATED, id) && !asked.budget.reservations[id].started;
    assert Held(asked.budget.records, 0, REPEATED, id) && !asked.budget.records[0].acked;
    more := FinishRound(c, steps + [ask], id);
  }

  lemma FinishRound(c: Config, steps: seq<Step>, id: nat) returns (more: seq<Step>)
    requires c.mode == ClassOnly && id > 0 && Exec(c, steps).Some?
    requires var r := Exec(c, steps).value;
             && !r.budget.closed && r.budget.ackedNext == 0 && r.clock == 0
             && Backed(r.budget.reservations, 0, REPEATED, id) && !r.budget.reservations[id].started
             && Held(r.budget.records, 0, REPEATED, id) && !r.budget.records[0].acked
    ensures Exec(c, more).Some? && Ready(Exec(c, more).value)
    ensures Exec(c, more).value.writes == Exec(c, steps).value.writes + [Write(0, REPEATED)]
  {
    var r := Exec(c, steps).value;
    ExecSnoc(c, steps, Begin(id));
    var begun := Next(c, r, Begin(id));
    assert begun.budget.reservations[id].started && Held(begun.budget.records, 0, REPEATED, id);
    ExecSnoc(c, steps + [Begin(id)], Finish(id, 1, 0));
    more := steps + [Begin(id)] + [Finish(id, 1, 0)];
  }

  /** In every run each record, generation and epoch starts at most one rescue write - exactly
      when the configuration keeps the per-record rule. */
  lemma OneWritePerEpochIff(c: Config, chunkBytes: nat)
    requires ValidConfig(c, chunkBytes)
    ensures (forall steps | Exec(c, steps).Some? :: Distinct(Exec(c, steps).value.writes)) <==> c.mode != ClassOnly
  {
    if c.mode != ClassOnly {
      forall steps | Exec(c, steps).Some?
        ensures Distinct(Exec(c, steps).value.writes)
      {
        RunOnce(c, chunkBytes, steps);
      }
    } else {
      ExecSnoc(c, [], Original(0, 1, 0));
      var once := OneRound(c, [] + [Original(0, 1, 0)]);
      var twice := OneRound(c, once);
      var writes := Exec(c, twice).value.writes;
      assert writes[0] == writes[1];
      assert !Distinct(Exec(c, twice).value.writes);
    }
  }
}

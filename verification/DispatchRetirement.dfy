/** What a gracefully retired leg leaves behind: exactly when no record depends on it, and exactly
    when none will until another carrier attaches. */
module DispatchRetirement {
  import opened Prelude
  import opened StreamTx
  import opened Dispatch
  import opened DispatchSafety
  import Ack = TxRetirement

  // ------------------------------------------------------- claims come from their own call

  /** The step is this lane's call claiming its record. */
  ghost predicate Claiming(st: State, after: State, step: Step, k: Lane) {
    && step.Claim? && step.lane == k && k in st.calls && st.calls[k].phase == Checked
    && k in after.calls
    && ClaimOf(after.ledger.outstanding, k) == Some(Attempt(st.calls[k].leg, after.calls[k].started))
    && after.calls[k].phase == Claimed && after.calls[k].leg == st.calls[k].leg
  }

  ghost predicate ClaimKept(o: map<nat, Record>, n: map<nat, Record>, k: Lane) {
    ClaimOf(n, k) == ClaimOf(o, k) || ClaimOf(n, k).None?
  }

  /** No step but a lane's own claim gives the lane a claim. */
  lemma ClaimsKept(st: State, step: Step)
    requires Sound(st.ledger) && Next(st, step).Some?
    ensures forall k: Lane :: ClaimKept(st.ledger.outstanding, Next(st, step).value.ledger.outstanding, k)
                              || Claiming(st, Next(st, step).value, step, k)
  {
    if step.Add? || step.EndLocal? || step.Choose? || step.Assign? || step.Acked? {
      LedgerClaims(st, step);
    } else if step.Begin? || step.Claim? || step.Enqueue? || step.Reject? || step.Finish? {
      CallClaims(st, step);
    } else if step.Write? || step.Commit? || step.Drop? || step.GiveUp? {
      WriterClaims(st, step);
    } else if step.Invalidate? {
      InvalidateEffect(st.ledger, step.leg);
    }
  }

  lemma LedgerClaims(st: State, step: Step)
    requires Sound(st.ledger) && LedgerStep(st, step).Some?
    ensures forall k: Lane :: ClaimKept(st.ledger.outstanding, LedgerStep(st, step).value.ledger.outstanding, k)
  {
    var l := st.ledger;
    match step
    case Add(payload, local) =>
      assert forall k: Lane :: ClaimOf(AddRecord(l, payload, st.clock, local).outstanding, k)
                               == ClaimOf(l.outstanding, k);
    case EndLocal(s) => LocalQuiet(l, s);
    case Choose(_, _) =>
    case Assign(s, leg) => AssignQuiet(l, s, leg, st.clock);
    case Acked(next) => AckEffect(l, next, st.clock);
  }

  lemma CallClaims(st: State, step: Step)
    requires WindowShape(st.ledger) && CallStep(st, step).Some?
    ensures forall k: Lane :: ClaimKept(st.ledger.outstanding, CallStep(st, step).value.ledger.outstanding, k)
                              || Claiming(st, CallStep(st, step).value, step, k)
  {
    var l := st.ledger;
    match step
    case Claim(k, owner) => ClaimClaims(st, k, owner);
    case Reject(k) => ClearEffect(l, k, st.calls[k].leg, st.calls[k].started);
    case Finish(k) => ClearEffect(l, k, st.calls[k].leg, st.calls[k].started);
    case _ =>
  }

  lemma ClaimClaims(st: State, k: Lane, owner: Option<LegId>)
    requires WindowShape(st.ledger) && CallStep(st, Claim(k, owner)).Some?
    ensures var after := CallStep(st, Claim(k, owner)).value;
            forall j: Lane :: ClaimKept(st.ledger.outstanding, after.ledger.outstanding, j)
                              || Claiming(st, after, Claim(k, owner), j)
  {
    if Mark(st.ledger, k, st.calls[k].leg, owner, st.clock + 1).1 {
      MarkEffect(st.ledger, k, st.calls[k].leg, owner, st.clock + 1);
    }
  }

  lemma WriterClaims(st: State, step: Step)
    requires WindowShape(st.ledger) && WriterStep(st, step).Some?
    ensures forall k: Lane :: ClaimKept(st.ledger.outstanding, WriterStep(st, step).value.ledger.outstanding, k)
  {
    match step
    case Commit(q) => SentEffect(st.ledger, q.lane, q.leg, st.clock);
    case GiveUp(q) => ClearEffect(st.ledger, q.lane, q.leg, q.started);
    case _ =>
  }

  /** Until a call claims, its lane is free; from then on the lane's claim is the call's, or gone. */
  ghost predicate OwnClaim(o: map<nat, Record>, k: Lane, c: Call) {
    ClaimOf(o, k).Some? ==> c.phase != Checked && ClaimOf(o, k).value == Attempt(c.leg, c.started)
  }

  ghost predicate OwnClaims(st: State) {
    forall k <- st.calls :: OwnClaim(st.ledger.outstanding, k, st.calls[k])
  }

  lemma OwnClaimsKept(st: State, step: Step)
    requires Sound(st.ledger) && OwnClaims(st) && Next(st, step).Some?
    ensures OwnClaims(Next(st, step).value)
  {
    var after := Next(st, step).value;
    ClaimsKept(st, step);
    forall k <- after.calls
      ensures OwnClaim(after.ledger.outstanding, k, after.calls[k])
    {
      assert ClaimKept(st.ledger.outstanding, after.ledger.outstanding, k) || Claiming(st, after, step, k);
      assert k in st.calls ==> OwnClaim(st.ledger.outstanding, k, st.calls[k]);
      CallGoesOn(st, step, k);
    }
  }

  /** A call keeps its leg and its start, and its phase only moves forward. */
  lemma CallGoesOn(st: State, step: Step, k: Lane)
    requires Sound(st.ledger) && Next(st, step).Some? && k in Next(st, step).value.calls
    ensures var after := Next(st, step).value;
            if k !in st.calls
            then
              && step.Begin? && step.lane == k && after.ledger == st.ledger
              && ClaimOf(st.ledger.outstanding, k).None? && k.sequence < st.ledger.nextSequence
              && after.calls[k].leg == step.leg && StatusOf(st.legs, step.leg).Live?
            else
              && after.calls[k].leg == st.calls[k].leg
              && (after.calls[k].phase == Checked ==> st.calls[k].phase == Checked)
              && (after.calls[k].started == st.calls[k].started || (step.Claim? && step.lane == k))
              && (step.Claim? && step.lane == k ==> after.calls[k].phase != Checked && st.calls[k].phase == Checked)
  {
  }

  lemma {:induction false} RunOwnsClaims(maxLegs: nat, steps: seq<Step>)
    requires Exec(maxLegs, steps).Some?
    ensures OwnClaims(Exec(maxLegs, steps).value)
  {
    if steps != [] {
      RunOwnsClaims(maxLegs, steps[..|steps| - 1]);
      OwnClaimsKept(Exec(maxLegs, steps[..|steps| - 1]).value, steps[|steps| - 1]);
    }
  }

  /** Only the assigner's choice gives a record a new owner. */
  lemma OwnersKept(st: State, step: Step)
    requires Sound(st.ledger) && Next(st, step).Some?
    ensures var o, n := st.ledger.outstanding, Next(st, step).value.ledger.outstanding;
            SameOwners(o, n) || (step.Assign? && st.choice == Some(Choice(step.sequence, step.leg))
                                 && forall s: nat :: OwnerOf(n, s) in {OwnerOf(o, s), Some(step.leg)})
  {
    var l := st.ledger;
    if step.EndLocal? {
      LocalQuiet(l, step.sequence);
    } else if step.Assign? {
      AssignQuiet(l, step.sequence, step.leg, st.clock);
    } else if step.Acked? {
      AckEffect(l, step.next, st.clock);
    } else if !step.Add? {
      StakesKept(st, step);
      StakesOwners(l, Next(st, step).value.ledger);
    }
  }

  lemma StakesOwners(l: Ledger, n: Ledger)
    requires SameStakes(l, n)
    ensures SameOwners(l.outstanding, n.outstanding)
  {
  }

  // ------------------------------------------------------------------ the leg as it stands

  /** A queue call of an earlier carrier still holds its claim on the leg. */
  ghost predicate HeldByCall(st: State, leg: LegId, s: nat) {
    exists k: Lane :: k.sequence == s && ClaimOf(st.ledger.outstanding, k).Some?
                      && ClaimOf(st.ledger.outstanding, k).value.leg == leg
                      && CallHolds(st.calls, k, ClaimOf(st.ledger.outstanding, k).value)
  }

  /** A leg whose carrier was gracefully retired, until another attaches: no outstanding record was last
      sent on it, and a record depends on it exactly while a queue call left over from a still earlier
      carrier holds a claim on it, or once a choice of the assigner from before has made it the owner. */
  lemma DrainedLegIsClean(maxLegs: nat, steps: seq<Step>, leg: LegId, s: nat)
    requires Exec(maxLegs, steps).Some? && leg in Exec(maxLegs, steps).value.drained
    requires s in Exec(maxLegs, steps).value.ledger.outstanding
    ensures var st := Exec(maxLegs, steps).value;
            var o := st.ledger.outstanding;
            && o[s].lastSentLeg != Some(leg)
            && (DependsOn(o[s], leg) <==> HeldByCall(st, leg, s) || o[s].ordinaryOwner == Some(leg))
  {
    RunKeeps(maxLegs, steps);
    DrainedState(Exec(maxLegs, steps).value, leg, s);
  }

  lemma DrainedState(st: State, leg: LegId, s: nat)
    requires Inv(st) && leg in st.drained && s in st.ledger.outstanding
    ensures st.ledger.outstanding[s].lastSentLeg != Some(leg)
    ensures DependsOn(st.ledger.outstanding[s], leg)
            <==> HeldByCall(st, leg, s) || st.ledger.outstanding[s].ordinaryOwner == Some(leg)
  {
    var o := st.ledger.outstanding;
    assert SentTrue(o, st.legs, st.sentGen, s);
    if DependsOn(o[s], leg) && o[s].ordinaryOwner != Some(leg) {
      var k := Lane(s, !Claims(o[s].transit, leg, None));
      assert Held(st.legs, st.queue + st.written, st.calls, k, ClaimOf(o, k).value);
    }
  }

  // ---------------------------------------------------------- until another carrier attaches

  /** A queue call of an earlier carrier that has claimed a record on the leg, or still may, or a choice
      of the assigner that has made the leg an owner, or still may. */
  ghost predicate LeftOver(st: State, leg: LegId) {
    || (exists k <- st.calls :: LeftOverCall(st, leg, k))
    || LeftOverChoice(st, leg)
    || Owned(st.ledger.outstanding, leg)
  }

  ghost predicate LeftOverChoice(st: State, leg: LegId) {
    st.choice.Some? && st.choice.value.leg == leg && st.choice.value.sequence in st.ledger.outstanding
  }

  ghost predicate Owned(o: map<nat, Record>, leg: LegId) {
    exists s: nat :: OwnerOf(o, s) == Some(leg)
  }

  ghost predicate ChoiceDated(st: State) {
    st.choice.Some? ==> st.choice.value.sequence < st.ledger.nextSequence
  }

  ghost predicate LeftOverCall(st: State, leg: LegId, k: Lane) {
    && k in st.calls && st.calls[k].leg == leg && k.sequence in st.ledger.outstanding
    && (st.calls[k].phase == Checked || ClaimOf(st.ledger.outstanding, k) == Some(Attempt(leg, st.calls[k].started)))
  }

  lemma NewRecordsAreLast(st: State, step: Step)
    requires Sound(st.ledger) && Next(st, step).Some?
    ensures Next(st, step).value.ledger.outstanding.Keys
            <= st.ledger.outstanding.Keys + (if step.Add? then {st.ledger.nextSequence} else {})
  {
    var l := st.ledger;
    match step
    case Add(payload, local) =>
    case Assign(s, leg) => AssignQuiet(l, s, leg, st.clock);
    case Acked(next) => AckEffect(l, next, st.clock);
    case _ => StakesKept(st, step);
  }

  lemma SequencesGrow(st: State, step: Step)
    requires Sound(st.ledger) && Next(st, step).Some?
    ensures Next(st, step).value.ledger.nextSequence >= st.ledger.nextSequence
  {
    var l := st.ledger;
    match step
    case Add(payload, local) =>
    case Assign(s, leg) => AssignQuiet(l, s, leg, st.clock);
    case Acked(next) => Ack.AckKeepsSound(l, next, st.clock);
    case _ => StakesKept(st, step);
  }

  lemma {:induction false} RunDatesChoice(maxLegs: nat, steps: seq<Step>)
    requires Exec(maxLegs, steps).Some?
    ensures ChoiceDated(Exec(maxLegs, steps).value)
  {
    if steps != [] {
      RunDatesChoice(maxLegs, steps[..|steps| - 1]);
      DateKept(Exec(maxLegs, steps[..|steps| - 1]).value, steps[|steps| - 1]);
    }
  }

  lemma DateKept(st: State, step: Step)
    requires Sound(st.ledger) && ChoiceDated(st) && Next(st, step).Some?
    ensures ChoiceDated(Next(st, step).value)
  {
    SequencesGrow(st, step);
    ChoiceGoesOn(st, step);
  }

  lemma NoCallLeftKept(st: State, step: Step, leg: LegId)
    requires Inv(st) && leg in st.drained && step != Attach(leg) && Next(st, step).Some?
    requires forall k <- st.calls :: !LeftOverCall(st, leg, k)
    ensures forall k <- Next(st, step).value.calls :: !LeftOverCall(Next(st, step).value, leg, k)
  {
    var after := Next(st, step).value;
    ClaimsKept(st, step);
    NewRecordsAreLast(st, step);
    forall k <- after.calls
      ensures !LeftOverCall(after, leg, k)
    {
      CallGoesOn(st, step, k);
      assert ClaimKept(st.ledger.outstanding, after.ledger.outstanding, k) || Claiming(st, after, step, k);
      if k in st.calls {
        assert !LeftOverCall(st, leg, k);
        assert k.sequence < st.ledger.nextSequence;
      }
    }
  }

  /** A choice names an available leg when it is made, and otherwise only ends. */
  lemma ChoiceGoesOn(st: State, step: Step)
    requires Sound(st.ledger) && Next(st, step).Some?
    ensures var after := Next(st, step).value;
            || after.choice == st.choice || after.choice.None?
            || (after.ledger == st.ledger && after.choice.value.sequence < st.ledger.nextSequence
                && StatusOf(st.legs, after.choice.value.leg).Live?)
    ensures forall leg <- st.drained :: leg in Next(st, step).value.drained || step == Attach(leg)
  {
  }

  lemma NoChoiceLeftKept(st: State, step: Step, leg: LegId)
    requires Sound(st.ledger) && DrainedGone(st) && ChoiceDated(st) && leg in st.drained && step != Attach(leg)
    requires Next(st, step).Some? && !LeftOverChoice(st, leg)
    ensures leg in Next(st, step).value.drained && !LeftOverChoice(Next(st, step).value, leg)
  {
    NewRecordsAreLast(st, step);
    ChoiceGoesOn(st, step);
  }

  lemma NotOwnedKept(st: State, step: Step, leg: LegId)
    requires Sound(st.ledger) && Next(st, step).Some?
    requires !LeftOverChoice(st, leg) && !Owned(st.ledger.outstanding, leg)
    ensures !Owned(Next(st, step).value.ledger.outstanding, leg)
  {
    OwnersKept(st, step);
    assert forall s: nat :: OwnerOf(st.ledger.outstanding, s) != Some(leg);
    if step.Assign? && step.leg == leg {
      AbsentAssigns(st.ledger, step.sequence, leg, st.clock);
    }
  }

  lemma AbsentAssigns(l: Ledger, s: nat, leg: LegId, now: int)
    requires Sound(l) && s !in l.outstanding
    ensures AssignOrdinary(l, s, leg, now).0.outstanding == l.outstanding
  {
  }

  lemma {:induction false} NothingLeftOn(maxLegs: nat, steps: seq<Step>, more: seq<Step>, leg: LegId)
    requires Exec(maxLegs, steps).Some? && leg in Exec(maxLegs, steps).value.drained
    requires !LeftOver(Exec(maxLegs, steps).value, leg)
    requires Attach(leg) !in more && Exec(maxLegs, steps + more).Some?
    ensures leg in Exec(maxLegs, steps + more).value.drained && !LeftOver(Exec(maxLegs, steps + more).value, leg)
    decreases |more|
  {
    if more == [] {
      assert steps + more == steps;
    } else {
      var before, last := more[..|more| - 1], more[|more| - 1];
      assert (steps + more)[..|steps + more| - 1] == steps + before;
      NothingLeftOn(maxLegs, steps, before, leg);
      RunKeeps(maxLegs, steps + before);
      RunDatesChoice(maxLegs, steps + before);
      NoCallLeftKept(Exec(maxLegs, steps + before).value, last, leg);
      NoChoiceLeftKept(Exec(maxLegs, steps + before).value, last, leg);
      NotOwnedKept(Exec(maxLegs, steps + before).value, last, leg);
    }
  }

  /** The leg and every record stay apart from here on, until another carrier attaches. */
  ghost predicate StaysClean(maxLegs: nat, steps: seq<Step>, leg: LegId) {
    forall more: seq<Step> | Attach(leg) !in more && Exec(maxLegs, steps + more).Some? ::
      !DependedOn(Exec(maxLegs, steps + more).value.ledger.outstanding, leg)
  }

  lemma HeldIsLeftOver(st: State, leg: LegId, s: nat)
    requires HeldByCall(st, leg, s)
    ensures LeftOver(st, leg)
  {
    var k: Lane :| k.sequence == s && ClaimOf(st.ledger.outstanding, k).Some?
                   && ClaimOf(st.ledger.outstanding, k).value.leg == leg
                   && CallHolds(st.calls, k, ClaimOf(st.ledger.outstanding, k).value);
    assert LeftOverCall(st, leg, k);
  }

  lemma NothingLeftIsClean(st: State, leg: LegId)
    requires Inv(st) && leg in st.drained && !LeftOver(st, leg)
    ensures !DependedOn(st.ledger.outstanding, leg)
  {
    forall s <- st.ledger.outstanding
      ensures !DependsOn(st.ledger.outstanding[s], leg)
    {
      DrainedState(st, leg, s);
      assert OwnerOf(st.ledger.outstanding, s) != Some(leg);
      if HeldByCall(st, leg, s) {
        HeldIsLeftOver(st, leg, s);
      }
    }
  }

  /** A call that has not yet claimed can: the record then depends on the leg. */
  lemma LeftOverClaims(st: State, leg: LegId, k: Lane)
    requires Sound(st.ledger) && OwnClaims(st) && LeftOverCall(st, leg, k)
    requires !DependedOn(st.ledger.outstanding, leg)
    ensures Next(st, Claim(k, None)).Some?
    ensures DependedOn(Next(st, Claim(k, None)).value.ledger.outstanding, leg)
  {
    var o := st.ledger.outstanding;
    assert OwnClaim(o, k, st.calls[k]);
    Independent(o, leg);
    MarkEffect(st.ledger, k, leg, None, st.clock + 1);
    var n := Next(st, Claim(k, None)).value.ledger.outstanding;
    assert ClaimOf(n, k) == Some(Attempt(leg, st.clock + 1));
    assert DependsOn(n[k.sequence], leg);
  }

  /** A choice that still stands makes the leg the owner. */
  lemma ChoiceAssigns(st: State, leg: LegId)
    requires Sound(st.ledger) && LeftOverChoice(st, leg)
    ensures var s := st.choice.value.sequence;
            && Next(st, Assign(s, leg)).Some?
            && DependedOn(Next(st, Assign(s, leg)).value.ledger.outstanding, leg)
  {
    var s := st.choice.value.sequence;
    var n := Next(st, Assign(s, leg)).value.ledger.outstanding;
    assert s in n && n[s].ordinaryOwner == Some(leg);
    assert DependsOn(n[s], leg);
  }

  lemma ExecExtend(maxLegs: nat, steps: seq<Step>, step: Step)
    requires Exec(maxLegs, steps).Some?
    ensures Exec(maxLegs, steps + [step]) == Next(Exec(maxLegs, steps).value, step)
  {
    assert (steps + [step])[..|steps|] == steps;
  }

  /** After any run that gracefully retired the leg's last carrier: nothing depends on the leg in any
      continuation until another carrier attaches, if and only if no queue call of an earlier
      carrier and no earlier choice of the assigner has put, or can still put, an outstanding record on it. */
  lemma StaysCleanIff(maxLegs: nat, steps: seq<Step>, leg: LegId)
    requires Exec(maxLegs, steps).Some? && leg in Exec(maxLegs, steps).value.drained
    ensures StaysClean(maxLegs, steps, leg) <==> !LeftOver(Exec(maxLegs, steps).value, leg)
  {
    if LeftOver(Exec(maxLegs, steps).value, leg) {
      SomeRunDirties(maxLegs, steps, leg);
    } else {
      forall more: seq<Step> | Attach(leg) !in more && Exec(maxLegs, steps + more).Some?
        ensures !DependedOn(Exec(maxLegs, steps + more).value.ledger.outstanding, leg)
      {
        NothingLeftOn(maxLegs, steps, more, leg);
        RunKeeps(maxLegs, steps + more);
        NothingLeftIsClean(Exec(maxLegs, steps + more).value, leg);
      }
    }
  }

  lemma SomeRunDirties(maxLegs: nat, steps: seq<Step>, leg: LegId)
    requires Exec(maxLegs, steps).Some? && LeftOver(Exec(maxLegs, steps).value, leg)
    ensures !StaysClean(maxLegs, steps, leg)
  {
    var st := Exec(maxLegs, steps).value;
    if DependedOn(st.ledger.outstanding, leg) {
      assert steps + [] == steps;
      assert Attach(leg) !in [];
    } else if LeftOverChoice(st, leg) {
      ChoiceAssigns(st, leg);
      ExecExtend(maxLegs, steps, Assign(st.choice.value.sequence, leg));
      assert Attach(leg) !in [Assign(st.choice.value.sequence, leg)];
    } else {
      Independent(st.ledger.outstanding, leg);
      var k :| k in st.calls && LeftOverCall(st, leg, k);
      RunOwnsClaims(maxLegs, steps);
      LeftOverClaims(st, leg, k);
      ExecExtend(maxLegs, steps, Claim(k, None));
      assert Attach(leg) !in [Claim(k, None)];
    }
  }

  /** Nobody is about to put a record on the leg. */
  ghost predicate Unused(st: State, leg: LegId) {
    && (forall k <- st.calls :: st.calls[k].leg != leg)
    && (st.choice.Some? ==> st.choice.value.leg != leg)
  }

  lemma RetireLeavesNothing(st: State, leg: LegId)
    requires Unused(st, leg) && LegStep(st, RetireDrained(leg)).Some?
    ensures leg in LegStep(st, RetireDrained(leg)).value.drained
    ensures !LeftOver(LegStep(st, RetireDrained(leg)).value, leg)
  {
    Independent(st.ledger.outstanding, leg);
    assert forall s: nat :: OwnerOf(st.ledger.outstanding, s) != Some(leg);
  }

  /** So a carrier retired while no queue call and no choice names its leg leaves the leg clean for good. */
  lemma RetiredLegStaysClean(maxLegs: nat, steps: seq<Step>, leg: LegId)
    requires Exec(maxLegs, steps).Some? && Next(Exec(maxLegs, steps).value, RetireDrained(leg)).Some?
    requires Unused(Exec(maxLegs, steps).value, leg)
    ensures StaysClean(maxLegs, steps + [RetireDrained(leg)], leg)
  {
    ExecExtend(maxLegs, steps, RetireDrained(leg));
    RetireLeavesNothing(Exec(maxLegs, steps).value, leg);
    StaysCleanIff(maxLegs, steps + [RetireDrained(leg)], leg);
  }

  // -------------------------------------------------------------- a run that leaves one over

  const FIRST := Lane(0, false)

  /** One record, unclaimed and apart from leg 0. */
  ghost predicate Waiting(l: Ledger) {
    && Sound(l) && l.outstanding.Keys == {0}
    && l.outstanding[0].transit.None? && !DependsOn(l.outstanding[0], 0)
  }

  /** That record, one call that has only checked leg 0's first carrier, and the leg in some later status. */
  ghost predicate Overtaken(st: State, s: Status) {
    && Waiting(st.ledger)
    && st.legs == map[0 := s] && st.calls == map[FIRST := Call(0, 1, 0, Checked)] && st.queue == {}
  }

  /** The carrier fails and exits, another takes its leg, is drained and retired. */
  ghost predicate Turns(s: Status, step: Step, t: Status) {
    || (s == Live(1, true, false) && step == Close(0) && t == Live(1, false, false))
    || (s == Live(1, false, false) && step == Unregister(0) && t == Retiring(1, false))
    || (s == Retiring(1, false) && step == Invalidate(0) && t == Retiring(1, true))
    || (s == Retiring(1, true) && step == Exit(0) && t == Absent(1))
    || (s == Absent(1) && step == Attach(0) && t == Live(2, true, false))
    || (s == Live(2, true, false) && step == StartDrain(0) && t == Live(2, true, true))
    || (s == Live(2, true, true) && step == RetireDrained(0) && t == Retiring(2, true))
  }

  lemma OvertakenTurn(st: State, s: Status, step: Step, t: Status)
    requires Overtaken(st, s) && Turns(s, step, t)
    ensures Next(st, step).Some? && Overtaken(Next(st, step).value, t)
    ensures step == RetireDrained(0) ==> 0 in Next(st, step).value.drained
  {
    if step == Invalidate(0) {
      OvertakenInvalidates(st);
    } else if step == RetireDrained(0) {
      OvertakenRetires(st);
    }
  }

  lemma OvertakenInvalidates(st: State)
    requires Overtaken(st, Retiring(1, false))
    ensures Next(st, Invalidate(0)).Some? && Overtaken(Next(st, Invalidate(0)).value, Retiring(1, true))
  {
    InvalidateWaits(st.ledger);
  }

  lemma InvalidateWaits(l: Ledger)
    requires Waiting(l)
    ensures Waiting(InvalidateLeg(l, 0))
  {
    InvalidateKeepsStakes(l, 0);
    SameStakesKeepSound(l, InvalidateLeg(l, 0));
    assert InvalidateLeg(l, 0).outstanding[0] == Invalidated(l.outstanding[0], 0);
  }

  lemma OvertakenRetires(st: State)
    requires Overtaken(st, Live(2, true, true))
    ensures Next(st, RetireDrained(0)).Some? && Overtaken(Next(st, RetireDrained(0)).value, Retiring(2, true))
    ensures 0 in Next(st, RetireDrained(0)).value.drained
  {
    assert !CallOn(st.calls, 0, 2) && !QueuedOn(st.queue, 0, 2) && !DependedOn(st.ledger.outstanding, 0);
  }

  lemma OvertakenTurns(maxLegs: nat, steps: seq<Step>, s: Status, step: Step, t: Status)
    requires Exec(maxLegs, steps).Some? && Overtaken(Exec(maxLegs, steps).value, s) && Turns(s, step, t)
    ensures Exec(maxLegs, steps + [step]).Some? && Overtaken(Exec(maxLegs, steps + [step]).value, t)
    ensures step == RetireDrained(0) ==> 0 in Exec(maxLegs, steps + [step]).value.drained
  {
    OvertakenTurn(Exec(maxLegs, steps).value, s, step, t);
    ExecExtend(maxLegs, steps, step);
  }

  lemma OvertakenClaims(st: State, s: Status)
    requires Overtaken(st, s)
    ensures Next(st, Claim(FIRST, None)).Some?
    ensures var n := Next(st, Claim(FIRST, None)).value;
            n.drained == st.drained && 0 in n.ledger.outstanding && DependsOn(n.ledger.outstanding[0], 0)
  {
  }

  lemma AddChecked(maxLegs: nat, st: State)
    requires Sound(st.ledger) && Next(Start(maxLegs), Add([], true)) == Some(st)
    ensures Next(st, Attach(0)).Some?
    ensures Next(Next(st, Attach(0)).value, Begin(FIRST, 0)).Some?
    ensures Overtaken(Next(Next(st, Attach(0)).value, Begin(FIRST, 0)).value, Live(1, true, false))
  {
  }

  const CHECKED: seq<Step> := [] + [Add([], true)] + [Attach(0)] + [Begin(FIRST, 0)]

  lemma CheckedRun(maxLegs: nat)
    ensures Exec(maxLegs, CHECKED).Some? && Overtaken(Exec(maxLegs, CHECKED).value, Live(1, true, false))
  {
    assert Exec(maxLegs, []) == Some(Start(maxLegs));
    ExecExtend(maxLegs, [], Add([], true));
    AddChecked(maxLegs, Exec(maxLegs, [] + [Add([], true)]).value);
    ExecExtend(maxLegs, [] + [Add([], true)], Attach(0));
    ExecExtend(maxLegs, [] + [Add([], true)] + [Attach(0)], Begin(FIRST, 0));
  }

  const REPLACED: seq<Step> := CHECKED + [Close(0)] + [Unregister(0)] + [Invalidate(0)] + [Exit(0)] + [Attach(0)]

  lemma ReplacedRun(maxLegs: nat)
    ensures Exec(maxLegs, REPLACED).Some? && Overtaken(Exec(maxLegs, REPLACED).value, Live(2, true, false))
  {
    CheckedRun(maxLegs);
    var c := CHECKED;
    OvertakenTurns(maxLegs, c, Live(1, true, false), Close(0), Live(1, false, false));
    OvertakenTurns(maxLegs, c + [Close(0)], Live(1, false, false), Unregister(0), Retiring(1, false));
    OvertakenTurns(maxLegs, c + [Close(0)] + [Unregister(0)], Retiring(1, false), Invalidate(0), Retiring(1, true));
    OvertakenTurns(maxLegs, c + [Close(0)] + [Unregister(0)] + [Invalidate(0)], Retiring(1, true), Exit(0), Absent(1));
    OvertakenTurns(maxLegs, c + [Close(0)] + [Unregister(0)] + [Invalidate(0)] + [Exit(0)], Absent(1), Attach(0),
                   Live(2, true, false));
  }

  /** Without that condition the promise fails: a queue call checks a carrier, is overtaken by its failure,
      its replacement and the replacement's graceful retirement, and then claims a record on the leg. */
  lemma OvertakenCallDirties(maxLegs: nat)
    ensures var run := Exec(maxLegs, REPLACED + [StartDrain(0)] + [RetireDrained(0)] + [Claim(FIRST, None)]);
            && run.Some? && 0 in run.value.drained
            && 0 in run.value.ledger.outstanding && DependsOn(run.value.ledger.outstanding[0], 0)
  {
    ReplacedRun(maxLegs);
    OvertakenTurns(maxLegs, REPLACED, Live(2, true, false), StartDrain(0), Live(2, true, true));
    OvertakenTurns(maxLegs, REPLACED + [StartDrain(0)], Live(2, true, true), RetireDrained(0), Retiring(2, true));
    var retired := REPLACED + [StartDrain(0)] + [RetireDrained(0)];
    OvertakenClaims(Exec(maxLegs, retired).value, Retiring(2, true));
    ExecExtend(maxLegs, retired, Claim(FIRST, None));
  }
}

/** No outstanding record is ever stranded in any run of the dispatch system. */
module DispatchSafety {
  import opened Prelude
  import opened StreamTx
  import opened Dispatch
  import Ack = TxRetirement
  import Repair

  // -------------------------------------------------- what ledger operations do to claims

  function LastSent(o: map<nat, Record>, s: nat): Option<LegId> {
    if s in o then o[s].lastSentLeg else None
  }

  function OwnerOf(o: map<nat, Record>, s: nat): Option<LegId> {
    if s in o then o[s].ordinaryOwner else None
  }

  /** Nothing is claimed, sent or owned that was not before, and no record is new. */
  ghost predicate Quieter(o: map<nat, Record>, n: map<nat, Record>) {
    && n.Keys <= o.Keys
    && (forall k: Lane | k.sequence in n :: ClaimOf(n, k) == ClaimOf(o, k))
    && (forall s: nat :: LastSent(n, s) == LastSent(o, s) || LastSent(n, s).None?)
  }

  /** Exactly one lane's claim changes. */
  ghost predicate Reclaimed(o: map<nat, Record>, n: map<nat, Record>, k: Lane, a: Option<Attempt>) {
    && n.Keys == o.Keys && k.sequence in o && ClaimOf(n, k) == a
    && (forall j: Lane | j != k :: ClaimOf(n, j) == ClaimOf(o, j))
  }

  ghost predicate SameSends(o: map<nat, Record>, n: map<nat, Record>) {
    forall s: nat :: LastSent(n, s) == LastSent(o, s)
  }

  ghost predicate SameOwners(o: map<nat, Record>, n: map<nat, Record>) {
    forall s: nat :: OwnerOf(n, s) == OwnerOf(o, s) || OwnerOf(n, s).None?
  }

  /** Every claim and last send on one leg is gone, and nothing else. */
  ghost predicate Wiped(o: map<nat, Record>, n: map<nat, Record>, leg: LegId) {
    && n.Keys == o.Keys
    && (forall k: Lane :: ClaimOf(n, k) == if Claims(ClaimOf(o, k), leg, None) then None else ClaimOf(o, k))
    && (forall s: nat :: LastSent(n, s) == if LastSent(o, s) == Some(leg) then None else LastSent(o, s))
  }

  /** The dispatch-relevant part of replacing one record. */
  lemma ReplaceEffect(o: map<nat, Record>, s: nat, r: Record, rescue: bool)
    requires s in o && r.ordinaryOwner == o[s].ordinaryOwner
    requires if rescue then r.transit == o[s].transit else r.rescue == o[s].rescue
    ensures Reclaimed(o, o[s := r], Lane(s, rescue), if rescue then r.rescue else r.transit)
    ensures r.lastSentLeg == o[s].lastSentLeg ==> SameSends(o, o[s := r])
    ensures SameOwners(o, o[s := r])
  {
  }

  lemma MarkEffect(l: Ledger, k: Lane, leg: LegId, owner: Option<LegId>, now: int)
    requires WindowShape(l) && Mark(l, k, leg, owner, now).1
    ensures var n := Mark(l, k, leg, owner, now).0;
            && ClaimOf(l.outstanding, k).None?
            && Reclaimed(l.outstanding, n.outstanding, k, Some(Attempt(leg, now)))
            && SameSends(l.outstanding, n.outstanding) && SameOwners(l.outstanding, n.outstanding)
  {
    var r := Mark(l, k, leg, owner, now).0.outstanding[k.sequence];
    ReplaceEffect(l.outstanding, k.sequence, r, k.rescue);
  }

  lemma ClearEffect(l: Ledger, k: Lane, leg: LegId, started: int)
    requires WindowShape(l)
    ensures var n := ClearAttempt(l, k.sequence, leg, k.rescue, Some(started));
            var mine := ClaimOf(l.outstanding, k) == Some(Attempt(leg, started));
            && (mine ==> Reclaimed(l.outstanding, n.outstanding, k, None))
            && (!mine ==> n == l)
            && SameSends(l.outstanding, n.outstanding) && SameOwners(l.outstanding, n.outstanding)
  {
    if ClaimOf(l.outstanding, k) == Some(Attempt(leg, started)) {
      var n := ClearAttempt(l, k.sequence, leg, k.rescue, Some(started));
      ReplaceEffect(l.outstanding, k.sequence, n.outstanding[k.sequence], k.rescue);
    }
  }

  lemma SentEffect(l: Ledger, k: Lane, leg: LegId, now: int)
    requires WindowShape(l)
    ensures var (n, ok) := MarkAttemptSent(l, k.sequence, leg, k.rescue, now);
            && (ok <==> ClaimOf(l.outstanding, k).Some? && ClaimOf(l.outstanding, k).value.leg == leg)
            && (ok ==> Reclaimed(l.outstanding, n.outstanding, k, None))
            && (!ok ==> n == l)
            && SameOwners(l.outstanding, n.outstanding)
            && (forall s: nat :: LastSent(n.outstanding, s) == LastSent(l.outstanding, s)
                                 || (ok && s == k.sequence && LastSent(n.outstanding, s) == Some(leg)))
  {
    var (n, ok) := MarkAttemptSent(l, k.sequence, leg, k.rescue, now);
    if ok {
      ReplaceEffect(l.outstanding, k.sequence, n.outstanding[k.sequence], k.rescue);
    }
  }

  lemma InvalidateEffect(l: Ledger, leg: LegId)
    ensures var o, n := l.outstanding, InvalidateLeg(l, leg).outstanding;
            Wiped(o, n, leg) && SameOwners(o, n)
  {
    var o, n := l.outstanding, InvalidateLeg(l, leg).outstanding;
    assert forall s <- o :: n[s] == Invalidated(o[s], leg);
  }

  // -------------------------------------------------------------------- the ACK's effect

  lemma {:induction false} RetireDrops(t: Ack.Retirement, next: nat, head: Option<Record>, now: int)
    requires Ack.Shape(t)
    ensures var n := Ack.RetireTo(t, next, head, now).ledger;
            && n.outstanding.Keys <= t.ledger.outstanding.Keys
            && (forall k <- n.outstanding :: n.outstanding[k] == t.ledger.outstanding[k])
    decreases next - t.ledger.ackedNext
  {
    if t.ledger.ackedNext < next {
      RetireDrops(Ack.RetireFront(t, head, now), next, head, now);
    }
  }

  lemma AckEffect(l: Ledger, next: nat, now: int)
    requires Sound(l)
    ensures var n := Ack.ApplyAck(l, next, now).0.outstanding;
            Quieter(l.outstanding, n) && SameOwners(l.outstanding, n)
  {
    if l.ackedNext < next <= l.nextSequence {
      var t := Ack.RetireTo(Ack.Opening(l), next, Ack.HeadOf(l), now);
      RetireDrops(Ack.Opening(l), next, Ack.HeadOf(l), now);
      ExposeEffect(t.ledger, now);
      DropEffect(l.outstanding, t.ledger.outstanding);
    }
  }

  lemma DropEffect(o: map<nat, Record>, n: map<nat, Record>)
    requires n.Keys <= o.Keys && forall k <- n :: n[k] == o[k]
    ensures Quieter(o, n) && SameOwners(o, n)
  {
  }

  lemma ExposeEffect(l: Ledger, now: int)
    ensures var n := Ack.ExposeFrontier(l, now).outstanding;
            && n.Keys == l.outstanding.Keys
            && (forall k: Lane :: ClaimOf(n, k) == ClaimOf(l.outstanding, k))
            && (forall s: nat :: LastSent(n, s) == LastSent(l.outstanding, s))
            && (forall s: nat :: OwnerOf(n, s) == OwnerOf(l.outstanding, s))
  {
  }

  // ------------------------------------------------------------------------ the invariant

  ghost predicate CallHolds(calls: map<Lane, Call>, k: Lane, a: Attempt) {
    k in calls && calls[k].leg == a.leg && calls[k].started == a.since && calls[k].phase != Checked
  }

  /** The attempt is with the writer of the attached carrier. */
  ghost predicate WriterHolds(legs: map<LegId, Status>, slots: set<Slot>, k: Lane, a: Attempt) {
    var s := StatusOf(legs, a.leg);
    s.Live? && Slot(a.leg, s.gen, k, a.since) in slots
  }

  /** The carrier has failed and the ledger is about to be told. */
  ghost predicate AwaitsInvalidation(legs: map<LegId, Status>, leg: LegId) {
    var s := StatusOf(legs, leg);
    s.Retiring? && !s.cleared
  }

  ghost predicate Held(legs: map<LegId, Status>, slots: set<Slot>, calls: map<Lane, Call>, k: Lane, a: Attempt) {
    CallHolds(calls, k, a) || WriterHolds(legs, slots, k, a) || AwaitsInvalidation(legs, a.leg)
  }

  ghost predicate AllHeld(o: map<nat, Record>, legs: map<LegId, Status>, slots: set<Slot>, calls: map<Lane, Call>) {
    forall k: Lane | ClaimOf(o, k).Some? :: Held(legs, slots, calls, k, ClaimOf(o, k).value)
  }

  /** An attempt with the writer of an open carrier is its record's claim. */
  ghost predicate SlotTrue(o: map<nat, Record>, legs: map<LegId, Status>, q: Slot) {
    OpenAt(legs, q.leg, q.gen) && q.lane.sequence in o ==> ClaimOf(o, q.lane) == Some(Attempt(q.leg, q.started))
  }

  /** A call that has not yet enqueued finds no live attempt of its lane on its own leg. */
  ghost predicate NoOverlap(o: map<nat, Record>, legs: map<LegId, Status>, calls: map<Lane, Call>, q: Slot) {
    q.lane in calls && calls[q.lane].leg == q.leg ==>
      && q.gen <= calls[q.lane].gen
      && (q.lane.sequence in o && calls[q.lane].phase != Queued ==> !Working(legs, q))
  }

  /** While its carrier is open, a call past its claim still has it, or has passed it to the writer. */
  ghost predicate CallTrue(o: map<nat, Record>, legs: map<LegId, Status>, slots: set<Slot>, k: Lane, c: Call) {
    OpenAt(legs, c.leg, c.gen) && k.sequence in o ==>
      && (c.phase == Claimed ==> ClaimOf(o, k) == Some(Attempt(c.leg, c.started)))
      && (c.phase == Queued && ClaimOf(o, k) == Some(Attempt(c.leg, c.started)) ==>
            Slot(c.leg, c.gen, k, c.started) in slots)
  }

  /** A commit that comes after invalidation finds no claim on its leg to mistake for its own. */
  ghost predicate LateSafe(o: map<nat, Record>, legs: map<LegId, Status>, q: Slot) {
    StatusOf(legs, q.leg) == Retiring(q.gen, true) && ClaimOf(o, q.lane).Some? ==> ClaimOf(o, q.lane).value.leg != q.leg
  }

  /** A recorded last send is on the leg's present carrier, or on one about to be invalidated. */
  ghost predicate SentTrue(o: map<nat, Record>, legs: map<LegId, Status>, sent: map<nat, nat>, s: nat) {
    LastSent(o, s).Some? ==>
      && s in sent
      && var status := StatusOf(legs, LastSent(o, s).value);
         status.gen == sent[s] && (status.Live? || (status.Retiring? && !status.cleared))
  }

  ghost predicate Dated(next: nat, legs: map<LegId, Status>, slots: set<Slot>, calls: map<Lane, Call>) {
    && (forall q <- slots :: q.lane.sequence < next && q.gen <= StatusOf(legs, q.leg).gen)
    && (forall k <- calls :: k.sequence < next && calls[k].gen <= StatusOf(legs, calls[k].leg).gen)
  }

  ghost predicate SlotsSafe(o: map<nat, Record>, legs: map<LegId, Status>, slots: set<Slot>, written: set<Slot>,
                            calls: map<Lane, Call>) {
    && (forall q <- slots :: SlotTrue(o, legs, q) && NoOverlap(o, legs, calls, q))
    && written <= slots
    && (forall q <- written :: LateSafe(o, legs, q))
  }

  ghost predicate CallsSafe(o: map<nat, Record>, legs: map<LegId, Status>, slots: set<Slot>, calls: map<Lane, Call>) {
    forall k <- calls :: CallTrue(o, legs, slots, k, calls[k])
  }

  ghost predicate SendsSafe(o: map<nat, Record>, legs: map<LegId, Status>, sent: map<nat, nat>) {
    forall s: nat :: SentTrue(o, legs, sent, s)
  }

  ghost predicate Safe(o: map<nat, Record>, next: nat, legs: map<LegId, Status>, slots: set<Slot>, written: set<Slot>,
                       calls: map<Lane, Call>, sent: map<nat, nat>) {
    && AllHeld(o, legs, slots, calls)
    && SlotsSafe(o, legs, slots, written, calls)
    && CallsSafe(o, legs, slots, calls)
    && SendsSafe(o, legs, sent)
    && Dated(next, legs, slots, calls)
  }

  ghost predicate SafeState(st: State) {
    Safe(st.ledger.outstanding, st.ledger.nextSequence, st.legs, st.queue + st.written, st.written, st.calls,
        st.sentGen)
  }

  // ---------------------------------------------------------------------- ledger events

  lemma QuietSafe(o: map<nat, Record>, n: map<nat, Record>, next: nat, legs: map<LegId, Status>, slots: set<Slot>,
                  written: set<Slot>, calls: map<Lane, Call>, sent: map<nat, nat>)
    requires Safe(o, next, legs, slots, written, calls, sent) && Quieter(o, n)
    ensures Safe(n, next, legs, slots, written, calls, sent)
  {
    assert forall k: Lane :: ClaimOf(n, k) == ClaimOf(o, k) || ClaimOf(n, k).None?;
    assert forall q <- slots :: SlotTrue(o, legs, q) && NoOverlap(o, legs, calls, q)
                                ==> SlotTrue(n, legs, q) && NoOverlap(n, legs, calls, q);
    assert forall k <- calls :: CallTrue(o, legs, slots, k, calls[k]) ==> CallTrue(n, legs, slots, k, calls[k]);
    assert forall q <- written :: LateSafe(o, legs, q) ==> LateSafe(n, legs, q);
    assert forall s: nat :: SentTrue(o, legs, sent, s) ==> SentTrue(n, legs, sent, s);
  }

  /** A new record has no claim, no send, and no attempt or call anywhere. */
  lemma AddSafe(l: Ledger, payload: Bytes, now: int, local: bool, legs: map<LegId, Status>, slots: set<Slot>,
                written: set<Slot>, calls: map<Lane, Call>, sent: map<nat, nat>)
    requires Safe(l.outstanding, l.nextSequence, legs, slots, written, calls, sent) && WindowShape(l)
    ensures Safe(AddRecord(l, payload, now, local).outstanding, l.nextSequence + 1, legs, slots, written, calls, sent)
  {
    var o, n := l.outstanding, AddRecord(l, payload, now, local).outstanding;
    assert forall k: Lane :: ClaimOf(n, k) == ClaimOf(o, k);
    assert forall s: nat :: LastSent(n, s) == LastSent(o, s);
    assert forall q <- slots :: SlotTrue(o, legs, q) && NoOverlap(o, legs, calls, q)
                                ==> SlotTrue(n, legs, q) && NoOverlap(n, legs, calls, q);
    assert forall k <- calls :: CallTrue(o, legs, slots, k, calls[k]) ==> CallTrue(n, legs, slots, k, calls[k]);
    assert forall q <- written :: LateSafe(o, legs, q) ==> LateSafe(n, legs, q);
    assert forall s: nat :: SentTrue(o, legs, sent, s) ==> SentTrue(n, legs, sent, s);
  }

  // ------------------------------------------------------------------------- leg events

  /** What a leg's next status may be, given its last. */
  ghost predicate Ages(s: Status, t: Status) {
    || (s.Absent? && t == Live(s.gen + 1, true, false))
    || (s.Live? && t.Live? && t.gen == s.gen && (t.open ==> s.open))
    || (s.Live? && t == Retiring(s.gen, false))
    || (s.Retiring? && s.cleared && t == Absent(s.gen))
  }

  lemma LegSafe(o: map<nat, Record>, next: nat, legs: map<LegId, Status>, slots: set<Slot>, written: set<Slot>,
                calls: map<Lane, Call>, sent: map<nat, nat>, leg: LegId, t: Status)
    requires Safe(o, next, legs, slots, written, calls, sent) && Ages(StatusOf(legs, leg), t)
    ensures Safe(o, next, legs[leg := t], slots, written, calls, sent)
  {
    assert AllHeld(o, legs[leg := t], slots, calls) by {
      LegHolds(o, legs, slots, calls, leg, t);
    }
    assert SlotsSafe(o, legs[leg := t], slots, written, calls) by {
      LegSlots(o, next, legs, slots, written, calls, leg, t);
    }
    assert CallsSafe(o, legs[leg := t], slots, calls) by {
      LegCalls(o, next, legs, slots, calls, leg, t);
    }
    assert SendsSafe(o, legs[leg := t], sent) by {
      LegSends(o, legs, sent, leg, t);
    }
  }

  lemma LegHolds(o: map<nat, Record>, legs: map<LegId, Status>, slots: set<Slot>, calls: map<Lane, Call>, leg: LegId,
                 t: Status)
    requires AllHeld(o, legs, slots, calls) && Ages(StatusOf(legs, leg), t)
    ensures AllHeld(o, legs[leg := t], slots, calls)
  {
    forall k: Lane | ClaimOf(o, k).Some?
      ensures Held(legs[leg := t], slots, calls, k, ClaimOf(o, k).value)
    {
      assert Held(legs, slots, calls, k, ClaimOf(o, k).value);
    }
  }

  lemma LegSlots(o: map<nat, Record>, next: nat, legs: map<LegId, Status>, slots: set<Slot>, written: set<Slot>,
                 calls: map<Lane, Call>, leg: LegId, t: Status)
    requires SlotsSafe(o, legs, slots, written, calls) && Dated(next, legs, slots, calls)
    requires Ages(StatusOf(legs, leg), t)
    ensures SlotsSafe(o, legs[leg := t], slots, written, calls)
  {
    forall q <- slots
      ensures SlotTrue(o, legs[leg := t], q) && NoOverlap(o, legs[leg := t], calls, q)
    {
      assert SlotTrue(o, legs, q) && NoOverlap(o, legs, calls, q);
    }
    forall q <- written
      ensures LateSafe(o, legs[leg := t], q)
    {
      assert LateSafe(o, legs, q);
    }
  }

  lemma LegCalls(o: map<nat, Record>, next: nat, legs: map<LegId, Status>, slots: set<Slot>, calls: map<Lane, Call>,
                 leg: LegId, t: Status)
    requires CallsSafe(o, legs, slots, calls) && Dated(next, legs, slots, calls) && Ages(StatusOf(legs, leg), t)
    ensures CallsSafe(o, legs[leg := t], slots, calls)
  {
    forall k <- calls
      ensures CallTrue(o, legs[leg := t], slots, k, calls[k])
    {
      assert CallTrue(o, legs, slots, k, calls[k]);
    }
  }

  lemma LegSends(o: map<nat, Record>, legs: map<LegId, Status>, sent: map<nat, nat>, leg: LegId, t: Status)
    requires SendsSafe(o, legs, sent) && Ages(StatusOf(legs, leg), t)
    ensures SendsSafe(o, legs[leg := t], sent)
  {
    var after := legs[leg := t];
    forall s: nat
      ensures SentTrue(o, after, sent, s)
    {
      assert SentTrue(o, legs, sent, s);
    }
  }

  /** A failed carrier's claims and sends are wiped as it stops being about to be. */
  lemma InvalidateSafe(o: map<nat, Record>, n: map<nat, Record>, next: nat, legs: map<LegId, Status>, slots: set<Slot>,
                       written: set<Slot>, calls: map<Lane, Call>, sent: map<nat, nat>, leg: LegId, t: Status)
    requires Safe(o, next, legs, slots, written, calls, sent) && Wiped(o, n, leg)
    requires AwaitsInvalidation(legs, leg) && t == Retiring(StatusOf(legs, leg).gen, true)
    ensures Safe(n, next, legs[leg := t], slots, written, calls, sent)
  {
    var after := legs[leg := t];
    assert AllHeld(n, after, slots, calls) by {
      forall k: Lane | ClaimOf(n, k).Some?
        ensures Held(after, slots, calls, k, ClaimOf(n, k).value)
      {
        assert ClaimOf(n, k) == ClaimOf(o, k) && Held(legs, slots, calls, k, ClaimOf(o, k).value);
      }
    }
    assert SlotsSafe(n, after, slots, written, calls) by {
      InvalidateSlots(o, n, legs, slots, written, calls, leg, t);
    }
    assert CallsSafe(n, after, slots, calls) by {
      forall k <- calls
        ensures CallTrue(n, after, slots, k, calls[k])
      {
        assert CallTrue(o, legs, slots, k, calls[k]);
        assert ClaimOf(n, k) == if Claims(ClaimOf(o, k), leg, None) then None else ClaimOf(o, k);
      }
    }
    assert SendsSafe(n, after, sent) by {
      forall s: nat
        ensures SentTrue(n, after, sent, s)
      {
        assert SentTrue(o, legs, sent, s);
      }
    }
  }

  lemma InvalidateSlots(o: map<nat, Record>, n: map<nat, Record>, legs: map<LegId, Status>, slots: set<Slot>,
                        written: set<Slot>, calls: map<Lane, Call>, leg: LegId, t: Status)
    requires SlotsSafe(o, legs, slots, written, calls) && Wiped(o, n, leg)
    requires AwaitsInvalidation(legs, leg) && t == Retiring(StatusOf(legs, leg).gen, true)
    ensures SlotsSafe(n, legs[leg := t], slots, written, calls)
  {
    forall q <- slots
      ensures SlotTrue(n, legs[leg := t], q) && NoOverlap(n, legs[leg := t], calls, q)
    {
      assert SlotTrue(o, legs, q) && NoOverlap(o, legs, calls, q);
    }
    forall q <- written
      ensures LateSafe(n, legs[leg := t], q)
    {
      assert LateSafe(o, legs, q);
      assert ClaimOf(n, q.lane) == if Claims(ClaimOf(o, q.lane), leg, None) then None else ClaimOf(o, q.lane);
    }
  }

  /** A drained carrier nothing depends on may leave without any invalidation. */
  lemma RetireSafe(o: map<nat, Record>, next: nat, legs: map<LegId, Status>, slots: set<Slot>, written: set<Slot>,
                   calls: map<Lane, Call>, sent: map<nat, nat>, leg: LegId)
    requires Safe(o, next, legs, slots, written, calls, sent)
    requires StatusOf(legs, leg).Live? && StatusOf(legs, leg).open && !DependedOn(o, leg)
    ensures Safe(o, next, legs[leg := Retiring(StatusOf(legs, leg).gen, true)], slots, written, calls, sent)
  {
    var after := legs[leg := Retiring(StatusOf(legs, leg).gen, true)];
    Independent(o, leg);
    assert AllHeld(o, after, slots, calls) by {
      forall k: Lane | ClaimOf(o, k).Some?
        ensures Held(after, slots, calls, k, ClaimOf(o, k).value)
      {
        assert Held(legs, slots, calls, k, ClaimOf(o, k).value);
      }
    }
    assert SlotsSafe(o, after, slots, written, calls) by {
      forall q <- slots
        ensures SlotTrue(o, after, q) && NoOverlap(o, after, calls, q)
      {
        assert SlotTrue(o, legs, q) && NoOverlap(o, legs, calls, q);
      }
      forall q <- written
        ensures LateSafe(o, after, q)
      {
        assert LateSafe(o, legs, q);
      }
    }
    assert CallsSafe(o, after, slots, calls) by {
      forall k <- calls
        ensures CallTrue(o, after, slots, k, calls[k])
      {
        assert CallTrue(o, legs, slots, k, calls[k]);
      }
    }
    assert SendsSafe(o, after, sent) by {
      forall s: nat
        ensures SentTrue(o, after, sent, s)
      {
        assert SentTrue(o, legs, sent, s);
      }
    }
  }

  lemma Independent(o: map<nat, Record>, leg: LegId)
    requires !DependedOn(o, leg)
    ensures forall k: Lane | ClaimOf(o, k).Some? :: ClaimOf(o, k).value.leg != leg
    ensures forall s: nat :: LastSent(o, s) != Some(leg) && OwnerOf(o, s) != Some(leg)
  {
    forall k: Lane | ClaimOf(o, k).Some?
      ensures ClaimOf(o, k).value.leg != leg
    {
      assert !DependsOn(o[k.sequence], leg);
    }
    forall s: nat
      ensures LastSent(o, s) != Some(leg) && OwnerOf(o, s) != Some(leg)
    {
      assert s in o ==> !DependsOn(o[s], leg);
    }
  }

  // ----------------------------------------------------------------------- queue calls

  lemma BeginSafe(o: map<nat, Record>, next: nat, legs: map<LegId, Status>, slots: set<Slot>, written: set<Slot>,
                  calls: map<Lane, Call>, sent: map<nat, nat>, k: Lane, c: Call)
    requires Safe(o, next, legs, slots, written, calls, sent)
    requires k !in calls && k.sequence < next && ClaimOf(o, k).None?
    requires OpenAt(legs, c.leg, c.gen) && c.phase == Checked
    ensures Safe(o, next, legs, slots, written, calls[k := c], sent)
  {
    assert AllHeld(o, legs, slots, calls[k := c]) by {
      forall j: Lane | ClaimOf(o, j).Some?
        ensures Held(legs, slots, calls[k := c], j, ClaimOf(o, j).value)
      {
        assert Held(legs, slots, calls, j, ClaimOf(o, j).value);
      }
    }
    assert SlotsSafe(o, legs, slots, written, calls[k := c]) by {
      forall q <- slots
        ensures SlotTrue(o, legs, q) && NoOverlap(o, legs, calls[k := c], q)
      {
        assert SlotTrue(o, legs, q) && NoOverlap(o, legs, calls, q);
      }
    }
    assert CallsSafe(o, legs, slots, calls[k := c]) by {
      forall j <- calls
        ensures CallTrue(o, legs, slots, j, calls[j])
      {
      }
    }
  }

  lemma ClaimSafe(o: map<nat, Record>, n: map<nat, Record>, next: nat, legs: map<LegId, Status>, slots: set<Slot>,
                  written: set<Slot>, calls: map<Lane, Call>, sent: map<nat, nat>, k: Lane, now: int)
    requires Safe(o, next, legs, slots, written, calls, sent) && k in calls && calls[k].phase == Checked
    requires ClaimOf(o, k).None? && Reclaimed(o, n, k, Some(Attempt(calls[k].leg, now))) && SameSends(o, n)
    ensures Safe(n, next, legs, slots, written, calls[k := calls[k].(started := now, phase := Claimed)], sent)
  {
    var after := calls[k := calls[k].(started := now, phase := Claimed)];
    assert AllHeld(n, legs, slots, after) by {
      forall j: Lane | ClaimOf(n, j).Some?
        ensures Held(legs, slots, after, j, ClaimOf(n, j).value)
      {
        if j != k {
          assert Held(legs, slots, calls, j, ClaimOf(o, j).value);
        } else {
          assert CallHolds(after, k, ClaimOf(n, k).value);
        }
      }
    }
    assert SlotsSafe(n, legs, slots, written, after) by {
      forall q <- slots
        ensures SlotTrue(n, legs, q) && NoOverlap(n, legs, after, q)
      {
        assert SlotTrue(o, legs, q) && NoOverlap(o, legs, calls, q);
      }
      forall q <- written
        ensures LateSafe(n, legs, q)
      {
        assert LateSafe(o, legs, q) && NoOverlap(o, legs, calls, q);
      }
    }
    assert CallsSafe(n, legs, slots, after) by {
      forall j <- after
        ensures CallTrue(n, legs, slots, j, after[j])
      {
        assert j != k ==> CallTrue(o, legs, slots, j, calls[j]);
      }
    }
    assert SendsSafe(n, legs, sent) by {
      forall s: nat
        ensures SentTrue(n, legs, sent, s)
      {
        assert SentTrue(o, legs, sent, s);
      }
    }
  }

  /** The claim goes to the writer together with the attempt. */
  lemma EnqueueSafe(o: map<nat, Record>, next: nat, legs: map<LegId, Status>, slots: set<Slot>, written: set<Slot>,
                    calls: map<Lane, Call>, sent: map<nat, nat>, k: Lane)
    requires Safe(o, next, legs, slots, written, calls, sent) && k in calls && calls[k].phase == Claimed
    ensures var c := calls[k];
            Safe(o, next, legs, slots + {Slot(c.leg, c.gen, k, c.started)}, written,
                calls[k := c.(phase := Queued)], sent)
  {
    var c := calls[k];
    var more, after := slots + {Slot(c.leg, c.gen, k, c.started)}, calls[k := c.(phase := Queued)];
    assert AllHeld(o, legs, more, after) by {
      forall j: Lane | ClaimOf(o, j).Some?
        ensures Held(legs, more, after, j, ClaimOf(o, j).value)
      {
        assert Held(legs, slots, calls, j, ClaimOf(o, j).value);
      }
    }
    assert SlotsSafe(o, legs, more, written, after) by {
      assert CallTrue(o, legs, slots, k, c);
      forall q <- more
        ensures SlotTrue(o, legs, q) && NoOverlap(o, legs, after, q)
      {
        assert q in slots ==> SlotTrue(o, legs, q) && NoOverlap(o, legs, calls, q);
      }
    }
    assert CallsSafe(o, legs, more, after) by {
      forall j <- after
        ensures CallTrue(o, legs, more, j, after[j])
      {
        assert CallTrue(o, legs, slots, j, calls[j]);
      }
    }
  }

  /** A call ends: with its claim withdrawn, or with the claim already the open carrier's. */
  lemma EndCallSafe(o: map<nat, Record>, n: map<nat, Record>, next: nat, legs: map<LegId, Status>, slots: set<Slot>,
                    written: set<Slot>, calls: map<Lane, Call>, sent: map<nat, nat>, k: Lane)
    requires Safe(o, next, legs, slots, written, calls, sent) && k in calls
    requires var c := calls[k];
             var mine := ClaimOf(o, k) == Some(Attempt(c.leg, c.started));
             || (n == o && (c.phase == Checked || !mine || (c.phase == Queued && OpenAt(legs, c.leg, c.gen))))
             || (mine && Reclaimed(o, n, k, None) && SameSends(o, n)
                 && (c.phase == Claimed || (c.phase == Queued && !OpenAt(legs, c.leg, c.gen))))
    ensures Safe(n, next, legs, slots, written, calls - {k}, sent)
  {
    var c := calls[k];
    assert CallTrue(o, legs, slots, k, c);
    assert AllHeld(n, legs, slots, calls - {k}) by {
      forall j: Lane | ClaimOf(n, j).Some?
        ensures Held(legs, slots, calls - {k}, j, ClaimOf(n, j).value)
      {
        assert Held(legs, slots, calls, j, ClaimOf(o, j).value);
      }
    }
    assert SlotsSafe(n, legs, slots, written, calls - {k}) by {
      EndCallSlots(o, n, next, legs, slots, written, calls, k);
    }
    assert CallsSafe(n, legs, slots, calls - {k}) by {
      forall j <- calls - {k}
        ensures CallTrue(n, legs, slots, j, calls[j])
      {
        assert CallTrue(o, legs, slots, j, calls[j]);
      }
    }
    assert SendsSafe(n, legs, sent) by {
      forall s: nat
        ensures SentTrue(n, legs, sent, s)
      {
        assert SentTrue(o, legs, sent, s);
      }
    }
  }

  /** Withdrawing a claim never takes it from the writer of an open carrier. */
  lemma EndCallSlots(o: map<nat, Record>, n: map<nat, Record>, next: nat, legs: map<LegId, Status>, slots: set<Slot>,
                     written: set<Slot>, calls: map<Lane, Call>, k: Lane)
    requires SlotsSafe(o, legs, slots, written, calls) && Dated(next, legs, slots, calls) && k in calls
    requires var c := calls[k];
             || n == o
             || (ClaimOf(o, k) == Some(Attempt(c.leg, c.started)) && Reclaimed(o, n, k, None)
                 && (c.phase == Claimed || !OpenAt(legs, c.leg, c.gen)))
    ensures SlotsSafe(n, legs, slots, written, calls - {k})
  {
    forall q <- slots
      ensures SlotTrue(n, legs, q) && NoOverlap(n, legs, calls - {k}, q)
    {
      assert SlotTrue(o, legs, q) && NoOverlap(o, legs, calls, q);
    }
    forall q <- written
      ensures LateSafe(n, legs, q)
    {
      assert LateSafe(o, legs, q);
    }
  }

  // --------------------------------------------------------------------------- writers

  /** An attempt leaves its writer: its claim on this leg, if still there, goes with it. */
  lemma LeaveSafe(o: map<nat, Record>, n: map<nat, Record>, next: nat, legs: map<LegId, Status>, slots: set<Slot>,
                  written: set<Slot>, calls: map<Lane, Call>, sent: map<nat, nat>, q: Slot, later: map<nat, nat>)
    requires Safe(o, next, legs, slots, written, calls, sent) && q in slots && Working(legs, q)
    requires SendsSafe(n, legs, later)
    requires var mine := ClaimOf(o, q.lane).Some? && ClaimOf(o, q.lane).value.leg == q.leg;
             || (n == o && ClaimOf(o, q.lane) != Some(Attempt(q.leg, q.started)))
             || (mine && Reclaimed(o, n, q.lane, None))
    ensures Safe(n, next, legs, slots - {q}, written - {q}, calls, later)
  {
    assert SlotTrue(o, legs, q) && NoOverlap(o, legs, calls, q);
    assert AllHeld(n, legs, slots - {q}, calls) by {
      forall j: Lane | ClaimOf(n, j).Some?
        ensures Held(legs, slots - {q}, calls, j, ClaimOf(n, j).value)
      {
        assert Held(legs, slots, calls, j, ClaimOf(o, j).value);
      }
    }
    assert SlotsSafe(n, legs, slots - {q}, written - {q}, calls) by {
      forall p <- slots - {q}
        ensures SlotTrue(n, legs, p) && NoOverlap(n, legs, calls, p)
      {
        assert SlotTrue(o, legs, p) && NoOverlap(o, legs, calls, p);
      }
      forall p <- written - {q}
        ensures LateSafe(n, legs, p)
      {
        assert LateSafe(o, legs, p);
      }
    }
    assert CallsSafe(n, legs, slots - {q}, calls) by {
      forall j <- calls
        ensures CallTrue(n, legs, slots - {q}, j, calls[j])
      {
        assert CallTrue(o, legs, slots, j, calls[j]);
      }
    }
  }

  lemma SendsFrame(o: map<nat, Record>, n: map<nat, Record>, legs: map<LegId, Status>, sent: map<nat, nat>)
    requires SendsSafe(o, legs, sent) && SameSends(o, n)
    ensures SendsSafe(n, legs, sent)
  {
    forall s: nat
      ensures SentTrue(n, legs, sent, s)
    {
      assert SentTrue(o, legs, sent, s);
    }
  }

  /** A commit is recorded only while its carrier is attached or about to be invalidated. */
  lemma CommitSends(l: Ledger, legs: map<LegId, Status>, sent: map<nat, nat>, q: Slot, now: int)
    requires WindowShape(l) && SendsSafe(l.outstanding, legs, sent)
    requires Working(legs, q) && LateSafe(l.outstanding, legs, q)
    ensures var (n, ok) := MarkAttemptSent(l, q.lane.sequence, q.leg, q.lane.rescue, now);
            SendsSafe(n.outstanding, legs, NoteSend(sent, n.outstanding, ok, q))
  {
    var (n, ok) := MarkAttemptSent(l, q.lane.sequence, q.leg, q.lane.rescue, now);
    SentEffect(l, q.lane, q.leg, now);
    if ok {
      var later := NoteSend(sent, n.outstanding, ok, q);
      forall s: nat
        ensures SentTrue(n.outstanding, legs, later, s)
      {
        assert SentTrue(l.outstanding, legs, sent, s);
      }
    }
  }

  lemma CommitSafe(l: Ledger, legs: map<LegId, Status>, slots: set<Slot>, written: set<Slot>, calls: map<Lane, Call>,
                   sent: map<nat, nat>, q: Slot, now: int)
    requires WindowShape(l) && Safe(l.outstanding, l.nextSequence, legs, slots, written, calls, sent)
    requires q in written && Working(legs, q)
    ensures var (n, ok) := MarkAttemptSent(l, q.lane.sequence, q.leg, q.lane.rescue, now);
            Safe(n.outstanding, l.nextSequence, legs, slots - {q}, written - {q}, calls,
                 NoteSend(sent, n.outstanding, ok, q))
  {
    var (n, ok) := MarkAttemptSent(l, q.lane.sequence, q.leg, q.lane.rescue, now);
    SentEffect(l, q.lane, q.leg, now);
    CommitSends(l, legs, sent, q, now);
    LeaveSafe(l.outstanding, n.outstanding, l.nextSequence, legs, slots, written, calls, sent, q,
              NoteSend(sent, n.outstanding, ok, q));
  }

  lemma GiveUpSafe(l: Ledger, legs: map<LegId, Status>, slots: set<Slot>, written: set<Slot>, calls: map<Lane, Call>,
                   sent: map<nat, nat>, q: Slot)
    requires WindowShape(l) && Safe(l.outstanding, l.nextSequence, legs, slots, written, calls, sent)
    requires q in slots && Working(legs, q)
    ensures Safe(ClearAttempt(l, q.lane.sequence, q.leg, q.lane.rescue, Some(q.started)).outstanding,
        l.nextSequence, legs,
                 slots - {q}, written - {q}, calls, sent)
  {
    var n := ClearAttempt(l, q.lane.sequence, q.leg, q.lane.rescue, Some(q.started)).outstanding;
    ClearEffect(l, q.lane, q.leg, q.started);
    SendsFrame(l.outstanding, n, legs, sent);
    LeaveSafe(l.outstanding, n, l.nextSequence, legs, slots, written, calls, sent, q, sent);
  }

  lemma WriteSafe(o: map<nat, Record>, next: nat, legs: map<LegId, Status>, slots: set<Slot>, written: set<Slot>,
                  calls: map<Lane, Call>, sent: map<nat, nat>, q: Slot)
    requires Safe(o, next, legs, slots, written, calls, sent) && q in slots && RegisteredAt(legs, q.leg, q.gen)
    ensures Safe(o, next, legs, slots, written + {q}, calls, sent)
  {
  }

  // ------------------------------------------------------------------------ every step

  lemma LedgerStepSafe(st: State, step: Step)
    requires Sound(st.ledger) && SafeState(st) && LedgerStep(st, step).Some?
    ensures SafeState(LedgerStep(st, step).value)
  {
    var l, slots := st.ledger, st.queue + st.written;
    match step
    case Add(payload, local) =>
      AddSafe(l, payload, st.clock, local, st.legs, slots, st.written, st.calls, st.sentGen);
    case EndLocal(s) =>
      LocalQuiet(l, s);
      QuietSafe(l.outstanding, FinishLocalEnqueue(l, s).outstanding, l.nextSequence, st.legs, slots, st.written,
          st.calls,
                st.sentGen);
    case Choose(_, _) =>
    case Assign(s, leg) =>
      AssignQuiet(l, s, leg, st.clock);
      QuietSafe(l.outstanding, AssignOrdinary(l, s, leg, st.clock).0.outstanding, l.nextSequence, st.legs, slots,
                st.written, st.calls, st.sentGen);
    case Acked(next) =>
      AckEffect(l, next, st.clock);
      Ack.AckKeepsSound(l, next, st.clock);
      QuietSafe(l.outstanding, Ack.ApplyAck(l, next, st.clock).0.outstanding, l.nextSequence, st.legs, slots,
          st.written,
                st.calls, st.sentGen);
  }

  lemma LocalQuiet(l: Ledger, s: nat)
    requires WindowShape(l)
    ensures Quieter(l.outstanding, FinishLocalEnqueue(l, s).outstanding)
    ensures FinishLocalEnqueue(l, s).nextSequence == l.nextSequence
    ensures SameOwners(l.outstanding, FinishLocalEnqueue(l, s).outstanding)
  {
  }

  lemma AssignQuiet(l: Ledger, s: nat, leg: LegId, now: int)
    requires Sound(l)
    ensures Quieter(l.outstanding, AssignOrdinary(l, s, leg, now).0.outstanding)
    ensures AssignOrdinary(l, s, leg, now).0.nextSequence == l.nextSequence
    ensures forall k: nat :: OwnerOf(AssignOrdinary(l, s, leg, now).0.outstanding, k)
                             in {OwnerOf(l.outstanding, k), Some(leg)}
  {
  }

  lemma LegStepSafe(st: State, step: Step)
    requires SafeState(st) && LegStep(st, step).Some?
    ensures SafeState(LegStep(st, step).value)
  {
    var o, next, slots := st.ledger.outstanding, st.ledger.nextSequence, st.queue + st.written;
    var after := LegStep(st, step).value;
    if step.Invalidate? {
      var n := InvalidateLeg(st.ledger, step.leg).outstanding;
      InvalidateEffect(st.ledger, step.leg);
      InvalidateSafe(o, n, next, st.legs, slots, st.written, st.calls, st.sentGen, step.leg,
                     Retiring(StatusOf(st.legs, step.leg).gen, true));
    } else if step.RetireDrained? {
      RetireSafe(o, next, st.legs, slots, st.written, st.calls, st.sentGen, step.leg);
    } else {
      LegSafe(o, next, st.legs, slots, st.written, st.calls, st.sentGen, step.leg, after.legs[step.leg]);
    }
  }

  lemma CallStepSafe(st: State, step: Step)
    requires WindowShape(st.ledger) && SafeState(st) && CallStep(st, step).Some?
    ensures SafeState(CallStep(st, step).value)
  {
    var l, slots := st.ledger, st.queue + st.written;
    var o := l.outstanding;
    match step
    case Begin(k, leg) =>
      BeginSafe(o, l.nextSequence, st.legs, slots, st.written, st.calls, st.sentGen, k,
                Call(leg, StatusOf(st.legs, leg).gen, st.clock, Checked));
    case Claim(k, owner) => ClaimStepSafe(st, k, owner);
    case Enqueue(k) =>
      var c := st.calls[k];
      EnqueueSafe(o, l.nextSequence, st.legs, slots, st.written, st.calls, st.sentGen, k);
      assert st.queue + {Slot(c.leg, c.gen, k, c.started)} + st.written == slots + {Slot(c.leg, c.gen, k, c.started)};
    case Reject(k) => EndStepSafe(st, k, Clear(l, k, st.calls[k]));
    case Finish(k) =>
      var c := st.calls[k];
      EndStepSafe(st, k, if OpenAt(st.legs, c.leg, c.gen) then l else Clear(l, k, c));
  }

  lemma ClaimStepSafe(st: State, k: Lane, owner: Option<LegId>)
    requires WindowShape(st.ledger) && SafeState(st) && CallStep(st, Claim(k, owner)).Some?
    ensures SafeState(CallStep(st, Claim(k, owner)).value)
  {
    var l, slots, c, now := st.ledger, st.queue + st.written, st.calls[k], st.clock + 1;
    var (n, ok) := Mark(l, k, c.leg, owner, now);
    if ok {
      MarkEffect(l, k, c.leg, owner, now);
      ClaimSafe(l.outstanding, n.outstanding, l.nextSequence, st.legs, slots, st.written, st.calls, st.sentGen, k, now);
    } else {
      EndCallSafe(l.outstanding, l.outstanding, l.nextSequence, st.legs, slots, st.written, st.calls, st.sentGen, k);
    }
  }

  lemma EndStepSafe(st: State, k: Lane, n: Ledger)
    requires WindowShape(st.ledger) && SafeState(st) && k in st.calls && st.calls[k].phase != Checked
    requires var c := st.calls[k];
             || (n == st.ledger && c.phase == Queued && OpenAt(st.legs, c.leg, c.gen))
             || (n == Clear(st.ledger, k, c) && (c.phase == Claimed || !OpenAt(st.legs, c.leg, c.gen)))
    ensures SafeState(st.(ledger := n, calls := st.calls - {k}))
  {
    var l, slots, c := st.ledger, st.queue + st.written, st.calls[k];
    ClearEffect(l, k, c.leg, c.started);
    EndCallSafe(l.outstanding, n.outstanding, l.nextSequence, st.legs, slots, st.written, st.calls, st.sentGen, k);
  }

  lemma WriterStepSafe(st: State, step: Step)
    requires WindowShape(st.ledger) && SafeState(st) && st.queue !! st.written && WriterStep(st, step).Some?
    ensures SafeState(WriterStep(st, step).value)
  {
    var l, slots := st.ledger, st.queue + st.written;
    match step
    case Write(q) =>
      WriteSafe(l.outstanding, l.nextSequence, st.legs, slots, st.written, st.calls, st.sentGen, q);
      assert st.queue - {q} + (st.written + {q}) == slots;
    case Commit(q) =>
      CommitSafe(l, st.legs, slots, st.written, st.calls, st.sentGen, q, st.clock);
      assert st.queue + (st.written - {q}) == slots - {q};
      SentEffect(l, q.lane, q.leg, st.clock);
    case Drop(q) =>
      LeaveSafe(l.outstanding, l.outstanding, l.nextSequence, st.legs, slots, st.written, st.calls, st.sentGen, q,
          st.sentGen);
      assert st.queue - {q} + st.written == slots - {q} && st.written - {q} == st.written;
    case GiveUp(q) =>
      GiveUpSafe(l, st.legs, slots, st.written, st.calls, st.sentGen, q);
      assert st.queue - {q} + st.written == slots - {q} && st.written - {q} == st.written;
  }

  /** Attempts have identities of their own: no attempt is both waiting and written, and a claim
      not yet enqueued has no attempt. */
  ghost predicate Fresh(st: State) {
    && st.queue !! st.written
    && (forall q <- st.queue + st.written :: q.started <= st.clock)
    && (forall k <- st.calls | st.calls[k].phase == Claimed ::
          Slot(st.calls[k].leg, st.calls[k].gen, k, st.calls[k].started) !in st.queue + st.written)
    && (forall k <- st.calls :: st.calls[k].started <= st.clock)
  }

  lemma FreshKept(st: State, step: Step)
    requires Sound(st.ledger) && Fresh(st) && Next(st, step).Some?
    ensures Fresh(Next(st, step).value)
  {
    if step.Begin? || step.Claim? || step.Enqueue? || step.Reject? || step.Finish? {
      FreshCall(st, step);
    } else if step.Write? || step.Commit? || step.Drop? || step.GiveUp? {
      FreshWriter(st, step);
    }
  }

  lemma FreshCall(st: State, step: Step)
    requires Fresh(st) && CallStep(st, step).Some?
    ensures Fresh(CallStep(st, step).value)
  {
  }

  lemma FreshWriter(st: State, step: Step)
    requires Fresh(st) && WriterStep(st, step).Some?
    ensures Fresh(WriterStep(st, step).value)
  {
  }

  // ------------------------------------------------------------------------ whole runs

  lemma SoundKept(st: State, step: Step)
    requires Sound(st.ledger) && Next(st, step).Some?
    ensures Sound(Next(st, step).value.ledger)
  {
    var l, n := st.ledger, Next(st, step).value.ledger;
    match step
    case Add(payload, local) => AddKeepsSound(l, payload, st.clock, local);
    case Assign(s, leg) => AssignKeepsSound(l, s, leg, st.clock);
    case Acked(next) => Ack.AckKeepsSound(l, next, st.clock);
    case _ =>
      StakesKept(st, step);
      SameStakesKeepSound(l, n);
  }

  lemma StakesKept(st: State, step: Step)
    requires Sound(st.ledger) && Next(st, step).Some? && !step.Add? && !step.Assign? && !step.Acked?
    ensures SameStakes(st.ledger, Next(st, step).value.ledger)
  {
    if step.EndLocal? {
      LocalKeepsStakes(st.ledger, step.sequence);
    } else if step.Begin? || step.Claim? || step.Enqueue? || step.Reject? || step.Finish? {
      CallStakes(st, step);
    } else if step.Write? || step.Commit? || step.Drop? || step.GiveUp? {
      WriterStakes(st, step);
    } else if step.Invalidate? {
      InvalidateKeepsStakes(st.ledger, step.leg);
    }
  }

  lemma CallStakes(st: State, step: Step)
    requires WindowShape(st.ledger) && CallStep(st, step).Some?
    ensures SameStakes(st.ledger, CallStep(st, step).value.ledger)
  {
    var l := st.ledger;
    match step
    case Claim(k, owner) => ClaimStakes(st, k, owner);
    case Reject(k) => ClearStakes(l, k, st.calls[k]);
    case Finish(k) => ClearStakes(l, k, st.calls[k]);
    case _ =>
  }

  lemma ClaimStakes(st: State, k: Lane, owner: Option<LegId>)
    requires WindowShape(st.ledger) && CallStep(st, Claim(k, owner)).Some?
    ensures SameStakes(st.ledger, CallStep(st, Claim(k, owner)).value.ledger)
  {
    MarkStakes(st.ledger, k, st.calls[k].leg, owner, st.clock + 1);
  }

  lemma MarkStakes(l: Ledger, k: Lane, leg: LegId, owner: Option<LegId>, now: int)
    requires WindowShape(l)
    ensures SameStakes(l, Mark(l, k, leg, owner, now).0)
  {
    if k.rescue {
      RescueKeepsStakes(l, k.sequence, leg, owner, now);
    } else {
      ClaimKeepsStakes(l, k.sequence, leg, now);
    }
  }

  lemma ClearStakes(l: Ledger, k: Lane, c: Call)
    requires WindowShape(l)
    ensures SameStakes(l, Clear(l, k, c))
  {
    ClearKeepsStakes(l, k.sequence, c.leg, k.rescue, Some(c.started));
  }

  lemma WriterStakes(st: State, step: Step)
    requires WindowShape(st.ledger) && WriterStep(st, step).Some?
    ensures SameStakes(st.ledger, WriterStep(st, step).value.ledger)
  {
    var l := st.ledger;
    match step
    case Commit(q) => SentKeepsStakes(l, q.lane.sequence, q.leg, q.lane.rescue, st.clock);
    case GiveUp(q) => ClearKeepsStakes(l, q.lane.sequence, q.leg, q.lane.rescue, Some(q.started));
    case _ =>
  }

  function Start(maxLegs: nat): State {
    State(EmptyLedger(maxLegs), map[], {}, {}, map[], None, 0, map[], {})
  }

  ghost function Exec(maxLegs: nat, steps: seq<Step>): (r: Option<State>)
    ensures r.Some? ==> Sound(r.value.ledger)
  {
    if steps == [] then EmptySound(maxLegs); Some(Start(maxLegs))
    else
      var before := Exec(maxLegs, steps[..|steps| - 1]);
      if before.None? || Next(before.value, steps[|steps| - 1]).None? then None
      else
        SoundKept(before.value, steps[|steps| - 1]);
        Next(before.value, steps[|steps| - 1])
  }

  /** A drained leg has no carrier, nor one about to be invalidated. */
  ghost predicate DrainedGone(st: State) {
    forall leg <- st.drained :: !StatusOf(st.legs, leg).Live? && !AwaitsInvalidation(st.legs, leg)
  }

  ghost predicate Inv(st: State) {
    Sound(st.ledger) && SafeState(st) && Fresh(st) && DrainedGone(st)
  }

  lemma SafeKept(st: State, step: Step)
    requires Sound(st.ledger) && SafeState(st) && Fresh(st) && Next(st, step).Some?
    ensures SafeState(Next(st, step).value)
  {
    if step.Add? || step.EndLocal? || step.Choose? || step.Assign? || step.Acked? {
      LedgerStepSafe(st, step);
    } else if step.Begin? || step.Claim? || step.Enqueue? || step.Reject? || step.Finish? {
      CallStepSafe(st, step);
    } else if step.Write? || step.Commit? || step.Drop? || step.GiveUp? {
      WriterStepSafe(st, step);
    } else {
      LegStepSafe(st, step);
    }
  }

  lemma DrainedKept(st: State, step: Step)
    requires Sound(st.ledger) && DrainedGone(st) && Next(st, step).Some?
    ensures DrainedGone(Next(st, step).value)
  {
  }

  lemma InvKept(st: State, step: Step)
    requires Inv(st) && Next(st, step).Some?
    ensures Inv(Next(st, step).value)
  {
    SoundKept(st, step);
    SafeKept(st, step);
    FreshKept(st, step);
    DrainedKept(st, step);
  }

  lemma {:induction false} RunKeeps(maxLegs: nat, steps: seq<Step>)
    requires Exec(maxLegs, steps).Some?
    ensures Inv(Exec(maxLegs, steps).value)
  {
    if steps == [] {
      EmptySound(maxLegs);
    } else {
      RunKeeps(maxLegs, steps[..|steps| - 1]);
      InvKept(Exec(maxLegs, steps[..|steps| - 1]).value, steps[|steps| - 1]);
    }
  }

  // --------------------------------------------------------------------------- theorems

  /** Who will see to a record: the caller that is enqueueing it, the call, writer or failure
      handler that holds one of its claims, the present carrier of the leg it was last sent on,
      or the retry planner. */
  ghost predicate Attended(st: State, s: nat)
    requires s in st.ledger.outstanding
  {
    var o := st.ledger.outstanding;
    || o[s].localEnqueue
    || (exists k: Lane :: k.sequence == s && ClaimOf(o, k).Some?
                    && Held(st.legs, st.queue + st.written, st.calls, k, ClaimOf(o, k).value))
    || (LastSent(o, s).Some? && LastSent(o, s).value in Available(st.legs) && s in st.sentGen
        && StatusOf(st.legs, LastSent(o, s).value).gen == st.sentGen[s])
    || Repair.NeedsRetry(o[s], Available(st.legs))
  }

  /** No record is ever stranded: in every state of every run, every outstanding record is
      attended to - across carrier failures, late commits and same-ID replacements. */
  lemma NoStrandedData(maxLegs: nat, steps: seq<Step>, s: nat)
    requires Exec(maxLegs, steps).Some? && s in Exec(maxLegs, steps).value.ledger.outstanding
    ensures Attended(Exec(maxLegs, steps).value, s)
  {
    RunKeeps(maxLegs, steps);
    var st := Exec(maxLegs, steps).value;
    var o := st.ledger.outstanding;
    if ClaimOf(o, Lane(s, false)).Some? {
      assert Held(st.legs, st.queue + st.written, st.calls, Lane(s, false), ClaimOf(o, Lane(s, false)).value);
    } else if ClaimOf(o, Lane(s, true)).Some? {
      assert Held(st.legs, st.queue + st.written, st.calls, Lane(s, true), ClaimOf(o, Lane(s, true)).value);
    } else {
      assert SentTrue(o, st.legs, st.sentGen, s);
    }
  }

  /** Between queue calls and failures: every claim is with the writer of its leg's one attached
      generation. */
  lemma QuietClaims(maxLegs: nat, steps: seq<Step>, k: Lane)
    requires Exec(maxLegs, steps).Some? && Exec(maxLegs, steps).value.calls == map[]
    requires ClaimOf(Exec(maxLegs, steps).value.ledger.outstanding, k).Some?
    ensures var st := Exec(maxLegs, steps).value;
            var a := ClaimOf(st.ledger.outstanding, k).value;
            WriterHolds(st.legs, st.queue + st.written, k, a) || AwaitsInvalidation(st.legs, a.leg)
  {
    RunKeeps(maxLegs, steps);
  }
}

/** StreamTXLedger as the object it is: one owner of the counters and the
    outstanding map, each method proved to perform the ledger transition it names. */
module TxLedger {
  import opened Prelude
  import opened StreamTx
  import opened TxRetirement

  /** Rewrites every record, in an arbitrary order, as Go's map range does. */
  method RewriteAll<V>(records: map<nat, V>, f: V -> V) returns (after: map<nat, V>)
    ensures after == map k | k in records :: f(records[k])
  {
    after := records;
    var todo := records.Keys;
    while todo != {}
      invariant after.Keys == records.Keys && todo <= records.Keys
      invariant forall k <- todo :: after[k] == records[k]
      invariant forall k <- records.Keys - todo :: after[k] == f(records[k])
      decreases |todo|
    {
      var k :| k in todo;
      after := after[k := f(records[k])];
      todo := todo - {k};
    }
  }

  ghost function Dependents(records: map<nat, Record>, leg: LegId): set<nat> {
    set k | k in records && DependsOn(records[k], leg)
  }

  method CountDependents(records: map<nat, Record>, leg: LegId) returns (count: nat)
    ensures count == |Dependents(records, leg)|
  {
    count := 0;
    var todo := records;
    while todo != map[]
      invariant count + |Dependents(todo, leg)| == |Dependents(records, leg)|
      decreases |todo|
    {
      var k :| k in todo;
      var rest := todo - {k};
      if DependsOn(todo[k], leg) {
        assert Dependents(todo, leg) == Dependents(rest, leg) + {k};
        count := count + 1;
      } else {
        assert Dependents(todo, leg) == Dependents(rest, leg);
      }
      todo := rest;
    }
  }

  class Ledger {
    var nextSequence: nat
    var ackedNext: nat
    var outstanding: map<nat, Record>
    var futureAcks: nat
    var lastAckProgress: Time
    var ordinaryFrames: seq<int>
    var ordinaryBytes: seq<int>
    var pendingBytes: seq<int>

    function View(): StreamTx.Ledger
      reads this
    {
      StreamTx.Ledger(nextSequence, ackedNext, outstanding, futureAcks, lastAckProgress,
                      ordinaryFrames, ordinaryBytes, pendingBytes)
    }

    ghost predicate Valid()
      reads this
    {
      Sound(View())
    }

    constructor (maxLegs: nat)
      ensures Valid() && View() == EmptyLedger(maxLegs)
    {
      var n := if maxLegs < 2 then 2 else if maxLegs > MAX_LEG_IDS then MAX_LEG_IDS else maxLegs;
      nextSequence, ackedNext, outstanding := 0, 0, map[];
      futureAcks, lastAckProgress := 0, None;
      ordinaryFrames, ordinaryBytes, pendingBytes := Zeros(n), Zeros(n), Zeros(n);
      new;
      EmptySound(maxLegs);
    }

    /** Ordinals are handed out in order and the record is immediately outstanding. */
    method Add(payload: Bytes, now: int, local: bool) returns (sequence: nat)
      requires Valid()
      modifies this
      ensures Valid() && View() == AddRecord(old(View()), payload, now, local)
      ensures sequence == old(nextSequence) && sequence in outstanding && outstanding[sequence].payload == payload
    {
      AddKeepsSound(View(), payload, now, local);
      sequence := nextSequence;
      var r := NewRecord(sequence, payload, now, local, sequence == ackedNext);
      nextSequence := nextSequence + 1;
      outstanding := outstanding[sequence := r];
    }

    method ClaimTransit(s: nat, leg: LegId, now: int) returns (ok: bool)
      requires Valid()
      modifies this
      ensures Valid() && (View(), ok) == MarkTransit(old(View()), s, leg, now)
    {
      ClaimKeepsStakes(View(), s, leg, now);
      SameStakesKeepSound(View(), MarkTransit(View(), s, leg, now).0);
      if s !in outstanding || outstanding[s].transit.Some? {
        return false;
      }
      outstanding := outstanding[s := Transit(outstanding[s], leg, now)];
      return true;
    }

    /** A rescue claim, restricted to the records of one owner when `owner` is given. */
    method ClaimRescue(s: nat, leg: LegId, owner: Option<LegId>, now: int) returns (ok: bool)
      requires Valid()
      modifies this
      ensures Valid() && (View(), ok) == MarkRescueTransit(old(View()), s, leg, owner, now)
    {
      RescueKeepsStakes(View(), s, leg, owner, now);
      SameStakesKeepSound(View(), MarkRescueTransit(View(), s, leg, owner, now).0);
      if s !in outstanding || (owner.Some? && outstanding[s].ordinaryOwner != owner) {
        return false;
      }
      var r := outstanding[s];
      if r.rescue.Some? || (r.transit.Some? && r.transit.value.leg == leg) {
        return false;
      }
      outstanding := outstanding[s := r.(rescue := Some(Attempt(leg, now)), duplicated := true)];
      return true;
    }

    /** The rescue cooldown starts once the queue has taken the attempt, or already sent it. */
    method NoteRescueQueued(s: nat, leg: LegId, started: int) returns (ok: bool)
      requires Valid()
      modifies this
      ensures Valid() && (View(), ok) == MarkRescueQueued(old(View()), s, leg, started)
    {
      RescueKeepsStakes(View(), s, leg, None, started);
      SameStakesKeepSound(View(), MarkRescueQueued(View(), s, leg, started).0);
      if s !in outstanding {
        return false;
      }
      var r := outstanding[s];
      var waiting := r.rescue.Some? && r.rescue.value.leg == leg && r.rescue.value.since == started;
      if !waiting && r.lastSentAttemptAt != Some(started) {
        return false;
      }
      outstanding := outstanding[s := r.(lastRescueAt := Some(started))];
      return true;
    }

    method EndLocalEnqueue(s: nat)
      requires Valid()
      modifies this
      ensures Valid() && View() == FinishLocalEnqueue(old(View()), s)
    {
      LocalKeepsStakes(View(), s);
      SameStakesKeepSound(View(), FinishLocalEnqueue(View(), s));
      if s in outstanding {
        outstanding := outstanding[s := outstanding[s].(localEnqueue := false)];
      }
    }

    method AbandonAttempt(s: nat, leg: LegId, rescue: bool, started: Time)
      requires Valid()
      modifies this
      ensures Valid() && View() == ClearAttempt(old(View()), s, leg, rescue, started)
    {
      ClearKeepsStakes(View(), s, leg, rescue, started);
      SameStakesKeepSound(View(), ClearAttempt(View(), s, leg, rescue, started));
      if s !in outstanding {
        return;
      }
      var r := outstanding[s];
      if rescue {
        if Claims(r.rescue, leg, started) {
          outstanding := outstanding[s := DropRescue(r)];
        }
        return;
      }
      if Claims(r.transit, leg, started) {
        outstanding := outstanding[s := r.(transit := None)];
      }
    }

    method CommitAttemptSent(s: nat, leg: LegId, rescue: bool, now: int) returns (applied: bool)
      requires Valid()
      modifies this
      ensures Valid() && (View(), applied) == MarkAttemptSent(old(View()), s, leg, rescue, now)
    {
      SentKeepsStakes(View(), s, leg, rescue, now);
      SameStakesKeepSound(View(), MarkAttemptSent(View(), s, leg, rescue, now).0);
      applied := AttemptCurrent(View(), s, leg, rescue);
      if applied {
        outstanding := outstanding[s := Sent(outstanding[s], leg, rescue, now)];
      }
    }

    method Invalidate(leg: LegId)
      requires Valid()
      modifies this
      ensures Valid() && View() == StreamTx.InvalidateLeg(old(View()), leg)
    {
      ghost var goal := StreamTx.InvalidateLeg(View(), leg);
      assert Sound(goal) by {
        InvalidateKeepsStakes(View(), leg);
        SameStakesKeepSound(View(), goal);
      }
      outstanding := RewriteAll(outstanding, r => Invalidated(r, leg));
      assert View() == goal;
    }

    /** How many records still need the leg. */
    method OutstandingForLeg(leg: LegId) returns (count: nat)
      ensures count == |Dependents(outstanding, leg)|
    {
      count := CountDependents(outstanding, leg);
    }

    method GrowLegs(leg: LegId)
      requires Valid()
      modifies this
      ensures Valid() && View() == EnsureLeg(old(View()), leg) && leg < |ordinaryFrames|
    {
      EnsureKeepsSound(View(), leg);
      var grow := Zeros(Max(0, leg + 1 - |ordinaryFrames|));
      ordinaryFrames, ordinaryBytes, pendingBytes := ordinaryFrames + grow, ordinaryBytes + grow, pendingBytes + grow;
    }

    /** Takes (sign -1) or gives (sign +1) one record's share of a leg's counters. */
    method ChargeLeg(leg: LegId, r: Record, sign: int)
      requires leg < |ordinaryFrames| == |ordinaryBytes| == |pendingBytes|
      modifies this
      ensures View() == Charge(old(View()), leg, r, sign)
    {
      ordinaryFrames := ordinaryFrames[leg := ordinaryFrames[leg] + sign];
      ordinaryBytes := ordinaryBytes[leg := ordinaryBytes[leg] + sign * |r.payload|];
      if !r.ordinaryAdmitted {
        pendingBytes := pendingBytes[leg := pendingBytes[leg] + sign * |r.payload|];
      }
    }

    method Assign(s: nat, leg: LegId, now: int) returns (ok: bool)
      requires Valid()
      modifies this
      ensures Valid() && (View(), ok) == AssignOrdinary(old(View()), s, leg, now)
    {
      AssignKeepsSound(View(), s, leg, now);
      GrowLegs(leg);
      if s !in outstanding {
        return false;
      }
      var r := outstanding[s];
      if r.ordinaryOwner == Some(leg) {
        return true;
      }
      if r.ordinaryOwner.Some? {
        ChargeLeg(r.ordinaryOwner.value, r, -1);
      }
      var owned := r.(ordinaryOwner := Some(leg), assignedAt := Some(now));
      ChargeLeg(leg, owned, 1);
      outstanding := outstanding[s := owned];
      return true;
    }

    method MarkAdmitted(s: nat, leg: LegId)
      requires Valid()
      modifies this
      ensures Valid() && View() == MarkOrdinaryAdmitted(old(View()), s, leg)
    {
      AdmitKeepsSound(View(), s, leg);
      GrowLegs(leg);
      if s !in outstanding || outstanding[s].ordinaryOwner != Some(leg) || outstanding[s].ordinaryAdmitted {
        return;
      }
      pendingBytes := pendingBytes[leg := pendingBytes[leg] - |outstanding[s].payload|];
      outstanding := outstanding[s := outstanding[s].(ordinaryAdmitted := true)];
    }

    /** One turn of ApplyACK's loop, on the record at `cursor`. */
    method RetireOne(cursor: nat, head: Option<Record>, now: int, before: AckResult) returns (after: AckResult)
      requires cursor in outstanding && outstanding[cursor].sequence == cursor
      requires |before.perLeg| == |ordinaryFrames| == |ordinaryBytes| == |pendingBytes|
      modifies this
      ensures nextSequence == old(nextSequence) && ackedNext == old(ackedNext)
      ensures Retirement(View().(ackedNext := cursor + 1), after)
           == RetireFront(Retirement(old(View()).(ackedNext := cursor), before), head, now)
    {
      var r := outstanding[cursor];
      var tallies := Credited(before.perLeg, r);
      outstanding := outstanding - {cursor};
      after := before.(released := before.released + 1, retiredBytes := before.retiredBytes + |r.payload|,
          perLeg := tallies);
      if r.ordinaryOwner.Some? && r.ordinaryOwner.value < |ordinaryFrames| {
        var id := r.ordinaryOwner.value;
        ChargeLeg(id, r, -1);
        after := after.(perLeg := tallies[id := Judge(tallies[id], r, ClassifyProof(r, head, now), now)]);
      }
    }

    method ApplyACK(next: nat, now: int) returns (result: AckResult)
      requires Valid()
      modifies this
      ensures Valid() && (View(), result) == ApplyAck(old(View()), next, now)
    {
      AckKeepsSound(View(), next, now);
      if next > nextSequence {
        futureAcks := futureAcks + 1;
        return AckResult(Future, 0, 0, []);
      }
      if next <= ackedNext {
        return AckResult(NoProgress, 0, 0, []);
      }
      result := RetireRange(next, now);
      ackedNext := next;
      if next in outstanding && outstanding[next].frontierAt == None {
        outstanding := outstanding[next := outstanding[next].(frontierAt := Some(now))];
      }
      if result.released > 0 {
        lastAckProgress := Some(now);
      }
    }

    /** ApplyACK's loop over [ackedNext, next). */
    method RetireRange(next: nat, now: int) returns (result: AckResult)
      requires Valid() && ackedNext < next <= nextSequence
      modifies this
      ensures Retirement(View().(ackedNext := next), result)
           == RetireTo(Opening(old(View())), next, HeadOf(old(View())), now)
    {
      var head := HeadOf(View());
      result := AckResult(Advanced, 0, 0, OpenTallies(View()));
      ghost var goal := RetireTo(Opening(View()), next, head, now);
      var sequence := ackedNext;
      while sequence < next
        invariant old(ackedNext) <= sequence <= next <= nextSequence
        invariant Shape(Retirement(View().(ackedNext := sequence), result)) && Sound(View().(ackedNext := sequence))
        invariant RetireTo(Retirement(View().(ackedNext := sequence), result), next, head, now) == goal
      {
        FrontKeepsSound(Retirement(View().(ackedNext := sequence), result), head, now);
        result := RetireOne(sequence, head, now, result);
        sequence := sequence + 1;
      }
    }
  }
}

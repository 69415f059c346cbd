/** Every operation of the rescue budget keeps its invariant, for every configuration. */
module RescueInvariant {
  import opened Prelude
  import opened Sorting
  import opened RescueWindow
  import opened RescueBudget

  // ---------------------------------------------------------------------- the window

  /** Pruning keeps the counters exact and only lowers them; the heap's counter becomes what is still
      in the window, the queue's too unless older bytes stand behind a newer event. */
  lemma PruneWindow(w: Window, now: int)
    requires Exact(w)
    ensures Exact(Prune(w, now))
    ensures SumAfter(w.originals, now - WINDOW) <= Prune(w, now).original <= w.original
    ensures Prune(w, now).original == SumAfter(w.originals, now - WINDOW) <==> Unhidden(w.originals, now - WINDOW)
    ensures Prune(w, now).carried == SumAfter(w.accepted, now - WINDOW) <= w.carried
  {
    PruneCounts(w.originals, w.original, now - WINDOW);
    PruneExactIff(w.originals, now - WINDOW);
    PruneCounts(w.accepted, w.carried, now - WINDOW);
    AscendingUnhidden(w.accepted, now - WINDOW);
    PruneExactIff(w.accepted, now - WINDOW);
    PruneAscends(w.accepted, now - WINDOW);
  }

  lemma {:induction false} PruneAscends(s: seq<Event>, cutoff: int)
    requires Ascending(s, At)
    ensures Ascending(PrunedEvents(s, cutoff), At)
    decreases |s|
  {
    if s != [] && s[0].at <= cutoff {
      PruneAscends(s[1..], cutoff);
    }
  }

  lemma AddOriginalExact(w: Window, e: Event)
    requires Exact(w)
    ensures Exact(AddOriginal(w, e))
  {
    assert Sum(w.originals + [e]) == Sum(w.originals) + e.bytes by {
      SumSnoc(w.originals, e, 0);
    }
  }

  lemma AddAcceptedExact(w: Window, e: Event)
    requires Exact(w)
    ensures Exact(AddAccepted(w, e))
  {
    SumInsert(w.accepted, e, 0);
    InsertAscends(w.accepted, e, At);
  }

  // -------------------------------------------------------- records and reservations

  lemma NewRecordLinks(reservations: map<nat, Reservation>, records: map<nat, RecordState>, sequence: nat)
    requires Linked(reservations, records) && sequence !in records
    ensures Linked(reservations, records[sequence := FRESH_RECORD])
  {
    forall s: nat, k: Key, id: nat
      ensures Held(records[sequence := FRESH_RECORD], s, k, id) <==> Backed(reservations, s, k, id)
    {
      assert Held(records, s, k, id) <==> Backed(reservations, s, k, id);
    }
  }

  lemma AckKeepsLinks(reservations: map<nat, Reservation>, records: map<nat, RecordState>, next: nat)
    requires Linked(reservations, records)
    ensures Linked(reservations, AckedRecords(records, next))
  {
    forall s: nat, k: Key, id: nat
      ensures Held(AckedRecords(records, next), s, k, id) <==> Backed(reservations, s, k, id)
    {
      assert Held(records, s, k, id) <==> Backed(reservations, s, k, id);
    }
  }

  lemma AdmitLinks(reservations: map<nat, Reservation>, records: map<nat, RecordState>, id: nat, r: Reservation)
    requires Linked(reservations, records)
    requires id !in reservations && r.sequence in records && r.key !in records[r.sequence].pending
    ensures Linked(reservations[id := r], Await(records, r.sequence, r.key, id))
  {
    forall s: nat, k: Key, j: nat
      ensures Held(Await(records, r.sequence, r.key, id), s, k, j) <==> Backed(reservations[id := r], s, k, j)
    {
      assert Held(records, s, k, j) <==> Backed(reservations, s, k, j);
    }
  }

  lemma AwaitRetains(records: map<nat, RecordState>, ackedNext: nat, last: Option<nat>, sequence: nat, key: Key,
      id: nat)
    requires Retained(records, ackedNext, last) && sequence in records
    ensures Retained(Await(records, sequence, key, id), ackedNext, last)
  {
  }

  lemma RemoveLinks(reservations: map<nat, Reservation>, records: map<nat, RecordState>, id: nat)
    requires Linked(reservations, records) && id in reservations
    ensures var r := reservations[id]; Linked(reservations - {id}, Forget(records, r.sequence, r.key, id))
  {
    var r := reservations[id];
    assert Held(records, r.sequence, r.key, id) by {
      assert Backed(reservations, r.sequence, r.key, id);
    }
    forall s: nat, k: Key, j: nat
      ensures Held(Forget(records, r.sequence, r.key, id), s, k, j) <==> Backed(reservations - {id}, s, k, j)
    {
      assert Held(records, s, k, j) <==> Backed(reservations, s, k, j);
      if Held(records, s, k, j) && j != id && s == r.sequence {
        assert k in records[s].pending - {r.key};
      }
    }
  }

  lemma ForgetRetains(records: map<nat, RecordState>, ackedNext: nat, last: Option<nat>, sequence: nat, key: Key,
      id: nat)
    requires Retained(records, ackedNext, last)
    ensures Retained(Forget(records, sequence, key, id), ackedNext, last)
  {
  }

  lemma StartLinks(reservations: map<nat, Reservation>, records: map<nat, RecordState>, id: nat)
    requires Linked(reservations, records) && id in reservations && reservations[id].sequence in records
    ensures var r := reservations[id];
            Linked(reservations[id := r.(started := true)], MarkUsed(records, r.sequence, r.key))
  {
    var r := reservations[id];
    forall s: nat, k: Key, j: nat
      ensures Held(MarkUsed(records, r.sequence, r.key), s, k, j)
              <==> Backed(reservations[id := r.(started := true)], s, k, j)
    {
      assert Held(records, s, k, j) <==> Backed(reservations, s, k, j);
    }
  }

  // ------------------------------------------------------------------ byte accounting

  lemma AdmitSums(reservations: map<nat, Reservation>, id: nat, r: Reservation)
    requires id !in reservations
    ensures MapSum(reservations[id := r], BaseBytes) == MapSum(reservations, BaseBytes) + r.base
    ensures MapSum(reservations[id := r], BurstBytes) == MapSum(reservations, BurstBytes) + r.burst
    ensures MapSum(reservations[id := r], AllBytes) == MapSum(reservations, AllBytes) + r.bytes
  {
    MapSumAbsent(reservations, AllBytes, id);
    MapSumUpdate(reservations, BaseBytes, id, r);
    MapSumUpdate(reservations, BurstBytes, id, r);
    MapSumUpdate(reservations, AllBytes, id, r);
  }

  lemma RemoveSums(reservations: map<nat, Reservation>, id: nat)
    requires id in reservations
    ensures var r, rest := reservations[id], reservations - {id};
            && MapSum(reservations, BaseBytes) == MapSum(rest, BaseBytes) + r.base
            && MapSum(reservations, BurstBytes) == MapSum(rest, BurstBytes) + r.burst
            && MapSum(reservations, AllBytes) == MapSum(rest, AllBytes) + r.bytes
  {
    MapSumRemove(reservations, BaseBytes, id);
    MapSumRemove(reservations, BurstBytes, id);
    MapSumRemove(reservations, AllBytes, id);
  }

  lemma StartSums(reservations: map<nat, Reservation>, id: nat)
    requires id in reservations
    ensures var after := reservations[id := reservations[id].(started := true)];
            && MapSum(after, BaseBytes) == MapSum(reservations, BaseBytes)
            && MapSum(after, BurstBytes) == MapSum(reservations, BurstBytes)
            && MapSum(after, AllBytes) == MapSum(reservations, AllBytes)
  {
    var r := reservations[id].(started := true);
    RemoveSums(reservations, id);
    MapSumUpdate(reservations, BaseBytes, id, r);
    MapSumUpdate(reservations, BurstBytes, id, r);
    MapSumUpdate(reservations, AllBytes, id, r);
  }

  // ------------------------------------------------------------- the budget inequality

  /** A 64-bit window never brings the quota plus the burst token near the 64-bit limit. */
  lemma NoSaturation(c: Config, chunkBytes: nat)
    requires ValidConfig(c, chunkBytes)
    ensures Ratio(MAX_UINT64, c.basisPoints) + c.burstBytes <= MAX_UINT64
  {
    RatioMonotone(0, MAX_UINT64, c.basisPoints);
    RatioIsFloor(MAX_UINT64, c.basisPoints);
    assert MAX_UINT64 * c.basisPoints <= MAX_UINT64 * 909 by {
      assert MAX_UINT64 * (909 - c.basisPoints) >= 0;
    }
  }

  /** An affordable payload fits under the quota plus what the burst token has left, whether
      or not the window is already in debt; and its burst part fits the token. */
  lemma AffordableBound(c: Config, chunkBytes: nat, original: nat, carried: nat, t: Tokens, payload: nat)
    requires ValidConfig(c, chunkBytes) && original <= MAX_UINT64 && payload > 0
    requires 0 <= t.base && 0 <= t.burst && 0 <= t.committed && t.committed + t.burst <= c.burstBytes
    requires carried + t.base + t.burst <= Ratio(MAX_UINT64, c.basisPoints) + c.burstBytes
    requires Affordable(c, original, carried, t, payload)
    ensures carried + t.base + t.burst + payload <= Ratio(original, c.basisPoints) + c.burstBytes - t.committed
    ensures carried + t.base + t.burst + payload <= Ratio(MAX_UINT64, c.basisPoints) + c.burstBytes
    ensures var base := Min(payload, RoomFor(c, original, carried, t).base);
            t.committed + t.burst + (payload - base) <= c.burstBytes
  {
    NoSaturation(c, chunkBytes);
    RatioMonotone(original, MAX_UINT64, c.basisPoints);
  }

  // ------------------------------------------- every operation keeps the records wired

  lemma RecordOriginalWires(b: Budget, sequence: nat, bytes: nat, at: int)
    requires Wired(b)
    ensures Wired(RecordOriginal(b, sequence, bytes, at).0)
  {
    if RecordOriginal(b, sequence, bytes, at).1 {
      NewRecordLinks(b.reservations, b.records, sequence);
    }
  }

  lemma AckWires(b: Budget, next: nat)
    requires Wired(b)
    ensures Wired(AckThrough(b, next))
  {
    AckKeepsLinks(b.reservations, b.records, Max(b.ackedNext, next));
  }

  lemma AdmitWires(b: Budget, e: Evidence, payload: nat, base: nat)
    requires Wired(b) && base <= payload && b.nextReservation + 1 !in b.reservations
    requires e.sequence in b.records && KeyOf(e) !in b.records[e.sequence].pending
    ensures Wired(Admit(b, e, payload, base))
  {
    var id := b.nextReservation + 1;
    AdmitLinks(b.reservations, b.records, id, NewReservation(e, payload, base));
    AwaitRetains(b.records, b.ackedNext, b.lastOriginal, e.sequence, KeyOf(e), id);
  }

  lemma ReserveWires(c: Config, b: Budget, e: Evidence, payload: nat, at: int)
    requires Wired(b) && b.nextReservation + 1 !in b.reservations
    ensures Wired(Reserve(c, b, e, payload, at).0)
  {
    var (after, answer) := Reserve(c, b, e, payload, at);
    if answer.Reserved? {
      var p := b.(window := Prune(b.window, at));
      var base := if c.mode == Full then RoomFor(c, p.window.original, p.window.carried, p.tokens).base else payload;
      AdmitWires(p, e, payload, Min(payload, base));
      assert after == Admit(p, e, payload, Min(payload, base));
    }
  }

  lemma RemoveWires(b: Budget, id: nat, taken: nat)
    requires Wired(b) && id in b.reservations
    ensures Wired(Remove(b, id, taken))
  {
    var r := b.reservations[id];
    RemoveLinks(b.reservations, b.records, id);
    ForgetRetains(b.records, b.ackedNext, b.lastOriginal, r.sequence, r.key, id);
  }

  lemma BeginWriteWires(c: Config, b: Budget, id: nat)
    requires Wired(b)
    ensures Wired(BeginWrite(c, b, id).0)
  {
    if BeginWrite(c, b, id).1 {
      StartLinks(b.reservations, b.records, id);
    } else if BeginWrite(c, b, id).0 != b {
      RemoveWires(b, id, 0);
    }
  }

  lemma RevalidateWires(b: Budget, id: nat, current: Evidence)
    requires Wired(b)
    ensures Wired(Revalidate(b, id, current).0)
  {
    if Revalidate(b, id, current).0 != b {
      RemoveWires(b, id, 0);
    }
  }

  lemma ReleaseWires(b: Budget, id: nat)
    requires Wired(b)
    ensures Wired(Release(b, id).0)
  {
    if Release(b, id).0 != b {
      RemoveWires(b, id, 0);
    }
  }

  lemma SettleWires(b: Budget, id: nat, wire: nat, at: int)
    requires Wired(b)
    ensures Wired(Settle(b, id, wire, at).0)
  {
    if Settle(b, id, wire, at).0 != b {
      var r := b.reservations[id];
      RemoveWires(Charge(b, r, Min(wire, r.bytes), at), id, Min(wire, r.bytes));
    }
  }

  // --------------------------------------------- every operation keeps the books balanced

  lemma EmptyBudget(c: Config)
    ensures Wired(EMPTY_BUDGET) && Balanced(c, EMPTY_BUDGET)
  {
    RatioMonotone(0, MAX_UINT64, c.basisPoints);
  }

  lemma PruneBalances(c: Config, b: Budget, now: int)
    requires Balanced(c, b)
    ensures Balanced(c, b.(window := Prune(b.window, now)))
  {
    PruneWindow(b.window, now);
  }

  lemma RecordOriginalBalances(c: Config, b: Budget, sequence: nat, bytes: nat, at: int)
    requires Balanced(c, b) && b.window.original + bytes <= MAX_UINT64
    ensures Balanced(c, RecordOriginal(b, sequence, bytes, at).0)
  {
    AddOriginalExact(b.window, Event(at, bytes));
    PruneWindow(AddOriginal(b.window, Event(at, bytes)), at);
  }

  lemma AdmitBalances(c: Config, b: Budget, e: Evidence, payload: nat, base: nat)
    requires Balanced(c, b) && base <= payload && e.sequence in b.records
    requires b.tokens.committed + b.tokens.burst + (payload - base) <= c.burstBytes
    requires c.mode == Full ==> b.window.carried + b.tokens.base + b.tokens.burst + payload
                                <= Ratio(MAX_UINT64, c.basisPoints) + c.burstBytes
    ensures Balanced(c, Admit(b, e, payload, base))
  {
    AdmitSums(b.reservations, b.nextReservation + 1, NewReservation(e, payload, base));
  }

  /** Accepted and reserved rescue bytes are within the window's quota plus what the burst
      token has left. */
  ghost predicate WithinQuota(c: Config, w: Window, t: Tokens) {
    w.carried + t.base + t.burst <= Ratio(w.original, c.basisPoints) + c.burstBytes - t.committed
  }

  /** In full mode every admission leaves the budget within its quota. */
  lemma ReserveBalances(c: Config, chunkBytes: nat, b: Budget, e: Evidence, payload: nat, at: int)
    requires ValidConfig(c, chunkBytes) && Balanced(c, b)
    ensures var (after, answer) := Reserve(c, b, e, payload, at);
            Balanced(c, after) && (c.mode == Full && answer.Reserved? ==> WithinQuota(c, after.window, after.tokens))
  {
    if Refusal(c, b, e, payload).None? {
      PruneBalances(c, b, at);
      var p := b.(window := Prune(b.window, at));
      if c.mode != Full {
        AdmitBalances(c, p, e, payload, payload);
      } else if Affordable(c, p.window.original, p.window.carried, p.tokens, payload) {
        AffordableBound(c, chunkBytes, p.window.original, p.window.carried, p.tokens, payload);
        AdmitBalances(c, p, e, payload, Min(payload, RoomFor(c, p.window.original, p.window.carried, p.tokens).base));
      }
    }
  }

  lemma RemoveBalances(c: Config, b: Budget, id: nat, taken: nat, at: int)
    requires Balanced(c, b) && id in b.reservations && taken <= b.reservations[id].bytes
    ensures Balanced(c, Remove(Charge(b, b.reservations[id], taken, at), id, taken))
  {
    RemoveSums(b.reservations, id);
    if taken > 0 {
      AddAcceptedExact(b.window, Event(at, taken));
    }
  }

  lemma BeginWriteBalances(c: Config, b: Budget, id: nat)
    requires Balanced(c, b)
    ensures Balanced(c, BeginWrite(c, b, id).0)
  {
    if BeginWrite(c, b, id).1 {
      StartSums(b.reservations, id);
    } else if BeginWrite(c, b, id).0 != b {
      RemoveBalances(c, b, id, 0, 0);
    }
  }

  lemma RevalidateBalances(c: Config, b: Budget, id: nat, current: Evidence)
    requires Balanced(c, b)
    ensures Balanced(c, Revalidate(b, id, current).0)
  {
    if Revalidate(b, id, current).0 != b {
      RemoveBalances(c, b, id, 0, 0);
    }
  }

  lemma ReleaseBalances(c: Config, b: Budget, id: nat)
    requires Balanced(c, b)
    ensures Balanced(c, Release(b, id).0)
  {
    if Release(b, id).0 != b {
      RemoveBalances(c, b, id, 0, 0);
    }
  }

  lemma SettleBalances(c: Config, b: Budget, id: nat, wire: nat, at: int)
    requires Balanced(c, b)
    ensures Balanced(c, Settle(b, id, wire, at).0)
  {
    if Settle(b, id, wire, at).0 != b {
      var r := b.reservations[id];
      var taken := Min(wire, r.bytes);
      RemoveBalances(c, b, id, taken, at);
      PruneBalances(c, Remove(Charge(b, r, taken, at), id, taken), at);
    }
  }

  /** A reservation's removal never finds its counters too small. */
  lemma RemovalNeverSaturates(c: Config, b: Budget, id: nat)
    requires Balanced(c, b) && id in b.reservations
    ensures b.reservations[id].base <= b.tokens.base && b.reservations[id].burst <= b.tokens.burst
  {
    RemoveSums(b.reservations, id);
  }
}

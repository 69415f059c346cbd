/** The rescue budget as the mutable object the engine holds. */
module RescueManager {
  import opened Prelude
  import opened RescueWindow
  import B = RescueBudget
  import I = RescueInvariant

  class Manager {
    const config: B.Config
    const chunkBytes: nat
    const window: EventWindow
    var closed: bool
    var ackedNext: nat
    var lastOriginal: Option<nat>
    var nextReservation: nat
    var tokens: B.Tokens
    var reservations: map<nat, B.Reservation>
    var records: map<nat, B.RecordState>
    var totals: B.Totals

    ghost function View(): B.Budget
      reads this, window
    {
      B.Budget(closed, ackedNext, lastOriginal, nextReservation, window.View(), tokens, reservations, records, totals)
    }

    /** Pending entries and reservations match, and every byte counter agrees with what it counts. */
    ghost predicate Valid()
      reads this, window
    {
      B.ValidConfig(config, chunkBytes) && B.Wired(View()) && B.Balanced(config, View())
    }

    constructor (config: B.Config, chunkBytes: nat)
      requires B.ValidConfig(config, chunkBytes)
      ensures this.config == config && this.chunkBytes == chunkBytes && fresh(window)
      ensures Valid() && View() == B.EMPTY_BUDGET
    {
      I.EmptyBudget(config);
      this.config, this.chunkBytes := config, chunkBytes;
      window := new EventWindow();
      closed, ackedNext, lastOriginal, nextReservation := false, 0, None, 0;
      tokens, reservations, records, totals := B.Tokens(0, 0, 0), map[], map[], B.Totals(0, 0, 0);
    }

    method RecordOriginal(sequence: nat, bytes: nat, at: int) returns (ok: bool)
      requires Valid()
      modifies this, window
      ensures B.Wired(View()) && (old(window.original) + bytes <= MAX_UINT64 ==> Valid())
      ensures (View(), ok) == B.RecordOriginal(old(View()), sequence, bytes, at)
    {
      I.RecordOriginalWires(View(), sequence, bytes, at);
      if window.original + bytes <= MAX_UINT64 {
        I.RecordOriginalBalances(config, View(), sequence, bytes, at);
      }
      ok := Enter(sequence, bytes, at);
    }

    /** recordOriginal's own steps. */
    method Enter(sequence: nat, bytes: nat, at: int) returns (ok: bool)
      modifies this, window
      ensures (View(), ok) == B.RecordOriginal(old(View()), sequence, bytes, at)
    {
      if bytes == 0 || closed {
        return false;
      }
      if lastOriginal.Some? && sequence <= lastOriginal.value {
        return false;
      }
      lastOriginal := Some(sequence);
      window.PushOriginal(Event(at, bytes));
      if sequence >= ackedNext && sequence !in records {
        records := records[sequence := B.FRESH_RECORD];
      }
      window.PruneBefore(at);
      return true;
    }

    method Reserve(e: B.Evidence, payload: nat, at: int) returns (answer: B.Admission)
      requires Valid()
      modifies this, window
      ensures Valid()
      ensures (View(), answer) == B.Reserve(config, old(View()), e, payload, at)
    {
      I.ReserveWires(config, View(), e, payload, at);
      I.ReserveBalances(config, chunkBytes, View(), e, payload, at);
      var refusal := Check(e, payload);
      if refusal.Some? {
        return refusal.value;
      }
      window.PruneBefore(at);
      var base := payload;
      if config.mode == B.Full {
        var room := B.RoomFor(config, window.original, window.carried, tokens);
        if payload > SaturatingAdd(room.base, room.burst) {
          return B.Rejected(B.BudgetExhausted);
        }
        if base > room.base {
          base := room.base;
        }
      }
      Open(e, payload, base);
      return B.Reserved(nextReservation);
    }

    /** The checks that come before the budget, in the order in which they are made. */
    method Check(e: B.Evidence, payload: nat) returns (refusal: Option<B.Admission>)
      ensures refusal == B.Refusal(config, View(), e, payload)
    {
      if closed {
        return Some(B.Rejected(B.SessionClosed));
      }
      var class_ := B.Classify(e);
      if class_ == B.FailureRecovery || class_ == B.ProbeData {
        return Some(B.Exempt(class_));
      }
      if class_ != B.HealthyHOL {
        return Some(B.Rejected(B.NotHealthy));
      }
      if e.sequence < ackedNext {
        return Some(B.Rejected(B.AlreadyAcked));
      }
      if e.sequence !in records || records[e.sequence].acked {
        return Some(B.Rejected(B.MissingOriginal));
      }
      var record := records[e.sequence];
      if config.mode != B.ClassOnly && B.KeyOf(e) in record.used {
        return Some(B.Rejected(B.EpochUsed));
      }
      if B.KeyOf(e) in record.pending {
        return Some(B.Rejected(B.EpochPending));
      }
      if payload == 0 {
        return Some(B.Rejected(B.EmptyPayload));
      }
      return None;
    }

    method Open(e: B.Evidence, payload: nat, base: nat)
      requires base <= payload && e.sequence in records
      modifies this
      ensures View() == B.Admit(old(View()), e, payload, base)
    {
      nextReservation := nextReservation + 1;
      var record := records[e.sequence];
      reservations := reservations[nextReservation := B.NewReservation(e, payload, base)];
      records := records[e.sequence := record.(pending := record.pending[B.KeyOf(e) := nextReservation])];
      tokens := tokens.(base := tokens.base + base, burst := tokens.burst + (payload - base));
      totals := totals.(reserved := totals.reserved + payload);
    }

    /** The observer's budget verdict: it scans the queues and changes nothing. */
    method RollingBudgetEligible(payload: nat, at: int) returns (ok: bool)
      ensures ok <==>
        && payload > 0
        && B.Affordable(config, Min(MAX_UINT64, SumAfter(window.originals, at - WINDOW)),
                        Min(MAX_UINT64, SumAfter(window.accepted, at - WINDOW)), tokens, payload)
    {
      if payload == 0 {
        return false;
      }
      var original, carried := window.Scan(at);
      var room := B.RoomFor(config, original, carried, tokens);
      return payload <= SaturatingAdd(room.base, room.burst);
    }

    /** Takes a reservation out, returning what the carrier did not take. */
    method Drop(id: nat, taken: nat)
      requires id in reservations
      modifies this
      ensures View() == B.Remove(old(View()), id, taken)
    {
      var r := reservations[id];
      tokens := B.Tokens(
        if tokens.base >= r.base then tokens.base - r.base else 0,
        if tokens.burst >= r.burst then tokens.burst - r.burst else 0,
        tokens.committed);
      reservations := reservations - {id};
      records := ForgetPending(records, r.sequence, r.key, id);
      totals := totals.(released := totals.released + (r.bytes - taken));
    }

    method BeginWrite(id: nat) returns (started: bool)
      requires Valid()
      modifies this
      ensures Valid()
      ensures (View(), started) == B.BeginWrite(config, old(View()), id)
    {
      I.BeginWriteWires(config, View(), id);
      I.BeginWriteBalances(config, View(), id);
      if id == 0 || id !in reservations || reservations[id].started {
        return false;
      }
      var r := reservations[id];
      if closed || r.sequence < ackedNext {
        Drop(id, 0);
        return false;
      }
      if r.sequence !in records || records[r.sequence].acked {
        Drop(id, 0);
        return false;
      }
      if r.key in records[r.sequence].used && config.mode != B.ClassOnly {
        Drop(id, 0);
        return false;
      }
      reservations := reservations[id := r.(started := true)];
      records := B.MarkUsed(records, r.sequence, r.key);
      return true;
    }

    method RevalidateBeforeWrite(id: nat, current: B.Evidence) returns (class_: B.Class, charged: nat, ok: bool)
      requires Valid()
      modifies this
      ensures Valid()
      ensures (View(), class_, charged, ok) == B.Revalidate(old(View()), id, current)
    {
      I.RevalidateWires(View(), id, current);
      I.RevalidateBalances(config, View(), id, current);
      if id == 0 {
        return B.OtherCoreRetry, 0, false;
      }
      if id !in reservations || reservations[id].started || closed {
        if id in reservations && !reservations[id].started {
          Drop(id, 0);
        }
        return B.DuplicateOrRejected, 0, false;
      }
      class_ := B.Classify(current);
      if class_ == B.FailureRecovery || class_ == B.ProbeData {
        Drop(id, 0);
        return class_, 0, true;
      }
      if B.StillValid(reservations[id], current) {
        return class_, id, true;
      }
      Drop(id, 0);
      return class_, 0, false;
    }

    method Settle(id: nat, wire: nat, at: int) returns (result: B.Settlement)
      requires Valid()
      modifies this, window
      ensures Valid()
      ensures (View(), result) == B.Settle(old(View()), id, wire, at)
    {
      I.SettleWires(View(), id, wire, at);
      I.SettleBalances(config, View(), id, wire, at);
      if id == 0 {
        return B.Settled;
      }
      if id !in reservations {
        return B.NotFound;
      }
      if !reservations[id].started {
        return B.NotStarted;
      }
      var r := reservations[id];
      var taken := wire;
      if wire > r.bytes {
        taken := r.bytes;
      }
      Spend(r, taken, at);
      Drop(id, taken);
      window.PruneBefore(at);
      return if wire > r.bytes then B.OverAccepted else B.Settled;
    }

    method Spend(r: B.Reservation, taken: nat, at: int)
      modifies this, window
      ensures View() == B.Charge(old(View()), r, taken, at)
    {
      if taken > 0 {
        window.PushAccepted(Event(at, taken));
        totals := totals.(accepted := totals.accepted + taken);
        var baseTaken := if taken > r.base then r.base else taken;
        var burstTaken := if taken > baseTaken then taken - baseTaken else 0;
        tokens := tokens.(committed := tokens.committed + burstTaken);
      }
    }

    method Release(id: nat) returns (ok: bool)
      requires Valid()
      modifies this
      ensures Valid()
      ensures (View(), ok) == B.Release(old(View()), id)
    {
      I.ReleaseWires(View(), id);
      I.ReleaseBalances(config, View(), id);
      if id == 0 {
        return true;
      }
      if id !in reservations || reservations[id].started {
        return false;
      }
      Drop(id, 0);
      return true;
    }

    /** Visits the records in an arbitrary order, deleting as it goes. */
    method AckThrough(next: nat)
      requires Valid()
      modifies this
      ensures Valid()
      ensures View() == B.AckThrough(old(View()), next)
    {
      I.AckWires(View(), next);
      if next > ackedNext {
        ackedNext := next;
      }
      var after := Acknowledge(records, ackedNext);
      records := after;
    }

    method Close()
      requires Valid()
      modifies this
      ensures Valid()
      ensures View() == old(View()).(closed := true)
    {
      closed := true;
    }
  }

  /** newStreamBoundedRescueBudget: a budget exactly for an acceptable configuration. */
  method NewManager(config: B.Config, chunkBytes: nat) returns (m: Option<Manager>)
    ensures m.Some? <==> B.ValidConfig(config, chunkBytes)
    ensures m.Some? ==> fresh(m.value) && fresh(m.value.window) && m.value.config == config && m.value.Valid()
    ensures m.Some? ==> m.value.View() == B.EMPTY_BUDGET
  {
    if config.basisPoints !in {25, 50, 100, 300, 500, 909} {
      return None;
    }
    if chunkBytes == 0 || chunkBytes >= 0x8000_0000_0000_0000 || config.burstBytes > chunkBytes {
      return None;
    }
    var manager := new Manager(config, chunkBytes);
    return Some(manager);
  }

  method ForgetPending(records: map<nat, B.RecordState>, sequence: nat, key: B.Key, id: nat)
    returns (after: map<nat, B.RecordState>)
    ensures after == B.Forget(records, sequence, key, id)
  {
    after := records;
    if sequence in records {
      var state := records[sequence];
      if key in state.pending && state.pending[key] == id {
        state := state.(pending := state.pending - {key});
      }
      if state.acked && state.pending == map[] {
        after := records - {sequence};
      } else {
        after := records[sequence := state];
      }
    }
  }

  method Acknowledge(records: map<nat, B.RecordState>, frontier: nat) returns (after: map<nat, B.RecordState>)
    ensures after == B.AckedRecords(records, frontier)
  {
    after := records;
    var todo := records.Keys;
    while todo != {}
      invariant todo <= records.Keys
      invariant forall s <- todo :: s in after && after[s] == records[s]
      invariant forall s <- after | s !in todo :: s in B.AckedRecords(records, frontier)
                                                  && after[s] == B.AckedRecords(records, frontier)[s]
      invariant forall s <- B.AckedRecords(records, frontier) :: s in after
      decreases |todo|
    {
      var s :| s in todo;
      if s < frontier {
        var state := after[s].(acked := true);
        after := if state.pending == map[] then after - {s} else after[s := state];
      }
      todo := todo - {s};
    }
  }
}

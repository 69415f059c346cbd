/** The transmit ledger (core/stream_tx.go): sequencing, attempt state, ordinary-owner
    accounting and cumulative-ACK retirement, as transitions over a value. A record is
    named by its ordinal, which the ledger never reuses. */
module StreamTx {
  import opened Prelude

  const MAX_LEG_IDS := 256

  /** streamProbeBudget + 500 ms. */
  const PROOF_BUDGET := 700_000_000

  type LegId = n: int | 0 <= n < MAX_LEG_IDS

  /** A claimed carrier attempt: inTransit/transitLeg/transitSince, or the rescue triple. */
  datatype Attempt = Attempt(leg: LegId, since: int)

  datatype Record = Record(
    sequence: nat,
    payload: Bytes,
    createdAt: int,
    localEnqueue: bool,
    transit: Option<Attempt>,
    rescue: Option<Attempt>,
    lastSentLeg: Option<LegId>,
    lastSentAt: Time,
    lastSentAttemptAt: Time,
    lastRescueAt: Time,
    sendCount: nat,
    firstWriteAt: Time,
    frontierAt: Time,
    ordinaryOwner: Option<LegId>,
    ordinaryAdmitted: bool,
    assignedAt: Time,
    originGeneration: nat,
    probeStartedAt: Time,
    invalidated: bool,
    duplicated: bool)

  /** Per-leg counters are integers here so that "never underflows" is a theorem. */
  datatype Ledger = Ledger(
    nextSequence: nat,
    ackedNext: nat,
    outstanding: map<nat, Record>,
    futureAcks: nat,
    lastAckProgress: Time,
    ordinaryFrames: seq<int>,
    ordinaryBytes: seq<int>,
    pendingBytes: seq<int>)

  function Zeros(n: nat): seq<int> {
    seq(n, i => 0)
  }

  function EmptyLedger(maxLegs: nat): Ledger {
    var n := if maxLegs < 2 then 2 else if maxLegs > MAX_LEG_IDS then MAX_LEG_IDS else maxLegs;
    Ledger(0, 0, map[], 0, None, Zeros(n), Zeros(n), Zeros(n))
  }

  // -------------------------------------------------------------- attempt state

  function WithRecord(l: Ledger, r: Record): Ledger {
    l.(outstanding := l.outstanding[r.sequence := r])
  }

  function NewRecord(sequence: nat, payload: Bytes, now: int, local: bool, frontier: bool): Record {
    Record(sequence, payload, now, local, None, None, None, None, None, None, 0, None,
           if frontier then Some(now) else None, None, false, None, 0, None, false, false)
  }

  function AddRecord(l: Ledger, payload: Bytes, now: int, local: bool): Ledger {
    var r := NewRecord(l.nextSequence, payload, now, local, l.nextSequence == l.ackedNext);
    WithRecord(l, r).(nextSequence := l.nextSequence + 1)
  }

  /** What the counters and the window measure of a record. */
  predicate SameStake(r: Record, o: Record) {
    && r.sequence == o.sequence && r.payload == o.payload
    && r.ordinaryOwner == o.ordinaryOwner && r.ordinaryAdmitted == o.ordinaryAdmitted
  }

  function Transit(r: Record, leg: LegId, now: int): (n: Record)
    ensures SameStake(n, r)
  {
    r.(transit := Some(Attempt(leg, now)), duplicated := r.duplicated || r.sendCount > 0)
  }

  function MarkTransit(l: Ledger, s: nat, leg: LegId, now: int): (Ledger, bool) {
    if s !in l.outstanding || l.outstanding[s].transit.Some? then (l, false)
    else (WithRecord(l, Transit(l.outstanding[s], leg, now)), true)
  }

  /** MarkRestrictedRescueTransit when `owner` is given, MarkRescueTransit otherwise. */
  function MarkRescueTransit(l: Ledger, s: nat, leg: LegId, owner: Option<LegId>, now: int): (Ledger, bool) {
    if s !in l.outstanding then (l, false)
    else
      var r := l.outstanding[s];
      if owner.Some? && r.ordinaryOwner != owner then (l, false)
      else if r.rescue.Some? || (r.transit.Some? && r.transit.value.leg == leg) then (l, false)
      else (WithRecord(l, r.(rescue := Some(Attempt(leg, now)), duplicated := true)), true)
  }

  function MarkRescueQueued(l: Ledger, s: nat, leg: LegId, started: int): (Ledger, bool) {
    if s !in l.outstanding then (l, false)
    else
      var r := l.outstanding[s];
      if r.rescue == Some(Attempt(leg, started)) || r.lastSentAttemptAt == Some(started)
      then (WithRecord(l, r.(lastRescueAt := Some(started))), true)
      else (l, false)
  }

  function DropRescue(r: Record): (n: Record)
    requires r.rescue.Some?
    ensures SameStake(n, r) && n.transit == r.transit && n.rescue == None && n.lastSentLeg == r.lastSentLeg
  {
    r.(rescue := None, lastRescueAt := if r.lastRescueAt == Some(r.rescue.value.since) then None else r.lastRescueAt)
  }

  predicate Claims(a: Option<Attempt>, leg: LegId, started: Time) {
    a.Some? && a.value.leg == leg && (started == None || started == Some(a.value.since))
  }

  function ClearAttempt(l: Ledger, s: nat, leg: LegId, rescue: bool, started: Time): Ledger {
    if s !in l.outstanding then l
    else
      var r := l.outstanding[s];
      if rescue then
        if Claims(r.rescue, leg, started) then WithRecord(l, DropRescue(r)) else l
      else
        if Claims(r.transit, leg, started) then WithRecord(l, r.(transit := None)) else l
  }

  predicate AttemptCurrent(l: Ledger, s: nat, leg: LegId, rescue: bool) {
    s in l.outstanding && Claims(if rescue then l.outstanding[s].rescue else l.outstanding[s].transit, leg, None)
  }

  /** The record after a completed carrier write of the claimed attempt. */
  function Sent(r: Record, leg: LegId, rescue: bool, now: int): (n: Record)
    requires (if rescue then r.rescue else r.transit).Some?
    ensures SameStake(n, r)
  {
    var started := (if rescue then r.rescue else r.transit).value.since;
    var freed := if rescue then r.(rescue := None) else r.(transit := None);
    var newest := r.lastSentAttemptAt == None || started >= r.lastSentAttemptAt.value;
    var placed := if newest then freed.(lastSentAttemptAt := Some(started), lastSentAt := Some(now),
        lastSentLeg := Some(leg))
                  else freed;
    placed.(firstWriteAt := if r.firstWriteAt == None then Some(started)
        else r.firstWriteAt, sendCount := r.sendCount + 1)
  }

  function MarkAttemptSent(l: Ledger, s: nat, leg: LegId, rescue: bool, now: int): (Ledger, bool) {
    if !AttemptCurrent(l, s, leg, rescue) then (l, false)
    else (WithRecord(l, Sent(l.outstanding[s], leg, rescue, now)), true)
  }

  /** The leg's records can no longer prove anything about it. */
  function Disproved(r: Record, leg: LegId): (n: Record)
    ensures SameStake(n, r) && SameAttempts(n, r)
  {
    if r.ordinaryOwner == Some(leg) then r.(duplicated := true, invalidated := true) else r
  }

  predicate SameAttempts(r: Record, o: Record) {
    r.transit == o.transit && r.rescue == o.rescue && r.lastSentLeg == o.lastSentLeg
  }

  function WithoutTransit(r: Record, leg: LegId): (n: Record)
    ensures SameStake(n, r) && n.rescue == r.rescue && n.lastSentLeg == r.lastSentLeg
    ensures n.transit == if Claims(r.transit, leg, None) then None else r.transit
  {
    if Claims(r.transit, leg, None) then r.(transit := None) else r
  }

  function WithoutRescue(r: Record, leg: LegId): (n: Record)
    ensures SameStake(n, r) && n.transit == r.transit && n.lastSentLeg == r.lastSentLeg
    ensures n.rescue == if Claims(r.rescue, leg, None) then None else r.rescue
  {
    if Claims(r.rescue, leg, None) then DropRescue(r) else r
  }

  function WithoutSend(r: Record, leg: LegId): (n: Record)
    ensures SameStake(n, r) && n.transit == r.transit && n.rescue == r.rescue
    ensures n.lastSentLeg == if r.lastSentLeg == Some(leg) then None else r.lastSentLeg
  {
    if r.lastSentLeg == Some(leg) then r.(lastSentLeg := None) else r
  }

  function Invalidated(r: Record, leg: LegId): (n: Record)
    ensures SameStake(n, r)
    ensures n.transit == if Claims(r.transit, leg, None) then None else r.transit
    ensures n.rescue == if Claims(r.rescue, leg, None) then None else r.rescue
    ensures n.lastSentLeg == if r.lastSentLeg == Some(leg) then None else r.lastSentLeg
  {
    WithoutSend(WithoutRescue(WithoutTransit(Disproved(r, leg), leg), leg), leg)
  }

  function InvalidateLeg(l: Ledger, leg: LegId): Ledger {
    l.(outstanding := map s | s in l.outstanding :: Invalidated(l.outstanding[s], leg))
  }

  function FinishLocalEnqueue(l: Ledger, s: nat): Ledger {
    if s in l.outstanding then WithRecord(l, l.outstanding[s].(localEnqueue := false)) else l
  }

  function MarkWriteStarted(l: Ledger, s: nat, leg: LegId, rescue: bool, now: int): Ledger {
    if !rescue && AttemptCurrent(l, s, leg, false) && l.outstanding[s].firstWriteAt == None
    then WithRecord(l, l.outstanding[s].(firstWriteAt := Some(now))) else l
  }

  /** A record that still depends on a leg, as outstandingForLeg counts it. */
  predicate DependsOn(r: Record, leg: LegId) {
    || r.ordinaryOwner == Some(leg)
    || r.lastSentLeg == Some(leg)
    || Claims(r.transit, leg, None)
    || Claims(r.rescue, leg, None)
  }

  // ----------------------------------------------------------- ordinary ownership

  function EnsureLeg(l: Ledger, leg: LegId): Ledger {
    var grow := Zeros(Max(0, leg + 1 - |l.ordinaryFrames|));
    l.(ordinaryFrames := l.ordinaryFrames + grow, ordinaryBytes := l.ordinaryBytes + grow,
        pendingBytes := l.pendingBytes + grow)
  }

  /** Moves one record's contribution to a leg's three counters by `sign` (+1 or -1). */
  function Charge(l: Ledger, leg: LegId, r: Record, sign: int): Ledger
    requires leg < |l.ordinaryFrames| == |l.ordinaryBytes| == |l.pendingBytes|
  {
    l.(ordinaryFrames := l.ordinaryFrames[leg := l.ordinaryFrames[leg] + sign],
       ordinaryBytes := l.ordinaryBytes[leg := l.ordinaryBytes[leg] + sign * |r.payload|],
       pendingBytes := if r.ordinaryAdmitted then l.pendingBytes
                       else l.pendingBytes[leg := l.pendingBytes[leg] + sign * |r.payload|])
  }

  function AssignOrdinary(l: Ledger, s: nat, leg: LegId, now: int): (Ledger, bool)
    requires Sound(l)
  {
    var e := EnsureLeg(l, leg);
    if s !in e.outstanding then (e, false)
    else
      var r := e.outstanding[s];
      if r.ordinaryOwner == Some(leg) then (e, true)
      else
        var released := if r.ordinaryOwner.Some? then Charge(e, r.ordinaryOwner.value, r, -1) else e;
        var owned := r.(ordinaryOwner := Some(leg), assignedAt := Some(now));
        (WithRecord(Charge(released, leg, owned, 1), owned), true)
  }

  function MarkOrdinaryAdmitted(l: Ledger, s: nat, leg: LegId): Ledger
    requires Sound(l)
  {
    var e := EnsureLeg(l, leg);
    if s !in e.outstanding || e.outstanding[s].ordinaryOwner != Some(leg) || e.outstanding[s].ordinaryAdmitted then e
    else
      var r := e.outstanding[s];
      WithRecord(e.(pendingBytes := e.pendingBytes[leg := e.pendingBytes[leg] - |r.payload|]),
          r.(ordinaryAdmitted := true))
  }

  // ------------------------------------------------------------- sums over a range

  /** Sum of `f` over the records whose ordinals lie in [lo, hi). */
  function RangeSum(m: map<nat, Record>, lo: nat, hi: nat, f: Record -> nat): nat
    decreases hi - lo
  {
    if hi <= lo then 0 else RangeSum(m, lo, hi - 1, f) + if hi - 1 in m then f(m[hi - 1]) else 0
  }

  lemma {:induction false} RangeSumFront(m: map<nat, Record>, lo: nat, hi: nat, f: Record -> nat)
    requires lo < hi
    ensures RangeSum(m, lo, hi, f) == (if lo in m then f(m[lo]) else 0) + RangeSum(m, lo + 1, hi, f)
    decreases hi - lo
  {
    if lo + 1 < hi {
      RangeSumFront(m, lo, hi - 1, f);
    } else {
      assert RangeSum(m, lo, lo, f) == 0;
    }
  }

  lemma {:induction false} RangeSumFrame(m: map<nat, Record>, n: map<nat, Record>, lo: nat, hi: nat, f: Record -> nat)
    requires forall k: nat | lo <= k < hi :: (k in m <==> k in n) && (k in m ==> f(m[k]) == f(n[k]))
    ensures RangeSum(m, lo, hi, f) == RangeSum(n, lo, hi, f)
    decreases hi - lo
  {
    if lo < hi {
      RangeSumFrame(m, n, lo, hi - 1, f);
    }
  }

  lemma {:induction false} RangeSumUpdate(m: map<nat, Record>, lo: nat, hi: nat, f: Record -> nat, r: Record)
    requires lo <= r.sequence < hi && r.sequence in m
    ensures RangeSum(m[r.sequence := r], lo, hi, f) == RangeSum(m, lo, hi, f) - f(m[r.sequence]) + f(r)
    decreases hi - lo
  {
    if r.sequence == hi - 1 {
      RangeSumFrame(m[r.sequence := r], m, lo, hi - 1, f);
    } else {
      RangeSumUpdate(m, lo, hi - 1, f, r);
    }
  }

  function OwnedFrame(leg: LegId): Record -> nat {
    (r: Record) => if r.ordinaryOwner == Some(leg) then 1 else 0
  }

  function OwnedBytes(leg: LegId): Record -> nat {
    (r: Record) => if r.ordinaryOwner == Some(leg) then |r.payload| else 0
  }

  function UnadmittedBytes(leg: LegId): Record -> nat {
    (r: Record) => if r.ordinaryOwner == Some(leg) && !r.ordinaryAdmitted then |r.payload| else 0
  }

  // ------------------------------------------------------------------- invariant

  /** `outstanding` is exactly the window between the two frontiers. */
  ghost predicate WindowShape(l: Ledger) {
    && l.ackedNext <= l.nextSequence
    && (forall k: nat :: k in l.outstanding <==> l.ackedNext <= k < l.nextSequence)
    && (forall k <- l.outstanding :: l.outstanding[k].sequence == k)
  }

  ghost predicate LegsShape(l: Ledger) {
    && 2 <= |l.ordinaryFrames| == |l.ordinaryBytes| == |l.pendingBytes| <= MAX_LEG_IDS
    && (forall k <- l.outstanding :: l.outstanding[k].ordinaryOwner.Some? ==>
                                       l.outstanding[k].ordinaryOwner.value < |l.ordinaryFrames|)
  }

  /** One leg's counters are the count and the byte sums over the records it owns. */
  ghost predicate LegBalanced(l: Ledger, leg: LegId)
    requires leg < |l.ordinaryFrames| == |l.ordinaryBytes| == |l.pendingBytes|
  {
    && l.ordinaryFrames[leg] == RangeSum(l.outstanding, l.ackedNext, l.nextSequence, OwnedFrame(leg))
    && l.ordinaryBytes[leg] == RangeSum(l.outstanding, l.ackedNext, l.nextSequence, OwnedBytes(leg))
    && l.pendingBytes[leg] == RangeSum(l.outstanding, l.ackedNext, l.nextSequence, UnadmittedBytes(leg))
  }

  ghost predicate Sound(l: Ledger) {
    && WindowShape(l)
    && LegsShape(l)
    && (forall leg: LegId | leg < |l.ordinaryFrames| :: LegBalanced(l, leg))
  }

  /** No per-leg counter is ever negative: the source's unsigned subtractions never wrap. */
  lemma CountersNeverUnderflow(l: Ledger, leg: LegId)
    requires Sound(l) && leg < |l.ordinaryFrames|
    ensures 0 <= l.pendingBytes[leg] <= l.ordinaryBytes[leg] && 0 <= l.ordinaryFrames[leg]
  {
    assert LegBalanced(l, leg);
    RangeSumMonotone(l.outstanding, l.ackedNext, l.nextSequence, UnadmittedBytes(leg), OwnedBytes(leg));
  }

  lemma {:induction false} RangeSumMonotone(m: map<nat, Record>, lo: nat, hi: nat, f: Record -> nat, g: Record -> nat)
    requires forall r: Record :: f(r) <= g(r)
    ensures RangeSum(m, lo, hi, f) <= RangeSum(m, lo, hi, g)
    decreases hi - lo
  {
    if lo < hi {
      RangeSumMonotone(m, lo, hi - 1, f, g);
      if hi - 1 in m {
        assert f(m[hi - 1]) <= g(m[hi - 1]);
      }
    }
  }

  // -------------------------------------------------------- every step keeps Sound

  lemma EmptySound(maxLegs: nat)
    ensures Sound(EmptyLedger(maxLegs))
  {
  }

  /** The two ledgers differ at most in attempt state. */
  ghost predicate SameStakes(l: Ledger, n: Ledger) {
    && n.(outstanding := l.outstanding) == l
    && n.outstanding.Keys == l.outstanding.Keys
    && (forall k <- l.outstanding :: SameStake(n.outstanding[k], l.outstanding[k]))
  }

  lemma SameStakesKeepSound(l: Ledger, n: Ledger)
    requires Sound(l) && SameStakes(l, n)
    ensures Sound(n)
  {
    forall leg: LegId | leg < |l.ordinaryFrames|
      ensures LegBalanced(n, leg)
    {
      assert LegBalanced(l, leg);
      SameStakesBalance(l, n, leg);
    }
  }

  lemma SameStakesBalance(l: Ledger, n: Ledger, leg: LegId)
    requires SameStakes(l, n) && LegsShape(l) && leg < |l.ordinaryFrames| && LegBalanced(l, leg)
    ensures LegBalanced(n, leg)
  {
    RangeSumFrame(l.outstanding, n.outstanding, l.ackedNext, l.nextSequence, OwnedFrame(leg));
    RangeSumFrame(l.outstanding, n.outstanding, l.ackedNext, l.nextSequence, OwnedBytes(leg));
    RangeSumFrame(l.outstanding, n.outstanding, l.ackedNext, l.nextSequence, UnadmittedBytes(leg));
  }

  lemma AddKeepsSound(l: Ledger, payload: Bytes, now: int, local: bool)
    requires Sound(l)
    ensures Sound(AddRecord(l, payload, now, local))
  {
    forall leg: LegId | leg < |l.ordinaryFrames|
      ensures LegBalanced(AddRecord(l, payload, now, local), leg)
    {
      AddBalances(l, payload, now, local, leg);
    }
  }

  /** A new record is nobody's, so no leg's sums move. */
  lemma AddBalances(l: Ledger, payload: Bytes, now: int, local: bool, leg: LegId)
    requires WindowShape(l) && leg < |l.ordinaryFrames| == |l.ordinaryBytes| == |l.pendingBytes| && LegBalanced(l, leg)
    ensures LegBalanced(AddRecord(l, payload, now, local), leg)
  {
    var n := AddRecord(l, payload, now, local).outstanding;
    RangeSumFrame(l.outstanding, n, l.ackedNext, l.nextSequence, OwnedFrame(leg));
    RangeSumFrame(l.outstanding, n, l.ackedNext, l.nextSequence, OwnedBytes(leg));
    RangeSumFrame(l.outstanding, n, l.ackedNext, l.nextSequence, UnadmittedBytes(leg));
  }

  lemma ReplaceKeepsStakes(l: Ledger, r: Record)
    requires WindowShape(l) && r.sequence in l.outstanding && SameStake(r, l.outstanding[r.sequence])
    ensures SameStakes(l, WithRecord(l, r))
  {
  }

  lemma ClaimKeepsStakes(l: Ledger, s: nat, leg: LegId, now: int)
    requires WindowShape(l)
    ensures SameStakes(l, MarkTransit(l, s, leg, now).0)
  {
    if s in l.outstanding {
      ReplaceKeepsStakes(l, Transit(l.outstanding[s], leg, now));
    }
  }

  lemma RescueKeepsStakes(l: Ledger, s: nat, leg: LegId, owner: Option<LegId>, now: int)
    requires WindowShape(l)
    ensures SameStakes(l, MarkRescueTransit(l, s, leg, owner, now).0)
    ensures SameStakes(l, MarkRescueQueued(l, s, leg, now).0)
  {
    if s in l.outstanding {
      ReplaceKeepsStakes(l, l.outstanding[s].(rescue := Some(Attempt(leg, now)), duplicated := true));
      ReplaceKeepsStakes(l, l.outstanding[s].(lastRescueAt := Some(now)));
    }
  }

  lemma ClearKeepsStakes(l: Ledger, s: nat, leg: LegId, rescue: bool, started: Time)
    requires WindowShape(l)
    ensures SameStakes(l, ClearAttempt(l, s, leg, rescue, started))
  {
    if s in l.outstanding {
      ReplaceKeepsStakes(l, l.outstanding[s].(transit := None));
      if l.outstanding[s].rescue.Some? {
        ReplaceKeepsStakes(l, DropRescue(l.outstanding[s]));
      }
    }
  }

  lemma SentKeepsStakes(l: Ledger, s: nat, leg: LegId, rescue: bool, now: int)
    requires WindowShape(l)
    ensures SameStakes(l, MarkAttemptSent(l, s, leg, rescue, now).0)
    ensures SameStakes(l, MarkWriteStarted(l, s, leg, rescue, now))
  {
    if AttemptCurrent(l, s, leg, rescue) {
      ReplaceKeepsStakes(l, Sent(l.outstanding[s], leg, rescue, now));
      ReplaceKeepsStakes(l, l.outstanding[s].(firstWriteAt := Some(now)));
    }
  }

  lemma LocalKeepsStakes(l: Ledger, s: nat)
    requires WindowShape(l)
    ensures SameStakes(l, FinishLocalEnqueue(l, s))
  {
    if s in l.outstanding {
      ReplaceKeepsStakes(l, l.outstanding[s].(localEnqueue := false));
    }
  }

  lemma InvalidateKeepsStakes(l: Ledger, leg: LegId)
    ensures SameStakes(l, InvalidateLeg(l, leg))
  {
  }

  lemma EnsureKeepsSound(l: Ledger, leg: LegId)
    requires Sound(l)
    ensures Sound(EnsureLeg(l, leg)) && leg < |EnsureLeg(l, leg).ordinaryFrames|
  {
    var e := EnsureLeg(l, leg);
    forall id: LegId | id < |e.ordinaryFrames|
      ensures LegBalanced(e, id)
    {
      if id < |l.ordinaryFrames| {
        assert LegBalanced(l, id);
      } else {
        UnownedSum(l.outstanding, l.ackedNext, l.nextSequence, OwnedFrame(id));
        UnownedSum(l.outstanding, l.ackedNext, l.nextSequence, OwnedBytes(id));
        UnownedSum(l.outstanding, l.ackedNext, l.nextSequence, UnadmittedBytes(id));
      }
    }
  }

  lemma {:induction false} UnownedSum(m: map<nat, Record>, lo: nat, hi: nat, f: Record -> nat)
    requires forall k <- m :: f(m[k]) == 0
    ensures RangeSum(m, lo, hi, f) == 0
    decreases hi - lo
  {
    if lo < hi {
      UnownedSum(m, lo, hi - 1, f);
    }
  }

  lemma AssignKeepsSound(l: Ledger, s: nat, leg: LegId, now: int)
    requires Sound(l)
    ensures Sound(AssignOrdinary(l, s, leg, now).0)
    ensures AssignOrdinary(l, s, leg, now).1 <==> s in l.outstanding
    ensures s in l.outstanding ==> AssignOrdinary(l, s, leg, now).0.outstanding[s].ordinaryOwner == Some(leg)
  {
    EnsureKeepsSound(l, leg);
    var e := EnsureLeg(l, leg);
    if s in e.outstanding && e.outstanding[s].ordinaryOwner != Some(leg) {
      var l' := AssignOrdinary(l, s, leg, now).0;
      forall id: LegId | id < |e.ordinaryFrames|
        ensures LegBalanced(l', id)
      {
        MoveBalances(e, e.outstanding[s], leg, now, id);
      }
    }
  }

  /** The three sums of any leg move exactly as Charge moves its counters. */
  lemma MoveBalances(e: Ledger, r: Record, leg: LegId, now: int, id: LegId)
    requires Sound(e) && r.sequence in e.outstanding && r == e.outstanding[r.sequence]
    requires leg < |e.ordinaryFrames| && r.ordinaryOwner != Some(leg) && id < |e.ordinaryFrames|
    ensures var released := if r.ordinaryOwner.Some? then Charge(e, r.ordinaryOwner.value, r, -1) else e;
            var owned := r.(ordinaryOwner := Some(leg), assignedAt := Some(now));
            LegBalanced(WithRecord(Charge(released, leg, owned, 1), owned), id)
  {
    assert LegBalanced(e, id);
    var owned := r.(ordinaryOwner := Some(leg), assignedAt := Some(now));
    RangeSumUpdate(e.outstanding, e.ackedNext, e.nextSequence, OwnedFrame(id), owned);
    RangeSumUpdate(e.outstanding, e.ackedNext, e.nextSequence, OwnedBytes(id), owned);
    RangeSumUpdate(e.outstanding, e.ackedNext, e.nextSequence, UnadmittedBytes(id), owned);
  }

  lemma AdmitKeepsSound(l: Ledger, s: nat, leg: LegId)
    requires Sound(l)
    ensures Sound(MarkOrdinaryAdmitted(l, s, leg))
  {
    EnsureKeepsSound(l, leg);
    var e := EnsureLeg(l, leg);
    var l' := MarkOrdinaryAdmitted(l, s, leg);
    if s in e.outstanding {
      var admitted := e.outstanding[s].(ordinaryAdmitted := true);
      forall id: LegId | id < |e.ordinaryFrames|
        ensures LegBalanced(l', id)
      {
        assert LegBalanced(e, id);
        RangeSumUpdate(e.outstanding, e.ackedNext, e.nextSequence, OwnedFrame(id), admitted);
        RangeSumUpdate(e.outstanding, e.ackedNext, e.nextSequence, OwnedBytes(id), admitted);
        RangeSumUpdate(e.outstanding, e.ackedNext, e.nextSequence, UnadmittedBytes(id), admitted);
      }
    }
  }
}

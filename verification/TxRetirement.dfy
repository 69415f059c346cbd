/** Cumulative-ACK retirement: StreamTXLedger.ApplyACK (core/stream_tx.go). */
module TxRetirement {
  import opened Prelude
  import opened StreamTx

  datatype AckDisposition = NoProgress | Advanced | Future

  /** What one retired, owned record proves about its owner's service. */
  datatype Proof = Timely | Ordered | RejectedDuplicate | RejectedUnwritten | RejectedLate

  /** StreamTXACKLegResult. A feedback age of 0 stands for none. */
  datatype LegTally = LegTally(
    beforeFrames: int,
    beforeBytes: int,
    ackedBytes: nat,
    sampleBytes: nat,
    sampleAssignedMin: Time,
    feedbackMin: nat,
    feedbackMax: nat,
    uniqueTimely: nat,
    uniqueOrdered: nat,
    uniqueBytes: nat,
    uniqueGeneration: nat,
    rejectedDuplicate: nat,
    rejectedUnwritten: nat,
    rejectedLate: nat)

  datatype AckResult = AckResult(
    disposition: AckDisposition,
    released: nat,
    retiredBytes: nat,
    perLeg: seq<LegTally>)

  /** The retirement loop's state: `ledger.ackedNext` is the loop cursor. */
  datatype Retirement = Retirement(ledger: Ledger, result: AckResult)

  // ------------------------------------------------------------------ one record

  /** The leg credited with a retired record's bytes: last completed write, else
      the claimed one, else the logical owner. A rescue claim is never credited. */
  function CreditedLeg(r: Record): Option<LegId> {
    if r.lastSentLeg.Some? then r.lastSentLeg
    else if r.transit.Some? then Some(r.transit.value.leg)
    else r.ordinaryOwner
  }

  function ClassifyProof(r: Record, head: Option<Record>, now: int): Proof {
    if r.duplicated || r.sendCount > 1 then RejectedDuplicate
    else if r.firstWriteAt == None then RejectedUnwritten
    else
      var startedAt := if r.probeStartedAt.Some? then r.probeStartedAt.value else r.firstWriteAt.value;
      if now - startedAt <= PROOF_BUDGET then Timely
      else if (r.frontierAt.Some? && now - r.frontierAt.value <= PROOF_BUDGET)
              || (head.Some? && head.value.sequence != r.sequence && head.value.ordinaryOwner != r.ordinaryOwner
                  && !head.value.duplicated && head.value.firstWriteAt.Some?)
      then Ordered
      else RejectedLate
  }

  /** Owned, written, and never sent a second time: its bytes are a sample of the leg's rate. */
  predicate Clean(r: Record) {
    r.ordinaryOwner.Some? && !r.duplicated && r.firstWriteAt.Some?
  }

  /** The lesser of two optional numbers. */
  function Least(a: Option<int>, b: Option<int>): Option<int> {
    if a.None? then b else if b.None? || a.value <= b.value then a else b
  }

  function Credit(t: LegTally, r: Record): (n: LegTally)
    ensures Judged(n) == Judged(t) && n.beforeFrames == t.beforeFrames && n.ackedBytes == t.ackedBytes + |r.payload|
  {
    if !Clean(r) then t.(ackedBytes := t.ackedBytes + |r.payload|)
    else t.(ackedBytes := t.ackedBytes + |r.payload|, sampleBytes := t.sampleBytes + |r.payload|,
            sampleAssignedMin := Least(t.sampleAssignedMin, r.assignedAt))
  }

  /** How long the record's proof has been under way. */
  function ProofAge(r: Record, now: int): int {
    if r.probeStartedAt.Some? then now - r.probeStartedAt.value
    else if r.firstWriteAt.Some? then now - r.firstWriteAt.value
    else 0
  }

  function Judge(t: LegTally, r: Record, p: Proof, now: int): (n: LegTally)
    ensures Judged(n) == Judged(t) + 1 && n.beforeFrames == t.beforeFrames && n.ackedBytes == t.ackedBytes
  {
    match p
    case RejectedDuplicate => t.(rejectedDuplicate := t.rejectedDuplicate + 1)
    case RejectedUnwritten => t.(rejectedUnwritten := t.rejectedUnwritten + 1)
    case RejectedLate => Measure(t.(rejectedLate := t.rejectedLate + 1), r, now)
    case Timely => Measure(Confirm(t.(uniqueTimely := t.uniqueTimely + 1), r), r, now)
    case Ordered => Measure(Confirm(t.(uniqueOrdered := t.uniqueOrdered + 1), r), r, now)
  }

  function Measure(t: LegTally, r: Record, now: int): LegTally {
    var age := ProofAge(r, now);
    t.(uniqueGeneration := r.originGeneration,
       feedbackMax := if age > t.feedbackMax then age else t.feedbackMax,
       feedbackMin := if age > 0 && (t.feedbackMin == 0 || age < t.feedbackMin) then age else t.feedbackMin)
  }

  function Confirm(t: LegTally, r: Record): LegTally {
    t.(uniqueBytes := t.uniqueBytes + if r.assignedAt.Some? then |r.payload| else 0)
  }

  /** Number of records a tally has judged. */
  function Judged(t: LegTally): nat {
    t.uniqueTimely + t.uniqueOrdered + t.rejectedDuplicate + t.rejectedUnwritten + t.rejectedLate
  }

  function Credited(tallies: seq<LegTally>, r: Record): seq<LegTally> {
    var leg := CreditedLeg(r);
    if leg.Some? && leg.value < |tallies| then tallies[leg.value := Credit(tallies[leg.value], r)] else tallies
  }

  function RetireFront(t: Retirement, head: Option<Record>, now: int): Retirement
    requires Shape(t)
  {
    var l := t.ledger;
    var s := l.ackedNext;
    if s !in l.outstanding then t.(ledger := l.(ackedNext := s + 1))
    else
      var r := l.outstanding[s];
      var tallies := Credited(t.result.perLeg, r);
      var gone := l.(outstanding := l.outstanding - {s}, ackedNext := s + 1);
      var result := t.result.(released := t.result.released + 1,
                              retiredBytes := t.result.retiredBytes + |r.payload|,
                              perLeg := tallies);
      if r.ordinaryOwner.Some? && r.ordinaryOwner.value < |l.ordinaryFrames| then
        var id := r.ordinaryOwner.value;
        Retirement(Charge(gone, id, r, -1),
                   result.(perLeg := tallies[id := Judge(tallies[id], r, ClassifyProof(r, head, now), now)]))
      else Retirement(gone, result)
  }

  /** Retires every record below `next`. */
  function RetireTo(t: Retirement, next: nat, head: Option<Record>, now: int): Retirement
    requires Shape(t)
    decreases next - t.ledger.ackedNext
  {
    if next <= t.ledger.ackedNext then t else RetireTo(RetireFront(t, head, now), next, head, now)
  }

  predicate Shape(t: Retirement) {
    |t.result.perLeg| == |t.ledger.ordinaryFrames| == |t.ledger.ordinaryBytes| == |t.ledger.pendingBytes|
  }

  // -------------------------------------------------------------------- the ACK

  function OpenTallies(l: Ledger): (r: seq<LegTally>)
    requires |l.ordinaryFrames| == |l.ordinaryBytes|
    ensures |r| == |l.ordinaryFrames|
  {
    seq(|l.ordinaryFrames|, i requires 0 <= i < |l.ordinaryFrames| =>
      LegTally(l.ordinaryFrames[i], l.ordinaryBytes[i], 0, 0, None, 0, 0, 0, 0, 0, 0, 0, 0, 0))
  }

  function Opening(l: Ledger): Retirement
    requires |l.ordinaryFrames| == |l.ordinaryBytes|
  {
    Retirement(l, AckResult(Advanced, 0, 0, OpenTallies(l)))
  }

  function HeadOf(l: Ledger): Option<Record> {
    if l.ackedNext in l.outstanding then Some(l.outstanding[l.ackedNext]) else None
  }

  /** The frontier record learns when it started blocking. */
  function ExposeFrontier(l: Ledger, now: int): Ledger {
    if l.ackedNext in l.outstanding && l.outstanding[l.ackedNext].frontierAt == None
    then l.(outstanding := l.outstanding[l.ackedNext := l.outstanding[l.ackedNext].(frontierAt := Some(now))])
    else l
  }

  function ApplyAck(l: Ledger, next: nat, now: int): (Ledger, AckResult)
    requires |l.ordinaryFrames| == |l.ordinaryBytes| == |l.pendingBytes|
  {
    if next > l.nextSequence then (l.(futureAcks := l.futureAcks + 1), AckResult(Future, 0, 0, []))
    else if next <= l.ackedNext then (l, AckResult(NoProgress, 0, 0, []))
    else
      var t := RetireTo(Opening(l), next, HeadOf(l), now);
      var exposed := ExposeFrontier(t.ledger, now);
      (if t.result.released > 0 then exposed.(lastAckProgress := Some(now)) else exposed, t.result)
  }

  // ------------------------------------------------------------------- theorems

  /** Bytes credited to some leg, summed over the legs. */
  function CreditTotal(tallies: seq<LegTally>): nat {
    if tallies == [] then 0 else CreditTotal(tallies[..|tallies| - 1]) + tallies[|tallies| - 1].ackedBytes
  }

  function RecordBytes(r: Record): nat {
    |r.payload|
  }

  /** Bytes a ledger of `legs` legs can attribute to one of them. */
  function CreditableBytes(legs: nat): Record -> nat {
    (r: Record) => if CreditedLeg(r).Some? && CreditedLeg(r).value < legs then |r.payload| else 0
  }

  lemma FrontKeepsSound(t: Retirement, head: Option<Record>, now: int)
    requires Shape(t) && Sound(t.ledger) && t.ledger.ackedNext < t.ledger.nextSequence
    ensures var t' := RetireFront(t, head, now);
            && Shape(t') && Sound(t'.ledger)
            && t'.ledger.outstanding == t.ledger.outstanding - {t.ledger.ackedNext}
            && t'.ledger.nextSequence == t.ledger.nextSequence
            && |t'.ledger.ordinaryFrames| == |t.ledger.ordinaryFrames|
  {
    var l, l' := t.ledger, RetireFront(t, head, now).ledger;
    forall leg: LegId | leg < |l.ordinaryFrames|
      ensures LegBalanced(l', leg)
    {
      assert LegBalanced(l, leg);
      FrontBalances(l, l', leg);
    }
  }

  /** Dropping the front record takes its contribution out of the three sums. */
  lemma FrontBalances(l: Ledger, n: Ledger, leg: LegId)
    requires WindowShape(l) && LegsShape(l) && l.ackedNext < l.nextSequence && leg < |l.ordinaryFrames|
    requires n.nextSequence == l.nextSequence && n.ackedNext == l.ackedNext + 1
    requires n.outstanding == l.outstanding - {l.ackedNext}
    ensures forall f: Record -> nat ::
              RangeSum(n.outstanding, n.ackedNext, n.nextSequence, f)
              == RangeSum(l.outstanding, l.ackedNext, l.nextSequence, f) - f(l.outstanding[l.ackedNext])
  {
    forall f: Record -> nat
      ensures RangeSum(n.outstanding, n.ackedNext, n.nextSequence, f)
              == RangeSum(l.outstanding, l.ackedNext, l.nextSequence, f) - f(l.outstanding[l.ackedNext])
    {
      RangeSumFront(l.outstanding, l.ackedNext, l.nextSequence, f);
      RangeSumFrame(l.outstanding, n.outstanding, n.ackedNext, n.nextSequence, f);
    }
  }

  lemma FrontRange(m: map<nat, Record>, lo: nat, hi: nat, f: Record -> nat)
    requires lo < hi && lo in m
    ensures RangeSum(m, lo, hi, f) == f(m[lo]) + RangeSum(m - {lo}, lo + 1, hi, f)
  {
    RangeSumFront(m, lo, hi, f);
    RangeSumFrame(m, m - {lo}, lo + 1, hi, f);
  }

  /** Retiring up to `next` keeps every counter balanced and leaves exactly the
      records from `next` on, untouched. */
  lemma {:induction false} RetireKeepsSound(t: Retirement, next: nat, head: Option<Record>, now: int)
    requires Shape(t) && Sound(t.ledger) && t.ledger.ackedNext <= next <= t.ledger.nextSequence
    ensures var n := RetireTo(t, next, head, now).ledger;
            && Sound(n) && Shape(RetireTo(t, next, head, now))
            && n.ackedNext == next && n.nextSequence == t.ledger.nextSequence
            && n.outstanding == (map k | k in t.ledger.outstanding && next <= k :: t.ledger.outstanding[k])
            && |n.ordinaryFrames| == |t.ledger.ordinaryFrames|
    decreases next - t.ledger.ackedNext
  {
    if t.ledger.ackedNext < next {
      FrontKeepsSound(t, head, now);
      RetireKeepsSound(RetireFront(t, head, now), next, head, now);
    }
  }

  /** Conservation: the loop counts every retired record once, and every byte of it once. */
  lemma {:induction false} RetireTotals(t: Retirement, next: nat, head: Option<Record>, now: int)
    requires Shape(t) && Sound(t.ledger) && t.ledger.ackedNext <= next <= t.ledger.nextSequence
    ensures var l, r := t.ledger, RetireTo(t, next, head, now).result;
            && r.disposition == t.result.disposition
            && r.released == t.result.released + (next - l.ackedNext)
            && r.retiredBytes == t.result.retiredBytes + RangeSum(l.outstanding, l.ackedNext, next, RecordBytes)
    decreases next - t.ledger.ackedNext
  {
    if t.ledger.ackedNext < next {
      FrontKeepsSound(t, head, now);
      RetireTotals(RetireFront(t, head, now), next, head, now);
      FrontRange(t.ledger.outstanding, t.ledger.ackedNext, next, RecordBytes);
    }
  }

  lemma FrontJudgesOnce(t: Retirement, head: Option<Record>, now: int, leg: LegId)
    requires Shape(t) && Sound(t.ledger) && t.ledger.ackedNext < t.ledger.nextSequence && leg < |t.result.perLeg|
    ensures var t' := RetireFront(t, head, now);
            && Shape(t') && leg < |t'.result.perLeg|
            && Judged(t'.result.perLeg[leg]) + t'.ledger.ordinaryFrames[leg]
               == Judged(t.result.perLeg[leg]) + t.ledger.ordinaryFrames[leg]
            && t'.result.perLeg[leg].beforeFrames == t.result.perLeg[leg].beforeFrames
  {
  }

  /** Every record a leg stops owning is judged by that leg exactly once: it is
      timely, ordered, or in exactly one of the three rejection classes. */
  lemma {:induction false} RetireJudgesOnce(t: Retirement, next: nat, head: Option<Record>, now: int, leg: LegId)
    requires Shape(t) && Sound(t.ledger) && t.ledger.ackedNext <= next <= t.ledger.nextSequence
    requires leg < |t.result.perLeg|
    ensures var t' := RetireTo(t, next, head, now);
            && Shape(t') && leg < |t'.result.perLeg|
            && Judged(t'.result.perLeg[leg]) + t'.ledger.ordinaryFrames[leg]
               == Judged(t.result.perLeg[leg]) + t.ledger.ordinaryFrames[leg]
            && t'.result.perLeg[leg].beforeFrames == t.result.perLeg[leg].beforeFrames
    decreases next - t.ledger.ackedNext
  {
    if t.ledger.ackedNext < next {
      FrontKeepsSound(t, head, now);
      FrontJudgesOnce(t, head, now, leg);
      RetireJudgesOnce(RetireFront(t, head, now), next, head, now, leg);
    }
  }

  lemma {:induction false} CreditOne(tallies: seq<LegTally>, r: Record)
    ensures CreditTotal(Credited(tallies, r)) == CreditTotal(tallies) + CreditableBytes(|tallies|)(r)
    ensures |Credited(tallies, r)| == |tallies|
  {
    var leg := CreditedLeg(r);
    if leg.Some? && leg.value < |tallies| {
      CreditUpdate(tallies, leg.value, Credit(tallies[leg.value], r));
    }
  }

  lemma {:induction false} CreditUpdate(tallies: seq<LegTally>, i: nat, v: LegTally)
    requires i < |tallies|
    ensures CreditTotal(tallies[i := v]) == CreditTotal(tallies) - tallies[i].ackedBytes + v.ackedBytes
  {
    var front := tallies[..|tallies| - 1];
    if i == |tallies| - 1 {
      assert tallies[i := v][..i] == front;
    } else {
      CreditUpdate(front, i, v);
      assert tallies[i := v][..|tallies| - 1] == front[i := v];
    }
  }

  lemma FrontCredits(t: Retirement, head: Option<Record>, now: int)
    requires Shape(t) && Sound(t.ledger) && t.ledger.ackedNext < t.ledger.nextSequence
    ensures CreditTotal(RetireFront(t, head, now).result.perLeg)
            == CreditTotal(t.result.perLeg)
               + CreditableBytes(|t.result.perLeg|)(t.ledger.outstanding[t.ledger.ackedNext])
  {
    var r := t.ledger.outstanding[t.ledger.ackedNext];
    var tallies := Credited(t.result.perLeg, r);
    CreditOne(t.result.perLeg, r);
    if r.ordinaryOwner.Some? {
      var id := r.ordinaryOwner.value;
      CreditUpdate(tallies, id, Judge(tallies[id], r, ClassifyProof(r, head, now), now));
    }
  }

  /** Useful bytes are attributed exactly once: summed over the legs they are the
      bytes of the retired records that name a leg at all. */
  lemma {:induction false} RetireCreditsOnce(t: Retirement, next: nat, head: Option<Record>, now: int)
    requires Shape(t) && Sound(t.ledger) && t.ledger.ackedNext <= next <= t.ledger.nextSequence
    ensures var l := t.ledger;
            CreditTotal(RetireTo(t, next, head, now).result.perLeg)
            == CreditTotal(t.result.perLeg)
               + RangeSum(l.outstanding, l.ackedNext, next, CreditableBytes(|t.result.perLeg|))
    decreases next - t.ledger.ackedNext
  {
    if t.ledger.ackedNext < next {
      FrontKeepsSound(t, head, now);
      var t', f := RetireFront(t, head, now), CreditableBytes(|t.result.perLeg|);
      assert CreditTotal(RetireTo(t, next, head, now).result.perLeg)
             == CreditTotal(t'.result.perLeg) + RangeSum(t'.ledger.outstanding, t'.ledger.ackedNext, next, f) by {
        RetireCreditsOnce(t', next, head, now);
      }
      assert CreditTotal(t'.result.perLeg)
             == CreditTotal(t.result.perLeg) + f(t.ledger.outstanding[t.ledger.ackedNext]) by {
        FrontCredits(t, head, now);
      }
      FrontRange(t.ledger.outstanding, t.ledger.ackedNext, next, f);
    }
  }

  lemma {:induction false} OpenCreditZero(tallies: seq<LegTally>)
    requires forall t <- tallies :: t.ackedBytes == 0
    ensures CreditTotal(tallies) == 0
  {
    if tallies != [] {
      OpenCreditZero(tallies[..|tallies| - 1]);
    }
  }

  // ------------------------------------------------------- ApplyACK, as one step

  /** A cumulative ACK moves the frontier to `next` if that is inside the window and
      is otherwise inert; the ledger stays balanced in every case. */
  lemma AckKeepsSound(l: Ledger, next: nat, now: int)
    requires Sound(l)
    ensures var (n, r) := ApplyAck(l, next, now);
            && Sound(n) && n.nextSequence == l.nextSequence
            && (r.disposition == Advanced <==> l.ackedNext < next <= l.nextSequence)
            && (r.disposition == Future <==> l.nextSequence < next)
            && n.ackedNext == (if r.disposition == Advanced then next else l.ackedNext)
            && r.released == n.ackedNext - l.ackedNext
            && (forall k: nat | n.ackedNext <= k < n.nextSequence ::
                  n.outstanding[k].payload == l.outstanding[k].payload)
  {
    if l.ackedNext < next <= l.nextSequence {
      RetireKeepsSound(Opening(l), next, HeadOf(l), now);
      RetireTotals(Opening(l), next, HeadOf(l), now);
      var t := RetireTo(Opening(l), next, HeadOf(l), now);
      var e := ExposeFrontier(t.ledger, now);
      ExposeKeepsStakes(t.ledger, now);
      SameStakesKeepSound(t.ledger, e);
      SoundIgnoresClock(e, Some(now));
    } else {
      SoundIgnoresFutureAcks(l);
    }
  }

  lemma ExposeKeepsStakes(l: Ledger, now: int)
    requires WindowShape(l)
    ensures SameStakes(l, ExposeFrontier(l, now))
  {
  }

  lemma SoundIgnoresClock(l: Ledger, at: Time)
    requires Sound(l)
    ensures Sound(l.(lastAckProgress := at))
  {
    var n := l.(lastAckProgress := at);
    forall leg: LegId | leg < |l.ordinaryFrames|
      ensures LegBalanced(n, leg)
    {
      assert LegBalanced(l, leg);
    }
  }

  lemma SoundIgnoresFutureAcks(l: Ledger)
    requires Sound(l)
    ensures Sound(l.(futureAcks := l.futureAcks + 1))
  {
    var n := l.(futureAcks := l.futureAcks + 1);
    forall leg: LegId | leg < |l.ordinaryFrames|
      ensures LegBalanced(n, leg)
    {
      assert LegBalanced(l, leg);
    }
  }

  /** What one advancing ACK reports: the records and bytes of [ackedNext, next),
      per leg one verdict for each record it stopped owning, and attributed bytes
      that never exceed the retired ones. */
  lemma AckReportIsExact(l: Ledger, next: nat, now: int, leg: LegId)
    requires Sound(l) && l.ackedNext < next <= l.nextSequence && leg < |l.ordinaryFrames|
    ensures var (n, r) := ApplyAck(l, next, now);
            && r.released == next - l.ackedNext
            && r.retiredBytes == RangeSum(l.outstanding, l.ackedNext, next, RecordBytes)
            && |r.perLeg| == |n.ordinaryFrames| == |l.ordinaryFrames|
            && r.perLeg[leg].beforeFrames == l.ordinaryFrames[leg]
            && Judged(r.perLeg[leg]) == l.ordinaryFrames[leg] - n.ordinaryFrames[leg]
            && CreditTotal(r.perLeg) == RangeSum(l.outstanding, l.ackedNext, next, CreditableBytes(|l.ordinaryFrames|))
            && CreditTotal(r.perLeg) <= r.retiredBytes
  {
    var t := Opening(l);
    RetireKeepsSound(t, next, HeadOf(l), now);
    RetireTotals(t, next, HeadOf(l), now);
    RetireJudgesOnce(t, next, HeadOf(l), now, leg);
    OpenCreditZero(t.result.perLeg);
    RetireCreditsOnce(t, next, HeadOf(l), now);
    RangeSumMonotone(l.outstanding, l.ackedNext, next, CreditableBytes(|l.ordinaryFrames|), RecordBytes);
  }
}

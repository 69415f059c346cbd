/** What a cumulative ACK reports about each leg, field by field, as sums and extremes over the
    retired records (core/stream_tx.go: ApplyACK). */
module AckReport {
  import opened Prelude
  import opened StreamTx
  import opened TxRetirement

  /** What retiring one record does to one leg's tally, whatever the other legs' are. */
  function Touched(t: LegTally, leg: LegId, r: Record, head: Option<Record>, now: int): LegTally {
    var credited := if CreditedLeg(r) == Some(leg) then Credit(t, r) else t;
    if r.ordinaryOwner == Some(leg) then Judge(credited, r, ClassifyProof(r, head, now), now) else credited
  }

  function Touch(leg: LegId, head: Option<Record>, now: int): (LegTally, Record) -> LegTally {
    (t: LegTally, r: Record) => Touched(t, leg, r, head, now)
  }

  /** A left fold over the records with sequence numbers in [lo, hi). */
  function Fold<T>(o: map<nat, Record>, lo: nat, hi: nat, step: (T, Record) -> T, t: T): T
    decreases hi - lo
  {
    if hi <= lo then t else Fold(o, lo + 1, hi, step, if lo in o then step(t, o[lo]) else t)
  }

  lemma {:induction false} FoldFrame<T>(o: map<nat, Record>, n: map<nat, Record>, lo: nat, hi: nat,
                                        step: (T, Record) -> T, t: T)
    requires forall k: nat | lo <= k < hi :: (k in o <==> k in n) && (k in o ==> o[k] == n[k])
    ensures Fold(o, lo, hi, step, t) == Fold(n, lo, hi, step, t)
    decreases hi - lo
  {
    if lo < hi {
      FoldFrame(o, n, lo + 1, hi, step, if lo in o then step(t, o[lo]) else t);
    }
  }

  lemma FrontTouches(t: Retirement, head: Option<Record>, now: int, leg: LegId)
    requires Shape(t) && Sound(t.ledger) && t.ledger.ackedNext < t.ledger.nextSequence && leg < |t.result.perLeg|
    ensures var t' := RetireFront(t, head, now);
            && Shape(t') && leg < |t'.result.perLeg|
            && t'.result.perLeg[leg] == Touch(leg, head, now)(t.result.perLeg[leg],
                                                              t.ledger.outstanding[t.ledger.ackedNext])
  {
  }

  /** One leg's share of the loop, without the loop's other state. */
  lemma {:induction false} RetireFolds(t: Retirement, next: nat, head: Option<Record>, now: int, leg: LegId)
    requires Shape(t) && Sound(t.ledger) && t.ledger.ackedNext <= next <= t.ledger.nextSequence
    requires leg < |t.result.perLeg|
    ensures var t' := RetireTo(t, next, head, now);
            && leg < |t'.result.perLeg|
            && t'.result.perLeg[leg] == Fold(t.ledger.outstanding, t.ledger.ackedNext, next, Touch(leg, head, now),
                                             t.result.perLeg[leg])
    decreases next - t.ledger.ackedNext
  {
    if t.ledger.ackedNext < next {
      FrontKeepsSound(t, head, now);
      FrontTouches(t, head, now, leg);
      var t' := RetireFront(t, head, now);
      RetireFolds(t', next, head, now, leg);
      FoldFrame(t.ledger.outstanding, t'.ledger.outstanding, t'.ledger.ackedNext, next, Touch(leg, head, now),
                t'.result.perLeg[leg]);
    }
  }

  lemma ReportFolds(l: Ledger, next: nat, now: int, leg: LegId)
    requires Sound(l) && l.ackedNext < next <= l.nextSequence && leg < |l.ordinaryFrames|
    ensures var r := ApplyAck(l, next, now).1;
            && leg < |r.perLeg|
            && r.perLeg[leg] == Fold(l.outstanding, l.ackedNext, next, Touch(leg, HeadOf(l), now), OpenTallies(l)[leg])
  {
    RetireFolds(Opening(l), next, HeadOf(l), now, leg);
  }

  // --------------------------------------------------------------------------------- sums

  /** If every record adds its share, the fold adds their sum. */
  lemma {:induction false} FoldSums<T(!new)>(o: map<nat, Record>, lo: nat, hi: nat, step: (T, Record) -> T, t: T,
                                       count: T -> nat, share: Record -> nat)
    requires forall t: T, r: Record :: count(step(t, r)) == count(t) + share(r)
    ensures count(Fold(o, lo, hi, step, t)) == count(t) + RangeSum(o, lo, hi, share)
    decreases hi - lo
  {
    if lo < hi {
      FoldSums(o, lo + 1, hi, step, if lo in o then step(t, o[lo]) else t, count, share);
      RangeSumFront(o, lo, hi, share);
    }
  }

  function AckedShare(leg: LegId): Record -> nat {
    (r: Record) => if CreditedLeg(r) == Some(leg) then |r.payload| else 0
  }

  function SampleShare(leg: LegId): Record -> nat {
    (r: Record) => if CreditedLeg(r) == Some(leg) && Clean(r) then |r.payload| else 0
  }

  /** One for every record the leg owned and judged this way. */
  function ProofShare(leg: LegId, head: Option<Record>, now: int, p: Proof): Record -> nat {
    (r: Record) => if r.ordinaryOwner == Some(leg) && ClassifyProof(r, head, now) == p then 1 else 0
  }

  function UniqueShare(leg: LegId, head: Option<Record>, now: int): Record -> nat {
    (r: Record) => if r.ordinaryOwner == Some(leg) && ClassifyProof(r, head, now) in {Timely, Ordered}
                      && r.assignedAt.Some? then |r.payload| else 0
  }

  function ProofCount(t: LegTally, p: Proof): nat {
    match p
    case Timely => t.uniqueTimely
    case Ordered => t.uniqueOrdered
    case RejectedDuplicate => t.rejectedDuplicate
    case RejectedUnwritten => t.rejectedUnwritten
    case RejectedLate => t.rejectedLate
  }

  lemma BytesAdd(leg: LegId, head: Option<Record>, now: int, t: LegTally, r: Record)
    ensures var n := Touched(t, leg, r, head, now);
            && n.ackedBytes == t.ackedBytes + AckedShare(leg)(r)
            && n.sampleBytes == t.sampleBytes + SampleShare(leg)(r)
            && n.uniqueBytes == t.uniqueBytes + UniqueShare(leg, head, now)(r)
  {
  }

  lemma ProofsAdd(leg: LegId, head: Option<Record>, now: int, t: LegTally, r: Record, p: Proof)
    ensures ProofCount(Touched(t, leg, r, head, now), p) == ProofCount(t, p) + ProofShare(leg, head, now, p)(r)
  {
  }

  /** The bytes an advancing ACK credits to a leg, and the sampled ones among them. */
  lemma LegBytesAreExact(l: Ledger, next: nat, now: int, leg: LegId)
    requires Sound(l) && l.ackedNext < next <= l.nextSequence && leg < |l.ordinaryFrames|
    ensures var r := ApplyAck(l, next, now).1;
            var o, lo := l.outstanding, l.ackedNext;
            && leg < |r.perLeg|
            && r.perLeg[leg].ackedBytes == RangeSum(o, lo, next, AckedShare(leg))
            && r.perLeg[leg].sampleBytes == RangeSum(o, lo, next, SampleShare(leg))
  {
    var o, lo, head, t := l.outstanding, l.ackedNext, HeadOf(l), OpenTallies(l)[leg];
    ReportFolds(l, next, now, leg);
    forall t: LegTally, r: Record
      ensures var n := Touch(leg, head, now)(t, r);
              && n.ackedBytes == t.ackedBytes + AckedShare(leg)(r)
              && n.sampleBytes == t.sampleBytes + SampleShare(leg)(r)
    {
      BytesAdd(leg, head, now, t, r);
    }
    FoldSums(o, lo, next, Touch(leg, head, now), t, (y: LegTally) => y.ackedBytes, AckedShare(leg));
    FoldSums(o, lo, next, Touch(leg, head, now), t, (y: LegTally) => y.sampleBytes, SampleShare(leg));
  }

  /** The number of records in each class of proof, and the bytes of the proven ones. */
  lemma LegProofsAreExact(l: Ledger, next: nat, now: int, leg: LegId, p: Proof)
    requires Sound(l) && l.ackedNext < next <= l.nextSequence && leg < |l.ordinaryFrames|
    ensures var r := ApplyAck(l, next, now).1;
            var o, lo, head := l.outstanding, l.ackedNext, HeadOf(l);
            && leg < |r.perLeg|
            && ProofCount(r.perLeg[leg], p) == RangeSum(o, lo, next, ProofShare(leg, head, now, p))
            && r.perLeg[leg].uniqueBytes == RangeSum(o, lo, next, UniqueShare(leg, head, now))
  {
    var o, lo, head, t := l.outstanding, l.ackedNext, HeadOf(l), OpenTallies(l)[leg];
    ReportFolds(l, next, now, leg);
    forall t: LegTally, r: Record
      ensures var n := Touch(leg, head, now)(t, r);
              && ProofCount(n, p) == ProofCount(t, p) + ProofShare(leg, head, now, p)(r)
              && n.uniqueBytes == t.uniqueBytes + UniqueShare(leg, head, now)(r)
    {
      ProofsAdd(leg, head, now, t, r, p);
      BytesAdd(leg, head, now, t, r);
    }
    FoldSums(o, lo, next, Touch(leg, head, now), t, (y: LegTally) => ProofCount(y, p), ProofShare(leg, head, now, p));
    FoldSums(o, lo, next, Touch(leg, head, now), t, (y: LegTally) => y.uniqueBytes, UniqueShare(leg, head, now));
  }

  // ----------------------------------------------------------------------------- extremes

  /** `v` is the least sample in the range: a lower bound that some record attains, or none at all. */
  ghost predicate IsLeast(v: Option<int>, o: map<nat, Record>, lo: nat, hi: nat, sample: Record -> Option<int>) {
    && (forall k <- o | lo <= k < hi && sample(o[k]).Some? :: v.Some? && v.value <= sample(o[k]).value)
    && (v.Some? ==> Attained(v, o, lo, hi, sample))
  }

  ghost predicate Attained(v: Option<int>, o: map<nat, Record>, lo: nat, hi: nat, sample: Record -> Option<int>) {
    exists k <- o :: lo <= k < hi && sample(o[k]) == v
  }

  /** If every record offers its sample to a running minimum, the fold ends with the least. */
  lemma {:induction false} FoldLeast<T(!new)>(o: map<nat, Record>, lo: nat, hi: nat, step: (T, Record) -> T, t: T,
                                        least: T -> Option<int>, sample: Record -> Option<int>)
    requires forall t: T, r: Record :: least(step(t, r)) == Least(least(t), sample(r))
    ensures var v := least(Fold(o, lo, hi, step, t));
            && (least(t).Some? ==> v.Some? && v.value <= least(t).value)
            && (v == least(t) || Attained(v, o, lo, hi, sample))
            && (forall k <- o | lo <= k < hi && sample(o[k]).Some? :: v.Some? && v.value <= sample(o[k]).value)
    decreases hi - lo
  {
    if lo < hi {
      var n := if lo in o then step(t, o[lo]) else t;
      FoldLeast(o, lo + 1, hi, step, n, least, sample);
      var v := least(Fold(o, lo, hi, step, t));
      if Attained(v, o, lo + 1, hi, sample) {
        assert Attained(v, o, lo, hi, sample);
      } else if lo in o && least(n) == sample(o[lo]) {
        assert Attained(v, o, lo, hi, sample);
      }
    }
  }

  /** The record's age as a proof of the leg's service, if it gives one. */
  predicate Proves(r: Record, leg: LegId, head: Option<Record>, now: int) {
    && r.ordinaryOwner == Some(leg) && ProofAge(r, now) > 0
    && ClassifyProof(r, head, now) in {Timely, Ordered, RejectedLate}
  }

  function AgeSample(leg: LegId, head: Option<Record>, now: int): Record -> Option<int> {
    (r: Record) => if Proves(r, leg, head, now) then Some(ProofAge(r, now)) else None
  }

  /** The same ages, negated, so that their least is the greatest age. */
  function NegatedAge(leg: LegId, head: Option<Record>, now: int): Record -> Option<int> {
    (r: Record) => if Proves(r, leg, head, now) then Some(-ProofAge(r, now)) else None
  }

  function AssignedSample(leg: LegId): Record -> Option<int> {
    (r: Record) => if CreditedLeg(r) == Some(leg) && Clean(r) then r.assignedAt else None
  }

  function NonZero(age: int): Option<int> {
    if age == 0 then None else Some(age)
  }

  function LeastAge(t: LegTally): Option<int> {
    NonZero(t.feedbackMin)
  }

  /** Negated, like NegatedAge. */
  function GreatestAge(t: LegTally): Option<int> {
    NonZero(0 - t.feedbackMax)
  }

  lemma MeasureOffers(t: LegTally, r: Record, now: int)
    ensures var n, age := Measure(t, r, now), ProofAge(r, now);
            && LeastAge(n) == Least(LeastAge(t), if age > 0 then Some(age) else None)
            && GreatestAge(n) == Least(GreatestAge(t), if age > 0 then Some(-age) else None)
  {
  }

  lemma JudgeAges(t: LegTally, r: Record, p: Proof, now: int)
    ensures var n := Judge(t, r, p, now);
            var m := if p in {Timely, Ordered, RejectedLate} then Measure(t, r, now) else t;
            n.feedbackMin == m.feedbackMin && n.feedbackMax == m.feedbackMax
  {
  }

  lemma AgesOffer(leg: LegId, head: Option<Record>, now: int, t: LegTally, r: Record)
    ensures LeastAge(Touched(t, leg, r, head, now)) == Least(LeastAge(t), AgeSample(leg, head, now)(r))
    ensures GreatestAge(Touched(t, leg, r, head, now)) == Least(GreatestAge(t), NegatedAge(leg, head, now)(r))
  {
    var credited := if CreditedLeg(r) == Some(leg) then Credit(t, r) else t;
    assert LeastAge(credited) == LeastAge(t) && GreatestAge(credited) == GreatestAge(t);
    MeasureOffers(credited, r, now);
    JudgeAges(credited, r, ClassifyProof(r, head, now), now);
  }

  lemma AssignedOffers(leg: LegId, head: Option<Record>, now: int, t: LegTally, r: Record)
    ensures Touched(t, leg, r, head, now).sampleAssignedMin == Least(t.sampleAssignedMin, AssignedSample(leg)(r))
  {
  }

  /** The least and the greatest proof age an advancing ACK reports for a leg. */
  lemma LegAgesAreExact(l: Ledger, next: nat, now: int, leg: LegId)
    requires Sound(l) && l.ackedNext < next <= l.nextSequence && leg < |l.ordinaryFrames|
    ensures var r := ApplyAck(l, next, now).1;
            var o, lo, head := l.outstanding, l.ackedNext, HeadOf(l);
            && leg < |r.perLeg|
            && IsLeast(LeastAge(r.perLeg[leg]), o, lo, next, AgeSample(leg, head, now))
            && IsLeast(GreatestAge(r.perLeg[leg]), o, lo, next, NegatedAge(leg, head, now))
  {
    var o, lo, head, t := l.outstanding, l.ackedNext, HeadOf(l), OpenTallies(l)[leg];
    ReportFolds(l, next, now, leg);
    forall t: LegTally, r: Record
      ensures LeastAge(Touch(leg, head, now)(t, r)) == Least(LeastAge(t), AgeSample(leg, head, now)(r))
      ensures GreatestAge(Touch(leg, head, now)(t, r)) == Least(GreatestAge(t), NegatedAge(leg, head, now)(r))
    {
      AgesOffer(leg, head, now, t, r);
    }
    FoldLeast(o, lo, next, Touch(leg, head, now), t, LeastAge, AgeSample(leg, head, now));
    FoldLeast(o, lo, next, Touch(leg, head, now), t, GreatestAge, NegatedAge(leg, head, now));
  }

  /** The earliest assignment among a leg's sampled records. */
  lemma LegSampleStartIsExact(l: Ledger, next: nat, now: int, leg: LegId)
    requires Sound(l) && l.ackedNext < next <= l.nextSequence && leg < |l.ordinaryFrames|
    ensures var r := ApplyAck(l, next, now).1;
            leg < |r.perLeg| && IsLeast(r.perLeg[leg].sampleAssignedMin, l.outstanding, l.ackedNext, next,
                                        AssignedSample(leg))
  {
    var head := HeadOf(l);
    ReportFolds(l, next, now, leg);
    forall t: LegTally, r: Record
      ensures Touch(leg, head, now)(t, r).sampleAssignedMin == Least(t.sampleAssignedMin, AssignedSample(leg)(r))
    {
      AssignedOffers(leg, head, now, t, r);
    }
    FoldLeast(l.outstanding, l.ackedNext, next, Touch(leg, head, now), OpenTallies(l)[leg],
              (y: LegTally) => y.sampleAssignedMin, AssignedSample(leg));
  }

  // ---------------------------------------------------------------------------- the last one

  /** `v` is the sample of the last record in the range that has one, or `from` if none has. */
  ghost predicate IsLast(v: nat, from: nat, o: map<nat, Record>, lo: nat, hi: nat, sample: Record -> Option<nat>) {
    || (v == from && forall k <- o | lo <= k < hi :: sample(o[k]).None?)
    || (exists k <- o :: lo <= k < hi && sample(o[k]) == Some(v) && forall j <- o | k < j < hi :: sample(o[j]).None?)
  }

  lemma {:induction false} FoldLast<T(!new)>(o: map<nat, Record>, lo: nat, hi: nat, step: (T, Record) -> T, t: T,
                                       value: T -> nat, sample: Record -> Option<nat>)
    requires forall t: T, r: Record ::
               value(step(t, r)) == if sample(r).Some? then sample(r).value else value(t)
    ensures IsLast(value(Fold(o, lo, hi, step, t)), value(t), o, lo, hi, sample)
    decreases hi - lo
  {
    if lo < hi {
      FoldLast(o, lo + 1, hi, step, if lo in o then step(t, o[lo]) else t, value, sample);
    }
  }

  function GenerationSample(leg: LegId, head: Option<Record>, now: int): Record -> Option<nat> {
    (r: Record) => if r.ordinaryOwner == Some(leg) && ClassifyProof(r, head, now) in {Timely, Ordered, RejectedLate}
                   then Some(r.originGeneration) else None
  }

  /** The carrier generation an advancing ACK reports for a leg is that of the last record it measured. */
  lemma LegGenerationIsLast(l: Ledger, next: nat, now: int, leg: LegId)
    requires Sound(l) && l.ackedNext < next <= l.nextSequence && leg < |l.ordinaryFrames|
    ensures var r := ApplyAck(l, next, now).1;
            leg < |r.perLeg| && IsLast(r.perLeg[leg].uniqueGeneration, 0, l.outstanding, l.ackedNext, next,
                                       GenerationSample(leg, HeadOf(l), now))
  {
    var head := HeadOf(l);
    var sample := GenerationSample(leg, head, now);
    ReportFolds(l, next, now, leg);
    forall t: LegTally, r: Record
      ensures Touch(leg, head, now)(t, r).uniqueGeneration
              == if sample(r).Some? then sample(r).value else t.uniqueGeneration
    {
    }
    FoldLast(l.outstanding, l.ackedNext, next, Touch(leg, head, now), OpenTallies(l)[leg],
             (y: LegTally) => y.uniqueGeneration, sample);
  }
}

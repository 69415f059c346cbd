/** The per-leg admission machine (core/stream_admission.go): restricted, probing, recovering
    and normal legs, and the byte window a recovering leg earns with confirmed bytes. Measured
    rates are inputs: an ACK comes with the verdicts drawn from them. */
module Admission {
  import opened Prelude

  const PROBE_BUDGET := 200_000_000
  const COOLDOWN := 5_000_000_000
  const MAX_ORDINARY_BYTES := 0x100_0000
  const MAX_EPOCH := 0xFFFF_FFFF_FFFF_FFFF

  datatype Config = Config(maxInflight: nat, maxReorder: nat, chunk: nat) {
    predicate Valid() {
      maxInflight > 0 && chunk > 0
    }
  }

  /** `probeSequence` is the pending probe's record if it is known, `expired` the record whose
      probe ran out of its budget. */
  datatype Leg = Leg(
    restricted: bool,
    recovering: bool,
    probePending: bool,
    probeSequence: Option<nat>,
    expired: Option<nat>,
    pendingAt: Time,
    since: int,
    nextProbe: Time,
    limit: nat,
    proofs: nat,
    proofAfter: nat,
    byteLimit: nat,
    proofBytes: nat,
    epoch: nat,
    generation: nat)
  {
    predicate Normal() {
      !restricted && !recovering
    }

    /** The pending probe is this record, or no particular one. */
    predicate ProbeIs(sequence: nat) {
      probePending && (probeSequence.None? || probeSequence.value == sequence)
    }
  }

  /** A leg starts normal, or restricted when its carrier is known to be slow. */
  function InitialLeg(slow: bool, now: int): Leg {
    Leg(slow, false, false, None, None, None, now, if slow then Some(now + COOLDOWN) else None, 0, 0, 0, 0, 0,
        if slow then 1 else 0, 0)
  }

  /** ordinaryHardBytes. */
  function HardBytes(c: Config): nat {
    var byInflight := if c.maxInflight > 0 then Min(MAX_ORDINARY_BYTES, c.maxInflight * c.chunk)
        else MAX_ORDINARY_BYTES;
    if c.maxReorder > 0 then Min(byInflight, c.maxReorder * c.chunk) else byInflight
  }

  // ----------------------------------------------------------------- probe and restriction

  function NextEpoch(s: Leg): nat {
    if s.epoch == MAX_EPOCH then s.epoch else s.epoch + 1
  }

  function WithoutProbe(s: Leg): Leg {
    s.(probePending := false, probeSequence := None, pendingAt := None)
  }

  /** ordinaryAssignedRecord: a restricted leg given a record starts a probe with that record's bytes. */
  function Assigned(s: Leg, record: Option<nat>, bytes: nat, frontier: nat, now: int): Leg {
    var probing :=
      if s.restricted && !s.probePending then
        s.(probePending := true, pendingAt := Some(now), probeSequence := record,
           expired := if record.Some? && s.expired == record then s.expired else None,
           recovering := false, limit := 1, proofs := 0, since := now, proofAfter := frontier,
           byteLimit := bytes, proofBytes := 0)
      else s;
    if probing.probePending && probing.byteLimit == 0 then probing.(byteLimit := bytes) else probing
  }

  /** The probe ran out of its pre-write budget: a new restricted cycle. */
  function Expire(s: Leg, sequence: nat, now: int): Leg {
    WithoutProbe(s).(expired := Some(sequence), epoch := NextEpoch(s), restricted := true, recovering := false,
                     since := now, nextProbe := Some(now + COOLDOWN), proofs := 0, proofBytes := 0)
  }

  predicate Overdue(s: Leg, now: int) {
    s.pendingAt.Some? && now - s.pendingAt.value >= PROBE_BUDGET
  }

  /** recoveryProbeWriteStartedLocked: only an unexpired probe's own write opens recovery. */
  function WriteStarted(s: Leg, sequence: nat, ackedNext: nat, at: int): (Leg, bool) {
    if s.expired == Some(sequence) then (s, false)
    else if !s.ProbeIs(sequence) then (s, true)
    else if Overdue(s, at) then (Expire(s, sequence, at), false)
    else (WithoutProbe(s).(expired := None, restricted := false, recovering := true, since := at,
        proofAfter := ackedNext),
          true)
  }

  function CancelProbe(s: Leg, sequence: nat, now: int): Leg {
    if s.ProbeIs(sequence) then WithoutProbe(s).(expired := Some(sequence), since := now) else s
  }

  function ExpireProbe(s: Leg, sequence: nat, now: int): (Leg, bool) {
    if s.ProbeIs(sequence) && Overdue(s, now) then (Expire(s, sequence, now), true) else (s, false)
  }

  /** admissionRejoined: a new carrier generation keeps no proof of the old one. */
  function Rejoined(s: Leg, generation: nat, frontier: nat, now: int): Leg {
    var renewed := WithoutProbe(s).(expired := None, generation := generation);
    if s.recovering
    then renewed.(limit := 1, proofs := 0, since := now, proofAfter := frontier, byteLimit := 0, proofBytes := 0)
    else renewed
  }

  function Restrict(s: Leg, now: int): (Leg, bool) {
    if s.restricted then (s, false)
    else
      (WithoutProbe(s).(expired := None, epoch := NextEpoch(s), restricted := true, recovering := false, since := now,
                        nextProbe := Some(now + COOLDOWN), proofs := 0, proofBytes := 0),
       true)
  }

  /** restrictOverdueRecoveryFrontier, once the frontier is found overdue. */
  function RestrictOverdue(s: Leg, expectedSince: int, expectedGeneration: nat, now: int): (Leg, bool) {
    if s.recovering && !s.restricted && s.since == expectedSince && s.generation == expectedGeneration
    then Restrict(s, now) else (s, false)
  }

  // --------------------------------------------------------------------------------- ACKs

  /** What an ACK says about one leg: records and bytes it uniquely confirmed, their carrier
      generation (0 when there were none), the leg's byte budget, and the two verdicts on its
      measured service: too low to go on, and enough to graduate. */
  datatype LegAck = LegAck(unique: nat, bytes: nat, generation: nat, budget: nat, low: bool, ready: bool)

  /** An ACK retires a probe's record, and the memory of an expired one. */
  function RetireProbe(s: Leg, ackedNext: nat, progress: int): Leg {
    var forgot := if s.expired.Some? && ackedNext > s.expired.value then s.(expired := None) else s;
    if forgot.probePending && forgot.probeSequence.Some? && ackedNext > forgot.probeSequence.value
    then WithoutProbe(forgot).(since := progress, nextProbe := Some(progress + COOLDOWN))
    else forgot
  }

  /** Fresh proof: unique records of the present generation, not from before this recovery began. */
  predicate FreshProof(s: Leg, a: LegAck, ackedNext: nat, progress: int) {
    && (a.generation == 0 || a.generation == s.generation)
    && s.recovering && a.unique > 0 && progress >= s.since && ackedNext > s.proofAfter
  }

  predicate Earned(c: Config, s: Leg, a: LegAck) {
    (s.byteLimit >= a.budget || s.limit >= c.maxInflight) && a.ready
  }

  function Graduate(s: Leg, progress: int): Leg {
    s.(recovering := false, since := progress)
  }

  /** Twice as much, up to a cap. */
  function Doubled(n: nat, cap: nat): (r: nat)
    ensures n <= cap ==> r <= cap
    ensures n <= r <= 2 * n || r == n
  {
    if n < cap then Min(2 * n, cap) else n
  }

  /** One more batch of proof; three records covering the whole allowance double it. */
  function Ramp(c: Config, s: Leg, a: LegAck, progress: int): Leg {
    var proofs := Min(3, s.proofs + a.unique);
    var bytes := Min(s.byteLimit, s.proofBytes + a.bytes);
    if proofs >= 3 && s.byteLimit > 0 && bytes >= s.byteLimit then
      var wider := s.(proofs := 0, proofBytes := 0,
                      limit := Doubled(s.limit, c.maxInflight), byteLimit := Doubled(s.byteLimit, HardBytes(c)));
      if Earned(c, wider, a) then Graduate(wider, progress) else wider
    else s.(proofs := proofs, proofBytes := bytes)
  }

  function Proven(c: Config, s: Leg, a: LegAck, ackedNext: nat, progress: int): Leg {
    if !FreshProof(s, a, ackedNext, progress) then s
    else
      var seen := s.(proofAfter := ackedNext);
      if a.low then
        seen.(epoch := NextEpoch(s), restricted := true, recovering := false, since := progress,
              nextProbe := Some(progress + COOLDOWN), proofs := 0, proofBytes := 0)
      else if Earned(c, seen, a) then Graduate(seen, progress)
      else Ramp(c, seen, a, progress)
  }

  function Acked(c: Config, s: Leg, a: LegAck, ackedNext: nat, progress: int): Leg {
    Proven(c, RetireProbe(s, ackedNext, progress), a, ackedNext, progress)
  }

  /** ordinaryEligible: may the leg take one more record, with `count` records and `bytes` bytes on it? */
  predicate Eligible(c: Config, s: Leg, count: nat, bytes: nat, budget: nat, now: int) {
    if s.restricted then !s.probePending && count == 0 && (s.nextProbe.None? || now >= s.nextProbe.value)
    else if s.recovering then count < s.limit && (s.byteLimit == 0 || bytes < s.byteLimit)
    else count < c.maxInflight && bytes < budget
  }

  // --------------------------------------------------------------------- runs of one leg

  datatype Event =
    | Assign(record: Option<nat>, bytes: nat, frontier: nat, at: int)
    | Start(sequence: nat, ackedNext: nat, at: int)
    | Cancel(sequence: nat, at: int)
    | TimeOut(sequence: nat, at: int)
    | Rejoin(generation: nat, frontier: nat, at: int)
    | Limit(at: int)
    | LimitOverdue(expectedSince: int, expectedGeneration: nat, at: int)
    | Ack(ack: LegAck, ackedNext: nat, progress: int)
    | Peer(progress: int)

  function After(c: Config, s: Leg, e: Event): Leg {
    match e
    case Assign(record, bytes, frontier, at) => Assigned(s, record, bytes, frontier, at)
    case Start(sequence, ackedNext, at) => WriteStarted(s, sequence, ackedNext, at).0
    case Cancel(sequence, at) => CancelProbe(s, sequence, at)
    case TimeOut(sequence, at) => ExpireProbe(s, sequence, at).0
    case Rejoin(generation, frontier, at) => Rejoined(s, generation, frontier, at)
    case Limit(at) => Restrict(s, at).0
    case LimitOverdue(since, generation, at) => RestrictOverdue(s, since, generation, at).0
    case Ack(a, ackedNext, progress) => Acked(c, s, a, ackedNext, progress)
    case Peer(progress) => if s.Normal() then s.(since := progress) else s
  }

  /** The leg, the bytes of its latest probe, and the bytes fresh proof has confirmed since. */
  datatype Trial = Trial(leg: Leg, initial: nat, confirmed: nat)

  function Next(c: Config, t: Trial, e: Event): Trial {
    var s := t.leg;
    Trial(After(c, s, e),
          if e.Assign? && After(c, s, e).probePending && (!s.probePending || s.byteLimit == 0) then e.bytes
              else t.initial,
          if e.Assign? && After(c, s, e).probePending && (!s.probePending || s.byteLimit == 0) then 0
          else if e.Ack? && FreshProof(RetireProbe(s, e.ackedNext, e.progress), e.ack, e.ackedNext, e.progress)
          then t.confirmed + e.ack.bytes
          else t.confirmed)
  }

  function Exec(c: Config, slow: bool, now: int, events: seq<Event>): Trial {
    if events == [] then Trial(InitialLeg(slow, now), 0, 0)
    else Next(c, Exec(c, slow, now, events[..|events| - 1]), events[|events| - 1])
  }

  /** Assigned records carry at least one byte and at most a chunk. */
  predicate Sized(c: Config, events: seq<Event>) {
    forall i | 0 <= i < |events| :: events[i].Assign? ==> 0 < events[i].bytes <= c.chunk
  }

  // ------------------------------------------------------------------------------ theorems

  ghost predicate Exclusive(s: Leg) {
    && !(s.restricted && s.recovering)
    && (s.probePending ==> s.restricted)
    && (s.pendingAt.Some? ==> s.probePending)
  }

  ghost predicate Paid(t: Trial) {
    t.leg.byteLimit + t.leg.proofBytes <= t.initial + t.confirmed
  }

  ghost predicate Capped(c: Config, s: Leg) {
    && s.limit <= c.maxInflight
    && s.byteLimit <= Max(HardBytes(c), c.chunk)
    && s.proofBytes <= s.byteLimit && s.proofs <= 3
  }

  lemma AckKeeps(c: Config, t: Trial, a: LegAck, ackedNext: nat, progress: int)
    requires Exclusive(t.leg) && Paid(t) && Capped(c, t.leg)
    ensures var n := Next(c, t, Ack(a, ackedNext, progress)); Exclusive(n.leg) && Paid(n) && Capped(c, n.leg)
  {
    var s := RetireProbe(t.leg, ackedNext, progress);
    if FreshProof(s, a, ackedNext, progress) {
      RampKeeps(c, s.(proofAfter := ackedNext), a, progress);
    }
  }

  /** Doubling spends the proof it is paid with. */
  lemma RampKeeps(c: Config, s: Leg, a: LegAck, progress: int)
    requires Exclusive(s) && Capped(c, s) && s.recovering
    ensures var n := Ramp(c, s, a, progress);
            && Exclusive(n) && Capped(c, n)
            && n.byteLimit + n.proofBytes <= s.byteLimit + s.proofBytes + a.bytes
  {
  }

  lemma EventKeeps(c: Config, t: Trial, e: Event)
    requires c.Valid() && Exclusive(t.leg) && Paid(t) && Capped(c, t.leg) && (e.Assign? ==> e.bytes <= c.chunk)
    ensures var n := Next(c, t, e); Exclusive(n.leg) && Paid(n) && Capped(c, n.leg)
  {
    if e.Ack? {
      AckKeeps(c, t, e.ack, e.ackedNext, e.progress);
    }
  }

  lemma {:induction false} RunKeeps(c: Config, slow: bool, now: int, events: seq<Event>)
    requires c.Valid() && Sized(c, events)
    ensures var t := Exec(c, slow, now, events); Exclusive(t.leg) && Paid(t) && Capped(c, t.leg)
  {
    if events != [] {
      RunKeeps(c, slow, now, events[..|events| - 1]);
      EventKeeps(c, Exec(c, slow, now, events[..|events| - 1]), events[|events| - 1]);
    }
  }

  /** In every run of a leg: its states exclude each other, a pending probe means restricted, and
      the allowance beyond its probe plus the proof collected so far never exceeds the bytes
      uniquely confirmed since that probe. */
  lemma ProbationBound(c: Config, slow: bool, now: int, events: seq<Event>)
    requires c.Valid() && Sized(c, events)
    ensures var t := Exec(c, slow, now, events);
            && !(t.leg.restricted && t.leg.recovering)
            && (t.leg.probePending ==> t.leg.restricted)
            && t.leg.byteLimit - t.initial + t.leg.proofBytes <= t.confirmed
            && t.leg.limit <= c.maxInflight
  {
    RunKeeps(c, slow, now, events);
  }

  /** A leg without a byte allowance may have one record at most. */
  ghost predicate Bare(s: Leg) {
    s.byteLimit == 0 ==> s.limit <= 1
  }

  lemma RampBare(c: Config, s: Leg, a: LegAck, progress: int)
    requires Bare(s)
    ensures Bare(Ramp(c, s, a, progress))
  {
  }

  lemma ProvenBare(c: Config, s: Leg, a: LegAck, ackedNext: nat, progress: int)
    requires Bare(s)
    ensures Bare(Proven(c, s, a, ackedNext, progress))
  {
    RampBare(c, s.(proofAfter := ackedNext), a, progress);
  }

  lemma EventBare(c: Config, s: Leg, e: Event)
    requires Bare(s)
    ensures Bare(After(c, s, e))
  {
    if e.Ack? {
      ProvenBare(c, RetireProbe(s, e.ackedNext, e.progress), e.ack, e.ackedNext, e.progress);
    }
  }

  lemma {:induction false} RunBare(c: Config, slow: bool, now: int, events: seq<Event>)
    ensures Bare(Exec(c, slow, now, events).leg)
  {
    if events != [] {
      RunBare(c, slow, now, events[..|events| - 1]);
      EventBare(c, Exec(c, slow, now, events[..|events| - 1]).leg, events[|events| - 1]);
    }
  }

  /** What a recovering leg may have on it before it takes another record is less than its probe
      plus what has been confirmed - unless a new carrier has reset its allowance, when it is empty. */
  lemma RecoveringExposure(c: Config, slow: bool, now: int, events: seq<Event>, count: nat, bytes: nat,
      budget: nat, at: int)
    requires c.Valid() && Sized(c, events)
    requires var s := Exec(c, slow, now, events).leg; s.recovering && Eligible(c, s, count, bytes, budget, at)
    ensures var t := Exec(c, slow, now, events);
            && (if t.leg.byteLimit > 0 then bytes < t.initial + t.confirmed else count == 0)
            && count < c.maxInflight
  {
    RunKeeps(c, slow, now, events);
    RunBare(c, slow, now, events);
  }

  /** The only way to become normal is a fresh unique ACK while recovering. */
  lemma OnlyProofGraduates(c: Config, s: Leg, e: Event)
    requires Exclusive(s) && !s.Normal() && After(c, s, e).Normal()
    ensures s.recovering && e.Ack? && FreshProof(s, e.ack, e.ackedNext, e.progress)
  {
  }

  /** Event `k` of a run is a fresh unique ACK met while recovering. */
  ghost predicate GraduatesAt(c: Config, slow: bool, now: int, events: seq<Event>, k: nat) {
    && k < |events| && events[k].Ack?
    && var s := Exec(c, slow, now, events[..k]).leg;
       s.recovering && FreshProof(s, events[k].ack, events[k].ackedNext, events[k].progress)
  }

  lemma LastGraduates(c: Config, slow: bool, now: int, events: seq<Event>)
    requires c.Valid() && Sized(c, events) && events != []
    requires Exec(c, slow, now, events).leg.Normal() && !Exec(c, slow, now, events[..|events| - 1]).leg.Normal()
    ensures GraduatesAt(c, slow, now, events, |events| - 1)
    ensures !Exec(c, slow, now, events[..|events| - 1]).leg.restricted
  {
    var before := events[..|events| - 1];
    RunKeeps(c, slow, now, before);
    OnlyProofGraduates(c, Exec(c, slow, now, before).leg, events[|events| - 1]);
  }

  /** The leg is normal after the first `n` events. */
  ghost predicate NormalAfter(c: Config, slow: bool, now: int, events: seq<Event>, n: nat) {
    n <= |events| && Exec(c, slow, now, events[..n]).leg.Normal()
  }

  /** Whatever turns from false to true does so at some last step. */
  lemma {:induction false} LastTurn(p: nat -> bool, i: nat, j: nat) returns (k: nat)
    requires i <= j && !p(i) && p(j)
    ensures i <= k < j && !p(k) && p(k + 1)
    decreases j
  {
    if p(j - 1) {
      k := LastTurn(p, i, j - 1);
    } else {
      k := j - 1;
    }
  }

  ghost predicate RestrictedAfter(c: Config, slow: bool, now: int, events: seq<Event>, n: nat) {
    n <= |events| && Exec(c, slow, now, events[..n]).leg.restricted
  }

  lemma NotBoth(c: Config, slow: bool, now: int, events: seq<Event>, n: nat)
    requires RestrictedAfter(c, slow, now, events, n)
    ensures !NormalAfter(c, slow, now, events, n)
  {
  }

  lemma TurnGraduates(c: Config, slow: bool, now: int, events: seq<Event>, k: nat)
    requires c.Valid() && Sized(c, events) && k < |events|
    requires !NormalAfter(c, slow, now, events, k) && NormalAfter(c, slow, now, events, k + 1)
    ensures GraduatesAt(c, slow, now, events, k)
  {
    var upto := events[..k + 1];
    assert upto[..k] == events[..k];
    LastGraduates(c, slow, now, upto);
  }

  /** A leg seen restricted and later seen normal has in between been recovering and met a fresh
      unique ACK of its present carrier generation. */
  lemma NoShortcut(c: Config, slow: bool, now: int, events: seq<Event>, i: nat, j: nat) returns (k: nat)
    requires c.Valid() && Sized(c, events) && i <= j
    requires RestrictedAfter(c, slow, now, events, i) && NormalAfter(c, slow, now, events, j)
    ensures i <= k < j && GraduatesAt(c, slow, now, events, k)
  {
    NotBoth(c, slow, now, events, i);
    k := LastTurn((n: nat) => NormalAfter(c, slow, now, events, n), i, j);
    TurnGraduates(c, slow, now, events, k);
  }

  /** The byte allowance respects its hard cap in every run exactly when a chunk does not exceed 16 MiB. */
  lemma ByteCapIff(c: Config, now: int)
    requires c.Valid()
    ensures (forall events, slow | Sized(c, events) :: Exec(c, slow, now, events).leg.byteLimit <= HardBytes(c))
            <==> c.chunk <= MAX_ORDINARY_BYTES
  {
    ChunkFits(c);
    assert c.chunk <= HardBytes(c) <==> c.chunk <= MAX_ORDINARY_BYTES;
    if c.chunk <= MAX_ORDINARY_BYTES {
      forall events, slow | Sized(c, events)
        ensures Exec(c, slow, now, events).leg.byteLimit <= HardBytes(c)
      {
        RunKeeps(c, slow, now, events);
      }
    } else {
      var events := [Assign(None, c.chunk, 0, now)];
      ProbeExec(c, now);
      assert Sized(c, events) && Exec(c, true, now, events).leg.byteLimit > HardBytes(c);
    }
  }

  /** A restricted leg's first record becomes its whole allowance. */
  lemma ProbeExec(c: Config, now: int)
    ensures Exec(c, true, now, [Assign(None, c.chunk, 0, now)]).leg.byteLimit == c.chunk
  {
    assert [Assign(None, c.chunk, 0, now)][..0] == [];
  }

  lemma ChunkFits(c: Config)
    requires c.Valid()
    ensures c.chunk <= HardBytes(c) <==> c.chunk <= MAX_ORDINARY_BYTES
  {
    AtLeastOne(c.maxInflight, c.chunk);
    if c.maxReorder > 0 {
      AtLeastOne(c.maxReorder, c.chunk);
    }
  }

  lemma AtLeastOne(n: nat, size: nat)
    requires n > 0
    ensures n * size >= size
  {
    assert n * size == (n - 1) * size + size;
  }

  // --------------------------------------------------------------------------- all legs

  /** Some other leg graduated with this ACK. */
  predicate PeerGraduated(graduated: seq<bool>, id: nat) {
    exists j | 0 <= j < |graduated| :: j != id && graduated[j]
  }

  /** One leg after the whole ACK: its own step, and a new cohort if a peer graduated. */
  function AckedLeg(c: Config, s: Leg, a: LegAck, ackedNext: nat, progress: int, active: bool, peer: bool): Leg {
    var own := Acked(c, s, a, ackedNext, progress);
    if active && peer && own.Normal() then own.(since := progress) else own
  }

  class Table {
    const config: Config
    var legs: seq<Leg>

    constructor (config: Config, legs: seq<Leg>)
      ensures this.config == config && this.legs == legs
    {
      this.config, this.legs := config, legs;
    }

    method OrdinaryAssigned(id: nat, record: Option<nat>, bytes: nat, frontier: nat, now: int)
      modifies this
      ensures legs == if id < |old(legs)|
                      then old(legs)[id := Assigned(old(legs)[id], record, bytes, frontier, now)] else old(legs)
    {
      if id >= |legs| {
        return;
      }
      var s := legs[id];
      if s.restricted && !s.probePending {
        s := s.(probePending := true, pendingAt := Some(now), probeSequence := record);
        if record.None? || s.expired != record {
          s := s.(expired := None);
        }
        s := s.(recovering := false, limit := 1, proofs := 0, since := now, proofAfter := frontier,
                byteLimit := bytes, proofBytes := 0);
      }
      if s.probePending && s.byteLimit == 0 {
        s := s.(byteLimit := bytes);
      }
      legs := legs[id := s];
    }

    method ProbeWriteStarted(id: nat, sequence: nat, ackedNext: nat, at: int) returns (ok: bool)
      modifies this
      ensures id >= |old(legs)| ==> ok && legs == old(legs)
      ensures id < |old(legs)| ==>
                var (s, started) := WriteStarted(old(legs)[id], sequence, ackedNext, at);
                ok == started && legs == old(legs)[id := s]
    {
      if id >= |legs| {
        return true;
      }
      var s := legs[id];
      if s.expired.Some? && s.expired.value == sequence {
        return false;
      }
      if !s.probePending || (s.probeSequence.Some? && s.probeSequence.value != sequence) {
        return true;
      }
      if s.pendingAt.Some? && at - s.pendingAt.value >= PROBE_BUDGET {
        legs := legs[id := Expire(s, sequence, at)];
        return false;
      }
      legs := legs[id := s.(probePending := false, probeSequence := None, pendingAt := None, expired := None,
                            restricted := false, recovering := true, since := at, proofAfter := ackedNext)];
      return true;
    }

    method CancelPendingProbe(id: nat, sequence: nat, now: int)
      modifies this
      ensures legs == if id < |old(legs)| then old(legs)[id := CancelProbe(old(legs)[id], sequence, now)] else old(legs)
    {
      if id >= |legs| {
        return;
      }
      var s := legs[id];
      if s.probePending && (s.probeSequence.None? || s.probeSequence.value == sequence) {
        legs := legs[id := s.(probePending := false, probeSequence := None, pendingAt := None,
            expired := Some(sequence),
                              since := now)];
      }
    }

    method ExpirePendingProbe(id: nat, sequence: nat, now: int) returns (done: bool)
      modifies this
      ensures id >= |old(legs)| ==> !done && legs == old(legs)
      ensures id < |old(legs)| ==>
                var (s, expired) := ExpireProbe(old(legs)[id], sequence, now);
                done == expired && legs == old(legs)[id := s]
    {
      if id >= |legs| {
        return false;
      }
      var s := legs[id];
      done := s.probePending && (s.probeSequence.None? || s.probeSequence.value == sequence)
              && s.pendingAt.Some? && now - s.pendingAt.value >= PROBE_BUDGET;
      if done {
        legs := legs[id := s.(probePending := false, probeSequence := None, pendingAt := None,
            expired := Some(sequence),
                              epoch := if s.epoch == MAX_EPOCH then s.epoch else s.epoch + 1, restricted := true,
                              recovering := false, since := now, nextProbe := Some(now + COOLDOWN), proofs := 0,
                              proofBytes := 0)];
      }
    }

    method Rejoin(id: nat, generation: nat, frontier: nat, now: int)
      modifies this
      ensures legs == if id < |old(legs)|
                      then old(legs)[id := Rejoined(old(legs)[id], generation, frontier, now)] else old(legs)
    {
      if id >= |legs| {
        return;
      }
      var s := legs[id].(generation := generation, probePending := false, probeSequence := None, expired := None,
                         pendingAt := None);
      if s.recovering {
        s := s.(limit := 1, proofs := 0, since := now, proofAfter := frontier, byteLimit := 0, proofBytes := 0);
      }
      legs := legs[id := s];
    }

    /** ordinaryEligible, given what the ledger counts on the leg. */
    method MayTake(id: nat, count: nat, bytes: nat, budget: nat, now: int) returns (ok: bool)
      ensures ok <==> id >= |legs| || Eligible(config, legs[id], count, bytes, budget, now)
    {
      if id >= |legs| {
        return true;
      }
      var s := legs[id];
      if s.restricted {
        return !s.probePending && count == 0 && (s.nextProbe.None? || now >= s.nextProbe.value);
      }
      if s.recovering {
        return count < s.limit && (s.byteLimit == 0 || bytes < s.byteLimit);
      }
      return count < config.maxInflight && bytes < budget;
    }

    method RestrictOrdinary(id: nat, now: int) returns (applied: bool)
      modifies this
      ensures id >= |old(legs)| ==> !applied && legs == old(legs)
      ensures id < |old(legs)| ==>
                applied == !old(legs)[id].restricted && legs == old(legs)[id := Restrict(old(legs)[id], now).0]
    {
      if id >= |legs| || legs[id].restricted {
        return false;
      }
      var s := legs[id];
      legs := legs[id := s.(probePending := false, probeSequence := None, pendingAt := None, expired := None,
                            epoch := NextEpoch(s), restricted := true, recovering := false, since := now,
                            nextProbe := Some(now + COOLDOWN), proofs := 0, proofBytes := 0)];
      return true;
    }

    /** admissionACK: two passes over the legs, then a new cohort for the peers of any graduate. */
    method AdmissionAck(acks: seq<LegAck>, active: seq<bool>, ackedNext: nat,
        progress: int) returns (graduated: seq<bool>)
      requires |acks| == |active| == |legs|
      modifies this
      ensures |legs| == |old(legs)| == |graduated|
      ensures forall i | 0 <= i < |legs| ::
                && graduated[i] == (RetireProbe(old(legs)[i], ackedNext, progress).recovering
                                    && Acked(config, old(legs)[i], acks[i], ackedNext, progress).Normal())
                && legs[i] == AckedLeg(config, old(legs)[i], acks[i], ackedNext, progress, active[i],
                                       PeerGraduated(graduated, i))
    {
      var retired := RetireProbes(legs, ackedNext, progress);
      var proven;
      proven, graduated := ProveAll(config, retired, acks, ackedNext, progress);
      var i := 0;
      legs := proven;
      while i < |legs|
        invariant 0 <= i <= |legs| == |proven|
        invariant forall j | i <= j < |legs| :: legs[j] == proven[j]
        invariant forall j | 0 <= j < i ::
                    legs[j] == if active[j] && PeerGraduated(graduated, j) && proven[j].Normal()
                               then proven[j].(since := progress) else proven[j]
      {
        var peer := AnyOther(graduated, i);
        if active[i] && peer && !legs[i].restricted && !legs[i].recovering {
          legs := legs[i := legs[i].(since := progress)];
        }
        i := i + 1;
      }
    }
  }

  method RetireProbes(legs: seq<Leg>, ackedNext: nat, progress: int) returns (after: seq<Leg>)
    ensures |after| == |legs| && forall i | 0 <= i < |legs| :: after[i] == RetireProbe(legs[i], ackedNext, progress)
  {
    after := [];
    for i := 0 to |legs|
      invariant |after| == i && forall j | 0 <= j < i :: after[j] == RetireProbe(legs[j], ackedNext, progress)
    {
      var s := legs[i];
      if s.expired.Some? && ackedNext > s.expired.value {
        s := s.(expired := None);
      }
      if s.probePending && s.probeSequence.Some? && ackedNext > s.probeSequence.value {
        s := s.(probePending := false, probeSequence := None, pendingAt := None, since := progress,
                nextProbe := Some(progress + COOLDOWN));
      }
      after := after + [s];
    }
  }

  method ProveAll(c: Config, legs: seq<Leg>, acks: seq<LegAck>, ackedNext: nat, progress: int)
    returns (after: seq<Leg>, graduated: seq<bool>)
    requires |acks| == |legs|
    ensures |after| == |graduated| == |legs|
    ensures forall i | 0 <= i < |legs| ::
              && after[i] == Proven(c, legs[i], acks[i], ackedNext, progress)
              && graduated[i] == (legs[i].recovering && after[i].Normal())
  {
    after, graduated := [], [];
    for i := 0 to |legs|
      invariant |after| == |graduated| == i
      invariant forall j | 0 <= j < i ::
                  && after[j] == Proven(c, legs[j], acks[j], ackedNext, progress)
                  && graduated[j] == (legs[j].recovering && after[j].Normal())
    {
      var s, done := Prove(c, legs[i], acks[i], ackedNext, progress);
      after, graduated := after + [s], graduated + [done];
    }
  }

  /** One leg's share of the second pass, in the order in which the decisions are made. */
  method Prove(c: Config, leg: Leg, a: LegAck, ackedNext: nat, progress: int) returns (s: Leg, graduated: bool)
    ensures s == Proven(c, leg, a, ackedNext, progress)
    ensures graduated == (leg.recovering && s.Normal())
  {
    s, graduated := leg, false;
    if a.generation != 0 && a.generation != s.generation {
      return;
    }
    if !s.recovering || a.unique == 0 || progress < s.since || ackedNext <= s.proofAfter {
      return;
    }
    s := s.(proofAfter := ackedNext);
    if a.low {
      s := s.(epoch := NextEpoch(s), restricted := true, recovering := false, since := progress,
              nextProbe := Some(progress + COOLDOWN), proofs := 0, proofBytes := 0);
      return;
    }
    if (s.byteLimit >= a.budget || s.limit >= c.maxInflight) && a.ready {
      s := s.(recovering := false, since := progress);
      return s, s.Normal();
    }
    s := Widen(c, s, a, progress);
    return s, s.Normal();
  }

  method Widen(c: Config, leg: Leg, a: LegAck, progress: int) returns (s: Leg)
    ensures s == Ramp(c, leg, a, progress)
  {
    s := leg.(proofs := if leg.proofs + a.unique > 3 then 3 else leg.proofs + a.unique);
    s := s.(proofBytes := if s.proofBytes + a.bytes > s.byteLimit then s.byteLimit else s.proofBytes + a.bytes);
    if s.proofs >= 3 && s.byteLimit > 0 && s.proofBytes >= s.byteLimit {
      s := s.(proofs := 0, proofBytes := 0, limit := Doubled(s.limit, c.maxInflight),
              byteLimit := Doubled(s.byteLimit, HardBytes(c)));
      if (s.byteLimit >= a.budget || s.limit >= c.maxInflight) && a.ready {
        s := s.(recovering := false, since := progress);
      }
    }
  }

  method AnyOther(graduated: seq<bool>, id: nat) returns (found: bool)
    ensures found <==> PeerGraduated(graduated, id)
  {
    for j := 0 to |graduated|
      invariant forall i | 0 <= i < j :: i == id || !graduated[i]
    {
      if j != id && graduated[j] {
        return true;
      }
    }
    return false;
  }
}

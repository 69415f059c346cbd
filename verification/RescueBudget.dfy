/** The bounded rescue budget (core/stream_bounded_rescue.go): classification of a DATA
    attempt, and the reserve / begin-write / settle / release accounting behind it. */
module RescueBudget {
  import opened Prelude
  import opened RescueWindow

  // --------------------------------------------------------------- classification

  datatype Class = OriginalData | HealthyHOL | FailureRecovery | OtherCoreRetry | ProbeData | DuplicateOrRejected

  datatype Cause = NoCause | Frontier | RetryPlanner | Probe

  datatype Evidence = Evidence(
    sequence: nat,
    ownerLeg: int,
    recordOwnerLeg: int,
    targetLeg: nat,
    originGeneration: nat,
    recoveryEpoch: nat,
    recoveryEpochCurrent: bool,
    cause: Cause,
    isData: bool,
    isRescue: bool,
    probeData: bool,
    outstanding: bool,
    frontierOverdue: bool,
    originalWriteObserved: bool,
    ownerLive: bool,
    ownerRestricted: bool,
    ownerInvalidated: bool,
    generationMatchesOrigin: bool)

  /** The owner named by the evidence is the record's own and its generation is known. */
  predicate OwnerKnown(e: Evidence) {
    e.ownerLeg >= 0 && e.ownerLeg == e.recordOwnerLeg && e.originGeneration != 0
  }

  predicate OwnerCurrent(e: Evidence) {
    OwnerKnown(e) && e.ownerLive && e.generationMatchesOrigin && e.recoveryEpochCurrent
  }

  function Classify(e: Evidence): Class {
    var probe := e.probeData || e.cause == Probe;
    if !e.isData then OtherCoreRetry
    else if !e.isRescue then OriginalData
    else if !e.outstanding then DuplicateOrRejected
    else if e.ownerInvalidated && OwnerKnown(e) then FailureRecovery
    else if probe && OwnerCurrent(e) then ProbeData
    else if probe then OtherCoreRetry
    else if e.cause == Frontier && e.frontierOverdue && OwnerCurrent(e) && e.recoveryEpoch != 0
            && e.originalWriteObserved then HealthyHOL
    else OtherCoreRetry
  }

  /** A DATA rescue copy of a record that is still outstanding. */
  predicate LiveCopy(e: Evidence) {
    e.isData && e.isRescue && e.outstanding
  }

  /** Exemption from the budget needs positive evidence: the record's own owner was
      invalidated, or this is a probe under the current owner. */
  lemma ExemptionNeedsPositiveEvidence(e: Evidence)
    ensures Classify(e) == FailureRecovery <==> LiveCopy(e) && e.ownerInvalidated && OwnerKnown(e)
    ensures Classify(e) == ProbeData
            <==> LiveCopy(e) && !e.ownerInvalidated && OwnerCurrent(e) && (e.probeData || e.cause == Probe)
    ensures forall restricted :: Classify(e.(ownerRestricted := restricted)) == Classify(e)
  {
  }

  // ------------------------------------------------------------------- the budget

  datatype Mode = Full | ClassOnly | ClassAndRecord

  datatype Config = Config(mode: Mode, basisPoints: nat, burstBytes: nat)

  /** What newStreamBoundedRescueBudget accepts; `chunkBytes` comes from a signed 64-bit setting. */
  predicate ValidConfig(c: Config, chunkBytes: nat) {
    && c.basisPoints in {25, 50, 100, 300, 500, 909}
    && 0 < chunkBytes < 0x8000_0000_0000_0000
    && c.burstBytes <= chunkBytes
  }

  datatype Key = Key(generation: nat, epoch: nat)

  datatype RecordState = RecordState(acked: bool, pending: map<Key, nat>, used: set<Key>)

  datatype Reservation = Reservation(
    sequence: nat, key: Key, evidence: Evidence, bytes: nat, base: nat, burst: nat, started: bool)

  /** Bytes now reserved against the window and against the burst token, and the burst spent for good. */
  datatype Tokens = Tokens(base: int, burst: int, committed: int)

  /** Lifetime byte totals: admitted, given back, and taken by a carrier. */
  datatype Totals = Totals(reserved: int, released: int, accepted: int)

  datatype Budget = Budget(
    closed: bool,
    ackedNext: nat,
    lastOriginal: Option<nat>,
    nextReservation: nat,
    window: Window,
    tokens: Tokens,
    reservations: map<nat, Reservation>,
    records: map<nat, RecordState>,
    totals: Totals)

  const EMPTY_BUDGET :=
    Budget(false, 0, None, 0, EMPTY_WINDOW, Tokens(0, 0, 0), map[], map[], Totals(0, 0, 0))

  const FRESH_RECORD := RecordState(false, map[], {})

  datatype Reason =
    | SessionClosed | NotHealthy | AlreadyAcked | MissingOriginal | EpochUsed | EpochPending | EmptyPayload
    | BudgetExhausted

  datatype Admission = Exempt(class_: Class) | Rejected(reason: Reason) | Reserved(id: nat)

  datatype Settlement = Settled | NotFound | NotStarted | OverAccepted

  // -------------------------------------------------------------- originals and ACKs

  function RecordOriginal(b: Budget, sequence: nat, bytes: nat, at: int): (Budget, bool) {
    if bytes == 0 || b.closed || (b.lastOriginal.Some? && sequence <= b.lastOriginal.value) then (b, false)
    else
      (b.(lastOriginal := Some(sequence),
          window := Prune(AddOriginal(b.window, Event(at, bytes)), at),
          records := if sequence >= b.ackedNext && sequence !in b.records
                     then b.records[sequence := FRESH_RECORD] else b.records),
       true)
  }

  /** What is left of a record at an ACK frontier: acknowledged, and gone if nothing is pending. */
  function AckedRecords(records: map<nat, RecordState>, next: nat): map<nat, RecordState> {
    map s | s in records && !(s < next && records[s].pending == map[]) ::
      if s < next then records[s].(acked := true) else records[s]
  }

  function AckThrough(b: Budget, next: nat): Budget {
    var frontier := Max(b.ackedNext, next);
    b.(ackedNext := frontier, records := AckedRecords(b.records, frontier))
  }

  // ------------------------------------------------------------- the budget decision

  /** The room a payload may take from the window's quota and from the burst token. */
  datatype Room = Room(base: nat, burst: nat)

  function RoomFor(c: Config, original: int, carried: int, t: Tokens): Room {
    var quota := Ratio(original, c.basisPoints);
    var used := SaturatingAdd(carried, t.base);
    var base := if quota > used then quota - used else 0;
    var debt := if used > quota then used - quota else 0;
    var burstUsed := SaturatingAdd(t.committed, t.burst);
    var burst := if c.burstBytes > burstUsed then c.burstBytes - burstUsed else 0;
    Room(base, if debt >= burst then 0 else burst - debt)
  }

  predicate Affordable(c: Config, original: int, carried: int, t: Tokens, payload: nat) {
    var room := RoomFor(c, original, carried, t);
    payload <= SaturatingAdd(room.base, room.burst)
  }

  // --------------------------------------------------------------------- reservations

  /** Everything Reserve checks before the budget; None when it would go on to the budget. */
  function Refusal(c: Config, b: Budget, e: Evidence, payload: nat): Option<Admission> {
    var class_ := Classify(e);
    var key := KeyOf(e);
    if b.closed then Some(Rejected(SessionClosed))
    else if class_ == FailureRecovery || class_ == ProbeData then Some(Exempt(class_))
    else if class_ != HealthyHOL then Some(Rejected(NotHealthy))
    else if e.sequence < b.ackedNext then Some(Rejected(AlreadyAcked))
    else if e.sequence !in b.records || b.records[e.sequence].acked then Some(Rejected(MissingOriginal))
    else if c.mode != ClassOnly && key in b.records[e.sequence].used then Some(Rejected(EpochUsed))
    else if key in b.records[e.sequence].pending then Some(Rejected(EpochPending))
    else if payload == 0 then Some(Rejected(EmptyPayload))
    else None
  }

  function KeyOf(e: Evidence): Key {
    Key(e.originGeneration, e.recoveryEpoch)
  }

  function NewReservation(e: Evidence, payload: nat, base: nat): Reservation
    requires base <= payload
  {
    Reservation(e.sequence, KeyOf(e), e, payload, base, payload - base, false)
  }

  /** The record waits for reservation `id`. */
  function Await(records: map<nat, RecordState>, sequence: nat, key: Key, id: nat): map<nat, RecordState>
    requires sequence in records
  {
    var record := records[sequence];
    records[sequence := record.(pending := record.pending[key := id])]
  }

  /** Opens a reservation with `base` bytes on the window's quota and the rest on the burst token. */
  function Admit(b: Budget, e: Evidence, payload: nat, base: nat): Budget
    requires base <= payload && e.sequence in b.records
  {
    var id := b.nextReservation + 1;
    b.(nextReservation := id,
       reservations := b.reservations[id := NewReservation(e, payload, base)],
       records := Await(b.records, e.sequence, KeyOf(e), id),
       tokens := b.tokens.(base := b.tokens.base + base, burst := b.tokens.burst + (payload - base)),
       totals := b.totals.(reserved := b.totals.reserved + payload))
  }

  function Reserve(c: Config, b: Budget, e: Evidence, payload: nat, at: int): (Budget, Admission) {
    match Refusal(c, b, e, payload)
    case Some(answer) => (b, answer)
    case None =>
      var p := b.(window := Prune(b.window, at));
      if c.mode != Full then (Admit(p, e, payload, payload), Reserved(b.nextReservation + 1))
      else if !Affordable(c, p.window.original, p.window.carried, p.tokens, payload)
      then (p, Rejected(BudgetExhausted))
      else
        var room := RoomFor(c, p.window.original, p.window.carried, p.tokens);
        (Admit(p, e, payload, Min(payload, room.base)), Reserved(b.nextReservation + 1))
  }

  /** The record no longer waits for reservation `id`; an acknowledged record waiting for nothing goes. */
  function Forget(records: map<nat, RecordState>, sequence: nat, key: Key, id: nat): map<nat, RecordState> {
    if sequence !in records then records
    else
      var old_ := records[sequence];
      var state := if key in old_.pending && old_.pending[key] == id
                   then old_.(pending := old_.pending - {key}) else old_;
      if state.acked && state.pending == map[] then records - {sequence} else records[sequence := state]
  }

  function FreeTokens(t: Tokens, r: Reservation): Tokens {
    t.(base := SaturatingSub(t.base, r.base), burst := SaturatingSub(t.burst, r.burst))
  }

  /** Removes a reservation of which `taken` bytes reached the carrier. */
  function Remove(b: Budget, id: nat, taken: nat): Budget
    requires id in b.reservations
  {
    var r := b.reservations[id];
    b.(tokens := FreeTokens(b.tokens, r),
       reservations := b.reservations - {id},
       records := Forget(b.records, r.sequence, r.key, id),
       totals := b.totals.(released := b.totals.released + (r.bytes - taken)))
  }

  /** The copy may still reach the carrier: the session is open and the record is not acknowledged. */
  predicate Writable(c: Config, b: Budget, id: nat)
    requires id in b.reservations
  {
    var r := b.reservations[id];
    && !b.closed
    && r.sequence >= b.ackedNext
    && r.sequence in b.records
    && !b.records[r.sequence].acked
    && (c.mode == ClassOnly || r.key !in b.records[r.sequence].used)
  }

  function MarkUsed(records: map<nat, RecordState>, sequence: nat, key: Key): map<nat, RecordState>
    requires sequence in records
  {
    records[sequence := records[sequence].(used := records[sequence].used + {key})]
  }

  function Start(b: Budget, id: nat): Budget
    requires id in b.reservations && b.reservations[id].sequence in b.records
  {
    var r := b.reservations[id];
    b.(reservations := b.reservations[id := r.(started := true)], records := MarkUsed(b.records, r.sequence, r.key))
  }

  function BeginWrite(c: Config, b: Budget, id: nat): (Budget, bool) {
    if id == 0 || id !in b.reservations || b.reservations[id].started then (b, false)
    else if Writable(c, b, id) then (Start(b, id), true)
    else (Remove(b, id, 0), false)
  }

  /** The reservation still describes the copy the writer holds. */
  predicate StillValid(r: Reservation, current: Evidence) {
    && Classify(current) == HealthyHOL
    && current.sequence == r.evidence.sequence
    && current.ownerLeg == r.evidence.ownerLeg
    && current.recordOwnerLeg == r.evidence.recordOwnerLeg
    && current.targetLeg == r.evidence.targetLeg
    && current.originGeneration == r.key.generation
    && current.recoveryEpoch == r.key.epoch
  }

  /** The new class, the reservation to charge (0 for none), and whether to write. */
  function Revalidate(b: Budget, id: nat, current: Evidence): (Budget, Class, nat, bool) {
    if id == 0 then (b, OtherCoreRetry, 0, false)
    else if id !in b.reservations || b.reservations[id].started then (b, DuplicateOrRejected, 0, false)
    else if b.closed then (Remove(b, id, 0), DuplicateOrRejected, 0, false)
    else
      var class_ := Classify(current);
      if class_ == FailureRecovery || class_ == ProbeData then (Remove(b, id, 0), class_, 0, true)
      else if StillValid(b.reservations[id], current) then (b, class_, id, true)
      else (Remove(b, id, 0), class_, 0, false)
  }

  /** Charges the window and the burst token with what the carrier took. */
  function Charge(b: Budget, r: Reservation, taken: nat, at: int): Budget {
    if taken == 0 then b
    else
      b.(window := AddAccepted(b.window, Event(at, taken)),
         tokens := b.tokens.(committed := b.tokens.committed + (if taken > r.base then taken - r.base else 0)),
         totals := b.totals.(accepted := b.totals.accepted + taken))
  }

  function Settle(b: Budget, id: nat, wire: nat, at: int): (Budget, Settlement) {
    if id == 0 then (b, Settled)
    else if id !in b.reservations then (b, NotFound)
    else if !b.reservations[id].started then (b, NotStarted)
    else
      var r := b.reservations[id];
      var taken := Min(wire, r.bytes);
      var charged := Remove(Charge(b, r, taken, at), id, taken);
      (charged.(window := Prune(charged.window, at)), if wire > r.bytes then OverAccepted else Settled)
  }

  function Release(b: Budget, id: nat): (Budget, bool) {
    if id == 0 then (b, true)
    else if id !in b.reservations || b.reservations[id].started then (b, false)
    else (Remove(b, id, 0), true)
  }

  // ------------------------------------------------------------------- the invariant

  /** Pending entries and reservations point at each other, one to one. */
  ghost predicate Linked(reservations: map<nat, Reservation>, records: map<nat, RecordState>) {
    forall s: nat, k: Key, id: nat :: Held(records, s, k, id) <==> Backed(reservations, s, k, id)
  }

  ghost predicate Held(records: map<nat, RecordState>, s: nat, k: Key, id: nat) {
    s in records && k in records[s].pending && records[s].pending[k] == id
  }

  ghost predicate Backed(reservations: map<nat, Reservation>, s: nat, k: Key, id: nat) {
    id in reservations && reservations[id].sequence == s && reservations[id].key == k
  }

  /** A record is acknowledged exactly below the frontier, and kept there only for a pending copy. */
  ghost predicate Retained(records: map<nat, RecordState>, ackedNext: nat, lastOriginal: Option<nat>) {
    forall s <- records ::
      && (records[s].acked <==> s < ackedNext)
      && (s < ackedNext ==> records[s].pending != map[])
      && lastOriginal.Some? && s <= lastOriginal.value
  }

  function AllBytes(r: Reservation): nat { r.bytes }

  function BaseBytes(r: Reservation): nat { r.base }

  function BurstBytes(r: Reservation): nat { r.burst }

  ghost predicate Issued(reservations: map<nat, Reservation>, nextReservation: nat) {
    forall id <- reservations ::
      0 < id <= nextReservation && reservations[id].bytes == reservations[id].base + reservations[id].burst
  }

  /** Reserved counters are the sums over open reservations; the burst token is never overdrawn. */
  ghost predicate Accounted(c: Config, t: Tokens, reservations: map<nat, Reservation>) {
    && t.base == MapSum(reservations, BaseBytes)
    && t.burst == MapSum(reservations, BurstBytes)
    && 0 <= t.committed
    && t.committed + t.burst <= c.burstBytes
  }

  /** Every byte ever admitted was given back, was taken by a carrier, or is still reserved. */
  ghost predicate Conserved(totals: Totals, reservations: map<nat, Reservation>) {
    totals.reserved == totals.released + totals.accepted + MapSum(reservations, AllBytes)
  }

  /** Rescue bytes in the window and in reservation stay far below the 64-bit limit. */
  ghost predicate Fits(c: Config, w: Window, t: Tokens) {
    && w.original <= MAX_UINT64
    && (c.mode == Full ==> w.carried + t.base + t.burst <= Ratio(MAX_UINT64, c.basisPoints) + c.burstBytes)
  }

  /** Records and reservations agree. */
  ghost predicate Wired(b: Budget) {
    Linked(b.reservations, b.records) && Retained(b.records, b.ackedNext, b.lastOriginal)
  }

  /** Every byte counter agrees with what it counts. */
  ghost predicate Balanced(c: Config, b: Budget) {
    && Issued(b.reservations, b.nextReservation)
    && Accounted(c, b.tokens, b.reservations)
    && Conserved(b.totals, b.reservations)
    && Exact(b.window)
    && Fits(c, b.window, b.tokens)
  }
}

/** Dispatching records to legs (core/stream_engine.go: tryQueue, the leg writers,
    handleLegFailure, attachLeg; retireDrainedLeg): every interleaving of queue calls, writers,
    carrier failures and same-ID replacements over the transmit ledger. */
module Dispatch {
  import opened Prelude
  import opened StreamTx
  import Ack = TxRetirement

  /** A leg ID at a moment: no carrier, an attached carrier of some generation, or a carrier that
      has left the registry and whose workers have not yet exited. `cleared` says that the
      ledger has been told. */
  datatype Status =
    | Absent(gen: nat)
    | Live(gen: nat, open: bool, draining: bool)
    | Retiring(gen: nat, cleared: bool)

  /** A record's ordinary lane or its rescue lane. */
  datatype Lane = Lane(sequence: nat, rescue: bool)

  datatype Phase = Checked | Claimed | Queued

  /** A queue call in progress: it has seen its carrier open, and holds the dispatch lock. */
  datatype Call = Call(leg: LegId, gen: nat, started: int, phase: Phase)

  /** An attempt handed to one carrier's writer. */
  datatype Slot = Slot(leg: LegId, gen: nat, lane: Lane, started: int)

  /** The assigner's choice of an owner, made from a list of legs that may since have changed. */
  datatype Choice = Choice(sequence: nat, leg: LegId)

  /** `queue` holds attempts waiting or being written, `written` those the carrier took whose
      ledger commit is still to come. At most one call per lane is in progress. The assigner is
      serialized, so `choice` is one at most. `sentGen` and `drained` are history: the generation of
      each record's last recorded send, and the legs whose last carrier was gracefully retired. */
  datatype State = State(
    ledger: Ledger,
    legs: map<LegId, Status>,
    queue: set<Slot>,
    written: set<Slot>,
    calls: map<Lane, Call>,
    choice: Option<Choice>,
    clock: int,
    sentGen: map<nat, nat>,
    drained: set<LegId>)

  function StatusOf(legs: map<LegId, Status>, leg: LegId): Status {
    if leg in legs then legs[leg] else Absent(0)
  }

  predicate OpenAt(legs: map<LegId, Status>, leg: LegId, gen: nat) {
    var s := StatusOf(legs, leg);
    s.Live? && s.open && s.gen == gen
  }

  /** This carrier generation is still in the registry. */
  predicate RegisteredAt(legs: map<LegId, Status>, leg: LegId, gen: nat) {
    StatusOf(legs, leg).Live? && StatusOf(legs, leg).gen == gen
  }

  /** The workers of this carrier generation are still alive. */
  predicate Working(legs: map<LegId, Status>, q: Slot) {
    var s := StatusOf(legs, q.leg);
    !s.Absent? && s.gen == q.gen
  }

  /** The legs new DATA may use: attached, open and not draining. */
  function Available(legs: map<LegId, Status>): set<LegId> {
    set leg | leg in legs && legs[leg].Live? && legs[leg].open && !legs[leg].draining
  }

  function ClaimOf(o: map<nat, Record>, k: Lane): Option<Attempt> {
    if k.sequence !in o then None else if k.rescue then o[k.sequence].rescue else o[k.sequence].transit
  }

  // ----------------------------------------------------------------------------- steps

  datatype Step =
    | Add(payload: Bytes, local: bool)
    | EndLocal(sequence: nat)
    | Choose(sequence: nat, leg: LegId)
    | Assign(sequence: nat, leg: LegId)
    | Acked(next: nat)
    | Attach(leg: LegId)
    | Close(leg: LegId)
    | Unregister(leg: LegId)
    | Invalidate(leg: LegId)
    | Exit(leg: LegId)
    | Begin(lane: Lane, leg: LegId)
    | Claim(lane: Lane, owner: Option<LegId>)
    | Enqueue(lane: Lane)
    | Reject(lane: Lane)
    | Finish(lane: Lane)
    | Write(slot: Slot)
    | Commit(slot: Slot)
    | Drop(slot: Slot)
    | GiveUp(slot: Slot)
    | StartDrain(leg: LegId)
    | StopDrain(leg: LegId)
    | RetireDrained(leg: LegId)

  function WithStatus(st: State, leg: LegId, s: Status): State {
    st.(legs := st.legs[leg := s])
  }

  /** A leg's life: attach, close, leave the registry, have its attempts invalidated, and exit. */
  function LegStep(st: State, step: Step): Option<State> {
    match step
    case Attach(leg) =>
      var s := StatusOf(st.legs, leg);
      if !s.Absent? then None
      else Some(WithStatus(st, leg, Live(s.gen + 1, true, false)).(drained := st.drained - {leg}))
    case Close(leg) =>
      var s := StatusOf(st.legs, leg);
      if !s.Live? then None else Some(WithStatus(st, leg, s.(open := false)))
    case Unregister(leg) =>
      var s := StatusOf(st.legs, leg);
      if !s.Live? || s.open then None else Some(WithStatus(st, leg, Retiring(s.gen, false)))
    case Invalidate(leg) =>
      var s := StatusOf(st.legs, leg);
      if !s.Retiring? || s.cleared then None
      else Some(WithStatus(st, leg, Retiring(s.gen, true)).(ledger := InvalidateLeg(st.ledger, leg)))
    case Exit(leg) =>
      var s := StatusOf(st.legs, leg);
      if !s.Retiring? || !s.cleared then None else Some(WithStatus(st, leg, Absent(s.gen)))
    case StartDrain(leg) =>
      var s := StatusOf(st.legs, leg);
      if !s.Live? || !s.open || CallOn(st.calls, leg, s.gen) then None
      else Some(WithStatus(st, leg, s.(draining := true)))
    case StopDrain(leg) =>
      var s := StatusOf(st.legs, leg);
      if !s.Live? then None else Some(WithStatus(st, leg, s.(draining := false)))
    case RetireDrained(leg) =>
      var s := StatusOf(st.legs, leg);
      if !s.Live? || !s.open || !s.draining || CallOn(st.calls, leg, s.gen) || QueuedOn(st.queue, leg, s.gen)
         || DependedOn(st.ledger.outstanding, leg) then None
      else Some(WithStatus(st, leg, Retiring(s.gen, true)).(drained := st.drained + {leg}))
    case _ => None
  }

  /** The dispatch lock of this carrier is held by a queue call. */
  predicate CallOn(calls: map<Lane, Call>, leg: LegId, gen: nat) {
    exists k <- calls :: calls[k].leg == leg && calls[k].gen == gen
  }

  predicate QueuedOn(queue: set<Slot>, leg: LegId, gen: nat) {
    exists q <- queue :: q.leg == leg && q.gen == gen
  }

  predicate DependedOn(o: map<nat, Record>, leg: LegId) {
    exists s <- o :: DependsOn(o[s], leg)
  }

  function Mark(l: Ledger, k: Lane, leg: LegId, owner: Option<LegId>, now: int): (Ledger, bool) {
    if k.rescue then MarkRescueTransit(l, k.sequence, leg, owner, now) else MarkTransit(l, k.sequence, leg, now)
  }

  function Clear(l: Ledger, k: Lane, c: Call): Ledger {
    ClearAttempt(l, k.sequence, c.leg, k.rescue, Some(c.started))
  }

  /** One queue call: check the carrier, claim the lane, enqueue, and check the carrier again. */
  function CallStep(st: State, step: Step): Option<State> {
    match step
    case Begin(k, leg) =>
      var s := StatusOf(st.legs, leg);
      if !s.Live? || !s.open || s.draining || k in st.calls || k.sequence >= st.ledger.nextSequence
         || ClaimOf(st.ledger.outstanding, k).Some? then None
      else Some(st.(calls := st.calls[k := Call(leg, s.gen, st.clock, Checked)]))
    case Claim(k, owner) =>
      if k !in st.calls || st.calls[k].phase != Checked then None
      else
        var now := st.clock + 1;
        var (l, ok) := Mark(st.ledger, k, st.calls[k].leg, owner, now);
        if ok then Some(st.(ledger := l, clock := now, calls := st.calls[k := st.calls[k].(started := now,
            phase := Claimed)]))
        else Some(st.(calls := st.calls - {k}))
    case Enqueue(k) =>
      if k !in st.calls || st.calls[k].phase != Claimed then None
      else
        var c := st.calls[k];
        Some(st.(queue := st.queue + {Slot(c.leg, c.gen, k, c.started)}, calls := st.calls[k := c.(phase := Queued)]))
    case Reject(k) =>
      if k !in st.calls || st.calls[k].phase != Claimed then None
      else Some(st.(ledger := Clear(st.ledger, k, st.calls[k]), calls := st.calls - {k}))
    case Finish(k) =>
      if k !in st.calls || st.calls[k].phase != Queued then None
      else
        var c := st.calls[k];
        Some(st.(ledger := if OpenAt(st.legs, c.leg, c.gen) then st.ledger else Clear(st.ledger, k, c),
                 calls := st.calls - {k}))
    case _ => None
  }

  /** Remembers the carrier generation behind a record's last send, when this was it. */
  function NoteSend(sent: map<nat, nat>, o: map<nat, Record>, ok: bool, q: Slot): map<nat, nat> {
    if ok && q.lane.sequence in o && o[q.lane.sequence].lastSentLeg == Some(q.leg)
    then sent[q.lane.sequence := q.gen] else sent
  }

  /** One writer: a write may complete until the carrier's connection has closed, which its closed flag
      precedes and its leaving the registry follows; its commit may come later. */
  function WriterStep(st: State, step: Step): Option<State> {
    match step
    case Write(q) =>
      if q !in st.queue || !RegisteredAt(st.legs, q.leg, q.gen) then None
      else Some(st.(queue := st.queue - {q}, written := st.written + {q}))
    case Commit(q) =>
      if q !in st.written || !Working(st.legs, q) then None
      else
        var (l, ok) := MarkAttemptSent(st.ledger, q.lane.sequence, q.leg, q.lane.rescue, st.clock);
        Some(st.(ledger := l, written := st.written - {q}, sentGen := NoteSend(st.sentGen, l.outstanding, ok, q)))
    case Drop(q) =>
      if q !in st.queue || !Working(st.legs, q) || AttemptCurrent(st.ledger, q.lane.sequence, q.leg,
          q.lane.rescue) then None
      else Some(st.(queue := st.queue - {q}))
    case GiveUp(q) =>
      if q !in st.queue || !Working(st.legs, q) then None
      else Some(st.(queue := st.queue - {q},
                    ledger := ClearAttempt(st.ledger, q.lane.sequence, q.leg, q.lane.rescue, Some(q.started))))
    case _ => None
  }

  /** The ledger's own events. A leg is chosen only while it is open and not draining, but may be
      anything by the time the ledger makes it the owner. */
  function LedgerStep(st: State, step: Step): Option<State>
    requires Sound(st.ledger)
  {
    match step
    case Add(payload, local) => Some(st.(ledger := AddRecord(st.ledger, payload, st.clock, local)))
    case EndLocal(s) => Some(st.(ledger := FinishLocalEnqueue(st.ledger, s)))
    case Choose(s, leg) =>
      if leg !in Available(st.legs) || s >= st.ledger.nextSequence then None
      else Some(st.(choice := Some(Choice(s, leg))))
    case Assign(s, leg) =>
      if st.choice != Some(Choice(s, leg)) then None
      else Some(st.(ledger := AssignOrdinary(st.ledger, s, leg, st.clock).0, choice := None))
    case Acked(next) => Some(st.(ledger := Ack.ApplyAck(st.ledger, next, st.clock).0))
    case _ => None
  }

  function Next(st: State, step: Step): Option<State>
    requires Sound(st.ledger)
  {
    if step.Add? || step.EndLocal? || step.Choose? || step.Assign? || step.Acked? then LedgerStep(st, step)
    else if step.Begin? || step.Claim? || step.Enqueue? || step.Reject? || step.Finish? then CallStep(st, step)
    else if step.Write? || step.Commit? || step.Drop? || step.GiveUp? then WriterStep(st, step)
    else LegStep(st, step)
  }
}

/** One endpoint of the coordinated drain protocol (core/stream_coordinated_drain.go):
    its carriers, its drain operations and what each event does to them. */
module DrainEndpoint {
  import opened Prelude

  type Leg = nat

  /** A binding names one carrier connection for good; both endpoints know it by that name. */
  type Binding = nat

  datatype Kind = Intent | Quiesced | Ready | Commit | CommitAck | Abort

  /** `generation` is the sender's own number for the carrier. */
  datatype Message = Message(
    kind: Kind, leg: Leg, generation: nat, binding: Binding, operation: nat, counter: nat, outstanding: nat)

  datatype Op = Op(
    binding: Binding,
    operation: nat,
    counter: nat,
    peerGeneration: Option<nat>,
    initiator: bool,
    peerQuiesced: bool,
    localReady: bool,
    readySent: bool,
    peerReady: bool,
    commitSent: bool,
    commitRequested: bool,
    commitAck: bool,
    terminal: bool)
  {
    /** Past the point of no return. */
    predicate Committed() {
      commitSent || commitRequested
    }
  }

  /** A new operation; the responder's knows that its peer has quiesced, and its generation. */
  function NewOp(b: Binding, operation: nat, counter: nat, peerGeneration: Option<nat>): Op {
    Op(b, operation, counter, peerGeneration, peerGeneration.None?, peerGeneration.Some?, false, false, false, false,
       false, false, false)
  }

  /** Where a carrier was attached, and this side's number for it. */
  datatype Carrier = Carrier(leg: Leg, generation: nat)

  /** `legs` are the registered carriers, `draining` those barred from new DATA and `closed` those
      whose connection has closed, which stay registered until their failure is handled. `load`
      counts, per carrier ever attached, the frames that are queued, in the writer or unacknowledged
      on it, and `carriers` tells where each was attached. `asked` are the calls of DrainLeg that have
      made their first checks and not yet taken the drain lock. `committed` and `retired` are history:
      the carriers this side has ever committed to drain, and those it has gracefully retired. */
  datatype Endpoint = Endpoint(
    legs: map<Leg, Binding>,
    draining: set<Binding>,
    closed: set<Binding>,
    load: map<Binding, nat>,
    carriers: map<Binding, Carrier>,
    asked: multiset<Binding>,
    ops: map<Leg, Op>,
    highWater: map<Leg, nat>,
    counter: nat,
    committed: set<Binding>,
    retired: set<Binding>)

  const NO_LEGS := Endpoint(map[], {}, {}, map[], map[], multiset{}, map[], map[], 0, {}, {})

  predicate Attached(e: Endpoint, leg: Leg, b: Binding) {
    leg in e.legs && e.legs[leg] == b
  }

  /** New DATA may be put on this carrier. */
  predicate Schedulable(e: Endpoint, leg: Leg, b: Binding) {
    Attached(e, leg, b) && b !in e.draining && b !in e.closed
  }

  predicate DrainReady(e: Endpoint, leg: Leg, b: Binding) {
    Attached(e, leg, b) && b !in e.closed && b in e.draining && b in e.load && e.load[b] == 0
  }

  /** Some other carrier can take control frames about `leg`. */
  predicate HasControlLeg(e: Endpoint, leg: Leg) {
    exists l <- e.legs :: l != leg && e.legs[l] !in e.draining && e.legs[l] !in e.closed
  }

  function GenerationOf(e: Endpoint, b: Binding): nat {
    if b in e.carriers then e.carriers[b].generation else 0
  }

  /** The carrier can take control frames about `leg`: it is registered on another leg, open and unbarred. */
  predicate CanCarry(e: Endpoint, leg: Leg, via: Binding) {
    && via in e.carriers && e.carriers[via].leg != leg && Attached(e, e.carriers[via].leg, via)
    && via !in e.draining && via !in e.closed
  }

  /** More than one registered carrier is without a drain operation. */
  predicate MayDrain(e: Endpoint) {
    |e.legs| - |e.ops| > 1
  }

  // ------------------------------------------------------------------ carrier events

  function Attach(e: Endpoint, leg: Leg, b: Binding, generation: nat): Option<Endpoint> {
    if leg in e.legs || b in e.load then None
    else Some(e.(legs := e.legs[leg := b], load := e.load[b := 0],
                 carriers := e.carriers[b := Carrier(leg, generation)]))
  }

  function Schedule(e: Endpoint, leg: Leg, frames: nat): Option<Endpoint> {
    if leg !in e.legs || e.legs[leg] in e.draining + e.closed || e.legs[leg] !in e.load then None
    else Some(e.(load := e.load[e.legs[leg] := e.load[e.legs[leg]] + frames]))
  }

  /** Acknowledged, or moved to another carrier after a failure. */
  function Unload(e: Endpoint, b: Binding, frames: nat): Option<Endpoint> {
    if b !in e.load || e.load[b] < frames then None else Some(e.(load := e.load[b := e.load[b] - frames]))
  }

  /** The carrier's connection closes; it is still registered. */
  function Close(e: Endpoint, leg: Leg): Endpoint {
    if leg in e.legs then e.(closed := e.closed + {e.legs[leg]}) else e
  }

  /** The carrier leaves the registry. */
  function Detach(e: Endpoint, leg: Leg): Endpoint {
    e.(legs := e.legs - {leg})
  }

  // ---------------------------------------------------------------- drain operations

  function WithOp(e: Endpoint, leg: Leg, op: Op): Endpoint {
    e.(ops := e.ops[leg := op])
  }

  /** coordinatedDrainLeg before it takes the drain lock. */
  function AskDrain(e: Endpoint, leg: Leg): Option<Endpoint> {
    if leg !in e.legs || e.legs[leg] in e.closed || |e.legs| <= 1 || !HasControlLeg(e, leg) then None
    else Some(e.(asked := e.asked + multiset{e.legs[leg]}))
  }

  /** What it looks at again under the lock. */
  predicate MayOpen(e: Endpoint, leg: Leg, b: Binding) {
    MayDrain(e) && leg !in e.ops && Stands(e, leg, b)
  }

  /** coordinatedDrainLeg under the lock: the call opens an operation, or is refused. */
  function StartDrain(e: Endpoint, leg: Leg, b: Binding, operation: nat): Option<Endpoint> {
    if b !in e.asked then None
    else if !MayOpen(e, leg, b) then Some(e.(asked := e.asked - multiset{b}))
    else
      var op := NewOp(b, operation, e.counter + 1, None);
      Some(WithOp(e, leg, op).(draining := e.draining + {b}, asked := e.asked - multiset{b}, counter := e.counter + 1))
  }

  /** The drain message an operation would send now; the codec refuses a Ready, Commit or
      CommitAck with frames still outstanding. */
  function MessageFor(e: Endpoint, leg: Leg, kind: Kind): Option<Message> {
    if leg !in e.ops || e.ops[leg].binding !in e.load then None
    else
      var op := e.ops[leg];
      var m := Message(kind, leg, GenerationOf(e, op.binding), op.binding, op.operation, op.counter,
                       e.load[op.binding]);
      if kind in {Ready, Commit, CommitAck} && m.outstanding != 0 then None else Some(m)
  }

  /** acceptDrainIntent: the new state, and whether the sender is told to abort. */
  function AcceptIntent(e: Endpoint, m: Message): (Endpoint, bool) {
    if !Attached(e, m.leg, m.binding) then (e, false)
    else if m.leg in e.ops then
      var active := e.ops[m.leg];
      if active.operation == m.operation && active.counter == m.counter && active.binding == m.binding then (e, false)
      else (WithOp(e, m.leg, active.(terminal := true)).(highWater := e.highWater[m.leg := m.counter]), true)
    else if m.counter <= (if m.leg in e.highWater then e.highWater[m.leg] else 0) then (e, false)
    else if m.binding in e.closed || !MayDrain(e) then (e.(highWater := e.highWater[m.leg := m.counter]), true)
    else
      var op := NewOp(m.binding, m.operation, m.counter, Some(m.generation));
      (WithOp(e, m.leg, op).(draining := e.draining + {m.binding}, highWater := e.highWater[m.leg := m.counter]), false)
  }

  /** The message belongs to the operation now active on its leg, and its carrier is not replaced;
      once the carrier has gone only a CommitAck still counts. The first message of an operation
      settles the peer's generation, and needs the carrier open. */
  predicate Concerns(e: Endpoint, m: Message) {
    && m.leg in e.ops
    && var op := e.ops[m.leg];
       && op.operation == m.operation && op.counter == m.counter && op.binding == m.binding
       && (Attached(e, m.leg, m.binding) || (m.leg !in e.legs && m.kind == CommitAck))
       && (if op.peerGeneration.Some? then op.peerGeneration == Some(m.generation)
           else Attached(e, m.leg, m.binding) && m.binding !in e.closed && m.kind != CommitAck)
  }

  /** The same operation, whatever its flags. */
  predicate SameName(a: Op, b: Op) {
    a.binding == b.binding && a.operation == b.operation && a.counter == b.counter && a.initiator == b.initiator
  }

  function OnReady(op: Op, outstanding: nat): (n: Op)
    ensures SameName(n, op) && n.commitRequested == op.commitRequested && n.commitAck == op.commitAck
  {
    if outstanding == 0 then op.(peerQuiesced := true, peerReady := true) else op.(terminal := true)
  }

  function OnCommit(op: Op, outstanding: nat): (n: Op)
    ensures SameName(n, op) && n.commitAck == op.commitAck
  {
    if outstanding == 0 && !op.initiator && op.localReady && op.peerReady
    then op.(commitRequested := true) else op.(terminal := true)
  }

  function OnCommitAck(op: Op, outstanding: nat): (n: Op)
    ensures SameName(n, op) && n.commitRequested == op.commitRequested
  {
    if outstanding == 0 && op.initiator && op.commitSent then op.(commitAck := true) else op.(terminal := true)
  }

  function Answered(op: Op, m: Message): (n: Op)
    ensures SameName(n, op)
  {
    match m.kind
    case Quiesced => op.(peerQuiesced := true)
    case Ready => OnReady(op, m.outstanding)
    case Commit => OnCommit(op, m.outstanding)
    case CommitAck => OnCommitAck(op, m.outstanding)
    case Abort => op.(terminal := true)
    case Intent => op
  }

  /** An operation after a message that concerns it. */
  function Hears(op: Op, m: Message): (n: Op)
    ensures SameName(n, op)
  {
    Answered(op.(peerGeneration := Some(m.generation)), m)
  }

  function HandleControl(e: Endpoint, m: Message): (Endpoint, bool) {
    if m.kind == Intent then AcceptIntent(e, m)
    else if !Concerns(e, m) then (e, false)
    else
      var op := Hears(e.ops[m.leg], m);
      (WithOp(e, m.leg, op).(committed := if op.Committed() then e.committed + {op.binding} else e.committed), false)
  }

  function MarkReady(e: Endpoint, leg: Leg): Endpoint {
    if leg in e.ops && DrainReady(e, leg, e.ops[leg].binding)
    then WithOp(e, leg, e.ops[leg].(localReady := true)) else e
  }

  function MarkReadySent(e: Endpoint, leg: Leg): Endpoint {
    if leg in e.ops then WithOp(e, leg, e.ops[leg].(readySent := true)) else e
  }

  /** The initiator's point of no return. Only the operation is looked at again: its carrier may have
      closed since it was last seen ready. */
  function SetCommit(e: Endpoint, leg: Leg): Option<Endpoint> {
    if leg !in e.ops then None
    else
      var op := e.ops[leg];
      if op.terminal || !op.initiator || !op.readySent || !op.localReady || !op.peerQuiesced || !op.peerReady
         || op.commitSent then None
      else Some(WithOp(e, leg, op.(commitSent := true)).(committed := e.committed + {op.binding}))
  }

  /** finishDrain without restoring the carrier. */
  function Finish(e: Endpoint, leg: Leg): Endpoint {
    e.(ops := e.ops - {leg})
  }

  function Retire(e: Endpoint, leg: Leg): Endpoint
    requires leg in e.ops
  {
    Finish(Detach(Close(e, leg), leg), leg).(retired := e.retired + {e.ops[leg].binding})
  }

  /** Attached, and not closed under the operation. */
  predicate Stands(e: Endpoint, leg: Leg, b: Binding) {
    Attached(e, leg, b) && b !in e.closed
  }

  /** forceDrainRecovery: the carrier is given up, never reopened. */
  function ForceRecovery(e: Endpoint, leg: Leg): Endpoint
    requires leg in e.ops
  {
    Finish(if Stands(e, leg, e.ops[leg].binding) then Detach(Close(e, leg), leg) else e, leg)
  }

  /** abortDrain: a carrier that still stands is restored - unless the operation has committed. */
  function AbortDrain(e: Endpoint, leg: Leg): Endpoint {
    if leg !in e.ops then e
    else if e.ops[leg].Committed() then ForceRecovery(e, leg)
    else
      var b := e.ops[leg].binding;
      Finish(if Stands(e, leg, b) then e.(draining := e.draining - {b}) else e, leg)
  }

  /** completeAcknowledgedDrain: it waits for a closed carrier to leave the registry. */
  function Complete(e: Endpoint, leg: Leg): Endpoint {
    if leg !in e.ops || !e.ops[leg].commitAck then e
    else
      var b := e.ops[leg].binding;
      if DrainReady(e, leg, b) then Retire(e, leg)
      else if Stands(e, leg, b) then ForceRecovery(e, leg)
      else if Attached(e, leg, b) then e
      else if b in e.load && e.load[b] == 0 then Finish(e, leg).(retired := e.retired + {b})
      else e
  }

  /** runRemoteDrain's last act. */
  function RetireRemote(e: Endpoint, leg: Leg): Endpoint {
    if leg !in e.ops then e
    else
      var op := e.ops[leg];
      if !(op.commitRequested && op.localReady && op.peerReady) then e
      else if DrainReady(e, leg, op.binding) then Retire(e, leg)
      else ForceRecovery(e, leg)
  }

  // ------------------------------------------------------------- the endpoint invariant

  ghost predicate Distinct(legs: map<Leg, Binding>) {
    forall l <- legs, k <- legs :: l != k ==> legs[l] != legs[k]
  }

  ghost predicate OnlyAt(legs: map<Leg, Binding>, leg: Leg, b: Binding) {
    forall l <- legs :: legs[l] == b ==> l == leg
  }

  ghost predicate Idle(load: map<Binding, nat>, b: Binding) {
    b in load && load[b] == 0
  }

  /** An operation holds its carrier's barrier up as long as the carrier is attached, is
      ready only with nothing left on the carrier, and commits only when ready. */
  ghost predicate OpSound(e: Endpoint, leg: Leg, op: Op) {
    && op.binding in e.load
    && OnlyAt(e.legs, leg, op.binding)
    && (Attached(e, leg, op.binding) ==> op.binding in e.draining)
    && (op.localReady ==> Idle(e.load, op.binding))
    && (op.Committed() ==> op.localReady && op.binding in e.committed)
    && (op.commitAck ==> op.commitSent)
  }

  ghost predicate OpsSound(e: Endpoint) {
    forall l <- e.ops :: OpSound(e, l, e.ops[l])
  }

  /** The barrier of an open carrier has an operation behind it. */
  ghost predicate Guarded(e: Endpoint) {
    forall l <- e.legs | e.legs[l] in e.draining && e.legs[l] !in e.closed ::
      l in e.ops && e.ops[l].binding == e.legs[l]
  }

  /** A committed carrier carries nothing and, while attached, is barred: closed, or under its
      committed operation. */
  ghost predicate CommitHolds(e: Endpoint) {
    && (forall b <- e.committed :: Idle(e.load, b))
    && (forall l <- e.legs | e.legs[l] in e.committed ::
          && e.legs[l] in e.draining
          && (e.legs[l] in e.closed || (l in e.ops && e.ops[l].binding == e.legs[l] && e.ops[l].Committed())))
  }

  ghost predicate RetiredGone(e: Endpoint) {
    && e.retired <= e.committed
    && (forall l <- e.legs :: e.legs[l] !in e.retired)
  }

  ghost predicate Sound(e: Endpoint) {
    && Distinct(e.legs)
    && (forall l <- e.legs :: e.legs[l] in e.load)
    && e.draining <= e.load.Keys && e.closed <= e.load.Keys
    && OpsSound(e)
    && Guarded(e)
    && CommitHolds(e)
    && RetiredGone(e)
  }

  // -------------------------------------------------------------- every event keeps it

  lemma OpsFrame(e: Endpoint, after: Endpoint)
    requires OpsSound(e) && after.ops == e.ops
    requires forall l <- e.ops :: OpSound(e, l, e.ops[l]) ==> OpSound(after, l, e.ops[l])
    ensures OpsSound(after)
  {
  }

  lemma AttachSound(e: Endpoint, leg: Leg, b: Binding, generation: nat)
    requires Sound(e) && Attach(e, leg, b, generation).Some?
    ensures Sound(Attach(e, leg, b, generation).value)
  {
    OpsFrame(e, Attach(e, leg, b, generation).value);
  }

  lemma ScheduleSound(e: Endpoint, leg: Leg, frames: nat)
    requires Sound(e) && Schedule(e, leg, frames).Some?
    ensures Sound(Schedule(e, leg, frames).value)
  {
    forall l <- e.ops
      ensures OpSound(e, l, e.ops[l]) ==> OpSound(Schedule(e, leg, frames).value, l, e.ops[l])
    {
      assert e.ops[l].binding == e.legs[leg] ==> l == leg;
    }
    OpsFrame(e, Schedule(e, leg, frames).value);
  }

  lemma UnloadSound(e: Endpoint, b: Binding, frames: nat)
    requires Sound(e) && Unload(e, b, frames).Some?
    ensures Sound(Unload(e, b, frames).value)
  {
    OpsFrame(e, Unload(e, b, frames).value);
  }

  lemma DetachSound(e: Endpoint, leg: Leg)
    requires Sound(e)
    ensures Sound(Detach(e, leg))
  {
    OpsFrame(e, Detach(e, leg));
  }

  lemma CloseSound(e: Endpoint, leg: Leg)
    requires Sound(e)
    ensures Sound(Close(e, leg))
  {
    OpsFrame(e, Close(e, leg));
  }

  lemma FinishSound(e: Endpoint, leg: Leg)
    requires Sound(e) && (leg in e.legs ==> e.legs[leg] !in e.draining || e.legs[leg] in e.closed)
    ensures Sound(Finish(e, leg))
  {
    var after := Finish(e, leg);
    forall l <- after.ops
      ensures OpSound(after, l, after.ops[l])
    {
      assert OpSound(e, l, e.ops[l]);
    }
  }

  /** A new operation on an attached carrier puts its barrier up. */
  lemma OpenSound(e: Endpoint, leg: Leg, op: Op)
    requires Sound(e) && leg !in e.ops && Attached(e, leg, op.binding)
    requires !op.localReady && !op.Committed() && !op.commitAck
    ensures Sound(WithOp(e, leg, op).(draining := e.draining + {op.binding}))
  {
    var after := WithOp(e, leg, op).(draining := e.draining + {op.binding});
    forall l <- after.ops
      ensures OpSound(after, l, after.ops[l])
    {
      assert l != leg ==> OpSound(e, l, e.ops[l]);
    }
  }

  lemma CounterFrame(e: Endpoint, after: Endpoint)
    requires Sound(e) && after == e.(asked := after.asked, highWater := after.highWater, counter := after.counter)
    ensures Sound(after)
  {
    OpsFrame(e, after);
  }

  /** An operation keeps its carrier and its commitments. */
  ghost predicate Advances(e: Endpoint, op: Op, next: Op) {
    && next.binding == op.binding
    && (op.Committed() ==> next.Committed())
    && (next.localReady ==> Idle(e.load, op.binding))
    && (next.Committed() ==> next.localReady)
    && (next.commitAck ==> next.commitSent)
  }

  function Advanced(e: Endpoint, leg: Leg, next: Op): Endpoint {
    WithOp(e, leg, next).(committed := if next.Committed() then e.committed + {next.binding} else e.committed)
  }

  lemma AdvanceSound(e: Endpoint, leg: Leg, next: Op)
    requires Sound(e) && leg in e.ops && Advances(e, e.ops[leg], next)
    ensures Sound(Advanced(e, leg, next))
  {
    var after := Advanced(e, leg, next);
    assert OpSound(e, leg, e.ops[leg]);
    forall l <- after.ops
      ensures OpSound(after, l, after.ops[l])
    {
      assert OpSound(e, l, e.ops[l]);
    }
  }

  lemma AskSound(e: Endpoint, leg: Leg)
    requires Sound(e) && AskDrain(e, leg).Some?
    ensures Sound(AskDrain(e, leg).value)
  {
    CounterFrame(e, AskDrain(e, leg).value);
  }

  lemma StartDrainSound(e: Endpoint, leg: Leg, b: Binding, operation: nat)
    requires Sound(e) && StartDrain(e, leg, b, operation).Some?
    ensures Sound(StartDrain(e, leg, b, operation).value)
  {
    var after := StartDrain(e, leg, b, operation).value;
    if MayOpen(e, leg, b) {
      OpenSound(e, leg, after.ops[leg]);
      CounterFrame(after.(asked := e.asked, counter := e.counter), after);
    } else {
      CounterFrame(e, after);
    }
  }

  lemma AcceptIntentSound(e: Endpoint, m: Message)
    requires Sound(e)
    ensures Sound(AcceptIntent(e, m).0)
  {
    var after := AcceptIntent(e, m).0;
    if after.ops == e.ops {
      CounterFrame(e, after);
    } else if m.leg in e.ops {
      assert OpSound(e, m.leg, e.ops[m.leg]);
      AdvanceSound(e, m.leg, after.ops[m.leg]);
      CounterFrame(Advanced(e, m.leg, after.ops[m.leg]), after);
    } else {
      OpenSound(e, m.leg, after.ops[m.leg]);
      CounterFrame(after.(highWater := e.highWater), after);
    }
  }

  lemma HandleControlSound(e: Endpoint, m: Message)
    requires Sound(e)
    ensures Sound(HandleControl(e, m).0)
  {
    if m.kind == Intent {
      AcceptIntentSound(e, m);
    } else if Concerns(e, m) {
      assert OpSound(e, m.leg, e.ops[m.leg]);
      AdvanceSound(e, m.leg, Hears(e.ops[m.leg], m));
    }
  }

  lemma MarkReadySound(e: Endpoint, leg: Leg)
    requires Sound(e)
    ensures Sound(MarkReady(e, leg))
  {
    if leg in e.ops && DrainReady(e, leg, e.ops[leg].binding) {
      assert OpSound(e, leg, e.ops[leg]);
      var next := e.ops[leg].(localReady := true);
      AdvanceSound(e, leg, next);
      assert next.Committed() ==> e.committed + {next.binding} == e.committed;
    }
  }

  lemma MarkReadySentSound(e: Endpoint, leg: Leg)
    requires Sound(e)
    ensures Sound(MarkReadySent(e, leg))
  {
    if leg in e.ops {
      assert OpSound(e, leg, e.ops[leg]);
      var next := e.ops[leg].(readySent := true);
      AdvanceSound(e, leg, next);
      assert next.Committed() ==> e.committed + {next.binding} == e.committed;
    }
  }

  lemma SetCommitSound(e: Endpoint, leg: Leg)
    requires Sound(e) && SetCommit(e, leg).Some?
    ensures Sound(SetCommit(e, leg).value)
  {
    assert OpSound(e, leg, e.ops[leg]);
    AdvanceSound(e, leg, e.ops[leg].(commitSent := true));
  }

  lemma ForceSound(e: Endpoint, leg: Leg)
    requires Sound(e) && leg in e.ops
    ensures Sound(ForceRecovery(e, leg))
  {
    assert OpSound(e, leg, e.ops[leg]);
    if Stands(e, leg, e.ops[leg].binding) {
      CloseSound(e, leg);
      DetachSound(Close(e, leg), leg);
      FinishSound(Detach(Close(e, leg), leg), leg);
    } else {
      StrandedSound(e, leg);
    }
  }

  /** An operation whose carrier has closed or gone may simply end. */
  lemma StrandedSound(e: Endpoint, leg: Leg)
    requires Sound(e) && leg in e.ops && !Stands(e, leg, e.ops[leg].binding)
    ensures Sound(Finish(e, leg))
  {
    FinishSound(e, leg);
  }

  lemma AbortSound(e: Endpoint, leg: Leg)
    requires Sound(e)
    ensures Sound(AbortDrain(e, leg))
  {
    if leg in e.ops {
      var b := e.ops[leg].binding;
      assert OpSound(e, leg, e.ops[leg]);
      if e.ops[leg].Committed() {
        ForceSound(e, leg);
      } else if Stands(e, leg, b) {
        RestoreSound(e, leg);
      } else {
        StrandedSound(e, leg);
      }
    }
  }

  /** Lowering the barrier of an uncommitted operation. */
  lemma RestoreSound(e: Endpoint, leg: Leg)
    requires Sound(e) && leg in e.ops && !e.ops[leg].Committed() && Stands(e, leg, e.ops[leg].binding)
    ensures Sound(Finish(e.(draining := e.draining - {e.ops[leg].binding}), leg))
  {
    var b := e.ops[leg].binding;
    var after := Finish(e.(draining := e.draining - {b}), leg);
    assert OpSound(e, leg, e.ops[leg]);
    forall l <- after.ops
      ensures OpSound(after, l, after.ops[l])
    {
      assert OpSound(e, l, e.ops[l]);
    }
  }

  /** A committed operation that ends with its carrier gone may count the carrier as retired. */
  lemma RetiredSound(e: Endpoint, b: Binding)
    requires Sound(e) && b in e.committed && (forall l <- e.legs :: e.legs[l] != b)
    ensures Sound(e.(retired := e.retired + {b}))
  {
    OpsFrame(e, e.(retired := e.retired + {b}));
  }

  lemma RetireSound(e: Endpoint, leg: Leg)
    requires Sound(e) && leg in e.ops && e.ops[leg].Committed() && Attached(e, leg, e.ops[leg].binding)
    ensures Sound(Retire(e, leg))
  {
    var gone := Detach(Close(e, leg), leg);
    assert OpSound(e, leg, e.ops[leg]);
    CloseSound(e, leg);
    DetachSound(Close(e, leg), leg);
    FinishSound(gone, leg);
    RetiredSound(Finish(gone, leg), e.ops[leg].binding);
  }

  lemma CompleteSound(e: Endpoint, leg: Leg)
    requires Sound(e)
    ensures Sound(Complete(e, leg))
  {
    if leg in e.ops && e.ops[leg].commitAck {
      var b := e.ops[leg].binding;
      assert OpSound(e, leg, e.ops[leg]);
      if DrainReady(e, leg, b) {
        RetireSound(e, leg);
      } else if Stands(e, leg, b) {
        ForceSound(e, leg);
      } else if !Attached(e, leg, b) {
        StrandedSound(e, leg);
        RetiredSound(Finish(e, leg), b);
      }
    }
  }

  lemma RetireRemoteSound(e: Endpoint, leg: Leg)
    requires Sound(e)
    ensures Sound(RetireRemote(e, leg))
  {
    if leg in e.ops && e.ops[leg].commitRequested && e.ops[leg].localReady && e.ops[leg].peerReady {
      if DrainReady(e, leg, e.ops[leg].binding) {
        RetireSound(e, leg);
      } else {
        ForceSound(e, leg);
      }
    }
  }
}

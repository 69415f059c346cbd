/** Two endpoints running coordinated drains over messages that may be lost, repeated or
    delivered late, in every interleaving. */
module DrainProtocol {
  import opened Prelude
  import opened DrainEndpoint

  datatype Role = Client | Server

  function Peer(r: Role): Role {
    if r == Client then Server else Client
  }

  /** A message and the carrier it was sent over. */
  datatype Packet = Packet(from: Role, via: Binding, message: Message)

  /** `sent` is every message ever sent: delivery never removes one. */
  datatype System = System(client: Endpoint, server: Endpoint, sent: set<Packet>)

  const INITIAL := System(NO_LEGS, NO_LEGS, {})

  datatype Event =
    | Attaches(leg: Leg, binding: Binding, generation: nat)
    | Loads(leg: Leg, frames: nat)
    | Unloads(binding: Binding, frames: nat)
    | Fails(leg: Leg)
    | PeerCloses(leg: Leg)
    | Leaves(leg: Leg)
    | Asks(leg: Leg)
    | Starts(leg: Leg, binding: Binding, operation: nat)
    | Sends(leg: Leg, kind: Kind, via: Binding)
    | Receives(message: Message, via: Binding, reply: Binding)
    | Readies(leg: Leg)
    | Commits(leg: Leg)
    | Aborts(leg: Leg)
    | Completes(leg: Leg)
    | RetiresRemote(leg: Leg)

  datatype Step = Step(role: Role, event: Event)

  function End(s: System, r: Role): Endpoint {
    if r == Client then s.client else s.server
  }

  function With(s: System, r: Role, e: Endpoint): System {
    if r == Client then s.(client := e) else s.(server := e)
  }

  /** When each side's loop sends each kind. */
  predicate MaySend(e: Endpoint, leg: Leg, kind: Kind) {
    leg in e.ops &&
    var op := e.ops[leg];
    match kind
    case Intent => op.initiator
    case Quiesced => !op.initiator
    case Ready => op.localReady && (op.initiator ==> op.peerQuiesced)
    case Commit => op.initiator && op.commitSent
    case CommitAck => !op.initiator && op.commitRequested && op.localReady
    case Abort => true
  }

  /** What an event does to the endpoint it happens at; None when it cannot happen. */
  function Local(e: Endpoint, ev: Event): Option<Endpoint> {
    match ev
    case Attaches(leg, b, generation) => Attach(e, leg, b, generation)
    case Loads(leg, frames) => Schedule(e, leg, frames)
    case Unloads(b, frames) => Unload(e, b, frames)
    case Fails(leg) => Some(Close(e, leg))
    case PeerCloses(leg) => Some(Close(e, leg))
    case Leaves(leg) => if leg in e.legs && e.legs[leg] in e.closed then Some(Detach(e, leg)) else None
    case Asks(leg) => AskDrain(e, leg)
    case Starts(leg, b, operation) => StartDrain(e, leg, b, operation)
    case Sends(leg, kind, via) =>
      if !MaySend(e, leg, kind) || MessageFor(e, leg, kind).None? || !CanCarry(e, leg, via) then None
      else Some(if kind == Ready && e.ops[leg].initiator then MarkReadySent(e, leg) else e)
    case Receives(m, _, _) => Some(HandleControl(e, m).0)
    case Readies(leg) => Some(MarkReady(e, leg))
    case Commits(leg) => SetCommit(e, leg)
    case Aborts(leg) => Some(AbortDrain(e, leg))
    case Completes(leg) => Some(Complete(e, leg))
    case RetiresRemote(leg) => Some(RetireRemote(e, leg))
  }

  /** A control frame about a leg is read from a carrier that was attached here, to another leg; the
      carrier may have closed by the time the frame is handled. */
  predicate CanHear(e: Endpoint, leg: Leg, via: Binding) {
    via in e.carriers && e.carriers[via].leg != leg
  }

  /** What the event needs of the network and of the other side. */
  predicate Possible(s: System, step: Step) {
    var e, peer := End(s, step.role), End(s, Peer(step.role));
    match step.event
    case Receives(m, via, _) => Packet(Peer(step.role), via, m) in s.sent && CanHear(e, m.leg, via)
    case PeerCloses(leg) => leg in e.legs && e.legs[leg] in peer.closed
    case _ => true
  }

  /** What the event sends, and over which carrier: the event's own message, or the abort that answers one. */
  function Emitted(e: Endpoint, ev: Event, from: Role): Option<Packet> {
    match ev
    case Sends(leg, kind, via) =>
      (match MessageFor(e, leg, kind)
       case None => None
       case Some(m) => Some(Packet(from, via, m)))
    case Receives(m, _, reply) =>
      if HandleControl(e, m).1 && m.binding in e.load && CanCarry(e, m.leg, reply)
      then Some(Packet(from, reply, Message(Abort, m.leg, GenerationOf(e, m.binding), m.binding, m.operation, m.counter,
                                            e.load[m.binding])))
      else None
    case _ => None
  }

  function Next(s: System, step: Step): Option<System> {
    var e := End(s, step.role);
    if !Possible(s, step) then None
    else
      match Local(e, step.event)
      case None => None
      case Some(after) =>
        var moved := With(s, step.role, after);
        Some(match Emitted(e, step.event, step.role)
             case None => moved
             case Some(packet) => moved.(sent := s.sent + {packet}))
  }

  function Then(s: Option<System>, step: Step): Option<System> {
    if s.None? then None else Next(s.value, step)
  }

  function Exec(s: System, steps: seq<Step>): Option<System> {
    if steps == [] then Some(s) else Then(Exec(s, steps[..|steps| - 1]), steps[|steps| - 1])
  }

  // --------------------------------------------------------------- the two-sided invariant

  /** What this side did on the peer's word, the peer had committed to. */
  ghost predicate Agrees(e: Endpoint, peerCommitted: set<Binding>) {
    && e.retired <= peerCommitted
    && (forall l <- e.ops | e.ops[l].commitRequested || e.ops[l].commitAck :: e.ops[l].binding in peerCommitted)
  }

  /** A Commit or CommitAck is only ever sent about a carrier its sender has committed. */
  ghost predicate Honest(m: Message, committed: set<Binding>) {
    m.kind in {Commit, CommitAck} ==> m.binding in committed
  }

  ghost predicate Inv(s: System) {
    && Sound(s.client) && Sound(s.server)
    && Agrees(s.client, s.server.committed) && Agrees(s.server, s.client.committed)
    && (forall p <- s.sent :: Honest(p.message, End(s, p.from).committed))
  }

  lemma LocalSound(e: Endpoint, ev: Event)
    requires Sound(e) && Local(e, ev).Some?
    ensures Sound(Local(e, ev).value)
  {
    match ev
    case Attaches(leg, b, generation) => AttachSound(e, leg, b, generation);
    case Loads(leg, frames) => ScheduleSound(e, leg, frames);
    case Unloads(b, frames) => UnloadSound(e, b, frames);
    case Fails(leg) => CloseSound(e, leg);
    case PeerCloses(leg) => CloseSound(e, leg);
    case Leaves(leg) => DetachSound(e, leg);
    case Asks(leg) => AskSound(e, leg);
    case Starts(leg, b, operation) => StartDrainSound(e, leg, b, operation);
    case Sends(leg, kind, _) => MarkReadySentSound(e, leg);
    case Receives(m, _, _) => HandleControlSound(e, m);
    case Readies(leg) => MarkReadySound(e, leg);
    case Commits(leg) => SetCommitSound(e, leg);
    case Aborts(leg) => AbortSound(e, leg);
    case Completes(leg) => CompleteSound(e, leg);
    case RetiresRemote(leg) => RetireRemoteSound(e, leg);
  }

  /** Commitments are never taken back. */
  lemma CommitmentsGrow(e: Endpoint, ev: Event)
    requires Local(e, ev).Some?
    ensures e.committed <= Local(e, ev).value.committed
  {
    if ev.Receives? {
      ReceiveGrows(e, ev.message);
    } else if ev.Completes? || ev.RetiresRemote? || ev.Aborts? {
      EndGrows(e, ev.leg);
    }
  }

  lemma ReceiveGrows(e: Endpoint, m: Message)
    ensures e.committed <= HandleControl(e, m).0.committed
  {
  }

  lemma EndGrows(e: Endpoint, leg: Leg)
    ensures Complete(e, leg).committed == RetireRemote(e, leg).committed == AbortDrain(e, leg).committed == e.committed
  {
  }

  lemma LocalAgrees(e: Endpoint, ev: Event, peerCommitted: set<Binding>)
    requires Local(e, ev).Some? && Agrees(e, peerCommitted)
    requires ev.Receives? ==> Honest(ev.message, peerCommitted)
    ensures Agrees(Local(e, ev).value, peerCommitted)
  {
    match ev
    case Completes(leg) => CompleteAgrees(e, leg, peerCommitted);
    case RetiresRemote(leg) => RetireRemoteAgrees(e, leg, peerCommitted);
    case Aborts(leg) => AbortAgrees(e, leg, peerCommitted);
    case Receives(m, _, _) => ReceiveAgrees(e, m, peerCommitted);
    case _ =>
  }

  /** An operation ends as retired only after the peer's commit or its acknowledgement. */
  lemma CompleteAgrees(e: Endpoint, leg: Leg, peerCommitted: set<Binding>)
    requires Agrees(e, peerCommitted)
    ensures Agrees(Complete(e, leg), peerCommitted)
  {
  }

  lemma RetireRemoteAgrees(e: Endpoint, leg: Leg, peerCommitted: set<Binding>)
    requires Agrees(e, peerCommitted)
    ensures Agrees(RetireRemote(e, leg), peerCommitted)
  {
  }

  lemma AbortAgrees(e: Endpoint, leg: Leg, peerCommitted: set<Binding>)
    requires Agrees(e, peerCommitted)
    ensures Agrees(AbortDrain(e, leg), peerCommitted)
  {
  }

  lemma ReceiveAgrees(e: Endpoint, m: Message, peerCommitted: set<Binding>)
    requires Agrees(e, peerCommitted) && Honest(m, peerCommitted)
    ensures Agrees(HandleControl(e, m).0, peerCommitted)
  {
    if m.kind == Intent {
      IntentAgrees(e, m, peerCommitted);
    } else if Concerns(e, m) {
      AnswerAgrees(e.ops[m.leg].(peerGeneration := Some(m.generation)), m);
    }
  }

  lemma AnswerAgrees(op: Op, m: Message)
    requires m.kind != Intent
    ensures Answered(op, m).binding == op.binding
    ensures Answered(op, m).commitRequested && !op.commitRequested ==> m.kind == Commit
    ensures Answered(op, m).commitAck && !op.commitAck ==> m.kind == CommitAck
  {
    match m.kind
    case Quiesced =>
    case Ready =>
    case Commit =>
    case CommitAck =>
    case Abort =>
  }

  lemma IntentAgrees(e: Endpoint, m: Message, peerCommitted: set<Binding>)
    requires Agrees(e, peerCommitted)
    ensures Agrees(AcceptIntent(e, m).0, peerCommitted)
  {
  }

  /** A commit message is sent only by an operation that has committed. */
  lemma EmittedHonest(e: Endpoint, ev: Event, from: Role)
    requires Sound(e) && Local(e, ev).Some? && Emitted(e, ev, from).Some?
    ensures Honest(Emitted(e, ev, from).value.message, e.committed)
  {
    match ev
    case Sends(leg, kind, _) => assert OpSound(e, leg, e.ops[leg]);
    case _ =>
  }

  lemma StepKeeps(s: System, step: Step)
    requires Inv(s) && Next(s, step).Some?
    ensures Inv(Next(s, step).value)
  {
    var e, peer := End(s, step.role), End(s, Peer(step.role));
    var after := Local(e, step.event).value;
    assert Sound(after) by {
      LocalSound(e, step.event);
    }
    CommitmentsGrow(e, step.event);
    assert Agrees(after, peer.committed) by {
      LocalAgrees(e, step.event, peer.committed);
    }
    assert Agrees(peer, after.committed);
    SentHonest(s, step);
  }

  lemma SentHonest(s: System, step: Step)
    requires Inv(s) && Next(s, step).Some?
    ensures forall p <- Next(s, step).value.sent :: Honest(p.message, End(Next(s, step).value, p.from).committed)
  {
    var e := End(s, step.role);
    CommitmentsGrow(e, step.event);
    if Emitted(e, step.event, step.role).Some? {
      EmittedHonest(e, step.event, step.role);
    }
  }

  lemma {:induction false} RunKeeps(s: System, steps: seq<Step>)
    requires Inv(s) && Exec(s, steps).Some?
    ensures Inv(Exec(s, steps).value)
  {
    if steps != [] {
      RunKeeps(s, steps[..|steps| - 1]);
      StepKeeps(Exec(s, steps[..|steps| - 1]).value, steps[|steps| - 1]);
    }
  }

  // -------------------------------------------------------------------- drain agreement

  lemma {:induction false} CommitmentsLast(s: System, steps: seq<Step>, r: Role)
    requires Exec(s, steps).Some?
    ensures End(s, r).committed <= End(Exec(s, steps).value, r).committed
  {
    if steps != [] {
      var before := steps[..|steps| - 1];
      CommitmentsLast(s, before, r);
      var last := steps[|steps| - 1];
      CommitmentsGrow(End(Exec(s, before).value, last.role), last.event);
    }
  }

  /** Once a side has committed to drain a carrier - the initiator by setting commitSent, the
      responder by setting commitRequested - it never schedules DATA on that carrier again,
      whatever happens next. */
  lemma CommitIsFinal(steps: seq<Step>, more: seq<Step>, r: Role, leg: Leg, b: Binding)
    requires Exec(INITIAL, steps).Some? && Exec(Exec(INITIAL, steps).value, more).Some?
    requires b in End(Exec(INITIAL, steps).value, r).committed
    ensures !Schedulable(End(Exec(Exec(INITIAL, steps).value, more).value, r), leg, b)
  {
    var s := Exec(INITIAL, steps).value;
    RunKeeps(INITIAL, steps);
    RunKeeps(s, more);
    CommitmentsLast(s, more, r);
  }

  /** In every reachable state, a carrier one side has gracefully retired is open for DATA on
      neither side, is attached to the peer only under its own committed drain, and carries
      nothing in either direction. */
  lemma RetiredOnBothSides(steps: seq<Step>, r: Role, b: Binding)
    requires Exec(INITIAL, steps).Some? && b in End(Exec(INITIAL, steps).value, r).retired
    ensures var s := Exec(INITIAL, steps).value;
            && b in End(s, r).committed && b in End(s, Peer(r)).committed
            && Idle(End(s, r).load, b) && Idle(End(s, Peer(r)).load, b)
            && (forall leg: Leg :: !Attached(End(s, r), leg, b) && !Schedulable(End(s, Peer(r)), leg, b))
  {
    RunKeeps(INITIAL, steps);
    var s := Exec(INITIAL, steps).value;
    assert Agrees(End(s, r), End(s, Peer(r)).committed);
  }

  // --------------------------------------------------------- a leg is always left to use

  /** A carrier open for new DATA. */
  ghost predicate OpenLeg(e: Endpoint, leg: Leg) {
    leg in e.legs && Schedulable(e, leg, e.legs[leg])
  }

  /** An endpoint that ever had a carrier has one open for new DATA. */
  ghost predicate Live(e: Endpoint) {
    e.load == map[] || exists leg :: OpenLeg(e, leg)
  }

  /** No carrier fails, and no committed drain is abandoned to recovery. */
  predicate Calm(e: Endpoint, ev: Event) {
    match ev
    case Fails(_) => false
    case Aborts(leg) => leg in e.ops && e.ops[leg].Committed() ==> !Stands(e, leg, e.ops[leg].binding)
    case _ => true
  }

  /** The event accepts the peer's intent to drain this leg. */
  ghost predicate Accepts(e: Endpoint, ev: Event, leg: Leg) {
    && ev.Receives? && ev.message.kind == Intent && ev.message.leg == leg
    && leg !in e.ops && leg in HandleControl(e, ev.message).0.ops
  }

  /** The event opens an operation of this side's own. */
  ghost predicate OpensOwn(e: Endpoint, ev: Event, leg: Leg) {
    ev.Starts? && ev.leg == leg && ev.binding in e.asked && MayOpen(e, leg, ev.binding)
  }

  /** The event bars the last carrier that is open: under the drain lock both sides look only at the
      number of registered carriers, closed ones too. */
  ghost predicate TakesTheLast(e: Endpoint, ev: Event) {
    exists leg :: (Accepts(e, ev, leg) || OpensOwn(e, ev, leg)) && !HasControlLeg(e, leg)
  }

  lemma {:induction false} TwoFree(legs: set<Leg>, ops: set<Leg>, leg: Leg)
    requires |legs| - |ops| > 1
    ensures exists l :: l in legs && l !in ops && l != leg
  {
    var free := legs - ops - {leg};
    assert legs <= ops + {leg} + free;
    if free == {} {
      SubsetSize(legs, ops + {leg});
      assert false;
    }
    var l :| l in free;
  }

  /** Without closed carriers that linger in the registry after their operation, the guard on
      registered carriers leaves an open one, even while finished operations linger. */
  lemma GuardLeavesOpen(e: Endpoint, leg: Leg)
    requires Sound(e) && MayDrain(e) && (forall l <- e.legs | e.legs[l] in e.closed :: l in e.ops)
    ensures HasControlLeg(e, leg)
  {
    assert |e.legs.Keys| - |e.ops.Keys| > 1;
    TwoFree(e.legs.Keys, e.ops.Keys, leg);
    var l :| l in e.legs.Keys && l !in e.ops.Keys && l != leg;
    assert e.legs[l] !in e.draining && e.legs[l] !in e.closed;
  }

  /** Nothing but raising its own barrier takes an open carrier away in calm times. */
  lemma OpenKept(e: Endpoint, ev: Event, leg: Leg)
    requires Sound(e) && Local(e, ev).Some? && Calm(e, ev) && OpenLeg(e, leg)
    requires ev.PeerCloses? ==> ev.leg in e.legs && e.legs[ev.leg] in e.draining + e.closed
    requires !ev.Starts? && !ev.Receives?
    ensures OpenLeg(Local(e, ev).value, leg)
  {
    match ev
    case Completes(l) => EndKeepsOpen(e, l, leg);
    case RetiresRemote(l) => EndKeepsOpen(e, l, leg);
    case _ =>
  }

  lemma EndKeepsOpen(e: Endpoint, l: Leg, leg: Leg)
    requires Sound(e) && OpenLeg(e, leg)
    ensures OpenLeg(Complete(e, l), leg) && OpenLeg(RetireRemote(e, l), leg)
  {
    if l in e.ops {
      assert OpSound(e, l, e.ops[l]);
    }
  }

  /** Raising the barrier of one carrier leaves the others as they are. */
  lemma BarLeaves(e: Endpoint, leg: Leg, after: Endpoint)
    requires Distinct(e.legs) && leg in e.legs && after.legs == e.legs && after.closed == e.closed
    requires after.draining == e.draining + {e.legs[leg]} && after.load == e.load && e.load != map[]
    ensures Live(after) <==> HasControlLeg(e, leg)
  {
    if HasControlLeg(e, leg) {
      var l :| l in e.legs && l != leg && e.legs[l] !in e.draining && e.legs[l] !in e.closed;
      assert OpenLeg(after, l);
    }
    if l :| OpenLeg(after, l) {
      assert l != leg;
    }
  }

  /** A calm event leaves an endpoint without an open carrier exactly when it opens a drain of the last. */
  lemma LiveKeptIff(e: Endpoint, ev: Event)
    requires Sound(e) && Local(e, ev).Some? && Calm(e, ev) && Live(e)
    requires ev.PeerCloses? ==> ev.leg in e.legs && e.legs[ev.leg] in e.draining + e.closed
    ensures Live(Local(e, ev).value) <==> !TakesTheLast(e, ev)
  {
    if ev.Starts? {
      StartLive(e, ev);
    } else if ev.Receives? {
      ReceiveLive(e, ev);
    } else {
      OtherLive(e, ev);
    }
  }

  lemma OtherLive(e: Endpoint, ev: Event)
    requires Sound(e) && Local(e, ev).Some? && Calm(e, ev) && Live(e) && !ev.Starts? && !ev.Receives?
    requires ev.PeerCloses? ==> ev.leg in e.legs && e.legs[ev.leg] in e.draining + e.closed
    ensures Live(Local(e, ev).value)
  {
    if e.load == map[] {
      assert e.legs == map[];
      if ev.Attaches? {
        assert OpenLeg(Local(e, ev).value, ev.leg);
      }
    } else {
      var l :| OpenLeg(e, l);
      OpenKept(e, ev, l);
    }
  }

  lemma StartLive(e: Endpoint, ev: Event)
    requires Sound(e) && Live(e) && ev.Starts? && Local(e, ev).Some?
    ensures Live(Local(e, ev).value) <==> !TakesTheLast(e, ev)
  {
    if OpensOwn(e, ev, ev.leg) {
      BarLeaves(e, ev.leg, Local(e, ev).value);
    } else if e.load != map[] {
      var l :| OpenLeg(e, l);
      assert OpenLeg(Local(e, ev).value, l);
    }
  }

  lemma ReceiveLive(e: Endpoint, ev: Event)
    requires Sound(e) && Live(e) && ev.Receives?
    ensures Live(HandleControl(e, ev.message).0) <==> !TakesTheLast(e, ev)
  {
    var m, after := ev.message, HandleControl(e, ev.message).0;
    if Accepts(e, ev, m.leg) {
      BarLeaves(e, m.leg, after);
    } else if e.load != map[] {
      var l :| OpenLeg(e, l);
      assert OpenLeg(after, l);
    }
  }

  /** A carrier closed on one side was retired there, or the other side had closed it first. */
  ghost predicate Explained(e: Endpoint, peer: Endpoint) {
    forall b <- e.closed :: b in e.retired || b in peer.closed
  }

  ghost predicate CalmInv(s: System) {
    && Inv(s)
    && Live(s.client) && Live(s.server)
    && Explained(s.client, s.server) && Explained(s.server, s.client)
  }

  /** A calm event closes nothing but what it retires or the peer has closed. */
  lemma CalmCloses(e: Endpoint, peer: Endpoint, ev: Event)
    requires Sound(e) && Local(e, ev).Some? && Calm(e, ev)
    requires ev.PeerCloses? ==> ev.leg in e.legs && e.legs[ev.leg] in peer.closed
    ensures var after := Local(e, ev).value;
            && e.closed <= after.closed && e.retired <= after.retired
            && (forall b <- after.closed :: b in e.closed || b in after.retired || b in peer.closed)
  {
    match ev
    case Completes(l) => EndCloses(e, l);
    case RetiresRemote(l) => EndCloses(e, l);
    case Receives(m, _, _) => ReceiveCloses(e, m);
    case Aborts(l) => AbortCloses(e, l);
    case _ =>
  }

  lemma AbortCloses(e: Endpoint, l: Leg)
    requires l in e.ops && e.ops[l].Committed() ==> !Stands(e, l, e.ops[l].binding)
    ensures AbortDrain(e, l).closed == e.closed && AbortDrain(e, l).retired == e.retired
  {
  }

  lemma ReceiveCloses(e: Endpoint, m: Message)
    ensures HandleControl(e, m).0.closed == e.closed && HandleControl(e, m).0.retired == e.retired
  {
  }

  /** A committed operation on a carrier that stands is ready, so it retires and never recovers. */
  lemma EndCloses(e: Endpoint, l: Leg)
    requires Sound(e)
    ensures forall after | after in {Complete(e, l), RetireRemote(e, l)} ::
              && e.closed <= after.closed && e.retired <= after.retired
              && (forall b <- after.closed :: b in e.closed || b in after.retired)
  {
    if l in e.ops {
      assert OpSound(e, l, e.ops[l]);
    }
  }

  lemma CalmStepKeeps(s: System, step: Step)
    requires CalmInv(s) && Next(s, step).Some? && Calm(End(s, step.role), step.event)
    requires !TakesTheLast(End(s, step.role), step.event)
    ensures CalmInv(Next(s, step).value)
  {
    var e, peer := End(s, step.role), End(s, Peer(step.role));
    StepKeeps(s, step);
    assert Sound(e) && Agrees(peer, e.committed) && Explained(peer, e) && Explained(e, peer) && Live(e) && Live(peer);
    if step.event.PeerCloses? {
      PeerClosesBarred(e, peer, step.event.leg);
    }
    LiveKeptIff(e, step.event);
    CalmCloses(e, peer, step.event);
    assert Explained(Local(e, step.event).value, peer) && Explained(peer, Local(e, step.event).value);
  }

  /** A carrier the peer has closed is still open here only under a committed drain. */
  lemma PeerClosesBarred(e: Endpoint, peer: Endpoint, leg: Leg)
    requires Sound(e) && Agrees(peer, e.committed) && Explained(peer, e)
    requires leg in e.legs && e.legs[leg] in peer.closed
    ensures e.legs[leg] in e.draining || e.legs[leg] in e.closed
  {
  }

  /** A closed carrier is still registered although no operation is about its leg. */
  ghost predicate Lingering(e: Endpoint) {
    exists l <- e.legs :: e.legs[l] in e.closed && l !in e.ops
  }

  /** Only a lingering carrier can make up for the open one that is missing. */
  lemma OnlyLingering(e: Endpoint, ev: Event)
    requires Sound(e) && TakesTheLast(e, ev)
    ensures Lingering(e)
  {
    if !Lingering(e) {
      var leg :| (Accepts(e, ev, leg) || OpensOwn(e, ev, leg)) && !HasControlLeg(e, leg);
      GuardLeavesOpen(e, leg);
    }
  }

  predicate CalmRun(s: System, steps: seq<Step>) {
    if steps == [] then true
    else
      var before, last := steps[..|steps| - 1], steps[|steps| - 1];
      CalmRun(s, before) && (Exec(s, before).Some? ==> Calm(End(Exec(s, before).value, last.role), last.event))
  }

  /** A message is handled while the carrier it came over is still registered and open. */
  predicate Heard(e: Endpoint, ev: Event) {
    ev.Receives? ==>
      CanHear(e, ev.message.leg, ev.via) && Attached(e, e.carriers[ev.via].leg, ev.via) && ev.via !in e.closed
  }

  predicate HeardRun(s: System, steps: seq<Step>) {
    if steps == [] then true
    else
      var before, last := steps[..|steps| - 1], steps[|steps| - 1];
      HeardRun(s, before) && (Exec(s, before).Some? ==> Heard(End(Exec(s, before).value, last.role), last.event))
  }

  /** Whenever the run opens an operation, on either side, another carrier is open there. */
  ghost predicate Spares(s: System, steps: seq<Step>) {
    steps != [] ==>
      var before, last := steps[..|steps| - 1], steps[|steps| - 1];
      Spares(s, before)
      && (Exec(s, before).Some? ==> !TakesTheLast(End(Exec(s, before).value, last.role), last.event))
  }

  /** Along the whole run, an endpoint that ever had a carrier has one open for DATA. */
  ghost predicate LegLeft(s: System, steps: seq<Step>) {
    && (steps != [] ==> LegLeft(s, steps[..|steps| - 1]))
    && (Exec(s, steps).Some? ==> Live(Exec(s, steps).value.client) && Live(Exec(s, steps).value.server))
  }

  lemma {:induction false} CalmRunKeeps(s: System, steps: seq<Step>)
    requires CalmInv(s) && CalmRun(s, steps) && Spares(s, steps) && Exec(s, steps).Some?
    ensures CalmInv(Exec(s, steps).value)
  {
    if steps != [] {
      CalmRunKeeps(s, steps[..|steps| - 1]);
      CalmStepKeeps(Exec(s, steps[..|steps| - 1]).value, steps[|steps| - 1]);
    }
  }

  /** Without carrier failures, whatever drains both sides start and however they interleave: an
      endpoint that ever had a carrier has one open for DATA throughout the run, if and only if
      every operation finds another carrier open when it is opened. */
  lemma {:induction false} LegLeftIff(steps: seq<Step>)
    requires CalmRun(INITIAL, steps) && Exec(INITIAL, steps).Some?
    ensures LegLeft(INITIAL, steps) <==> Spares(INITIAL, steps)
  {
    if steps != [] {
      var before, last := steps[..|steps| - 1], steps[|steps| - 1];
      LegLeftIff(before);
      if Spares(INITIAL, before) {
        CalmRunKeeps(INITIAL, before);
        LastStepIff(Exec(INITIAL, before).value, last);
      }
    }
  }

  lemma LastStepIff(s: System, step: Step)
    requires CalmInv(s) && Next(s, step).Some? && Calm(End(s, step.role), step.event)
    ensures Live(Next(s, step).value.client) && Live(Next(s, step).value.server)
            <==> !TakesTheLast(End(s, step.role), step.event)
  {
    var e, peer := End(s, step.role), End(s, Peer(step.role));
    if step.event.PeerCloses? {
      PeerClosesBarred(e, peer, step.event.leg);
    }
    LiveKeptIff(e, step.event);
  }

  /** No intent arrives and no drain takes its lock while a closed carrier lingers. */
  ghost predicate Prompt(s: System, steps: seq<Step>) {
    steps != [] ==>
      var before, last := steps[..|steps| - 1], steps[|steps| - 1];
      Prompt(s, before)
      && (Exec(s, before).Some? && ((last.event.Receives? && last.event.message.kind == Intent) || last.event.Starts?)
          ==> !Lingering(End(Exec(s, before).value, last.role)))
  }

  /** So with closed carriers unregistered before the next operation is opened, an endpoint that ever had
      a carrier always has one open for DATA. */
  lemma {:induction false} AlwaysALegLeft(steps: seq<Step>)
    requires CalmRun(INITIAL, steps) && Prompt(INITIAL, steps) && Exec(INITIAL, steps).Some?
    ensures LegLeft(INITIAL, steps) && Spares(INITIAL, steps)
  {
    if steps != [] {
      var before, last := steps[..|steps| - 1], steps[|steps| - 1];
      AlwaysALegLeft(before);
      RunKeeps(INITIAL, before);
      var e := End(Exec(INITIAL, before).value, last.role);
      if TakesTheLast(e, last.event) {
        OnlyLingering(e, last.event);
      }
    }
    LegLeftIff(steps);
  }
}

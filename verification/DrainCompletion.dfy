/** A coordinated drain does complete: from every state in which both endpoints can spare an idle
    carrier, some run gracefully retires it on both sides. */
module DrainCompletion {
  import opened Prelude
  import opened DrainEndpoint
  import opened DrainProtocol

  /** The system with `e` at role `r` and `f` at its peer. */
  function Sys(r: Role, e: Endpoint, f: Endpoint, sent: set<Packet>): System {
    if r == Client then System(e, f, sent) else System(f, e, sent)
  }

  /** An endpoint in the middle of a drain of `b` on `leg`. */
  function During(e: Endpoint, leg: Leg, b: Binding, op: Op, highWater: map<Leg, nat>, counter: nat): Endpoint {
    e.(ops := e.ops[leg := op], draining := e.draining + {b}, highWater := highWater, counter := counter,
       committed := if op.Committed() then e.committed + {b} else e.committed)
  }

  /** The endpoint can spare the carrier: it is attached, open and idle, no operation is about its
      leg, and other carriers are left, among them one for control frames that stays open. */
  ghost predicate CanSpare(e: Endpoint, leg: Leg, b: Binding, via: Binding) {
    && Stands(e, leg, b) && Idle(e.load, b)
    && leg !in e.ops && MayDrain(e) && |e.legs| > 1 && via != b && CanCarry(e, leg, via)
  }

  predicate Matches(op: Op, leg: Leg, m: Message) {
    && m.leg == leg && m.binding == op.binding && m.operation == op.operation && m.counter == op.counter
    && (if op.peerGeneration.Some? then op.peerGeneration.value == m.generation else m.kind != CommitAck)
  }

  lemma ControlLegStays(e: Endpoint, leg: Leg, b: Binding, via: Binding, op: Op, hw: map<Leg, nat>, n: nat)
    requires CanCarry(e, leg, via) && via != b
    ensures CanCarry(During(e, leg, b, op, hw, n), leg, via)
    ensures HasControlLeg(e, leg)
  {
    assert e.carriers[via].leg in e.legs;
  }

  /** A matching message moves the operation and nothing else. */
  lemma AnswerDuring(e: Endpoint, leg: Leg, b: Binding, op: Op, hw: map<Leg, nat>, n: nat, m: Message)
    requires Stands(e, leg, b) && op.binding == b && Matches(op, leg, m) && m.kind != Intent
    requires op.Committed() ==> Hears(op, m).Committed()
    ensures HandleControl(During(e, leg, b, op, hw, n), m).0 == During(e, leg, b, Hears(op, m), hw, n)
  {
    var d := During(e, leg, b, op, hw, n);
    assert Concerns(d, m);
    assert d.ops[leg := Hears(op, m)] == e.ops[leg := Hears(op, m)];
  }

  lemma ReadyDuring(e: Endpoint, leg: Leg, b: Binding, op: Op, hw: map<Leg, nat>, n: nat)
    requires Stands(e, leg, b) && Idle(e.load, b) && op.binding == b && !op.Committed()
    ensures MarkReady(During(e, leg, b, op, hw, n), leg) == During(e, leg, b, op.(localReady := true), hw, n)
  {
    var d := During(e, leg, b, op, hw, n);
    assert d.ops[leg := op.(localReady := true)] == e.ops[leg := op.(localReady := true)];
  }

  lemma CommitDuring(e: Endpoint, leg: Leg, b: Binding, op: Op, hw: map<Leg, nat>, n: nat)
    requires op.binding == b && op.initiator && !op.Committed() && !op.terminal
    requires op.readySent && op.localReady && op.peerQuiesced && op.peerReady
    ensures SetCommit(During(e, leg, b, op, hw, n), leg)
            == Some(During(e, leg, b, op.(commitSent := true), hw, n))
  {
    var d, next := During(e, leg, b, op, hw, n), op.(commitSent := true);
    assert d.ops[leg := next] == e.ops[leg := next];
  }

  /** The operation is acknowledged, and its carrier is still ready. */
  ghost predicate Completable(e: Endpoint, leg: Leg, b: Binding) {
    leg in e.ops && e.ops[leg].commitAck && e.ops[leg].binding == b && DrainReady(e, leg, b)
  }

  lemma CompletableDuring(e: Endpoint, leg: Leg, b: Binding, op: Op, hw: map<Leg, nat>, n: nat)
    requires Stands(e, leg, b) && Idle(e.load, b) && op.binding == b && op.commitAck
    ensures Completable(During(e, leg, b, op, hw, n), leg, b)
  {
  }

  /** What an operation on an idle carrier says. */
  function Says(op: Op, leg: Leg, kind: Kind, generation: nat): Message {
    Message(kind, leg, generation, op.binding, op.operation, op.counter, 0)
  }

  lemma SendDuring(e: Endpoint, leg: Leg, b: Binding, op: Op, hw: map<Leg, nat>, n: nat, kind: Kind)
    requires Idle(e.load, b) && op.binding == b
    ensures MessageFor(During(e, leg, b, op, hw, n), leg, kind) == Some(Says(op, leg, kind, GenerationOf(e, b)))
  {
  }

  // ------------------------------------------------------------------------- the run

  lemma ExecSnoc(s: System, steps: seq<Step>, step: Step)
    ensures Exec(s, steps + [step]) == Then(Exec(s, steps), step)
  {
    assert (steps + [step])[..|steps|] == steps;
  }

  /** Sending changes nothing at the sender but the initiator's own note of its Ready. */
  lemma SendStep(r: Role, e: Endpoint, f: Endpoint, sent: set<Packet>, who: Role, leg: Leg, kind: Kind, via: Binding,
                 m: Message)
    requires var x := if who == r then e else f;
             MaySend(x, leg, kind) && CanCarry(x, leg, via) && MessageFor(x, leg, kind) == Some(m)
    ensures var x := if who == r then e else f;
            var y := if kind == Ready && x.ops[leg].initiator then MarkReadySent(x, leg) else x;
            var more := sent + {Packet(who, via, m)};
            Next(Sys(r, e, f, sent), Step(who, Sends(leg, kind, via)))
            == Some(if who == r then Sys(r, y, f, more) else Sys(r, e, y, more))
  {
  }

  /** Delivering a message that draws no reply. */
  lemma ReceiveStep(r: Role, e: Endpoint, f: Endpoint, sent: set<Packet>, who: Role, m: Message, via: Binding,
                    y: Endpoint)
    requires Packet(Peer(who), via, m) in sent && CanHear(if who == r then e else f, m.leg, via)
    requires HandleControl(if who == r then e else f, m) == (y, false)
    ensures Next(Sys(r, e, f, sent), Step(who, Receives(m, via, via)))
            == Some(if who == r then Sys(r, y, f, sent) else Sys(r, e, y, sent))
  {
  }

  lemma LocalStep(r: Role, e: Endpoint, f: Endpoint, sent: set<Packet>, who: Role, ev: Event, y: Endpoint)
    requires ev.Attaches? || ev.Asks? || ev.Starts? || ev.Readies? || ev.Commits? || ev.Completes? || ev.RetiresRemote?
    requires Local(if who == r then e else f, ev) == Some(y)
    ensures Next(Sys(r, e, f, sent), Step(who, ev)) == Some(if who == r then Sys(r, y, f, sent) else Sys(r, e, y, sent))
  {
  }

  /** The run so far has led to this state, no carrier has failed in it, and every message was handled
      while the carrier it came over was open. */
  ghost predicate Reached(s: System, steps: seq<Step>, t: System) {
    Exec(s, steps) == Some(t) && CalmRun(s, steps) && HeardRun(s, steps)
  }

  lemma Go(s: System, before: seq<Step>, t: System, step: Step, u: System) returns (steps: seq<Step>)
    requires Reached(s, before, t) && Next(t, step) == Some(u) && !step.event.Fails? && !step.event.Aborts?
    requires Heard(End(t, step.role), step.event)
    ensures Reached(s, steps, u)
  {
    ExecSnoc(s, before, step);
    steps := before + [step];
    assert steps[..|before|] == before;
  }

  /** A local event of one side, whatever it is. */
  lemma GoLocal(s: System, before: seq<Step>, r: Role, e: Endpoint, f: Endpoint, sent: set<Packet>, who: Role,
                ev: Event, y: Endpoint) returns (steps: seq<Step>)
    requires ev.Attaches? || ev.Asks? || ev.Starts? || ev.Readies? || ev.Commits? || ev.Completes? || ev.RetiresRemote?
    requires Reached(s, before, Sys(r, e, f, sent)) && Local(if who == r then e else f, ev) == Some(y)
    ensures Reached(s, steps, if who == r then Sys(r, y, f, sent) else Sys(r, e, y, sent))
  {
    LocalStep(r, e, f, sent, who, ev, y);
    steps := Go(s, before, Sys(r, e, f, sent), Step(who, ev),
                if who == r then Sys(r, y, f, sent) else Sys(r, e, y, sent));
  }

  /** One side sends. */
  lemma GoSend(s: System, before: seq<Step>, r: Role, e: Endpoint, f: Endpoint, sent: set<Packet>, who: Role, leg: Leg,
               kind: Kind, via: Binding, m: Message) returns (steps: seq<Step>)
    requires var x := if who == r then e else f;
             MaySend(x, leg, kind) && CanCarry(x, leg, via) && MessageFor(x, leg, kind) == Some(m)
    requires Reached(s, before, Sys(r, e, f, sent))
    ensures var x := if who == r then e else f;
            var y := if kind == Ready && x.ops[leg].initiator then MarkReadySent(x, leg) else x;
            var more := sent + {Packet(who, via, m)};
            Reached(s, steps, if who == r then Sys(r, y, f, more) else Sys(r, e, y, more))
  {
    var x := if who == r then e else f;
    var y := if kind == Ready && x.ops[leg].initiator then MarkReadySent(x, leg) else x;
    var more := sent + {Packet(who, via, m)};
    SendStep(r, e, f, sent, who, leg, kind, via, m);
    steps := Go(s, before, Sys(r, e, f, sent), Step(who, Sends(leg, kind, via)),
                if who == r then Sys(r, y, f, more) else Sys(r, e, y, more));
  }

  /** One side receives, and sends no reply. */
  lemma GoReceive(s: System, before: seq<Step>, r: Role, e: Endpoint, f: Endpoint, sent: set<Packet>, who: Role,
                  m: Message, via: Binding, y: Endpoint) returns (steps: seq<Step>)
    requires Packet(Peer(who), via, m) in sent && Heard(if who == r then e else f, Receives(m, via, via))
    requires HandleControl(if who == r then e else f, m) == (y, false) && Reached(s, before, Sys(r, e, f, sent))
    ensures Reached(s, steps, if who == r then Sys(r, y, f, sent) else Sys(r, e, y, sent))
  {
    ReceiveStep(r, e, f, sent, who, m, via, y);
    steps := Go(s, before, Sys(r, e, f, sent), Step(who, Receives(m, via, via)),
                if who == r then Sys(r, y, f, sent) else Sys(r, e, y, sent));
  }

  /** The drain's two ends: what each endpoint was before it, the leg and carrier it is about, and the
      carrier of its control frames. */
  datatype Drain = Drain(r: Role, e: Endpoint, f: Endpoint, leg: Leg, b: Binding, via: Binding, operation: nat)

  ghost predicate Drainable(d: Drain) {
    && CanSpare(d.e, d.leg, d.b, d.via) && CanSpare(d.f, d.leg, d.b, d.via)
    && (d.leg in d.f.highWater ==> d.f.highWater[d.leg] <= d.e.counter)
  }

  function Counter(d: Drain): nat {
    d.e.counter + 1
  }

  /** Both ends in the middle of the drain. */
  function Mid(d: Drain, op: Op, peer: Op, sent: set<Packet>): System {
    Sys(d.r, During(d.e, d.leg, d.b, op, d.e.highWater, Counter(d)),
        During(d.f, d.leg, d.b, peer, d.f.highWater[d.leg := Counter(d)], d.f.counter), sent)
  }

  function FirstOp(d: Drain): Op {
    NewOp(d.b, d.operation, Counter(d), None)
  }

  function PeerOp(d: Drain): Op {
    NewOp(d.b, d.operation, Counter(d), Some(GenerationOf(d.e, d.b)))
  }

  /** A call of DrainLeg makes its checks and takes the lock. */
  lemma GoStart(s: System, before: seq<Step>, r: Role, e: Endpoint, f: Endpoint, sent: set<Packet>, leg: Leg,
                b: Binding, operation: nat, a: Endpoint, x: Endpoint) returns (steps: seq<Step>)
    requires Reached(s, before, Sys(r, e, f, sent))
    requires AskDrain(e, leg) == Some(a) && StartDrain(a, leg, b, operation) == Some(x)
    ensures Reached(s, steps, Sys(r, x, f, sent))
  {
    steps := GoAsk(s, before, r, e, f, sent, leg, a);
    steps := GoLock(s, steps, r, a, f, sent, leg, b, operation, x);
  }

  lemma GoAsk(s: System, before: seq<Step>, r: Role, e: Endpoint, f: Endpoint, sent: set<Packet>, leg: Leg,
              a: Endpoint) returns (steps: seq<Step>)
    requires Reached(s, before, Sys(r, e, f, sent)) && AskDrain(e, leg) == Some(a)
    ensures Reached(s, steps, Sys(r, a, f, sent))
  {
    steps := GoLocal(s, before, r, e, f, sent, r, Asks(leg), a);
  }

  lemma GoLock(s: System, before: seq<Step>, r: Role, e: Endpoint, f: Endpoint, sent: set<Packet>, leg: Leg, b: Binding,
               operation: nat, x: Endpoint) returns (steps: seq<Step>)
    requires Reached(s, before, Sys(r, e, f, sent)) && StartDrain(e, leg, b, operation) == Some(x)
    ensures Reached(s, steps, Sys(r, x, f, sent))
  {
    steps := GoLocal(s, before, r, e, f, sent, r, Starts(leg, b, operation), x);
  }

  lemma StartGives(d: Drain, a: Endpoint)
    requires CanSpare(d.e, d.leg, d.b, d.via) && a == d.e.(asked := d.e.asked + multiset{d.b})
    ensures AskDrain(d.e, d.leg) == Some(a)
    ensures StartDrain(a, d.leg, d.b, d.operation)
            == Some(During(d.e, d.leg, d.b, FirstOp(d), d.e.highWater, Counter(d)))
  {
    ControlLegStays(d.e, d.leg, d.b, d.via, FirstOp(d), d.e.highWater, Counter(d));
    assert a.asked - multiset{d.b} == d.e.asked;
  }

  lemma OpenPhase(s: System, before: seq<Step>, d: Drain, sent: set<Packet>)
    returns (steps: seq<Step>, after: set<Packet>)
    requires Drainable(d) && Reached(s, before, Sys(d.r, d.e, d.f, sent))
    ensures Reached(s, steps, Mid(d, FirstOp(d), PeerOp(d), after))
  {
    var x, m := During(d.e, d.leg, d.b, FirstOp(d), d.e.highWater, Counter(d)),
                Says(FirstOp(d), d.leg, Intent, GenerationOf(d.e, d.b));
    StartGives(d, d.e.(asked := d.e.asked + multiset{d.b}));
    steps := GoStart(s, before, d.r, d.e, d.f, sent, d.leg, d.b, d.operation,
                     d.e.(asked := d.e.asked + multiset{d.b}), x);
    ControlLegStays(d.e, d.leg, d.b, d.via, FirstOp(d), d.e.highWater, Counter(d));
    SendDuring(d.e, d.leg, d.b, FirstOp(d), d.e.highWater, Counter(d), Intent);
    after := sent + {Packet(d.r, d.via, m)};
    steps := GoSend(s, steps, d.r, x, d.f, sent, d.r, d.leg, Intent, d.via, m);
    var y := During(d.f, d.leg, d.b, PeerOp(d), d.f.highWater[d.leg := Counter(d)], d.f.counter);
    steps := GoReceive(s, steps, d.r, x, d.f, after, Peer(d.r), m, d.via, y);
  }

  ghost predicate Named(d: Drain, op: Op, peer: Op) {
    && op.binding == peer.binding == d.b && op.operation == peer.operation && op.counter == peer.counter
    && op.initiator && !peer.initiator
    && op.peerGeneration in {None, Some(GenerationOf(d.f, d.b))}
    && peer.peerGeneration == Some(GenerationOf(d.e, d.b))
  }

  /** The initiator says `kind` and the responder hears it. */
  lemma TellPeer(s: System, before: seq<Step>, d: Drain, op: Op, peer: Op, sent: set<Packet>, kind: Kind)
    returns (steps: seq<Step>, after: set<Packet>)
    requires Drainable(d) && Named(d, op, peer) && kind in {Ready, Commit} && Reached(s, before, Mid(d, op, peer, sent))
    requires kind == Ready ==> op.localReady && op.peerQuiesced && !op.Committed()
    requires kind == Commit ==> op.commitSent
    ensures var told := Hears(peer, Says(op, d.leg, kind, GenerationOf(d.e, d.b)));
            Reached(s, steps, Mid(d, if kind == Ready then op.(readySent := true) else op, told, after))
  {
    var m := Says(op, d.leg, kind, GenerationOf(d.e, d.b));
    var x := During(d.e, d.leg, d.b, op, d.e.highWater, Counter(d));
    var hw := d.f.highWater[d.leg := Counter(d)];
    var y := During(d.f, d.leg, d.b, peer, hw, d.f.counter);
    var op' := if kind == Ready then op.(readySent := true) else op;
    var x' := During(d.e, d.leg, d.b, op', d.e.highWater, Counter(d));
    SendDuring(d.e, d.leg, d.b, op, d.e.highWater, Counter(d), kind);
    after := sent + {Packet(d.r, d.via, m)};
    ControlLegStays(d.e, d.leg, d.b, d.via, op, d.e.highWater, Counter(d));
    ControlLegStays(d.f, d.leg, d.b, d.via, peer, hw, d.f.counter);
    assert x.ops[d.leg := op'] == d.e.ops[d.leg := op'];
    steps := GoSend(s, before, d.r, x, y, sent, d.r, d.leg, kind, d.via, m);
    AnswerDuring(d.f, d.leg, d.b, peer, hw, d.f.counter, m);
    var y' := During(d.f, d.leg, d.b, Hears(peer, m), hw, d.f.counter);
    steps := GoReceive(s, steps, d.r, x', y, after, Peer(d.r), m, d.via, y');
  }

  /** The responder says it is ready and the initiator hears it. */
  lemma TellInitiator(s: System, before: seq<Step>, d: Drain, op: Op, peer: Op, sent: set<Packet>)
    returns (steps: seq<Step>, after: set<Packet>)
    requires Drainable(d) && Named(d, op, peer) && peer.localReady && Reached(s, before, Mid(d, op, peer, sent))
    ensures Reached(s, steps, Mid(d, Hears(op, Says(peer, d.leg, Ready, GenerationOf(d.f, d.b))), peer, after))
  {
    var m := Says(peer, d.leg, Ready, GenerationOf(d.f, d.b));
    var x := During(d.e, d.leg, d.b, op, d.e.highWater, Counter(d));
    var hw := d.f.highWater[d.leg := Counter(d)];
    var y := During(d.f, d.leg, d.b, peer, hw, d.f.counter);
    SendDuring(d.f, d.leg, d.b, peer, hw, d.f.counter, Ready);
    ControlLegStays(d.e, d.leg, d.b, d.via, op, d.e.highWater, Counter(d));
    ControlLegStays(d.f, d.leg, d.b, d.via, peer, hw, d.f.counter);
    after := sent + {Packet(Peer(d.r), d.via, m)};
    steps := GoSend(s, before, d.r, x, y, sent, Peer(d.r), d.leg, Ready, d.via, m);
    AnswerDuring(d.e, d.leg, d.b, op, d.e.highWater, Counter(d), m);
    var x' := During(d.e, d.leg, d.b, Hears(op, m), d.e.highWater, Counter(d));
    steps := GoReceive(s, steps, d.r, x, y, after, d.r, m, d.via, x');
  }

  lemma GetReady(s: System, before: seq<Step>, d: Drain, op: Op, peer: Op, sent: set<Packet>, initiator: bool)
    returns (steps: seq<Step>)
    requires Drainable(d) && Named(d, op, peer) && !op.Committed() && !peer.Committed()
    requires Reached(s, before, Mid(d, op, peer, sent))
    ensures Reached(s, steps, if initiator then Mid(d, op.(localReady := true), peer, sent)
                              else Mid(d, op, peer.(localReady := true), sent))
  {
    var who := if initiator then d.r else Peer(d.r);
    var x := During(d.e, d.leg, d.b, op, d.e.highWater, Counter(d));
    var hw := d.f.highWater[d.leg := Counter(d)];
    var y := During(d.f, d.leg, d.b, peer, hw, d.f.counter);
    ReadyDuring(d.e, d.leg, d.b, op, d.e.highWater, Counter(d));
    ReadyDuring(d.f, d.leg, d.b, peer, hw, d.f.counter);
    var z := MarkReady(if initiator then x else y, d.leg);
    steps := GoLocal(s, before, d.r, x, y, sent, who, Readies(d.leg), z);
  }

  /** Both sides become ready and tell each other. */
  lemma ReadyPhase(s: System, before: seq<Step>, d: Drain, op: Op, peer: Op, sent: set<Packet>)
    returns (steps: seq<Step>, op': Op, peer': Op, after: set<Packet>)
    requires Drainable(d) && op == FirstOp(d) && peer == PeerOp(d) && Reached(s, before, Mid(d, op, peer, sent))
    ensures Reached(s, steps, Mid(d, op', peer', after)) && Named(d, op', peer')
    ensures op'.peerGeneration == Some(GenerationOf(d.f, d.b))
    ensures !op'.Committed() && !op'.terminal && op'.readySent && op'.localReady && op'.peerQuiesced && op'.peerReady
    ensures !peer'.Committed() && peer'.localReady && peer'.peerReady
  {
    var peer1 := peer.(localReady := true);
    steps := GetReady(s, before, d, op, peer, sent, false);
    steps, after := TellInitiator(s, steps, d, op, peer1, sent);
    var op1 := op.(peerGeneration := Some(GenerationOf(d.f, d.b)), peerQuiesced := true, peerReady := true);
    steps := GetReady(s, steps, d, op1, peer1, after, true);
    var op2 := op1.(localReady := true);
    steps, after := TellPeer(s, steps, d, op2, peer1, after, Ready);
    op', peer' := op2.(readySent := true), peer1.(peerQuiesced := true, peerReady := true);
  }

  /** The initiator passes the point of no return. */
  lemma CommitPhase(s: System, before: seq<Step>, d: Drain, op: Op, peer: Op, sent: set<Packet>)
    returns (steps: seq<Step>)
    requires Drainable(d) && Named(d, op, peer) && !op.Committed() && !op.terminal
    requires op.readySent && op.localReady && op.peerQuiesced && op.peerReady
    requires Reached(s, before, Mid(d, op, peer, sent))
    ensures Reached(s, steps, Mid(d, op.(commitSent := true), peer, sent))
  {
    var x := During(d.e, d.leg, d.b, op, d.e.highWater, Counter(d));
    var y := During(d.f, d.leg, d.b, peer, d.f.highWater[d.leg := Counter(d)], d.f.counter);
    var x' := During(d.e, d.leg, d.b, op.(commitSent := true), d.e.highWater, Counter(d));
    CommitDuring(d.e, d.leg, d.b, op, d.e.highWater, Counter(d));
    steps := GoLocal(s, before, d.r, x, y, sent, d.r, Commits(d.leg), x');
  }

  /** The responder acknowledges the commit. */
  lemma AckPhase(s: System, before: seq<Step>, d: Drain, op: Op, peer: Op, sent: set<Packet>)
    returns (steps: seq<Step>, after: set<Packet>)
    requires Drainable(d) && Named(d, op, peer) && Reached(s, before, Mid(d, op, peer, sent))
    requires peer.commitRequested && peer.localReady && peer.peerReady
    ensures Reached(s, steps, Mid(d, op, peer, after))
    ensures Packet(Peer(d.r), d.via, Says(peer, d.leg, CommitAck, GenerationOf(d.f, d.b))) in after
  {
    var m := Says(peer, d.leg, CommitAck, GenerationOf(d.f, d.b));
    var x := During(d.e, d.leg, d.b, op, d.e.highWater, Counter(d));
    var hw := d.f.highWater[d.leg := Counter(d)];
    var y := During(d.f, d.leg, d.b, peer, hw, d.f.counter);
    SendDuring(d.f, d.leg, d.b, peer, hw, d.f.counter, CommitAck);
    ControlLegStays(d.f, d.leg, d.b, d.via, peer, hw, d.f.counter);
    after := sent + {Packet(Peer(d.r), d.via, m)};
    steps := GoSend(s, before, d.r, x, y, sent, Peer(d.r), d.leg, CommitAck, d.via, m);
  }

  /** The responder has heard the commit, and its carrier is still ready. */
  ghost predicate Retirable(f: Endpoint, leg: Leg, b: Binding) {
    && leg in f.ops && f.ops[leg].commitRequested && f.ops[leg].localReady && f.ops[leg].peerReady
    && f.ops[leg].binding == b && DrainReady(f, leg, b)
  }

  lemma RetirableDuring(e: Endpoint, leg: Leg, b: Binding, op: Op, hw: map<Leg, nat>, n: nat)
    requires Stands(e, leg, b) && Idle(e.load, b) && op.binding == b
    requires op.commitRequested && op.localReady && op.peerReady
    ensures Retirable(During(e, leg, b, op, hw, n), leg, b)
  {
  }

  lemma RetirableRetires(f: Endpoint, leg: Leg, b: Binding) returns (y: Endpoint)
    requires Retirable(f, leg, b)
    ensures y == RetireRemote(f, leg) && b in y.retired
  {
    y := RetireRemote(f, leg);
  }

  lemma EndStep(r: Role, e: Endpoint, f: Endpoint, sent: set<Packet>, leg: Leg, y: Endpoint)
    requires RetireRemote(f, leg) == y
    ensures Next(Sys(r, e, f, sent), Step(Peer(r), RetiresRemote(leg))) == Some(Sys(r, e, y, sent))
  {
    LocalStep(r, e, f, sent, Peer(r), RetiresRemote(leg), y);
  }

  /** The responder's operation ends. */
  lemma PeerEnds(s: System, before: seq<Step>, r: Role, e: Endpoint, f: Endpoint, y: Endpoint, sent: set<Packet>,
                 leg: Leg) returns (steps: seq<Step>)
    requires Reached(s, before, Sys(r, e, f, sent)) && RetireRemote(f, leg) == y
    ensures Reached(s, steps, Sys(r, e, y, sent))
  {
    EndStep(r, e, f, sent, leg, y);
    steps := Go(s, before, Sys(r, e, f, sent), Step(Peer(r), RetiresRemote(leg)), Sys(r, e, y, sent));
  }

  /** And retires. */
  lemma PeerRetires(s: System, before: seq<Step>, r: Role, e: Endpoint, f: Endpoint, sent: set<Packet>, leg: Leg,
                    b: Binding)
    returns (steps: seq<Step>, y: Endpoint)
    requires Retirable(f, leg, b) && Reached(s, before, Sys(r, e, f, sent))
    ensures Reached(s, steps, Sys(r, e, y, sent)) && b in y.retired
  {
    y := RetirableRetires(f, leg, b);
    steps := PeerEnds(s, before, r, e, f, y, sent, leg);
  }

  /** The initiator hears the acknowledgement. */
  lemma HearPhase(s: System, before: seq<Step>, d: Drain, op: Op, f: Endpoint, sent: set<Packet>, m: Message)
    returns (steps: seq<Step>)
    requires Drainable(d) && op.binding == d.b && op.initiator && op.commitSent
    requires Matches(op, d.leg, m) && m.kind == CommitAck && m.outstanding == 0
    requires Packet(Peer(d.r), d.via, m) in sent
    requires Reached(s, before, Sys(d.r, During(d.e, d.leg, d.b, op, d.e.highWater, Counter(d)), f, sent))
    ensures var heard := op.(commitAck := true);
            Reached(s, steps, Sys(d.r, During(d.e, d.leg, d.b, heard, d.e.highWater, Counter(d)), f, sent))
  {
    var x := During(d.e, d.leg, d.b, op, d.e.highWater, Counter(d));
    var x' := During(d.e, d.leg, d.b, op.(commitAck := true), d.e.highWater, Counter(d));
    assert Hears(op, m) == op.(commitAck := true);
    AnswerDuring(d.e, d.leg, d.b, op, d.e.highWater, Counter(d), m);
    ControlLegStays(d.e, d.leg, d.b, d.via, op, d.e.highWater, Counter(d));
    steps := GoReceive(s, before, d.r, x, f, sent, d.r, m, d.via, x');
  }

  lemma CompleteStep(r: Role, e: Endpoint, f: Endpoint, sent: set<Packet>, leg: Leg, b: Binding) returns (y: Endpoint)
    requires Completable(e, leg, b)
    ensures y == Retire(e, leg) && b in y.retired
    ensures Next(Sys(r, e, f, sent), Step(r, Completes(leg))) == Some(Sys(r, y, f, sent))
  {
    y := Retire(e, leg);
    LocalStep(r, e, f, sent, r, Completes(leg), y);
  }

  /** And retires too. */
  lemma LastPhase(s: System, before: seq<Step>, r: Role, e: Endpoint, f: Endpoint, sent: set<Packet>, leg: Leg,
                  b: Binding)
    returns (steps: seq<Step>, y: Endpoint)
    requires Completable(e, leg, b) && Reached(s, before, Sys(r, e, f, sent))
    ensures Reached(s, steps, Sys(r, y, f, sent)) && b in y.retired && y == Retire(e, leg)
  {
    y := CompleteStep(r, e, f, sent, leg, b);
    steps := Go(s, before, Sys(r, e, f, sent), Step(r, Completes(leg)), Sys(r, y, f, sent));
  }

  /** From any state in which both sides can spare the carrier: up to the acknowledged commit. */
  lemma ToCommitAck(s: System, before: seq<Step>, d: Drain, sent: set<Packet>)
    returns (steps: seq<Step>, op: Op, peer: Op, after: set<Packet>)
    requires Drainable(d) && Reached(s, before, Sys(d.r, d.e, d.f, sent))
    ensures Reached(s, steps, Mid(d, op, peer, after)) && Named(d, op, peer)
    ensures op.commitSent && op.peerGeneration == Some(GenerationOf(d.f, d.b))
    ensures peer.commitRequested && peer.localReady && peer.peerReady
    ensures Packet(Peer(d.r), d.via, Says(peer, d.leg, CommitAck, GenerationOf(d.f, d.b))) in after
  {
    steps, after := OpenPhase(s, before, d, sent);
    steps, op, peer, after := ReadyPhase(s, steps, d, FirstOp(d), PeerOp(d), after);
    steps := CommitPhase(s, steps, d, op, peer, after);
    op := op.(commitSent := true);
    steps, after := TellPeer(s, steps, d, op, peer, after, Commit);
    peer := peer.(commitRequested := true);
    steps, after := AckPhase(s, steps, d, op, peer, after);
  }

  /** From any state in which both endpoints can spare an idle carrier attached to the same leg and share
      another one for control frames, and the responder has seen no later intent, some run without
      failures ends with the carrier gracefully retired on both sides. */
  lemma DrainCanComplete(d: Drain, sent: set<Packet>) returns (steps: seq<Step>, end: System)
    requires Drainable(d)
    ensures Exec(Sys(d.r, d.e, d.f, sent), steps) == Some(end) && CalmRun(Sys(d.r, d.e, d.f, sent), steps)
    ensures d.b in end.client.retired && d.b in end.server.retired
  {
    var s := Sys(d.r, d.e, d.f, sent);
    var op, peer, after, e, f;
    steps, op, peer, after := ToCommitAck(s, [], d, sent);
    var hw := d.f.highWater[d.leg := Counter(d)];
    RetirableDuring(d.f, d.leg, d.b, peer, hw, d.f.counter);
    steps, f := PeerRetires(s, steps, d.r, During(d.e, d.leg, d.b, op, d.e.highWater, Counter(d)),
                            During(d.f, d.leg, d.b, peer, hw, d.f.counter), after, d.leg, d.b);
    steps := HearPhase(s, steps, d, op, f, after, Says(peer, d.leg, CommitAck, GenerationOf(d.f, d.b)));
    op := op.(commitAck := true);
    CompletableDuring(d.e, d.leg, d.b, op, d.e.highWater, Counter(d));
    steps, e := LastPhase(s, steps, d.r, During(d.e, d.leg, d.b, op, d.e.highWater, Counter(d)), f, after, d.leg, d.b);
    end := Sys(d.r, e, f, after);
  }
}

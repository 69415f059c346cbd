/** Two runs without failures in which an endpoint lets go of its last open carrier: under the drain
    lock both sides count registered carriers, and a closed one lingers in the registry. */
module DrainLingering {
  import opened Prelude
  import opened DrainEndpoint
  import opened DrainProtocol
  import opened DrainCompletion

  const LOADS: map<Binding, nat> := map[0 := 0, 1 := 0, 2 := 0]
  const CARRIERS: map<Binding, Carrier> := map[0 := Carrier(0, 1), 1 := Carrier(1, 1), 2 := Carrier(2, 1)]
  const THREE_LEGS: map<Leg, Binding> := map[0 := 0, 1 := 1, 2 := 2]

  /** Three idle carriers. */
  const THREE := Endpoint(THREE_LEGS, {}, {}, LOADS, CARRIERS, multiset{}, map[], map[], 0, {}, {})

  /** The initiator once it has drained the first. */
  const DRAINED := Endpoint(map[1 := 1, 2 := 2], {0}, {0}, LOADS, CARRIERS, multiset{}, map[], map[], 1, {0}, {0})

  /** The responder once the initiator has closed the first and the operation has ended. */
  const LINGERING := Endpoint(THREE_LEGS, {0}, {0}, LOADS, CARRIERS, multiset{}, map[], map[0 := 1], 0, {0}, {})

  lemma ThreeLegs()
    ensures |THREE_LEGS| == 3 && |map[1 := 1, 2 := 2]| == 2
  {
    assert THREE_LEGS.Keys == {0, 1, 2};
    assert map[1 := 1, 2 := 2].Keys == {1, 2};
  }

  /** Both sides attach the same three carriers. */
  lemma AttachThree(before: seq<Step>, who: Role, e: Endpoint, f: Endpoint) returns (steps: seq<Step>)
    requires Reached(INITIAL, before, Sys(Client, e, f, {})) && (if who == Client then e else f) == NO_LEGS
    ensures Reached(INITIAL, steps, if who == Client then Sys(Client, THREE, f, {}) else Sys(Client, e, THREE, {}))
  {
    var one := Attach(NO_LEGS, 0, 0, 1).value;
    var two := Attach(one, 1, 1, 1).value;
    assert Attach(two, 2, 2, 1) == Some(THREE);
    steps := GoLocal(INITIAL, before, Client, e, f, {}, who, Attaches(0, 0, 1), one);
    if who == Client {
      steps := GoLocal(INITIAL, steps, Client, one, f, {}, who, Attaches(1, 1, 1), two);
      steps := GoLocal(INITIAL, steps, Client, two, f, {}, who, Attaches(2, 2, 1), THREE);
    } else {
      steps := GoLocal(INITIAL, steps, Client, e, one, {}, who, Attaches(1, 1, 1), two);
      steps := GoLocal(INITIAL, steps, Client, e, two, {}, who, Attaches(2, 2, 1), THREE);
    }
  }

  // ------------------------------------------------------------------------ the first drain

  function First(): Drain {
    Drain(Client, THREE, THREE, 0, 0, 2, 7)
  }

  lemma FirstDrainable()
    ensures Drainable(First())
  {
    ThreeLegs();
  }

  lemma RetireGives(op: Op)
    requires op.binding == 0 && op.Committed()
    ensures Retire(During(THREE, 0, 0, op, map[], 1), 0) == DRAINED
  {
    assert THREE_LEGS - {0} == map[1 := 1, 2 := 2];
    assert map[0 := op] - {0} == map[];
  }

  lemma CloseGives(op: Op)
    requires op.binding == 0 && op.commitRequested && op.localReady && op.peerReady
    ensures RetireRemote(Close(During(THREE, 0, 0, op, map[0 := 1], 0), 0), 0) == LINGERING
  {
    assert map[0 := op] - {0} == map[];
  }

  lemma PeerClosesStep(r: Role, e: Endpoint, f: Endpoint, sent: set<Packet>, leg: Leg)
    requires leg in f.legs && f.legs[leg] in e.closed
    ensures Next(Sys(r, e, f, sent), Step(Peer(r), PeerCloses(leg))) == Some(Sys(r, e, Close(f, leg), sent))
  {
  }

  lemma PeerSees(before: seq<Step>, e: Endpoint, f: Endpoint, g: Endpoint, sent: set<Packet>, leg: Leg)
    returns (steps: seq<Step>)
    requires Reached(INITIAL, before, Sys(Client, e, f, sent)) && leg in f.legs && f.legs[leg] in e.closed
    requires Close(f, leg) == g
    ensures Reached(INITIAL, steps, Sys(Client, e, g, sent))
  {
    PeerClosesStep(Client, e, f, sent, leg);
    steps := Go(INITIAL, before, Sys(Client, e, f, sent), Step(Server, PeerCloses(leg)), Sys(Client, e, g, sent));
  }

  /** The responder sees the connection close, and its operation ends. */
  lemma PeerLetsGo(before: seq<Step>, e: Endpoint, f: Endpoint, g: Endpoint, sent: set<Packet>, leg: Leg)
    returns (steps: seq<Step>)
    requires Reached(INITIAL, before, Sys(Client, e, f, sent)) && leg in f.legs && f.legs[leg] in e.closed
    requires RetireRemote(Close(f, leg), leg) == g
    ensures Reached(INITIAL, steps, Sys(Client, e, g, sent))
  {
    steps := PeerSees(before, e, f, Close(f, leg), sent, leg);
    steps := PeerEnds(INITIAL, steps, Client, e, Close(f, leg), g, sent, leg);
  }

  /** The two ends of the first drain, once the commit is acknowledged. */
  function Ends(op: Op, peer: Op, sent: set<Packet>): System {
    Sys(Client, During(THREE, 0, 0, op, map[], 1), During(THREE, 0, 0, peer, map[0 := 1], 0), sent)
  }

  lemma FirstDrain(before: seq<Step>) returns (steps: seq<Step>, op: Op, peer: Op, sent: set<Packet>)
    requires Reached(INITIAL, before, Sys(Client, THREE, THREE, {}))
    ensures Reached(INITIAL, steps, Ends(op, peer, sent))
    ensures op.binding == 0 && op.commitSent && op.commitAck
    ensures peer.binding == 0 && peer.commitRequested && peer.localReady && peer.peerReady
  {
    var d := First();
    FirstDrainable();
    steps, op, peer, sent := ToCommitAck(INITIAL, before, d, {});
    var f := During(THREE, 0, 0, peer, map[0 := 1], 0);
    assert map[][0 := 1] == map[0 := 1];
    steps := HearPhase(INITIAL, steps, d, op, f, sent, Says(peer, 0, CommitAck, 1));
    op := op.(commitAck := true);
  }

  /** The initiator retires the carrier and closes it before the responder does. */
  lemma FirstRetired(before: seq<Step>, op: Op, peer: Op, sent: set<Packet>) returns (steps: seq<Step>)
    requires Reached(INITIAL, before, Ends(op, peer, sent))
    requires op.binding == 0 && op.commitSent && op.commitAck
    requires peer.binding == 0 && peer.commitRequested && peer.localReady && peer.peerReady
    ensures Reached(INITIAL, steps, Sys(Client, DRAINED, LINGERING, sent))
  {
    var e, f, y := During(THREE, 0, 0, op, map[], 1), During(THREE, 0, 0, peer, map[0 := 1], 0), DRAINED;
    CompletableDuring(THREE, 0, 0, op, map[], 1);
    steps, y := LastPhase(INITIAL, before, Client, e, f, sent, 0, 0);
    RetireGives(op);
    CloseGives(peer);
    steps := PeerLetsGo(steps, DRAINED, f, LINGERING, sent, 0);
  }

  /** After the first drain a closed carrier lingers at the server, and two are open on both sides. */
  lemma ToLingering() returns (steps: seq<Step>, sent: set<Packet>)
    ensures Reached(INITIAL, steps, Sys(Client, DRAINED, LINGERING, sent))
  {
    var op, peer;
    assert INITIAL == Sys(Client, NO_LEGS, NO_LEGS, {});
    steps := AttachThree([], Client, NO_LEGS, NO_LEGS);
    steps := AttachThree(steps, Server, THREE, NO_LEGS);
    steps, op, peer, sent := FirstDrain(steps);
    steps := FirstRetired(steps, op, peer, sent);
  }

  // ----------------------------------------------------------------------- the client's intent

  const SECOND := Message(Intent, 1, 1, 1, 8, 2, 0)

  /** The client as it drains the second carrier. */
  const DRAINING := DRAINED.(ops := map[1 := NewOp(1, 8, 2, None)], draining := {0, 1}, counter := 2)

  lemma SecondStarts()
    ensures AskDrain(DRAINED, 1) == Some(DRAINED.(asked := multiset{1}))
    ensures StartDrain(DRAINED.(asked := multiset{1}), 1, 1, 8) == Some(DRAINING)
  {
    ThreeLegs();
    assert 2 in DRAINED.legs && DRAINED.legs[2] == 2;
    assert multiset{} + multiset{1} == multiset{1} && multiset{1} - multiset{1} == multiset{};
    assert {0} + {1} == {0, 1};
  }

  /** It sends its intent over the third carrier, which the server has open. */
  lemma SecondIntent(before: seq<Step>, f: Endpoint, sent: set<Packet>)
    returns (steps: seq<Step>, e: Endpoint, after: set<Packet>)
    requires Reached(INITIAL, before, Sys(Client, DRAINED, f, sent))
    ensures Reached(INITIAL, steps, Sys(Client, e, f, after)) && Packet(Client, 2, SECOND) in after
  {
    SecondStarts();
    e, after := DRAINING, sent + {Packet(Client, 2, SECOND)};
    steps := GoStart(INITIAL, before, Client, DRAINED, f, sent, 1, 1, 8, DRAINED.(asked := multiset{1}), DRAINING);
    steps := GoSend(INITIAL, steps, Client, DRAINING, f, sent, Client, 1, Intent, 2, SECOND);
  }

  // ------------------------------------------------------------------- an intent takes the last

  const OWN := LINGERING.(asked := multiset{2})

  /** The server as it drains the third carrier. */
  const BUSY := LINGERING.(ops := map[2 := NewOp(2, 9, 1, None)], draining := {0, 2}, counter := 1)

  lemma OwnStarts()
    ensures AskDrain(LINGERING, 2) == Some(OWN)
    ensures StartDrain(OWN, 2, 2, 9) == Some(BUSY)
  {
    ThreeLegs();
    assert 1 in LINGERING.legs && LINGERING.legs[1] == 1;
    assert multiset{} + multiset{2} == multiset{2} && multiset{2} - multiset{2} == multiset{};
    assert {0} + {2} == {0, 2};
  }

  /** A step of the server's own drain. */
  lemma GoOwn(before: seq<Step>, e: Endpoint, f: Endpoint, g: Endpoint, sent: set<Packet>, ev: Event)
    returns (steps: seq<Step>)
    requires Reached(INITIAL, before, Sys(Client, e, f, sent)) && (ev.Asks? || ev.Starts?) && Local(f, ev) == Some(g)
    ensures Reached(INITIAL, steps, Sys(Client, e, g, sent)) && steps == before + [Step(Server, ev)]
  {
    LocalStep(Client, e, f, sent, Server, ev, g);
    ExecSnoc(INITIAL, before, Step(Server, ev));
    steps := before + [Step(Server, ev)];
    assert steps[..|before|] == before;
  }

  lemma BusyAccepts() returns (f: Endpoint)
    ensures HandleControl(BUSY, SECOND) == (f, false) && f.load == LOADS && f.load != map[] && !Live(f)
    ensures Heard(BUSY, Receives(SECOND, 2, 2))
  {
    ThreeLegs();
    f := HandleControl(BUSY, SECOND).0;
    assert f.draining == {0, 1, 2};
    assert LOADS != map[] by {
      assert 0 in LOADS;
    }
  }

  lemma OwnDrain(before: seq<Step>, e: Endpoint, sent: set<Packet>) returns (steps: seq<Step>)
    requires Reached(INITIAL, before, Sys(Client, e, LINGERING, sent))
    ensures Reached(INITIAL, steps, Sys(Client, e, BUSY, sent))
  {
    OwnStarts();
    steps := GoOwn(before, e, LINGERING, OWN, sent, Asks(2));
    steps := GoOwn(steps, e, OWN, BUSY, sent, Starts(2, 2, 9));
  }

  lemma ToBusy() returns (steps: seq<Step>, e: Endpoint, sent: set<Packet>)
    ensures Reached(INITIAL, steps, Sys(Client, e, BUSY, sent)) && Packet(Client, 2, SECOND) in sent
  {
    steps, sent := ToLingering();
    steps := OwnDrain(steps, DRAINED, sent);
    steps, e, sent := SecondIntent(steps, BUSY, sent);
  }

  lemma ServerLetsGo(steps: seq<Step>, e: Endpoint, f: Endpoint, sent: set<Packet>)
    requires Reached(INITIAL, steps, Sys(Client, e, f, sent)) && !Live(f)
    ensures Exec(INITIAL, steps).value.server == f && !LegLeft(INITIAL, steps)
  {
  }

  /** No carrier fails, no commit is abandoned, every message comes over an open carrier, and yet the run
      leaves the server without a carrier open for DATA: while it drains one of its two open carriers it
      accepts an intent for the other, because a closed one is still registered. */
  lemma LastLegLetGo() returns (steps: seq<Step>)
    ensures CalmRun(INITIAL, steps) && HeardRun(INITIAL, steps) && Exec(INITIAL, steps).Some?
    ensures Exec(INITIAL, steps).value.server.load != map[] && !LegLeft(INITIAL, steps)
  {
    var sent, e, f;
    steps, e, sent := ToBusy();
    f := BusyAccepts();
    steps := GoReceive(INITIAL, steps, Client, e, BUSY, sent, Server, SECOND, 2, f);
    ServerLetsGo(steps, e, f, sent);
  }

  // ---------------------------------------------------------------- a stale start takes the last

  /** The server once it has accepted the intent between its own check and its own lock. */
  const ACCEPTED := OWN.(ops := map[1 := NewOp(1, 8, 2, Some(1))], draining := {0, 1}, highWater := map[0 := 1, 1 := 2])

  lemma OwnAccepts()
    ensures HandleControl(OWN, SECOND) == (ACCEPTED, false) && Live(ACCEPTED)
  {
    ThreeLegs();
    assert {0} + {1} == {0, 1};
    assert OpenLeg(ACCEPTED, 2);
  }

  lemma StaleStarts() returns (g: Endpoint)
    ensures Local(ACCEPTED, Starts(2, 2, 9)) == Some(g) && !Live(g)
  {
    ThreeLegs();
    assert |map[1 := NewOp(1, 8, 2, Some(1))]| == 1;
    g := StartDrain(ACCEPTED, 2, 2, 9).value;
    assert g.draining == {0, 1, 2};
    assert LOADS != map[] by {
      assert 0 in LOADS;
    }
  }

  lemma ToAccepted() returns (steps: seq<Step>, e: Endpoint, sent: set<Packet>)
    ensures Reached(INITIAL, steps, Sys(Client, e, ACCEPTED, sent))
  {
    steps, sent := ToLingering();
    OwnStarts();
    steps := GoOwn(steps, DRAINED, LINGERING, OWN, sent, Asks(2));
    steps, e, sent := SecondIntent(steps, OWN, sent);
    OwnAccepts();
    steps := GoReceive(INITIAL, steps, Client, e, OWN, sent, Server, SECOND, 2, ACCEPTED);
  }

  /** Nor is it enough that every accepted intent finds another carrier open: the server's own drain made
      its check before the intent came, and takes the lock after. */
  lemma StaleStartLetsGo() returns (before: seq<Step>, steps: seq<Step>)
    ensures CalmRun(INITIAL, steps) && HeardRun(INITIAL, steps) && Exec(INITIAL, steps).Some?
    ensures steps == before + [Step(Server, Starts(2, 2, 9))] && Exec(INITIAL, before).Some?
    ensures Live(Exec(INITIAL, before).value.server) && !Live(Exec(INITIAL, steps).value.server)
  {
    var e, sent;
    before, e, sent := ToAccepted();
    var g := StaleStarts();
    OwnAccepts();
    steps := GoOwn(before, e, ACCEPTED, g, sent, Starts(2, 2, 9));
  }
}

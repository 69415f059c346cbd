/** Who answers for a record under the aggregation scheduler (core/stream_assignment_debug.go): the
    application reader plans it into a pending queue, the queue's feeder makes the queue calls, and a
    failed carrier starts a mover that empties the queue into others. The retransmit loop passes a
    record by until a feeder has had it admitted. */
module PendingQueues {
  import opened Prelude
  import opened StreamTx

  /** Waiting outside a queue call, or how far the call has come. */
  datatype Phase = Waiting | Entered | Claimed | Queued

  datatype Hand = Empty | Held(sequence: nat, phase: Phase)

  /** A mover of one failed carrier's queue, and the record it has popped. */
  datatype Mover = Mover(leg: LegId, hand: Option<nat>)

  /** `admitted` is set by a feeder's accepted call, `hinted` are records the reader had accepted by the
      startup hint, which have no assignment; `claimed` are the ordinary lanes taken in the ledger.
      `dropped` records what movers let go of, and no step reads it. */
  datatype State = State(next: nat, acked: nat, reader: Hand, queues: map<LegId, seq<nat>>, feeders: map<LegId, Hand>,
                         movers: map<nat, Mover>, admitted: set<nat>, hinted: set<nat>, dropped: set<nat>,
                         claimed: set<nat>, planned: set<nat>, busy: Option<nat>)

  datatype Place = AtReader | AtQueue(leg: LegId) | AtFeeder(leg: LegId) | AtMover(id: nat)

  datatype Step =
    | Read
    | Push(leg: LegId)
    | Pop(leg: LegId)
    | Skip(at: Place)
    | Enter(at: Place)
    | Claim(at: Place)
    | Accept(at: Place)
    | Refuse(at: Place)
    | End(at: Place, closed: bool)
    | Fails(leg: LegId, id: nat)
    | MoverPops(id: nat)
    | MoverPushes(id: nat, leg: LegId)
    | MoverFindsNone(id: nat)
    | MoverEnds(id: nat)
    | Plan(records: set<nat>)
    | Retry(sequence: nat)
    | RetryClaims
    | RetryEnds
    | Frees(sequence: nat)
    | Acked(next: nat)

  function QueueOf(queues: map<LegId, seq<nat>>, leg: LegId): seq<nat> {
    if leg in queues then queues[leg] else []
  }

  /** What the reader or a feeder has in hand. */
  function HandOf(st: State, p: Place): Hand {
    match p
    case AtReader => st.reader
    case AtFeeder(leg) => if leg in st.feeders then st.feeders[leg] else Empty
    case _ => Empty
  }

  function WithHand(st: State, p: Place, h: Hand): State {
    match p
    case AtReader => st.(reader := h)
    case AtFeeder(leg) => st.(feeders := st.feeders[leg := h])
    case _ => st
  }

  predicate Outstanding(st: State, s: nat) {
    st.acked <= s < st.next
  }

  /** benchmarkPendingOnly: the retransmit loop leaves the record alone. */
  predicate PendingOnly(st: State, s: nat) {
    s !in st.admitted
  }

  function Next(st: State, step: Step): Option<State> {
    match step
    case Read =>
      if st.reader != Empty then None else Some(st.(next := st.next + 1, reader := Held(st.next, Waiting)))
    case Push(leg) =>
      if !st.reader.Held? || st.reader.phase != Waiting then None
      else Some(st.(reader := Empty, queues := st.queues[leg := QueueOf(st.queues, leg) + [st.reader.sequence]]))
    case Pop(leg) =>
      var q := QueueOf(st.queues, leg);
      if HandOf(st, AtFeeder(leg)) != Empty || q == [] then None
      else Some(WithHand(st, AtFeeder(leg), Held(q[0], Waiting)).(queues := st.queues[leg := q[1..]]))
    case Fails(leg, id) =>
      if id in st.movers then None else Some(st.(movers := st.movers[id := Mover(leg, None)]))
    case Plan(records) =>
      if st.busy.Some? then None
      else Some(st.(planned := set s | s in records && Outstanding(st, s) && s !in st.claimed))
    case Retry(s) =>
      if st.busy.Some? || s !in st.planned || PendingOnly(st, s) then None else Some(st.(busy := Some(s)))
    case RetryClaims =>
      if st.busy.None? then None else Some(st.(claimed := st.claimed + {st.busy.value}))
    case RetryEnds => Some(st.(busy := None))
    case Frees(s) => Some(st.(claimed := st.claimed - {s}))
    case Acked(next) => if st.acked <= next <= st.next then Some(st.(acked := next)) else None
    case MoverPops(_) => MoverStep(st, step)
    case MoverPushes(_, _) => MoverStep(st, step)
    case MoverFindsNone(_) => MoverStep(st, step)
    case MoverEnds(_) => MoverStep(st, step)
    case _ => CallStep(st, step)
  }

  /** reassignFailedPending. */
  function MoverStep(st: State, step: Step): Option<State>
    requires step.MoverPops? || step.MoverPushes? || step.MoverFindsNone? || step.MoverEnds?
  {
    if step.id !in st.movers then None
    else
      var m := st.movers[step.id];
      var q := QueueOf(st.queues, m.leg);
      match step
      case MoverPops(id) =>
        if m.hand.Some? || q == [] then None
        else Some(st.(movers := st.movers[id := m.(hand := Some(q[0]))], queues := st.queues[m.leg := q[1..]]))
      case MoverPushes(id, leg) =>
        if m.hand.None? then None
        else Some(st.(movers := st.movers[id := m.(hand := None)],
                      queues := st.queues[leg := QueueOf(st.queues, leg) + [m.hand.value]]))
      case MoverFindsNone(id) =>
        if m.hand.None? then None
        else Some(st.(movers := st.movers - {id}, dropped := st.dropped + {m.hand.value}))
      case MoverEnds(id) => if m.hand.Some? || q != [] then None else Some(st.(movers := st.movers - {id}))
  }

  /** tryQueue as its two first callers use it: a feeder until the record is admitted or retired, and the
      reader for a startup hint, before it plans the record. */
  function CallStep(st: State, step: Step): Option<State>
    requires step.Skip? || step.Enter? || step.Claim? || step.Accept? || step.Refuse? || step.End?
  {
    var p := step.at;
    var h := HandOf(st, p);
    if h == Empty then None
    else
      var s := h.sequence;
      match step
      case Skip(_) => if h.phase != Waiting || Outstanding(st, s) then None else Some(WithHand(st, p, Empty))
      case Enter(_) =>
        if h.phase != Waiting || !Outstanding(st, s) then None else Some(WithHand(st, p, Held(s, Entered)))
      case Claim(_) =>
        if h.phase != Entered then None
        else if !Outstanding(st, s) then Some(WithHand(st, p, Empty))
        else if s in st.claimed then Some(WithHand(st, p, Held(s, Waiting)))
        else Some(WithHand(st, p, Held(s, Claimed)).(claimed := st.claimed + {s}))
      case Accept(_) =>
        if h.phase != Claimed then None
        else if p.AtReader? then Some(WithHand(st, p, Held(s, Queued)).(hinted := st.hinted + {s}))
        else Some(WithHand(st, p, Held(s, Queued)).(admitted := st.admitted + {s}))
      case Refuse(_) =>
        if h.phase != Claimed then None
        else Some(WithHand(st, p, Held(s, Waiting)).(claimed := st.claimed - {s}))
      case End(_, closed) =>
        if h.phase != Queued then None
        else if !closed then Some(WithHand(st, p, Empty))
        else if p.AtReader? then
          Some(WithHand(st, p, Held(s, Waiting)).(hinted := st.hinted - {s}, claimed := st.claimed - {s}))
        else Some(WithHand(st, p, Empty).(claimed := st.claimed - {s}))
  }

  const START := State(0, 0, Empty, map[], map[], map[], {}, {}, {}, {}, {}, None)

  function Exec(st: State, steps: seq<Step>): Option<State> {
    if steps == [] then Some(st)
    else
      var before := Exec(st, steps[..|steps| - 1]);
      if before.None? then None else Next(before.value, steps[|steps| - 1])
  }

  // ------------------------------------------------------------------------------ custody

  function Count(q: seq<nat>, s: nat): nat {
    multiset(q)[s]
  }

  /** How often the record is in this place. */
  function Holds(st: State, p: Place, s: nat): nat {
    match p
    case AtQueue(leg) => Count(QueueOf(st.queues, leg), s)
    case AtMover(id) => if id in st.movers && st.movers[id].hand == Some(s) then 1 else 0
    case _ => var h := HandOf(st, p); if h.Held? && h.sequence == s then 1 else 0
  }

  ghost predicate Custody(st: State, s: nat) {
    exists p :: Holds(st, p, s) > 0
  }

  /** Nobody has the record to make an ordinary queue call for it, and the retransmit loop passes it by. */
  ghost predicate Orphaned(st: State, s: nat) {
    Outstanding(st, s) && PendingOnly(st, s) && !Custody(st, s)
  }

  /** A record is in one place at most, and there once. */
  ghost predicate Alone(st: State) {
    && (forall p, s: nat :: Holds(st, p, s) <= 1)
    && (forall p, q, s: nat :: Holds(st, p, s) > 0 && Holds(st, q, s) > 0 ==> p == q)
  }

  /** What being in a place says of the record. */
  predicate Tag(st: State, p: Place, s: nat) {
    && s < st.next && s !in st.dropped
    && (s in st.admitted <==> p.AtFeeder? && HandOf(st, p) == Held(s, Queued))
    && (s in st.hinted <==> p.AtReader? && HandOf(st, p) == Held(s, Queued))
    && (s in st.claimed && s !in st.admitted && s !in st.hinted ==> HandOf(st, p) == Held(s, Claimed))
  }

  ghost predicate Tagged(st: State) {
    forall p, s: nat :: Holds(st, p, s) > 0 ==> Tag(st, p, s)
  }

  ghost predicate Sorted(st: State) {
    && st.admitted !! st.hinted !! st.dropped && st.dropped !! st.claimed
    && (forall s <- st.admitted :: s < st.next) && (forall s <- st.hinted :: s < st.next)
    && (forall s <- st.dropped :: s < st.next) && (forall s <- st.claimed :: s < st.next)
    && (st.busy.Some? ==> st.busy.value in st.admitted)
  }

  /** Every record is retired, admitted, hinted, dropped or in custody. */
  ghost predicate Covered(st: State) {
    forall s: nat | Outstanding(st, s) && s !in st.admitted + st.hinted + st.dropped :: Custody(st, s)
  }

  ghost predicate Inv(st: State) {
    Alone(st) && Tagged(st) && Sorted(st) && Covered(st)
  }

  // ---------------------------------------------------------------- every step moves one record

  /** One record leaves a place for another, and no other record moves. */
  ghost predicate Moved(st: State, after: State, from: Option<Place>, to: Option<Place>, s: nat) {
    forall p, x: nat ::
      Holds(after, p, x) == Holds(st, p, x) - (if from == Some(p) && x == s then 1 else 0)
                          + (if to == Some(p) && x == s then 1 else 0)
  }

  /** A record that goes where nobody holds it is retired, admitted, hinted or dropped. */
  ghost predicate LetGo(after: State, s: nat) {
    !Outstanding(after, s) || s in after.admitted + after.hinted + after.dropped
  }

  lemma Popped(q: seq<nat>)
    requires q != []
    ensures forall x: nat :: Count(q[1..], x) == Count(q, x) - (if x == q[0] then 1 else 0)
  {
    assert q == [q[0]] + q[1..];
  }

  lemma Pushed(q: seq<nat>, s: nat)
    ensures forall x: nat :: Count(q + [s], x) == Count(q, x) + (if x == s then 1 else 0)
  {
  }

  /** Custody depends on the hands, the queues and the movers only. */
  predicate SameHands(a: State, b: State) {
    a.reader == b.reader && a.feeders == b.feeders && a.queues == b.queues && a.movers == b.movers
  }

  lemma Handed(st: State, after: State, p: Place, h: Hand)
    requires HandOf(st, p).Held? && SameHands(WithHand(st, p, h), after)
    requires h == Empty || h.sequence == HandOf(st, p).sequence
    ensures Moved(st, after, if h == Empty then Some(p) else None, None, HandOf(st, p).sequence)
  {
  }

  lemma PushMoves(st: State, leg: LegId)
    requires Next(st, Push(leg)).Some?
    ensures Moved(st, Next(st, Push(leg)).value, Some(AtReader), Some(AtQueue(leg)), st.reader.sequence)
  {
    Pushed(QueueOf(st.queues, leg), st.reader.sequence);
  }

  lemma PopMoves(st: State, leg: LegId)
    requires Next(st, Pop(leg)).Some?
    ensures Moved(st, Next(st, Pop(leg)).value, Some(AtQueue(leg)), Some(AtFeeder(leg)), QueueOf(st.queues, leg)[0])
  {
    Popped(QueueOf(st.queues, leg));
  }

  lemma MoverPopMoves(st: State, id: nat)
    requires Next(st, MoverPops(id)).Some?
    ensures var leg := st.movers[id].leg;
            Moved(st, Next(st, MoverPops(id)).value, Some(AtQueue(leg)), Some(AtMover(id)), QueueOf(st.queues, leg)[0])
  {
    Popped(QueueOf(st.queues, st.movers[id].leg));
  }

  lemma MoverPushMoves(st: State, id: nat, leg: LegId)
    requires Next(st, MoverPushes(id, leg)).Some?
    ensures Moved(st, Next(st, MoverPushes(id, leg)).value, Some(AtMover(id)), Some(AtQueue(leg)),
                  st.movers[id].hand.value)
  {
    Pushed(QueueOf(st.queues, leg), st.movers[id].hand.value);
  }

  lemma MoverDropMoves(st: State, id: nat)
    requires Next(st, MoverFindsNone(id)).Some?
    ensures Moved(st, Next(st, MoverFindsNone(id)).value, Some(AtMover(id)), None, st.movers[id].hand.value)
  {
  }

  predicate IsCall(step: Step) {
    step.Skip? || step.Enter? || step.Claim? || step.Accept? || step.Refuse? || step.End?
  }

  lemma HeldTag(st: State, p: Place)
    requires Tagged(st) && HandOf(st, p).Held?
    ensures Holds(st, p, HandOf(st, p).sequence) > 0 && Tag(st, p, HandOf(st, p).sequence)
  {
  }

  /** A queue call changes the caller's hand and no other, and the hand keeps its record or lets it go. */
  lemma CallHands(st: State, step: Step)
    requires IsCall(step) && Next(st, step).Some?
    ensures var after, h := Next(st, step).value, HandOf(st, step.at);
            && h.Held? && SameHands(WithHand(st, step.at, HandOf(after, step.at)), after)
            && (HandOf(after, step.at) == Empty || HandOf(after, step.at).sequence == h.sequence)
  {
  }

  lemma CallMoved(st: State, step: Step)
    requires IsCall(step) && Next(st, step).Some?
    ensures var after, h := Next(st, step).value, HandOf(st, step.at);
            && h.Held?
            && Moved(st, after, if HandOf(after, step.at) == Empty then Some(step.at) else None, None, h.sequence)
  {
    CallHands(st, step);
    Handed(st, Next(st, step).value, step.at, HandOf(Next(st, step).value, step.at));
  }

  /** A call that ends with an empty hand has its record retired, admitted or hinted. */
  lemma CallLetsGo(st: State, step: Step)
    requires IsCall(step) && Next(st, step).Some? && HandOf(Next(st, step).value, step.at) == Empty
    requires Tag(st, step.at, HandOf(st, step.at).sequence)
    ensures LetGo(Next(st, step).value, HandOf(st, step.at).sequence)
  {
  }

  lemma CallMoves(st: State, step: Step) returns (from: Option<Place>, s: nat)
    requires Tagged(st) && IsCall(step) && Next(st, step).Some?
    ensures Moved(st, Next(st, step).value, from, None, s)
    ensures from.Some? ==> Holds(st, from.value, s) > 0 && LetGo(Next(st, step).value, s)
  {
    CallMoved(st, step);
    from, s := None, HandOf(st, step.at).sequence;
    if HandOf(Next(st, step).value, step.at) == Empty {
      HeldTag(st, step.at);
      CallLetsGo(st, step);
      from := Some(step.at);
    }
  }

  /** Steps that take a record from one place to another. */
  predicate IsMove(step: Step) {
    step.Push? || step.Pop? || step.MoverPops? || step.MoverPushes?
  }

  /** Steps that leave every record where it is. */
  predicate IsStill(step: Step) {
    step.Fails? || step.MoverEnds? || step.Plan? || step.Retry? || step.RetryClaims? || step.RetryEnds?
    || step.Frees? || step.Acked?
  }

  /** The record is in a queue or with a mover, or in a hand outside any queue call. */
  predicate AtRest(st: State, p: Place, s: nat) {
    HandOf(st, p) == Empty || HandOf(st, p) == Held(s, Waiting)
  }

  lemma MoveMoves(st: State, step: Step) returns (from: Place, to: Place, s: nat)
    requires IsMove(step) && Next(st, step).Some?
    ensures Moved(st, Next(st, step).value, Some(from), Some(to), s)
    ensures Holds(st, from, s) > 0 && from != to && AtRest(st, from, s) && AtRest(Next(st, step).value, to, s)
  {
    match step
    case Push(leg) =>
      PushMoves(st, leg);
      from, to, s := AtReader, AtQueue(leg), st.reader.sequence;
    case Pop(leg) =>
      PopMoves(st, leg);
      from, to, s := AtQueue(leg), AtFeeder(leg), QueueOf(st.queues, leg)[0];
    case MoverPops(id) =>
      MoverPopMoves(st, id);
      from, to, s := AtQueue(st.movers[id].leg), AtMover(id), QueueOf(st.queues, st.movers[id].leg)[0];
    case MoverPushes(id, leg) =>
      MoverPushMoves(st, id, leg);
      from, to, s := AtMover(id), AtQueue(leg), st.movers[id].hand.value;
  }

  lemma StillMoves(st: State, step: Step)
    requires IsStill(step) && Next(st, step).Some?
    ensures Moved(st, Next(st, step).value, None, None, 0)
  {
  }

  lemma ReadMoves(st: State)
    requires st.reader == Empty
    ensures Moved(st, Next(st, Read).value, None, Some(AtReader), st.next)
  {
  }

  /** Every step moves at most one record, from where it was. */
  lemma StepMoves(st: State, step: Step) returns (from: Option<Place>, to: Option<Place>, s: nat)
    requires Tagged(st) && Next(st, step).Some?
    ensures Moved(st, Next(st, step).value, from, to, s)
    ensures from.Some? ==> Holds(st, from.value, s) > 0 && from != to
    ensures from.None? && to.Some? ==> step == Read && s == st.next
    ensures from.Some? && to.None? ==> LetGo(Next(st, step).value, s)
  {
    from, to, s := None, None, 0;
    if step == Read {
      ReadMoves(st);
      to, s := Some(AtReader), st.next;
    } else if IsMove(step) {
      var a, b, x := MoveMoves(st, step);
      from, to, s := Some(a), Some(b), x;
    } else if step.MoverFindsNone? {
      MoverDropMoves(st, step.id);
      from, s := Some(AtMover(step.id)), st.movers[step.id].hand.value;
    } else if IsCall(step) {
      from, s := CallMoves(st, step);
    } else {
      StillMoves(st, step);
    }
  }

  lemma AloneKept(st: State, after: State, from: Option<Place>, to: Option<Place>, s: nat)
    requires Alone(st) && Moved(st, after, from, to, s)
    requires from.Some? ==> Holds(st, from.value, s) > 0
    requires from.None? && to.Some? ==> !Custody(st, s)
    ensures Alone(after)
  {
  }

  lemma CustodyKept(st: State, after: State, from: Option<Place>, to: Option<Place>, s: nat, x: nat)
    requires Moved(st, after, from, to, s) && Custody(st, x) && (from.Some? ==> from != to)
    requires x == s ==> from.None? || to.Some?
    ensures Custody(after, x)
  {
    var p :| Holds(st, p, x) > 0;
    assert Holds(after, if to.Some? && x == s then to.value else p, x) > 0;
  }

  // ------------------------------------------------------------------ every step keeps custody

  lemma OwnTag(st: State, step: Step)
    requires IsCall(step) && Next(st, step).Some? && HandOf(Next(st, step).value, step.at).Held?
    requires Tag(st, step.at, HandOf(st, step.at).sequence)
    ensures Tag(Next(st, step).value, step.at, HandOf(st, step.at).sequence)
  {
  }

  lemma OtherTag(st: State, step: Step, p: Place, x: nat)
    requires IsCall(step) && Next(st, step).Some? && Tag(st, p, x)
    requires p != step.at && x != HandOf(st, step.at).sequence
    ensures Tag(Next(st, step).value, p, x)
  {
  }

  lemma HeldUnmoved(st: State, after: State, at: Place, p: Place, x: nat)
    requires Alone(st) && HandOf(st, at).Held? && Holds(after, p, x) > 0
    requires Moved(st, after, if HandOf(after, at) == Empty then Some(at) else None, None, HandOf(st, at).sequence)
    ensures Holds(st, p, x) > 0
    ensures p == at ==> x == HandOf(st, at).sequence && HandOf(after, at).Held?
    ensures p != at ==> x != HandOf(st, at).sequence
  {
    assert Holds(st, at, HandOf(st, at).sequence) > 0;
    assert Holds(st, p, x) > 0;
  }

  /** A queue call lets go of its record or keeps it, and touches no other. */
  lemma HeldBefore(st: State, step: Step, p: Place, x: nat)
    requires Alone(st) && IsCall(step) && Next(st, step).Some? && Holds(Next(st, step).value, p, x) > 0
    ensures Holds(st, p, x) > 0
    ensures p == step.at ==> x == HandOf(st, step.at).sequence && HandOf(Next(st, step).value, p).Held?
    ensures p != step.at ==> x != HandOf(st, step.at).sequence
  {
    CallMoved(st, step);
    HeldUnmoved(st, Next(st, step).value, step.at, p, x);
  }

  lemma CallTags(st: State, step: Step, p: Place, x: nat)
    requires Alone(st) && Tagged(st) && IsCall(step) && Next(st, step).Some?
    requires Holds(Next(st, step).value, p, x) > 0
    ensures Tag(Next(st, step).value, p, x)
  {
    HeldBefore(st, step, p, x);
    assert Tag(st, p, x);
    if p == step.at {
      OwnTag(st, step);
    } else {
      OtherTag(st, step, p, x);
    }
  }

  /** A record that is moved on is in no queue call, so its tag moves with it. */
  lemma MovedTag(st: State, step: Step, from: Place, to: Place, s: nat)
    requires IsMove(step) && Next(st, step).Some? && Tag(st, from, s)
    requires AtRest(st, from, s) && AtRest(Next(st, step).value, to, s)
    ensures Tag(Next(st, step).value, to, s)
  {
  }

  lemma StayingTag(st: State, step: Step, p: Place, x: nat)
    requires IsMove(step) && Next(st, step).Some? && Tag(st, p, x)
    requires HandOf(Next(st, step).value, p) == HandOf(st, p)
    ensures Tag(Next(st, step).value, p, x)
  {
  }

  /** A hand that holds another record than the one moved is as it was. */
  lemma OtherHand(st: State, step: Step, p: Place, to: Place, s: nat, x: nat)
    requires IsMove(step) && Next(st, step).Some? && Holds(Next(st, step).value, p, x) > 0
    requires AtRest(Next(st, step).value, to, s) && Holds(Next(st, step).value, to, s) > 0 && (p != to || x != s)
    requires step.Pop? ==> to == AtFeeder(step.leg)
    ensures HandOf(Next(st, step).value, p) == HandOf(st, p)
  {
  }

  lemma MoveTags(st: State, step: Step, p: Place, x: nat)
    requires Tagged(st) && Next(st, step).Some? && IsMove(step) && Holds(Next(st, step).value, p, x) > 0
    ensures Tag(Next(st, step).value, p, x)
  {
    var from, to, s := MoveMoves(st, step);
    assert Tag(st, from, s);
    if p == to && x == s {
      MovedTag(st, step, from, to, s);
    } else {
      assert Holds(st, p, x) > 0 && Tag(st, p, x);
      OtherHand(st, step, p, to, s, x);
      StayingTag(st, step, p, x);
    }
  }

  lemma StillTags(st: State, step: Step, p: Place, x: nat)
    requires Sorted(st) && IsStill(step) && Next(st, step).Some? && Tag(st, p, x)
    ensures Tag(Next(st, step).value, p, x)
  {
  }

  lemma DropTags(st: State, id: nat, p: Place, x: nat)
    requires Alone(st) && Tagged(st) && Next(st, MoverFindsNone(id)).Some?
    requires Holds(Next(st, MoverFindsNone(id)).value, p, x) > 0
    ensures Tag(Next(st, MoverFindsNone(id)).value, p, x)
  {
    MoverDropMoves(st, id);
    assert Holds(st, AtMover(id), st.movers[id].hand.value) > 0;
    assert Holds(st, p, x) > 0 && Tag(st, p, x);
  }

  lemma ReadTags(st: State, p: Place, x: nat)
    requires Tagged(st) && Sorted(st) && st.reader == Empty && Holds(Next(st, Read).value, p, x) > 0
    ensures Tag(Next(st, Read).value, p, x)
  {
    if p != AtReader {
      assert Holds(st, p, x) > 0 && Tag(st, p, x);
    }
  }

  lemma TagKept(st: State, step: Step, p: Place, x: nat)
    requires Alone(st) && Tagged(st) && Sorted(st) && Next(st, step).Some? && Holds(Next(st, step).value, p, x) > 0
    ensures Tag(Next(st, step).value, p, x)
  {
    if IsCall(step) {
      CallTags(st, step, p, x);
    } else if IsMove(step) {
      MoveTags(st, step, p, x);
    } else if step == Read {
      ReadTags(st, p, x);
    } else if step.MoverFindsNone? {
      DropTags(st, step.id, p, x);
    } else {
      StillMoves(st, step);
      assert Holds(st, p, x) > 0 && Tag(st, p, x);
      StillTags(st, step, p, x);
    }
  }

  lemma CallSorted(st: State, step: Step)
    requires Sorted(st) && IsCall(step) && Next(st, step).Some?
    requires Tag(st, step.at, HandOf(st, step.at).sequence)
    ensures Sorted(Next(st, step).value)
  {
  }

  lemma DropSorted(st: State, id: nat)
    requires Sorted(st) && Next(st, MoverFindsNone(id)).Some?
    requires Tag(st, AtMover(id), st.movers[id].hand.value)
    ensures Sorted(Next(st, MoverFindsNone(id)).value)
  {
  }

  lemma OthersSorted(st: State, step: Step)
    requires Sorted(st) && !IsCall(step) && !step.MoverFindsNone? && Next(st, step).Some?
    ensures Sorted(Next(st, step).value)
  {
  }

  lemma SortedKept(st: State, step: Step)
    requires Tagged(st) && Sorted(st) && Next(st, step).Some?
    ensures Sorted(Next(st, step).value)
  {
    if IsCall(step) {
      HeldTag(st, step.at);
      CallSorted(st, step);
    } else if step.MoverFindsNone? {
      assert Holds(st, AtMover(step.id), st.movers[step.id].hand.value) > 0;
      DropSorted(st, step.id);
    } else {
      OthersSorted(st, step);
    }
  }

  /** Only a hint that failed takes a record back from the marked ones. */
  lemma MarksKept(st: State, step: Step, x: nat)
    requires Tagged(st) && Next(st, step).Some?
    requires x in st.admitted + st.hinted + st.dropped
    ensures var after := Next(st, step).value;
            x in after.admitted + after.hinted + after.dropped || HandOf(after, AtReader) == Held(x, Waiting)
  {
  }

  lemma CoveredKept(st: State, step: Step, x: nat)
    requires Inv(st) && Next(st, step).Some?
    requires var after := Next(st, step).value;
             Outstanding(after, x) && x !in after.admitted + after.hinted + after.dropped
    ensures Custody(Next(st, step).value, x)
  {
    var after := Next(st, step).value;
    if x in st.admitted + st.hinted + st.dropped {
      MarksKept(st, step, x);
      assert Holds(after, AtReader, x) > 0;
    } else if step == Read && x == st.next {
      assert Holds(after, AtReader, x) > 0;
    } else {
      OutstandingBefore(st, step, x);
      var from, to, s := StepMoves(st, step);
      CustodyKept(st, after, from, to, s, x);
    }
  }

  lemma OutstandingBefore(st: State, step: Step, x: nat)
    requires Next(st, step).Some? && Outstanding(Next(st, step).value, x) && !(step == Read && x == st.next)
    ensures Outstanding(st, x)
  {
  }

  lemma StepKeeps(st: State, step: Step)
    requires Inv(st) && Next(st, step).Some?
    ensures Inv(Next(st, step).value)
  {
    var after := Next(st, step).value;
    var from, to, s := StepMoves(st, step);
    AloneKept(st, after, from, to, s);
    forall p, x: nat | Holds(after, p, x) > 0
      ensures Tag(after, p, x)
    {
      TagKept(st, step, p, x);
    }
    SortedKept(st, step);
    forall x: nat | Outstanding(after, x) && x !in after.admitted + after.hinted + after.dropped
      ensures Custody(after, x)
    {
      CoveredKept(st, step, x);
    }
  }

  lemma {:induction false} RunKeeps(st: State, steps: seq<Step>)
    requires Inv(st) && Exec(st, steps).Some?
    ensures Inv(Exec(st, steps).value)
  {
    if steps != [] {
      RunKeeps(st, steps[..|steps| - 1]);
      StepKeeps(Exec(st, steps[..|steps| - 1]).value, steps[|steps| - 1]);
    }
  }

  lemma StartKept()
    ensures Inv(START)
  {
  }

  // -------------------------------------------------------------------------- what it promises

  ghost predicate Reached(steps: seq<Step>, st: State) {
    Exec(START, steps) == Some(st)
  }

  lemma ReachedInv(steps: seq<Step>, st: State)
    requires Reached(steps, st)
    ensures Inv(st)
  {
    StartKept();
    RunKeeps(START, steps);
  }

  /** In every run a record is in one place at most: a queue, a feeder, a mover or the reader. */
  lemma OneHolder(steps: seq<Step>, st: State, p: Place, q: Place, s: nat)
    requires Reached(steps, st) && Holds(st, p, s) > 0 && Holds(st, q, s) > 0
    ensures p == q && Holds(st, p, s) == 1
  {
    ReachedInv(steps, st);
  }

  /** Feeders, and the reader with its hint, enter only free lanes: nobody else has the record, its
      ordinary lane is unclaimed, and the retransmit loop is in no call for it. */
  lemma EntersFreeLane(steps: seq<Step>, st: State, p: Place)
    requires Reached(steps, st) && Next(st, Enter(p)).Some?
    ensures var s := HandOf(st, p).sequence;
            s !in st.claimed && st.busy != Some(s) && forall q | q != p :: Holds(st, q, s) == 0
  {
    ReachedInv(steps, st);
    HeldTag(st, p);
  }

  /** A record is accepted first-hand once: neither a hint nor a feeder admits it again. */
  lemma AcceptedOnce(steps: seq<Step>, st: State, p: Place)
    requires Reached(steps, st) && Next(st, Accept(p)).Some?
    ensures HandOf(st, p).sequence !in st.admitted + st.hinted + st.dropped
  {
    ReachedInv(steps, st);
    HeldTag(st, p);
  }

  /** A record is orphaned exactly when a mover found no carrier for it, or when the reader placed it
      by its startup hint. */
  lemma OrphanedIff(steps: seq<Step>, st: State, s: nat)
    requires Reached(steps, st) && Outstanding(st, s)
    ensures Orphaned(st, s) <==> s in st.dropped || (s in st.hinted && st.reader != Held(s, Queued))
  {
    ReachedInv(steps, st);
    if Custody(st, s) {
      var p :| Holds(st, p, s) > 0;
      assert Tag(st, p, s);
    } else {
      assert Holds(st, AtReader, s) == 0;
    }
  }

  /** Retired, or an orphan; with its lane free, if it was so from the start. */
  ghost predicate LeftAlone(st: State, s: nat, free: bool) {
    s < st.acked || (Orphaned(st, s) && (free ==> s !in st.claimed))
  }

  lemma OrphanUnmarked(st: State, step: Step, s: nat)
    requires Sorted(st) && Next(st, step).Some? && PendingOnly(st, s)
    requires IsCall(step) ==> HandOf(st, step.at).sequence != s
    ensures PendingOnly(Next(st, step).value, s)
    ensures s !in st.claimed ==> s !in Next(st, step).value.claimed
  {
  }

  lemma OrphanUnheld(st: State, after: State, from: Option<Place>, to: Option<Place>, x: nat, s: nat)
    requires Moved(st, after, from, to, x) && !Custody(st, s) && (x == s ==> to.None?)
    ensures !Custody(after, s)
  {
    forall p
      ensures Holds(after, p, s) == 0
    {
      assert Holds(st, p, s) == 0;
    }
  }

  lemma NumbersKept(st: State, step: Step)
    requires Next(st, step).Some?
    ensures st.next <= Next(st, step).value.next && st.acked <= Next(st, step).value.acked
  {
  }

  lemma OrphanStays(st: State, step: Step, s: nat)
    requires Inv(st) && Orphaned(st, s) && Next(st, step).Some?
    ensures s < Next(st, step).value.acked || Orphaned(Next(st, step).value, s)
    ensures s !in st.claimed ==> s !in Next(st, step).value.claimed
  {
    var from, to, x := StepMoves(st, step);
    if IsCall(step) {
      HeldTag(st, step.at);
    }
    OrphanUnmarked(st, step, s);
    OrphanUnheld(st, Next(st, step).value, from, to, x, s);
    NumbersKept(st, step);
  }

  lemma LeftAloneKept(st: State, step: Step, s: nat, free: bool)
    requires Inv(st) && LeftAlone(st, s, free) && Next(st, step).Some?
    ensures LeftAlone(Next(st, step).value, s, free)
  {
    NumbersKept(st, step);
    if s >= st.acked {
      OrphanStays(st, step, s);
    }
  }

  lemma {:induction false} LeftAloneRun(st: State, more: seq<Step>, s: nat, free: bool)
    requires Inv(st) && LeftAlone(st, s, free) && Exec(st, more).Some?
    ensures LeftAlone(Exec(st, more).value, s, free)
  {
    if more != [] {
      LeftAloneRun(st, more[..|more| - 1], s, free);
      RunKeeps(st, more[..|more| - 1]);
      LeftAloneKept(Exec(st, more[..|more| - 1]).value, more[|more| - 1], s, free);
    }
  }

  /** An orphan stays one, whatever follows: only an ACK ends that, and if its lane is free it is never
      claimed again, so no carrier is ever given it. */
  lemma OrphanedForever(steps: seq<Step>, st: State, more: seq<Step>, after: State, s: nat)
    requires Reached(steps, st) && Orphaned(st, s) && Exec(st, more) == Some(after) && Outstanding(after, s)
    ensures Orphaned(after, s) && (s !in st.claimed ==> s !in after.claimed)
  {
    ReachedInv(steps, st);
    LeftAloneRun(st, more, s, s !in st.claimed);
  }

  // ------------------------------------------------------------------------------- three runs

  lemma Go(st: State, steps: seq<Step>, step: Step)
    requires Reached(steps, st) && Next(st, step).Some?
    ensures Reached(steps + [step], Next(st, step).value)
  {
    assert (steps + [step])[..|steps|] == steps;
  }

  const PENDING: seq<Step> := [] + [Read] + [Push(0)] + [Fails(0, 0)]
  const DROPPING: seq<Step> := PENDING + [MoverPops(0)] + [MoverFindsNone(0)]

  lemma PendingFails() returns (st: State)
    ensures Reached(PENDING, st)
    ensures st.next == 1 && st.acked == 0 && st.queues == map[0 := [0]] && st.movers == map[0 := Mover(0, None)]
    ensures st.claimed == {}
  {
    st := Next(START, Read).value;
    Go(START, [], Read);
    Go(st, [] + [Read], Push(0));
    st := Next(st, Push(0)).value;
    assert [] + [0] == [0];
    Go(st, [] + [Read] + [Push(0)], Fails(0, 0));
    st := Next(st, Fails(0, 0)).value;
  }

  /** The carrier of the first record fails before its feeder has taken the record, and its mover finds
      no other: the record was never sent, and nobody will send it. */
  lemma MoverOrphans() returns (st: State)
    ensures Reached(DROPPING, st) && Orphaned(st, 0) && 0 !in st.claimed
  {
    st := PendingFails();
    Go(st, PENDING, MoverPops(0));
    st := Next(st, MoverPops(0)).value;
    Go(st, PENDING + [MoverPops(0)], MoverFindsNone(0));
    st := Next(st, MoverFindsNone(0)).value;
    OrphanedIff(DROPPING, st, 0);
  }

  const PLACING: seq<Step> := [] + [Read] + [Enter(AtReader)] + [Claim(AtReader)] + [Accept(AtReader)]
  const HINTING: seq<Step> := PLACING + [End(AtReader, false)] + [Frees(0)]

  lemma HintPlaced() returns (st: State)
    ensures Reached(PLACING, st)
    ensures st.next == 1 && st.acked == 0 && st.reader == Held(0, Queued) && st.hinted == {0} && st.dropped == {}
  {
    st := Next(START, Read).value;
    Go(START, [], Read);
    Go(st, [] + [Read], Enter(AtReader));
    st := Next(st, Enter(AtReader)).value;
    Go(st, [] + [Read] + [Enter(AtReader)], Claim(AtReader));
    st := Next(st, Claim(AtReader)).value;
    Go(st, [] + [Read] + [Enter(AtReader)] + [Claim(AtReader)], Accept(AtReader));
    st := Next(st, Accept(AtReader)).value;
  }

  /** A record placed by the startup hint loses its carrier before the write: nobody sends it again. */
  lemma HintOrphans() returns (st: State)
    ensures Reached(HINTING, st) && Orphaned(st, 0) && 0 !in st.claimed
  {
    st := HintPlaced();
    Go(st, PLACING, End(AtReader, false));
    st := Next(st, End(AtReader, false)).value;
    Go(st, PLACING + [End(AtReader, false)], Frees(0));
    st := Next(st, Frees(0)).value;
    OrphanedIff(HINTING, st, 0);
  }

  const FEEDING: seq<Step> := [] + [Read] + [Push(0)] + [Pop(0)] + [Plan({0})]
  const ADMITTING: seq<Step> := FEEDING + [Enter(AtFeeder(0))] + [Claim(AtFeeder(0))] + [Accept(AtFeeder(0))]

  lemma FeederHolds() returns (st: State)
    ensures Reached(FEEDING, st) && HandOf(st, AtFeeder(0)) == Held(0, Waiting)
    ensures st.next == 1 && st.acked == 0 && st.claimed == {} && st.planned == {0} && st.busy == None
  {
    st := Next(START, Read).value;
    Go(START, [], Read);
    Go(st, [] + [Read], Push(0));
    st := Next(st, Push(0)).value;
    Go(st, [] + [Read] + [Push(0)], Pop(0));
    st := Next(st, Pop(0)).value;
    Go(st, [] + [Read] + [Push(0)] + [Pop(0)], Plan({0}));
    st := Next(st, Plan({0})).value;
  }

  /** The retransmit loop is not as careful: it plans first and looks for pending records after, so it
      enters a lane that a feeder has taken and queued in between. */
  lemma RetryEntersTakenLane() returns (st: State)
    ensures Reached(ADMITTING, st) && Next(st, Retry(0)).Some? && 0 in st.claimed
    ensures HandOf(st, AtFeeder(0)) == Held(0, Queued)
  {
    st := FeederHolds();
    Go(st, FEEDING, Enter(AtFeeder(0)));
    st := Next(st, Enter(AtFeeder(0))).value;
    Go(st, FEEDING + [Enter(AtFeeder(0))], Claim(AtFeeder(0)));
    st := Next(st, Claim(AtFeeder(0))).value;
    Go(st, FEEDING + [Enter(AtFeeder(0))] + [Claim(AtFeeder(0))], Accept(AtFeeder(0)));
    st := Next(st, Accept(AtFeeder(0))).value;
  }
}

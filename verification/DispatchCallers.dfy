/** Who makes the queue calls under the static and adaptive schedulers (core/stream_engine.go: the
    application reader under its local-enqueue flag, and the retransmit loop with its retry and rescue
    plans), and that they never start one on a lane that is taken: every run of the callers is a run of
    the dispatch system. The feeders of the aggregation scheduler are in PendingQueues. */
module DispatchCallers {
  import opened Prelude
  import opened StreamTx
  import opened Dispatch
  import opened DispatchSafety
  import opened DispatchRetirement
  import Ack = TxRetirement
  import Repair

  /** The application reader places one record at a time; `calling` while inside a queue call. */
  datatype Reader = Idle | Placing(sequence: nat, calling: bool) | Placed(sequence: nat)

  /** `retry` and `rescue` are what is left of the retransmit loop's last plan, `busy` the lane of the
      queue call it is in. */
  datatype Engine = Engine(st: State, reader: Reader, retry: set<nat>, rescue: set<nat>, busy: Option<Lane>)

  datatype Turn =
    | Read(payload: Bytes)
    | Place(leg: LegId)
    | Leave
    | PlanRetries(live: set<LegId>)
    | PlanRescue(records: set<nat>)
    | Retry(sequence: nat, leg: LegId)
    | Rescue(sequence: nat, leg: LegId)
    | Elsewhere(step: Step)

  /** tryQueue up to its ledger claim: it looks at the carrier and at nothing else. */
  function Enter(st: State, k: Lane, leg: LegId): Option<State> {
    var s := StatusOf(st.legs, leg);
    if !s.Live? || !s.open || s.draining then None
    else Some(st.(calls := st.calls[k := Call(leg, s.gen, st.clock, Checked)]))
  }

  /** The step ends this lane's call. */
  predicate Returns(st: State, after: State, k: Lane) {
    k in st.calls && k !in after.calls
  }

  /** The call that ends reports success: the open carrier has the record, or nobody needs it any more. */
  predicate Succeeds(st: State, step: Step, k: Lane) {
    || (step.Finish? && k in st.calls && OpenAt(st.legs, st.calls[k].leg, st.calls[k].gen))
    || (step.Claim? && k.sequence !in st.ledger.outstanding)
  }

  function ReaderAfter(e: Engine, step: Step, after: State): Reader {
    if e.reader.Placing? && e.reader.calling && Returns(e.st, after, Lane(e.reader.sequence, false))
    then
      if Succeeds(e.st, step, Lane(e.reader.sequence, false)) then Placed(e.reader.sequence)
      else Placing(e.reader.sequence, false)
    else e.reader
  }

  /** What is left to do on one kind of lane once this call has ended. */
  function TodoAfter(e: Engine, step: Step, after: State, todo: set<nat>, rescue: bool): set<nat> {
    if e.busy.Some? && e.busy.value.rescue == rescue && Returns(e.st, after, e.busy.value)
       && Succeeds(e.st, step, e.busy.value)
    then todo - {e.busy.value.sequence} else todo
  }

  /** PlanRetries, with whatever legs were live when they were listed. */
  function RetryPlan(o: map<nat, Record>, live: set<LegId>): set<nat> {
    set s | s in o && Repair.NeedsRetry(o[s], live)
  }

  /** Both rescue planners skip a record whose rescue is in transit; which others they choose does not matter. */
  function RescuePlan(o: map<nat, Record>, records: set<nat>): set<nat> {
    set s | s in records && s in o && o[s].rescue.None?
  }

  function NextElsewhere(e: Engine, step: Step): Option<Engine>
    requires Sound(e.st.ledger)
  {
    if step.Add? || step.EndLocal? || step.Begin? then None
    else
      match Next(e.st, step)
      case None => None
      case Some(after) =>
        Some(Engine(after, ReaderAfter(e, step, after), TodoAfter(e, step, after, e.retry, false),
                    TodoAfter(e, step, after, e.rescue, true),
                    if e.busy.Some? && Returns(e.st, after, e.busy.value) then None else e.busy))
  }

  function NextTurn(e: Engine, t: Turn): Option<Engine>
    requires Sound(e.st.ledger)
  {
    match t
    case Read(payload) =>
      if e.reader != Idle then None
      else Some(e.(st := LedgerStep(e.st, Add(payload, true)).value,
                   reader := Placing(e.st.ledger.nextSequence, false)))
    case Place(leg) =>
      if !e.reader.Placing? || e.reader.calling then None
      else
        var entered := Enter(e.st, Lane(e.reader.sequence, false), leg);
        if entered.None? then None else Some(e.(st := entered.value, reader := e.reader.(calling := true)))
    case Leave =>
      if e.reader == Idle || (e.reader.Placing? && e.reader.calling) then None
      else Some(e.(st := LedgerStep(e.st, EndLocal(e.reader.sequence)).value, reader := Idle))
    case PlanRetries(live) =>
      if e.busy.Some? then None
      else Some(e.(retry := RetryPlan(e.st.ledger.outstanding, live), rescue := {}))
    case PlanRescue(records) =>
      if e.busy.Some? then None
      else Some(e.(retry := {}, rescue := RescuePlan(e.st.ledger.outstanding, records)))
    case Retry(s, leg) => EnterLoop(e, s in e.retry, Lane(s, false), leg)
    case Rescue(s, leg) => EnterLoop(e, s in e.rescue, Lane(s, true), leg)
    case Elsewhere(step) => NextElsewhere(e, step)
  }

  /** The retransmit loop makes one call at a time, for a record its plan still holds. */
  function EnterLoop(e: Engine, planned: bool, k: Lane, leg: LegId): Option<Engine> {
    if e.busy.Some? || !planned then None
    else
      var entered := Enter(e.st, k, leg);
      if entered.None? then None else Some(e.(st := entered.value, busy := Some(k)))
  }

  // ---------------------------------------------------------------- each lane has one caller

  predicate ByReader(r: Reader, k: Lane) {
    r.Placing? && r.calling && k == Lane(r.sequence, false)
  }

  /** Every call in progress has its caller in it. */
  ghost predicate Driven(calls: map<Lane, Call>, r: Reader, busy: Option<Lane>) {
    forall k <- calls :: ByReader(r, k) || busy == Some(k)
  }

  /** The record the reader is at keeps its flag and is on no retry plan. */
  ghost predicate ReaderAlone(l: Ledger, r: Reader, retry: set<nat>) {
    r != Idle ==>
      && r.sequence < l.nextSequence && r.sequence !in retry
      && (r.sequence in l.outstanding ==> l.outstanding[r.sequence].localEnqueue)
  }

  ghost predicate Planned(l: Ledger, retry: set<nat>, rescue: set<nat>, busy: Option<Lane>) {
    && (forall s <- retry :: s < l.nextSequence)
    && (forall s <- rescue :: s < l.nextSequence)
    && (busy.Some? ==> busy.value.sequence in if busy.value.rescue then rescue else retry)
  }

  /** Between calls, the lane of every record still to be placed is free. */
  ghost predicate Unclaimed(o: map<nat, Record>, r: Reader, retry: set<nat>, rescue: set<nat>, busy: Option<Lane>) {
    && (r.Placing? && !r.calling ==> ClaimOf(o, Lane(r.sequence, false)).None?)
    && (forall s <- retry :: busy == Some(Lane(s, false)) || ClaimOf(o, Lane(s, false)).None?)
    && (forall s <- rescue :: busy == Some(Lane(s, true)) || ClaimOf(o, Lane(s, true)).None?)
  }

  ghost predicate Orderly(e: Engine) {
    && Inv(e.st) && OwnClaims(e.st)
    && Driven(e.st.calls, e.reader, e.busy)
    && ReaderAlone(e.st.ledger, e.reader, e.retry)
    && Planned(e.st.ledger, e.retry, e.rescue, e.busy)
    && Unclaimed(e.st.ledger.outstanding, e.reader, e.retry, e.rescue, e.busy)
  }

  /** The dispatch step behind a turn; None for planning, which changes nothing there. */
  function StepOf(e: Engine, t: Turn): Option<Step> {
    match t
    case Read(payload) => Some(Add(payload, true))
    case Place(leg) => if e.reader.Placing? then Some(Begin(Lane(e.reader.sequence, false), leg)) else None
    case Leave => if e.reader != Idle then Some(EndLocal(e.reader.sequence)) else None
    case PlanRetries(_) => None
    case PlanRescue(_) => None
    case Retry(s, leg) => Some(Begin(Lane(s, false), leg))
    case Rescue(s, leg) => Some(Begin(Lane(s, true), leg))
    case Elsewhere(step) => Some(step)
  }

  /** No caller enters a lane that is taken: a call that only looks at the carrier does what the
      dispatch system's guarded Begin does. */
  lemma EntersFreeLane(e: Engine, k: Lane, leg: LegId)
    requires Orderly(e) && Enter(e.st, k, leg).Some?
    requires (k == Lane(k.sequence, false) && e.reader == Placing(k.sequence, false))
             || (e.busy.None? && k.sequence in if k.rescue then e.rescue else e.retry)
    ensures k !in e.st.calls && ClaimOf(e.st.ledger.outstanding, k).None? && k.sequence < e.st.ledger.nextSequence
    ensures Next(e.st, Begin(k, leg)) == Enter(e.st, k, leg)
  {
    assert k == Lane(k.sequence, k.rescue);
  }

  // ------------------------------------------------------------------ the local-enqueue flag

  ghost predicate SameLocal(o: map<nat, Record>, n: map<nat, Record>) {
    forall s <- n | s in o :: n[s].localEnqueue == o[s].localEnqueue
  }

  lemma LocalKept(st: State, step: Step)
    requires Sound(st.ledger) && Next(st, step).Some? && !step.EndLocal? && !step.Add?
    ensures SameLocal(st.ledger.outstanding, Next(st, step).value.ledger.outstanding)
    ensures Next(st, step).value.ledger.nextSequence == st.ledger.nextSequence
  {
    if step.Assign? {
      AssignLocal(st.ledger, step.sequence, step.leg, st.clock);
    } else if step.Acked? {
      AckLocal(st.ledger, step.next, st.clock);
    } else if step.Begin? || step.Claim? || step.Enqueue? || step.Reject? || step.Finish? {
      CallLocal(st, step);
    } else if step.Write? || step.Commit? || step.Drop? || step.GiveUp? {
      WriterLocal(st, step);
    } else if !step.Choose? {
      LegLocal(st, step);
    }
  }

  lemma AssignLocal(l: Ledger, s: nat, leg: LegId, now: int)
    requires Sound(l)
    ensures SameLocal(l.outstanding, AssignOrdinary(l, s, leg, now).0.outstanding)
    ensures AssignOrdinary(l, s, leg, now).0.nextSequence == l.nextSequence
  {
  }

  lemma AckLocal(l: Ledger, next: nat, now: int)
    requires Sound(l)
    ensures SameLocal(l.outstanding, Ack.ApplyAck(l, next, now).0.outstanding)
    ensures Ack.ApplyAck(l, next, now).0.nextSequence == l.nextSequence
  {
    Ack.AckKeepsSound(l, next, now);
    if l.ackedNext < next <= l.nextSequence {
      var t := Ack.RetireTo(Ack.Opening(l), next, Ack.HeadOf(l), now).ledger;
      RetireDrops(Ack.Opening(l), next, Ack.HeadOf(l), now);
      assert SameLocal(t.outstanding, Ack.ExposeFrontier(t, now).outstanding);
    }
  }

  lemma LegLocal(st: State, step: Step)
    requires LegStep(st, step).Some?
    ensures SameLocal(st.ledger.outstanding, LegStep(st, step).value.ledger.outstanding)
    ensures LegStep(st, step).value.ledger.nextSequence == st.ledger.nextSequence
  {
    if step.Invalidate? {
      InvalidateLocal(st.ledger, step.leg);
    }
  }

  lemma InvalidateLocal(l: Ledger, leg: LegId)
    ensures SameLocal(l.outstanding, InvalidateLeg(l, leg).outstanding)
  {
    var o, n := l.outstanding, InvalidateLeg(l, leg).outstanding;
    forall s <- n
      ensures n[s].localEnqueue == o[s].localEnqueue
    {
      InvalidatedLocal(o[s], leg);
    }
  }

  lemma InvalidatedLocal(r: Record, leg: LegId)
    ensures Invalidated(r, leg).localEnqueue == r.localEnqueue
  {
  }

  lemma CallLocal(st: State, step: Step)
    requires WindowShape(st.ledger) && CallStep(st, step).Some?
    ensures SameLocal(st.ledger.outstanding, CallStep(st, step).value.ledger.outstanding)
    ensures CallStep(st, step).value.ledger.nextSequence == st.ledger.nextSequence
  {
  }

  lemma WriterLocal(st: State, step: Step)
    requires WindowShape(st.ledger) && WriterStep(st, step).Some?
    ensures SameLocal(st.ledger.outstanding, WriterStep(st, step).value.ledger.outstanding)
    ensures WriterStep(st, step).value.ledger.nextSequence == st.ledger.nextSequence
  {
    if step.Commit? {
      SentLocal(st.ledger, step.slot, st.clock);
    }
  }

  lemma SentLocal(l: Ledger, q: Slot, now: int)
    requires WindowShape(l)
    ensures var n := MarkAttemptSent(l, q.lane.sequence, q.leg, q.lane.rescue, now).0;
            SameLocal(l.outstanding, n.outstanding) && n.nextSequence == l.nextSequence
  {
  }

  // -------------------------------------------------------------------- every turn keeps it

  /** A call that ends without success leaves its lane free. */
  lemma ReturnedFree(st: State, step: Step, k: Lane)
    requires Sound(st.ledger) && OwnClaims(st) && Next(st, step).Some?
    requires Returns(st, Next(st, step).value, k) && !Succeeds(st, step, k)
    ensures ClaimOf(Next(st, step).value.ledger.outstanding, k).None?
  {
    assert OwnClaim(st.ledger.outstanding, k, st.calls[k]);
    EndsOwnCall(st, step, k);
    if step.Reject? || step.Finish? {
      ClearEffect(st.ledger, k, st.calls[k].leg, st.calls[k].started);
    }
  }

  lemma EndsOwnCall(st: State, step: Step, k: Lane)
    requires Sound(st.ledger) && Next(st, step).Some? && Returns(st, Next(st, step).value, k)
    ensures (step.Claim? || step.Reject? || step.Finish?) && step.lane == k && CallStep(st, step).Some?
    ensures step.Claim? ==> st.calls[k].phase == Checked && Next(st, step).value.ledger == st.ledger
    ensures step.Reject? || (step.Finish? && !OpenAt(st.legs, st.calls[k].leg, st.calls[k].gen)) ==>
              Next(st, step).value.ledger == Clear(st.ledger, k, st.calls[k])
  {
  }

  /** A free lane whose caller is not in a call stays free. */
  lemma StaysFree(e: Engine, step: Step, k: Lane)
    requires Orderly(e) && NextElsewhere(e, step).Some?
    requires ClaimOf(e.st.ledger.outstanding, k).None? && !ByReader(e.reader, k) && e.busy != Some(k)
    ensures ClaimOf(Next(e.st, step).value.ledger.outstanding, k).None?
  {
    ClaimsKept(e.st, step);
    var after := Next(e.st, step).value;
    assert ClaimKept(e.st.ledger.outstanding, after.ledger.outstanding, k) || Claiming(e.st, after, step, k);
    assert k in e.st.calls ==> ByReader(e.reader, k) || e.busy == Some(k);
  }

  lemma ElsewhereUnclaimed(e: Engine, step: Step)
    requires Orderly(e) && NextElsewhere(e, step).Some?
    ensures var n := NextElsewhere(e, step).value;
            Unclaimed(n.st.ledger.outstanding, n.reader, n.retry, n.rescue, n.busy)
  {
    var n := NextElsewhere(e, step).value;
    if n.reader.Placing? && !n.reader.calling {
      LaneFreed(e, step, Lane(n.reader.sequence, false));
    }
    forall s <- n.retry
      ensures n.busy == Some(Lane(s, false)) || ClaimOf(n.st.ledger.outstanding, Lane(s, false)).None?
    {
      if n.busy != Some(Lane(s, false)) {
        LaneFreed(e, step, Lane(s, false));
      }
    }
    forall s <- n.rescue
      ensures n.busy == Some(Lane(s, true)) || ClaimOf(n.st.ledger.outstanding, Lane(s, true)).None?
    {
      if n.busy != Some(Lane(s, true)) {
        LaneFreed(e, step, Lane(s, true));
      }
    }
  }

  /** A lane with a record still to be placed, and no call in it, is free. */
  lemma LaneFreed(e: Engine, step: Step, k: Lane)
    requires Orderly(e) && NextElsewhere(e, step).Some?
    requires var n := NextElsewhere(e, step).value;
             || (k == Lane(k.sequence, false) && n.reader == Placing(k.sequence, false))
             || (n.busy != Some(k) && k.sequence in if k.rescue then n.rescue else n.retry)
    ensures ClaimOf(NextElsewhere(e, step).value.st.ledger.outstanding, k).None?
  {
    var after := Next(e.st, step).value;
    assert k == Lane(k.sequence, k.rescue);
    if Returns(e.st, after, k) {
      assert ByReader(e.reader, k) || e.busy == Some(k);
      ReturnedFree(e.st, step, k);
    } else {
      StaysFree(e, step, k);
    }
  }

  lemma ElsewhereDriven(e: Engine, step: Step)
    requires Orderly(e) && NextElsewhere(e, step).Some?
    ensures var n := NextElsewhere(e, step).value;
            Driven(n.st.calls, n.reader, n.busy)
  {
    var n := NextElsewhere(e, step).value;
    forall k <- n.st.calls
      ensures ByReader(n.reader, k) || n.busy == Some(k)
    {
      CallGoesOn(e.st, step, k);
      assert ByReader(e.reader, k) || e.busy == Some(k);
    }
  }

  lemma ElsewhereOrderly(e: Engine, step: Step)
    requires Orderly(e) && NextElsewhere(e, step).Some?
    ensures Orderly(NextElsewhere(e, step).value)
  {
    var n := NextElsewhere(e, step).value;
    assert Inv(n.st) by {
      InvKept(e.st, step);
    }
    assert OwnClaims(n.st) by {
      OwnClaimsKept(e.st, step);
    }
    assert Driven(n.st.calls, n.reader, n.busy) by {
      ElsewhereDriven(e, step);
    }
    assert Unclaimed(n.st.ledger.outstanding, n.reader, n.retry, n.rescue, n.busy) by {
      ElsewhereUnclaimed(e, step);
    }
    assert ReaderAlone(n.st.ledger, n.reader, n.retry) && Planned(n.st.ledger, n.retry, n.rescue, n.busy) by {
      LocalKept(e.st, step);
      NewRecordsAreLast(e.st, step);
    }
  }

  /** A caller that enters a queue call keeps the order. */
  lemma EnterOrderly(e: Engine, k: Lane, leg: LegId, reader: Reader, busy: Option<Lane>)
    requires Orderly(e) && Enter(e.st, k, leg).Some?
    requires || (e.reader == Placing(k.sequence, false) && !k.rescue
                 && reader == Placing(k.sequence, true) && busy == e.busy)
             || (e.busy.None? && k.sequence in (if k.rescue then e.rescue else e.retry)
                 && reader == e.reader && busy == Some(k))
    ensures Next(e.st, Begin(k, leg)) == Enter(e.st, k, leg)
    ensures Orderly(e.(st := Enter(e.st, k, leg).value, reader := reader, busy := busy))
  {
    var n := e.(st := Enter(e.st, k, leg).value, reader := reader, busy := busy);
    assert k == Lane(k.sequence, k.rescue);
    EntersFreeLane(e, k, leg);
    assert Inv(n.st) by {
      InvKept(e.st, Begin(k, leg));
    }
    assert OwnClaims(n.st) by {
      OwnClaimsKept(e.st, Begin(k, leg));
    }
    assert Driven(n.st.calls, n.reader, n.busy) by {
      forall j <- n.st.calls
        ensures ByReader(n.reader, j) || n.busy == Some(j)
      {
        assert j != k ==> ByReader(e.reader, j) || e.busy == Some(j);
      }
    }
  }

  lemma ReadOrderly(e: Engine, payload: Bytes)
    requires Orderly(e) && NextTurn(e, Read(payload)).Some?
    ensures Orderly(NextTurn(e, Read(payload)).value)
  {
    var n := NextTurn(e, Read(payload)).value;
    assert Inv(n.st) by {
      InvKept(e.st, Add(payload, true));
    }
    assert OwnClaims(n.st) by {
      OwnClaimsKept(e.st, Add(payload, true));
    }
    LedgerClaims(e.st, Add(payload, true));
    ClaimsOnlyFreed(e.st.ledger.outstanding, n.st.ledger.outstanding, n.reader, e.retry, e.rescue, e.busy);
  }

  lemma LeaveOrderly(e: Engine)
    requires Orderly(e) && NextTurn(e, Leave).Some?
    ensures Orderly(NextTurn(e, Leave).value)
  {
    var n, step := NextTurn(e, Leave).value, EndLocal(e.reader.sequence);
    assert Inv(n.st) by {
      InvKept(e.st, step);
    }
    assert OwnClaims(n.st) by {
      OwnClaimsKept(e.st, step);
    }
    LedgerClaims(e.st, step);
    ClaimsOnlyFreed(e.st.ledger.outstanding, n.st.ledger.outstanding, n.reader, e.retry, e.rescue, e.busy);
    LocalQuiet(e.st.ledger, e.reader.sequence);
  }

  lemma ClaimsOnlyFreed(o: map<nat, Record>, n: map<nat, Record>, r: Reader, retry: set<nat>, rescue: set<nat>,
                        busy: Option<Lane>)
    requires forall k: Lane :: ClaimKept(o, n, k)
    requires r.Placing? && !r.calling ==> ClaimOf(o, Lane(r.sequence, false)).None?
    requires forall s <- retry :: busy == Some(Lane(s, false)) || ClaimOf(o, Lane(s, false)).None?
    requires forall s <- rescue :: busy == Some(Lane(s, true)) || ClaimOf(o, Lane(s, true)).None?
    ensures Unclaimed(n, r, retry, rescue, busy)
  {
    assert forall s: nat, b: bool :: ClaimKept(o, n, Lane(s, b));
  }

  lemma PlanOrderly(e: Engine, t: Turn)
    requires Orderly(e) && NextTurn(e, t).Some? && (t.PlanRetries? || t.PlanRescue?)
    ensures Orderly(NextTurn(e, t).value)
  {
  }

  /** Every turn of the callers is a step of the dispatch system, or none, and keeps their order. */
  lemma TurnKeeps(e: Engine, t: Turn)
    requires Orderly(e) && NextTurn(e, t).Some?
    ensures Orderly(NextTurn(e, t).value)
    ensures if StepOf(e, t).None? then NextTurn(e, t).value.st == e.st
            else Next(e.st, StepOf(e, t).value) == Some(NextTurn(e, t).value.st)
  {
    match t
    case Read(payload) => ReadOrderly(e, payload);
    case Place(leg) =>
      EnterOrderly(e, Lane(e.reader.sequence, false), leg, Placing(e.reader.sequence, true), e.busy);
    case Leave => LeaveOrderly(e);
    case Retry(s, leg) => EnterOrderly(e, Lane(s, false), leg, e.reader, Some(Lane(s, false)));
    case Rescue(s, leg) => EnterOrderly(e, Lane(s, true), leg, e.reader, Some(Lane(s, true)));
    case Elsewhere(step) => ElsewhereOrderly(e, step);
    case _ => PlanOrderly(e, t);
  }

  // -------------------------------------------------------------------------- whole runs

  lemma TurnSound(e: Engine, t: Turn)
    requires Sound(e.st.ledger) && NextTurn(e, t).Some?
    ensures Sound(NextTurn(e, t).value.st.ledger)
  {
    match t
    case Read(payload) => SoundKept(e.st, Add(payload, true));
    case Leave => SoundKept(e.st, EndLocal(e.reader.sequence));
    case Elsewhere(step) => SoundKept(e.st, step);
    case _ =>
  }

  ghost function Run(maxLegs: nat, turns: seq<Turn>): (r: Option<Engine>)
    ensures r.Some? ==> Sound(r.value.st.ledger)
  {
    if turns == [] then
      EmptySound(maxLegs);
      Some(Engine(Start(maxLegs), Idle, {}, {}, None))
    else
      var before := Run(maxLegs, turns[..|turns| - 1]);
      if before.None? || NextTurn(before.value, turns[|turns| - 1]).None? then None
      else
        TurnSound(before.value, turns[|turns| - 1]);
        NextTurn(before.value, turns[|turns| - 1])
  }

  lemma {:induction false} RunOrderly(maxLegs: nat, turns: seq<Turn>)
    requires Run(maxLegs, turns).Some?
    ensures Orderly(Run(maxLegs, turns).value)
  {
    if turns == [] {
      RunKeeps(maxLegs, []);
    } else {
      RunOrderly(maxLegs, turns[..|turns| - 1]);
      TurnKeeps(Run(maxLegs, turns[..|turns| - 1]).value, turns[|turns| - 1]);
    }
  }

  /** The dispatch steps of a run of the callers. */
  ghost function StepsOf(maxLegs: nat, turns: seq<Turn>): seq<Step>
    requires Run(maxLegs, turns).Some?
  {
    if turns == [] then []
    else
      var before := turns[..|turns| - 1];
      StepsOf(maxLegs, before) + Listed(StepOf(Run(maxLegs, before).value, turns[|turns| - 1]))
  }

  function Listed(step: Option<Step>): seq<Step> {
    if step.Some? then [step.value] else []
  }

  lemma RefineTurn(maxLegs: nat, steps: seq<Step>, e: Engine, t: Turn)
    requires Exec(maxLegs, steps) == Some(e.st) && Orderly(e) && NextTurn(e, t).Some?
    ensures Exec(maxLegs, steps + Listed(StepOf(e, t))) == Some(NextTurn(e, t).value.st)
  {
    TurnKeeps(e, t);
    if StepOf(e, t).Some? {
      ExecExtend(maxLegs, steps, StepOf(e, t).value);
    } else {
      assert steps + [] == steps;
    }
  }

  /** Every run of the callers is a run of the dispatch system. */
  lemma {:induction false} CallersRefine(maxLegs: nat, turns: seq<Turn>)
    requires Run(maxLegs, turns).Some?
    ensures Exec(maxLegs, StepsOf(maxLegs, turns)) == Some(Run(maxLegs, turns).value.st)
  {
    if turns != [] {
      var before, last := turns[..|turns| - 1], turns[|turns| - 1];
      CallersRefine(maxLegs, before);
      RunOrderly(maxLegs, before);
      RefineTurn(maxLegs, StepsOf(maxLegs, before), Run(maxLegs, before).value, last);
    }
  }

  // --------------------------------------------------------- the callers dirty a retired leg

  predicate IsElsewhere(step: Step) {
    !step.Add? && !step.EndLocal? && !step.Begin?
  }

  function Elsewheres(steps: seq<Step>): (turns: seq<Turn>)
    ensures |turns| == |steps|
  {
    seq(|steps|, i requires 0 <= i < |steps| => Elsewhere(steps[i]))
  }

  lemma OneElsewhereMore(turns: seq<Turn>, before: seq<Step>, more: seq<Step>)
    requires more != []
    ensures before + more == (before + more[..|more| - 1]) + [more[|more| - 1]]
    ensures turns + Elsewheres(more)
         == (turns + Elsewheres(more[..|more| - 1])) + [Elsewhere(more[|more| - 1])]
  {
  }

  lemma RunExtend(maxLegs: nat, turns: seq<Turn>, t: Turn)
    requires Run(maxLegs, turns).Some?
    ensures Run(maxLegs, turns + [t]) == NextTurn(Run(maxLegs, turns).value, t)
  {
    assert (turns + [t])[..|turns|] == turns;
  }

  /** A run of the callers, and the same run of the dispatch system. */
  ghost predicate Ran(maxLegs: nat, turns: seq<Turn>, steps: seq<Step>) {
    Run(maxLegs, turns).Some? && Exec(maxLegs, steps) == Some(Run(maxLegs, turns).value.st)
  }

  lemma ElsewhereGoes(e: Engine, step: Step)
    requires Sound(e.st.ledger) && Next(e.st, step).Some? && IsElsewhere(step)
    ensures NextTurn(e, Elsewhere(step)).Some?
    ensures NextTurn(e, Elsewhere(step)).value.st == Next(e.st, step).value
  {
  }

  /** A step of others may follow any run of the callers. */
  lemma OtherFollows(maxLegs: nat, turns: seq<Turn>, before: seq<Step>, step: Step)
    requires Ran(maxLegs, turns, before) && Exec(maxLegs, before + [step]).Some? && IsElsewhere(step)
    ensures Ran(maxLegs, turns + [Elsewhere(step)], before + [step])
  {
    ExecExtend(maxLegs, before, step);
    ElsewhereGoes(Run(maxLegs, turns).value, step);
    RunExtend(maxLegs, turns, Elsewhere(step));
  }

  lemma ExecPrefix(maxLegs: nat, steps: seq<Step>, step: Step)
    requires Exec(maxLegs, steps + [step]).Some?
    ensures Exec(maxLegs, steps).Some?
  {
    assert (steps + [step])[..|steps|] == steps;
  }

  lemma {:induction false} OthersFollow(maxLegs: nat, turns: seq<Turn>, before: seq<Step>, more: seq<Step>)
    requires Ran(maxLegs, turns, before) && Exec(maxLegs, before + more).Some?
    requires forall i | 0 <= i < |more| :: IsElsewhere(more[i])
    ensures Ran(maxLegs, turns + Elsewheres(more), before + more)
    decreases |more|
  {
    if more == [] {
      assert before + more == before && turns + Elsewheres(more) == turns;
    } else {
      var front, last := more[..|more| - 1], more[|more| - 1];
      OneElsewhereMore(turns, before, more);
      ExecPrefix(maxLegs, before + front, last);
      OthersFollow(maxLegs, turns, before, front);
      OtherFollows(maxLegs, turns + Elsewheres(front), before + front, last);
    }
  }

  const PLACED: seq<Turn> := [] + [Read([])] + [Elsewhere(Attach(0))] + [Place(0)]

  lemma ReadRun(maxLegs: nat)
    ensures Ran(maxLegs, [] + [Read([])], [] + [Add([], true)])
    ensures Run(maxLegs, [] + [Read([])]).value.reader == Placing(0, false)
  {
    var e := Engine(Start(maxLegs), Idle, {}, {}, None);
    assert Run(maxLegs, []) == Some(e) && Exec(maxLegs, []) == Some(e.st);
    RunExtend(maxLegs, [], Read([]));
    ExecExtend(maxLegs, [], Add([], true));
  }

  lemma AttachRun(maxLegs: nat, turns: seq<Turn>, steps: seq<Step>)
    requires Ran(maxLegs, turns, steps) && Exec(maxLegs, steps + [Attach(0)]).Some?
    ensures Ran(maxLegs, turns + [Elsewhere(Attach(0))], steps + [Attach(0)])
    ensures Run(maxLegs, turns + [Elsewhere(Attach(0))]).value.reader == Run(maxLegs, turns).value.reader
  {
    OtherFollows(maxLegs, turns, steps, Attach(0));
    RunExtend(maxLegs, turns, Elsewhere(Attach(0)));
  }

  lemma PlaceRun(maxLegs: nat, turns: seq<Turn>, steps: seq<Step>)
    requires Ran(maxLegs, turns, steps) && Run(maxLegs, turns).value.reader == Placing(0, false)
    requires Exec(maxLegs, steps + [Begin(FIRST, 0)]).Some?
    ensures Ran(maxLegs, turns + [Place(0)], steps + [Begin(FIRST, 0)])
  {
    ExecExtend(maxLegs, steps, Begin(FIRST, 0));
    RunExtend(maxLegs, turns, Place(0));
  }

  /** The reader takes its first record from the application and checks carrier 0 for it. */
  lemma PlacedRun(maxLegs: nat)
    ensures Ran(maxLegs, PLACED, CHECKED)
  {
    CheckedRun(maxLegs);
    ExecPrefix(maxLegs, [] + [Add([], true)] + [Attach(0)], Begin(FIRST, 0));
    ReadRun(maxLegs);
    AttachRun(maxLegs, [] + [Read([])], [] + [Add([], true)]);
    PlaceRun(maxLegs, [] + [Read([])] + [Elsewhere(Attach(0))], [] + [Add([], true)] + [Attach(0)]);
  }

  const OTHERS: seq<Step> := [Close(0), Unregister(0), Invalidate(0), Exit(0), Attach(0), StartDrain(0),
                              RetireDrained(0), Claim(FIRST, None)]

  lemma OthersReplace()
    ensures REPLACED + [StartDrain(0)] + [RetireDrained(0)] + [Claim(FIRST, None)] == CHECKED + OTHERS
  {
  }

  /** The application reader itself is overtaken: it checks a carrier for its first record, and claims the
      record there after the carrier's failure, its replacement and the replacement's retirement. */
  lemma OvertakenReaderDirties(maxLegs: nat)
    ensures Ran(maxLegs, PLACED + Elsewheres(OTHERS), CHECKED + OTHERS)
    ensures var st := Exec(maxLegs, CHECKED + OTHERS).value;
            0 in st.drained && 0 in st.ledger.outstanding && DependsOn(st.ledger.outstanding[0], 0)
  {
    OthersReplace();
    OvertakenCallDirties(maxLegs);
    PlacedRun(maxLegs);
    OthersFollow(maxLegs, PLACED, CHECKED, OTHERS);
  }

  // ---------------------------------------------------------------------- nothing is stranded

  /** So no record is ever stranded, though no queue call looks at the ledger before it claims. */
  lemma CallersStrandNothing(maxLegs: nat, turns: seq<Turn>, s: nat)
    requires Run(maxLegs, turns).Some? && s in Run(maxLegs, turns).value.st.ledger.outstanding
    ensures Attended(Run(maxLegs, turns).value.st, s)
  {
    CallersRefine(maxLegs, turns);
    NoStrandedData(maxLegs, StepsOf(maxLegs, turns), s);
  }
}

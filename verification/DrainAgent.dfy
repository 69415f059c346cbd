/** A drain endpoint as the mutable state the engine guards with its drain mutex. */
module DrainAgent {
  import opened Prelude
  import D = DrainEndpoint

  class Agent {
    var legs: map<D.Leg, D.Binding>
    var draining: set<D.Binding>
    var closed: set<D.Binding>
    var load: map<D.Binding, nat>
    var carriers: map<D.Binding, D.Carrier>
    var asked: multiset<D.Binding>
    var ops: map<D.Leg, D.Op>
    var highWater: map<D.Leg, nat>
    var counter: nat
    ghost var committed: set<D.Binding>
    ghost var retired: set<D.Binding>

    ghost function View(): D.Endpoint
      reads this
    {
      D.Endpoint(legs, draining, closed, load, carriers, asked, ops, highWater, counter, committed, retired)
    }

    /** No operation has lost its barrier, and no committed carrier carries or takes DATA again. */
    ghost predicate Valid()
      reads this
    {
      D.Sound(View())
    }

    constructor ()
      ensures Valid() && View() == D.NO_LEGS
    {
      legs, draining, closed, load, carriers := map[], {}, {}, map[], map[];
      asked, ops, highWater, counter := multiset{}, map[], map[], 0;
      committed, retired := {}, {};
    }

    /** hasDrainControlLeg: scans the other legs in an arbitrary order. */
    method HasControlLeg(leg: D.Leg) returns (found: bool)
      ensures found <==> D.HasControlLeg(View(), leg)
    {
      var todo := legs.Keys;
      while todo != {}
        invariant todo <= legs.Keys
        invariant forall l <- legs | l !in todo :: l == leg || legs[l] in draining || legs[l] in closed
        decreases |todo|
      {
        var l :| l in todo;
        if l != leg && legs[l] !in draining && legs[l] !in closed {
          return true;
        }
        todo := todo - {l};
      }
      return false;
    }

    /** A new carrier under a free leg number. */
    method Attach(leg: D.Leg, b: D.Binding, number: nat) returns (ok: bool)
      requires Valid()
      modifies this
      ensures Valid()
      ensures ok <==> D.Attach(old(View()), leg, b, number).Some?
      ensures View() == if ok then D.Attach(old(View()), leg, b, number).value else old(View())
    {
      if D.Attach(View(), leg, b, number).Some? {
        D.AttachSound(View(), leg, b, number);
      }
      if leg in legs || b in load {
        return false;
      }
      legs, load, carriers := legs[leg := b], load[b := 0], carriers[b := D.Carrier(leg, number)];
      return true;
    }

    /** New DATA for a carrier, refused behind its barrier. */
    method Schedule(leg: D.Leg, frames: nat) returns (ok: bool)
      requires Valid()
      modifies this
      ensures Valid()
      ensures ok <==> leg in old(legs) && D.Schedulable(old(View()), leg, old(legs)[leg])
      ensures View() == if ok then D.Schedule(old(View()), leg, frames).value else old(View())
    {
      if D.Schedule(View(), leg, frames).Some? {
        D.ScheduleSound(View(), leg, frames);
      }
      if leg !in legs || legs[leg] in draining || legs[leg] in closed {
        return false;
      }
      load := load[legs[leg] := load[legs[leg]] + frames];
      return true;
    }

    /** Frames acknowledged, or moved off a carrier that failed. */
    method Unload(b: D.Binding, frames: nat) returns (ok: bool)
      requires Valid()
      modifies this
      ensures Valid()
      ensures ok <==> D.Unload(old(View()), b, frames).Some?
      ensures View() == if ok then D.Unload(old(View()), b, frames).value else old(View())
    {
      if D.Unload(View(), b, frames).Some? {
        D.UnloadSound(View(), b, frames);
      }
      if b !in load || load[b] < frames {
        return false;
      }
      load := load[b := load[b] - frames];
      return true;
    }

    /** The connection closes; the carrier stays registered until its failure is handled. */
    method Close(leg: D.Leg)
      requires Valid()
      modifies this
      ensures Valid() && View() == D.Close(old(View()), leg)
    {
      D.CloseSound(View(), leg);
      if leg in legs {
        closed := closed + {legs[leg]};
      }
    }

    /** The carrier leaves the registry. */
    method Detach(leg: D.Leg)
      requires Valid()
      modifies this
      ensures Valid() && View() == D.Detach(old(View()), leg)
    {
      D.DetachSound(View(), leg);
      legs := legs - {leg};
    }

    /** coordinatedDrainLeg before the drain lock; the carrier it is about, if the call goes on. */
    method AskDrain(leg: D.Leg) returns (target: Option<D.Binding>)
      requires Valid()
      modifies this
      ensures Valid()
      ensures target.Some? <==> D.AskDrain(old(View()), leg).Some?
      ensures target.Some? ==> leg in old(legs) && target.value == old(legs)[leg]
      ensures View() == if target.Some? then D.AskDrain(old(View()), leg).value else old(View())
    {
      if D.AskDrain(View(), leg).Some? {
        D.AskSound(View(), leg);
      }
      if leg !in legs || legs[leg] in closed || |legs| <= 1 {
        return None;
      }
      var control := HasControlLeg(leg);
      if !control {
        return None;
      }
      asked := asked + multiset{legs[leg]};
      return Some(legs[leg]);
    }

    /** coordinatedDrainLeg under the drain lock: raise the barrier and open an operation, or refuse. */
    method StartDrain(leg: D.Leg, target: D.Binding, operation: nat) returns (ok: bool)
      requires Valid() && target in asked
      modifies this
      ensures Valid() && (ok <==> D.MayOpen(old(View()), leg, target))
      ensures View() == D.StartDrain(old(View()), leg, target, operation).value
    {
      D.StartDrainSound(View(), leg, target, operation);
      ok := UnderLock(leg, target, operation);
    }

    method UnderLock(leg: D.Leg, target: D.Binding, operation: nat) returns (ok: bool)
      requires target in asked
      modifies this
      ensures ok <==> D.MayOpen(old(View()), leg, target)
      ensures View() == D.StartDrain(old(View()), leg, target, operation).value
    {
      ok := Recheck(leg, target);
      asked := asked - multiset{target};
      if ok {
        Bar(leg, target, operation);
      }
    }

    /** What is looked at again under the lock. */
    method Recheck(leg: D.Leg, target: D.Binding) returns (ok: bool)
      ensures ok <==> D.MayOpen(View(), leg, target)
    {
      if |legs| - |ops| <= 1 || leg in ops {
        return false;
      }
      return leg in legs && legs[leg] == target && target !in closed;
    }

    method Bar(leg: D.Leg, target: D.Binding, operation: nat)
      modifies this
      ensures var op := D.NewOp(target, operation, old(counter) + 1, None);
              View() == D.WithOp(old(View()), leg, op).(draining := old(draining) + {target},
                                                        counter := old(counter) + 1)
    {
      draining := draining + {target};
      counter := counter + 1;
      ops := ops[leg := D.NewOp(target, operation, counter, None)];
    }

    /** handleDrainControlFrame, after authentication; true when the sender is to be told to abort. */
    method HandleControl(m: D.Message) returns (abort: bool)
      requires Valid()
      modifies this
      ensures Valid()
      ensures (View(), abort) == D.HandleControl(old(View()), m)
    {
      D.HandleControlSound(View(), m);
      if m.kind == D.Intent {
        abort := AcceptIntent(m);
        return;
      }
      if m.leg !in ops {
        return false;
      }
      var op := ops[m.leg];
      if op.operation != m.operation || op.counter != m.counter || op.binding != m.binding {
        return false;
      }
      if m.leg in legs && legs[m.leg] != m.binding {
        return false;
      }
      if m.leg !in legs && m.kind != D.CommitAck {
        return false;
      }
      if op.peerGeneration.Some? && op.peerGeneration.value != m.generation {
        return false;
      }
      if op.peerGeneration.None? && (m.leg !in legs || m.binding in closed || m.kind == D.CommitAck) {
        return false;
      }
      Answer(m);
      return false;
    }

    /** Records a message that belongs to the active operation. */
    method Answer(m: D.Message)
      requires m.leg in ops && m.kind != D.Intent
      modifies this
      ensures View() == D.Advanced(old(View()), m.leg, D.Hears(old(ops[m.leg]), m))
    {
      var op := Respond(ops[m.leg].(peerGeneration := Some(m.generation)), m);
      ops := ops[m.leg := op];
      if op.Committed() {
        committed := committed + {op.binding};
      }
    }

    method AcceptIntent(m: D.Message) returns (abort: bool)
      requires Valid()
      modifies this
      ensures Valid()
      ensures (View(), abort) == D.AcceptIntent(old(View()), m)
    {
      D.AcceptIntentSound(View(), m);
      if m.leg !in legs || legs[m.leg] != m.binding {
        return false;
      }
      if m.leg in ops {
        var active := ops[m.leg];
        if active.operation == m.operation && active.counter == m.counter && active.binding == m.binding {
          return false;
        }
        ops := ops[m.leg := active.(terminal := true)];
        highWater := highWater[m.leg := m.counter];
        return true;
      }
      if m.counter <= (if m.leg in highWater then highWater[m.leg] else 0) {
        return false;
      }
      highWater := highWater[m.leg := m.counter];
      if m.binding in closed || |legs| - |ops| <= 1 {
        return true;
      }
      draining := draining + {m.binding};
      ops := ops[m.leg := D.NewOp(m.binding, m.operation, m.counter, Some(m.generation))];
      return false;
    }

    /** drainReady: nothing queued, written or unacknowledged on a barred, open, registered carrier. */
    method IsReady(leg: D.Leg, b: D.Binding) returns (ready: bool)
      ensures ready <==> D.DrainReady(View(), leg, b)
    {
      if leg !in legs || legs[leg] != b || b in closed || b !in draining {
        return false;
      }
      return b in load && load[b] == 0;
    }

    method MarkReady(leg: D.Leg)
      requires Valid()
      modifies this
      ensures Valid()
      ensures View() == D.MarkReady(old(View()), leg)
    {
      D.MarkReadySound(View(), leg);
      if leg in ops {
        var ready := IsReady(leg, ops[leg].binding);
        if ready {
          ops := ops[leg := ops[leg].(localReady := true)];
        }
      }
    }

    method MarkReadySent(leg: D.Leg)
      requires Valid()
      modifies this
      ensures Valid() && View() == D.MarkReadySent(old(View()), leg)
    {
      D.MarkReadySentSound(View(), leg);
      if leg in ops {
        ops := ops[leg := ops[leg].(readySent := true)];
      }
    }

    /** The initiator's point of no return. */
    method SetCommit(leg: D.Leg) returns (ok: bool)
      requires Valid()
      modifies this
      ensures Valid()
      ensures ok <==> D.SetCommit(old(View()), leg).Some?
      ensures View() == if ok then D.SetCommit(old(View()), leg).value else old(View())
    {
      if D.SetCommit(View(), leg).Some? {
        D.SetCommitSound(View(), leg);
      }
      if leg !in ops {
        return false;
      }
      var op := ops[leg];
      if op.terminal || !op.initiator || !op.readySent || !op.localReady || !op.peerQuiesced || !op.peerReady
         || op.commitSent {
        return false;
      }
      ops := ops[leg := op.(commitSent := true)];
      committed := committed + {op.binding};
      return true;
    }

    method Finish(leg: D.Leg)
      modifies this
      ensures View() == D.Finish(old(View()), leg)
    {
      ops := ops - {leg};
    }

    method ForceRecovery(leg: D.Leg)
      requires leg in ops
      modifies this
      ensures old(Valid()) ==> Valid()
      ensures View() == D.ForceRecovery(old(View()), leg)
    {
      if Valid() {
        D.ForceSound(View(), leg);
      }
      if leg in legs && legs[leg] == ops[leg].binding && legs[leg] !in closed {
        closed := closed + {legs[leg]};
        legs := legs - {leg};
      }
      Finish(leg);
    }

    method AbortDrain(leg: D.Leg)
      requires Valid()
      modifies this
      ensures Valid()
      ensures View() == D.AbortDrain(old(View()), leg)
    {
      D.AbortSound(View(), leg);
      if leg !in ops {
        return;
      }
      if ops[leg].commitSent || ops[leg].commitRequested {
        ForceRecovery(leg);
        return;
      }
      if leg in legs && legs[leg] == ops[leg].binding && legs[leg] !in closed {
        draining := draining - {ops[leg].binding};
      }
      Finish(leg);
    }

    /** retireDrainedLeg followed by finishDrain: false, and nothing changed, if the carrier is not ready. */
    method RetireLeg(leg: D.Leg) returns (ok: bool)
      requires leg in ops
      modifies this
      ensures ok <==> D.DrainReady(old(View()), leg, old(ops[leg].binding))
      ensures View() == if ok then D.Retire(old(View()), leg) else old(View())
    {
      ok := IsReady(leg, ops[leg].binding);
      if ok {
        closed := closed + {legs[leg]};
        legs := legs - {leg};
        retired := retired + {ops[leg].binding};
        Finish(leg);
      }
    }

    method RetireOrRecover(leg: D.Leg)
      requires leg in ops
      modifies this
      ensures View() == if D.DrainReady(old(View()), leg, old(ops[leg].binding)) then D.Retire(old(View()), leg)
                        else D.ForceRecovery(old(View()), leg)
    {
      var ok := RetireLeg(leg);
      if !ok {
        ForceRecovery(leg);
      }
    }

    method CompleteAcknowledged(leg: D.Leg)
      requires Valid()
      modifies this
      ensures Valid()
      ensures View() == D.Complete(old(View()), leg)
    {
      D.CompleteSound(View(), leg);
      if leg !in ops || !ops[leg].commitAck {
        return;
      }
      var b := ops[leg].binding;
      if leg in legs && legs[leg] == b {
        if b !in closed {
          RetireOrRecover(leg);
        }
      } else if b in load && load[b] == 0 {
        retired := retired + {b};
        Finish(leg);
      }
    }

    method RetireRemote(leg: D.Leg)
      requires Valid()
      modifies this
      ensures Valid()
      ensures View() == D.RetireRemote(old(View()), leg)
    {
      D.RetireRemoteSound(View(), leg);
      if leg !in ops {
        return;
      }
      var op := ops[leg];
      if op.commitRequested && op.localReady && op.peerReady {
        RetireOrRecover(leg);
      }
    }
  }

  /** The flags an operation's message sets. */
  method Respond(before: D.Op, m: D.Message) returns (op: D.Op)
    requires m.kind != D.Intent
    ensures op == D.Answered(before, m)
  {
    op := before;
    match m.kind {
      case Quiesced =>
        op := op.(peerQuiesced := true);
      case Ready =>
        op := if m.outstanding != 0 then op.(terminal := true) else op.(peerQuiesced := true, peerReady := true);
      case Commit =>
        if m.outstanding == 0 && !op.initiator && op.localReady && op.peerReady {
          op := op.(commitRequested := true);
        } else {
          op := op.(terminal := true);
        }
      case CommitAck =>
        if op.initiator && op.commitSent && m.outstanding == 0 {
          op := op.(commitAck := true);
        } else {
          op := op.(terminal := true);
        }
      case Abort =>
        op := op.(terminal := true);
    }
  }
}

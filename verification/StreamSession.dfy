/** One direction of a session, end to end: the sender's txLoop and ledger, a network
    that loses, duplicates and reorders frames across any number of legs, and the
    receiver's rxLoop, ACK publication and CLOSE check (core/stream_engine.go).
    `wire` only grows: a frame on it may arrive never, once or often, in any order. */
module StreamSession {
  import opened Prelude
  import Rx = StreamRx
  import Tx = StreamTx
  import Ret = TxRetirement

  datatype Config = Config(maxInflight: nat, maxReorder: nat, maxLegs: nat)

  datatype Frame = Data(sequence: nat, payload: Bytes) | Ack(next: nat) | Close(value: nat)

  /** txLoop: before acquireInflight, between acquiring and reading, or returned. */
  datatype TxPhase = Waiting | Holding | Stopped

  /** rxLoop: taking a frame, writing one to the application, after CommitReady,
      before requestAck, returned after an application write that failed part way, or
      failed by the reorder limit. */
  datatype RxPhase = Idle | Delivering(frame: Rx.RxFrame) | Committed | AckDue | Halted(written: nat) | Overflowed

  datatype State = State(
    ledger: Tx.Ledger,
    txPhase: TxPhase,
    tokens: nat,            // occupied slots of the inflight channel
    unreleased: nat,        // retired by an ACK whose releaseInflight has not run yet
    retiredTotal: nat,      // txAckedTotal
    writers: set<Frame>,    // DATA a leg writer has picked up
    drained: bool,          // drainOutstandingOnClose has returned
    wire: set<Frame>,
    window: Rx.Window,
    rxPhase: RxPhase,
    ackNext: nat,
    closeAccepted: bool,
    closeRejected: bool,
    delivered: Bytes,       // what the receiving application has read
    log: seq<Bytes>,        // what txLoop has entered in the ledger, chunk by chunk
    arrived: set<nat>)      // ordinals that have reached the window

  datatype Step =
    | Acquire
    | ReadChunk(payload: Bytes, now: int)
    | ReadNothing(stop: bool)
    | StopTx
    | BeginWrite(sequence: nat)
    | FinishWrite(frame: Frame)
    | RecvAck(next: nat, now: int)
    | ReleaseToken
    | ObserveDrained
    | SendClose
    | RecvData(sequence: nat, payload: Bytes, leg: nat, now: int)
    | Deliver(now: int)
    | DeliverFail(written: nat)
    | PopNext
    | PublishAck
    | SendAck
    | RecvClose(value: nat)

  function Init(c: Config): State {
    State(Tx.EmptyLedger(c.maxLegs), Waiting, 0, 0, 0, {}, false, {}, Rx.EMPTY_WINDOW, Idle, 0, false, false, [],
        [], {})
  }

  // --------------------------------------------------------------- sender's steps

  function SenderStep(c: Config, s: State, step: Step): Option<State> {
    match step
    case Acquire =>
      if s.txPhase == Waiting && s.tokens < c.maxInflight
      then Some(s.(tokens := s.tokens + 1, txPhase := Holding)) else None
    case ReadChunk(payload, now) =>
      if s.txPhase == Holding && payload != []
      then Some(s.(ledger := Tx.AddRecord(s.ledger, payload, now, true), log := s.log + [payload], txPhase := Waiting))
      else None
    case ReadNothing(stop) =>
      if s.txPhase == Holding
      then Some(s.(tokens := Taken(s.tokens), txPhase := if stop then Stopped else Waiting)) else None
    case StopTx =>
      if s.txPhase == Waiting then Some(s.(txPhase := Stopped)) else None
    case BeginWrite(k) =>
      if k in s.ledger.outstanding
      then Some(s.(writers := s.writers + {Data(k, s.ledger.outstanding[k].payload)})) else None
    case FinishWrite(frame) =>
      // The record may have been retired since the writer picked it up.
      if frame in s.writers then Some(s.(wire := s.wire + {frame})) else None
    case RecvAck(next, now) =>
      if Ack(next) in s.wire && |s.ledger.ordinaryFrames| == |s.ledger.ordinaryBytes| == |s.ledger.pendingBytes|
      then
        var (l, r) := Ret.ApplyAck(s.ledger, next, now);
        Some(s.(ledger := l, unreleased := s.unreleased + r.released, retiredTotal := s.retiredTotal + r.retiredBytes))
      else None
    case ReleaseToken =>
      if s.unreleased == 0 then None
      else if s.tokens == 0 then Some(s.(unreleased := 0))
      else Some(s.(unreleased := s.unreleased - 1, tokens := s.tokens - 1))
    case ObserveDrained =>
      if s.txPhase == Stopped && s.ledger.outstanding == map[] then Some(s.(drained := true)) else None
    case SendClose =>
      if s.drained then Some(s.(wire := s.wire + {Close(s.ledger.nextSequence)})) else None
    case _ => None
  }

  function Taken(tokens: nat): nat {
    if tokens > 0 then tokens - 1 else 0
  }

  // ------------------------------------------------------------- receiver's steps

  function ReceiverStep(c: Config, s: State, step: Step): Option<State> {
    match step
    case RecvData(k, payload, leg, now) =>
      if Data(k, payload) in s.wire && s.rxPhase == Idle
      then
        var frame := Rx.RxFrame(k, leg, payload);
        var (w, o) := Rx.InsertFrame(s.window, c.maxReorder, frame, now);
        Some(s.(window := w, arrived := s.arrived + {k},
                rxPhase := if o == Rx.ReorderLimit then Overflowed
                           else if o == Rx.Accepted(Rx.Ready) then Delivering(frame) else Idle))
      else None
    case Deliver(now) =>
      if s.rxPhase.Delivering?
      then Some(s.(delivered := s.delivered + s.rxPhase.frame.payload, window := Rx.Commit(s.window, now),
          rxPhase := Committed))
      else None
    case DeliverFail(written) =>
      if s.rxPhase.Delivering? && written <= |s.rxPhase.frame.payload|
      then Some(s.(delivered := s.delivered + s.rxPhase.frame.payload[..written], rxPhase := Halted(written))) else None
    case PopNext =>
      if s.rxPhase == Committed
      then
        var (w, next) := Rx.Pop(s.window);
        Some(s.(window := w, rxPhase := if next == None then AckDue else Delivering(next.value)))
      else None
    case PublishAck =>
      if s.rxPhase == AckDue
      then Some(s.(ackNext := if s.ackNext < s.window.expected then s.window.expected
          else s.ackNext, rxPhase := Idle)) else None
    case SendAck =>
      if s.ackNext > 0 then Some(s.(wire := s.wire + {Ack(s.ackNext)})) else None
    case RecvClose(value) =>
      if Close(value) !in s.wire then None
      else if value == s.ackNext then Some(s.(closeAccepted := true))
      else Some(s.(closeRejected := true))
    case _ => None
  }

  predicate SenderOwned(step: Step) {
    step.Acquire? || step.ReadChunk? || step.ReadNothing? || step.StopTx? || step.BeginWrite? || step.FinishWrite?
    || step.RecvAck? || step.ReleaseToken? || step.ObserveDrained? || step.SendClose?
  }

  function Apply(c: Config, s: State, step: Step): Option<State> {
    if SenderOwned(step) then SenderStep(c, s, step) else ReceiverStep(c, s, step)
  }

  /** The state after a run, or None if some step of it was not enabled. */
  function Exec(c: Config, s: State, run: seq<Step>): Option<State> {
    if run == [] then Some(s)
    else
      var before := Exec(c, s, run[..|run| - 1]);
      if before == None then None else Apply(c, before.value, run[|run| - 1])
  }

  // ------------------------------------------------------------------- invariant

  /** Ledger and log agree, and every token is owned by an outstanding record, by
      txLoop, or by a release still to come. */
  ghost predicate SenderInv(c: Config, l: Tx.Ledger, log: seq<Bytes>, phase: TxPhase, tokens: nat, unreleased: nat) {
    && Tx.Sound(l)
    && |log| == l.nextSequence
    && (forall k <- l.outstanding :: l.outstanding[k].payload == log[k])
    && tokens == (l.nextSequence - l.ackedNext) + (if phase == Holding then 1 else 0) + unreleased
    && tokens <= c.maxInflight
  }

  /** A frame says only what its sender was entitled to say. */
  ghost predicate Truthful(f: Frame, log: seq<Bytes>, ackNext: nat, drained: bool) {
    match f
    case Data(k, payload) => k < |log| && payload == log[k]
    case Ack(next) => next <= ackNext
    case Close(value) => drained && value == |log|
  }

  ghost predicate WireInv(frames: set<Frame>, log: seq<Bytes>, ackNext: nat, drained: bool) {
    forall f <- frames :: Truthful(f, log, ackNext, drained)
  }

  ghost predicate WindowInv(w: Rx.Window, log: seq<Bytes>) {
    && Rx.Consistent(w)
    && w.expected <= |log|
    && (forall k <- w.pending :: k < |log| && w.pending[k].payload == log[k])
  }

  /** The application has read exactly the payloads before the frontier. */
  ghost predicate InStep(w: Rx.Window, log: seq<Bytes>, delivered: Bytes) {
    w.expected <= |log| && delivered == Concat(log[..w.expected])
  }

  /** Where each phase of rxLoop leaves the window and the application. */
  ghost predicate PhaseInv(phase: RxPhase, w: Rx.Window, log: seq<Bytes>, delivered: Bytes, ackNext: nat) {
    match phase
    case Idle => Rx.Quiet(w) && ackNext == w.expected && InStep(w, log, delivered)
    case Delivering(frame) =>
      && w.readyPending && frame.sequence == w.expected < |log|
      && frame.payload == log[frame.sequence] && InStep(w, log, delivered)
    case Committed => !w.readyPending && (w.expected in w.pending || Rx.Quiet(w)) && InStep(w, log, delivered)
    case AckDue => Rx.Quiet(w) && InStep(w, log, delivered)
    case Halted(n) =>
      && w.expected < |log| && n <= |log[w.expected]|
      && delivered == Concat(log[..w.expected]) + log[w.expected][..n]
    case Overflowed => InStep(w, log, delivered)
  }

  /** The window has lost track of nothing that arrived. */
  ghost predicate ArrivedInv(phase: RxPhase, w: Rx.Window, arrived: set<nat>) {
    phase != Overflowed ==>
      forall k: nat :: k in arrived <==> k < w.expected || k in w.pending || (w.readyPending && k == w.expected)
  }

  ghost predicate Inv(c: Config, s: State) {
    && SenderInv(c, s.ledger, s.log, s.txPhase, s.tokens, s.unreleased)
    && s.retiredTotal == |Concat(s.log[..s.ledger.ackedNext])|
    && (s.drained ==> s.txPhase == Stopped && s.ledger.ackedNext == s.ledger.nextSequence)
    && WireInv(s.wire, s.log, s.ackNext, s.drained)
    && WireInv(s.writers, s.log, 0, false) && (forall f <- s.writers :: f.Data?)
    && s.ledger.ackedNext <= s.ackNext <= s.window.expected
    && WindowInv(s.window, s.log)
    && PhaseInv(s.rxPhase, s.window, s.log, s.delivered, s.ackNext)
    && ArrivedInv(s.rxPhase, s.window, s.arrived)
    && !s.closeRejected && (s.closeAccepted ==> s.drained)
    && (c.maxInflight <= c.maxReorder + 1 ==> s.rxPhase != Overflowed)
  }

  lemma InitHolds(c: Config)
    ensures Inv(c, Init(c))
  {
    Tx.EmptySound(c.maxLegs);
  }

  // ------------------------------------------------- the sender's steps keep Inv

  lemma TokenStepsKeep(c: Config, s: State, step: Step)
    requires Inv(c, s) && Apply(c, s, step).Some?
    requires step.Acquire? || step.ReadNothing? || step.StopTx? || step.ReleaseToken?
    ensures Inv(c, Apply(c, s, step).value)
  {
  }

  lemma DrainedKeeps(c: Config, s: State)
    requires Inv(c, s) && Apply(c, s, ObserveDrained).Some?
    ensures Inv(c, Apply(c, s, ObserveDrained).value)
  {
    assert s.ledger.ackedNext !in s.ledger.outstanding;
  }

  lemma ReadKeeps(c: Config, s: State, payload: Bytes, now: int)
    requires Inv(c, s) && Apply(c, s, ReadChunk(payload, now)).Some?
    ensures Inv(c, Apply(c, s, ReadChunk(payload, now)).value)
  {
    var n := Apply(c, s, ReadChunk(payload, now)).value;
    Tx.AddKeepsSound(s.ledger, payload, now, true);
    assert n.log[..s.ledger.ackedNext] == s.log[..s.ledger.ackedNext];
    assert n.log[..s.window.expected] == s.log[..s.window.expected];
  }

  lemma WriteStepsKeep(c: Config, s: State, step: Step)
    requires Inv(c, s) && Apply(c, s, step).Some?
    requires step.BeginWrite? || step.FinishWrite? || step.SendClose?
    ensures Inv(c, Apply(c, s, step).value)
  {
  }

  lemma AckStepKeeps(c: Config, s: State, next: nat, now: int)
    requires Inv(c, s) && Apply(c, s, RecvAck(next, now)).Some?
    ensures Inv(c, Apply(c, s, RecvAck(next, now)).value)
  {
    assert Truthful(Ack(next), s.log, s.ackNext, s.drained);
    AckLedger(c, s.ledger, s.log, s.txPhase, s.tokens, s.unreleased, next, now);
    RetiredBytesAgree(s, next, now);
  }

  /** What the sender knows after an ACK: the window shrinks from below, and every retired
      record's token waits to be released. */
  lemma AckLedger(c: Config, l: Tx.Ledger, log: seq<Bytes>, phase: TxPhase, tokens: nat, unreleased: nat,
      next: nat, now: int)
    requires SenderInv(c, l, log, phase, tokens, unreleased)
    ensures var (n, r) := Ret.ApplyAck(l, next, now);
            && SenderInv(c, n, log, phase, tokens, unreleased + r.released)
            && n.nextSequence == l.nextSequence
            && (n.ackedNext == l.ackedNext || l.ackedNext < n.ackedNext == next)
  {
    Ret.AckKeepsSound(l, next, now);
  }

  /** An ACK retires exactly the bytes the log holds between the two frontiers. */
  lemma RetiredBytesAgree(s: State, next: nat, now: int)
    requires Tx.Sound(s.ledger) && |s.log| == s.ledger.nextSequence
    requires forall k <- s.ledger.outstanding :: s.ledger.outstanding[k].payload == s.log[k]
    ensures var (l, r) := Ret.ApplyAck(s.ledger, next, now);
            && l.ackedNext <= |s.log|
            && |Concat(s.log[..l.ackedNext])| == |Concat(s.log[..s.ledger.ackedNext])| + r.retiredBytes
  {
    Ret.AckKeepsSound(s.ledger, next, now);
    if s.ledger.ackedNext < next <= s.ledger.nextSequence {
      Ret.AckReportIsExact(s.ledger, next, now, 0);
      LogBytes(s.ledger.outstanding, s.log, s.ledger.ackedNext, next);
    }
  }

  lemma {:induction false} LogBytes(m: map<nat, Tx.Record>, log: seq<Bytes>, lo: nat, hi: nat)
    requires lo <= hi <= |log|
    requires forall k: nat | lo <= k < hi :: k in m && m[k].payload == log[k]
    ensures |Concat(log[..hi])| == |Concat(log[..lo])| + Tx.RangeSum(m, lo, hi, Ret.RecordBytes)
    decreases hi - lo
  {
    if lo < hi {
      LogBytes(m, log, lo, hi - 1);
      assert log[..hi][..hi - 1] == log[..hi - 1];
    }
  }

  // ----------------------------------------------- the receiver's steps keep Inv

  lemma InsertTracks(c: Config, frame: Rx.RxFrame, w: Rx.Window, log: seq<Bytes>, delivered: Bytes,
      arrived: set<nat>, now: int)
    requires WindowInv(w, log) && PhaseInv(Idle, w, log, delivered, w.expected) && ArrivedInv(Idle, w, arrived)
    requires frame.sequence < |log| && frame.payload == log[frame.sequence]
    ensures var (w', o) := Rx.InsertFrame(w, c.maxReorder, frame, now);
            var phase := if o == Rx.ReorderLimit then Overflowed
                         else if o == Rx.Accepted(Rx.Ready) then Delivering(frame) else Idle;
            && w'.expected == w.expected && WindowInv(w', log)
            && PhaseInv(phase, w', log, delivered, w.expected)
            && ArrivedInv(phase, w', arrived + {frame.sequence})
  {
    Rx.InsertKeeps(w, c.maxReorder, frame, now);
  }

  lemma RecvDataKeeps(c: Config, s: State, k: nat, payload: Bytes, leg: nat, now: int)
    requires Inv(c, s) && Apply(c, s, RecvData(k, payload, leg, now)).Some?
    ensures Inv(c, Apply(c, s, RecvData(k, payload, leg, now)).value)
  {
    var frame := Rx.RxFrame(k, leg, payload);
    assert Truthful(Data(k, payload), s.log, s.ackNext, s.drained);
    InsertTracks(c, frame, s.window, s.log, s.delivered, s.arrived, now);
    if c.maxInflight <= c.maxReorder + 1 {
      NoOverflow(c, s, frame, now);
    }
  }

  /** The pigeonhole: everything held back, and the frame now arriving, lies strictly
      between the receive frontier and the newest ordinal, which the inflight
      tokens keep within maxInflight of each other. */
  lemma NoOverflow(c: Config, s: State, frame: Rx.RxFrame, now: int)
    requires Inv(c, s) && s.rxPhase == Idle && frame.sequence < |s.log| && c.maxInflight <= c.maxReorder + 1
    ensures Rx.InsertFrame(s.window, c.maxReorder, frame, now).1 != Rx.ReorderLimit
  {
    var w := s.window;
    if w.expected < frame.sequence && frame.sequence !in w.pending {
      var held := w.pending.Keys + {frame.sequence};
      RangeBound(held, w.expected + 1, |s.log|);
      assert |held| == |w.pending| + 1;
    }
  }

  /** A completed application write moves the frontier and the application together. */
  lemma CommitAdvances(frame: Rx.RxFrame, w: Rx.Window, log: seq<Bytes>, delivered: Bytes, ackNext: nat,
      arrived: set<nat>, now: int)
    requires WindowInv(w, log) && PhaseInv(Delivering(frame), w, log, delivered, ackNext)
    requires ArrivedInv(Delivering(frame), w, arrived)
    ensures var w' := Rx.Commit(w, now);
            && w'.expected == w.expected + 1 && WindowInv(w', log)
            && PhaseInv(Committed, w', log, delivered + frame.payload, ackNext)
            && ArrivedInv(Committed, w', arrived)
  {
    Rx.CommitKeeps(w, now);
    assert log[..w.expected + 1][..w.expected] == log[..w.expected];
  }

  lemma DeliverKeeps(c: Config, s: State, now: int)
    requires Inv(c, s) && Apply(c, s, Deliver(now)).Some?
    ensures Inv(c, Apply(c, s, Deliver(now)).value)
  {
    CommitAdvances(s.rxPhase.frame, s.window, s.log, s.delivered, s.ackNext, s.arrived, now);
  }

  lemma DeliverFailKeeps(c: Config, s: State, written: nat)
    requires Inv(c, s) && Apply(c, s, DeliverFail(written)).Some?
    ensures Inv(c, Apply(c, s, DeliverFail(written)).value)
  {
  }

  lemma PopKeeps(c: Config, s: State)
    requires Inv(c, s) && Apply(c, s, PopNext).Some?
    ensures Inv(c, Apply(c, s, PopNext).value)
  {
    Rx.PopKeeps(s.window);
  }

  lemma PublishStepsKeep(c: Config, s: State, step: Step)
    requires Inv(c, s) && Apply(c, s, step).Some?
    requires step.PublishAck? || step.SendAck?
    ensures Inv(c, Apply(c, s, step).value)
  {
  }

  lemma CloseKeeps(c: Config, s: State, value: nat)
    requires Inv(c, s) && Apply(c, s, RecvClose(value)).Some?
    ensures Inv(c, Apply(c, s, RecvClose(value)).value)
  {
    assert Truthful(Close(value), s.log, s.ackNext, s.drained);
  }

  lemma StepKeeps(c: Config, s: State, step: Step)
    requires Inv(c, s) && Apply(c, s, step).Some?
    ensures Inv(c, Apply(c, s, step).value)
  {
    match step
    case Acquire => TokenStepsKeep(c, s, step);
    case ReadChunk(payload, now) => ReadKeeps(c, s, payload, now);
    case ReadNothing(_) => TokenStepsKeep(c, s, step);
    case StopTx => TokenStepsKeep(c, s, step);
    case BeginWrite(_) => WriteStepsKeep(c, s, step);
    case FinishWrite(_) => WriteStepsKeep(c, s, step);
    case RecvAck(next, now) => AckStepKeeps(c, s, next, now);
    case ReleaseToken => TokenStepsKeep(c, s, step);
    case ObserveDrained => DrainedKeeps(c, s);
    case SendClose => WriteStepsKeep(c, s, step);
    case RecvData(k, payload, leg, now) => RecvDataKeeps(c, s, k, payload, leg, now);
    case Deliver(now) => DeliverKeeps(c, s, now);
    case DeliverFail(written) => DeliverFailKeeps(c, s, written);
    case PopNext => PopKeeps(c, s);
    case PublishAck => PublishStepsKeep(c, s, step);
    case SendAck => PublishStepsKeep(c, s, step);
    case RecvClose(value) => CloseKeeps(c, s, value);
  }

  lemma {:induction false} RunKeeps(c: Config, run: seq<Step>)
    requires Exec(c, Init(c), run).Some?
    ensures Inv(c, Exec(c, Init(c), run).value)
  {
    if run == [] {
      InitHolds(c);
    } else {
      RunKeeps(c, run[..|run| - 1]);
      StepKeeps(c, Exec(c, Init(c), run[..|run| - 1]).value, run[|run| - 1]);
    }
  }

  // -------------------------------------------------------------------- theorems

  /** The four frontiers never cross; the application has read a byte prefix of what
      was entered, exactly the payloads before `expected` while rxLoop runs; and
      every record the sender has retired is inside that prefix. */
  lemma PrefixDelivery(c: Config, run: seq<Step>)
    requires Exec(c, Init(c), run).Some?
    ensures var s := Exec(c, Init(c), run).value;
            && s.ledger.ackedNext <= s.ackNext <= s.window.expected <= s.ledger.nextSequence == |s.log|
            && (!s.rxPhase.Halted? ==> s.delivered == Concat(s.log[..s.window.expected]))
            && s.delivered <= Concat(s.log)
            && Concat(s.log[..s.ledger.ackedNext]) <= s.delivered
            && s.retiredTotal == |Concat(s.log[..s.ledger.ackedNext])|
  {
    RunKeeps(c, run);
    var s := Exec(c, Init(c), run).value;
    var e := s.window.expected;
    var part := if s.rxPhase.Halted? then Some(s.rxPhase.written) else None;
    assert part.None? ==> InStep(s.window, s.log, s.delivered);
    DeliveredIsPrefix(s.log, s.ledger.ackedNext, e, part, s.delivered);
  }

  /** `part` is how much of the next payload a failed write got out. */
  lemma DeliveredIsPrefix(log: seq<Bytes>, acked: nat, e: nat, part: Option<nat>, delivered: Bytes)
    requires acked <= e <= |log|
    requires part.None? ==> delivered == Concat(log[..e])
    requires part.Some? ==> e < |log| && part.value <= |log[e]| && delivered == Concat(log[..e]) + log[e][..part.value]
    ensures Concat(log[..acked]) <= delivered <= Concat(log)
  {
    assert log[..|log|] == log;
    PrefixesNest(log, acked, e);
    if part.Some? {
      HalfDelivered(log, e, part.value);
      PrefixesNest(log, e + 1, |log|);
      PrefixTrans(Concat(log[..acked]), Concat(log[..e]), delivered);
      PrefixTrans(delivered, Concat(log[..e + 1]), Concat(log));
    } else {
      PrefixesNest(log, e, |log|);
    }
  }

  lemma PrefixTrans(a: Bytes, b: Bytes, c: Bytes)
    requires a <= b <= c
    ensures a <= c
  {
  }

  lemma HalfDelivered(log: seq<Bytes>, e: nat, n: nat)
    requires e < |log| && n <= |log[e]|
    ensures Concat(log[..e]) <= Concat(log[..e]) + log[e][..n] <= Concat(log[..e + 1])
  {
    assert log[..e + 1][..e] == log[..e];
    assert Concat(log[..e + 1]) == Concat(log[..e]) + log[e];
  }

  lemma PrefixesNest(log: seq<Bytes>, lo: nat, hi: nat)
    requires lo <= hi <= |log|
    ensures Concat(log[..lo]) <= Concat(log[..hi])
  {
    ConcatSplit(log[..hi], lo);
    assert log[..hi][..lo] == log[..lo];
  }

  /** rxLoop withholds nothing: when it waits for a frame, the frontier is the first
      ordinal that has never arrived, and everything beyond it that has is retained. */
  lemma DeliveryIsMaximal(c: Config, run: seq<Step>)
    requires Exec(c, Init(c), run).Some? && Exec(c, Init(c), run).value.rxPhase == Idle
    ensures var s := Exec(c, Init(c), run).value;
            && s.window.expected !in s.arrived
            && (forall k: nat | k < s.window.expected :: k in s.arrived)
            && s.window.pending.Keys == set k | k in s.arrived && s.window.expected < k
            && s.ackNext == s.window.expected
  {
    RunKeeps(c, run);
    var s := Exec(c, Init(c), run).value;
    forall k | k in s.window.pending
      ensures k in s.arrived && s.window.expected < k
    {
    }
  }

  /** A CLOSE exists only once everything written has been read by the peer; it then
      names the peer's frontier on every arrival, so it is never rejected. */
  lemma CloseIsComplete(c: Config, run: seq<Step>)
    requires Exec(c, Init(c), run).Some?
    ensures var s := Exec(c, Init(c), run).value;
            && !s.closeRejected
            && (forall v: nat | Close(v) in s.wire :: v == s.ackNext == |s.log| && s.delivered == Concat(s.log))
            && (s.closeAccepted ==>
                  s.txPhase == Stopped && s.ledger.outstanding == map[] && s.delivered == Concat(s.log))
  {
    RunKeeps(c, run);
    PrefixDelivery(c, run);
    var s := Exec(c, Init(c), run).value;
    assert s.log[..|s.log|] == s.log;
    forall v: nat | Close(v) in s.wire
      ensures v == s.ackNext == |s.log| && s.delivered == Concat(s.log)
    {
      assert Truthful(Close(v), s.log, s.ackNext, s.drained);
    }
  }

  /** Inflight tokens are conserved and bound the window; releaseInflight always finds
      the token it is owed, and no ACK the peer ever sends is ahead of the sender. */
  lemma TokensConserved(c: Config, run: seq<Step>)
    requires Exec(c, Init(c), run).Some?
    ensures var s := Exec(c, Init(c), run).value;
            && s.tokens == |s.ledger.outstanding| + (if s.txPhase == Holding then 1 else 0) + s.unreleased
            && s.ledger.nextSequence - s.ledger.ackedNext <= s.tokens <= c.maxInflight
            && (s.unreleased > 0 ==> s.tokens > 0)
            && (forall next: nat | Ack(next) in s.wire :: next <= s.ledger.nextSequence)
  {
    RunKeeps(c, run);
    var s := Exec(c, Init(c), run).value;
    RangeCount(s.ledger.outstanding.Keys, s.ledger.ackedNext, s.ledger.nextSequence);
    forall next: nat | Ack(next) in s.wire
      ensures next <= s.ledger.nextSequence
    {
      assert Truthful(Ack(next), s.log, s.ackNext, s.drained);
    }
  }

  // ------------------------------------------- exactly when the reorder limit bites

  const CHUNK: Bytes := [0]

  lemma ExecSnoc(c: Config, run: seq<Step>, step: Step, next: State) returns (longer: seq<Step>)
    requires Exec(c, Init(c), run).Some? && Apply(c, Exec(c, Init(c), run).value, step) == Some(next)
    ensures Exec(c, Init(c), longer) == Some(next)
  {
    longer := run + [step];
    assert longer[..|run|] == run;
  }

  /** `i` chunks are on the wire and none has arrived. */
  ghost predicate AllSent(s: State, i: nat) {
    && s.txPhase == Waiting && s.tokens == i && s.ledger.nextSequence == i
    && s.rxPhase == Idle && s.window == Rx.EMPTY_WINDOW
    && (forall k: nat | k < i :: Data(k, CHUNK) in s.wire)
  }

  lemma SendOneMore(c: Config, s: State, i: nat) returns (held: State, added: State, picked: State, sent: State)
    requires AllSent(s, i) && i < c.maxInflight
    ensures Apply(c, s, Acquire) == Some(held) && Apply(c, held, ReadChunk(CHUNK, 0)) == Some(added)
    ensures Apply(c, added, BeginWrite(i)) == Some(picked) && Apply(c, picked, FinishWrite(Data(i,
        CHUNK))) == Some(sent)
    ensures AllSent(sent, i + 1)
  {
    held := Apply(c, s, Acquire).value;
    added := Apply(c, held, ReadChunk(CHUNK, 0)).value;
    picked := Apply(c, added, BeginWrite(i)).value;
    sent := Apply(c, picked, FinishWrite(Data(i, CHUNK))).value;
  }

  lemma {:induction false} SendMany(c: Config, i: nat) returns (run: seq<Step>)
    requires i <= c.maxInflight
    ensures Exec(c, Init(c), run).Some? && AllSent(Exec(c, Init(c), run).value, i)
  {
    if i == 0 {
      run := [];
    } else {
      run := SendMany(c, i - 1);
      var held, added, picked, sent := SendOneMore(c, Exec(c, Init(c), run).value, i - 1);
      run := ExecSnoc(c, run, Acquire, held);
      run := ExecSnoc(c, run, ReadChunk(CHUNK, 0), added);
      run := ExecSnoc(c, run, BeginWrite(i - 1), picked);
      run := ExecSnoc(c, run, FinishWrite(Data(i - 1, CHUNK)), sent);
    }
  }

  /** Ordinals 1 to `j` are held back behind the missing ordinal 0. */
  ghost predicate HeldBack(s: State, i: nat, j: nat) {
    && s.rxPhase == Idle && s.window.expected == 0 && !s.window.readyPending
    && (forall k: nat :: k in s.window.pending <==> 1 <= k <= j)
    && (forall k: nat | k < i :: Data(k, CHUNK) in s.wire)
  }

  lemma {:induction false} BufferMany(c: Config, i: nat, j: nat) returns (run: seq<Step>)
    requires j < i <= c.maxInflight && j <= c.maxReorder
    ensures Exec(c, Init(c), run).Some? && HeldBack(Exec(c, Init(c), run).value, i, j)
  {
    if j == 0 {
      run := SendMany(c, i);
    } else {
      run := BufferMany(c, i, j - 1);
      var s := Exec(c, Init(c), run).value;
      RangeCount(s.window.pending.Keys, 1, j);
      var step := RecvData(j, CHUNK, 0, 0);
      run := ExecSnoc(c, run, step, Apply(c, s, step).value);
    }
  }

  lemma OverflowRun(c: Config) returns (run: seq<Step>)
    requires c.maxReorder + 2 <= c.maxInflight
    ensures Exec(c, Init(c), run).Some? && Exec(c, Init(c), run).value.rxPhase == Overflowed
  {
    run := BufferMany(c, c.maxReorder + 2, c.maxReorder);
    var s := Exec(c, Init(c), run).value;
    RangeCount(s.window.pending.Keys, 1, c.maxReorder + 1);
    var step := RecvData(c.maxReorder + 1, CHUNK, 0, 0);
    run := ExecSnoc(c, run, step, Apply(c, s, step).value);
  }

  ghost predicate CanOverflow(c: Config) {
    exists run: seq<Step> :: Exec(c, Init(c), run).Some? && Exec(c, Init(c), run).value.rxPhase == Overflowed
  }

  /** The receiver's reorder-limit failure is unreachable exactly when the sender's
      window fits: MaxInflightFrames <= MaxReorderFrames + 1. */
  lemma OverflowIffWindowTooLarge(c: Config)
    ensures CanOverflow(c) <==> c.maxReorder + 2 <= c.maxInflight
  {
    if c.maxReorder + 2 <= c.maxInflight {
      var run := OverflowRun(c);
    } else {
      forall run: seq<Step> | Exec(c, Init(c), run).Some?
        ensures Exec(c, Init(c), run).value.rxPhase != Overflowed
      {
        RunKeeps(c, run);
      }
    }
  }
}

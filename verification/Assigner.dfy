/** The weighted record assigner (core/stream_assignment_debug.go, assignBenchmark): normalized
    service, its two rebases, the choice of a leg and the accounting of owners. Weights and
    scores are reals. */
module Assigner {
  import opened Prelude

  /** A leg's charged bytes and records, and the origin and weight of its normalized service. */
  datatype Share = Share(service: int, records: int, origin: real, weight: real)

  /** Normalized finish: how far the leg's service has come, per unit of weight. */
  function Finish(s: Share, weight: real): real
    requires weight > 0.0
  {
    s.service as real / weight - s.origin
  }

  /** Where the finish would be with `size` more bytes. */
  function Score(s: Share, weight: real, size: nat, penalty: real): real
    requires weight > 0.0
  {
    (s.service + size) as real / weight - s.origin + penalty
  }

  /** A weight update changes future entitlement, not the finish reached so far. */
  function Reweigh(s: Share, next: real): Share {
    if s.weight > 0.0 && next > 0.0 && s.weight != next
    then s.(origin := s.service as real / next - Finish(s, s.weight), weight := next)
    else s.(weight := next)
  }

  /** A new epoch starts every finish at zero. */
  function Rebase(s: Share, weight: real): Share {
    if weight > 0.0 then s.(origin := s.service as real / weight, weight := weight) else s
  }

  function Charge(s: Share, size: int, count: int): Share {
    s.(service := s.service + size, records := s.records + count)
  }

  lemma ReweighKeepsFinish(s: Share, next: real)
    requires s.weight > 0.0 && next > 0.0
    ensures Finish(Reweigh(s, next), next) == Finish(s, s.weight)
  {
  }

  lemma RebaseZeroes(s: Share, weight: real)
    requires weight > 0.0
    ensures Finish(Rebase(s, weight), weight) == 0.0
  {
  }

  // --------------------------------------------------------------------- choosing a leg

  /** What one leg looks like to the choice. */
  datatype Candidate = Candidate(weight: real, selectable: bool, penalty: real)

  predicate Usable(v: Candidate) {
    v.selectable && v.weight > 0.0
  }

  /** The lowest score among usable legs, the lowest ID on a tie. */
  ghost predicate IsBest(shares: seq<Share>, views: seq<Candidate>, size: nat, best: nat)
    requires |views| == |shares|
  {
    && best < |shares| && Usable(views[best])
    && (forall j | 0 <= j < |shares| && Usable(views[j]) ::
          var mine := Score(shares[best], views[best].weight, size, views[best].penalty);
          var other := Score(shares[j], views[j].weight, size, views[j].penalty);
          mine < other || (mine == other && best <= j))
  }

  method Choose(shares: seq<Share>, views: seq<Candidate>, size: nat) returns (best: Option<nat>)
    requires |views| == |shares|
    ensures best.None? <==> forall j | 0 <= j < |shares| :: !Usable(views[j])
    ensures best.Some? ==> IsBest(shares, views, size, best.value)
  {
    best := None;
    var score := 0.0;
    for i := 0 to |shares|
      invariant best.None? <==> forall j | 0 <= j < i :: !Usable(views[j])
      invariant best.Some? ==>
                  && IsBest(shares[..i], views[..i], size, best.value)
                  && score == Score(shares[best.value], views[best.value].weight, size, views[best.value].penalty)
    {
      assert shares[..i + 1] == shares[..i] + [shares[i]] && views[..i + 1] == views[..i] + [views[i]];
      if !views[i].selectable || views[i].weight <= 0.0 {
        continue;
      }
      var next := Score(shares[i], views[i].weight, size, views[i].penalty);
      if best.None? || next < score {
        best, score := Some(i), next;
      }
    }
    assert shares[..|shares|] == shares && views[..|views|] == views;
  }

  // -------------------------------------------------------------------- the lag bound

  datatype Step = Weights(next: seq<real>) | Epoch(weights: seq<real>) | Give(size: nat, best: nat)

  /** Weights are at least `least`, payloads at most `most`. */
  predicate WithinBounds(step: Step, legs: nat, least: real, most: nat) {
    match step
    case Weights(next) => |next| == legs && forall i | 0 <= i < legs :: next[i] >= least
    case Epoch(weights) => |weights| == legs && forall i | 0 <= i < legs :: weights[i] >= least
    case Give(size, _) => size <= most
  }

  /** Every leg is usable at its own weight, with no penalty. */
  function OpenViews(shares: seq<Share>): (views: seq<Candidate>)
    ensures |views| == |shares|
  {
    seq(|shares|, i requires 0 <= i < |shares| => Candidate(shares[i].weight, true, 0.0))
  }

  ghost predicate Allowed(shares: seq<Share>, step: Step, least: real, most: nat) {
    && WithinBounds(step, |shares|, least, most)
    && (step.Give? ==> IsBest(shares, OpenViews(shares), step.size, step.best))
  }

  function Apply(shares: seq<Share>, step: Step): (r: seq<Share>)
    requires step.Weights? ==> |step.next| == |shares|
    requires step.Epoch? ==> |step.weights| == |shares|
    requires step.Give? ==> step.best < |shares|
    ensures |r| == |shares|
  {
    match step
    case Weights(next) => seq(|shares|, i requires 0 <= i < |shares| => Reweigh(shares[i], next[i]))
    case Epoch(weights) => seq(|shares|, i requires 0 <= i < |shares| => Rebase(shares[i], weights[i]))
    case Give(size, best) => shares[best := Charge(shares[best], size, 1)]
  }

  ghost predicate Weighted(shares: seq<Share>, least: real) {
    least > 0.0 && forall i | 0 <= i < |shares| :: shares[i].weight >= least
  }

  /** No leg's finish is ahead of another's by more than `bound`. */
  ghost predicate Lag(shares: seq<Share>, bound: real)
    requires forall i | 0 <= i < |shares| :: shares[i].weight > 0.0
  {
    forall i, j | 0 <= i < |shares| && 0 <= j < |shares| ::
      Finish(shares[i], shares[i].weight) <= Finish(shares[j], shares[j].weight) + bound
  }

  lemma QuotientBound(size: nat, most: nat, weight: real, least: real)
    requires size <= most && 0.0 < least <= weight
    ensures 0.0 <= size as real / weight <= most as real / least
  {
    var a, b := size as real / weight, most as real / least;
    assert a * weight == size as real && b * least == most as real;
    assert a * (weight - least) >= 0.0;
    assert (b - a) * least >= 0.0;
  }

  lemma ScoreIsFinish(s: Share, weight: real, size: nat)
    requires weight > 0.0
    ensures Score(s, weight, size, 0.0) == Finish(s, weight) + size as real / weight
    ensures Finish(Charge(s, size, 1), weight) == Score(s, weight, size, 0.0)
  {
  }

  lemma GiveKeepsLag(shares: seq<Share>, size: nat, best: nat, least: real, most: nat)
    requires Weighted(shares, least) && Lag(shares, most as real / least)
    requires Allowed(shares, Give(size, best), least, most)
    ensures Lag(Apply(shares, Give(size, best)), most as real / least)
  {
    var bound := most as real / least;
    var after := Apply(shares, Give(size, best));
    var views := OpenViews(shares);
    forall i, j | 0 <= i < |after| && 0 <= j < |after|
      ensures Finish(after[i], after[i].weight) <= Finish(after[j], after[j].weight) + bound
    {
      var w := shares[j].weight;
      QuotientBound(size, most, w, least);
      QuotientBound(size, most, shares[best].weight, least);
      ScoreIsFinish(shares[j], w, size);
      ScoreIsFinish(shares[best], shares[best].weight, size);
      assert Usable(views[j]);
      assert Score(shares[best], views[best].weight, size, views[best].penalty)
             <= Score(shares[j], views[j].weight, size, views[j].penalty);
      assert Finish(shares[i], shares[i].weight) <= Finish(shares[j], shares[j].weight) + bound;
    }
  }

  lemma StepKeepsLag(shares: seq<Share>, step: Step, least: real, most: nat)
    requires Weighted(shares, least) && Lag(shares, most as real / least) && Allowed(shares, step, least, most)
    ensures Weighted(Apply(shares, step), least)
    ensures Lag(Apply(shares, step), most as real / least)
  {
    var after := Apply(shares, step);
    match step
    case Weights(next) =>
      forall i | 0 <= i < |shares|
        ensures after[i].weight == next[i] && Finish(after[i], after[i].weight) == Finish(shares[i], shares[i].weight)
      {
        ReweighKeepsFinish(shares[i], next[i]);
      }
      assert forall i, j | 0 <= i < |shares| && 0 <= j < |shares| ::
          Finish(shares[i], shares[i].weight) <= Finish(shares[j], shares[j].weight) + most as real / least;
    case Epoch(weights) =>
      QuotientBound(0, most, least, least);
      forall i | 0 <= i < |shares|
        ensures after[i].weight == weights[i] && Finish(after[i], after[i].weight) == 0.0
      {
        RebaseZeroes(shares[i], weights[i]);
      }
    case Give(size, best) => GiveKeepsLag(shares, size, best, least, most);
  }

  ghost function Exec(shares: seq<Share>, steps: seq<Step>, least: real, most: nat): Option<seq<Share>> {
    if steps == [] then Some(shares)
    else
      var mid := Exec(shares, steps[..|steps| - 1], least, most);
      if mid.None? || !Allowed(mid.value, steps[|steps| - 1], least, most) then None
      else Some(Apply(mid.value, steps[|steps| - 1]))
  }

  /** Over any run of assignments, weight changes and epochs with every leg selectable, no leg's
      finish ever leads another's by more than the largest payload over the least weight. */
  lemma {:induction false} LagBound(shares: seq<Share>, steps: seq<Step>, least: real, most: nat)
    requires Weighted(shares, least) && Lag(shares, most as real / least) && Exec(shares, steps, least, most).Some?
    ensures var end := Exec(shares, steps, least, most).value;
            Weighted(end, least) && Lag(end, most as real / least)
    decreases |steps|
  {
    if steps != [] {
      var before := steps[..|steps| - 1];
      LagBound(shares, before, least, most);
      StepKeepsLag(Exec(shares, before, least, most).value, steps[|steps| - 1], least, most);
    }
  }

  predicate OnlyGives(steps: seq<Step>) {
    forall i | 0 <= i < |steps| :: steps[i].Give?
  }

  /** Assignments move no weight and no origin. */
  lemma {:induction false} GivesKeepOrigins(shares: seq<Share>, steps: seq<Step>, least: real, most: nat)
    requires Exec(shares, steps, least, most).Some? && OnlyGives(steps)
    ensures var end := Exec(shares, steps, least, most).value;
            && |end| == |shares|
            && (forall i | 0 <= i < |end| :: end[i].origin == shares[i].origin && end[i].weight == shares[i].weight)
    decreases |steps|
  {
    if steps != [] {
      GivesKeepOrigins(shares, steps[..|steps| - 1], least, most);
    }
  }

  /** Since the start of an epoch, the bytes two legs have gained per unit of weight differ by at
      most one largest payload over the least weight. */
  lemma FairSinceEpoch(shares: seq<Share>, weights: seq<real>, steps: seq<Step>, least: real, most: nat,
                       i: nat, j: nat)
    requires least > 0.0 && WithinBounds(Epoch(weights), |shares|, least, most) && OnlyGives(steps)
    requires Exec(Apply(shares, Epoch(weights)), steps, least, most).Some? && i < |shares| && j < |shares|
    ensures var end := Exec(Apply(shares, Epoch(weights)), steps, least, most).value;
            && |end| == |shares|
            && (end[i].service - shares[i].service) as real / weights[i]
               <= (end[j].service - shares[j].service) as real / weights[j] + most as real / least
  {
    var start := Apply(shares, Epoch(weights));
    QuotientBound(0, most, least, least);
    forall k | 0 <= k < |shares|
      ensures start[k].weight == weights[k] && Finish(start[k], weights[k]) == 0.0
    {
      RebaseZeroes(shares[k], weights[k]);
    }
    LagBound(start, steps, least, most);
    GivesKeepOrigins(start, steps, least, most);
    var end := Exec(start, steps, least, most).value;
    GainIsFinish(shares[i], weights[i], end[i]);
    GainIsFinish(shares[j], weights[j], end[j]);
  }

  lemma GainIsFinish(s: Share, weight: real, end: Share)
    requires weight > 0.0 && end.origin == Rebase(s, weight).origin && end.weight == weight
    ensures Finish(end, weight) == (end.service - s.service) as real / weight
  {
  }

  // ------------------------------------------------------------------------ one assignment

  /** One leg as a call finds it: whether it is attached, its weight, whether it may own records or
      take this one, and its path penalty. */
  datatype View = View(present: bool, weight: real, allowed: bool, selectable: bool, penalty: real)

  predicate Member(v: View) {
    v.allowed || v.selectable
  }

  function CandidateOf(v: View): Candidate {
    Candidate(v.weight, v.present && v.selectable, v.penalty)
  }

  function Candidates(views: seq<View>): (r: seq<Candidate>)
    ensures |r| == |views|
  {
    seq(|views|, i requires 0 <= i < |views| => CandidateOf(views[i]))
  }

  /** An attached leg has joined or left since the last epoch. */
  predicate MembershipChanged(ready: seq<bool>, views: seq<View>)
    requires |ready| == |views|
  {
    exists i | 0 <= i < |views| :: views[i].present && Member(views[i]) != ready[i]
  }

  function Epoched(s: Share, v: View): Share {
    if v.present then Rebase(s, v.weight) else s
  }

  function Reweighed(s: Share, v: View): Share {
    if v.present then Reweigh(s, v.weight) else s
  }

  /** One leg before the choice: a new epoch if the membership changed, then the weight update. */
  function Prepared(s: Share, v: View, epoch: bool, capacity: bool): Share {
    var based := if epoch then Epoched(s, v) else s;
    if capacity then Reweighed(based, v) else based
  }

  function PreparedAll(shares: seq<Share>, views: seq<View>, epoch: bool, capacity: bool): (r: seq<Share>)
    requires |views| == |shares|
    ensures |r| == |shares|
  {
    seq(|shares|, i requires 0 <= i < |shares| => Prepared(shares[i], views[i], epoch, capacity))
  }

  /** A record's owner. `charged` is history: the leg whose service carries the record. */
  datatype Assignment = Assignment(size: nat, owner: Option<nat>, admitted: bool, charged: Option<nat>)

  /** Moves a record to `best`: a record already admitted moves without accounting. */
  function Settle(shares: seq<Share>, a: Assignment, best: nat): (seq<Share>, Assignment)
    requires best < |shares| && (a.owner.Some? ==> a.owner.value < |shares|)
  {
    if a.admitted then (shares, a.(owner := Some(best)))
    else if a.owner == Some(best) then (shares, a)
    else
      var released := if a.owner.Some? then shares[a.owner.value := Charge(shares[a.owner.value], -(a.size as int),
          -1)] else shares;
      (released[best := Charge(released[best], a.size, 1)], a.(owner := Some(best), charged := Some(best)))
  }

  function ChargedBytes(leg: nat): Assignment -> nat {
    (a: Assignment) => if a.charged == Some(leg) then a.size else 0
  }

  function ChargedRecords(leg: nat): Assignment -> nat {
    (a: Assignment) => if a.charged == Some(leg) then 1 else 0
  }

  ghost predicate OwnerTrue(legs: nat, a: Assignment) {
    && (a.owner.Some? ==> a.owner.value < legs)
    && (!a.admitted ==> a.owner == a.charged)
  }

  /** Every leg's service and record count are those of the records charged to it. */
  ghost predicate Accounts(shares: seq<Share>, table: map<nat, Assignment>) {
    && (forall r <- table :: OwnerTrue(|shares|, table[r]))
    && (forall leg | 0 <= leg < |shares| ::
          && shares[leg].service == MapSum(table, ChargedBytes(leg))
          && shares[leg].records == MapSum(table, ChargedRecords(leg)))
  }

  /** Neither rebase touches what has been charged. */
  lemma PreparedKeepsAccounts(s: Share, v: View, epoch: bool, capacity: bool)
    ensures Prepared(s, v, epoch, capacity).service == s.service && Prepared(s, v, epoch, capacity).records == s.records
  {
  }

  lemma AccountsFrame(shares: seq<Share>, after: seq<Share>, table: map<nat, Assignment>)
    requires Accounts(shares, table) && |after| == |shares|
    requires forall i | 0 <= i < |shares| ::
               after[i].service == shares[i].service && after[i].records == shares[i].records
    ensures Accounts(after, table)
  {
  }

  /** An assignment, a reassignment and a move of an admitted record all keep the accounts. */
  lemma SettleKeepsAccounts(shares: seq<Share>, table: map<nat, Assignment>, r: nat, best: nat)
    requires Accounts(shares, table) && r in table && best < |shares|
    ensures var (after, a) := Settle(shares, table[r], best); Accounts(after, table[r := a])
  {
    var (after, a) := Settle(shares, table[r], best);
    assert OwnerTrue(|shares|, table[r]);
    forall leg: nat | leg < |shares|
      ensures after[leg].service == MapSum(table[r := a], ChargedBytes(leg))
      ensures after[leg].records == MapSum(table[r := a], ChargedRecords(leg))
    {
      MapSumRemove(table, ChargedBytes(leg), r);
      MapSumUpdate(table, ChargedBytes(leg), r, a);
      MapSumRemove(table, ChargedRecords(leg), r);
      MapSumUpdate(table, ChargedRecords(leg), r, a);
    }
  }

  /** So the unsigned subtraction on reassignment never wraps. */
  lemma ReleaseNeverUnderflows(shares: seq<Share>, table: map<nat, Assignment>, r: nat)
    requires Accounts(shares, table) && r in table && !table[r].admitted && table[r].owner.Some?
    ensures var owner := table[r].owner.value;
            owner < |shares| && shares[owner].service >= table[r].size && shares[owner].records >= 1
  {
    assert OwnerTrue(|shares|, table[r]);
    MapSumRemove(table, ChargedBytes(table[r].owner.value), r);
    MapSumRemove(table, ChargedRecords(table[r].owner.value), r);
  }

  /** With every leg attached, selectable and unpenalized, a call on a fresh record is a run of the
      steps the lag bound speaks of: an epoch if due, the weight update, and the gift to the best. */
  lemma CallIsSteps(shares: seq<Share>, views: seq<View>, epoch: bool, size: nat, best: nat)
    requires |views| == |shares|
    requires forall i | 0 <= i < |views| :: views[i].present && views[i].selectable && views[i].penalty == 0.0
    ensures var weights := WeightsOf(views);
            var based := if epoch then Apply(shares, Epoch(weights)) else shares;
            var ready := PreparedAll(shares, views, epoch, true);
            && ready == Apply(based, Weights(weights))
            && Candidates(views) == OpenViews(ready)
            && (best < |shares| ==>
                  Settle(ready, Assignment(size, None, false, None), best).0 == Apply(ready, Give(size, best)))
  {
    var ready := PreparedAll(shares, views, epoch, true);
    assert forall i | 0 <= i < |views| :: ready[i].weight == views[i].weight;
    assert forall i | 0 <= i < |views| :: Candidates(views)[i] == OpenViews(ready)[i];
  }

  // ------------------------------------------------------------------------ many assignments

  predicate NoneUsable(views: seq<Candidate>) {
    forall j | 0 <= j < |views| :: !Usable(views[j])
  }

  /** One call that does not simply keep the owner: the legs are prepared; then no leg is returned
      exactly when none is usable or the record has gone before it was admitted, and otherwise the
      best one is, and the record moves to it. */
  ghost predicate Assigns(shares: seq<Share>, ready: seq<bool>, epochMode: bool, capacityMode: bool, views: seq<View>,
                          a: Assignment, outstanding: bool, best: Option<nat>, after: seq<Share>, b: Assignment)
    requires |ready| == |views| == |shares|
  {
    var before := PreparedAll(shares, views, epochMode && MembershipChanged(ready, views), capacityMode);
    && (best.None? <==> (!a.admitted && !outstanding) || NoneUsable(Candidates(views)))
    && (best.None? ==> after == before && b == a)
    && (best.Some? ==>
          && IsBest(before, Candidates(views), a.size, best.value)
          && (a.owner.Some? ==> a.owner.value < |before|)
          && (after, b) == Settle(before, a, best.value))
  }

  /** Every leg is attached, selectable and unpenalized, with at least the least weight. */
  ghost predicate AllOpen(views: seq<View>, least: real) {
    forall i | 0 <= i < |views| ::
      views[i].present && views[i].selectable && views[i].penalty == 0.0 && views[i].weight >= least
  }

  /** Nothing charged yet, or charged so far within the lag bound. */
  ghost predicate Even(shares: seq<Share>, least: real, most: nat) {
    || (forall i | 0 <= i < |shares| :: shares[i].service == 0 && shares[i].origin == 0.0 && shares[i].weight == 0.0)
    || (Weighted(shares, least) && Lag(shares, most as real / least))
  }

  function WeightsOf(views: seq<View>): (r: seq<real>)
    ensures |r| == |views|
  {
    seq(|views|, i requires 0 <= i < |views| => views[i].weight)
  }

  lemma PrepareKeepsLag(shares: seq<Share>, views: seq<View>, epoch: bool, least: real, most: nat)
    requires |views| == |shares| && least > 0.0 && AllOpen(views, least) && Even(shares, least, most)
    ensures var ready := PreparedAll(shares, views, epoch, true);
            Weighted(ready, least) && Lag(ready, most as real / least)
  {
    var ready := PreparedAll(shares, views, epoch, true);
    if Weighted(shares, least) && Lag(shares, most as real / least) {
      CallIsSteps(shares, views, epoch, 0, 0);
      var based := if epoch then Apply(shares, Epoch(WeightsOf(views))) else shares;
      if epoch {
        StepKeepsLag(shares, Epoch(WeightsOf(views)), least, most);
      }
      StepKeepsLag(based, Weights(WeightsOf(views)), least, most);
    } else {
      QuotientBound(0, most, least, least);
      forall i | 0 <= i < |ready|
        ensures ready[i].weight == views[i].weight && Finish(ready[i], ready[i].weight) == 0.0
      {
      }
    }
  }

  /** A call of Assign that moves no unadmitted record away from another owner keeps the lag bound. */
  lemma AssignKeepsLag(shares: seq<Share>, ready: seq<bool>, epochMode: bool, views: seq<View>, a: Assignment,
                       outstanding: bool, best: Option<nat>, after: seq<Share>, b: Assignment, least: real, most: nat)
    requires |ready| == |views| == |shares| && least > 0.0 && AllOpen(views, least) && Even(shares, least, most)
    requires Assigns(shares, ready, epochMode, true, views, a, outstanding, best, after, b)
    requires a.size <= most && (a.owner.None? || a.admitted || a.owner == best)
    ensures Weighted(after, least) && Lag(after, most as real / least)
  {
    var epoch := epochMode && MembershipChanged(ready, views);
    var before := PreparedAll(shares, views, epoch, true);
    PrepareKeepsLag(shares, views, epoch, least, most);
    if best.Some? && !a.admitted && a.owner.None? {
      CallIsSteps(shares, views, epoch, a.size, best.value);
      assert after == Apply(before, Give(a.size, best.value));
      StepKeepsLag(before, Give(a.size, best.value), least, most);
    }
  }

  /** The new epoch a graduated leg starts between calls. */
  function EpochedAll(shares: seq<Share>, views: seq<View>): (r: seq<Share>)
    requires |views| == |shares|
    ensures |r| == |shares|
  {
    seq(|shares|, i requires 0 <= i < |shares| => Epoched(shares[i], views[i]))
  }

  /** Whatever went before, an epoch starts all legs level. */
  lemma EpochLevels(shares: seq<Share>, views: seq<View>, least: real, most: nat)
    requires |views| == |shares| && least > 0.0 && AllOpen(views, least)
    ensures var after := EpochedAll(shares, views); Weighted(after, least) && Lag(after, most as real / least)
  {
    QuotientBound(0, most, least, least);
    forall i | 0 <= i < |shares|
      ensures var s := EpochedAll(shares, views)[i]; s.weight == views[i].weight && Finish(s, s.weight) == 0.0
    {
      RebaseZeroes(shares[i], views[i].weight);
    }
  }

  /** One call, or one graduation, as a trace records it. */
  datatype Called =
    | Called(ready: seq<bool>, views: seq<View>, a: Assignment, outstanding: bool, best: Option<nat>,
             after: seq<Share>, b: Assignment)
    | Graduated(views: seq<View>, after: seq<Share>)

  ghost predicate Follows(shares: seq<Share>, c: Called, epochMode: bool, least: real, most: nat) {
    && |c.views| == |shares| && AllOpen(c.views, least)
    && match c
       case Graduated(views, after) => after == EpochedAll(shares, views)
       case Called(ready, views, a, outstanding, best, after, b) =>
         && |ready| == |shares| && Assigns(shares, ready, epochMode, true, views, a, outstanding, best, after, b)
         && a.size <= most && (a.owner.None? || a.admitted || a.owner == best)
  }

  ghost predicate Trace(shares: seq<Share>, calls: seq<Called>, epochMode: bool, least: real, most: nat) {
    calls != [] ==>
      var before := calls[..|calls| - 1];
      Trace(shares, before, epochMode, least, most)
      && Follows(LastShares(shares, before), calls[|calls| - 1], epochMode, least, most)
  }

  function LastShares(shares: seq<Share>, calls: seq<Called>): seq<Share> {
    if calls == [] then shares else calls[|calls| - 1].after
  }

  /** Over any sequence of such calls, from a fresh scheduler on, with whatever weights and epochs each
      call brings and graduations start between them: no leg's finish leads another's by more than the
      largest payload over the least weight. */
  lemma {:induction false} CallsKeepLag(shares: seq<Share>, calls: seq<Called>, epochMode: bool, least: real, most: nat)
    requires least > 0.0 && Even(shares, least, most) && Trace(shares, calls, epochMode, least, most) && calls != []
    ensures var end := LastShares(shares, calls);
            Weighted(end, least) && Lag(end, most as real / least)
    decreases |calls|
  {
    var before, c := calls[..|calls| - 1], calls[|calls| - 1];
    if before != [] {
      CallsKeepLag(shares, before, epochMode, least, most);
    }
    var start := LastShares(shares, before);
    match c
    case Graduated(views, after) => EpochLevels(start, views, least, most);
    case Called(ready, views, a, outstanding, best, after, b) =>
      AssignKeepsLag(start, ready, epochMode, views, a, outstanding, best, after, b, least, most);
  }

  // --------------------------------------------------------------------------- the object

  class Scheduler {
    const epochMode: bool
    const capacityMode: bool
    var shares: seq<Share>
    var ready: seq<bool>
    var table: map<nat, Assignment>

    ghost predicate Valid()
      reads this
    {
      |ready| == |shares| && Accounts(shares, table)
    }

    constructor (legs: nat, epochMode: bool, capacityMode: bool)
      ensures Valid() && |shares| == legs && table == map[]
      ensures this.epochMode == epochMode && this.capacityMode == capacityMode
      ensures forall i | 0 <= i < legs :: shares[i] == Share(0, 0, 0.0, 0.0) && !ready[i]
    {
      this.epochMode, this.capacityMode := epochMode, capacityMode;
      shares := seq(legs, i => Share(0, 0, 0.0, 0.0));
      ready := seq(legs, i => false);
      table := map[];
    }

    /** A record enters the table without an owner. */
    method Track(record: nat, size: nat)
      requires Valid() && record !in table
      modifies this
      ensures Valid() && shares == old(shares) && table == old(table)[record := Assignment(size, None, false, None)]
    {
      ghost var fresh_ := Assignment(size, None, false, None);
      forall leg: nat | leg < |shares|
        ensures MapSum(table[record := fresh_], ChargedBytes(leg)) == MapSum(table, ChargedBytes(leg))
        ensures MapSum(table[record := fresh_], ChargedRecords(leg)) == MapSum(table, ChargedRecords(leg))
      {
        MapSumAbsent(table, ChargedBytes(leg), record);
        MapSumUpdate(table, ChargedBytes(leg), record, fresh_);
        MapSumUpdate(table, ChargedRecords(leg), record, fresh_);
      }
      table := table[record := Assignment(size, None, false, None)];
    }

    /** The record has reached its owner's queue. */
    method MarkAdmitted(record: nat)
      requires Valid() && record in table
      modifies this
      ensures Valid() && shares == old(shares)
      ensures table == old(table)[record := old(table)[record].(admitted := true)]
    {
      ghost var a := table[record].(admitted := true);
      assert OwnerTrue(|shares|, table[record]);
      forall leg: nat | leg < |shares|
        ensures MapSum(table[record := a], ChargedBytes(leg)) == MapSum(table, ChargedBytes(leg))
        ensures MapSum(table[record := a], ChargedRecords(leg)) == MapSum(table, ChargedRecords(leg))
      {
        MapSumRemove(table, ChargedBytes(leg), record);
        MapSumUpdate(table, ChargedBytes(leg), record, a);
        MapSumRemove(table, ChargedRecords(leg), record);
        MapSumUpdate(table, ChargedRecords(leg), record, a);
      }
      table := table[record := table[record].(admitted := true)];
    }

    /** assignBenchmark. `ownerStands` says that the present owner is open and may keep the record;
        `outstanding` that the ledger still knows it. */
    method Assign(record: nat, views: seq<View>, ownerStands: bool, outstanding: bool) returns (best: Option<nat>)
      requires Valid() && record in table && |views| == |shares|
      modifies this
      ensures Valid()
      ensures old(table[record].owner).Some? && ownerStands ==>
                best == old(table[record].owner) && shares == old(shares) && table == old(table)
      ensures !(old(table[record].owner).Some? && ownerStands) ==>
                && record in table && table == old(table)[record := table[record]]
                && Assigns(old(shares), old(ready), epochMode, capacityMode, views, old(table[record]), outstanding,
                           best, shares, table[record])
    {
      var a := table[record];
      if a.owner.Some? && ownerStands {
        return a.owner;
      }
      Prepare(views);
      best := Choose(shares, Candidates(views), a.size);
      if best.None? || (!a.admitted && !outstanding) {
        return None;
      }
      Move(record, best.value);
    }

    /** Hands a record to a leg, with the accounting that goes with it. */
    method Move(record: nat, best: nat)
      requires Valid() && record in table && best < |shares|
      modifies this
      ensures Valid() && ready == old(ready)
      ensures old(table[record]).owner.Some? ==> old(table[record]).owner.value < |old(shares)|
      ensures var (after, a) := Settle(old(shares), old(table[record]), best);
              shares == after && table == old(table)[record := a]
    {
      var a := table[record];
      assert OwnerTrue(|shares|, table[record]);
      SettleKeepsAccounts(shares, table, record, best);
      if a.admitted {
        table := table[record := a.(owner := Some(best))];
      } else if a.owner == Some(best) {
        assert table[record := a] == table;
      } else {
        if a.owner.Some? {
          shares := shares[a.owner.value := Charge(shares[a.owner.value], -(a.size as int), -1)];
        }
        shares := shares[best := Charge(shares[best], a.size, 1)];
        table := table[record := a.(owner := Some(best), charged := Some(best))];
      }
    }

    /** The end of admissionACK when a leg has graduated: a new epoch, with nothing charged or released. */
    method StartEpoch(views: seq<View>)
      requires Valid() && |views| == |shares|
      modifies this
      ensures Valid() && table == old(table) && ready == old(ready) && shares == EpochedAll(old(shares), views)
    {
      var after := PrepareShares(shares, views, true, false);
      AccountsFrame(shares, after, table);
      shares := after;
    }

    method Prepare(views: seq<View>)
      requires Valid() && |views| == |shares|
      modifies this
      ensures Valid() && table == old(table)
      ensures shares == PreparedAll(old(shares), views, epochMode && MembershipChanged(old(ready), views), capacityMode)
    {
      var changed := HasChanged(ready, views);
      var after := PrepareShares(shares, views, epochMode && changed, capacityMode);
      forall i | 0 <= i < |shares|
        ensures after[i].service == shares[i].service && after[i].records == shares[i].records
      {
        PreparedKeepsAccounts(shares[i], views[i], epochMode && changed, capacityMode);
      }
      AccountsFrame(shares, after, table);
      if epochMode && changed {
        ready := seq(|views|, i requires 0 <= i < |views| && |ready| == |views| reads this =>
                       if views[i].present then Member(views[i]) else ready[i]);
      }
      shares := after;
    }
  }

  method PrepareShares(shares: seq<Share>, views: seq<View>, epoch: bool, capacity: bool) returns (after: seq<Share>)
    requires |views| == |shares|
    ensures after == PreparedAll(shares, views, epoch, capacity)
  {
    after := [];
    for i := 0 to |views|
      invariant |after| == i && forall j | 0 <= j < i :: after[j] == Prepared(shares[j], views[j], epoch, capacity)
    {
      var s := shares[i];
      if views[i].present {
        if epoch && views[i].weight > 0.0 {
          s := s.(origin := s.service as real / views[i].weight, weight := views[i].weight);
        }
        if capacity {
          s := Reweigh(s, views[i].weight);
        }
      }
      after := after + [s];
    }
  }

  method HasChanged(ready: seq<bool>, views: seq<View>) returns (changed: bool)
    requires |ready| == |views|
    ensures changed <==> MembershipChanged(ready, views)
  {
    changed := false;
    for i := 0 to |views|
      invariant changed <==> exists j | 0 <= j < i :: views[j].present && Member(views[j]) != ready[j]
    {
      if views[i].present && Member(views[i]) != ready[i] {
        changed := true;
      }
    }
  }
}

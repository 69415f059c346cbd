/** Retry and repair planning over the ledger's outstanding records (core/stream_repair.go). */
module Repair {
  import opened Prelude
  import opened Sorting
  import opened StreamTx

  const BATCH := 8

  // ------------------------------------------------------------------ ordinary retries

  /** A record to send again, and the leg to stay away from, if any. */
  datatype Candidate = Candidate(sequence: nat, avoid: Option<LegId>)

  /** Nobody holds the record and it was not last sent on a live leg. */
  predicate NeedsRetry(r: Record, live: set<LegId>) {
    && !r.localEnqueue && r.transit.None? && r.rescue.None?
    && (r.lastSentLeg.None? || r.lastSentLeg.value !in live)
  }

  function SequenceOf(c: Candidate): int {
    c.sequence
  }

  /** The plan lists exactly the records that need a retry, once each, lowest first. */
  ghost predicate IsRetryPlan(plan: seq<Candidate>, outstanding: map<nat, Record>, live: set<LegId>) {
    && (forall i, j | 0 <= i < j < |plan| :: plan[i].sequence < plan[j].sequence)
    && (forall c :: c in plan <==> c.sequence in outstanding && NeedsRetry(outstanding[c.sequence], live)
                                    && c.avoid == outstanding[c.sequence].lastSentLeg)
  }

  method PlanRetries(outstanding: map<nat, Record>, live: set<LegId>) returns (plan: seq<Candidate>)
    ensures IsRetryPlan(plan, outstanding, live)
  {
    var found := CollectRetries(outstanding, live);
    plan := Sorted(found, SequenceOf);
    SortAscends(found, SequenceOf);
    SortPermutes(found, SequenceOf);
    forall c
      ensures c in plan <==> c in found
    {
      assert c in plan <==> c in multiset(plan);
      assert c in found <==> c in multiset(found);
    }
    PlanDistinct(found, plan);
  }

  /** Visits the outstanding records in an arbitrary order. */
  method CollectRetries(outstanding: map<nat, Record>, live: set<LegId>) returns (found: seq<Candidate>)
    ensures forall c :: c in found <==> c.sequence in outstanding && NeedsRetry(outstanding[c.sequence], live)
                                        && c.avoid == outstanding[c.sequence].lastSentLeg
    ensures Unrepeated(found)
  {
    found := [];
    var todo := outstanding.Keys;
    while todo != {}
      invariant todo <= outstanding.Keys
      invariant forall c :: c in found <==> c.sequence in outstanding && c.sequence !in todo
                                            && NeedsRetry(outstanding[c.sequence], live)
                                            && c.avoid == outstanding[c.sequence].lastSentLeg
      invariant Unrepeated(found)
      decreases |todo|
    {
      var s :| s in todo;
      todo := todo - {s};
      var r := outstanding[s];
      if r.localEnqueue || r.transit.Some? || r.rescue.Some? {
        continue;
      }
      if r.lastSentLeg.None? {
        found := Append(found, Candidate(s, None));
      } else if r.lastSentLeg.value !in live {
        found := Append(found, Candidate(s, r.lastSentLeg));
      }
    }
  }

  ghost predicate Unrepeated(found: seq<Candidate>) {
    forall i, j | 0 <= i < j < |found| :: found[i].sequence != found[j].sequence
  }

  method Append(found: seq<Candidate>, c: Candidate) returns (more: seq<Candidate>)
    requires Unrepeated(found) && forall d <- found :: d.sequence != c.sequence
    ensures more == found + [c] && Unrepeated(more) && forall d :: d in more <==> d in found || d == c
  {
    more := found + [c];
  }

  /** Distinct elements stay distinct when sorted, so ascending is strictly ascending. */
  lemma PlanDistinct(found: seq<Candidate>, plan: seq<Candidate>)
    requires Unrepeated(found) && multiset(plan) == multiset(found) && Ascending(plan, SequenceOf)
    ensures forall i, j | 0 <= i < j < |plan| :: plan[i].sequence < plan[j].sequence
  {
    forall i, j | 0 <= i < j < |plan|
      ensures plan[i].sequence < plan[j].sequence
    {
      assert SequenceOf(plan[i]) <= SequenceOf(plan[j]);
      if plan[i].sequence == plan[j].sequence {
        TwiceInPlan(found, plan, i, j);
        assert false;
      }
    }
  }

  lemma TwiceInPlan(found: seq<Candidate>, plan: seq<Candidate>, i: nat, j: nat)
    requires Unrepeated(found) && multiset(plan) == multiset(found) && i < j < |plan|
    ensures plan[i].sequence != plan[j].sequence
  {
    assert plan[i] in multiset(plan) && plan[j] in multiset(plan);
    var a :| 0 <= a < |found| && found[a] == plan[i];
    var b :| 0 <= b < |found| && found[b] == plan[j];
    if plan[i] == plan[j] {
      CountOne(found, a);
      CountTwo(plan, i, j);
    }
  }

  lemma CountTwo(s: seq<Candidate>, i: nat, j: nat)
    requires i < j < |s| && s[i] == s[j]
    ensures multiset(s)[s[i]] >= 2
  {
    assert s == s[..j] + s[j..];
    assert s[..j][i] == s[i] && s[i] in multiset(s[..j]);
    assert s[j..][0] == s[i] && s[i] in multiset(s[j..]);
  }

  lemma CountOne(s: seq<Candidate>, a: nat)
    requires Unrepeated(s) && a < |s|
    ensures multiset(s)[s[a]] == 1
  {
    var x := s[a];
    assert s == s[..a] + [x] + s[a + 1..];
    assert x !in s[..a] && x !in s[a + 1..];
    assert multiset(s) == multiset(s[..a]) + multiset([x]) + multiset(s[a + 1..]);
    assert x !in multiset(s[..a]) && x !in multiset(s[a + 1..]);
  }

  // -------------------------------------------------------------------- frontier repair

  /** `owner` is the leg of the frontier's newest attempt, if any. */
  datatype Frontier = Frontier(sequence: nat, owner: Option<LegId>, overdue: bool, rescueInTransit: bool)

  /** `avoid` is a leg, or -1 for none. */
  datatype Plan = NoRepair | Rescue(sequence: nat, avoid: int)

  function FirstLive(live: set<LegId>, from: nat): Option<LegId>
    decreases MAX_LEG_IDS - from
  {
    if from >= MAX_LEG_IDS then None else if from in live then Some(from) else FirstLive(live, from + 1)
  }

  /** DecideStreamTXFrontierRepair: with one live leg the frontier is repaired on that leg. */
  function DecideRepair(candidate: Option<Frontier>, live: set<LegId>): Plan {
    if candidate.None? || candidate.value.rescueInTransit || !candidate.value.overdue || |live| == 0 then NoRepair
    else if |live| == 1 && FirstLive(live, 0).Some? then Rescue(candidate.value.sequence, FirstLive(live, 0).value - 1)
    else if candidate.value.owner.None? || candidate.value.owner.value !in live then NoRepair
    else Rescue(candidate.value.sequence, candidate.value.owner.value)
  }

  lemma {:induction false} FirstLiveFound(live: set<LegId>, from: nat, leg: LegId)
    requires leg in live && from <= leg
    ensures FirstLive(live, from).Some? && FirstLive(live, from).value in live
    decreases MAX_LEG_IDS - from
  {
    if from !in live {
      FirstLiveFound(live, from + 1, leg);
    }
  }

  /** An overdue frontier nobody is rescuing is repaired exactly when one leg is live, or its
      own leg is live among others; and a live leg other than the avoided one then exists. */
  lemma RepairWhen(candidate: Option<Frontier>, live: set<LegId>)
    ensures DecideRepair(candidate, live).Rescue? <==>
              && candidate.Some? && candidate.value.overdue && !candidate.value.rescueInTransit
              && (|live| == 1 || (candidate.value.owner.Some? && candidate.value.owner.value in live))
    ensures DecideRepair(candidate, live).Rescue? ==>
              && DecideRepair(candidate, live).sequence == candidate.value.sequence
              && (|live| > 1 ==> candidate.value.owner == Some(DecideRepair(candidate, live).avoid))
              && exists leg :: leg in live && leg != DecideRepair(candidate, live).avoid
  {
    if live != {} {
      var leg :| leg in live;
      FirstLiveFound(live, 0, leg);
      var plan := DecideRepair(candidate, live);
      if plan.Rescue? && |live| == 1 {
        assert FirstLive(live, 0).value in live;
      } else if plan.Rescue? && plan.avoid in live {
        assert |live - {plan.avoid}| > 0;
        var other :| other in live - {plan.avoid};
      }
    }
  }

  // ------------------------------------------------------------ restricted owner's batch

  /** Of the set `all`, the `n` lowest in ascending order, or all of them. */
  ghost predicate IsLowest(all: set<nat>, low: seq<nat>, n: nat) {
    && Rising(low)
    && |low| == Min(n, |all|)
    && (forall x <- low :: x in all)
    && (forall x <- all | x !in low :: forall y <- low :: y < x)
  }

  ghost predicate Rising(s: seq<nat>) {
    forall i, j | 0 <= i < j < |s| :: s[i] < s[j]
  }

  function First(s: seq<nat>, n: nat): seq<nat> {
    if |s| > n then s[..n] else s
  }

  /** There is only one such list, whatever the order in which the set was visited. */
  lemma LowestIsUnique(all: set<nat>, a: seq<nat>, b: seq<nat>, n: nat)
    requires IsLowest(all, a, n) && IsLowest(all, b, n)
    ensures a == b
  {
    forall i | 0 <= i < |a|
      ensures a[i] == b[i]
    {
      LowestAgree(all, a, b, n, i);
    }
  }

  lemma {:induction false} LowestAgree(all: set<nat>, a: seq<nat>, b: seq<nat>, n: nat, i: nat)
    requires IsLowest(all, a, n) && IsLowest(all, b, n) && i < |a|
    ensures a[i] == b[i]
  {
    forall k | 0 <= k < i
      ensures a[k] == b[k]
    {
      LowestAgree(all, a, b, n, k);
    }
    if a[i] < b[i] {
      NotBelow(all, b, n, i, a[i]);
      assert false;
    } else if b[i] < a[i] {
      NotBelow(all, a, n, i, b[i]);
      assert false;
    }
  }

  /** A member below the i-th lowest is one of the earlier ones. */
  lemma NotBelow(all: set<nat>, low: seq<nat>, n: nat, i: nat, x: nat)
    requires IsLowest(all, low, n) && i < |low| && x in all && x < low[i]
    ensures exists k :: 0 <= k < i && low[k] == x
  {
    assert x in low by {
      assert low[i] in low;
    }
    var k :| 0 <= k < |low| && low[k] == x;
    assert k < i;
  }

  function Place(s: seq<nat>, at: nat, x: nat): seq<nat>
    requires at <= |s|
  {
    s[..at] + [x] + s[at..]
  }

  /** One more member, put where it belongs and cut back to `n`, leaves the lowest again. */
  lemma PlaceKeepsLowest(all: set<nat>, low: seq<nat>, n: nat, at: nat, x: nat)
    requires IsLowest(all, low, n) && x !in all && at <= |low|
    requires (forall i | 0 <= i < at :: low[i] < x) && (at < |low| ==> low[at] >= x)
    ensures IsLowest(all + {x}, First(Place(low, at, x), n), n)
  {
    assert forall i | at <= i < |low| :: low[i] in low && low[i] > x;
    PlaceRises(low, at, x);
    PlaceMembers(low, at, x);
    forall z <- all + {x}, y <- First(Place(low, at, x), n) | z !in First(Place(low, at, x), n)
      ensures y < z
    {
      PlaceBelow(all, low, n, at, x, y, z);
    }
  }

  /** Everything left out is above everything kept. */
  lemma PlaceBelow(all: set<nat>, low: seq<nat>, n: nat, at: nat, x: nat, y: nat, z: nat)
    requires IsLowest(all, low, n) && x !in all && at <= |low|
    requires forall i | at <= i < |low| :: x < low[i]
    requires Rising(Place(low, at, x)) && forall v :: v in Place(low, at, x) <==> v in low || v == x
    requires y in First(Place(low, at, x), n) && z in all + {x} && z !in First(Place(low, at, x), n)
    ensures y < z
  {
    var placed := Place(low, at, x);
    if z in placed {
      CutBelow(placed, n, y, z);
    } else {
      LowestFull(all, low, n, z);
      assert y in placed;
      if y == x {
        assert at < |low| && low[at] in low;
      }
    }
  }

  lemma PlaceMembers(s: seq<nat>, at: nat, x: nat)
    requires at <= |s|
    ensures forall y :: y in Place(s, at, x) <==> y in s || y == x
  {
    assert s == s[..at] + s[at..];
  }

  lemma PlaceRises(s: seq<nat>, at: nat, x: nat)
    requires Rising(s) && at <= |s|
    requires (forall i | 0 <= i < at :: s[i] < x) && (forall i | at <= i < |s| :: x < s[i])
    ensures Rising(Place(s, at, x))
  {
  }

  lemma CutBelow(placed: seq<nat>, n: nat, y: nat, z: nat)
    requires Rising(placed) && y in First(placed, n) && z in placed && z !in First(placed, n)
    ensures y < z
  {
    var i :| 0 <= i < |First(placed, n)| && First(placed, n)[i] == y;
    var j :| 0 <= j < |placed| && placed[j] == z;
    assert placed[i] == y;
    assert j >= n;
  }

  ghost function Members(s: seq<nat>): set<nat> {
    if s == [] then {} else Members(s[..|s| - 1]) + {s[|s| - 1]}
  }

  lemma {:induction false} RisingCount(s: seq<nat>, all: set<nat>)
    requires Rising(s) && forall x <- s :: x in all
    ensures |Members(s)| == |s| && Members(s) <= all
    ensures forall y <- Members(s) :: y in s
  {
    if s != [] {
      var front, last := s[..|s| - 1], s[|s| - 1];
      RisingCount(front, all);
      assert last !in front;
    }
  }

  /** A member left out means the list is full. */
  lemma LowestFull(all: set<nat>, low: seq<nat>, n: nat, z: nat)
    requires IsLowest(all, low, n) && z in all && z !in low
    ensures |low| == n
  {
    RisingCount(low, all);
    SubsetSize(Members(low), all - {z});
  }

  /** May be copied now: owned by `owner`, old enough, not being rescued and past its cooldown. */
  predicate Eligible(r: Record, owner: LegId, now: int, cutoff: int, cooldown: int) {
    && r.ordinaryOwner == Some(owner)
    && r.createdAt <= cutoff
    && r.rescue.None?
    && (r.lastRescueAt.Some? ==> now - r.lastRescueAt.value >= cooldown)
  }

  function EligibleSet(o: map<nat, Record>, owner: LegId, now: int, cutoff: int, cooldown: int): set<nat> {
    set s | s in o && Eligible(o[s], owner, now, cutoff, cooldown)
  }

  function SizeOf(o: map<nat, Record>, s: seq<nat>): nat
    requires forall x <- s :: x in o
  {
    if s == [] then 0 else SizeOf(o, s[..|s| - 1]) + |o[s[|s| - 1]].payload|
  }

  /** The longest prefix of `low` within the byte budget, but never less than its first record. */
  ghost predicate IsBudgetPrefix(o: map<nat, Record>, low: seq<nat>, budget: int, batch: seq<nat>)
    requires forall x <- low :: x in o
  {
    && batch <= low
    && (low != [] ==> batch != [])
    && (|batch| > 1 ==> SizeOf(o, low[..|batch|]) <= budget)
    && (0 < |batch| < |low| ==> SizeOf(o, low[..|batch| + 1]) > budget)
  }

  /** Finds the place by scanning up, shifts the rest up by one and drops a ninth. */
  method InsertBounded(prefix: array<nat>, n: nat, x: nat, ghost all: set<nat>) returns (count: nat)
    requires prefix.Length == BATCH && n <= BATCH && IsLowest(all, prefix[..n], BATCH) && x !in all
    modifies prefix
    ensures count <= BATCH && IsLowest(all + {x}, prefix[..count], BATCH)
  {
    ghost var low := prefix[..n];
    var position := 0;
    while position < n && prefix[position] < x
      invariant 0 <= position <= n && forall i | 0 <= i < position :: low[i] < x
    {
      position := position + 1;
    }
    PlaceKeepsLowest(all, low, BATCH, position, x);
    if position >= BATCH {
      assert First(Place(low, position, x), BATCH) == low;
      return n;
    }
    count := if n < BATCH then n + 1 else n;
    ShiftIn(prefix, n, count, position, x);
  }

  method ShiftIn(prefix: array<nat>, n: nat, count: nat, position: nat, x: nat)
    requires prefix.Length == BATCH && position <= n <= BATCH && position < BATCH
    requires count == if n < BATCH then n + 1 else n
    modifies prefix
    ensures prefix[..count] == First(Place(old(prefix[..n]), position, x), BATCH)
  {
    var i := count - 1;
    while i > position
      invariant position <= i <= count - 1
      invariant forall k | 0 <= k <= i :: k < n ==> prefix[k] == old(prefix[k])
      invariant forall k | i < k < count :: prefix[k] == old(prefix[k - 1])
    {
      prefix[i] := prefix[i - 1];
      i := i - 1;
    }
    prefix[position] := x;
  }

  /** Visits the outstanding records in an arbitrary order, keeping the eight lowest eligible. */
  method CollectLowest(o: map<nat, Record>, owner: LegId, now: int, cutoff: int, cooldown: int)
    returns (low: seq<nat>)
    ensures IsLowest(EligibleSet(o, owner, now, cutoff, cooldown), low, BATCH)
  {
    var prefix := new nat[BATCH](i => 0);
    var n: nat := 0;
    var todo := o.Keys;
    ghost var all := EligibleSet(o, owner, now, cutoff, cooldown);
    assert all - todo == {};
    while todo != {}
      invariant todo <= o.Keys && n <= BATCH
      invariant IsLowest(all - todo, prefix[..n], BATCH)
      decreases |todo|
    {
      var s :| s in todo;
      Visited(all, todo, s);
      if Eligible(o[s], owner, now, cutoff, cooldown) {
        n := InsertBounded(prefix, n, s, all - todo);
      }
      todo := todo - {s};
    }
    assert all - todo == all;
    low := prefix[..n];
  }

  lemma Visited(all: set<nat>, todo: set<nat>, s: nat)
    requires s in todo
    ensures all - (todo - {s}) == if s in all then all - todo + {s} else all - todo
  {
  }

  method CutToBudget(o: map<nat, Record>, low: seq<nat>, budget: int) returns (batch: seq<nat>)
    requires forall x <- low :: x in o
    ensures IsBudgetPrefix(o, low, budget, batch)
  {
    var bytes, count := 0, 0;
    while count < |low|
      invariant 0 <= count <= |low| && bytes == SizeOf(o, low[..count])
      invariant count > 1 ==> bytes <= budget
    {
      var size := |o[low[count]].payload|;
      assert low[..count + 1][..count] == low[..count];
      if count > 0 && bytes + size > budget {
        break;
      }
      bytes := bytes + size;
      count := count + 1;
    }
    batch := low[..count];
  }

  /** The eight lowest of `all`, cut to the byte budget. */
  ghost predicate IsBatch(o: map<nat, Record>, all: set<nat>, budget: int, batch: seq<nat>) {
    exists low: seq<nat> ::
      IsLowest(all, low, BATCH) && (forall x <- low :: x in o) && IsBudgetPrefix(o, low, budget, batch)
  }

  /** The restricted owner's batch: nothing unless the frontier record is the ledger's oldest and
      owned by `owner`; otherwise the eight lowest eligible records, cut to the byte budget. */
  method RestrictedBatch(l: Ledger, frontier: Option<nat>, owner: LegId, now: int, cutoff: int, cooldown: int,
                         budget: int)
    returns (batch: seq<nat>)
    ensures var starts := frontier == Some(l.ackedNext) && l.ackedNext in l.outstanding
                          && l.outstanding[l.ackedNext].ordinaryOwner == Some(owner);
            && (!starts ==> batch == [])
            && (starts ==>
                  IsBatch(l.outstanding, EligibleSet(l.outstanding, owner, now, cutoff, cooldown), budget, batch))
  {
    if frontier != Some(l.ackedNext) || l.ackedNext !in l.outstanding
       || l.outstanding[l.ackedNext].ordinaryOwner != Some(owner) {
      return [];
    }
    var lowest := CollectLowest(l.outstanding, owner, now, cutoff, cooldown);
    batch := CutToBudget(l.outstanding, lowest, budget);
  }

  lemma {:induction false} SizeGrows(o: map<nat, Record>, low: seq<nat>, i: nat, j: nat)
    requires (forall x <- low :: x in o) && i <= j <= |low|
    ensures SizeOf(o, low[..i]) <= SizeOf(o, low[..j])
  {
    if i < j {
      SizeGrows(o, low, i, j - 1);
      assert low[..j][..j - 1] == low[..j - 1];
    }
  }

  lemma PrefixNotLonger(o: map<nat, Record>, low: seq<nat>, budget: int, a: seq<nat>, b: seq<nat>)
    requires forall x <- low :: x in o
    requires IsBudgetPrefix(o, low, budget, a) && IsBudgetPrefix(o, low, budget, b)
    ensures |a| >= |b|
  {
    if |a| < |b| && a != [] {
      SizeGrows(o, low, |a| + 1, |b|);
    }
  }

  lemma PrefixIsUnique(o: map<nat, Record>, low: seq<nat>, budget: int, a: seq<nat>, b: seq<nat>)
    requires forall x <- low :: x in o
    requires IsBudgetPrefix(o, low, budget, a) && IsBudgetPrefix(o, low, budget, b)
    ensures a == b
  {
    PrefixNotLonger(o, low, budget, a, b);
    PrefixNotLonger(o, low, budget, b, a);
    assert a == low[..|a|] && b == low[..|b|];
  }

  /** The batch is the same for every order in which the map may be visited. */
  lemma BatchIsDetermined(o: map<nat, Record>, all: set<nat>, budget: int, a: seq<nat>, b: seq<nat>)
    requires IsBatch(o, all, budget, a) && IsBatch(o, all, budget, b)
    ensures a == b
  {
    var low :| IsLowest(all, low, BATCH) && (forall x <- low :: x in o) && IsBudgetPrefix(o, low, budget, a);
    var other :| IsLowest(all, other, BATCH) && (forall x <- other :: x in o) && IsBudgetPrefix(o, other, budget, b);
    LowestIsUnique(all, low, other, BATCH);
    PrefixIsUnique(o, low, budget, a, b);
  }
}

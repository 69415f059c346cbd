/** Receive-side datagram deduplication: DatagramEngine.acceptDatagramID
    (core/datagram_engine.go), against the full history of accepted IDs. */
module DatagramDedup {
  import opened Prelude

  datatype Mode = Stripe | DuplicateAll | Adaptive

  /** `window` is DedupWindow, which the engine replaces by 4096 when it is zero. */
  datatype Config = Config(mode: Mode, window: nat, threshold: int) {
    predicate Valid() {
      window >= 1
    }
  }

  datatype Dedup = Dedup(seen: set<nat>, maxSeen: nat)

  datatype Call = Call(id: nat, size: int)

  predicate MayBeReplicated(c: Config, size: int) {
    c.mode == DuplicateAll || (c.mode == Adaptive && c.threshold > 0 && size <= c.threshold)
  }

  /** Too old to be told apart from a pruned ID. */
  predicate Stale(c: Config, maxSeen: nat, id: nat) {
    maxSeen > c.window && id < maxSeen - c.window
  }

  function Pruned(c: Config, d: Dedup): Dedup {
    if d.maxSeen > c.window && |d.seen| > 2 * c.window
    then d.(seen := set id | id in d.seen && !Stale(c, d.maxSeen, id))
    else d
  }

  function Accept(c: Config, d: Dedup, call: Call): (Dedup, bool) {
    if MayBeReplicated(c, call.size) && d.seen != {} && Stale(c, d.maxSeen, call.id) then (d, false)
    else if call.id in d.seen then (d, false)
    else
      var grown := d.seen + {call.id};
      (Pruned(c, Dedup(grown, if call.id > d.maxSeen || |grown| == 1 then call.id else d.maxSeen)), true)
  }

  class DedupWindow {
    const c: Config
    var seen: set<nat>
    var maxSeen: nat

    constructor (c: Config)
      ensures this.c == c && Dedup(seen, maxSeen) == EMPTY
    {
      this.c := c;
      seen, maxSeen := {}, 0;
    }

    method AcceptDatagramID(id: nat, size: int) returns (ok: bool)
      modifies this
      ensures (Dedup(seen, maxSeen), ok) == Accept(c, Dedup(old(seen), old(maxSeen)), Call(id, size))
    {
      if MayBeReplicated(c, size) && seen != {} && maxSeen > c.window {
        var floor := maxSeen - c.window;
        if id < floor {
          return false;
        }
      }
      if id in seen {
        return false;
      }
      seen := seen + {id};
      if id > maxSeen || |seen| == 1 {
        maxSeen := id;
      }
      if maxSeen > c.window && |seen| > c.window * 2 {
        ghost var grown := seen;
        Prune(maxSeen - c.window);
        assert seen == set k | k in grown && !Stale(c, maxSeen, k);
      }
      return true;
    }

    /** Visits the seen IDs in an arbitrary order, as Go's map range does. */
    method Prune(floor: nat)
      modifies this
      ensures maxSeen == old(maxSeen) && seen == set id | id in old(seen) && floor <= id
    {
      var todo := seen;
      while todo != {}
        invariant maxSeen == old(maxSeen) && todo <= old(seen)
        invariant seen == set id | id in old(seen) && (id in todo || floor <= id)
        decreases |todo|
      {
        var id :| id in todo;
        if id < floor {
          seen := seen - {id};
        }
        todo := todo - {id};
      }
    }
  }

  // ------------------------------------------------------------------ whole runs

  const EMPTY := Dedup({}, 0)

  function After(c: Config, calls: seq<Call>): Dedup {
    if calls == [] then EMPTY else Accept(c, After(c, calls[..|calls| - 1]), calls[|calls| - 1]).0
  }

  /** Every ID accepted so far, including those the window has since forgotten. */
  function History(c: Config, calls: seq<Call>): set<nat> {
    if calls == [] then {}
    else
      var before := calls[..|calls| - 1];
      var last := calls[|calls| - 1];
      History(c, before) + if Accept(c, After(c, before), last).1 then {last.id} else {}
  }

  /** The window remembers the newest accepted ID and forgets only stale ones. */
  ghost predicate Remembers(c: Config, d: Dedup, history: set<nat>) {
    && d.seen <= history
    && (history == {} <==> d.seen == {})
    && (history != {} ==> d.maxSeen in d.seen)
    && (forall id <- history :: id <= d.maxSeen && (id in d.seen || Stale(c, d.maxSeen, id)))
    && |d.seen| <= 2 * c.window
  }

  lemma PrunedFits(c: Config, d: Dedup)
    requires c.Valid() && (forall id <- d.seen :: id <= d.maxSeen)
    ensures |Pruned(c, d).seen| <= 2 * c.window
  {
    var p := Pruned(c, d);
    if |d.seen| > 2 * c.window {
      RangeBound(p.seen, if d.maxSeen > c.window then d.maxSeen - c.window else 0, d.maxSeen + 1);
    }
  }

  lemma AcceptRemembers(c: Config, d: Dedup, history: set<nat>, call: Call)
    requires c.Valid() && Remembers(c, d, history)
    ensures var (n, ok) := Accept(c, d, call);
            && Remembers(c, n, history + if ok then {call.id} else {})
            && (history != {} ==> d.maxSeen <= n.maxSeen)
  {
    var (n, ok) := Accept(c, d, call);
    if ok {
      var grown := d.seen + {call.id};
      if d.seen != {} {
        assert |grown| == |d.seen| + 1 && |d.seen| > 0;
      }
      PrunedFits(c, Dedup(grown, if call.id > d.maxSeen || |grown| == 1 then call.id else d.maxSeen));
      assert n.maxSeen in n.seen;
    } else {
      assert history + {} == history;
    }
  }

  lemma {:induction false} RunRemembers(c: Config, calls: seq<Call>)
    requires c.Valid()
    ensures Remembers(c, After(c, calls), History(c, calls))
  {
    if calls != [] {
      var before := calls[..|calls| - 1];
      RunRemembers(c, before);
      AcceptRemembers(c, After(c, before), History(c, before), calls[|calls| - 1]);
    }
  }

  /** The bounded window decides as the full history would. With W = DedupWindow and
      `newest` the largest ID accepted so far: a replicable datagram is accepted iff
      its ID is fresh and at least newest - W; a datagram that is never replicated is
      always accepted when fresh; and inside the window, in every mode, accepted iff
      fresh. The memory stays within 2W throughout. */
  lemma DedupMatchesHistory(c: Config, calls: seq<Call>, call: Call)
    requires c.Valid()
    ensures var (d, history) := (After(c, calls), History(c, calls));
            var ok := Accept(c, d, call).1;
            var newest := if history == {} then 0 else d.maxSeen;
            && |d.seen| <= 2 * c.window
            && (history != {} ==> newest in history && forall id <- history :: id <= newest)
            && (MayBeReplicated(c, call.size) ==>
                  (ok <==> call.id !in history && call.id + c.window >= newest))
            && (!MayBeReplicated(c, call.size) && call.id !in history ==> ok)
            && (call.id + c.window >= newest ==> (ok <==> call.id !in history))
            && (history != {} ==> newest <= Accept(c, d, call).0.maxSeen)
  {
    RunRemembers(c, calls);
    AcceptRemembers(c, After(c, calls), History(c, calls), call);
  }

  /** Whether call `i` of a run was accepted. */
  predicate AcceptedAt(c: Config, calls: seq<Call>, i: nat)
    requires i < |calls|
  {
    Accept(c, After(c, calls[..i]), calls[i]).1
  }

  lemma HistoryGrows(c: Config, calls: seq<Call>, last: Call)
    ensures History(c, calls) <= History(c, calls + [last])
    ensures Accept(c, After(c, calls), last).1 ==> last.id in History(c, calls + [last])
  {
    assert (calls + [last])[..|calls|] == calls;
  }

  lemma {:induction false} HistoryKeeps(c: Config, calls: seq<Call>, i: nat, j: nat)
    requires i < j <= |calls| && AcceptedAt(c, calls, i)
    ensures calls[i].id in History(c, calls[..j])
    decreases j
  {
    HistoryGrows(c, calls[..j - 1], calls[j - 1]);
    assert calls[..j] == calls[..j - 1] + [calls[j - 1]];
    if i < j - 1 {
      HistoryKeeps(c, calls, i, j - 1);
    }
  }

  /** No replicable datagram is delivered twice, in any run and any mode, however far
      apart its copies arrive; in duplicate mode that is every datagram. */
  lemma NeverTwice(c: Config, calls: seq<Call>, i: nat, j: nat)
    requires c.Valid() && i < j < |calls|
    requires AcceptedAt(c, calls, i) && AcceptedAt(c, calls, j) && MayBeReplicated(c, calls[j].size)
    ensures calls[i].id != calls[j].id
  {
    HistoryKeeps(c, calls, i, j);
    DedupMatchesHistory(c, calls[..j], calls[j]);
  }

  // ----------------------------------------------- exactly where nothing comes twice

  /** No run delivers an ID a second time in a datagram of this size. */
  ghost predicate NeverAgain(c: Config, size: int) {
    forall calls: seq<Call>, i: nat, j: nat | i < j < |calls| && calls[j].size == size ::
      AcceptedAt(c, calls, i) && AcceptedAt(c, calls, j) ==> calls[i].id != calls[j].id
  }

  /** ID 0 and then the `n` IDs that follow the window's width. */
  function Flood(c: Config, size: int, n: nat): (calls: seq<Call>)
    ensures |calls| == n + 1 && calls[0] == Call(0, size)
  {
    if n == 0 then [Call(0, size)] else Flood(c, size, n - 1) + [Call(c.window + n, size)]
  }

  /** The memory still holds all of them. */
  ghost predicate Flooded(c: Config, d: Dedup, n: nat) {
    && 0 in d.seen && |d.seen| == n + 1
    && d.maxSeen == (if n == 0 then 0 else c.window + n)
    && (forall id <- d.seen :: id <= d.maxSeen)
  }

  lemma FloodStep(c: Config, d: Dedup, n: nat, size: int)
    requires Flooded(c, d, n) && !MayBeReplicated(c, size)
    ensures var id := c.window + n + 1;
            && Accept(c, d, Call(id, size)) == (Pruned(c, Dedup(d.seen + {id}, id)), true)
            && Flooded(c, Dedup(d.seen + {id}, id), n + 1)
  {
    assert c.window + n + 1 !in d.seen;
  }

  /** Up to 2W IDs the memory keeps them all. */
  lemma {:induction false} FloodFills(c: Config, size: int, n: nat)
    requires c.Valid() && !MayBeReplicated(c, size) && n < 2 * c.window
    ensures Flooded(c, After(c, Flood(c, size, n)), n)
  {
    var calls := Flood(c, size, n);
    if n == 0 {
      assert calls[..0] == [];
      assert {} + {0} == {0};
    } else {
      FloodFills(c, size, n - 1);
      assert calls[..n] == Flood(c, size, n - 1);
      FloodStep(c, After(c, calls[..n]), n - 1, size);
    }
  }

  /** The next one prunes, and ID 0 is forgotten. */
  lemma FloodForgets(c: Config, size: int)
    requires c.Valid() && !MayBeReplicated(c, size)
    ensures 0 !in After(c, Flood(c, size, 2 * c.window)).seen
  {
    var n := 2 * c.window;
    FloodFills(c, size, n - 1);
    assert Flood(c, size, n)[..n] == Flood(c, size, n - 1);
    FloodStep(c, After(c, Flood(c, size, n - 1)), n - 1, size);
    assert Stale(c, c.window + n, 0);
  }

  /** Whatever the window, a datagram that is not replicated is delivered again once its ID is forgotten. */
  lemma FloodRepeats(c: Config, size: int)
    requires c.Valid() && !MayBeReplicated(c, size)
    ensures var calls := Flood(c, size, 2 * c.window) + [Call(0, size)];
            AcceptedAt(c, calls, 0) && AcceptedAt(c, calls, 2 * c.window + 1)
  {
    var flood := Flood(c, size, 2 * c.window);
    var calls := flood + [Call(0, size)];
    FloodForgets(c, size);
    assert calls[..0] == [] && calls[..|flood|] == flood;
  }

  /** For every configuration and size: no run delivers an ID again in a datagram of that size, if and
      only if datagrams of that size may be replicated. */
  lemma NeverAgainIff(c: Config, size: int)
    requires c.Valid()
    ensures NeverAgain(c, size) <==> MayBeReplicated(c, size)
  {
    if MayBeReplicated(c, size) {
      forall calls: seq<Call>, i: nat, j: nat | i < j < |calls| && calls[j].size == size
        ensures AcceptedAt(c, calls, i) && AcceptedAt(c, calls, j) ==> calls[i].id != calls[j].id
      {
        if AcceptedAt(c, calls, i) && AcceptedAt(c, calls, j) {
          NeverTwice(c, calls, i, j);
        }
      }
    } else {
      FloodRepeats(c, size);
      var calls := Flood(c, size, 2 * c.window) + [Call(0, size)];
      assert calls[0].id == calls[2 * c.window + 1].id;
    }
  }
}

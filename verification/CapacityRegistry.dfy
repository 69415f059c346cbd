/** The shared carrier capacity registry (core/carrier_capacity.go): entries counted by the
    references and by the unfinished demand of the providers opened on them. */
module CapacityRegistry {
  import opened Prelude

  const IDLE_TTL := 600_000_000_000
  const MAX_ENTRIES := 1024
  const MAX_LEGS := 256

  datatype Entry = Entry(refs: int, lastUsed: Time, backlog: int)

  datatype Provider = Provider(keys: seq<string>, closed: bool, unfinished: nat)

  type Entries = map<string, Entry>

  /** Exactly `legs` keys, short lists padded with the empty key, which names no entry. */
  function KeysFor(keys: seq<string>, legCount: int): (r: seq<string>)
    ensures 1 <= |r| <= MAX_LEGS
  {
    var legs := if legCount < 1 || legCount > MAX_LEGS then 2 else legCount;
    seq(legs, i requires 0 <= i < legs => if i < |keys| then keys[i] else "")
  }

  function RefsOf(entries: Entries, key: string): int {
    if key in entries then entries[key].refs else 0
  }

  function BacklogOf(entries: Entries, key: string): int {
    if key in entries then entries[key].backlog else 0
  }

  function Touch(entries: Entries, key: string, now: int): Entries {
    if key == "" then entries
    else if key in entries then entries[key := entries[key].(refs := entries[key].refs + 1, lastUsed := Some(now))]
    else entries[key := Entry(1, Some(now), 0)]
  }

  function TouchAll(entries: Entries, keys: seq<string>, now: int): Entries {
    if keys == [] then entries else Touch(TouchAll(entries, keys[..|keys| - 1], now), keys[|keys| - 1], now)
  }

  function Drop(entries: Entries, key: string, now: int): Entries {
    if key == "" || key !in entries then entries
    else
      var e := entries[key];
      entries[key := e.(refs := if e.refs > 0 then e.refs - 1 else e.refs, lastUsed := Some(now))]
  }

  function DropAll(entries: Entries, keys: seq<string>, now: int): Entries {
    if keys == [] then entries else Drop(DropAll(entries, keys[..|keys| - 1], now), keys[|keys| - 1], now)
  }

  /** Retired demand leaves the backlog, never below zero, and produced demand joins it. */
  function Demanded(entries: Entries, key: string, retired: int, produced: int): Entries {
    if key !in entries then entries
    else
      var e := entries[key];
      entries[key := e.(backlog := (if retired >= e.backlog then 0 else e.backlog - retired) + produced)]
  }

  // ------------------------------------------------------------------------ what is counted

  function Count(keys: seq<string>, key: string): nat {
    if keys == [] then 0 else Count(keys[..|keys| - 1], key) + if keys[|keys| - 1] == key then 1 else 0
  }

  /** The open references a provider has to a key: one for each of its legs that names it. */
  function RefsTo(key: string): Provider -> nat {
    (p: Provider) => if p.closed then 0 else Count(p.keys, key)
  }

  /** The unfinished demand a provider has on a key: all of it on its first leg's. */
  function DemandOn(key: string): Provider -> nat {
    (p: Provider) => if p.closed || p.keys == [] || p.keys[0] != key then 0 else p.unfinished
  }

  /** Every entry counts exactly what the open providers hold on it, and a key without an entry
      is held by none. */
  ghost predicate Consistent(entries: Entries, providers: map<nat, Provider>) {
    forall key: string | key != "" ::
      && RefsOf(entries, key) == MapSum(providers, RefsTo(key))
      && BacklogOf(entries, key) == MapSum(providers, DemandOn(key))
  }

  /** A provider without a first key never records demand. */
  ghost predicate Wellformed(providers: map<nat, Provider>) {
    forall id <- providers ::
      providers[id].keys != [] && (providers[id].closed || providers[id].keys[0] == ""
          ==> providers[id].unfinished == 0)
  }

  // --------------------------------------------------------------------------------- opening

  lemma {:induction false} TouchAllCounts(entries: Entries, keys: seq<string>, now: int, key: string)
    requires key != ""
    ensures RefsOf(TouchAll(entries, keys, now), key) == RefsOf(entries, key) + Count(keys, key)
    ensures BacklogOf(TouchAll(entries, keys, now), key) == BacklogOf(entries, key)
  {
    if keys != [] {
      TouchAllCounts(entries, keys[..|keys| - 1], now, key);
    }
  }

  function LastUsed(entries: Entries, key: string): Time {
    if key in entries then entries[key].lastUsed else None
  }

  /** Opening dates exactly the named entries. */
  lemma {:induction false} TouchAllDates(entries: Entries, keys: seq<string>, now: int, key: string)
    requires key != ""
    ensures LastUsed(TouchAll(entries, keys, now), key) == if key in keys then Some(now) else LastUsed(entries, key)
  {
    if keys != [] {
      TouchAllDates(entries, keys[..|keys| - 1], now, key);
      assert key in keys <==> key in keys[..|keys| - 1] || key == keys[|keys| - 1];
    }
  }

  lemma OpenKeeps(entries: Entries, providers: map<nat, Provider>, keys: seq<string>, now: int, id: nat)
    requires Consistent(entries, providers) && id !in providers
    ensures Consistent(TouchAll(entries, keys, now), providers[id := Provider(keys, false, 0)])
  {
    var p := Provider(keys, false, 0);
    forall key: string | key != ""
      ensures RefsOf(TouchAll(entries, keys, now), key) == MapSum(providers[id := p], RefsTo(key))
      ensures BacklogOf(TouchAll(entries, keys, now), key) == MapSum(providers[id := p], DemandOn(key))
    {
      TouchAllCounts(entries, keys, now, key);
      MapSumAbsent(providers, RefsTo(key), id);
      MapSumUpdate(providers, RefsTo(key), id, p);
      MapSumUpdate(providers, DemandOn(key), id, p);
    }
  }

  // --------------------------------------------------------------------------------- pruning

  /** Only entries nobody refers to go: all that have idled past their time, and others only as long
      as there are too many. */
  ghost predicate IsPruned(entries: Entries, now: int, after: Entries) {
    && after.Keys <= entries.Keys
    && (forall k <- after :: after[k] == entries[k] && !IdleTooLong(entries[k], now))
    && (forall k <- entries | k !in after :: entries[k].refs == 0)
    && (|after| <= MAX_ENTRIES || forall k <- after :: after[k].refs != 0)
    && (|after| < MAX_ENTRIES ==> forall k <- entries | k !in after :: IdleTooLong(entries[k], now))
  }

  /** Pruned, given one reference per named leg, and pruned again. */
  ghost predicate Opened(entries: Entries, keys: seq<string>, now: int, after: Entries) {
    exists pruned: Entries :: IsPruned(entries, now, pruned) && IsPruned(TouchAll(pruned, keys, now), now, after)
  }

  predicate IdleTooLong(e: Entry, now: int) {
    e.refs == 0 && e.lastUsed.Some? && now - e.lastUsed.value > IDLE_TTL
  }

  /** Pruning removes no entry an open provider uses, and nothing anyone still counts. */
  lemma PruneKeeps(entries: Entries, providers: map<nat, Provider>, now: int, after: Entries)
    requires Consistent(entries, providers) && Wellformed(providers) && IsPruned(entries, now, after)
    ensures Consistent(after, providers)
    ensures forall id <- providers, key <- providers[id].keys | !providers[id].closed && key != "" :: key in after
  {
    forall key: string | key != ""
      ensures RefsOf(after, key) == MapSum(providers, RefsTo(key))
      ensures BacklogOf(after, key) == MapSum(providers, DemandOn(key))
    {
      if key in entries && key !in after {
        NoRefsNoDemand(providers, key);
      }
    }
    forall id <- providers, key <- providers[id].keys | !providers[id].closed && key != ""
      ensures key in after
    {
      MapSumRemove(providers, RefsTo(key), id);
      Counted(providers[id].keys, key);
    }
  }

  lemma {:induction false} Counted(keys: seq<string>, key: string)
    ensures key in keys <==> Count(keys, key) > 0
  {
    if keys != [] {
      Counted(keys[..|keys| - 1], key);
    }
  }

  /** What an open provider refers to has an entry. */
  lemma HasEntry(entries: Entries, providers: map<nat, Provider>, id: nat, key: string)
    requires Consistent(entries, providers) && id in providers && !providers[id].closed
    requires key in providers[id].keys && key != ""
    ensures key in entries
  {
    MapSumRemove(providers, RefsTo(key), id);
    Counted(providers[id].keys, key);
  }

  /** Demand is only on keys that are referred to. */
  lemma {:induction false} NoRefsNoDemand(providers: map<nat, Provider>, key: string)
    requires MapSum(providers, RefsTo(key)) == 0
    ensures MapSum(providers, DemandOn(key)) == 0
    decreases |providers|
  {
    if providers != map[] {
      var id :| id in providers;
      MapSumRemove(providers, RefsTo(key), id);
      MapSumRemove(providers, DemandOn(key), id);
      Counted(providers[id].keys, key);
      NoRefsNoDemand(providers - {id}, key);
    }
  }

  // ------------------------------------------------------------------------ demand and closing

  /** What a provider may retire is at most what it has unfinished. */
  function RetiredBy(p: Provider, retired: nat): nat {
    if retired > p.unfinished then p.unfinished else retired
  }

  lemma DemandKeeps(entries: Entries, providers: map<nat, Provider>, id: nat, produced: nat, retired: nat)
    requires Consistent(entries, providers) && Wellformed(providers) && id in providers && !providers[id].closed
    requires providers[id].keys[0] in entries && providers[id].keys[0] != ""
    ensures var p := providers[id];
            var r := RetiredBy(p, retired);
            var next := p.(unfinished := p.unfinished - r + produced);
            && r <= entries[p.keys[0]].backlog
            && Consistent(Demanded(entries, p.keys[0], r, produced), providers[id := next])
            && Wellformed(providers[id := next])
  {
    var p := providers[id];
    var r := RetiredBy(p, retired);
    var next := p.(unfinished := p.unfinished - r + produced);
    MapSumRemove(providers, DemandOn(p.keys[0]), id);
    forall key: string | key != ""
      ensures RefsOf(Demanded(entries, p.keys[0], r, produced), key) == MapSum(providers[id := next], RefsTo(key))
      ensures BacklogOf(Demanded(entries, p.keys[0], r, produced), key) == MapSum(providers[id := next], DemandOn(key))
    {
      DemandMoves(entries, p.keys[0], r, produced, key);
      DemandSums(providers, id, next, key);
    }
  }

  /** Demand on one key moves that key's backlog and no reference. */
  lemma DemandMoves(entries: Entries, on: string, retired: nat, produced: nat, key: string)
    requires on in entries && retired <= entries[on].backlog
    ensures RefsOf(Demanded(entries, on, retired, produced), key) == RefsOf(entries, key)
    ensures BacklogOf(Demanded(entries, on, retired, produced), key)
            == BacklogOf(entries, key) + if key == on then produced - retired else 0
  {
  }

  /** Changing one provider's unfinished demand moves only its own key's backlog. */
  lemma DemandSums(providers: map<nat, Provider>, id: nat, next: Provider, key: string)
    requires id in providers && next == providers[id].(unfinished := next.unfinished)
    ensures MapSum(providers[id := next], RefsTo(key)) == MapSum(providers, RefsTo(key))
    ensures MapSum(providers[id := next], DemandOn(key))
            == MapSum(providers, DemandOn(key)) - DemandOn(key)(providers[id]) + DemandOn(key)(next)
  {
    MapSumRemove(providers, RefsTo(key), id);
    MapSumUpdate(providers, RefsTo(key), id, next);
    MapSumRemove(providers, DemandOn(key), id);
    MapSumUpdate(providers, DemandOn(key), id, next);
  }

  lemma {:induction false} DropAllCounts(entries: Entries, keys: seq<string>, now: int, key: string)
    requires key != "" && Count(keys, key) <= RefsOf(entries, key)
    ensures RefsOf(DropAll(entries, keys, now), key) == RefsOf(entries, key) - Count(keys, key)
    ensures BacklogOf(DropAll(entries, keys, now), key) == BacklogOf(entries, key)
  {
    if keys != [] {
      DropAllCounts(entries, keys[..|keys| - 1], now, key);
    }
  }

  /** Closing starts the idle time of exactly the entries the provider named. */
  lemma {:induction false} DropAllDates(entries: Entries, keys: seq<string>, now: int, key: string)
    requires key != ""
    ensures DropAll(entries, keys, now).Keys == entries.Keys
    ensures LastUsed(DropAll(entries, keys, now), key)
            == if key in keys && key in entries then Some(now) else LastUsed(entries, key)
  {
    if keys != [] {
      DropAllDates(entries, keys[..|keys| - 1], now, key);
      assert key in keys <==> key in keys[..|keys| - 1] || key == keys[|keys| - 1];
    }
  }

  /** Closing takes out exactly what the provider held, and no subtraction finds too little. */
  lemma CloseKeeps(entries: Entries, providers: map<nat, Provider>, id: nat, now: int)
    requires Consistent(entries, providers) && Wellformed(providers) && id in providers && !providers[id].closed
    ensures var p := providers[id];
            var less := Demanded(entries, p.keys[0], p.unfinished, 0);
            && (p.keys[0] != "" ==> p.unfinished <= BacklogOf(entries, p.keys[0]))
            && (forall key: string | key != "" :: Count(p.keys, key) <= RefsOf(entries, key))
            && Consistent(DropAll(less, p.keys, now), providers[id := p.(closed := true, unfinished := 0)])
            && Wellformed(providers[id := p.(closed := true, unfinished := 0)])
  {
    var p := providers[id];
    var less := Demanded(entries, p.keys[0], p.unfinished, 0);
    var gone := p.(closed := true, unfinished := 0);
    forall key: string | key != ""
      ensures Count(p.keys, key) <= RefsOf(entries, key)
      ensures p.keys[0] == key ==> p.unfinished <= BacklogOf(entries, key)
      ensures RefsOf(DropAll(less, p.keys, now), key) == MapSum(providers[id := gone], RefsTo(key))
      ensures BacklogOf(DropAll(less, p.keys, now), key) == MapSum(providers[id := gone], DemandOn(key))
    {
      MapSumRemove(providers, RefsTo(key), id);
      MapSumUpdate(providers, RefsTo(key), id, gone);
      MapSumRemove(providers, DemandOn(key), id);
      MapSumUpdate(providers, DemandOn(key), id, gone);
      DropAllCounts(less, p.keys, now, key);
    }
  }

  // ---------------------------------------------------------------------------- the objects

  /** The registry together with the providers opened on it, which it is locked for. */
  class Registry {
    var entries: Entries
    var providers: map<nat, Provider>
    var issued: nat

    ghost predicate Valid()
      reads this
    {
      Consistent(entries, providers) && Wellformed(providers) && forall id <- providers :: id < issued
    }

    constructor ()
      ensures Valid() && entries == map[] && providers == map[]
    {
      entries, providers, issued := map[], map[], 0;
    }

    /** ProviderForLegs: prune, take one reference per named leg, prune again. */
    method Open(keys: seq<string>, legCount: int, now: int) returns (id: nat)
      requires Valid()
      modifies this
      ensures Valid() && id !in old(providers)
      ensures providers == old(providers)[id := Provider(KeysFor(keys, legCount), false, 0)]
      ensures Opened(old(entries), KeysFor(keys, legCount), now, entries)
      ensures forall key <- KeysFor(keys, legCount) | key != "" :: key in entries && entries[key].lastUsed == Some(now)
    {
      Prune(now);
      id := issued;
      ghost var pruned := entries;
      var named := KeysFor(keys, legCount);
      var after := TakeRefs(entries, named, now);
      OpenKeeps(entries, providers, named, now, id);
      entries := after;
      providers := providers[id := Provider(named, false, 0)];
      issued := issued + 1;
      Prune(now);
      assert id in providers && providers[id].keys == named && !providers[id].closed;
      assert IsPruned(old(entries), now, pruned) && IsPruned(TouchAll(pruned, named, now), now, entries);
      forall key <- named | key != ""
        ensures key in entries && entries[key].lastUsed == Some(now)
      {
        TouchAllDates(pruned, named, now, key);
      }
    }

    /** pruneLocked. */
    method Prune(now: int)
      requires Valid()
      modifies this
      ensures Valid() && unchanged(`providers) && unchanged(`issued) && IsPruned(old(entries), now, entries)
      ensures forall id <- providers, key <- providers[id].keys | !providers[id].closed && key != "" :: key in entries
    {
      var after := PruneEntries(entries, now);
      PruneKeeps(entries, providers, now, after);
      entries := after;
    }

    method ObserveDemand(id: nat, produced: nat, retired: nat)
      requires Valid() && id in providers
      modifies this
      ensures Valid() && unchanged(`issued)
      ensures var p := old(providers[id]);
              if p.closed || p.keys[0] == "" || (produced == 0 && retired == 0)
              then unchanged(`entries) && unchanged(`providers)
              else
                && providers == old(providers)[id := p.(unfinished := p.unfinished - RetiredBy(p, retired) + produced)]
                && entries == Demanded(old(entries), p.keys[0], RetiredBy(p, retired), produced)
    {
      var p := providers[id];
      if p.closed || p.keys[0] == "" || (produced == 0 && retired == 0) {
        return;
      }
      HasEntry(entries, providers, id, p.keys[0]);
      DemandKeeps(entries, providers, id, produced, retired);
      var r := if retired > p.unfinished then p.unfinished else retired;
      var after := Adjust(entries, p.keys[0], r, produced);
      providers := providers[id := p.(unfinished := p.unfinished - r + produced)];
      entries := after;
    }

    method Close(id: nat, now: int)
      requires Valid() && id in providers
      modifies this
      ensures Valid() && unchanged(`issued)
      ensures providers == old(providers)[id := old(providers[id]).(closed := true, unfinished := 0)]
      ensures var p := old(providers[id]);
              entries == if p.closed then old(entries)
                         else DropAll(Demanded(old(entries), p.keys[0], p.unfinished, 0), p.keys, now)
    {
      var p := providers[id];
      if p.closed {
        assert providers[id := p] == providers;
        return;
      }
      CloseKeeps(entries, providers, id, now);
      var less := Adjust(entries, p.keys[0], p.unfinished, 0);
      less := ReleaseRefs(less, p.keys, now);
      providers := providers[id := p.(closed := true, unfinished := 0)];
      entries := less;
    }
  }

  method TakeRefs(entries: Entries, keys: seq<string>, now: int) returns (after: Entries)
    ensures after == TouchAll(entries, keys, now)
  {
    after := entries;
    for i := 0 to |keys|
      invariant after == TouchAll(entries, keys[..i], now)
    {
      assert keys[..i + 1][..i] == keys[..i];
      var key := keys[i];
      if key != "" {
        var e := if key in after then after[key] else Entry(0, None, 0);
        after := after[key := e.(refs := e.refs + 1, lastUsed := Some(now))];
      }
    }
    assert keys[..|keys|] == keys;
  }

  method ReleaseRefs(entries: Entries, keys: seq<string>, now: int) returns (after: Entries)
    ensures after == DropAll(entries, keys, now)
  {
    after := entries;
    for i := 0 to |keys|
      invariant after == DropAll(entries, keys[..i], now)
    {
      assert keys[..i + 1][..i] == keys[..i];
      var key := keys[i];
      if key != "" && key in after {
        var e := after[key];
        after := after[key := e.(refs := if e.refs > 0 then e.refs - 1 else e.refs, lastUsed := Some(now))];
      }
    }
    assert keys[..|keys|] == keys;
  }

  method Adjust(entries: Entries, key: string, retired: nat, produced: nat) returns (after: Entries)
    ensures after == Demanded(entries, key, retired, produced)
  {
    after := entries;
    if key in entries {
      var e := entries[key];
      var left := if retired >= e.backlog then 0 else e.backlog - retired;
      after := entries[key := e.(backlog := left + produced)];
    }
  }

  /** Two passes in an arbitrary order: the idle entries, then unreferenced ones while over the limit. */
  method PruneEntries(entries: Entries, now: int) returns (after: Entries)
    ensures IsPruned(entries, now, after)
  {
    after := PruneIdle(entries, now);
    if |after| <= MAX_ENTRIES {
      return;
    }
    after := PruneExcess(entries, now, after);
  }

  method PruneIdle(entries: Entries, now: int) returns (after: Entries)
    ensures after.Keys <= entries.Keys && forall k <- after :: after[k] == entries[k]
    ensures forall k <- entries :: k in after <==> !IdleTooLong(entries[k], now)
  {
    after := entries;
    var todo := entries.Keys;
    while todo != {}
      invariant todo <= entries.Keys && after.Keys <= entries.Keys
      invariant forall k <- after :: after[k] == entries[k]
      invariant forall k <- entries :: k in after <==> (k in todo || !IdleTooLong(entries[k], now))
      decreases |todo|
    {
      var key :| key in todo;
      if IdleTooLong(entries[key], now) {
        after := after - {key};
      }
      todo := todo - {key};
    }
  }

  method PruneExcess(entries: Entries, now: int, kept: Entries) returns (after: Entries)
    requires |kept| > MAX_ENTRIES && kept.Keys <= entries.Keys && forall k <- kept :: kept[k] == entries[k]
    requires forall k <- entries :: k in kept <==> !IdleTooLong(entries[k], now)
    ensures IsPruned(entries, now, after)
  {
    after := kept;
    var todo := kept.Keys;
    while todo != {}
      invariant todo <= kept.Keys && todo <= after.Keys <= kept.Keys && |after| > MAX_ENTRIES
      invariant forall k <- after :: after[k] == entries[k]
      invariant forall k <- kept | k !in todo :: k in after <==> entries[k].refs != 0
      decreases |todo|
    {
      var key :| key in todo;
      todo := todo - {key};
      if after[key].refs == 0 {
        assert |after.Keys - {key}| == |after.Keys| - 1;
        after := after - {key};
        if |after| <= MAX_ENTRIES {
          return;
        }
      }
    }
  }
}

/** A snapshot: what the status page is shown of the registry. */
module Snapshots {
  import opened Sums
  import opened Counters
  import opened RegistryState
  import opened RegistryParts
  import opened Aggregates
  import opened Sorting
  import Registry
  import RegistryProofs

  datatype UrlStats = UrlStats(url: string, stats: Stats)
  datatype HopStats = HopStats(index: nat, parentIndex: int, stats: Stats, urls: seq<UrlStats>)
  datatype TargetStats = TargetStats(address: string, via: string, stats: Stats)
  datatype Connection = Connection(id: nat, client: string, target: string, via: string, path: seq<PathHop>,
    started: Time, stats: Stats)
  datatype RuleStats = RuleStats(
    name: string, stats: Stats, listen: seq<HopStats>, forward: seq<HopStats>, targets: seq<TargetStats>,
    connections: seq<Connection>, targetsEvicted: nat)
  datatype Snapshot = Snapshot(since: Time, rules: seq<RuleStats>)

  // ------------------------------------------------------------------ what is shown

  ghost function Views(s: State, counters: seq<Counter>): (views: seq<CounterView>)
    requires forall c :: c in counters ==> c in s.countAt
    ensures |views| == |counters|
  {
    seq(|counters|, i requires 0 <= i < |counters| => s.countAt[counters[i]])
  }

  ghost predicate Shows(s: State, c: Counter, stats: Stats) { c in s.countAt && stats == Of(s.countAt[c]).stats }

  // A hop shows its URLs one by one and its distinct counters together, with its retained peak.
  ghost predicate HopShown(s: State, way: seq<Hop>, i: nat, h: HopStats)
    requires i < |way|
  {
    && h.index == i && h.parentIndex == (if i == |way| - 1 then -1 else i + 1)
    && |h.urls| == |way[i].urls|
    && (forall j :: 0 <= j < |h.urls| ==>
         h.urls[j].url == way[i].urls[j].url && Shows(s, way[i].urls[j].count, h.urls[j].stats))
    && (forall c :: c in Unique(way[i].urls) ==> c in s.countAt)
    && h.stats == Together(Views(s, Unique(way[i].urls))).stats.(peakUp := way[i].peakUp, peakDown := way[i].peakDown)
  }

  ghost predicate WayShown(s: State, way: seq<Hop>, hops: seq<HopStats>) {
    |hops| == |way| && forall i :: 0 <= i < |way| ==> HopShown(s, way, i, hops[i])
  }

  function KeyOf(t: TargetStats): TargetKey { TargetKey(t.address, t.via) }

  // Busy targets first, then those that moved most, then by name.
  predicate TargetBefore(a: TargetStats, b: TargetStats) {
    if a.stats.active != b.stats.active then a.stats.active > b.stats.active
    else if a.stats.up + a.stats.down != b.stats.up + b.stats.down
        then a.stats.up + a.stats.down > b.stats.up + b.stats.down
    else if a.address != b.address then Before(a.address, b.address)
    else Before(a.via, b.via)
  }

  function Moved(t: TargetStats): int { t.stats.up + t.stats.down }

  // No target comes before one with more open connections, nor, with as many, before one that moved more
  // bytes, nor, with as many of these, before one whose address or else whose via comes first.
  ghost predicate Ranked(shown: seq<TargetStats>) {
    forall i, j :: 0 <= i < j < |shown| ==>
      var a, b := shown[i], shown[j];
      && a.stats.active >= b.stats.active
      && (a.stats.active == b.stats.active ==> Moved(a) >= Moved(b))
      && (a.stats.active == b.stats.active && Moved(a) == Moved(b) ==> !Before(b.address, a.address))
      && (a.stats.active == b.stats.active && Moved(a) == Moved(b) && a.address == b.address ==> !Before(b.via, a.via))
  }

  lemma SortedIsRanked(shown: seq<TargetStats>)
    requires Sorted(shown, TargetBefore)
    ensures Ranked(shown)
  {
    forall i, j | 0 <= i < j < |shown| ensures !TargetBefore(shown[j], shown[i]) {}
    forall i, j | 0 <= i < j < |shown| && shown[i].address == shown[j].address
      ensures !Before(shown[j].address, shown[i].address)
    {
      BeforeOrders(shown[i].address, shown[j].address, "");
    }
  }

  // Every target once.
  ghost predicate TargetsListed(s: State, targets: map<TargetKey, Counter>, keys: set<TargetKey>,
                                shown: seq<TargetStats>) {
    && (forall i :: 0 <= i < |shown| ==>
         KeyOf(shown[i]) in keys && KeyOf(shown[i]) in targets && Shows(s, targets[KeyOf(shown[i])], shown[i].stats))
    && (forall key :: key in keys ==> exists t :: t in shown && KeyOf(t) == key)
    && forall i, j :: 0 <= i < j < |shown| ==> KeyOf(shown[i]) != KeyOf(shown[j])
  }

  predicate EntryShown(l: Live, c: Connection) {
    c.id == l.id && c.client == l.client && c.target == l.target && c.via == l.via && c.path == l.path &&
      c.started == l.started
  }

  predicate ById(a: Connection, b: Connection) { a.id < b.id }

  // The tracked connections of r among ids, each once.
  ghost predicate Listed(s: State, r: Rule, ids: set<nat>, shown: seq<Connection>) {
    && (forall i :: 0 <= i < |shown| ==>
          var id := shown[i].id;
          id in ids && id in s.live && s.live[id].rule == r && EntryShown(s.live[id], shown[i]) &&
            Shows(s, s.live[id].count, shown[i].stats))
    && (forall id :: id in ids && id in s.live && s.live[id].rule == r ==> exists c :: c in shown && c.id == id)
    && forall i, j :: 0 <= i < j < |shown| ==> shown[i].id != shown[j].id
  }

  ghost predicate Ascending(shown: seq<Connection>) {
    forall i, j :: 0 <= i < j < |shown| ==> shown[i].id < shown[j].id
  }

  ghost predicate RuleShown(s: State, name: string, rs: RuleStats) {
    && rs.name == name && name in s.rules && s.rules[name] in s.ruleAt
    && var v := s.ruleAt[s.rules[name]];
       && Shows(s, v.count, rs.stats) && rs.targetsEvicted == v.targetsEvicted
       && WayShown(s, v.listenWay, rs.listen) && WayShown(s, v.forwardWay, rs.forward)
       && TargetsListed(s, v.targets, v.targets.Keys, rs.targets) && Sorted(rs.targets, TargetBefore)
       && Listed(s, s.rules[name], s.live.Keys, rs.connections) && Ascending(rs.connections)
  }

  ghost predicate Shown(s: State, snapshot: Snapshot) {
    && snapshot.since == s.since && |snapshot.rules| == |s.order|
    && forall i :: 0 <= i < |s.order| ==> RuleShown(s, s.order[i], snapshot.rules[i])
  }

  // ------------------------------------------------------------------ how it is put together

  // Counters hold what the state says.
  ghost predicate Mirrors(s: State)
    reads s.countAt.Keys
  {
    forall c :: c in s.countAt ==> c.View() == s.countAt[c]
  }

  method Add(counters: seq<Counter>, ghost s: State) returns (snap: Snap)
    requires Mirrors(s) && forall c :: c in counters ==> c in s.countAt
    ensures snap == Together(Views(s, counters))
  {
    hide Snap.Plus, Of;
    var aggregate := new CounterSnapshot();
    for i := 0 to |counters|
      invariant fresh(aggregate) && aggregate.Value() == Together(Views(s, counters)[..i])
    {
      var other := new CounterSnapshot.Take(counters[i]);
      aggregate.Add(other);
      assert Views(s, counters)[..i + 1][..i] == Views(s, counters)[..i];
    }
    assert Views(s, counters)[..|counters|] == Views(s, counters);
    snap := aggregate.Value();
  }

  method Show(c: Counter, ghost s: State) returns (stats: Stats)
    requires Mirrors(s) && c in s.countAt
    ensures Shows(s, c, stats)
  {
    var taken := new CounterSnapshot.Take(c);
    stats := taken.stats;
    assert taken.Value().stats == stats;
  }

  method SnapshotWay(way: seq<Hop>, ghost s: State) returns (hops: seq<HopStats>)
    requires Mirrors(s) && forall i :: 0 <= i < |way| ==> way[i].Counts() <= s.countAt.Keys
    ensures WayShown(s, way, hops)
  {
    hops := [];
    for index := 0 to |way|
      invariant |hops| == index && forall i :: 0 <= i < index ==> HopShown(s, way, i, hops[i])
    {
      hide HopShown;
      var hop := SnapshotHop(way, index, s);
      hops := hops + [hop];
    }
  }

  method SnapshotHop(way: seq<Hop>, index: nat, ghost s: State) returns (hop: HopStats)
    requires Mirrors(s) && index < |way| && way[index].Counts() <= s.countAt.Keys
    ensures HopShown(s, way, index, hop)
  {
    hide Together, Of;
    var entry := way[index];
    var urls: seq<UrlStats> := [];
    for j := 0 to |entry.urls|
      invariant |urls| == j
      invariant forall k :: 0 <= k < j ==>
                urls[k].url == entry.urls[k].url && Shows(s, entry.urls[k].count, urls[k].stats)
    {
      assert entry.urls[j].count in entry.Counts();
      var stats := Show(entry.urls[j].count, s);
      urls := urls + [UrlStats(entry.urls[j].url, stats)];
    }
    var counters := UniqueCounters(entry.urls);
    forall c | c in counters ensures c in s.countAt {}
    var aggregate := Add(counters, s);
    hop := HopStats(index, if index == |way| - 1 then -1 else index + 1,
                    aggregate.stats.(peakUp := entry.peakUp, peakDown := entry.peakDown), urls);
  }

  method SnapshotTargets(targets: map<TargetKey, Counter>, ghost s: State) returns (shown: seq<TargetStats>)
    requires Mirrors(s) && forall key :: key in targets ==> targets[key] in s.countAt
    ensures TargetsListed(s, targets, targets.Keys, shown) && Sorted(shown, TargetBefore) && Ranked(shown)
  {
    var keys := targets.Keys;
    shown := [];
    while keys != {}
      invariant keys <= targets.Keys && TargetsListed(s, targets, targets.Keys - keys, shown)
      decreases keys
    {
      hide Shows;
      var key :| key in keys;
      ghost var done, before := targets.Keys - keys, shown;
      keys := keys - {key};
      var stats := Show(targets[key], s);
      shown := shown + [TargetStats(key.address, key.via, stats)];
      TargetListedMore(s, targets, done, key, before, shown);
      assert done + {key} == targets.Keys - keys;
    }
    TargetsRanked();
    assert targets.Keys - keys == targets.Keys;
    ghost var listed := shown;
    shown := Sort(shown, TargetBefore);
    TargetsPermuted(s, targets, listed, shown);
    SortedIsRanked(shown);
  }

  lemma TargetListedMore(s: State, targets: map<TargetKey, Counter>, keys: set<TargetKey>, key: TargetKey,
                         before: seq<TargetStats>, shown: seq<TargetStats>)
    requires TargetsListed(s, targets, keys, before) && key !in keys && key in targets
    requires |shown| == |before| + 1 && shown[..|before|] == before && KeyOf(shown[|before|]) == key
    requires Shows(s, targets[key], shown[|before|].stats)
    ensures TargetsListed(s, targets, keys + {key}, shown)
  {
    hide Shows;
    assert shown == before + [shown[|before|]];
    forall k | k in keys + {key} ensures exists t :: t in shown && KeyOf(t) == k {
      if k in keys {
        var t :| t in before && KeyOf(t) == k;
        assert t in shown;
      } else {
        assert shown[|before|] in shown;
      }
    }
  }

  lemma TargetsRanked()
    ensures WeakOrder(TargetBefore)
  {
    forall a, b ensures TargetBefore(a, b) ==> !TargetBefore(b, a) {
      BeforeOrders(a.address, b.address, "");
      BeforeOrders(a.via, b.via, "");
    }
    forall a, b, c ensures !TargetBefore(b, a) && !TargetBefore(c, b) ==> !TargetBefore(c, a) {
      BeforeOrders(a.address, b.address, c.address);
      BeforeOrders(b.address, c.address, a.address);
      BeforeOrders(a.via, b.via, c.via);
    }
  }

  lemma Twice<T>(xs: seq<T>, i: nat, j: nat)
    requires i < j < |xs| && xs[i] == xs[j]
    ensures multiset(xs)[xs[i]] >= 2
  {
    TakenOut(xs, i);
    assert (xs[..i] + xs[i + 1..])[j - 1] == xs[j];
  }

  lemma {:induction false} Once<T, K>(xs: seq<T>, x: T, key: T -> K)
    requires forall i, j :: 0 <= i < j < |xs| ==> key(xs[i]) != key(xs[j])
    ensures multiset(xs)[x] <= 1
  {
    if xs != [] {
      var last := |xs| - 1;
      Once(xs[..last], x, key);
      assert xs == xs[..last] + [xs[last]];
      if xs[last] == x {
        assert x !in xs[..last];
        assert multiset(xs[..last])[x] == 0;
      }
    }
  }

  lemma DistinctPermuted<T, K>(xs: seq<T>, ys: seq<T>, key: T -> K)
    requires multiset(xs) == multiset(ys)
    requires forall i, j :: 0 <= i < j < |xs| ==> key(xs[i]) != key(xs[j])
    ensures forall i, j :: 0 <= i < j < |ys| ==> key(ys[i]) != key(ys[j])
  {
    SameMembers(xs, ys);
    forall i, j | 0 <= i < j < |ys| ensures key(ys[i]) != key(ys[j]) {
      assert ys[i] in xs && ys[j] in xs;
      var m, n :| 0 <= m < |xs| && 0 <= n < |xs| && xs[m] == ys[i] && xs[n] == ys[j];
      Once(xs, ys[i], key);
      if ys[i] == ys[j] {
        Twice(ys, i, j);
      }
    }
  }

  lemma TargetsPermuted(s: State, targets: map<TargetKey, Counter>, listed: seq<TargetStats>, shown: seq<TargetStats>)
    requires multiset(shown) == multiset(listed) && TargetsListed(s, targets, targets.Keys, listed)
    ensures TargetsListed(s, targets, targets.Keys, shown)
  {
    hide Shows;
    SameMembers(listed, shown);
    DistinctPermuted(listed, shown, KeyOf);
    forall i | 0 <= i < |shown|
      ensures KeyOf(shown[i]) in targets && Shows(s, targets[KeyOf(shown[i])], shown[i].stats)
    {
      assert shown[i] in listed;
    }
    forall key | key in targets.Keys ensures exists t :: t in shown && KeyOf(t) == key {
      var t :| t in listed && KeyOf(t) == key;
      assert t in shown;
    }
  }

  // ------------------------------------------------------------------ the tracked connections

  // What the loop over the live map has put together: per rule its connections, none where there are none.
  ghost predicate Gathered(s: State, ids: set<nat>, lists: map<RegistryState.Rule, seq<Connection>>) {
    forall r: RegistryState.Rule :: r in s.ruleAt ==> Listed(s, r, ids, if r in lists then lists[r] else [])
  }

  method Gather(reg: Registry.Registry, ghost s: State) returns (lists: map<RegistryState.Rule, seq<Connection>>)
    requires reg.live == s.live && Mirrors(s)
    requires forall id :: id in s.live ==> s.live[id].id == id && s.live[id].count in s.countAt
    ensures Gathered(s, s.live.Keys, lists)
  {
    lists := map[];
    var ids := reg.live.Keys;
    while ids != {}
      invariant ids <= reg.live.Keys && Gathered(s, s.live.Keys - ids, lists)
      decreases ids
    {
      hide Shows, Gathered;
      var id :| id in ids;
      ghost var done, before := s.live.Keys - ids, lists;
      ids := ids - {id};
      var entry := reg.live[id];
      var stats := Show(entry.count, s);
      var connection := Connection(entry.id, entry.client, entry.target, entry.via, entry.path, entry.started, stats);
      lists := lists[entry.rule := (if entry.rule in lists then lists[entry.rule] else []) + [connection]];
      GatheredMore(s, done, id, connection, before, lists);
      assert done + {id} == s.live.Keys - ids;
    }
    assert s.live.Keys - ids == s.live.Keys;
  }

  lemma GatheredMore(s: State, ids: set<nat>, id: nat, c: Connection,
                     before: map<RegistryState.Rule, seq<Connection>>, lists: map<RegistryState.Rule, seq<Connection>>)
    requires Gathered(s, ids, before) && id in s.live && id !in ids && s.live[id].id == id
    requires EntryShown(s.live[id], c) && Shows(s, s.live[id].count, c.stats)
    requires var r := s.live[id].rule; lists == before[r := (if r in before then before[r] else []) + [c]]
    ensures Gathered(s, ids + {id}, lists)
  {
    hide Shows, Listed, EntryShown;
    forall r: RegistryState.Rule | r in s.ruleAt ensures Listed(s, r, ids + {id}, if r in lists then lists[r] else []) {
      var known := if r in before then before[r] else [];
      assert Listed(s, r, ids, known);
      if r == s.live[id].rule {
        ListedMore(s, r, ids, id, c, known);
      } else {
        ListedOther(s, r, ids, id, known);
      }
    }
  }

  lemma ListedOther(s: State, r: RegistryState.Rule, ids: set<nat>, id: nat, shown: seq<Connection>)
    requires Listed(s, r, ids, shown) && id in s.live && s.live[id].rule != r
    ensures Listed(s, r, ids + {id}, shown)
  {
  }

  lemma ListedMore(s: State, r: RegistryState.Rule, ids: set<nat>, id: nat, c: Connection, before: seq<Connection>)
    requires Listed(s, r, ids, before) && id in s.live && id !in ids && s.live[id].id == id && s.live[id].rule == r
    requires EntryShown(s.live[id], c) && Shows(s, s.live[id].count, c.stats)
    ensures Listed(s, r, ids + {id}, before + [c])
  {
  }

  lemma ListedPermuted(s: State, r: RegistryState.Rule, ids: set<nat>, listed: seq<Connection>, shown: seq<Connection>)
    requires multiset(shown) == multiset(listed) && Listed(s, r, ids, listed) && Sorted(shown, ById)
    ensures Listed(s, r, ids, shown) && Ascending(shown)
  {
    hide Shows;
    SameMembers(listed, shown);
    DistinctPermuted(listed, shown, (c: Connection) => c.id);
    forall i | 0 <= i < |shown|
      ensures var id := shown[i].id;
              id in ids && id in s.live && s.live[id].rule == r && EntryShown(s.live[id], shown[i]) &&
                Shows(s, s.live[id].count, shown[i].stats)
    {
      assert shown[i] in listed;
    }
    forall id | id in ids && id in s.live && s.live[id].rule == r ensures exists c :: c in shown && c.id == id {
      var c :| c in listed && c.id == id;
      assert c in shown;
    }
    forall i, j | 0 <= i < j < |shown| ensures shown[i].id < shown[j].id {
      assert !ById(shown[j], shown[i]);
    }
  }

  // What a valid state says of the counters of its registered rules and tracked connections.
  lemma Known(s: State)
    requires Inv(s)
    ensures forall n :: n in s.rules ==> s.rules[n] in s.ruleAt
    ensures forall r :: r in s.ruleAt ==>
            s.ruleAt[r].count in s.countAt && forall key :: key in s.ruleAt[r].targets ==>
            s.ruleAt[r].targets[key] in s.countAt
    ensures forall id :: id in s.live ==> s.live[id].id == id && s.live[id].count in s.countAt
    ensures forall r, role: Role, i :: r in s.ruleAt && 0 <= i < |s.ruleAt[r].Way(role)| ==>
            s.ruleAt[r].Way(role)[i].Counts() <= s.countAt.Keys
  {
    hide Inv;
    RegisteredAre(s);
    forall r | r in s.ruleAt
      ensures s.ruleAt[r].count in s.countAt
      ensures forall key :: key in s.ruleAt[r].targets ==> s.ruleAt[r].targets[key] in s.countAt
    {
      KnownRule(s, r);
    }
    forall id | id in s.live ensures s.live[id].id == id && s.live[id].count in s.countAt {
      LiveIs(s, id);
    }
  }

  lemma LiveIs(s: State, id: nat)
    requires Inv(s) && id in s.live
    ensures s.live[id].id == id && s.live[id].count in s.countAt && s.live[id].rule in s.ruleAt
    ensures s.Registered(s.live[id].rule)
  {
    hide Shape, RegistryState.Conns, Counting, Traffic;
    assert LiveEntry(s, id, s.live[id]);
  }

  // ------------------------------------------------------------------ the snapshot

  method TakeSnapshot(reg: Registry.Registry) returns (snapshot: Snapshot)
    requires reg.Valid()
    ensures Shown(reg.Now(), snapshot)
  {
    hide Inv, RuleShown, Gathered, Mirrors, Enumerates, Registry.Registry.Rules, Registry.Registry.Counts,
      Registry.Registry.Conns;
    ghost var s := reg.Now();
    LiveNamed(s);
    MirrorsNow(reg);
    var lists := Gather(reg, s);
    var rules: seq<RuleStats> := [];
    for i := 0 to |reg.order|
      invariant |rules| == i && forall j :: 0 <= j < i ==> RuleShown(s, s.order[j], rules[j])
    {
      OrderNamed(s, i);
      var name := reg.order[i];
      var rule := reg.rules[name];
      reg.SeenAll();
      var shown := SnapshotRule(name, rule, if rule in lists then lists[rule] else [], s, lists);
      rules := rules + [shown];
    }
    snapshot := Snapshot(reg.since, rules);
  }

  lemma LiveNamed(s: State)
    requires Inv(s)
    ensures forall id :: id in s.live ==> s.live[id].id == id && s.live[id].count in s.countAt
  {
    hide Inv;
    Known(s);
  }

  lemma OrderNamed(s: State, i: nat)
    requires Inv(s) && Ordered(s) && i < |s.order|
    ensures s.order[i] in s.rules && s.rules[s.order[i]] in s.ruleAt
  {
    hide Inv;
    Known(s);
  }

  lemma MirrorsNow(reg: Registry.Registry)
    ensures Mirrors(reg.Now())
  {
  }

  method SnapshotRule(name: string, rule: RegistryState.Rule, current: seq<Connection>, ghost s: State,
                      ghost lists: map<RegistryState.Rule, seq<Connection>>) returns (shown: RuleStats)
    requires Inv(s) && Mirrors(s) && name in s.rules && rule == s.rules[name] && rule in s.ruleAt
    requires s.ruleAt[rule] == rule.View()
    requires Gathered(s, s.live.Keys, lists) && current == if rule in lists then lists[rule] else []
    ensures RuleShown(s, name, shown)
  {
    hide Inv, WayShown, TargetsListed, Shows, Listed;
    Known(s);
    assert Listed(s, rule, s.live.Keys, current);
    var connections := Sort(current, ById);
    ListedPermuted(s, rule, s.live.Keys, current, connections);
    var stats := Show(rule.count, s);
    assert rule.listenWay == s.ruleAt[rule].Way(Listening) && rule.forwardWay == s.ruleAt[rule].Way(Forwarding);
    var listen := SnapshotWay(rule.listenWay, s);
    var forward := SnapshotWay(rule.forwardWay, s);
    var targets := SnapshotTargets(rule.targets, s);
    shown := RuleStats(name, stats, listen, forward, targets, connections, rule.targetsEvicted);
  }

  // ------------------------------------------------------------------ what a snapshot means

  // Every tracked connection is shown, and nothing else: exactly once, under its own rule and in
  // ascending order of ids.
  lemma LiveShownOnce(s: State, snapshot: Snapshot, id: nat)
    requires Inv(s) && Ordered(s) && Shown(s, snapshot)
    ensures id in s.live <==> exists i, k :: ShownAt(snapshot, i, k, id)
    ensures forall i, k, i', k' :: ShownAt(snapshot, i, k, id) && ShownAt(snapshot, i', k', id) ==> i == i' && k == k'
    ensures forall i, k :: ShownAt(snapshot, i, k, id) ==> s.rules[snapshot.rules[i].name] == s.live[id].rule
    ensures forall i :: 0 <= i < |snapshot.rules| ==> Ascending(snapshot.rules[i].connections)
  {
    hide Inv, RuleShown, Ordered;
    if id in s.live {
      LiveIsShown(s, snapshot, id);
    }
    forall i, k | ShownAt(snapshot, i, k, id)
      ensures id in s.live && snapshot.rules[i].name in s.rules && s.rules[snapshot.rules[i].name] == s.live[id].rule
    {
      ShownIsLive(s, snapshot, id, i, k);
    }
    forall i, k, i', k' | ShownAt(snapshot, i, k, id) && ShownAt(snapshot, i', k', id) ensures i == i' && k == k' {
      ShownIsLive(s, snapshot, id, i, k);
      ShownIsLive(s, snapshot, id, i', k');
      assert i == i' by { DistinctOrder(s, i, i'); }
    }
    forall i | 0 <= i < |snapshot.rules| ensures Ascending(snapshot.rules[i].connections) {
      ConnectionsOf(s, snapshot, i);
    }
  }

  lemma DistinctOrder(s: State, i: nat, j: nat)
    requires Ordered(s) && i < |s.order| && j < |s.order| && s.order[i] == s.order[j]
    ensures i == j
  {
  }

  lemma ConnectionsOf(s: State, snapshot: Snapshot, i: nat)
    requires Shown(s, snapshot) && i < |snapshot.rules|
    ensures snapshot.rules[i].name == s.order[i] && s.order[i] in s.rules
    ensures Listed(s, s.rules[s.order[i]], s.live.Keys, snapshot.rules[i].connections)
    ensures Ascending(snapshot.rules[i].connections)
  {
  }

  lemma LiveIsShown(s: State, snapshot: Snapshot, id: nat)
    requires Inv(s) && Ordered(s) && Shown(s, snapshot) && id in s.live
    ensures exists i, k :: ShownAt(snapshot, i, k, id)
  {
    hide Inv, RuleShown, Shows;
    LiveIs(s, id);
    var name := s.ruleAt[s.live[id].rule].name;
    var i :| 0 <= i < |s.order| && s.order[i] == name;
    ConnectionsOf(s, snapshot, i);
    var c :| c in snapshot.rules[i].connections && c.id == id;
    var k :| 0 <= k < |snapshot.rules[i].connections| && snapshot.rules[i].connections[k] == c;
    assert ShownAt(snapshot, i, k, id);
  }

  lemma ShownIsLive(s: State, snapshot: Snapshot, id: nat, i: nat, k: nat)
    requires Inv(s) && Shown(s, snapshot) && ShownAt(snapshot, i, k, id)
    ensures id in s.live && snapshot.rules[i].name == s.order[i] && s.order[i] in s.rules
    ensures s.rules[s.order[i]] == s.live[id].rule
    ensures s.live[id].rule in s.ruleAt && s.order[i] == s.ruleAt[s.live[id].rule].name
    ensures Ascending(snapshot.rules[i].connections)
  {
    hide Inv, RuleShown, Shows, Ascending;
    ConnectionsOf(s, snapshot, i);
    NameIs(s, s.order[i]);
  }

  predicate ShownAt(snapshot: Snapshot, i: int, k: int, id: nat) {
    0 <= i < |snapshot.rules| && 0 <= k < |snapshot.rules[i].connections| && snapshot.rules[i].connections[k].id == id
  }

  lemma NameIs(s: State, n: string)
    requires Inv(s) && n in s.rules
    ensures s.rules[n] in s.ruleAt && s.ruleAt[s.rules[n]].name == n
  {
    hide Inv;
    NamesKnown(s);
  }

  lemma {:induction false} SumSeqViews(s: State, counters: seq<Counter>, f: Counter -> int, t: Total)
    requires forall c :: c in counters ==> c in s.countAt && f(c) == Measure(s.countAt[c], t)
    ensures SumSeq(Views(s, counters), v => Measure(v, t)) == SumSeq(counters, f)
  {
    if counters != [] {
      var last := |counters| - 1;
      SumSeqViews(s, counters[..last], f, t);
      assert Views(s, counters)[..last] == Views(s, counters[..last]);
    }
  }

  // The totals a hop shows as sums; its peaks are retained ones, and latencies only show as an average.
  predicate ShownAsSum(t: Total) { !t.PeakUp? && !t.PeakDown? && !t.LatencySum? }

  function ShownTotal(stats: Stats, t: Total): int { TotalOf(Snap(stats, 0, 0, 0, 0, 0), t) }

  // What a hop shows counts each distinct counter once, however many of its URLs share one and in
  // whatever order they are listed.
  lemma HopAddsDistinct(s: State, way: seq<Hop>, i: nat, h: HopStats, t: Total, f: Counter -> int)
    requires i < |way| && HopShown(s, way, i, h) && ShownAsSum(t)
    requires forall c :: c in way[i].Counts() ==> c in s.countAt && f(c) == Measure(s.countAt[c], t)
    ensures ShownTotal(h.stats, t) == Sum(way[i].Counts(), f)
  {
    hide Together;
    ViewsAddDistinct(s, way[i], t, f);
  }

  lemma ViewsAddDistinct(s: State, hop: Hop, t: Total, f: Counter -> int)
    requires forall c :: c in Unique(hop.urls) ==> c in s.countAt
    requires forall c :: c in hop.Counts() ==> c in s.countAt && f(c) == Measure(s.countAt[c], t)
    ensures TotalOf(Together(Views(s, Unique(hop.urls))), t) == Sum(hop.Counts(), f)
  {
    var counters := Unique(hop.urls);
    forall c | c in counters ensures c in hop.Counts() {}
    TotalsAdd(Views(s, counters), t);
    SumSeqViews(s, counters, f, t);
    UniqueSums(hop, f);
  }

  lemma RateShown(s: State, way: seq<Hop>, i: nat, h: HopStats)
    requires i < |way| && HopShown(s, way, i, h) && way[i].Counts() <= s.countAt.Keys
    ensures h.stats.rateUp == s.HopRate(way[i], true) && h.stats.rateDown == s.HopRate(way[i], false)
  {
    hide HopShown, Together, Unique, Hop.Counts;
    HopAddsDistinct(s, way, i, h, RateUp, s.RateOf(true));
    HopAddsDistinct(s, way, i, h, RateDown, s.RateOf(false));
  }

  // A hop is never shown faster than its peak, nor with a peak below one of its URLs'.
  lemma PeakShownCoversRates(s: State, r: RegistryState.Rule, role: Role, hops: seq<HopStats>, i: nat)
    requires Inv(s) && r in s.ruleAt && s.Registered(r) && WayShown(s, s.ruleAt[r].Way(role), hops) && i < |hops|
    ensures hops[i].stats.rateUp <= hops[i].stats.peakUp && hops[i].stats.rateDown <= hops[i].stats.peakDown
    ensures forall j :: 0 <= j < |hops[i].urls| ==>
              hops[i].urls[j].stats.peakUp <= hops[i].stats.peakUp &&
                hops[i].urls[j].stats.peakDown <= hops[i].stats.peakDown
  {
    hide Inv, HopPeaked, State.HopRate, Together, Of;
    var way := s.ruleAt[r].Way(role);
    Known(s);
    assert HopShown(s, way, i, hops[i]);
    RateShown(s, way, i, hops[i]);
    PeaksOf(s, r, role, i, true);
    PeaksOf(s, r, role, i, false);
    RegistryProofs.HopPeakedIs(s, way[i], true);
    RegistryProofs.HopPeakedIs(s, way[i], false);
    forall j | 0 <= j < |hops[i].urls|
      ensures hops[i].urls[j].stats.peakUp <= hops[i].stats.peakUp
      ensures hops[i].urls[j].stats.peakDown <= hops[i].stats.peakDown
    {
      UrlShown(s, way, i, hops[i], j);
    }
  }

  lemma UrlShown(s: State, way: seq<Hop>, i: nat, h: HopStats, j: nat)
    requires i < |way| && HopShown(s, way, i, h) && j < |h.urls|
    ensures way[i].urls[j].count in way[i].Counts() && way[i].urls[j].count in s.countAt
    ensures var v := s.countAt[way[i].urls[j].count];
            h.urls[j].stats.peakUp == v.Peak(true) && h.urls[j].stats.peakDown == v.Peak(false)
  {
  }

  lemma PeaksOf(s: State, r: RegistryState.Rule, role: Role, i: nat, isUp: bool)
    requires Inv(s) && r in s.ruleAt && s.Registered(r) && i < |s.ruleAt[r].Way(role)|
    ensures HopPeaked(s, s.ruleAt[r].Way(role)[i], isUp)
  {
    hide Structure, Counting, AllSane, Windows, BytesCovered, HopPeaked;
    assert RulePeaked(s, s.ruleAt[r]);
    assert WayPeaked(s, s.ruleAt[r].Way(role));
  }
}

/** Facts about registry states that the registry's methods are put together from. */
module RegistryParts {
  import opened Text
  import opened Sums
  import opened Counters
  import opened RegistryState
  import Steps = RegistrySteps
  import opened RegistryProofs
  import Runs = RegistryRuns
  import Config

  // Counters are only added, and keep what they were made for.
  ghost predicate OnlyMade(counts: set<Counter>, homes: map<Counter, Home>, counts': set<Counter>,
                           homes': map<Counter, Home>) {
    counts <= counts' && forall c :: c in counts && c in homes ==> c in homes' && homes'[c] == homes[c]
  }

  lemma OnlyMadeMore(c0: set<Counter>, h0: map<Counter, Home>, c1: set<Counter>, h1: map<Counter, Home>,
                     c2: set<Counter>, h2: map<Counter, Home>)
    ensures OnlyMade(c0, h0, c0, h0)
    ensures OnlyMade(c0, h0, c1, h1) && OnlyMade(c1, h1, c2, h2) ==> OnlyMade(c0, h0, c2, h2)
  {
  }

  // Extends, between states.
  ghost predicate CountsExtend(s: State, s1: State) {
    && s1.home.Keys == s1.countAt.Keys
    && (forall c :: c in s.countAt ==>
         c in s1.countAt && s1.countAt[c] == s.countAt[c] && (c in s.home ==> s1.home[c] == s.home[c]))
    && (forall c :: c in s1.countAt && c !in s.countAt ==> s1.countAt[c] == Fresh(s.lastTick))
  }

  ghost predicate Picked(s: State, name: string, entry: Rule) {
    if name in s.rules then entry == s.rules[name] else entry !in s.ruleAt
  }

  ghost predicate AllSynced(redact: Steps.Redact, s: State, s1: State, cfgs: seq<Config.Rule>,
                            updated: map<string, Rule>) {
    forall i :: 0 <= i < |cfgs| ==>
      && cfgs[i].name in updated && Picked(s, cfgs[i].name, updated[cfgs[i].name])
      && Steps.RuleSynced(redact, s, s1, updated[cfgs[i].name], cfgs[i])
  }

  // The entries cfgs have their rule objects, all else is as in s.
  ghost predicate EachSynced(redact: Steps.Redact, s: State, s1: State, cfgs: seq<Config.Rule>,
                             updated: map<string, Rule>) {
    && s1 == s.(ruleAt := s1.ruleAt, countAt := s1.countAt, home := s1.home)
    && (forall n :: n in updated ==> exists i :: 0 <= i < |cfgs| && cfgs[i].name == n)
    && AllSynced(redact, s, s1, cfgs, updated)
    && (forall r :: r in s1.ruleAt ==> r in s.ruleAt || r in updated.Values)
    && (forall r :: r in s.ruleAt ==> r in s1.ruleAt && (r !in updated.Values ==> s1.ruleAt[r] == s.ruleAt[r]))
  }

  // From s1 to s2 only the rule object of cfg has changed.
  ghost predicate NextSynced(redact: Steps.Redact, s: State, s1: State, s2: State, cfg: Config.Rule, entry: Rule) {
    && s2 == s1.(ruleAt := s2.ruleAt, countAt := s2.countAt, home := s2.home)
    && OnlyMade(s1.countAt.Keys, s1.home, s2.countAt.Keys, s2.home)
    && Picked(s, cfg.name, entry) && Steps.RuleSynced(redact, s, s2, entry, cfg)
    && entry in s2.ruleAt && s2.ruleAt == s1.ruleAt[entry := s2.ruleAt[entry]]
    && (entry in s1.ruleAt ==> s1.ruleAt[entry].name == cfg.name)
  }

  lemma RuleSyncedKept(redact: Steps.Redact, s: State, s1: State, s2: State, r: Rule, cfg: Config.Rule)
    requires Steps.RuleSynced(redact, s, s1, r, cfg) && r in s2.ruleAt && s2.ruleAt[r] == s1.ruleAt[r]
    requires CountsExtend(s, s2) && OnlyMade(s1.countAt.Keys, s1.home, s2.countAt.Keys, s2.home)
    ensures Steps.RuleSynced(redact, s, s2, r, cfg)
  {
  }

  lemma AllSyncedMore(redact: Steps.Redact, s: State, s1: State, s2: State, cfgs: seq<Config.Rule>, cfg: Config.Rule,
                      updated: map<string, Rule>, entry: Rule)
    requires AllSynced(redact, s, s1, cfgs, updated) && NextSynced(redact, s, s1, s2, cfg, entry) && CountsExtend(s, s2)
    requires forall i :: 0 <= i < |cfgs| ==> cfgs[i].name != cfg.name
    ensures AllSynced(redact, s, s2, cfgs + [cfg], updated[cfg.name := entry])
  {
    hide CountsExtend, OnlyMade, Steps.RuleSynced;
    forall i | 0 <= i < |cfgs|
      ensures updated[cfgs[i].name] != entry && Steps.RuleSynced(redact, s, s2, updated[cfgs[i].name], cfgs[i])
    {
      RuleSyncedNamed(redact, s, s1, updated[cfgs[i].name], cfgs[i]);
      RuleSyncedKept(redact, s, s1, s2, updated[cfgs[i].name], cfgs[i]);
    }
  }

  lemma EachSyncedMore(redact: Steps.Redact, s: State, s1: State, s2: State, cfgs: seq<Config.Rule>, cfg: Config.Rule,
                       updated: map<string, Rule>, entry: Rule)
    requires EachSynced(redact, s, s1, cfgs, updated) && NextSynced(redact, s, s1, s2, cfg, entry)
    requires CountsExtend(s, s2)
    requires forall i :: 0 <= i < |cfgs| ==> cfgs[i].name != cfg.name
    ensures EachSynced(redact, s, s2, cfgs + [cfg], updated[cfg.name := entry])
  {
    hide CountsExtend, OnlyMade, Steps.RuleSynced, AllSynced;
    AllSyncedMore(redact, s, s1, s2, cfgs, cfg, updated, entry);
    var all, updated' := cfgs + [cfg], updated[cfg.name := entry];
    assert all[|cfgs|] == cfg;
    ValuesMore(updated, cfg.name, entry);
    forall n | n in updated' ensures exists i :: 0 <= i < |all| && all[i].name == n {
      if n in updated {
        var i :| 0 <= i < |cfgs| && cfgs[i].name == n;
        assert all[i].name == n;
      }
    }
  }

  lemma ValuesMore(updated: map<string, Rule>, name: string, entry: Rule)
    requires name !in updated
    ensures updated[name := entry].Values == updated.Values + {entry}
  {
    var updated' := updated[name := entry];
    forall r | r in updated.Values ensures r in updated'.Values {
      var n :| n in updated && updated[n] == r;
      assert updated'[n] == r;
    }
    assert updated'[name] == entry;
  }

  lemma RuleSyncedNamed(redact: Steps.Redact, s: State, s1: State, r: Rule, cfg: Config.Rule)
    requires Steps.RuleSynced(redact, s, s1, r, cfg)
    ensures r in s1.ruleAt && s1.ruleAt[r].name == cfg.name
  {
  }

  // What EachSynced leaves alone.
  lemma EachSyncedIs(redact: Steps.Redact, s: State, s1: State, cfgs: seq<Config.Rule>, updated: map<string, Rule>)
    requires EachSynced(redact, s, s1, cfgs, updated)
    ensures s1.live == s.live && forall r :: r in s.ruleAt ==> r in s1.ruleAt
  {
  }

  ghost predicate Names(updated: map<string, Rule>, r: Rule) { r.name in updated && updated[r.name] == r }

  ghost predicate Pruned(entries: map<nat, Live>, updated: map<string, Rule>, kept: map<nat, Live>) {
    kept == map id | id in entries && Names(updated, entries[id].rule) :: entries[id]
  }

  ghost predicate PrunedIn(s: State, updated: map<string, Rule>, kept: map<nat, Live>) {
    kept == map id | id in s.live && s.live[id].rule in s.ruleAt &&
      s.(rules := updated).Registered(s.live[id].rule) :: s.live[id]
  }

  lemma PrunedIs(s: State, entries: map<nat, Live>, updated: map<string, Rule>, kept: map<nat, Live>)
    requires Pruned(entries, updated, kept) && s.live == entries
    requires forall id :: id in entries ==>
             entries[id].rule in s.ruleAt && s.ruleAt[entries[id].rule].name == entries[id].rule.name
    ensures PrunedIn(s, updated, kept)
  {
  }

  lemma AllSyncedReads(redact: Steps.Redact, s: State, s1: State, s2: State, cfgs: seq<Config.Rule>)
    requires AllSynced(redact, s, s1, cfgs, s2.rules) && s2.ruleAt == s1.ruleAt && s2.countAt == s1.countAt
    requires s2.home == s1.home
    ensures forall i :: 0 <= i < |cfgs| ==>
              Steps.Chosen(s, s2, cfgs[i].name) && Steps.RuleSynced(redact, s, s2, s2.rules[cfgs[i].name], cfgs[i])
  {
  }

  lemma PrunedReads(s: State, s1: State, updated: map<string, Rule>, names: seq<string>, kept: map<nat, Live>)
    requires PrunedIn(s1, updated, kept) && s1.live == s.live
    ensures var s' := s1.(rules := updated, order := names, live := kept);
            s'.live == map id | id in s.live && s.live[id].rule in s'.ruleAt &&
              s'.Registered(s.live[id].rule) :: s.live[id]
  {
  }

  lemma SyncCompose(redact: Steps.Redact, s: State, s1: State, cfgs: seq<Config.Rule>,
                    updated: map<string, Rule>, names: seq<string>, kept: map<nat, Live>)
    requires EachSynced(redact, s, s1, cfgs, updated) && CountsExtend(s, s1) && PrunedIn(s1, updated, kept)
    requires names == seq(|cfgs|, i requires 0 <= i < |cfgs| => cfgs[i].name)
    ensures Steps.Sync(redact, s, s1.(rules := updated, order := names, live := kept), cfgs)
  {
    hide Steps.RuleSynced, Steps.Chosen, AllSynced, PrunedIn;
    AllSyncedReads(redact, s, s1, s1.(rules := updated, order := names, live := kept), cfgs);
    PrunedReads(s, s1, updated, names, kept);
  }

  lemma OnlyMadeKeeps(c0: set<Counter>, h0: map<Counter, Home>, c1: set<Counter>, h1: map<Counter, Home>)
    requires OnlyMade(c0, h0, c1, h1)
    ensures c0 <= c1 && forall c :: c in c0 && c in h0 ==> c in h1 && h1[c] == h0[c]
  {
  }

  lemma WaySyncedKept(redact: Steps.Redact, before: seq<Hop>, way: seq<Hop>, counters: map<HopKey, Counter>,
                      after: map<HopKey, Counter>, role: Role, nodes: seq<Config.Node>)
    requires Steps.WaySynced(redact, before, way, counters, role, nodes)
    requires MapKept(counters, after) && forall key :: key in after && key !in counters ==> key.role != role
    ensures Steps.WaySynced(redact, before, way, after, role, nodes)
  {
  }

  ghost predicate MapKept(before: map<HopKey, Counter>, after: map<HopKey, Counter>) {
    forall key :: key in before ==> key in after && after[key] == before[key]
  }

  // The URLs of one hop have been given their counters.
  ghost predicate HopSynced(redact: Steps.Redact, role: Role, index: nat, node: Config.Node,
                            before: map<HopKey, Counter>, urls: seq<UrlCounter>, after: map<HopKey, Counter>) {
    && |urls| == |node| && MapKept(before, after)
    && (forall j :: 0 <= j < |node| ==>
          HopKey(role, index, redact(node[j])) in after &&
            urls[j] == UrlCounter(redact(node[j]), after[HopKey(role, index, redact(node[j]))]))
    && (forall key :: key in after && key !in before ==>
          key.role == role && key.index == index && exists j :: 0 <= j < |node| && key.url == redact(node[j]))
  }

  lemma HopSyncedMore(redact: Steps.Redact, role: Role, index: nat, node: Config.Node, url: string,
                      before: map<HopKey, Counter>, urls0: seq<UrlCounter>, after0: map<HopKey, Counter>,
                      urls: seq<UrlCounter>, after: map<HopKey, Counter>)
    requires HopSynced(redact, role, index, node, before, urls0, after0)
    requires var key := HopKey(role, index, redact(url));
             key in after && urls == urls0 + [UrlCounter(key.url, after[key])] && after == if key in after0
               then after0 else after0[key := after[key]]
    ensures HopSynced(redact, role, index, node + [url], before, urls, after)
  {
    assert (node + [url])[|node|] == url;
    forall key | key in after && key !in before
      ensures key.role == role && key.index == index
      ensures exists j :: 0 <= j < |node + [url]| && key.url == redact((node + [url])[j])
    {
      if key in after0 {
        var j :| 0 <= j < |node| && key.url == redact(node[j]);
        assert (node + [url])[j] == node[j];
      }
    }
  }

  lemma WayKeysMore(redact: Steps.Redact, before: seq<Hop>, role: Role, nodes: seq<Config.Node>, node: Config.Node,
                    way: seq<Hop>, after0: map<HopKey, Counter>, urls: seq<UrlCounter>, after: map<HopKey, Counter>,
                    key: HopKey)
    requires Steps.WaySynced(redact, before, way, after0, role, nodes)
    requires HopSynced(redact, role, |nodes|, node, after0, urls, after)
    requires key in after && key.role == role
    ensures exists i, j ::
              && 0 <= i <= |nodes| && 0 <= j < |(nodes + [node])[i]|
              && key == Steps.KeyAt(redact, role, nodes + [node], i, j)
  {
    var all := nodes + [node];
    if key in after0 {
      var i, j :| 0 <= i < |nodes| && 0 <= j < |nodes[i]| && key == Steps.KeyAt(redact, role, nodes, i, j);
      assert all[i] == nodes[i] && key == Steps.KeyAt(redact, role, all, i, j);
    } else {
      var j :| 0 <= j < |node| && key.url == redact(node[j]);
      assert all[|nodes|] == node && key == Steps.KeyAt(redact, role, all, |nodes|, j);
    }
  }

  lemma WayMore(redact: Steps.Redact, before: seq<Hop>, role: Role, nodes: seq<Config.Node>, node: Config.Node,
                way: seq<Hop>, after0: map<HopKey, Counter>, hop: Hop, after: map<HopKey, Counter>)
    requires Steps.WaySynced(redact, before, way, after0, role, nodes)
    requires HopSynced(redact, role, |nodes|, node, after0, hop.urls, after)
    requires hop == if |nodes| < |before| then Hop(hop.urls, before[|nodes|].peakUp, before[|nodes|].peakDown)
             else Hop(hop.urls, 0, 0)
    ensures Steps.WaySynced(redact, before, way + [hop], after, role, nodes + [node])
  {
    var all, way' := nodes + [node], way + [hop];
    forall i, j | 0 <= i < |all| && 0 <= j < |all[i]|
      ensures Steps.KeyAt(redact, role, all, i, j) in after && j < |way'[i].urls|
      ensures way'[i].urls[j] == UrlCounter(redact(all[i][j]), after[Steps.KeyAt(redact, role, all, i, j)])
    {}
    forall key | key in after && key.role == role
      ensures exists i, j :: 0 <= i < |all| && 0 <= j < |all[i]| && key == Steps.KeyAt(redact, role, all, i, j)
    {
      WayKeysMore(redact, before, role, nodes, node, way, after0, hop.urls, after, key);
    }
    forall i | 0 <= i < |all|
      ensures way'[i].peakUp == (if i < |before| then before[i].peakUp else 0)
      ensures way'[i].peakDown == (if i < |before| then before[i].peakDown else 0)
      ensures |way'[i].urls| == |all[i]|
    {
      hide MapKept, Steps.KeyAt;
    }
    hide HopSynced, Steps.KeyAt;
  }

  lemma WayStarts(redact: Steps.Redact, before: seq<Hop>, role: Role, counters: map<HopKey, Counter>)
    requires forall key :: key in counters ==> key.role != role
    ensures Steps.WaySynced(redact, before, [], counters, role, []) && MapKept(counters, counters)
  {
  }

  lemma WaySyncedMore(redact: Steps.Redact, before: seq<Hop>, role: Role, nodes: seq<Config.Node>, node: Config.Node,
                      given: map<HopKey, Counter>, way: seq<Hop>, after0: map<HopKey, Counter>, hop: Hop,
                      after: map<HopKey, Counter>)
    requires Steps.WaySynced(redact, before, way, after0, role, nodes)
    requires HopSynced(redact, role, |nodes|, node, after0, hop.urls, after)
    requires hop == if |nodes| < |before| then Hop(hop.urls, before[|nodes|].peakUp, before[|nodes|].peakDown)
             else Hop(hop.urls, 0, 0)
    requires MapKept(given, after0) && (forall key :: key in after0 && key !in given ==> key.role == role)
    ensures Steps.WaySynced(redact, before, way + [hop], after, role, nodes + [node])
    ensures MapKept(given, after) && forall key :: key in after && key !in given ==> key.role == role
  {
    hide Steps.WaySynced;
    WayMore(redact, before, role, nodes, node, way, after0, hop, after);
  }

  lemma HopCounterKnown(s: State, r: Rule, key: HopKey)
    requires Inv(s) && r in s.ruleAt && key in s.ruleAt[r].counters
    ensures s.ruleAt[r].counters[key] in s.countAt
  {
    assert RuleShape(s, r, s.ruleAt[r]);
  }

  lemma ConnKnown(s: State, k: Conn)
    requires Inv(s) && k in s.connAt
    ensures s.connAt[k].count in s.countAt
  {
  }

  lemma ConnCounters(s: State, k: Conn)
    requires Inv(s) && k in s.connAt
    ensures s.connAt[k].count in s.countAt && (s.connAt[k].extra.Some? ==> s.connAt[k].extra.value in s.countAt)
    ensures s.connAt[k].extra != Some(s.connAt[k].count)
  {
    hide Shape, Tracked, Counting, Traffic;
    assert ConnShape(s, k, s.connAt[k]);
  }

  lemma EntryKnown(s: State, id: nat)
    requires Inv(s) && id in s.live
    ensures s.live[id].conn in s.connAt && s.connAt[s.live[id].conn].tracked == Some(id)
  {
    hide Shape, RegistryState.Conns, Counting, Traffic;
    assert LiveEntry(s, id, s.live[id]);
  }

  // The rule still has the target a tracked connection names.
  ghost predicate NamesTarget(s: State, l: Live) { l.rule in s.ruleAt && l.Key() in s.ruleAt[l.rule].targets }

  ghost function Named(s: State, l: Live): Counter
    requires NamesTarget(s, l)
  {
    s.ruleAt[l.rule].targets[l.Key()]
  }

  lemma KeptIs(s: State, kept: set<Counter>)
    requires forall id :: id in s.live && NamesTarget(s, s.live[id]) ==> Named(s, s.live[id]) in kept
    requires forall c :: c in kept ==>
             exists id :: id in s.live && NamesTarget(s, s.live[id]) && Named(s, s.live[id]) == c
    ensures kept == Steps.Kept(s)
  {
  }

  ghost function ResettedSome(s: State, cs: set<Counter>, now: Time): State {
    s.(since := now, countAt := map c | c in s.countAt :: if c in cs then s.countAt[c].Resetted(s.lastTick)
      else s.countAt[c])
  }

  ghost function Restarted(s: State, now: Time): State {
    s.(live := map id | id in s.live :: s.live[id].(started := now))
  }

  ghost function ClearedRules(s: State, rs: set<Rule>, kept: set<Counter>): State {
    s.(ruleAt := map r | r in s.ruleAt :: if r in rs then Steps.ClearedRule(s.ruleAt[r], kept) else s.ruleAt[r])
  }

  lemma ResetCompose(s: State, cs: set<Counter>, rs: set<Rule>, now: Time)
    requires forall c :: c in s.countAt ==> (c in cs <==> s.Visible(c))
    requires forall r :: r in s.ruleAt ==> (r in rs <==> s.Registered(r))
    ensures var s1 := ResettedSome(s, cs, now);
            ClearedRules(Restarted(s1, now), rs, Steps.Kept(s1)) == Steps.Reset(s, now)
  {
  }

  lemma NamesKnown(s: State)
    requires Inv(s)
    ensures forall id :: id in s.live ==> s.live[id].rule in s.ruleAt
    ensures forall n :: n in s.rules ==> s.rules[n] in s.ruleAt && s.ruleAt[s.rules[n]].name == n
  {
  }

  lemma VisibleExist(s: State)
    requires Inv(s)
    ensures forall c :: s.Visible(c) ==> c in s.countAt
  {
    hide Counting, Traffic, RegistryState.Conns, WayShape;
    forall c | s.Visible(c) ensures c in s.countAt {
      if r :| r in s.ruleAt && s.Registered(r) && s.ruleAt[r].Holds(c) {
        assert RuleShape(s, r, s.ruleAt[r]);
      } else {
        var id :| id in s.live && s.live[id].count == c;
        assert LiveEntry(s, id, s.live[id]);
      }
    }
  }

  ghost function TickedSome(s: State, cs: set<Counter>, now: Time): State {
    s.(lastTick := now, countAt := map c | c in s.countAt :: if c in cs then s.countAt[c].Ticked(now) else s.countAt[c])
  }

  ghost function PeakedRules(s: State, rs: set<Rule>): State {
    s.(ruleAt := map r | r in s.ruleAt :: if r in rs then Steps.PeakedRule(s, s.ruleAt[r]) else s.ruleAt[r])
  }

  lemma TickCompose(s: State, cs: set<Counter>, rs: set<Rule>, now: Time)
    requires forall c :: c in s.countAt ==> (c in cs <==> s.Visible(c))
    requires forall r :: r in s.ruleAt ==> (r in rs <==> s.Registered(r))
    ensures PeakedRules(TickedSome(s, cs, now), rs) == Steps.Tick(s, now)
  {
    assert TickedSome(s, cs, now).countAt == Steps.Tick(s, now).countAt;
    assert PeakedRules(TickedSome(s, cs, now), rs).ruleAt == Steps.Tick(s, now).ruleAt;
  }

  // The name map holds the registered rules, and their hops hold known counters.
  lemma RegisteredAre(s: State)
    requires Inv(s)
    ensures forall r :: r in s.ruleAt ==> (r in s.rules.Values <==> s.Registered(r))
    ensures forall n :: n in s.rules ==> s.rules[n] in s.ruleAt
    ensures forall r, role: Role, i :: r in s.ruleAt && 0 <= i < |s.ruleAt[r].Way(role)| ==>
            s.ruleAt[r].Way(role)[i].Counts() <= s.countAt.Keys
  {
    hide Inv;
    NamesKnown(s);
    forall r, role: Role, i | r in s.ruleAt && 0 <= i < |s.ruleAt[r].Way(role)|
      ensures s.ruleAt[r].Way(role)[i].Counts() <= s.countAt.Keys
    {
      forall c | c in s.ruleAt[r].Way(role)[i].Counts() ensures c in s.countAt {
        ShapeAndSane(s);
        HopCountsExist(s, r, role, i, c);
      }
    }
  }

  // Peaks are raised to rates, which only counters decide.
  lemma PeaksRead(s: State, s': State, way: seq<Hop>)
    requires s'.countAt == s.countAt
    ensures Steps.PeakedWay(s', way) == Steps.PeakedWay(s, way)
  {
  }

  // The distinct counters of a hop, in the order its URLs first name them.
  function Unique(urls: seq<UrlCounter>): (counters: seq<Counter>)
    ensures forall c :: c in counters ==> exists i :: 0 <= i < |urls| && urls[i].count == c
    ensures forall i :: 0 <= i < |urls| ==> urls[i].count in counters
    ensures forall i, j :: 0 <= i < j < |counters| ==> counters[i] != counters[j]
  {
    if urls == [] then []
    else
      var last := |urls| - 1;
      var before := Unique(urls[..last]);
      if urls[last].count in before then before else before + [urls[last].count]
  }

  method UniqueCounters(urls: seq<UrlCounter>) returns (counters: seq<Counter>)
    ensures counters == Unique(urls)
  {
    counters := [];
    var seen: set<Counter> := {};
    for i := 0 to |urls|
      invariant counters == Unique(urls[..i])
      invariant forall c :: c in seen <==> c in counters
    {
      assert urls[..i + 1][..i] == urls[..i];
      if urls[i].count !in seen {
        seen := seen + {urls[i].count};
        counters := counters + [urls[i].count];
      }
    }
    assert urls[..|urls|] == urls;
  }

  // Adding up each distinct counter of a hop once is the sum over its counters, however many of
  // its URLs share one and in whatever order they are listed.
  lemma UniqueSums(hop: Hop, f: Counter -> int)
    ensures SumSeq(Unique(hop.urls), f) == Sum(hop.Counts(), f)
  {
    var counters := Unique(hop.urls);
    SumSeqIsSum(counters, f);
    forall c: Counter | c in SetOf(counters) ensures c in hop.Counts() {
      InSetOf(counters, c);
    }
    forall c: Counter | c in hop.Counts() ensures c in SetOf(counters) {
      InSetOf(counters, c);
    }
    assert SetOf(counters) == hop.Counts();
  }

  // What a valid state knows of a rule.
  lemma KnownRule(s: State, r: Rule)
    requires Inv(s) && r in s.ruleAt
    ensures s.ruleAt[r].count in s.countAt
    ensures forall k :: k in s.ruleAt[r].targets ==> s.ruleAt[r].targets[k] in s.countAt
  {
    assert RuleShape(s, r, s.ruleAt[r]);
  }

  lemma DialKept(s: State, c: Counter, elapsed: int, now: Time, failed: bool)
    requires Inv(s) && c in s.countAt
    ensures Inv(Steps.CountDial(s, c, elapsed, now, failed))
    ensures Steps.CountDial(s, c, elapsed, now, failed).ruleAt == s.ruleAt
  {
    hide Inv;
    KeepCountDial(s, c, elapsed, now, failed);
  }

  method RouteOf(way: seq<Hop>, dialed: map<nat, string>) returns (path: seq<PathHop>)
    ensures path == Runs.Route(way, dialed)
    ensures |path| == |way| && forall i :: 0 <= i < |way| ==>
              && path[i].index == i && path[i].dialed == (i in dialed)
              && if i in dialed then path[i].url == dialed[i]
                 else if way[i].urls != [] && forall u :: u in way[i].urls ==> u.url == way[i].urls[0].url
                 then path[i].url == way[i].urls[0].url
                 else path[i].url == ""
  {
    path := [];
    for index := 0 to |way|
      invariant |path| == index && forall i :: 0 <= i < index ==> path[i] == Runs.Route(way, dialed)[i]
    {
      var url := if index in dialed then dialed[index] else "";
      if index !in dialed && |way[index].urls| > 0 {
        url := way[index].urls[0].url;
        for j := 1 to |way[index].urls|
          invariant url == way[index].urls[0].url && forall k :: 0 <= k < j ==> way[index].urls[k].url == url
        {
          if way[index].urls[j].url != url {
            url := "";
            break;
          }
        }
      }
      path := path + [PathHop(index, url, index in dialed)];
    }
  }
}

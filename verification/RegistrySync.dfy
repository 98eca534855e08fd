/** A configuration sync keeps the invariants. */
module RegistrySync {
  import opened Sums
  import opened Counters
  import opened RegistryState
  import opened RegistrySteps
  import opened RegistryProofs
  import opened RegistryTargets
  import opened RegistryHops
  import Config

  // ------------------------------------------------------------------ one rule

  ghost function Before(s: State, s': State, r: Rule, name: string): RuleView
    requires r in s'.ruleAt
  {
    if r in s.ruleAt then s.ruleAt[r] else RuleView(name, s'.ruleAt[r].count, [], [], map[], map[], 0)
  }

  lemma SyncedSide(redact: Redact, before: RuleView, v: RuleView, role: Role, nodes: seq<Config.Node>)
    requires WaySynced(redact, before.Way(role), v.Way(role), v.counters, role, nodes)
    ensures WayShape(v, role)
  {
  }

  lemma SyncedShape(redact: Redact, s: State, s': State, r: Rule, cfg: Config.Rule)
    requires CountsKept(s, s') && HomesKept(s, s') && RuleSynced(redact, s, s', r, cfg)
    requires r in s.ruleAt ==> RuleShape(s, r, s.ruleAt[r])
    ensures RuleShape(s', r, s'.ruleAt[r])
  {
    hide WayShape, WaySynced;
    var before, after := Before(s, s', r, cfg.name), s'.ruleAt[r];
    SyncedSide(redact, before, after, Listening, cfg.listen.way);
    SyncedSide(redact, before, after, Forwarding, cfg.forward.way);
  }

  // A synced hop holds counters of the hop it was, or new ones.
  lemma SyncedHopCounts(redact: Redact, s: State, s': State, r: Rule, cfg: Config.Rule, role: Role, i: nat, c: Counter)
    requires RuleSynced(redact, s, s', r, cfg) && i < |s'.ruleAt[r].Way(role)|
    requires c in s'.ruleAt[r].Way(role)[i].Counts()
    requires r in s.ruleAt ==> WayShape(s.ruleAt[r], role)
    ensures (r in s.ruleAt && i < |s.ruleAt[r].Way(role)| && c in s.ruleAt[r].Way(role)[i].Counts())
            || (c !in s.countAt && c in s'.countAt && s'.countAt[c] == Fresh(s.lastTick))
  {
  }

  lemma SyncedHopPeaked(s: State, s': State, hop: Hop, hop': Hop, isUp: bool)
    requires HopPeaked(s, hop, isUp) && hop'.Peak(isUp) == hop.Peak(isUp) && AllSane(s)
    requires forall c :: c in hop.Counts() ==> c in s.countAt && c in s'.countAt && s'.countAt[c] == s.countAt[c]
    requires forall c :: c in hop'.Counts() ==>
             c in hop.Counts() || (c in s'.countAt && s'.countAt[c] == Fresh(s.lastTick))
    ensures HopPeaked(s', hop', isUp)
  {
    FreshSane(s.lastTick);
    forall c | c in hop.Counts() ensures s'.RateOf(isUp)(c) >= 0 {}
    SumSubset(hop'.Counts(), hop.Counts(), s'.RateOf(isUp));
    SumSame(hop.Counts(), s.RateOf(isUp), s'.RateOf(isUp));
  }

  lemma SyncedPeaks(redact: Redact, s: State, s': State, r: Rule, cfg: Config.Rule, role: Role, i: nat)
    requires RuleSynced(redact, s, s', r, cfg) && i < |s'.ruleAt[r].Way(role)|
    ensures var before := Before(s, s', r, cfg.name).Way(role);
            var hop := s'.ruleAt[r].Way(role)[i];
            hop.peakUp == HopAt(before, i).peakUp && hop.peakDown == HopAt(before, i).peakDown
  {
  }

  lemma SyncedRulePeaked(redact: Redact, s: State, s': State, r: Rule, cfg: Config.Rule)
    requires Shape(s) && AllSane(s) && RuleSynced(redact, s, s', r, cfg)
    requires forall c :: c in s.countAt ==> c in s'.countAt && s'.countAt[c] == s.countAt[c]
    requires r in s.ruleAt ==> RulePeaked(s, s.ruleAt[r])
    ensures RulePeaked(s', s'.ruleAt[r])
  {
    hide HopPeaked, Shape, AllSane, RuleSynced, RuleShape;
    assert r in s'.ruleAt by { SyncedExists(redact, s, s', r, cfg); }
    var v' := s'.ruleAt[r];
    forall role: Role, i, isUp: bool | 0 <= i < |v'.Way(role)| ensures HopPeaked(s', v'.Way(role)[i], isUp) {
      var before := Before(s, s', r, cfg.name).Way(role);
      var hop := HopAt(before, i);
      EmptyPeaked(s, isUp);
      if i < |before| {
        assert WayPeaked(s, before);
        assert HopPeaked(s, hop, isUp);
        forall c | c in hop.Counts() ensures c in s.countAt {
          HopCountsExist(s, r, role, i, c);
        }
      } else {
        assert hop.Counts() == {};
      }
      forall c | c in v'.Way(role)[i].Counts()
        ensures c in hop.Counts() || (c in s'.countAt && s'.countAt[c] == Fresh(s.lastTick))
      {
        assert r in s.ruleAt ==> WayShape(s.ruleAt[r], role) by { SidesShaped(s, r, role); }
        SyncedHopCounts(redact, s, s', r, cfg, role, i, c);
      }
      SyncedPeaks(redact, s, s', r, cfg, role, i);
      SyncedHopPeaked(s, s', hop, v'.Way(role)[i], isUp);
    }
    assert v'.listenWay == v'.Way(Listening) && v'.forwardWay == v'.Way(Forwarding);
  }

  lemma SidesShaped(s: State, r: Rule, role: Role)
    requires Shape(s)
    ensures r in s.ruleAt ==> WayShape(s.ruleAt[r], role)
  {
  }

  lemma SyncedExists(redact: Redact, s: State, s': State, r: Rule, cfg: Config.Rule)
    requires RuleSynced(redact, s, s', r, cfg)
    ensures r in s'.ruleAt && s'.ruleAt[r].name == cfg.name
  {
  }

  lemma ShapeAt(s: State, r: Rule)
    requires Shape(s) && r in s.ruleAt
    ensures RuleShape(s, r, s.ruleAt[r])
  {
  }

  lemma SyncedWindow(redact: Redact, s: State, s': State, r: Rule, cfg: Config.Rule)
    requires RuleSynced(redact, s, s', r, cfg) && s'.lastTick == s.lastTick
    requires r in s.ruleAt ==> RuleInWindow(s, s.ruleAt[r]) && RuleShape(s, r, s.ruleAt[r])
    requires forall c :: c in s.countAt ==> c in s'.countAt && s'.countAt[c] == s.countAt[c]
    ensures RuleInWindow(s', s'.ruleAt[r])
  {
    hide WaySynced, WayShape;
  }

  // ------------------------------------------------------------------ the whole sync

  // What a sync leaves alone, without its rules.
  lemma SyncIs(redact: Redact, s: State, s': State, cfgs: seq<Config.Rule>)
    requires Sync(redact, s, s', cfgs) && Shape(s)
    ensures CountsKept(s, s') && HomesKept(s, s') && s'.nextId == s.nextId && s'.lastTick == s.lastTick
    ensures s'.connAt == s.connAt
    ensures forall c :: c in s.countAt ==> c in s'.countAt && s'.countAt[c] == s.countAt[c]
    ensures forall c :: c in s'.countAt && c !in s.countAt ==> s'.countAt[c] == Fresh(s.lastTick)
    ensures forall id :: id in s'.live ==>
            id in s.live && s'.live[id] == s.live[id] && s.live[id].rule in s'.ruleAt && s'.Registered(s.live[id].rule)
  {
  }

  // A registered rule of the new state was synced from some entry, and was registered before or is new.
  lemma SyncedFrom(redact: Redact, s: State, s': State, cfgs: seq<Config.Rule>, n: string) returns (i: nat)
    requires Sync(redact, s, s', cfgs) && Shape(s) && n in s'.rules
    ensures i < |cfgs| && cfgs[i].name == n && RuleSynced(redact, s, s', s'.rules[n], cfgs[i])
    ensures s'.rules[n] in s.ruleAt ==> s.Registered(s'.rules[n]) && s.ruleAt[s'.rules[n]].name == n
  {
    hide RuleSynced, RuleShape;
    i :| 0 <= i < |cfgs| && cfgs[i].name == n;
    assert Chosen(s, s', cfgs[i].name);
  }

  lemma SyncRules(redact: Redact, s: State, s': State, cfgs: seq<Config.Rule>)
    requires Sync(redact, s, s', cfgs) && Shape(s)
    ensures forall n :: n in s'.rules ==> s'.rules[n] in s'.ruleAt && s'.ruleAt[s'.rules[n]].name == n
    ensures forall r :: r in s'.ruleAt ==> RuleShape(s', r, s'.ruleAt[r])
    ensures forall r :: r in s.ruleAt ==> r in s'.ruleAt && s'.ruleAt[r].name == s.ruleAt[r].name
  {
    hide RuleSynced, RuleShape, Chosen, CountsKept, HomesKept, Shape;
    SyncIs(redact, s, s', cfgs);
    forall n | n in s'.rules ensures s'.rules[n] in s'.ruleAt && s'.ruleAt[s'.rules[n]].name == n {
      var i := SyncedFrom(redact, s, s', cfgs, n);
      SyncedExists(redact, s, s', s'.rules[n], cfgs[i]);
    }
    forall r | r in s'.ruleAt
      ensures RuleShape(s', r, s'.ruleAt[r])
      ensures r in s.ruleAt ==> s'.ruleAt[r].name == s.ruleAt[r].name
    {
      if r in s.ruleAt {
        ShapeAt(s, r);
      }
      if n :| n in s'.rules && s'.rules[n] == r {
        var i := SyncedFrom(redact, s, s', cfgs, n);
        SyncedShape(redact, s, s', r, cfgs[i]);
      } else {
        assert r !in s'.rules.Values;
        RuleShapeKept(s, s', r, s.ruleAt[r]);
      }
    }
  }

  lemma SyncTracked(redact: Redact, s: State, s': State, cfgs: seq<Config.Rule>)
    requires Sync(redact, s, s', cfgs) && Shape(s) && Tracked(s)
    ensures Tracked(s')
  {
    hide RuleSynced, RuleShape, Chosen, Sync, Shape;
    SyncIs(redact, s, s', cfgs);
    SyncRules(redact, s, s', cfgs);
    forall id | id in s'.live ensures LiveEntry(s', id, s'.live[id]) {
      assert LiveEntry(s, id, s.live[id]);
    }
  }

  lemma SyncStructure(redact: Redact, s: State, s': State, cfgs: seq<Config.Rule>)
    requires Sync(redact, s, s', cfgs) && Structure(s)
    ensures Structure(s')
  {
    hide RuleSynced, RuleShape, Chosen, Sync, Tracked, Conns, CountsKept;
    SyncIs(redact, s, s', cfgs);
    SyncRules(redact, s, s', cfgs);
    SyncTracked(redact, s, s', cfgs);
    ConnsKept(s, s');
  }

  lemma SyncCounting(redact: Redact, s: State, s': State, cfgs: seq<Config.Rule>)
    requires Sync(redact, s, s', cfgs) && Shape(s) && Conns(s) && Counting(s)
    ensures Counting(s')
  {
    hide Sync, Shape, CountsKept, HomesKept;
    SyncIs(redact, s, s', cfgs);
    forall c | c in s'.countAt ensures CountsOpen(s', c) {
      if c in s.countAt {
        assert CountsOpen(s, c);
        CountsOpenKept(s, s', c);
      } else {
        forall k | k in s.connAt ensures s.connAt[k].count != c {
          assert ConnShape(s, k, s.connAt[k]);
        }
        assert s'.OpenedOn(c) == {} && s'.OpenOn(c) == {};
      }
    }
  }

  lemma SyncSane(redact: Redact, s: State, s': State, cfgs: seq<Config.Rule>)
    requires Sync(redact, s, s', cfgs) && Shape(s) && AllSane(s)
    ensures AllSane(s')
  {
    hide Sync, Shape, CountsKept, HomesKept, CounterView.Sane;
    SyncIs(redact, s, s', cfgs);
    FreshSane(s.lastTick);
  }

  lemma SyncWindows(redact: Redact, s: State, s': State, cfgs: seq<Config.Rule>)
    requires Sync(redact, s, s', cfgs) && Structure(s) && Windows(s)
    ensures Windows(s')
  {
    hide Sync, Shape, CountsKept, HomesKept, RuleShape, RuleInWindow, RuleSynced, Conns;
    SyncIs(redact, s, s', cfgs);
    forall r | r in s'.ruleAt && s'.Registered(r) ensures RuleInWindow(s', s'.ruleAt[r]) {
      var i := SyncedFrom(redact, s, s', cfgs, s'.ruleAt[r].name);
      if r in s.ruleAt {
        RuleFacts(s, r);
      }
      SyncedWindow(redact, s, s', r, cfgs[i]);
    }
    forall id | id in s'.live ensures InWindow(s', s'.live[id].count) {
      assert LiveEntry(s, id, s.live[id]);
    }
  }

  lemma SyncPeaked(redact: Redact, s: State, s': State, cfgs: seq<Config.Rule>)
    requires Sync(redact, s, s', cfgs) && Shape(s) && AllSane(s) && Peaked(s)
    ensures Peaked(s')
  {
    hide Sync, Shape, CountsKept, HomesKept, RulePeaked, RuleSynced, AllSane;
    SyncIs(redact, s, s', cfgs);
    forall r | r in s'.ruleAt && s'.Registered(r) ensures RulePeaked(s', s'.ruleAt[r]) {
      var i := SyncedFrom(redact, s, s', cfgs, s'.ruleAt[r].name);
      SyncedRulePeaked(redact, s, s', r, cfgs[i]);
    }
  }

  lemma SyncBytes(redact: Redact, s: State, s': State, cfgs: seq<Config.Rule>)
    requires Sync(redact, s, s', cfgs) && Structure(s) && AllSane(s) && BytesCovered(s)
    ensures BytesCovered(s')
  {
    hide Sync, Shape, CountsKept, HomesKept, CounterView.Sane;
    SyncIs(redact, s, s', cfgs);
    FreshSane(s.lastTick);
    forall id | id in s.live ensures LiveEntry(s, id, s.live[id]) {}
    hide Tracked, Conns, AllSane;
    forall t, isUp: bool | t in s'.countAt ensures Covers(s', t, isUp) {
      if t in s.countAt {
        assert Covers(s, t, isUp);
        assert s'.Writers(t) <= s.Writers(t);
        LiveBytesNatural(s, isUp);
        SumSubset(s'.Writers(t), s.Writers(t), s.LiveBytes(isUp));
        SumSame(s'.Writers(t), s.LiveBytes(isUp), s'.LiveBytes(isUp));
      } else {
        assert s'.Writers(t) == {};
        NothingCovered(s', t, isUp);
      }
    }
  }

  lemma KeepSync(redact: Redact, s: State, s': State, cfgs: seq<Config.Rule>)
    requires Inv(s) && Sync(redact, s, s', cfgs)
    ensures Inv(s')
  {
    hide Sync, Shape, Tracked, Conns, Counting, AllSane, Windows, Peaked, BytesCovered;
    SyncStructure(redact, s, s', cfgs);
    SyncCounting(redact, s, s', cfgs);
    SyncSane(redact, s, s', cfgs);
    SyncWindows(redact, s, s', cfgs);
    SyncPeaked(redact, s, s', cfgs);
    SyncBytes(redact, s, s', cfgs);
  }

  // A rule object that was not registered is not registered again, even when its name returns.
  lemma DetachedStaysDetached(redact: Redact, s: State, s': State, cfgs: seq<Config.Rule>, r: Rule)
    requires Shape(s) && Sync(redact, s, s', cfgs) && r in s.ruleAt && !s.Registered(r)
    ensures r in s'.ruleAt && !s'.Registered(r) && s'.ruleAt[r] == s.ruleAt[r]
  {
    hide RuleSynced, RuleShape;
    if r in s'.rules.Values {
      var n :| n in s'.rules && s'.rules[n] == r;
      var i := SyncedFrom(redact, s, s', cfgs, n);
    }
  }
}

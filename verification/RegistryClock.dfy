/** Ticking and resetting keep the invariants. */
module RegistryClock {
  import opened Sums
  import opened Counters
  import opened RegistryState
  import opened RegistrySteps
  import opened RegistryProofs

  // ------------------------------------------------------------------ rules whose hops keep their URLs

  // The hops of both sides keep their URLs, and no target joins.
  predicate SameUrls(before: seq<Hop>, after: seq<Hop>) {
    |after| == |before| && forall i :: 0 <= i < |before| ==> after[i].urls == before[i].urls
  }

  ghost predicate SameLists(v: RuleView, v': RuleView) {
    && v'.name == v.name && v'.count == v.count && v'.counters == v.counters
    && SameUrls(v.listenWay, v'.listenWay) && SameUrls(v.forwardWay, v'.forwardWay)
    && (forall key :: key in v'.targets ==> key in v.targets && v'.targets[key] == v.targets[key])
    && |v'.targets| <= |v.targets|
  }

  lemma SameUrlsShape(v: RuleView, v': RuleView, role: Role)
    requires WayShape(v, role) && v'.counters == v.counters && SameUrls(v.Way(role), v'.Way(role))
    ensures WayShape(v', role)
  {
  }

  lemma SameListsShape(s: State, r: Rule, v: RuleView, v': RuleView)
    requires RuleShape(s, r, v) && SameLists(v, v')
    ensures RuleShape(s, r, v')
  {
    hide WayShape;
    SameUrlsShape(v, v', Listening);
    SameUrlsShape(v, v', Forwarding);
  }

  // What tick and reset share: no counter, rule or connection comes or goes.
  ghost predicate SameObjects(s: State, s': State) {
    && s'.rules == s.rules && s'.nextId == s.nextId && s'.connAt == s.connAt && s'.home == s.home
    && s'.countAt.Keys == s.countAt.Keys && s'.ruleAt.Keys == s.ruleAt.Keys && s'.live.Keys == s.live.Keys
    && (forall id :: id in s.live ==> s'.live[id] == s.live[id].(started := s'.live[id].started))
    && (forall c :: c in s.countAt ==> s'.countAt[c].generation >= s.countAt[c].generation)
    && (forall r :: r in s.ruleAt ==> SameLists(s.ruleAt[r], s'.ruleAt[r]))
  }

  lemma SameObjectsKeep(s: State, s': State)
    requires Shape(s) && SameObjects(s, s')
    ensures CountsKept(s, s') && HomesKept(s, s')
  {
  }

  lemma SameObjectsShape(s: State, s': State)
    requires Shape(s) && SameObjects(s, s')
    ensures Shape(s')
  {
    hide RuleShape, CountsKept, HomesKept;
    SameObjectsKeep(s, s');
    forall r | r in s.ruleAt ensures s'.ruleAt[r].name == s.ruleAt[r].name && RuleShape(s', r, s'.ruleAt[r]) {
      assert SameLists(s.ruleAt[r], s'.ruleAt[r]) && RuleShape(s, r, s.ruleAt[r]);
      RuleShapeKept(s, s', r, s.ruleAt[r]);
      SameListsShape(s', r, s.ruleAt[r], s'.ruleAt[r]);
    }
    ShapeKept(s, s');
  }

  lemma SameObjectsTracked(s: State, s': State)
    requires Shape(s) && Tracked(s) && SameObjects(s, s')
    ensures Tracked(s')
  {
    hide RuleShape, Shape;
    forall id | id in s'.live ensures LiveEntry(s', id, s'.live[id]) {
      assert LiveEntry(s, id, s.live[id]);
      assert SameLists(s.ruleAt[s.live[id].rule], s'.ruleAt[s.live[id].rule]);
    }
  }

  lemma SameObjectsStructure(s: State, s': State)
    requires Structure(s) && SameObjects(s, s')
    ensures Structure(s')
  {
    hide Shape, Tracked, Conns, CountsKept, HomesKept;
    SameObjectsKeep(s, s');
    SameObjectsShape(s, s');
    SameObjectsTracked(s, s');
    ConnsKept(s, s');
  }

  // ------------------------------------------------------------------ tick

  lemma PeakedLists(s: State, v: RuleView)
    ensures SameLists(v, PeakedRule(s, v))
  {
  }

  lemma TickCounts(s: State, now: Time)
    requires AllSane(s)
    ensures var s' := Tick(s, now);
            && AllSane(s') && s'.countAt.Keys == s.countAt.Keys
            && forall c :: c in s.countAt ==>
                 && (s.Visible(c) ==> s'.countAt[c].prevAt == now && s'.countAt[c] == s.countAt[c].Ticked(now))
                 && (!s.Visible(c) ==> s'.countAt[c] == s.countAt[c])
                 && s'.countAt[c].generation == s.countAt[c].generation && s'.countAt[c].active == s.countAt[c].active
                 && s'.countAt[c].total == s.countAt[c].total
                 && forall isUp: bool :: s'.countAt[c].Bytes(isUp) == s.countAt[c].Bytes(isUp)
  {
    hide CounterView.Sane, State.Visible;
    forall c | c in s.countAt
      ensures s.countAt[c].Ticked(now).Sane() && s.countAt[c].Sane() && s.countAt[c].Ticked(now).prevAt == now
      ensures forall isUp: bool :: s.countAt[c].Ticked(now).Bytes(isUp) == s.countAt[c].Bytes(isUp)
    {
      TickedSane(s.countAt[c], now);
    }
  }

  lemma TickSameObjects(s: State, now: Time)
    requires AllSane(s)
    ensures SameObjects(s, Tick(s, now))
  {
    hide AllSane, State.Visible, SameLists, CounterView.Ticked, PeakedRule;
    TickCounts(s, now);
    forall r | r in s.ruleAt ensures SameLists(s.ruleAt[r], Tick(s, now).ruleAt[r]) {
      PeakedLists(s.(lastTick := now, countAt := TickedCounts(s, now)), s.ruleAt[r]);
      SameListsSelf(s.ruleAt[r]);
    }
  }

  lemma SameListsSelf(v: RuleView)
    ensures SameLists(v, v)
  {
  }

  lemma VisibleInRule(s: State, r: Rule, c: Counter)
    requires r in s.ruleAt && s.Registered(r) && s.ruleAt[r].Holds(c)
    ensures s.Visible(c)
  {
  }

  lemma TickWindows(s: State, now: Time)
    requires Inv(s)
    ensures Windows(Tick(s, now))
  {
    hide Structure, Counting, Peaked, BytesCovered, AllSane, Tick, SameObjects, State.Visible, RuleInWindow;
    var s' := Tick(s, now);
    TickIs(s, now);
    TickCounts(s, now);
    TickSameObjects(s, now);
    forall r | r in s'.ruleAt && s'.Registered(r) ensures RuleInWindow(s', s'.ruleAt[r]) {
      SameNames(s, s', r);
      RuleTicked(s, s', r);
    }
    forall id | id in s'.live ensures InWindow(s', s'.live[id].count) {
      LiveIsVisible(s, id);
    }
  }

  lemma LiveIsVisible(s: State, id: nat)
    requires id in s.live
    ensures s.Visible(s.live[id].count)
  {
  }

  lemma RuleTicked(s: State, s': State, r: Rule)
    requires SameObjects(s, s') && r in s.ruleAt && s.Registered(r)
    requires forall c :: c in s'.countAt && s.Visible(c) ==> s'.countAt[c].prevAt == s'.lastTick
    ensures RuleInWindow(s', s'.ruleAt[r])
  {
    assert SameLists(s.ruleAt[r], s'.ruleAt[r]);
    forall c | s.ruleAt[r].Holds(c) ensures s.Visible(c) {}
  }

  lemma TickIs(s: State, now: Time)
    ensures var s' := Tick(s, now);
            && s'.lastTick == now && s'.live == s.live && s'.nextId == s.nextId && s'.rules == s.rules
            && s'.connAt == s.connAt && s'.ruleAt.Keys == s.ruleAt.Keys
            && forall r :: r in s.ruleAt && s.Registered(r) ==>
                 s'.ruleAt[r] == PeakedRule(s.(lastTick := now, countAt := TickedCounts(s, now)), s.ruleAt[r])
    ensures Tick(s, now).countAt == TickedCounts(s, now)
  {
  }

  // Raising a hop's peak to its new rate covers the rate and the peaks its URLs just reached.
  lemma TickHopPeaked(s: State, s1: State, hop: Hop, now: Time, isUp: bool)
    requires HopPeaked(s, hop, isUp) && AllSane(s)
    requires forall c :: c in hop.Counts() ==>
             c in s.countAt && c in s1.countAt && s1.countAt[c] == s.countAt[c].Ticked(now)
    ensures HopPeaked(s1, PeakedHop(s1, hop), isUp)
  {
    hide CounterView.Ticked;
    var peaked := PeakedHop(s1, hop);
    assert peaked.Counts() == hop.Counts();
    forall c | c in hop.Counts() ensures s1.countAt[c].Peak(isUp) <= peaked.Peak(isUp) && 0 <= s1.RateOf(isUp)(c) {
      TickedSane(s.countAt[c], now);
      assert s1.countAt[c].Peak(isUp) == Max(s.countAt[c].Peak(isUp), s1.countAt[c].Rate(isUp));
      assert 0 <= s1.countAt[c].Rate(isUp);
      assert forall y :: y in hop.Counts() ==> s1.RateOf(isUp)(y) >= 0 by { TickedRates(s, s1, hop, now, isUp); }
      SumMember(hop.Counts(), s1.RateOf(isUp), c);
    }
  }

  lemma TickedRates(s: State, s1: State, hop: Hop, now: Time, isUp: bool)
    requires AllSane(s)
    requires forall c :: c in hop.Counts() ==>
             c in s.countAt && c in s1.countAt && s1.countAt[c] == s.countAt[c].Ticked(now)
    ensures forall c :: c in hop.Counts() ==> s1.RateOf(isUp)(c) >= 0
  {
    hide CounterView.Ticked;
    forall c | c in hop.Counts() ensures s1.RateOf(isUp)(c) >= 0 {
      TickedSane(s.countAt[c], now);
      assert 0 <= s1.countAt[c].Rate(isUp);
    }
  }

  // Hop lists read only the counters of a state.
  lemma HopPeakedReads(s: State, s': State, hop: Hop, isUp: bool)
    requires s'.countAt == s.countAt && HopPeaked(s, hop, isUp)
    ensures HopPeaked(s', hop, isUp)
  {
  }

  lemma TickRulePeaked(s: State, s1: State, s': State, r: Rule, now: Time)
    requires Shape(s) && AllSane(s) && Peaked(s) && r in s.ruleAt && s.Registered(r)
    requires s1 == s.(lastTick := now, countAt := TickedCounts(s, now)) && s'.countAt == s1.countAt
    ensures RulePeaked(s', PeakedRule(s1, s.ruleAt[r]))
  {
    hide HopPeaked, Shape, AllSane, PeakedHop, State.Visible;
    var v := s.ruleAt[r];
    forall role: Role, i | 0 <= i < |v.Way(role)|
      ensures HopPeaked(s', PeakedHop(s1, v.Way(role)[i]), true) && HopPeaked(s', PeakedHop(s1, v.Way(role)[i]), false)
    {
      var hop := v.Way(role)[i];
      assert WayPeaked(s, v.Way(role));
      assert HopPeaked(s, hop, true) && HopPeaked(s, hop, false);
      forall c | c in hop.Counts() ensures c in s.countAt && s.Visible(c) {
        HopCountsExist(s, r, role, i, c);
        VisibleInRule(s, r, c);
      }
      TickHopPeaked(s, s1, hop, now, true);
      TickHopPeaked(s, s1, hop, now, false);
      HopPeakedReads(s1, s', PeakedHop(s1, hop), true);
      HopPeakedReads(s1, s', PeakedHop(s1, hop), false);
    }
    assert v.listenWay == v.Way(Listening) && v.forwardWay == v.Way(Forwarding);
  }

  lemma TickPeaked(s: State, now: Time)
    requires Inv(s)
    ensures Peaked(Tick(s, now))
  {
    hide Tracked, Conns, Counting, Windows, BytesCovered, AllSane, Shape, RulePeaked, Peaked, PeakedRule, Tick;
    var s1, s' := s.(lastTick := now, countAt := TickedCounts(s, now)), Tick(s, now);
    TickIs(s, now);
    TickSameObjects(s, now);
    hide SameObjects;
    forall r | r in s'.ruleAt && s'.Registered(r) ensures RulePeaked(s', s'.ruleAt[r]) {
      assert s.Registered(r) by { SameNames(s, s', r); }
      TickRulePeaked(s, s1, s', r, now);
    }
    PeakedIf(s');
  }

  lemma SameNames(s: State, s': State, r: Rule)
    requires SameObjects(s, s') && (r in s.ruleAt || r in s'.ruleAt)
    ensures r in s.ruleAt && r in s'.ruleAt && (s'.Registered(r) <==> s.Registered(r))
  {
  }

  lemma PeakedIf(s: State)
    requires forall r :: r in s.ruleAt && s.Registered(r) ==> RulePeaked(s, s.ruleAt[r])
    ensures Peaked(s)
  {
  }

  lemma KeepTick(s: State, now: Time)
    requires Inv(s)
    ensures Inv(Tick(s, now))
  {
    hide Shape, Tracked, Conns, Counting, AllSane, Windows, Peaked, BytesCovered, SameObjects, Tick, State.Visible,
      CounterView.Ticked;
    var s' := Tick(s, now);
    TickIs(s, now);
    TickCounts(s, now);
    TickSameObjects(s, now);
    SameObjectsStructure(s, s');
    CountingKept(s, s');
    TickWindows(s, now);
    TickPeaked(s, now);
    BytesKept(s, s');
  }

  // ------------------------------------------------------------------ reset

  lemma ResetIs(s: State, now: Time)
    ensures var s' := Reset(s, now);
            && s'.lastTick == s.lastTick && s'.rules == s.rules && s'.connAt == s.connAt && s'.nextId == s.nextId
            && s'.home == s.home
            && s'.countAt.Keys == s.countAt.Keys && s'.ruleAt.Keys == s.ruleAt.Keys && s'.live.Keys == s.live.Keys
            && (forall id :: id in s.live ==> s'.live[id] == s.live[id].(started := now))
            && (forall r :: r in s.ruleAt ==>
                 s'.ruleAt[r] == if s.Registered(r) then ClearedRule(s.ruleAt[r], Kept(s)) else s.ruleAt[r])
            && (forall c :: c in s.countAt ==>
                 s'.countAt[c] == if s.Visible(c) then s.countAt[c].Resetted(s.lastTick) else s.countAt[c])
  {
  }

  lemma MapShrinks<K, V>(m: map<K, V>, n: map<K, V>)
    requires forall k :: k in n ==> k in m
    ensures |n| <= |m|
  {
    assert n.Keys <= m.Keys;
    SetShrinks(n.Keys, m.Keys);
  }

  lemma ClearedLists(v: RuleView, kept: set<Counter>)
    ensures SameLists(v, ClearedRule(v, kept))
  {
    MapShrinks(v.targets, ClearedRule(v, kept).targets);
  }

  lemma ResetSameObjects(s: State, now: Time)
    ensures SameObjects(s, Reset(s, now))
  {
    hide Reset, SameLists, State.Visible, ClearedRule;
    ResetIs(s, now);
    forall r | r in s.ruleAt ensures SameLists(s.ruleAt[r], Reset(s, now).ruleAt[r]) {
      ClearedLists(s.ruleAt[r], Kept(s));
      SameListsSelf(s.ruleAt[r]);
    }
  }

  // No connection belongs to the generation a reset starts.
  lemma ResetCounting(s: State, now: Time)
    requires Counting(s) && Conns(s)
    ensures Counting(Reset(s, now))
  {
  }

  // Visible counters are zeroed, the others stay; all remain sane and in their window.
  lemma ResetCounts(s: State, now: Time)
    requires AllSane(s)
    ensures var s' := Reset(s, now);
            && AllSane(s')
            && forall c :: c in s.countAt && s.Visible(c) ==>
                 && s'.countAt[c].prevAt == s'.lastTick
                 && forall isUp: bool :: s'.countAt[c].Bytes(isUp) == 0 && s'.countAt[c].Rate(isUp) == 0 &&
                      s'.countAt[c].Peak(isUp) == 0
  {
  }

  lemma ResetWindows(s: State, now: Time)
    requires Inv(s)
    ensures Windows(Reset(s, now))
  {
    hide Structure, Counting, Peaked, BytesCovered, AllSane, Reset;
    var s' := Reset(s, now);
    ResetCounts(s, now);
    ResetSameObjects(s, now);
    forall r | r in s'.ruleAt && s'.Registered(r) ensures RuleInWindow(s', s'.ruleAt[r]) {
      SameNames(s, s', r);
      assert SameLists(s.ruleAt[r], s'.ruleAt[r]);
      forall c | s.ruleAt[r].Holds(c) ensures s.Visible(c) {}
    }
    forall id | id in s'.live ensures InWindow(s', s'.live[id].count) {
      assert s.Visible(s.live[id].count);
    }
  }

  lemma ResetRulePeaked(s: State, now: Time, r: Rule)
    requires Shape(s) && AllSane(s) && r in s.ruleAt && s.Registered(r)
    ensures RulePeaked(Reset(s, now), ClearedRule(s.ruleAt[r], Kept(s)))
  {
    hide Shape, AllSane, Reset, State.Visible;
    var s', v := Reset(s, now), s.ruleAt[r];
    ResetIs(s, now);
    ResetCounts(s, now);
    forall role: Role, i, isUp: bool | 0 <= i < |v.Way(role)|
      ensures HopPeaked(s', v.Way(role)[i].(peakUp := 0, peakDown := 0), isUp)
    {
      var hop, cleared := v.Way(role)[i], v.Way(role)[i].(peakUp := 0, peakDown := 0);
      assert cleared.Counts() == hop.Counts();
      forall c | c in hop.Counts() ensures c in s.countAt && s.Visible(c) {
        HopCountsExist(s, r, role, i, c);
        VisibleInRule(s, r, c);
      }
      SumZero(hop.Counts(), s'.RateOf(isUp));
    }
    assert v.listenWay == v.Way(Listening) && v.forwardWay == v.Way(Forwarding);
  }

  lemma ResetPeaked(s: State, now: Time)
    requires Inv(s)
    ensures Peaked(Reset(s, now))
  {
    hide Tracked, Conns, Counting, Windows, BytesCovered, AllSane, Shape, RulePeaked, Peaked, ClearedRule, Reset,
      SameObjects;
    var s' := Reset(s, now);
    ResetIs(s, now);
    ResetSameObjects(s, now);
    forall r | r in s'.ruleAt && s'.Registered(r) ensures RulePeaked(s', s'.ruleAt[r]) {
      SameNames(s, s', r);
      ResetRulePeaked(s, now, r);
    }
    PeakedIf(s');
  }

  lemma ResetBytes(s: State, now: Time)
    requires AllSane(s)
    ensures BytesCovered(Reset(s, now))
  {
    hide Reset, CounterView.Sane;
    var s' := Reset(s, now);
    ResetIs(s, now);
    ResetCounts(s, now);
    forall t, isUp: bool | t in s'.countAt ensures Covers(s', t, isUp) {
      forall id | id in s'.Writers(t) ensures s'.LiveBytes(isUp)(id) == 0 {
        assert s.Visible(s.live[id].count);
      }
      SumZero(s'.Writers(t), s'.LiveBytes(isUp));
      SaneBytes(s', t, isUp);
    }
  }

  lemma SaneBytes(s: State, t: Counter, isUp: bool)
    requires AllSane(s) && t in s.countAt
    ensures s.countAt[t].Bytes(isUp) >= 0 && s.countAt[t].Rate(isUp) >= 0
    ensures s.countAt[t].Peak(isUp) >= s.countAt[t].Rate(isUp)
  {
  }

  lemma KeepReset(s: State, now: Time)
    requires Inv(s)
    ensures Inv(Reset(s, now))
  {
    hide Shape, Tracked, Conns, Counting, AllSane, Windows, Peaked, BytesCovered, SameObjects, Reset;
    ResetSameObjects(s, now);
    SameObjectsStructure(s, Reset(s, now));
    ResetCounting(s, now);
    ResetCounts(s, now);
    ResetWindows(s, now);
    ResetPeaked(s, now);
    ResetBytes(s, now);
  }

  // ------------------------------------------------------------------ what a reset does

  // A reset keeps a target exactly when it was there and a tracked connection of the same rule
  // still names it: across all rules, distinct keys hold distinct counters.
  lemma ResetKeepsNamedTargets(s: State, now: Time, r: Rule, key: TargetKey)
    requires Inv(s) && r in s.ruleAt && s.Registered(r)
    ensures r in Reset(s, now).ruleAt
    ensures key in Reset(s, now).ruleAt[r].targets <==>
            key in s.ruleAt[r].targets && exists id :: id in s.live && s.live[id].rule == r && s.live[id].Key() == key
  {
    hide Counting, Traffic, Tracked, Conns, Reset;
    ResetIs(s, now);
    var v := s.ruleAt[r];
    assert RuleShape(s, r, v);
    if key in v.targets && v.targets[key] in Kept(s) {
      var id :| id in s.live && s.live[id].rule in s.ruleAt && s.live[id].Key() in s.ruleAt[s.live[id].rule].targets
                && s.ruleAt[s.live[id].rule].targets[s.live[id].Key()] == v.targets[key];
      assert RuleShape(s, s.live[id].rule, s.ruleAt[s.live[id].rule]);
      assert Made(s, v.targets[key], OfTarget(r, key)) &&
        Made(s, v.targets[key], OfTarget(s.live[id].rule, s.live[id].Key()));
    }
  }

  predicate ZeroPeaks(way: seq<Hop>) {
    forall i :: 0 <= i < |way| ==> way[i].peakUp == way[i].peakDown == 0
  }

  // After a reset everything a snapshot can show is zero: counters, hop peaks and evictions; statistics and
  // tracked connections start anew, and connections, names and counters out of sight stay as they were.
  lemma ResetZeroes(s: State, now: Time)
    ensures var s' := Reset(s, now);
            && (forall c :: c in s'.countAt && s'.Visible(c) ==>
                 s'.countAt[c] == Fresh(s.lastTick).(generation := s'.countAt[c].generation))
            && (forall r :: r in s'.ruleAt && s'.Registered(r) ==>
                  s'.ruleAt[r].targetsEvicted == 0 && ZeroPeaks(s'.ruleAt[r].listenWay) &&
                    ZeroPeaks(s'.ruleAt[r].forwardWay))
            && s'.since == now && s'.live.Keys == s.live.Keys
            && (forall id :: id in s.live ==> s'.live[id].started == now && s'.live[id].conn == s.live[id].conn)
            && s'.connAt == s.connAt && s'.order == s.order && s'.rules == s.rules && s'.countAt.Keys == s.countAt.Keys
            && forall c :: c in s.countAt && !s.Visible(c) ==> s'.countAt[c] == s.countAt[c]
  {
  }

  // Closing a connection opened before the reset leaves the new active count alone.
  lemma OldCloseIsHarmless(s: State, now: Time, k: Conn, at: Time)
    requires Inv(s) && k in s.connAt && s.Visible(s.connAt[k].count)
    ensures var s' := Reset(s, now);
            var c := s.connAt[k].count;
            && c in s'.countAt && k in s'.connAt && s'.connAt[k] == s.connAt[k]
            && CloseCount(s', k, at).countAt[c].active == s'.countAt[c].active == 0
  {
    hide Shape, Tracked, Counting, Traffic, Reset, State.Visible;
    ResetIs(s, now);
    assert ConnShape(s, k, s.connAt[k]);
  }
}

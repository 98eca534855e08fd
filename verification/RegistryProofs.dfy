/** Every step of the registry keeps its invariants. */
module RegistryProofs {
  import opened Text
  import opened Sums
  import opened Counters
  import opened RegistryState
  import opened RegistrySteps

  // ------------------------------------------------------------------ what a small change leaves alone

  // Counters stay, and none goes back a generation.
  ghost predicate CountsKept(s: State, s': State) {
    forall c :: c in s.countAt ==> c in s'.countAt && s'.countAt[c].generation >= s.countAt[c].generation
  }

  ghost predicate HomesKept(s: State, s': State) {
    && s'.home.Keys == s'.countAt.Keys
    && forall c :: c in s.home ==> c in s'.home && s'.home[c] == s.home[c]
  }

  lemma RuleShapeKept(s: State, s': State, r: Rule, v: RuleView)
    requires RuleShape(s, r, v) && CountsKept(s, s') && HomesKept(s, s')
    ensures RuleShape(s', r, v)
  {
  }

  lemma ShapeKept(s: State, s': State)
    requires Shape(s) && CountsKept(s, s') && HomesKept(s, s') && s'.rules == s.rules && s'.ruleAt.Keys == s.ruleAt.Keys
    requires forall r :: r in s.ruleAt ==>
               s'.ruleAt[r].name == s.ruleAt[r].name && (s'.ruleAt[r] == s.ruleAt[r] || RuleShape(s', r, s'.ruleAt[r]))
    ensures Shape(s')
  {
    hide RuleShape;
    forall r | r in s'.ruleAt ensures RuleShape(s', r, s'.ruleAt[r]) {
      if s'.ruleAt[r] == s.ruleAt[r] {
        RuleShapeKept(s, s', r, s.ruleAt[r]);
      }
    }
  }

  // The connection of a tracked entry keeps its links.
  ghost predicate LinksKept(s: State, s': State, k: Conn) {
    && k in s.connAt ==>
         && k in s'.connAt && s'.connAt[k].count == s.connAt[k].count && s'.connAt[k].extra == s.connAt[k].extra
         && s'.connAt[k].tracked == s.connAt[k].tracked && (s'.connAt[k].phase.Gone? ==> s.connAt[k].phase.Gone?)
  }

  lemma TrackedKept(s: State, s': State)
    requires Tracked(s) && CountsKept(s, s') && HomesKept(s, s') && s'.rules == s.rules && s'.nextId >= s.nextId
    requires forall r :: r in s.ruleAt ==> r in s'.ruleAt && s'.ruleAt[r].name == s.ruleAt[r].name
    requires forall id :: id in s'.live ==>
               (id in s.live && s'.live[id] == s.live[id] && LinksKept(s, s', s.live[id].conn)) ||
                 LiveEntry(s', id, s'.live[id])
    ensures Tracked(s')
  {
  }

  lemma ConnsKept(s: State, s': State)
    requires Conns(s) && CountsKept(s, s') && HomesKept(s, s') && s'.nextId >= s.nextId
    requires forall id :: id in s'.live ==> (id in s.live && s'.live[id].conn == s.live[id].conn) || id > s.nextId
    requires forall k :: k in s'.connAt ==>
               (k in s.connAt && s'.connAt[k].(phase := s.connAt[k].phase) == s.connAt[k]) ||
                 ConnShape(s', k, s'.connAt[k])
    ensures Conns(s')
  {
  }

  lemma ShapeAndSane(s: State)
    requires Inv(s)
    ensures Shape(s) && AllSane(s)
  {
  }

  // The counters of a hop of a known rule exist.
  lemma HopCountsExist(s: State, r: Rule, role: Role, i: nat, c: Counter)
    requires Shape(s) && r in s.ruleAt && i < |s.ruleAt[r].Way(role)| && c in s.ruleAt[r].Way(role)[i].Counts()
    ensures c in s.countAt
    ensures exists url ::
              HopKey(role, i, url) in s.ruleAt[r].counters && s.ruleAt[r].counters[HopKey(role, i, url)] == c
  {
    var v := s.ruleAt[r];
    assert RuleShape(s, r, v);
    var j :| 0 <= j < |v.Way(role)[i].urls| && v.Way(role)[i].urls[j].count == c;
    assert Keyed(v, HopKey(role, i, v.Way(role)[i].urls[j].url), c);
  }

  lemma HopPeakedKept(s: State, s': State, hop: Hop, isUp: bool)
    requires HopPeaked(s, hop, isUp) && SameRates(s, s')
    requires forall c :: c in hop.Counts() ==> c in s.countAt && c in s'.countAt
    ensures HopPeaked(s', hop, isUp)
  {
    SumSame(hop.Counts(), s.RateOf(isUp), s'.RateOf(isUp));
  }

  ghost predicate SameRates(s: State, s': State) {
    forall c, isUp: bool :: c in s.countAt && c in s'.countAt ==>
      s'.countAt[c].Rate(isUp) == s.countAt[c].Rate(isUp) && s'.countAt[c].Peak(isUp) == s.countAt[c].Peak(isUp)
  }

  lemma RulePeakedKept(s: State, s': State, r: Rule)
    requires Shape(s) && CountsKept(s, s') && SameRates(s, s') && r in s.ruleAt && RulePeaked(s, s.ruleAt[r])
    ensures RulePeaked(s', s.ruleAt[r])
  {
    hide HopPeaked, Shape, SameRates;
    forall role: Role, i, isUp: bool | 0 <= i < |s.ruleAt[r].Way(role)|
      ensures HopPeaked(s', s.ruleAt[r].Way(role)[i], isUp)
    {
      var hop := s.ruleAt[r].Way(role)[i];
      assert WayPeaked(s, s.ruleAt[r].Way(role));
      assert HopPeaked(s, hop, isUp);
      forall c | c in hop.Counts() ensures c in s.countAt {
        HopCountsExist(s, r, role, i, c);
      }
      HopPeakedKept(s, s', hop, isUp);
    }
    forall i | 0 <= i < |s.ruleAt[r].listenWay|
      ensures HopPeaked(s', s.ruleAt[r].listenWay[i], true) && HopPeaked(s', s.ruleAt[r].listenWay[i], false)
    {
      assert s.ruleAt[r].listenWay == s.ruleAt[r].Way(Listening);
    }
    forall i | 0 <= i < |s.ruleAt[r].forwardWay|
      ensures HopPeaked(s', s.ruleAt[r].forwardWay[i], true) && HopPeaked(s', s.ruleAt[r].forwardWay[i], false)
    {
      assert s.ruleAt[r].forwardWay == s.ruleAt[r].Way(Forwarding);
    }
  }

  lemma HopPeakedIs(s: State, hop: Hop, isUp: bool)
    requires HopPeaked(s, hop, isUp)
    ensures s.HopRate(hop, isUp) <= hop.Peak(isUp)
    ensures forall c :: c in hop.Counts() && c in s.countAt ==> s.countAt[c].Peak(isUp) <= hop.Peak(isUp)
  {
  }

  // Hop lists, rates and peaks all as before.
  lemma PeakedKept(s: State, s': State)
    requires Shape(s) && Peaked(s) && CountsKept(s, s') && SameRates(s, s') && s'.rules == s.rules
    requires s'.ruleAt.Keys == s.ruleAt.Keys
    requires forall r :: r in s.ruleAt ==> s'.ruleAt[r].name == s.ruleAt[r].name
    requires forall r :: r in s.ruleAt ==>
             s'.ruleAt[r].listenWay == s.ruleAt[r].listenWay && s'.ruleAt[r].forwardWay == s.ruleAt[r].forwardWay
    ensures Peaked(s')
  {
    hide WayPeaked, Shape, SameRates;
    forall r | r in s'.ruleAt && s'.Registered(r) ensures RulePeaked(s', s'.ruleAt[r]) {
      assert s.Registered(r);
      RulePeakedKept(s, s', r);
    }
  }

  lemma CoversKept(s: State, s': State, t: Counter, isUp: bool)
    requires t in s.countAt && t in s'.countAt && Covers(s, t, isUp)
    requires s'.Writers(t) == s.Writers(t) && s'.countAt[t].Bytes(isUp) >= s.countAt[t].Bytes(isUp)
    requires forall id :: id in s.Writers(t) ==> s'.LiveBytes(isUp)(id) == s.LiveBytes(isUp)(id)
    ensures Covers(s', t, isUp)
  {
    SumSame(s.Writers(t), s.LiveBytes(isUp), s'.LiveBytes(isUp));
  }

  // ------------------------------------------------------------------ dials

  // A counter changes without its traffic, its window or its connections changing.
  predicate SameTraffic(v: CounterView, w: CounterView) {
    && w.generation == v.generation && w.active == v.active && w.total == v.total && w.prevAt == v.prevAt && w.Sane()
    && forall isUp: bool :: w.Bytes(isUp) == v.Bytes(isUp) && w.Rate(isUp) == v.Rate(isUp) &&
         w.Peak(isUp) == v.Peak(isUp)
  }

  lemma CountsOpenKept(s: State, s': State, c: Counter)
    requires c in s.countAt && c in s'.countAt && CountsOpen(s, c)
    requires s'.countAt[c].generation == s.countAt[c].generation && s'.countAt[c].active == s.countAt[c].active
    requires s'.countAt[c].total == s.countAt[c].total
    requires forall k :: k in s.connAt && s.connAt[k].count == c ==> k in s'.connAt && s'.connAt[k] == s.connAt[k]
    requires forall k :: k in s'.connAt && s'.connAt[k].count == c ==> k in s.connAt && s.connAt[k].count == c
    ensures CountsOpen(s', c)
  {
    assert s'.OpenedOn(c) == s.OpenedOn(c);
    assert s'.OpenOn(c) == s.OpenOn(c);
  }

  lemma CountingKept(s: State, s': State)
    requires Counting(s) && s'.connAt == s.connAt && s'.countAt.Keys == s.countAt.Keys
    requires forall c :: c in s.countAt ==>
               s'.countAt[c].generation == s.countAt[c].generation && s'.countAt[c].active == s.countAt[c].active &&
                 s'.countAt[c].total == s.countAt[c].total
    ensures Counting(s')
  {
  }

  // The counters of rule v, if they were in their window, still are.
  lemma RuleInWindowKept(s: State, s': State, r: Rule, v: RuleView)
    requires RuleShape(s, r, v) && RuleInWindow(s, v) && s'.lastTick == s.lastTick && CountsKept(s, s')
    requires forall c :: c in s.countAt ==> s'.countAt[c].prevAt == s.countAt[c].prevAt
    ensures RuleInWindow(s', v)
  {
  }

  lemma WindowsKept(s: State, s': State)
    requires Windows(s) && Shape(s) && Tracked(s) && s'.lastTick == s.lastTick && CountsKept(s, s')
    requires s'.rules == s.rules
    requires forall c :: c in s.countAt ==> s'.countAt[c].prevAt == s.countAt[c].prevAt
    requires s'.ruleAt.Keys == s.ruleAt.Keys && forall r :: r in s.ruleAt ==> s'.ruleAt[r].name == s.ruleAt[r].name
    requires forall r :: r in s.ruleAt && s.Registered(r) ==>
             s'.ruleAt[r] == s.ruleAt[r] || RuleInWindow(s', s'.ruleAt[r])
    requires forall id :: id in s'.live ==>
             (id in s.live && s'.live[id].count == s.live[id].count) || InWindow(s', s'.live[id].count)
    ensures Windows(s')
  {
    hide RuleShape, RuleInWindow;
    forall r | r in s'.ruleAt && s'.Registered(r) ensures RuleInWindow(s', s'.ruleAt[r]) {
      assert s.Registered(r) && RuleInWindow(s, s.ruleAt[r]);
      if s'.ruleAt[r] == s.ruleAt[r] {
        assert RuleShape(s, r, s.ruleAt[r]);
        RuleInWindowKept(s, s', r, s.ruleAt[r]);
      }
    }
    forall id | id in s'.live && id in s.live ensures LiveEntry(s, id, s.live[id]) {}
  }

  lemma BytesKept(s: State, s': State)
    requires BytesCovered(s) && Tracked(s) && s'.live == s.live && CountsKept(s, s') && Conns(s')
    requires forall id :: id in s.live ==> LinksKept(s, s', s.live[id].conn)
    requires forall c, isUp: bool :: c in s.countAt ==> s'.countAt[c].Bytes(isUp) == s.countAt[c].Bytes(isUp)
    requires forall c, isUp: bool :: c in s'.countAt && c !in s.countAt ==> s'.countAt[c].Bytes(isUp) == 0
    ensures BytesCovered(s')
  {
    hide Covers, Conns;
    forall id | id in s.live ensures s.live[id].conn in s.connAt && s.live[id].count in s.countAt &&
        s.connAt[s.live[id].conn].count in s.countAt {
      assert LiveEntry(s, id, s.live[id]);
    }
    forall t, isUp: bool | t in s'.countAt ensures Covers(s', t, isUp) {
      if t in s.countAt {
        assert Covers(s, t, isUp);
        assert s'.Writers(t) == s.Writers(t);
        CoversKept(s, s', t, isUp);
      } else {
        assert s'.Writers(t) == {};
        NothingCovered(s', t, isUp);
      }
    }
  }

  lemma NothingCovered(s: State, t: Counter, isUp: bool)
    requires t in s.countAt && s.Writers(t) == {} && s.countAt[t].Bytes(isUp) >= 0
    ensures Covers(s, t, isUp)
  {
  }

  lemma HomesSame(s: State, s': State)
    requires Shape(s) && s'.home == s.home && s'.countAt.Keys == s.countAt.Keys
    ensures HomesKept(s, s')
  {
  }

  lemma SetCountStructure(s: State, c: Counter, w: CounterView)
    requires Structure(s) && c in s.countAt && SameTraffic(s.countAt[c], w)
    ensures Structure(SetCount(s, c, w))
  {
    hide Tracked, Conns, RuleShape, CounterView.Sane;
    var s' := SetCount(s, c, w);
    assert HomesKept(s, s') && CountsKept(s, s');
    ShapeKept(s, s');
    hide Shape;
    TrackedKept(s, s');
    ConnsKept(s, s');
  }

  lemma SetCountTraffic(s: State, c: Counter, w: CounterView)
    requires Inv(s) && c in s.countAt && SameTraffic(s.countAt[c], w)
    ensures Traffic(SetCount(s, c, w)) && Counting(SetCount(s, c, w))
  {
    hide Peaked, Shape, Tracked, Conns, Counting, Windows, BytesCovered, CounterView.Sane;
    var s' := SetCount(s, c, w);
    SetCountStructure(s, c, w);
    PeakedKept(s, s');
    CountingKept(s, s');
    WindowsKept(s, s');
    BytesKept(s, s');
  }

  lemma KeepSetCount(s: State, c: Counter, w: CounterView)
    requires Inv(s) && c in s.countAt && SameTraffic(s.countAt[c], w)
    ensures Inv(SetCount(s, c, w))
  {
    hide Structure, Traffic, Counting, SameTraffic;
    SetCountStructure(s, c, w);
    SetCountTraffic(s, c, w);
  }

  lemma KeepCountDial(s: State, c: Counter, elapsed: int, now: Time, failed: bool)
    requires Inv(s) && c in s.countAt
    ensures Inv(CountDial(s, c, elapsed, now, failed))
  {
    hide Shape, Tracked, Conns, Counting, Windows, Peaked, BytesCovered;
    var v := s.countAt[c];
    var w := v.Dialed(elapsed, now, failed);
    AfterSane(v, Dials(elapsed, now, failed));
    assert forall isUp: bool ::
        w.Bytes(isUp) == v.Bytes(isUp) && w.Rate(isUp) == v.Rate(isUp) && w.Peak(isUp) == v.Peak(isUp);
    KeepSetCount(s, c, w);
  }

  // ------------------------------------------------------------------ connections

  lemma OpenConnStructure(s: State, c: Counter, k: Conn, accepted: bool, now: Time)
    requires Structure(s) && c in s.countAt && k !in s.connAt && c in s.home && !s.home[c].OfLive?
    ensures Structure(OpenConn(s, c, k, accepted, now))
  {
    hide Tracked, Conns, RuleShape, LiveEntry;
    var s' := OpenConn(s, c, k, accepted, now);
    assert HomesKept(s, s') && CountsKept(s, s');
    ShapeKept(s, s');
    LiveLinks(s, s');
    TrackedKept(s, s');
    ConnsKept(s, s');
  }

  lemma OpenConnTraffic(s: State, c: Counter, k: Conn, accepted: bool, now: Time)
    requires Structure(s) && Traffic(s) && c in s.countAt && k !in s.connAt && c in s.home && !s.home[c].OfLive?
    ensures Traffic(OpenConn(s, c, k, accepted, now))
  {
    hide Tracked, Conns, Shape, Peaked, Windows, BytesCovered, CounterView.Sane;
    var s' := OpenConn(s, c, k, accepted, now);
    OpenConnStructure(s, c, k, accepted, now);
    AfterSane(s.countAt[c], Opens(now));
    PeakedKept(s, s');
    WindowsKept(s, s');
    LiveLinks(s, s');
    BytesKept(s, s');
  }

  lemma KeepOpenConn(s: State, c: Counter, k: Conn, accepted: bool, now: Time)
    requires Inv(s) && c in s.countAt && k !in s.connAt && c in s.home && !s.home[c].OfLive?
    ensures Inv(OpenConn(s, c, k, accepted, now))
  {
    hide Structure, Traffic, Counting;
    OpenConnStructure(s, c, k, accepted, now);
    OpenConnTraffic(s, c, k, accepted, now);
    OpenConnCounting(s, c, k, accepted, now);
  }

  // Tracked connections survive a step that only adds connections or moves one on.
  lemma LiveLinks(s: State, s': State)
    requires Tracked(s)
    requires forall k :: k in s.connAt && !s.connAt[k].phase.Gone? ==> LinksKept(s, s', k)
    ensures forall id :: id in s.live ==> LinksKept(s, s', s.live[id].conn)
  {
  }

  lemma OpenConnCounts(s: State, c: Counter, k: Conn, accepted: bool, now: Time)
    requires c in s.countAt && CountsOpen(s, c) && k !in s.connAt
    ensures var s' := OpenConn(s, c, k, accepted, now); c in s'.countAt && CountsOpen(s', c)
  {
    var s' := OpenConn(s, c, k, accepted, now);
    assert s'.OpenedOn(c) == s.OpenedOn(c) + {k};
    assert s'.OpenOn(c) == s.OpenOn(c) + {k};
  }

  lemma OpenConnCounting(s: State, c: Counter, k: Conn, accepted: bool, now: Time)
    requires Counting(s) && c in s.countAt && k !in s.connAt
    ensures Counting(OpenConn(s, c, k, accepted, now))
  {
    hide CountsOpen;
    var s' := OpenConn(s, c, k, accepted, now);
    forall x | x in s'.countAt ensures CountsOpen(s', x) {
      assert CountsOpen(s, x);
      if x == c {
        OpenConnCounts(s, c, k, accepted, now);
      } else {
        CountsOpenKept(s, s', x);
      }
    }
  }

  lemma CloseCountCounting(s: State, k: Conn, now: Time)
    requires Counting(s) && k in s.connAt && s.connAt[k].count in s.countAt && s.connAt[k].phase.InUse?
    ensures Counting(CloseCount(s, k, now))
  {
    var s' := CloseCount(s, k, now);
    var c := s.connAt[k].count;
    forall x | x in s'.countAt ensures CountsOpen(s', x) {
      assert CountsOpen(s, x);
      if x == c {
        assert s'.OpenedOn(c) == s.OpenedOn(c);
        assert s'.OpenOn(c) == s.OpenOn(c) - {k};
      } else {
        CountsOpenKept(s, s', x);
      }
    }
  }

  lemma CloseCountStructure(s: State, k: Conn, now: Time)
    requires Structure(s) && k in s.connAt && s.connAt[k].phase.InUse? && s.connAt[k].count in s.countAt
    ensures Structure(CloseCount(s, k, now))
  {
    hide Tracked, Conns, RuleShape, LiveEntry;
    var s' := CloseCount(s, k, now);
    assert HomesKept(s, s') && CountsKept(s, s');
    ShapeKept(s, s');
    LiveLinks(s, s');
    TrackedKept(s, s');
    ConnsKept(s, s');
  }

  lemma CloseCountTraffic(s: State, k: Conn, now: Time)
    requires Structure(s) && Traffic(s) && k in s.connAt && s.connAt[k].phase.InUse? && s.connAt[k].count in s.countAt
    ensures Traffic(CloseCount(s, k, now))
  {
    hide Tracked, Conns, Shape, Peaked, Windows, BytesCovered, CounterView.Sane;
    var s' := CloseCount(s, k, now);
    var v := s.countAt[s.connAt[k].count];
    CloseCountStructure(s, k, now);
    AfterSane(v, Closes(s.connAt[k].generation, now));
    PeakedKept(s, s');
    WindowsKept(s, s');
    LiveLinks(s, s');
    BytesKept(s, s');
  }

  lemma KeepCloseCount(s: State, k: Conn, now: Time)
    requires Inv(s) && k in s.connAt && s.connAt[k].phase.InUse?
    ensures s.connAt[k].count in s.countAt
    ensures Inv(CloseCount(s, k, now))
  {
    assert ConnShape(s, k, s.connAt[k]);
    hide Structure, Traffic, Counting;
    CloseCountStructure(s, k, now);
    CloseCountTraffic(s, k, now);
    CloseCountCounting(s, k, now);
  }

  lemma UntrackStructure(s: State, k: Conn)
    requires Structure(s) && k in s.connAt
    ensures Structure(Untrack(s, k))
  {
    hide RuleShape, Conns;
    var s' := Untrack(s, k);
    assert HomesKept(s, s') && CountsKept(s, s');
    ShapeKept(s, s');
    hide Shape;
    forall id | id in s'.live ensures LinksKept(s, s', s.live[id].conn) {
      assert LiveEntry(s, id, s.live[id]);
    }
    TrackedKept(s, s');
    ConnsKept(s, s');
  }

  lemma UntrackTraffic(s: State, k: Conn)
    requires Structure(s) && Traffic(s) && k in s.connAt
    ensures Traffic(Untrack(s, k))
  {
    hide Tracked, Conns, Shape, Peaked, Windows, BytesCovered, CounterView.Sane;
    PeakedKept(s, Untrack(s, k));
    WindowsKept(s, Untrack(s, k));
    UntrackBytes(s, k);
  }

  lemma KeepUntrack(s: State, k: Conn)
    requires Inv(s) && k in s.connAt && s.connAt[k].phase.Counted?
    ensures Inv(Untrack(s, k))
  {
    hide Structure, Traffic, Counting;
    UntrackStructure(s, k);
    UntrackTraffic(s, k);
    UntrackCounting(s, k);
  }

  lemma UntrackCounting(s: State, k: Conn)
    requires Counting(s) && k in s.connAt && s.connAt[k].phase.Counted?
    ensures Counting(Untrack(s, k))
  {
    var s' := Untrack(s, k);
    forall x | x in s'.countAt ensures CountsOpen(s', x) {
      assert CountsOpen(s, x);
      assert s'.OpenedOn(x) == s.OpenedOn(x);
      assert s'.OpenOn(x) == s.OpenOn(x);
    }
  }

  lemma UntrackBytes(s: State, k: Conn)
    requires BytesCovered(s) && AllSane(s) && Tracked(s) && k in s.connAt
    ensures BytesCovered(Untrack(s, k))
  {
    var s' := Untrack(s, k);
    forall t, isUp: bool | t in s'.countAt ensures Covers(s', t, isUp) {
      assert Covers(s, t, isUp);
      assert s'.Writers(t) <= s.Writers(t);
      LiveBytesNatural(s, isUp);
      SumSubset(s'.Writers(t), s.Writers(t), s.LiveBytes(isUp));
      SumSame(s'.Writers(t), s.LiveBytes(isUp), s'.LiveBytes(isUp));
    }
  }

  lemma LiveBytesNatural(s: State, isUp: bool)
    requires AllSane(s)
    ensures forall id :: s.LiveBytes(isUp)(id) >= 0
  {
  }

  // ------------------------------------------------------------------ traffic

  // From v to w only bytes of one direction were added.
  predicate Grew(v: CounterView, w: CounterView, isUp: bool, size: int) {
    && w.Sane() && w.generation == v.generation && w.active == v.active && w.total == v.total && w.prevAt == v.prevAt
    && forall dir: bool :: w.Rate(dir) == v.Rate(dir) && w.Peak(dir) == v.Peak(dir)
                           && w.Bytes(dir) == v.Bytes(dir) + if dir == isUp then size else 0
  }

  lemma AddedGrew(v: CounterView, isUp: bool, size: nat, now: Time)
    requires v.Sane()
    ensures Grew(v, v.Added(isUp, size, now), isUp, size)
  {
    AfterSane(v, Adds(isUp, size, now));
  }

  // The counters bytes over the connection are added to.
  predicate Carries(v: ConnView, c: Counter) { c == v.count || v.extra == Some(c) }

  // What bytes over connection k do to the state.
  ghost predicate Recorded(s: State, s': State, k: Conn, size: int, isUp: bool)
    requires k in s.connAt
  {
    && s' == s.(countAt := s'.countAt) && s'.countAt.Keys == s.countAt.Keys
    && forall c :: c in s.countAt ==>
         if Carries(s.connAt[k], c) then Grew(s.countAt[c], s'.countAt[c], isUp, size)
             else s'.countAt[c] == s.countAt[c]
  }

  lemma RecordIs(s: State, k: Conn, size: int, read: bool, now: Time)
    requires AllSane(s) && k in s.connAt && size > 0 && ConnShape(s, k, s.connAt[k])
    ensures Recorded(s, Record(s, k, size, read, now), k, size, FlowsUp(s.connAt[k], read))
  {
    hide Grew;
    var v := s.connAt[k];
    AddedGrew(s.countAt[v.count], FlowsUp(v, read), size, now);
    if v.extra.Some? {
      AddedGrew(s.countAt[v.extra.value], FlowsUp(v, read), size, now);
    }
  }

  lemma RecordTraffic(s: State, s': State, k: Conn, size: int, isUp: bool)
    requires Inv(s) && k in s.connAt && size > 0 && Recorded(s, s', k, size, isUp)
    ensures AllSane(s') && Windows(s') && Peaked(s') && Counting(s') && Structure(s')
  {
    hide Tracked, Conns, RuleShape, Counting, Windows, Peaked, BytesCovered, CounterView.Sane;
    forall c | c in s'.countAt ensures s'.countAt[c].Sane() {}
    HomesSame(s, s');
    ShapeKept(s, s');
    hide Shape;
    TrackedKept(s, s');
    ConnsKept(s, s');
    CountingKept(s, s');
    PeakedKept(s, s');
    WindowsKept(s, s');
  }

  lemma KeepRecord(s: State, k: Conn, size: int, read: bool, now: Time)
    requires Inv(s) && k in s.connAt
    ensures s.connAt[k].count in s.countAt
    ensures Inv(Record(s, k, size, read, now))
  {
    assert ConnShape(s, k, s.connAt[k]);
    if size > 0 {
      var s', isUp := Record(s, k, size, read, now), FlowsUp(s.connAt[k], read);
      RecordIs(s, k, size, read, now);
      hide Structure, Counting, Windows, Peaked, BytesCovered, AllSane, Recorded, Record;
      RecordTraffic(s, s', k, size, isUp);
      RecordBytes(s, s', k, size, isUp);
    }
  }

  lemma RecordBytes(s: State, s': State, k: Conn, size: int, isUp: bool)
    requires Inv(s) && k in s.connAt && size > 0 && Recorded(s, s', k, size, isUp)
    ensures BytesCovered(s')
  {
    hide Covers, Shape, Counting, Windows, Peaked, AllSane, CounterView.Sane, Tracked, Conns;
    forall t, dir: bool | t in s'.countAt ensures Covers(s', t, dir) {
      assert Covers(s, t, dir);
      RecordCovers(s, s', k, size, isUp, t, dir);
    }
  }

  // Of a counter's writers, the one tracked over connection k alone carries what k carries.
  lemma RecordWriters(s: State, s': State, k: Conn, size: int, isUp: bool, t: Counter, dir: bool)
    requires Tracked(s) && Conns(s) && k in s.connAt && size > 0 && Recorded(s, s', k, size, isUp) && t in s.countAt
    ensures s'.Writers(t) == s.Writers(t)
    ensures forall id :: id in s.Writers(t) ==>
              && s'.LiveBytes(dir)(id) ==
                 s.LiveBytes(dir)(id) + (if dir == isUp && s.connAt[k].tracked == Some(id) then size else 0)
              && (s.connAt[k].tracked == Some(id) ==> t == s.connAt[k].count)
  {
    var v := s.connAt[k];
    assert ConnShape(s, k, v);
    hide Conns;
    forall id | id in s.Writers(t)
      ensures s.live[id].count in s.countAt && (Carries(v, s.live[id].count) <==> v.tracked == Some(id))
      ensures v.tracked == Some(id) ==> t == v.count
    {
      assert LiveEntry(s, id, s.live[id]);
    }
    hide Tracked, ConnShape, LiveEntry, CounterView.Sane;
  }

  // The sum over a counter's writers grows by exactly what its tracked connection carried.
  lemma RecordCovers(s: State, s': State, k: Conn, size: int, isUp: bool, t: Counter, dir: bool)
    requires Tracked(s) && Conns(s) && k in s.connAt && size > 0 && Recorded(s, s', k, size, isUp)
    requires t in s.countAt && Covers(s, t, dir)
    ensures Covers(s', t, dir)
  {
    hide Tracked, Conns, State.LiveBytes, State.Writers, CounterView.Sane;
    var v, w := s.connAt[k], s.Writers(t);
    RecordWriters(s, s', k, size, isUp, t, dir);
    if dir == isUp && v.tracked.Some? && v.tracked.value in w {
      SumGrows(w, s.LiveBytes(dir), s'.LiveBytes(dir), v.tracked.value, size);
    } else {
      SumSame(w, s.LiveBytes(dir), s'.LiveBytes(dir));
    }
  }
}

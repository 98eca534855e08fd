/** Looking up a target and tracking a connection keep the invariants. */
module RegistryTargets {
  import opened Text
  import opened Sums
  import opened Counters
  import opened RegistryState
  import opened RegistrySteps
  import opened RegistryProofs

  // ------------------------------------------------------------------ eviction

  // Only the targets of a rule change; those it has afterwards are under their own keys.
  lemma TargetsShape(s: State, r: Rule, v: RuleView, v': RuleView)
    requires RuleShape(s, r, v) && v' == v.(targets := v'.targets, targetsEvicted := v'.targetsEvicted)
    requires |v'.targets| <= MAX_TARGETS
    requires forall key :: key in v'.targets ==> Made(s, v'.targets[key], OfTarget(r, key))
    ensures RuleShape(s, r, v')
  {
    hide WayShape;
    assert WayShape(v', Listening) && WayShape(v', Forwarding) by {
      SameHopsShape(v, v', Listening);
      SameHopsShape(v, v', Forwarding);
    }
  }

  lemma SameHopsShape(v: RuleView, v': RuleView, role: Role)
    requires WayShape(v, role) && v'.counters == v.counters && v'.listenWay == v.listenWay
    requires v'.forwardWay == v.forwardWay
    ensures WayShape(v', role)
  {
    forall i, j | 0 <= i < |v'.Way(role)| && 0 <= j < |v'.Way(role)[i].urls|
      ensures Keyed(v', HopKey(role, i, v'.Way(role)[i].urls[j].url), v'.Way(role)[i].urls[j].count)
    {
      assert Keyed(v, HopKey(role, i, v.Way(role)[i].urls[j].url), v.Way(role)[i].urls[j].count);
    }
  }

  // One rule object changes its targets; everything else structural stays.
  ghost predicate TargetsChanged(s: State, s': State, r: Rule) {
    && r in s.ruleAt && r in s'.ruleAt && s' == s.(ruleAt := s'.ruleAt, countAt := s'.countAt, home := s'.home)
    && s'.ruleAt == s.ruleAt[r := s'.ruleAt[r]]
    && s'.ruleAt[r] == s.ruleAt[r].(targets := s'.ruleAt[r].targets, targetsEvicted := s'.ruleAt[r].targetsEvicted)
  }

  lemma TargetsChangedStructure(s: State, s': State, r: Rule)
    requires Structure(s) && TargetsChanged(s, s', r) && CountsKept(s, s') && HomesKept(s, s')
    requires |s'.ruleAt[r].targets| <= MAX_TARGETS
    requires forall key :: key in s'.ruleAt[r].targets ==> Made(s', s'.ruleAt[r].targets[key], OfTarget(r, key))
    ensures Structure(s')
  {
    hide Tracked, Conns, RuleShape;
    assert RuleShape(s, r, s.ruleAt[r]);
    RuleShapeKept(s, s', r, s.ruleAt[r]);
    TargetsShape(s', r, s.ruleAt[r], s'.ruleAt[r]);
    ShapeKept(s, s');
    hide Shape;
    LiveLinks(s, s');
    TrackedKept(s, s');
    ConnsKept(s, s');
  }

  lemma EvictIs(s: State, r: Rule, key: TargetKey)
    requires r in s.ruleAt && key in s.ruleAt[r].targets && RuleShape(s, r, s.ruleAt[r])
    ensures var s' := Evict(s, r, key);
            && TargetsChanged(s, s', r) && s'.countAt == s.countAt && s'.home == s.home
            && |s'.ruleAt[r].targets| == |s.ruleAt[r].targets| - 1
            && forall k :: k in s'.ruleAt[r].targets ==> Made(s', s'.ruleAt[r].targets[k], OfTarget(r, k))
  {
    hide WayShape;
    var v, v' := s.ruleAt[r], Evict(s, r, key).ruleAt[r];
    assert v'.targets.Keys == v.targets.Keys - {key};
    assert |v'.targets| == |v'.targets.Keys| && |v.targets| == |v.targets.Keys|;
  }

  lemma EvictStructure(s: State, r: Rule, key: TargetKey)
    requires Structure(s) && r in s.ruleAt && key in s.ruleAt[r].targets
    ensures Structure(Evict(s, r, key))
    ensures |Evict(s, r, key).ruleAt[r].targets| == |s.ruleAt[r].targets| - 1
    ensures TargetsChanged(s, Evict(s, r, key), r)
  {
    hide Tracked, Conns, Evict, TargetsChanged, Made;
    assert RuleShape(s, r, s.ruleAt[r]) && |s.ruleAt[r].targets| <= MAX_TARGETS;
    EvictIs(s, r, key);
    HomesSame(s, Evict(s, r, key));
    hide RuleShape, Shape;
    TargetsChangedStructure(s, Evict(s, r, key), r);
  }

  lemma KeepEvict(s: State, r: Rule, key: TargetKey)
    requires Inv(s) && r in s.ruleAt && key in s.ruleAt[r].targets
    ensures Inv(Evict(s, r, key))
  {
    hide RuleShape, Tracked, Conns, Peaked, Counting, BytesCovered, CounterView.Sane, Shape;
    var s' := Evict(s, r, key);
    EvictStructure(s, r, key);
    CountingKept(s, s');
    PeakedKept(s, s');
    assert s.Registered(r) ==> RuleInWindow(s, s.ruleAt[r]);
    hide Windows;
    WindowsKept(s, s');
    LiveLinks(s, s');
    BytesKept(s, s');
  }

  // ------------------------------------------------------------------ a new counter

  // s' is s with counter c made for h, besides what happened to one rule.
  ghost predicate Made1(s: State, s': State, c: Counter, h: Home) {
    && c !in s.countAt
    && s'.countAt == s.countAt[c := Fresh(s.lastTick)] && s'.home == s.home[c := h] && s'.lastTick == s.lastTick
  }

  lemma FreshSane(now: Time)
    ensures Fresh(now).Sane()
    ensures forall isUp: bool :: Fresh(now).Bytes(isUp) == 0 && Fresh(now).Rate(isUp) == 0 && Fresh(now).Peak(isUp) == 0
  {
  }

  lemma MadeKeepsCounts(s: State, s': State, c: Counter, h: Home)
    requires Shape(s) && Made1(s, s', c, h)
    ensures CountsKept(s, s') && HomesKept(s, s') && SameRates(s, s') && Made(s', c, h)
    ensures AllSane(s) ==> AllSane(s')
  {
    FreshSane(s.lastTick);
  }

  // No connection counts on a counter that did not exist.
  lemma MadeCounting(s: State, s': State, c: Counter, h: Home)
    requires Counting(s) && Conns(s) && Made1(s, s', c, h)
    requires s'.connAt.Keys == s.connAt.Keys
    requires forall k :: k in s.connAt ==>
               s'.connAt[k].count == s.connAt[k].count && s'.connAt[k].generation == s.connAt[k].generation &&
                 s'.connAt[k].phase == s.connAt[k].phase
    ensures Counting(s')
  {
    forall x | x in s'.countAt ensures CountsOpen(s', x) {
      if x == c {
        forall k | k in s'.connAt ensures s'.connAt[k].count != c {
          assert ConnShape(s, k, s.connAt[k]);
        }
        assert s'.OpenedOn(c) == {} && s'.OpenOn(c) == {};
      } else {
        assert CountsOpen(s, x);
        assert s'.OpenedOn(x) == s.OpenedOn(x) && s'.OpenOn(x) == s.OpenOn(x);
      }
    }
  }

  lemma AddTargetMade(s: State, s': State, r: Rule, key: TargetKey, c: Counter)
    requires r in s.ruleAt && RuleShape(s, r, s.ruleAt[r]) && CountsKept(s, s') && HomesKept(s, s')
    requires Made(s', c, OfTarget(r, key))
    requires r in s'.ruleAt && s'.ruleAt[r].targets == s.ruleAt[r].targets[key := c]
    ensures forall k :: k in s'.ruleAt[r].targets ==> Made(s', s'.ruleAt[r].targets[k], OfTarget(r, k))
  {
  }

  lemma AddTargetChanges(s: State, r: Rule, key: TargetKey, c: Counter)
    requires Shape(s) && r in s.ruleAt && c !in s.countAt && key !in s.ruleAt[r].targets
    ensures var s' := AddTarget(s, r, key, c);
            && TargetsChanged(s, s', r) && Made1(s, s', c, OfTarget(r, key)) && CountsKept(s, s') && HomesKept(s, s')
            && |s'.ruleAt[r].targets| == |s.ruleAt[r].targets| + 1
            && forall k :: k in s'.ruleAt[r].targets ==> Made(s', s'.ruleAt[r].targets[k], OfTarget(r, k))
  {
    hide RuleShape, CountsKept, HomesKept, SameRates, Made;
    var s' := AddTarget(s, r, key, c);
    hide AddTarget, TargetsChanged;
    assert RuleShape(s, r, s.ruleAt[r]);
    MadeKeepsCounts(s, s', c, OfTarget(r, key));
    hide Made1;
    AddTargetMade(s, s', r, key, c);
  }

  lemma AddTargetStructure(s: State, r: Rule, key: TargetKey, c: Counter)
    requires Structure(s) && r in s.ruleAt && c !in s.countAt && key !in s.ruleAt[r].targets
    requires |s.ruleAt[r].targets| < MAX_TARGETS
    ensures Structure(AddTarget(s, r, key, c))
    ensures |AddTarget(s, r, key, c).ruleAt[r].targets| == |s.ruleAt[r].targets| + 1
  {
    hide Tracked, Conns, Shape;
    AddTargetChanges(s, r, key, c);
    TargetsChangedStructure(s, AddTarget(s, r, key, c), r);
  }

  lemma KeepAddTarget(s: State, r: Rule, key: TargetKey, c: Counter)
    requires Inv(s) && r in s.ruleAt && c !in s.countAt && key !in s.ruleAt[r].targets
    requires |s.ruleAt[r].targets| < MAX_TARGETS
    ensures Inv(AddTarget(s, r, key, c))
  {
    hide RuleShape, Tracked, Conns, Peaked, Counting, BytesCovered, AllSane, Windows;
    var s' := AddTarget(s, r, key, c);
    AddTargetStructure(s, r, key, c);
    AddTargetChanges(s, r, key, c);
    MadeKeepsCounts(s, s', c, OfTarget(r, key));
    MadeCounting(s, s', c, OfTarget(r, key));
    hide Shape;
    PeakedKept(s, s');
    AddTargetWindows(s, r, key, c);
    LiveLinks(s, s');
    FreshSane(s.lastTick);
    BytesKept(s, s');
  }

  lemma RuleFacts(s: State, r: Rule)
    requires Shape(s) && Windows(s) && r in s.ruleAt
    ensures RuleShape(s, r, s.ruleAt[r])
    ensures s.Registered(r) ==> RuleInWindow(s, s.ruleAt[r])
  {
  }

  lemma FreshCounts(s: State, s': State, c: Counter, h: Home)
    requires Made1(s, s', c, h)
    ensures s'.lastTick == s.lastTick && forall x :: x in s.countAt ==> x in s'.countAt && s'.countAt[x] == s.countAt[x]
  {
  }

  lemma AddTargetWindows(s: State, r: Rule, key: TargetKey, c: Counter)
    requires Windows(s) && Structure(s) && r in s.ruleAt && c !in s.countAt && key !in s.ruleAt[r].targets
    ensures Windows(AddTarget(s, r, key, c))
  {
    hide RuleShape, Tracked, Conns, Shape, Windows, RuleInWindow, AddTarget, Made1;
    RuleFacts(s, r);
    AddTargetChanges(s, r, key, c);
    AddTargetWindow(s, r, key, c);
    FreshCounts(s, AddTarget(s, r, key, c), c, OfTarget(r, key));
    WindowsKept(s, AddTarget(s, r, key, c));
  }

  lemma AddTargetWindow(s: State, r: Rule, key: TargetKey, c: Counter)
    requires r in s.ruleAt && RuleShape(s, r, s.ruleAt[r]) && c !in s.countAt
    ensures RuleInWindow(s, s.ruleAt[r]) ==> RuleInWindow(AddTarget(s, r, key, c), AddTarget(s, r, key, c).ruleAt[r])
  {
  }

  // Whatever the lookup finds or makes, the invariants hold, the counter is the one under the key,
  // a full rule stays full, and a target is counted or evicted for each new key and for no known one.
  lemma KeepLooked(s: State, r: Rule, key: TargetKey, c: Counter, victim: TargetKey)
    requires Inv(s) && CanLook(s, r, key, c, victim)
    ensures var s' := Looked(s, r, key, c, victim);
            && Inv(s') && s'.ruleAt.Keys == s.ruleAt.Keys && s'.connAt == s.connAt
            && key in s'.ruleAt[r].targets && s'.ruleAt[r].targets[key] == c && c in s'.countAt
            && |s'.ruleAt[r].targets| <= MAX_TARGETS
            && |s'.ruleAt[r].targets| + s'.ruleAt[r].targetsEvicted ==
               |s.ruleAt[r].targets| + s.ruleAt[r].targetsEvicted + if key in s.ruleAt[r].targets then 0 else 1
  {
    var v := s.ruleAt[r];
    assert RuleShape(s, r, v);
    hide Inv, RuleShape, AddTarget, Evict;
    if key !in v.targets {
      if |v.targets| == MAX_TARGETS {
        KeepEvictAdd(s, r, victim, key, c);
      } else {
        KeepAdd(s, r, key, c);
      }
    }
  }

  lemma KeepAdd(s: State, r: Rule, key: TargetKey, c: Counter)
    requires Inv(s) && r in s.ruleAt && c !in s.countAt && key !in s.ruleAt[r].targets
    requires |s.ruleAt[r].targets| < MAX_TARGETS
    ensures var s' := AddTarget(s, r, key, c);
            && Inv(s') && s'.ruleAt.Keys == s.ruleAt.Keys && key in s'.ruleAt[r].targets
            && s'.ruleAt[r].targets[key] == c
            && c in s'.countAt && s'.connAt == s.connAt
            && |s'.ruleAt[r].targets| == |s.ruleAt[r].targets| + 1
            && s'.ruleAt[r].targetsEvicted == s.ruleAt[r].targetsEvicted
  {
    hide Shape, Tracked, Conns, Counting, Traffic;
    KeepAddTarget(s, r, key, c);
    AddTargetStructure(s, r, key, c);
  }

  lemma KeepEvictAdd(s: State, r: Rule, victim: TargetKey, key: TargetKey, c: Counter)
    requires Inv(s) && r in s.ruleAt && c !in s.countAt && key !in s.ruleAt[r].targets && victim in s.ruleAt[r].targets
    requires |s.ruleAt[r].targets| == MAX_TARGETS
    ensures var s' := AddTarget(Evict(s, r, victim), r, key, c);
            && Inv(s') && s'.ruleAt.Keys == s.ruleAt.Keys && key in s'.ruleAt[r].targets
            && s'.ruleAt[r].targets[key] == c
            && c in s'.countAt && s'.connAt == s.connAt
            && |s'.ruleAt[r].targets| == |s.ruleAt[r].targets|
            && s'.ruleAt[r].targetsEvicted == s.ruleAt[r].targetsEvicted + 1
  {
    hide Shape, Tracked, Conns, Counting, Traffic, AddTarget;
    KeepEvict(s, r, victim);
    EvictStructure(s, r, victim);
    KeepAdd(Evict(s, r, victim), r, key, c);
  }

  // ------------------------------------------------------------------ tracking

  // What the dial checks before it tracks its connection.
  ghost predicate CanTrack(s: State, k: Conn, r: Rule, key: TargetKey, c: Counter) {
    && r in s.ruleAt && s.Registered(r) && c !in s.countAt
    && k in s.connAt && s.connAt[k].tracked.None? && s.connAt[k].extra.None? && s.connAt[k].phase.InUse?
    && Made(s, s.connAt[k].count, OfTarget(r, key))
  }

  lemma TrackIs(s: State, k: Conn, r: Rule, key: TargetKey, client: string, path: seq<PathHop>, started: Time,
                c: Counter)
    requires k in s.connAt && c !in s.countAt
    ensures var s' := Track(s, k, r, key, client, path, started, c);
            var id := s.nextId + 1;
            && Made1(s, s', c, OfLive(id)) && s'.nextId == id && s'.rules == s.rules && s'.ruleAt == s.ruleAt
            && s'.live == s.live[id := Live(id, r, client, key.address, key.via, path, started, c, k)]
            && s'.connAt == s.connAt[k := s.connAt[k].(extra := Some(c), tracked := Some(id))]
  {
  }

  lemma TrackKnown(s: State, k: Conn, r: Rule, key: TargetKey, c: Counter)
    requires CanTrack(s, k, r, key, c)
    ensures r in s.ruleAt && s.Registered(r) && c !in s.countAt && k in s.connAt
    ensures s.connAt[k].tracked.None? && s.connAt[k].extra.None? && s.connAt[k].phase.InUse?
    ensures Made(s, s.connAt[k].count, OfTarget(r, key))
  {
  }

  lemma TrackEntry(s: State, s': State, k: Conn, r: Rule, key: TargetKey, client: string, path: seq<PathHop>,
                   started: Time, c: Counter)
    requires CanTrack(s, k, r, key, c) && CountsKept(s, s') && HomesKept(s, s') && Made(s', c, OfLive(s.nextId + 1))
    requires s'.nextId == s.nextId + 1 && s'.rules == s.rules && s'.ruleAt == s.ruleAt && k in s'.connAt
    requires s'.connAt[k] == s.connAt[k].(extra := Some(c), tracked := Some(s.nextId + 1))
    ensures LiveEntry(s', s.nextId + 1, Live(s.nextId + 1, r, client, key.address, key.via, path, started, c, k))
  {
  }

  lemma TrackLinks(s: State, s': State, k: Conn, id: nat, c: Counter)
    requires Tracked(s) && k in s.connAt && s.connAt[k].tracked.None? && id > s.nextId
    requires s'.connAt == s.connAt[k := s.connAt[k].(extra := Some(c), tracked := Some(id))]
    ensures forall other :: other in s.live ==> other != id && LinksKept(s, s', s.live[other].conn)
  {
  }

  lemma TrackConn(s: State, s': State, k: Conn, id: nat, c: Counter)
    requires k in s.connAt && ConnShape(s, k, s.connAt[k]) && CountsKept(s, s') && HomesKept(s, s')
    requires Made(s', c, OfLive(id))
    requires s'.nextId == id && id in s'.live && s'.live[id].conn == k
    ensures ConnShape(s', k, s.connAt[k].(extra := Some(c), tracked := Some(id)))
  {
  }

  lemma TrackTracked(s: State, k: Conn, r: Rule, key: TargetKey, client: string, path: seq<PathHop>, started: Time,
                     c: Counter)
    requires Structure(s) && CanTrack(s, k, r, key, c)
    ensures Tracked(Track(s, k, r, key, client, path, started, c))
  {
    hide RuleShape, Conns, Shape, Track, SameRates, Tracked, LiveEntry, CanTrack, Made1, Made, HomesKept, CountsKept,
      LinksKept;
    TrackKnown(s, k, r, key, c);
    var s' := Track(s, k, r, key, client, path, started, c);
    var id := s.nextId + 1;
    TrackIs(s, k, r, key, client, path, started, c);
    MadeKeepsCounts(s, s', c, OfLive(id));
    TrackEntry(s, s', k, r, key, client, path, started, c);
    TrackLinks(s, s', k, id, c);
    TrackedKept(s, s');
  }

  lemma TrackConns(s: State, k: Conn, r: Rule, key: TargetKey, client: string, path: seq<PathHop>, started: Time,
                   c: Counter)
    requires Structure(s) && CanTrack(s, k, r, key, c)
    ensures Conns(Track(s, k, r, key, client, path, started, c))
  {
    hide RuleShape, Shape, Tracked, Track, SameRates, ConnShape, CanTrack, Made1, Made, HomesKept, CountsKept;
    TrackKnown(s, k, r, key, c);
    var s' := Track(s, k, r, key, client, path, started, c);
    TrackIs(s, k, r, key, client, path, started, c);
    MadeKeepsCounts(s, s', c, OfLive(s.nextId + 1));
    TrackConn(s, s', k, s.nextId + 1, c);
    ConnsKept(s, s');
  }

  lemma TrackStructure(s: State, k: Conn, r: Rule, key: TargetKey, client: string, path: seq<PathHop>, started: Time,
                       c: Counter)
    requires Structure(s) && CanTrack(s, k, r, key, c)
    ensures Structure(Track(s, k, r, key, client, path, started, c))
  {
    hide RuleShape, Conns, Tracked;
    var s' := Track(s, k, r, key, client, path, started, c);
    TrackTracked(s, k, r, key, client, path, started, c);
    TrackConns(s, k, r, key, client, path, started, c);
    MadeKeepsCounts(s, s', c, OfLive(s.nextId + 1));
    ShapeKept(s, s');
  }

  lemma TrackTraffic(s: State, k: Conn, r: Rule, key: TargetKey, client: string, path: seq<PathHop>, started: Time,
                     c: Counter)
    requires Inv(s) && CanTrack(s, k, r, key, c)
    ensures var s' := Track(s, k, r, key, client, path, started, c);
            AllSane(s') && Windows(s') && Peaked(s') && Counting(s')
  {
    hide Tracked, Conns, RuleShape, Peaked, Counting, BytesCovered, AllSane, Windows;
    var s' := Track(s, k, r, key, client, path, started, c);
    MadeKeepsCounts(s, s', c, OfLive(s.nextId + 1));
    MadeCounting(s, s', c, OfLive(s.nextId + 1));
    PeakedKept(s, s');
    WindowsKept(s, s');
  }

  lemma TrackCovers(s: State, s': State, k: Conn, id: nat, t: Counter, isUp: bool)
    requires k in s.connAt && t in s.countAt && Covers(s, t, isUp) && id in s'.live && id !in s.live
    requires t in s'.countAt && s'.countAt[t] == s.countAt[t] && s'.LiveBytes(isUp)(id) == 0
    requires s'.Writers(t) == if t == s.connAt[k].count then s.Writers(t) + {id} else s.Writers(t)
    requires forall other :: other in s.live ==> s'.LiveBytes(isUp)(other) == s.LiveBytes(isUp)(other)
    ensures Covers(s', t, isUp)
  {
    var w := s.Writers(t);
    assert id !in w && forall other :: other in w ==> other in s.live;
    SumSame(w, s.LiveBytes(isUp), s'.LiveBytes(isUp));
    if t == s.connAt[k].count {
      SumAdd(w, s'.LiveBytes(isUp), id);
    }
  }

  // The new entry joins the writers of its target's counter alone.
  lemma TrackWriters(s: State, s': State, k: Conn, id: nat, t: Counter)
    requires k in s.connAt && id in s'.live && id !in s.live
    requires s'.live == s.live[id := s'.live[id]] && s'.live[id].conn == k
    requires s'.connAt.Keys == s.connAt.Keys && forall x :: x in s.connAt ==> s'.connAt[x].count == s.connAt[x].count
    ensures s'.Writers(t) == if t == s.connAt[k].count then s.Writers(t) + {id} else s.Writers(t)
  {
  }

  // It counts nothing yet, and the others count as before.
  lemma TrackLiveBytes(s: State, s': State, id: nat, isUp: bool)
    requires id in s'.live && s'.live == s.live[id := s'.live[id]] && id !in s.live
    requires s'.live[id].count in s'.countAt && s'.countAt[s'.live[id].count].Bytes(isUp) == 0
    requires forall x :: x in s.countAt ==> x in s'.countAt && s'.countAt[x] == s.countAt[x]
    requires forall other :: other in s.live ==> s.live[other].count in s.countAt
    ensures s'.LiveBytes(isUp)(id) == 0
    ensures forall other :: other in s.live ==> s'.LiveBytes(isUp)(other) == s.LiveBytes(isUp)(other)
  {
  }

  lemma TrackBytes(s: State, k: Conn, r: Rule, key: TargetKey, client: string, path: seq<PathHop>, started: Time,
                   c: Counter)
    requires Inv(s) && CanTrack(s, k, r, key, c)
    ensures BytesCovered(Track(s, k, r, key, client, path, started, c))
  {
    hide Conns, RuleShape, Peaked, Counting, Windows, AllSane, Shape;
    var s' := Track(s, k, r, key, client, path, started, c);
    var id := s.nextId + 1;
    FreshSane(s.lastTick);
    forall other | other in s.live
      ensures other != id && s.live[other].count in s.countAt && s.live[other].conn in s.connAt
      ensures s.connAt[s.live[other].conn].count != c
    {
      assert LiveEntry(s, other, s.live[other]);
    }
    hide Tracked, Covers, CanTrack;
    assert s.connAt[k].count != c;
    forall t, isUp: bool | t in s'.countAt ensures Covers(s', t, isUp) {
      if t == c {
        assert s'.Writers(c) == {};
        NothingCovered(s', c, isUp);
      } else {
        assert Covers(s, t, isUp);
        TrackWriters(s, s', k, id, t);
        TrackLiveBytes(s, s', id, isUp);
        TrackCovers(s, s', k, id, t, isUp);
      }
    }
  }

  lemma KeepTrack(s: State, k: Conn, r: Rule, key: TargetKey, client: string, path: seq<PathHop>, started: Time,
                  c: Counter)
    requires Inv(s) && CanTrack(s, k, r, key, c)
    ensures Inv(Track(s, k, r, key, client, path, started, c))
  {
    hide Shape, Tracked, Conns, Counting, AllSane, Windows, Peaked, BytesCovered, CanTrack;
    TrackStructure(s, k, r, key, client, path, started, c);
    TrackTraffic(s, k, r, key, client, path, started, c);
    TrackBytes(s, k, r, key, client, path, started, c);
  }
}

/** What the invariants promise over every run of the registry. */
module RegistryProperties {
  import opened Text
  import opened Sums
  import opened Counters
  import opened RegistryState
  import opened RegistrySteps
  import opened RegistryProofs
  import opened RegistryTargets
  import opened RegistryClock
  import opened RegistrySync
  import opened RegistryRuns
  import Config

  // ------------------------------------------------------------------ counting connections

  // At every step a counter's active value is the number of unclosed connections of its current
  // generation, and never more than its total.
  lemma ActiveCountsConnections(redact: Redact, states: seq<State>, actions: seq<Action>, i: nat, c: Counter)
    requires Run(redact, states, actions) && i < |states| && c in states[i].countAt
    ensures var s := states[i];
            && s.countAt[c].active == |s.OpenOn(c)| && s.countAt[c].total == |s.OpenedOn(c)|
            && 0 <= s.countAt[c].active <= s.countAt[c].total
            && 0 <= s.countAt[c].dialFailures <= s.countAt[c].dials
  {
    hide Run, Structure, Windows, Peaked, BytesCovered;
    InvAlways(redact, states, actions, i);
    var s := states[i];
    assert CountsOpen(s, c) && s.countAt[c].Sane();
    SetShrinks(s.OpenOn(c), s.OpenedOn(c));
  }

  // ------------------------------------------------------------------ peaks

  // At every step a registered hop's retained peak covers its current rate, each distinct URL
  // counter once, and every one of its URL counters' own peaks.
  lemma PeaksCover(redact: Redact, states: seq<State>, actions: seq<Action>, n: nat, r: Rule, role: Role, i: nat,
                   isUp: bool)
    requires Run(redact, states, actions) && n < |states| && r in states[n].ruleAt && states[n].Registered(r)
    requires i < |states[n].ruleAt[r].Way(role)|
    ensures var s := states[n];
            var hop := s.ruleAt[r].Way(role)[i];
            && s.HopRate(hop, isUp) <= hop.Peak(isUp)
            && forall c :: c in hop.Counts() ==>
                 c in s.countAt && s.countAt[c].Rate(isUp) <= s.countAt[c].Peak(isUp) <= hop.Peak(isUp)
  {
    hide Run, Tracked, Conns, Counting, Windows, BytesCovered, Shape, HopPeaked;
    InvAlways(redact, states, actions, n);
    var s := states[n];
    var hop := s.ruleAt[r].Way(role)[i];
    assert RulePeaked(s, s.ruleAt[r]);
    assert WayPeaked(s, s.ruleAt[r].Way(role));
    assert HopPeaked(s, hop, isUp);
    HopPeakedIs(s, hop, isUp);
    forall c | c in hop.Counts()
      ensures c in s.countAt && s.countAt[c].Rate(isUp) <= s.countAt[c].Peak(isUp) <= hop.Peak(isUp)
    {
      HopCountsExist(s, r, role, i, c);
      SaneBytes(s, c, isUp);
    }
  }

  // ------------------------------------------------------------------ tracked connections

  // At every step each tracked connection is unfinished, belongs to the rule object registered
  // under its name, and is the one its id names.
  lemma TrackedBelong(redact: Redact, states: seq<State>, actions: seq<Action>, i: nat, id: nat)
    requires Run(redact, states, actions) && i < |states| && id in states[i].live
    ensures var s := states[i];
            var l := s.live[id];
            && l.id == id && id <= s.nextId && l.rule in s.ruleAt && s.Registered(l.rule)
            && l.conn in s.connAt && s.connAt[l.conn].tracked == Some(id) && !s.connAt[l.conn].phase.Gone?
  {
    hide Run, Shape, Conns, Counting, Traffic;
    InvAlways(redact, states, actions, i);
    assert LiveEntry(states[i], id, states[i].live[id]);
  }

  // The start time aside, which a reset sets anew, two entries are the same.
  predicate SameEntry(a: Live, b: Live) { a.(started := b.started) == b }

  // The list of names is the same, and rules known before go by their names and have their hops as before.
  ghost predicate SameWays(s: State, s': State) {
    && s'.order == s.order && s'.rules == s.rules && s'.ruleAt.Keys == s.ruleAt.Keys
    && forall x :: x in s.ruleAt ==>
         && s'.ruleAt[x].name == s.ruleAt[x].name && s'.ruleAt[x].listenWay == s.ruleAt[x].listenWay
         && s'.ruleAt[x].forwardWay == s.ruleAt[x].forwardWay && s'.ruleAt[x].counters == s.ruleAt[x].counters
  }

  // Nothing but targets and new counters differs: names, hops, connections and ids are as they were.
  ghost predicate SameNamed(s: State, s': State) {
    SameWays(s, s') && s'.live == s.live && s'.nextId == s.nextId && s'.connAt == s.connAt
  }

  lemma EvictNamed(s: State, r: Rule, key: TargetKey)
    requires r in s.ruleAt
    ensures SameNamed(s, Evict(s, r, key))
  {
  }

  lemma AddTargetNamed(s: State, r: Rule, key: TargetKey, c: Counter)
    requires r in s.ruleAt
    ensures SameNamed(s, AddTarget(s, r, key, c))
  {
  }

  // A target lookup touches neither names nor connections.
  lemma LookedIs(s: State, r: Rule, key: TargetKey, c: Counter, victim: TargetKey)
    requires r in s.ruleAt
    ensures SameNamed(s, Looked(s, r, key, c, victim))
  {
    hide Evict, AddTarget;
    EvictNamed(s, r, victim);
    AddTargetNamed(s, r, key, c);
    AddTargetNamed(Evict(s, r, victim), r, key, c);
  }

  lemma DialedIs(s: State, s': State, d: Dialing)
    requires Dialed(s, s', d)
    ensures s'.order == s.order && s'.rules == s.rules && s'.ruleAt == s.ruleAt && s'.nextId >= s.nextId
    ensures forall id :: id in s'.live && id <= s.nextId ==> id in s.live && s'.live[id] == s.live[id]
    ensures !s.Registered(d.rule) ==> s'.live == s.live && s'.nextId == s.nextId
  {
  }

  lemma RuleDialLive(s: State, s': State, d: Dialing)
    requires RuleDial(s, s', d)
    ensures s'.nextId >= s.nextId && SameWays(s, s')
    ensures forall id :: id in s'.live && id <= s.nextId ==> id in s.live && s'.live[id] == s.live[id]
    ensures d.rule in s.ruleAt && !s.Registered(d.rule) ==> s'.live == s.live && s'.nextId == s.nextId
  {
    hide Dialed, Looked, CountDial;
    var s0 := CountDial(s, s.ruleAt[d.rule].count, d.elapsed, d.now, d.failed);
    CountDialIs(s, s.ruleAt[d.rule].count, d.elapsed, d.now, d.failed);
    LookedIs(s0, d.rule, d.key, d.target, d.victim);
    DialedIs(Looked(s0, d.rule, d.key, d.target, d.victim), s', d);
  }

  // No step brings an old id back or changes whom it names.
  lemma IdsKept(redact: Redact, s: State, a: Action, s': State)
    requires Inv(s) && Next(redact, s, a, s')
    ensures s'.nextId >= s.nextId
    ensures forall id :: id in s'.live && id <= s.nextId ==> id in s.live && SameEntry(s'.live[id], s.live[id])
  {
    hide Inv, Sync, RuleDial, Tick, Reset, Record, AddHopUrl;
    match a {
      case Syncing(cfgs) => assert Shape(s) by { ShapeAndSane(s); } SyncIs(redact, s, s', cfgs);
      case RuleDialing(d) => RuleDialLive(s, s', d);
      case Ticking(at) => TickIs(s, at);
      case Resetting(at) => ResetIs(s, at);
      case Wrapping(r, key, c) => WrapNames(s, s', r, key, c);
      case Recording(k, size, read, at) => RecordNames(s, k, size, read, at);
      case _ =>
    }
  }

  // Ids are never reused: an id given out before step i names the same connection ever after.
  lemma {:induction false} IdsNeverReused(redact: Redact, states: seq<State>, actions: seq<Action>, i: nat, j: nat,
        id: nat)
    requires Run(redact, states, actions) && i <= j < |states| && id <= states[i].nextId && id in states[j].live
    ensures id in states[i].live && SameEntry(states[j].live[id], states[i].live[id])
    decreases j - i
  {
    hide Inv, Next, Initial;
    if i < j {
      assert Steps(redact, states, actions, i);
      InvAlways(redact, states, actions, i);
      IdsKept(redact, states[i], actions[i], states[i + 1]);
      IdsNeverReused(redact, states, actions, i + 1, j, id);
    }
  }

  // A rule object a step leaves detached was detached before or is new.
  lemma DetachedKept(redact: Redact, s: State, a: Action, s': State, r: Rule)
    requires Inv(s) && Next(redact, s, a, s') && r in s.ruleAt && !s.Registered(r)
    ensures r in s'.ruleAt && !s'.Registered(r)
  {
    hide Shape, AllSane, Inv, Sync, Tick, Reset, Record, AddHopUrl, RuleDial, SameObjects;
    match a {
      case Syncing(cfgs) => ShapeAndSane(s); DetachedStaysDetached(redact, s, s', cfgs, r);
      case Ticking(at) => assert AllSane(s) by { ShapeAndSane(s); } TickSameObjects(s, at); SameNames(s, s', r);
      case Resetting(at) => ResetSameObjects(s, at); SameNames(s, s', r);
      case RuleDialing(d) => RuleDialLive(s, s', d);
      case Wrapping(w, key, c) => WrapNames(s, s', w, key, c);
      case Recording(k, size, read, at) => RecordNames(s, k, size, read, at);
      case _ =>
    }
  }

  lemma WrapNames(s: State, s': State, r: Rule, key: HopKey, c: Counter)
    requires r in s.ruleAt && (s' == s || s' == AddHopUrl(s, r, key, c))
    ensures s'.order == s.order && s'.rules == s.rules && s'.live == s.live && s'.nextId == s.nextId
    ensures s'.ruleAt.Keys == s.ruleAt.Keys
    ensures forall x :: x in s.ruleAt ==> s'.ruleAt[x].name == s.ruleAt[x].name
  {
  }

  lemma RecordNames(s: State, k: Conn, size: int, read: bool, now: Time)
    requires k in s.connAt && s.connAt[k].count in s.countAt
    ensures var s' := Record(s, k, size, read, now);
            && s'.order == s.order && s'.rules == s.rules && s'.ruleAt == s.ruleAt
            && s'.live == s.live && s'.nextId == s.nextId
  {
  }

  // Once its rule is removed a rule object never comes back, even when its name does.
  lemma {:induction false} RemovedForGood(redact: Redact, states: seq<State>, actions: seq<Action>, i: nat, j: nat,
        r: Rule)
    requires Run(redact, states, actions) && i <= j < |states| && r in states[i].ruleAt && !states[i].Registered(r)
    ensures r in states[j].ruleAt && !states[j].Registered(r)
    decreases j - i
  {
    hide Inv, Next, Initial;
    if i < j {
      assert Steps(redact, states, actions, i);
      InvAlways(redact, states, actions, i);
      DetachedKept(redact, states[i], actions[i], states[i + 1], r);
      RemovedForGood(redact, states, actions, i + 1, j, r);
    }
  }

  // A dial that ends after its rule was removed tracks nothing and uses up no id.
  lemma LateDialUntracked(redact: Redact, states: seq<State>, actions: seq<Action>, i: nat, j: nat, d: Dialing)
    requires Run(redact, states, actions) && i <= j < |actions| && actions[j] == RuleDialing(d)
    requires d.rule in states[i].ruleAt && !states[i].Registered(d.rule)
    ensures states[j + 1].live == states[j].live && states[j + 1].nextId == states[j].nextId
  {
    hide Inv, Initial, RuleDial;
    RemovedForGood(redact, states, actions, i, j, d.rule);
    assert Steps(redact, states, actions, j);
    RuleDialLive(states[j], states[j + 1], d);
  }

  // Closing a connection drops its own entry and no other.
  lemma CloseDropsOnlyItsOwn(redact: Redact, states: seq<State>, actions: seq<Action>, i: nat, k: Conn, id: nat)
    requires Run(redact, states, actions) && i < |actions| && actions[i] == Dropping(k) && id in states[i].live
    ensures id in states[i + 1].live <==> states[i].live[id].conn != k
  {
    hide Inv, Initial;
    assert Steps(redact, states, actions, i);
    InvAlways(redact, states, actions, i);
    LinkedBack(states[i], k, id);
  }

  lemma LinkedBack(s: State, k: Conn, id: nat)
    requires Inv(s) && k in s.connAt && id in s.live
    ensures s.live[id].conn == k <==> s.connAt[k].tracked == Some(id)
  {
    hide Shape, Counting, Traffic;
    assert ConnShape(s, k, s.connAt[k]);
    assert LiveEntry(s, id, s.live[id]);
  }

  // ------------------------------------------------------------------ bytes

  // At every step the bytes of any counter cover those of the tracked connections writing to it.
  lemma BytesCover(redact: Redact, states: seq<State>, actions: seq<Action>, i: nat, t: Counter, isUp: bool)
    requires Run(redact, states, actions) && i < |states| && t in states[i].countAt
    ensures Sum(states[i].Writers(t), states[i].LiveBytes(isUp)) <= states[i].countAt[t].Bytes(isUp)
  {
    hide Run, Structure, Counting, Windows, Peaked, AllSane;
    InvAlways(redact, states, actions, i);
    assert Covers(states[i], t, isUp);
  }

  // ------------------------------------------------------------------ targets

  // At every step no rule holds more than MAX_TARGETS targets.
  lemma TargetsBounded(redact: Redact, states: seq<State>, actions: seq<Action>, i: nat, r: Rule)
    requires Run(redact, states, actions) && i < |states| && r in states[i].ruleAt
    ensures |states[i].ruleAt[r].targets| <= MAX_TARGETS
  {
    hide Run, Tracked, Conns, Counting, Traffic;
    InvAlways(redact, states, actions, i);
    assert RuleShape(states[i], r, states[i].ruleAt[r]);
  }

  // Where a counter can be found: in a rule, under a hop key, under a target key, or with a connection.
  datatype Place = OwnOf(rule: Rule) | HopOf(rule: Rule, key: HopKey) | TargetOf(rule: Rule, target: TargetKey)
    | ConnectionOf(id: nat)

  predicate FoundAt(s: State, p: Place, c: Counter) {
    match p
    case OwnOf(r) => r in s.ruleAt && s.ruleAt[r].count == c
    case HopOf(r, key) => r in s.ruleAt && key in s.ruleAt[r].counters && s.ruleAt[r].counters[key] == c
    case TargetOf(r, key) => r in s.ruleAt && key in s.ruleAt[r].targets && s.ruleAt[r].targets[key] == c
    case ConnectionOf(id) => id in s.live && s.live[id].count == c
  }

  // No counter is found in two places, so a walk over all of them comes to each counter once.
  lemma OnePlaceEach(redact: Redact, states: seq<State>, actions: seq<Action>, i: nat, p: Place, q: Place, c: Counter)
    requires Run(redact, states, actions) && i < |states| && FoundAt(states[i], p, c) && FoundAt(states[i], q, c)
    ensures p == q
  {
    hide Run, Conns, Counting, Traffic, FoundAt;
    InvAlways(redact, states, actions, i);
    PlaceIsHome(states[i], p, c);
    PlaceIsHome(states[i], q, c);
  }

  ghost function HomeOf(p: Place): Home {
    match p
    case OwnOf(r) => OfRule(r)
    case HopOf(r, key) => OfHop(r, key)
    case TargetOf(r, key) => OfTarget(r, key)
    case ConnectionOf(id) => OfLive(id)
  }

  lemma PlaceIsHome(s: State, p: Place, c: Counter)
    requires Shape(s) && Tracked(s) && FoundAt(s, p, c)
    ensures Made(s, c, HomeOf(p))
  {
    if p.ConnectionOf? {
      assert LiveEntry(s, p.id, s.live[p.id]);
    } else {
      assert RuleShape(s, p.rule, s.ruleAt[p.rule]);
    }
  }

  // ------------------------------------------------------------------ windows

  // At every step every counter a snapshot can show measures from the last tick.
  lemma VisibleInWindow(redact: Redact, states: seq<State>, actions: seq<Action>, i: nat, c: Counter)
    requires Run(redact, states, actions) && i < |states| && states[i].Visible(c)
    ensures c in states[i].countAt && states[i].countAt[c].prevAt == states[i].lastTick
  {
    hide Run, Conns, Counting, Peaked, BytesCovered, AllSane, Shape, RuleShape, RuleInWindow;
    InvAlways(redact, states, actions, i);
    var s := states[i];
    if r :| r in s.ruleAt && s.Registered(r) && s.ruleAt[r].Holds(c) {
      RuleFacts(s, r);
      HeldInWindow(s, r, c);
    } else {
      var id :| id in s.live && s.live[id].count == c;
      assert LiveEntry(s, id, s.live[id]);
    }
  }

  lemma HeldInWindow(s: State, r: Rule, c: Counter)
    requires r in s.ruleAt && RuleShape(s, r, s.ruleAt[r]) && RuleInWindow(s, s.ruleAt[r]) && s.ruleAt[r].Holds(c)
    ensures c in s.countAt && s.countAt[c].prevAt == s.lastTick
  {
  }

  // ------------------------------------------------------------------ one counter's share of a run

  // The events of one step that touch counter c.
  ghost function EventsOf(s: State, a: Action, c: Counter): seq<Event> {
    match a
    case RuleDialing(d) =>
      (if d.rule in s.ruleAt && c == s.ruleAt[d.rule].count then [Dials(d.elapsed, d.now, d.failed)] else [])
      + (if c == d.target then [Dials(d.elapsed, d.now, d.failed)] + (if d.failed then [] else [Opens(d.openedAt)])
        else [])
    case HopDialing(x, elapsed, at, failed) => if c == x then [Dials(elapsed, at, failed)] else []
    case Opening(x, accepted, at, k) => if c == x then [Opens(at)] else []
    case Recording(k, size, read, at) =>
      if size > 0 && k in s.connAt && Carries(s.connAt[k], c) then [Adds(FlowsUp(s.connAt[k], read), size, at)] else []
    case Closing(k, at) => if k in s.connAt && c == s.connAt[k].count then [Closes(s.connAt[k].generation, at)] else []
    case Ticking(at) => if s.Visible(c) then [Ticks(at)] else []
    case _ => []
  }

  lemma RunOne(v: CounterView, e: Event)
    ensures Evolve(v, [e]) == After(v, e) && Evolve(v, []) == v
  {
  }

  lemma {:induction false} EvolveJoin(v: CounterView, a: seq<Event>, b: seq<Event>)
    ensures Evolve(v, a + b) == Evolve(Evolve(v, a), b)
    decreases |a|
  {
    if a == [] {
      assert a + b == b;
    } else {
      assert (a + b)[1..] == a[1..] + b;
      EvolveJoin(After(v, a[0]), a[1..], b);
    }
  }

  lemma DialedEvents(s: State, s': State, d: Dialing, c: Counter)
    requires Dialed(s, s', d) && c in s.countAt
    requires Shape(s) && Made(s, d.target, OfTarget(d.rule, d.key))
    ensures c in s'.countAt
    ensures s'.countAt[c] ==
            Evolve(s.countAt[c], if c == d.target
            then [Dials(d.elapsed, d.now, d.failed)] + (if d.failed then [] else [Opens(d.openedAt)]) else [])
  {
    hide Route, Shape, Track;
    var v := s.countAt[c];
    RunOne(v, Dials(d.elapsed, d.now, d.failed));
    RunOne(v.Dialed(d.elapsed, d.now, d.failed), Opens(d.openedAt));
    EvolveJoin(v, [Dials(d.elapsed, d.now, d.failed)], [Opens(d.openedAt)]);
    var s1 := CountDial(s, d.target, d.elapsed, d.now, d.failed);
    if !d.failed && s.Registered(d.rule) {
      var s2 := OpenConn(s1, d.target, d.conn.value, false, d.openedAt);
      TrackIs(s2, d.conn.value, d.rule, d.key, d.client, Route(s2.ruleAt[d.rule].forwardWay, d.dialed), d.now,
        d.own.value);
    }
  }

  lemma LookedCounts(s: State, r: Rule, key: TargetKey, c: Counter, victim: TargetKey)
    requires CanLook(s, r, key, c, victim)
    ensures forall x :: x in s.countAt ==>
            x in Looked(s, r, key, c, victim).countAt && Looked(s, r, key, c, victim).countAt[x] == s.countAt[x]
    ensures c !in s.countAt ==> Looked(s, r, key, c, victim).countAt[c] == Fresh(s.lastTick)
  {
  }

  // The first half of a dial: the rule's own counter, then the lookup.
  ghost function DialLooked(s: State, d: Dialing): State
    requires d.rule in s.ruleAt && s.ruleAt[d.rule].count in s.countAt
  {
    Looked(CountDial(s, s.ruleAt[d.rule].count, d.elapsed, d.now, d.failed), d.rule, d.key, d.target, d.victim)
  }

  lemma DialLookedFacts(s: State, s': State, d: Dialing, c: Counter)
    requires Inv(s) && RuleDial(s, s', d) && c in s.countAt
    ensures var s1 := DialLooked(s, d);
            && Dialed(s1, s', d) && Shape(s1) && Made(s1, d.target, OfTarget(d.rule, d.key)) && c in s1.countAt
            && s1.countAt[c] == if c == s.ruleAt[d.rule].count then s.countAt[c].Dialed(d.elapsed, d.now, d.failed)
                 else s.countAt[c]
  {
    hide Inv, Dialed, Looked, CanLook;
    var c0 := s.ruleAt[d.rule].count;
    var s0 := CountDial(s, c0, d.elapsed, d.now, d.failed);
    KeepCountDial(s, c0, d.elapsed, d.now, d.failed);
    KeepLooked(s0, d.rule, d.key, d.target, d.victim);
    LookedCounts(s0, d.rule, d.key, d.target, d.victim);
    TargetMade(DialLooked(s, d), d.rule, d.key);
    ShapeAndSane(DialLooked(s, d));
  }

  lemma RuleDialEvents(s: State, s': State, d: Dialing, c: Counter)
    requires Inv(s) && RuleDial(s, s', d) && c in s.countAt
    ensures c in s'.countAt && s'.countAt[c] == Evolve(s.countAt[c], EventsOf(s, RuleDialing(d), c))
  {
    hide Inv, Dialed, DialLooked, Made, Shape, Evolve;
    assert d.rule in s.ruleAt && s.ruleAt[d.rule].count in s.countAt;
    var own := if c == s.ruleAt[d.rule].count then [Dials(d.elapsed, d.now, d.failed)] else [];
    var rest := if c == d.target
      then [Dials(d.elapsed, d.now, d.failed)] + (if d.failed then [] else [Opens(d.openedAt)]) else [];
    DialLookedFacts(s, s', d, c);
    DialedEvents(DialLooked(s, d), s', d, c);
    RunOne(s.countAt[c], Dials(d.elapsed, d.now, d.failed));
    EvolveJoin(s.countAt[c], own, rest);
    assert EventsOf(s, RuleDialing(d), c) == own + rest;
  }

  lemma RecordEvents(s: State, k: Conn, size: int, read: bool, at: Time, c: Counter)
    requires Inv(s) && k in s.connAt && c in s.countAt
    ensures s.connAt[k].count in s.countAt
    ensures var s' := Record(s, k, size, read, at);
            c in s'.countAt && s'.countAt[c] == Evolve(s.countAt[c], EventsOf(s, Recording(k, size, read, at), c))
  {
    hide Shape, Tracked, Counting, Traffic;
    assert ConnShape(s, k, s.connAt[k]);
    if size > 0 {
      RunOne(s.countAt[c], Adds(FlowsUp(s.connAt[k], read), size, at));
    }
  }

  // Any step but a reset does to a counter exactly what its own events do.
  lemma StepEvents(redact: Redact, s: State, a: Action, s': State, c: Counter)
    requires Inv(s) && Next(redact, s, a, s') && c in s.countAt && !a.Resetting?
    ensures c in s'.countAt && s'.countAt[c] == Evolve(s.countAt[c], EventsOf(s, a, c))
  {
    hide Inv, Sync, RuleDial, Tick, Record, State.Visible, AddHopUrl;
    var v := s.countAt[c];
    match a {
      case Syncing(cfgs) => ShapeAndSane(s); SyncIs(redact, s, s', cfgs);
      case Wrapping(r, key, x) => WrapCounts(s, s', r, key, x, c);
      case RuleDialing(d) => RuleDialEvents(s, s', d, c);
      case HopDialing(x, elapsed, at, failed) => RunOne(v, Dials(elapsed, at, failed));
      case Opening(x, accepted, at, k) => RunOne(v, Opens(at));
      case Recording(k, size, read, at) => RecordEvents(s, k, size, read, at, c);
      case Closing(k, at) => RunOne(v, Closes(s.connAt[k].generation, at));
      case Dropping(k) =>
      case Ticking(at) => TickIs(s, at); RunOne(v, Ticks(at));
    }
  }

  lemma WrapCounts(s: State, s': State, r: Rule, key: HopKey, x: Counter, c: Counter)
    requires r in s.ruleAt && c in s.countAt && (s' == s || (x !in s.countAt && s' == AddHopUrl(s, r, key, x)))
    ensures c in s'.countAt && s'.countAt[c] == s.countAt[c]
  {
  }

  // The events of steps i to j that touch counter c.
  ghost function EventsAlong(states: seq<State>, actions: seq<Action>, i: nat, j: nat, c: Counter): seq<Event>
    requires i <= j <= |actions| < |states|
    decreases j - i
  {
    if i == j then [] else EventsOf(states[i], actions[i], c) + EventsAlong(states, actions, i + 1, j, c)
  }

  lemma {:induction false} EventsExplain(redact: Redact, states: seq<State>, actions: seq<Action>, i: nat, j: nat,
        c: Counter)
    requires Run(redact, states, actions) && i <= j < |states| && c in states[i].countAt
    requires forall n :: i <= n < j ==> !actions[n].Resetting?
    ensures c in states[j].countAt
    ensures states[j].countAt[c] == Evolve(states[i].countAt[c], EventsAlong(states, actions, i, j, c))
    decreases j - i
  {
    hide Inv, Next, Initial, EventsOf;
    if i < j {
      assert Steps(redact, states, actions, i);
      InvAlways(redact, states, actions, i);
      StepEvents(redact, states[i], actions[i], states[i + 1], c);
      EventsExplain(redact, states, actions, i + 1, j, c);
      EvolveJoin(states[i].countAt[c], EventsOf(states[i], actions[i], c), EventsAlong(states, actions, i + 1, j, c));
    }
  }

  // ------------------------------------------------------------------ a counter's whole history

  lemma LookedMakes(s: State, r: Rule, key: TargetKey, c: Counter, victim: TargetKey)
    requires CanLook(s, r, key, c, victim)
    ensures var s' := Looked(s, r, key, c, victim);
            s'.lastTick == s.lastTick && forall x :: x in s'.countAt && x !in s.countAt ==>
              x == c && s'.countAt[x] == Fresh(s.lastTick)
  {
  }

  // Besides its target's counter a dial makes at most the counter of the connection it tracks.
  lemma DialedMakes(s: State, s': State, d: Dialing, c: Counter)
    requires Dialed(s, s', d) && c in s'.countAt && c !in s.countAt
    ensures s'.countAt[c] == Fresh(s.lastTick)
  {
    hide Route, Track;
    var s2 := OpenConn(CountDial(s, d.target, d.elapsed, d.now, d.failed), d.target, d.conn.value, false, d.openedAt);
    TrackIs(s2, d.conn.value, d.rule, d.key, d.client, Route(s2.ruleAt[d.rule].forwardWay, d.dialed), d.now,
      d.own.value);
  }

  lemma DialLookedMakes(s: State, s': State, d: Dialing)
    requires Inv(s) && RuleDial(s, s', d)
    ensures var s1 := DialLooked(s, d);
            && Dialed(s1, s', d) && Shape(s1) && Made(s1, d.target, OfTarget(d.rule, d.key))
            && s1.lastTick == s.lastTick
            && forall x :: x in s1.countAt && x !in s.countAt ==> x == d.target && s1.countAt[x] == Fresh(s.lastTick)
  {
    hide Inv, Dialed, Looked, CanLook;
    var c0 := s.ruleAt[d.rule].count;
    var s0 := CountDial(s, c0, d.elapsed, d.now, d.failed);
    KeepCountDial(s, c0, d.elapsed, d.now, d.failed);
    CountDialIs(s, c0, d.elapsed, d.now, d.failed);
    KeepLooked(s0, d.rule, d.key, d.target, d.victim);
    LookedMakes(s0, d.rule, d.key, d.target, d.victim);
    TargetMade(DialLooked(s, d), d.rule, d.key);
    ShapeAndSane(DialLooked(s, d));
  }

  lemma RuleDialMakes(s: State, s': State, d: Dialing, c: Counter)
    requires Inv(s) && RuleDial(s, s', d) && c in s'.countAt && c !in s.countAt
    ensures s'.countAt[c] == Evolve(Fresh(s.lastTick), EventsOf(s, RuleDialing(d), c))
  {
    hide Inv, Dialed, DialLooked, Made, Shape, Fresh;
    assert d.rule in s.ruleAt && s.ruleAt[d.rule].count in s.countAt;
    DialLookedMakes(s, s', d);
    if c == d.target {
      MadeExists(DialLooked(s, d), c, OfTarget(d.rule, d.key));
      DialedEvents(DialLooked(s, d), s', d, c);
      assert EventsOf(s, RuleDialing(d), c) ==
        [Dials(d.elapsed, d.now, d.failed)] + (if d.failed then [] else [Opens(d.openedAt)]);
    } else {
      DialedMakes(DialLooked(s, d), s', d, c);
      assert EventsOf(s, RuleDialing(d), c) == [];
    }
  }

  lemma MadeExists(s: State, c: Counter, h: Home)
    requires Made(s, c, h)
    ensures c in s.countAt
  {
  }

  lemma WrapMakes(s: State, s': State, r: Rule, key: HopKey, x: Counter, c: Counter)
    requires r in s.ruleAt && (s' == s || s' == AddHopUrl(s, r, key, x)) && c in s'.countAt && c !in s.countAt
    ensures s'.countAt[c] == Fresh(s.lastTick)
  {
  }

  lemma RecordKeys(s: State, k: Conn, size: int, read: bool, at: Time)
    requires Inv(s) && k in s.connAt
    ensures s.connAt[k].count in s.countAt && Record(s, k, size, read, at).countAt.Keys == s.countAt.Keys
  {
    hide Shape, Tracked, Counting, Traffic;
    assert ConnShape(s, k, s.connAt[k]);
  }

  // A counter a step makes is new but for what the step itself counts on it.
  lemma StepMakes(redact: Redact, s: State, a: Action, s': State, c: Counter)
    requires Inv(s) && Next(redact, s, a, s') && c in s'.countAt && c !in s.countAt
    ensures s'.countAt[c] == Evolve(Fresh(s.lastTick), EventsOf(s, a, c))
  {
    hide Inv, Sync, RuleDial, Tick, Reset, Record, State.Visible, AddHopUrl, Fresh;
    match a {
      case Syncing(cfgs) => ShapeAndSane(s); SyncIs(redact, s, s', cfgs);
      case Wrapping(r, key, x) => WrapMakes(s, s', r, key, x, c);
      case RuleDialing(d) => RuleDialMakes(s, s', d, c);
      case Recording(k, size, read, at) => RecordKeys(s, k, size, read, at);
      case Ticking(at) => TickIs(s, at);
      case Resetting(at) => ResetIs(s, at);
      case _ =>
    }
  }

  datatype History = History(start: CounterView, events: seq<Event>)

  // What became of a counter up to state j: as what it last started over, when it was made or reset,
  // and every event since, that of the making step included.
  ghost function HistoryOf(states: seq<State>, actions: seq<Action>, j: nat, c: Counter): History
    requires j <= |actions| < |states|
  {
    if j == 0 then History(Fresh(0), [])
    else
      var s, a := states[j - 1], actions[j - 1];
      if c !in s.countAt then History(Fresh(s.lastTick), EventsOf(s, a, c))
      else if a.Resetting? && s.Visible(c)
          then History(Fresh(s.lastTick).(generation := s.countAt[c].generation + 1), [])
      else
        var h := HistoryOf(states, actions, j - 1, c);
        h.(events := h.events + EventsOf(s, a, c))
  }

  lemma ResetEvents(s: State, at: Time, c: Counter)
    requires c in s.countAt
    ensures c in Reset(s, at).countAt && EventsOf(s, Resetting(at), c) == []
    ensures Reset(s, at).countAt[c] ==
            if s.Visible(c) then Fresh(s.lastTick).(generation := s.countAt[c].generation + 1) else s.countAt[c]
  {
    ResetIs(s, at);
  }

  // In every state of every run each counter is what its history makes of a fresh one.
  lemma {:induction false} HistoryExplains(redact: Redact, states: seq<State>, actions: seq<Action>, j: nat, c: Counter)
    requires Run(redact, states, actions) && j < |states| && c in states[j].countAt
    ensures var h := HistoryOf(states, actions, j, c);
            && h.start == Fresh(h.start.prevAt).(generation := h.start.generation)
            && states[j].countAt[c] == Evolve(h.start, h.events)
  {
    hide Inv, Next, EventsOf, State.Visible, Reset;
    if j > 0 {
      var s, a, s' := states[j - 1], actions[j - 1], states[j];
      assert Steps(redact, states, actions, j - 1);
      InvAlways(redact, states, actions, j - 1);
      if c !in s.countAt {
        StepMakes(redact, s, a, s', c);
      } else {
        HistoryExplains(redact, states, actions, j - 1, c);
        var h := HistoryOf(states, actions, j - 1, c);
        EvolveJoin(h.start, h.events, EventsOf(s, a, c));
        if a.Resetting? {
          ResetStep(redact, s, a, s');
          ResetEvents(s, a.at, c);
        } else {
          StepEvents(redact, s, a, s', c);
        }
      }
    }
  }

  lemma ResetStep(redact: Redact, s: State, a: Action, s': State)
    requires Next(redact, s, a, s') && a.Resetting?
    ensures s' == Reset(s, a.at)
  {
  }

  // No tick up to state j finds the clock gone back.
  ghost predicate ClockForward(states: seq<State>, actions: seq<Action>, j: nat)
    requires j <= |actions| < |states|
  {
    forall n :: 0 <= n < j && actions[n].Ticking? ==> ZERO_TIME != states[n].lastTick <= actions[n].at
  }

  lemma {:induction false} ForwardJoin(v: CounterView, a: seq<Event>, b: seq<Event>)
    ensures Forward(v, a + b) <==> Forward(v, a) && Forward(Evolve(v, a), b)
    decreases |a|
  {
    if a == [] {
      assert a + b == b;
    } else {
      assert (a + b)[1..] == a[1..] + b;
      ForwardJoin(After(v, a[0]), a[1..], b);
    }
  }

  lemma {:induction false} TicklessForward(v: CounterView, events: seq<Event>)
    requires forall e :: e in events ==> !e.Ticks?
    ensures Forward(v, events)
    decreases |events|
  {
    if events != [] {
      TicklessForward(After(v, events[0]), events[1..]);
    }
  }

  // One step of the registry with the clock not gone back.
  lemma StepForward(s: State, a: Action, c: Counter, v: CounterView)
    requires a.Ticking? ==> ZERO_TIME != s.lastTick <= a.at
    requires s.Visible(c) ==> v.prevAt == s.lastTick
    ensures Forward(v, EventsOf(s, a, c))
  {
    hide State.Visible;
    if a.Ticking? && s.Visible(c) {
      assert EventsOf(s, a, c) == [Ticks(a.at)];
      assert Forward(After(v, Ticks(a.at)), []);
    } else {
      TicklessForward(v, EventsOf(s, a, c));
    }
  }

  // A clock that does not go back does not for any counter.
  lemma {:induction false} HistoryForward(redact: Redact, states: seq<State>, actions: seq<Action>, j: nat, c: Counter)
    requires Run(redact, states, actions) && j < |states| && c in states[j].countAt && ClockForward(states, actions, j)
    ensures var h := HistoryOf(states, actions, j, c); Forward(h.start, h.events)
  {
    hide Inv, Next, EventsOf, State.Visible, Forward;
    if j > 0 {
      var s, a := states[j - 1], actions[j - 1];
      if c in s.countAt {
        HistoryForward(redact, states, actions, j - 1, c);
        var h := HistoryOf(states, actions, j - 1, c);
        HistoryExplains(redact, states, actions, j - 1, c);
        if s.Visible(c) {
          VisibleInWindow(redact, states, actions, j - 1, c);
        }
        StepForward(s, a, c, s.countAt[c]);
        ForwardJoin(h.start, h.events, EventsOf(s, a, c));
        TicklessForward(Fresh(s.lastTick).(generation := s.countAt[c].generation + 1), []);
      } else {
        if s.Visible(c) {
          VisibleInWindow(redact, states, actions, j - 1, c);
        }
        StepForward(s, a, c, Fresh(s.lastTick));
      }
    }
  }

  // In every state of every run, for every counter since it was made or last reset: rate x window
  // never adds up to more than the bytes it counted; and if the clock never went back,
  // (rate + 1) x window covers every byte its ticks have seen.
  lemma RatesNeverOvercount(redact: Redact, states: seq<State>, actions: seq<Action>, j: nat, c: Counter, isUp: bool)
    requires Run(redact, states, actions) && j < |states| && c in states[j].countAt
    ensures var h := HistoryOf(states, actions, j, c);
            && Area(h.start, h.events, isUp, 0) <= states[j].countAt[c].Bytes(isUp) * SECOND
            && (ClockForward(states, actions, j) ==>
                 states[j].countAt[c].Prev(isUp) * SECOND <= Area(h.start, h.events, isUp, 1))
  {
    hide Next, HistoryOf, Fresh, Area, Forward, ClockForward;
    var h := HistoryOf(states, actions, j, c);
    HistoryExplains(redact, states, actions, j, c);
    RatesAccountForBytes(h.start.prevAt, h.start.generation, h.events, isUp);
    if ClockForward(states, actions, j) {
      HistoryForward(redact, states, actions, j, c);
    }
  }

  // Right after a tick that advances a clock that never went back, (rate + 1) x window covers every
  // byte a visible counter has counted since it was made or last reset.
  lemma TickCoversBytes(redact: Redact, states: seq<State>, actions: seq<Action>, i: nat, c: Counter, isUp: bool)
    requires Run(redact, states, actions) && i < |actions| && actions[i].Ticking? && states[i].lastTick < actions[i].at
    requires ClockForward(states, actions, i + 1) && states[i].Visible(c)
    ensures var h := HistoryOf(states, actions, i + 1, c);
            c in states[i + 1].countAt &&
              states[i + 1].countAt[c].Bytes(isUp) * SECOND <= Area(h.start, h.events, isUp, 1)
  {
    hide Inv, Fresh, Area, Forward, ClockForward, State.Visible, Tick;
    VisibleInWindow(redact, states, actions, i, c);
    assert Steps(redact, states, actions, i);
    TickIs(states[i], actions[i].at);
    var h := HistoryOf(states, actions, i, c);
    HistoryExplains(redact, states, actions, i, c);
    HistoryExplains(redact, states, actions, i + 1, c);
    HistoryForward(redact, states, actions, i + 1, c);
    TickSeesAll(h.start.prevAt, h.start.generation, h.events, actions[i].at, isUp);
  }

  // In every state of every run, for every counter since it was made or last reset: the dials that
  // did not fail are its successful ones, and latencySum is the time these took.
  lemma LatencyAddsUp(redact: Redact, states: seq<State>, actions: seq<Action>, j: nat, c: Counter)
    requires Run(redact, states, actions) && j < |states| && c in states[j].countAt
    ensures var events := HistoryOf(states, actions, j, c).events;
            && states[j].countAt[c].dials - states[j].countAt[c].dialFailures == Successes(events)
            && states[j].countAt[c].latencySum == SuccessTime(events)
  {
    hide Next, HistoryOf;
    var h := HistoryOf(states, actions, j, c);
    HistoryExplains(redact, states, actions, j, c);
    DialsAddUp(h.start, h.events);
  }

  // In every state of every run, for every counter since it was made or last reset: each figure that
  // counts is the sum of what its events add, each time kept is the latest of its events (or the zero it
  // started with), and the latency shown is that of the dial it was told of last among the latest ones.
  lemma FiguresExplained(redact: Redact, states: seq<State>, actions: seq<Action>, j: nat, c: Counter, f: Figure,
                         m: Mark)
    requires Run(redact, states, actions) && j < |states| && c in states[j].countAt
    requires f.Active? ==> f.generation == HistoryOf(states, actions, j, c).start.generation
    ensures var events, v := HistoryOf(states, actions, j, c).events, states[j].countAt[c];
            && FigureOf(v, f) == Shares(events, f)
            && (forall e :: e in events && Marks(e, m) ==> e.at <= LastOf(v, m))
            && 0 <= LastOf(v, m)
            && (LastOf(v, m) == 0 || exists e :: e in events && Marks(e, m) && e.at == LastOf(v, m))
            && if forall e :: e in events && Succeeds(e) ==> e.at < 0 then v.latency == 0 && v.lastDial == 0
               else exists i :: DialedLastAt(events, i) && v.latency == events[i].elapsed && v.lastDial == events[i].at
  {
    hide Next, HistoryOf, Share, Shares, Evolve, DialedLastAt;
    var h := HistoryOf(states, actions, j, c);
    HistoryExplains(redact, states, actions, j, c);
    FiguresAddUp(h.start, h.events, f);
    TimesAreLatest(h.start, h.events, m);
    LatencyIsLatest(h.start, h.events);
  }

  // ------------------------------------------------------------------ the list of names

  lemma SyncOrdered(redact: Redact, s: State, s': State, cfgs: seq<Config.Rule>)
    requires Sync(redact, s, s', cfgs) && DistinctNames(cfgs)
    ensures Ordered(s')
  {
    hide RuleSynced;
    forall n ensures n in s'.rules <==> n in s'.order {
      if n in s'.rules {
        var i :| 0 <= i < |cfgs| && cfgs[i].name == n;
        assert s'.order[i] == n;
      }
      if n in s'.order {
        var i :| 0 <= i < |s'.order| && s'.order[i] == n;
        assert Chosen(s, s', cfgs[i].name);
      }
    }
  }

  lemma OrderKept(redact: Redact, s: State, a: Action, s': State)
    requires Inv(s) && Next(redact, s, a, s') && !a.Syncing?
    ensures s'.order == s.order && s'.rules == s.rules
  {
    hide Inv, RuleDial, Tick, Reset, Record, AddHopUrl, Victim;
    match a {
      case RuleDialing(d) => RuleDialLive(s, s', d);
      case Ticking(at) => ClockOrder(s, at);
      case Resetting(at) => ClockOrder(s, at);
      case Wrapping(r, key, c) => WrapNames(s, s', r, key, c);
      case Recording(k, size, read, at) => RecordNames(s, k, size, read, at);
      case _ =>
    }
  }

  lemma ClockOrder(s: State, at: Time)
    ensures Tick(s, at).order == s.order && Tick(s, at).rules == s.rules
    ensures Reset(s, at).order == s.order && Reset(s, at).rules == s.rules
  {
  }

  // At every step the registry lists exactly its rules, each once, if no configuration names one twice.
  lemma {:induction false} OrderedAlways(redact: Redact, states: seq<State>, actions: seq<Action>, i: nat)
    requires Run(redact, states, actions) && i < |states|
    requires forall n :: 0 <= n < i && actions[n].Syncing? ==> DistinctNames(actions[n].cfgs)
    ensures Ordered(states[i])
  {
    hide Inv, Next;
    if i > 0 {
      OrderedAlways(redact, states, actions, i - 1);
      assert Steps(redact, states, actions, i - 1);
      InvAlways(redact, states, actions, i - 1);
      OrderedNext(redact, states[i - 1], actions[i - 1], states[i]);
    }
  }

  lemma OrderedNext(redact: Redact, s: State, a: Action, s': State)
    requires Inv(s) && Ordered(s) && Next(redact, s, a, s') && (a.Syncing? ==> DistinctNames(a.cfgs))
    ensures Ordered(s')
  {
    hide Inv, Sync, DistinctNames;
    if a.Syncing? {
      SyncOrdered(redact, s, s', a.cfgs);
    } else {
      OrderKept(redact, s, a, s');
    }
  }
}

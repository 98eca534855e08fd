/** What may make a target, a hop's counter, a tracked connection or a rule appear or go. */
module RegistryChanges {
  import opened Text
  import opened Counters
  import opened RegistryState
  import opened RegistrySteps
  import opened RegistryProofs
  import opened RegistryTargets
  import opened RegistryClock
  import opened RegistrySync
  import opened RegistryRuns
  import opened RegistryProperties
  import Config

  // ------------------------------------------------------------------ targets

  ghost predicate NamedByLive(s: State, r: Rule, key: TargetKey) {
    exists id :: id in s.live && s.live[id].rule == r && s.live[id].Key() == key
  }

  // The dial looks up a new target of a rule that is full, and this is an idle one, or none is and this is
  // among the least recently active.
  ghost predicate EvictedBy(s: State, d: Dialing, r: Rule, key: TargetKey)
    requires r in s.ruleAt
  {
    var targets := s.ruleAt[r].targets;
    && d.rule == r && d.key !in targets && |targets| == MAX_TARGETS && key in targets
    && forall k :: k in targets ==>
         && k in targets && targets[k] in s.countAt && targets[key] in s.countAt
         && (s.countAt[targets[k]].active == 0 ==> s.countAt[targets[key]].active == 0)
         && ((s.countAt[targets[k]].active == 0) == (s.countAt[targets[key]].active == 0) ==>
               s.countAt[targets[key]].lastActive <= s.countAt[targets[k]].lastActive)
  }

  // What a step does to the targets of a rule: a dial may add its own and evict one for it, a reset drops
  // those no live connection names, and nothing else touches any, a new configuration included.
  ghost predicate TargetsChange(s: State, a: Action, s': State, r: Rule, key: TargetKey)
    requires r in s.ruleAt && r in s'.ruleAt
  {
    var before, after := s.ruleAt[r].targets, s'.ruleAt[r].targets;
    && (key in before && key in after ==> after[key] == before[key])
    && (key in after && key !in before ==> a.RuleDialing? && a.dial.rule == r && a.dial.key == key)
    && (key in before && key !in after ==>
         || (a.RuleDialing? && EvictedBy(s, a.dial, r, key))
         || (a.Resetting? && s.Registered(r) && !NamedByLive(s, r, key)))
  }

  lemma SameTargets(s: State, a: Action, s': State, r: Rule, key: TargetKey)
    requires r in s.ruleAt && r in s'.ruleAt && s'.ruleAt[r].targets == s.ruleAt[r].targets
    ensures TargetsChange(s, a, s', r, key)
  {
  }

  lemma DialTargets(s: State, s': State, d: Dialing, r: Rule, key: TargetKey)
    requires Inv(s) && RuleDial(s, s', d) && r in s.ruleAt
    ensures r in s'.ruleAt && TargetsChange(s, RuleDialing(d), s', r, key)
  {
    hide Inv, Dialed, Victim, EvictedBy, CanLook, CounterView.Dialed;
    var s0 := CountDial(s, s.ruleAt[d.rule].count, d.elapsed, d.now, d.failed);
    CountDialIs(s, s.ruleAt[d.rule].count, d.elapsed, d.now, d.failed);
    DialedIs(Looked(s0, d.rule, d.key, d.target, d.victim), s', d);
    if r == d.rule && key in s.ruleAt[r].targets && key !in s'.ruleAt[r].targets {
      VictimIsEvicted(s, d);
    }
  }

  // The rule's own counter is none of its targets', so its dial does not change who is evicted.
  lemma VictimIsEvicted(s: State, d: Dialing)
    requires Inv(s) && d.rule in s.ruleAt && s.ruleAt[d.rule].count in s.countAt
    requires d.key !in s.ruleAt[d.rule].targets && |s.ruleAt[d.rule].targets| == MAX_TARGETS
    requires var s0 := CountDial(s, s.ruleAt[d.rule].count, d.elapsed, d.now, d.failed);
             CanLook(s0, d.rule, d.key, d.target, d.victim)
    ensures EvictedBy(s, d, d.rule, d.victim)
  {
    hide Tracked, Conns, Counting, Traffic, CounterView.Dialed;
    assert RuleShape(s, d.rule, s.ruleAt[d.rule]);
    var s0 := CountDial(s, s.ruleAt[d.rule].count, d.elapsed, d.now, d.failed);
    assert Victim(s0, s0.ruleAt[d.rule], d.victim);
  }

  lemma ResetTargets(s: State, at: Time, r: Rule, key: TargetKey)
    requires Inv(s) && r in s.ruleAt
    ensures r in Reset(s, at).ruleAt && TargetsChange(s, Resetting(at), Reset(s, at), r, key)
  {
    hide Inv, Reset, EvictedBy, Kept, State.Visible;
    ResetIs(s, at);
    if s.Registered(r) {
      ResetKeepsNamedTargets(s, at, r, key);
    }
  }

  lemma SyncTargets(redact: Redact, s: State, s': State, cfgs: seq<Config.Rule>, r: Rule)
    requires Sync(redact, s, s', cfgs) && Shape(s) && r in s.ruleAt
    ensures r in s'.ruleAt && s'.ruleAt[r].targets == s.ruleAt[r].targets
    ensures s'.ruleAt[r].targetsEvicted == s.ruleAt[r].targetsEvicted
  {
    hide WaySynced, RuleShape;
    if n :| n in s'.rules && s'.rules[n] == r {
      var i := SyncedFrom(redact, s, s', cfgs, n);
    }
  }

  lemma OnlyDialsAndResetsChangeTargets(redact: Redact, s: State, a: Action, s': State, r: Rule, key: TargetKey)
    requires Inv(s) && Next(redact, s, a, s') && r in s.ruleAt
    ensures r in s'.ruleAt && TargetsChange(s, a, s', r, key)
  {
    hide Inv, Sync, RuleDial, Tick, Reset, Record, TargetsChange;
    match a {
      case Syncing(cfgs) =>
        assert Shape(s) by { ShapeAndSane(s); }
        SyncTargets(redact, s, s', cfgs, r);
        SameTargets(s, a, s', r, key);
      case Ticking(at) => TickIs(s, at); TickTargets(s, at, r); SameTargets(s, a, s', r, key);
      case Resetting(at) => ResetTargets(s, at, r, key);
      case RuleDialing(d) => DialTargets(s, s', d, r, key);
      case Recording(k, size, read, at) =>
        RecordNames(s, k, size, read, at);
        SameTargets(s, a, s', r, key);
      case _ => SameTargets(s, a, s', r, key);
    }
  }

  lemma TickTargets(s: State, at: Time, r: Rule)
    requires r in s.ruleAt
    ensures r in Tick(s, at).ruleAt && Tick(s, at).ruleAt[r].targets == s.ruleAt[r].targets
    ensures Tick(s, at).ruleAt[r].counters == s.ruleAt[r].counters
  {
  }

  // ------------------------------------------------------------------ counters of hops

  // The way has the URL, as it is counted, at that place.
  predicate HasUrl(redact: Redact, way: seq<Config.Node>, key: HopKey) {
    key.index < |way| && exists j :: 0 <= j < |way[key.index]| && redact(way[key.index][j]) == key.url
  }

  function WayOf(cfg: Config.Rule, role: Role): seq<Config.Node> {
    if role.Listening? then cfg.listen.way else cfg.forward.way
  }

  predicate Configured(redact: Redact, cfgs: seq<Config.Rule>, name: string, key: HopKey) {
    exists i :: 0 <= i < |cfgs| && cfgs[i].name == name && HasUrl(redact, WayOf(cfgs[i], key.role), key)
  }

  // A hop's counter comes with a dialer or a configuration that has its URL, and goes with a configuration
  // that has it no more; meanwhile it stays the same counter.
  ghost predicate HopCountersChange(redact: Redact, s: State, a: Action, s': State, r: Rule, key: HopKey)
    requires r in s.ruleAt && r in s'.ruleAt
  {
    var before, after := s.ruleAt[r].counters, s'.ruleAt[r].counters;
    && (key in before && key in after ==> after[key] == before[key])
    && (key in after && key !in before ==>
         || (a.Wrapping? && a.rule == r && a.hop == key)
         || (a.Syncing? && Configured(redact, a.cfgs, s.ruleAt[r].name, key)))
    && (key in before && key !in after ==> a.Syncing?)
    && (a.Syncing? && s'.Registered(r) && DistinctNames(a.cfgs) ==>
          (key in after <==> Configured(redact, a.cfgs, s.ruleAt[r].name, key)))
  }

  lemma SameCounters(redact: Redact, s: State, a: Action, s': State, r: Rule, key: HopKey)
    requires r in s.ruleAt && r in s'.ruleAt && s'.ruleAt[r].counters == s.ruleAt[r].counters && !a.Syncing?
    ensures HopCountersChange(redact, s, a, s', r, key)
  {
  }

  lemma SyncCounters(redact: Redact, s: State, s': State, cfgs: seq<Config.Rule>, r: Rule, key: HopKey)
    requires Sync(redact, s, s', cfgs) && Shape(s) && r in s.ruleAt
    ensures r in s'.ruleAt && HopCountersChange(redact, s, Syncing(cfgs), s', r, key)
  {
    hide RuleShape, Sync, RuleSynced;
    SyncRules(redact, s, s', cfgs);
    SyncElse(redact, s, s', cfgs, r);
    hide Shape;
    if n :| n in s'.rules && s'.rules[n] == r {
      SyncedCounters(redact, s, s', cfgs, n, key);
    }
  }

  lemma SyncElse(redact: Redact, s: State, s': State, cfgs: seq<Config.Rule>, r: Rule)
    requires Sync(redact, s, s', cfgs) && r in s.ruleAt
    ensures r in s'.ruleAt && (r !in s'.rules.Values ==> s'.ruleAt[r] == s.ruleAt[r])
  {
    hide RuleSynced;
  }

  lemma WayKeys(redact: Redact, before: seq<Hop>, after: seq<Hop>, counters: map<HopKey, Counter>,
                nodes: seq<Config.Node>, key: HopKey)
    requires WaySynced(redact, before, after, counters, key.role, nodes)
    ensures key in counters <==> HasUrl(redact, nodes, key)
  {
    if key in counters {
      var h, j :| 0 <= h < |nodes| && 0 <= j < |nodes[h]| && key == KeyAt(redact, key.role, nodes, h, j);
      assert redact(nodes[key.index][j]) == key.url;
    }
    if HasUrl(redact, nodes, key) {
      var j :| 0 <= j < |nodes[key.index]| && redact(nodes[key.index][j]) == key.url;
      assert key == KeyAt(redact, key.role, nodes, key.index, j);
    }
  }

  lemma SyncedKeys(redact: Redact, s: State, s': State, r: Rule, cfg: Config.Rule, key: HopKey)
    requires RuleSynced(redact, s, s', r, cfg) && r in s.ruleAt
    ensures r in s'.ruleAt && (key in s'.ruleAt[r].counters <==> HasUrl(redact, WayOf(cfg, key.role), key))
    ensures key in s.ruleAt[r].counters && key in s'.ruleAt[r].counters ==>
              s'.ruleAt[r].counters[key] == s.ruleAt[r].counters[key]
  {
    hide WaySynced, HasUrl;
    var v, v' := s.ruleAt[r], s'.ruleAt[r];
    if key.role.Listening? {
      WayKeys(redact, v.listenWay, v'.listenWay, v'.counters, cfg.listen.way, key);
    } else {
      WayKeys(redact, v.forwardWay, v'.forwardWay, v'.counters, cfg.forward.way, key);
    }
  }

  lemma SyncedCounters(redact: Redact, s: State, s': State, cfgs: seq<Config.Rule>, n: string, key: HopKey)
    requires Sync(redact, s, s', cfgs) && Shape(s) && n in s'.rules && s'.rules[n] in s.ruleAt
    ensures s'.rules[n] in s'.ruleAt && HopCountersChange(redact, s, Syncing(cfgs), s', s'.rules[n], key)
  {
    hide Shape, Sync, RuleSynced, HasUrl;
    var i := SyncedFrom(redact, s, s', cfgs, n);
    SyncedKeys(redact, s, s', s'.rules[n], cfgs[i], key);
  }

  lemma OnlyDialersAndConfigurationsChangeHops(redact: Redact, s: State, a: Action, s': State, r: Rule, key: HopKey)
    requires Inv(s) && Next(redact, s, a, s') && r in s.ruleAt
    ensures r in s'.ruleAt && HopCountersChange(redact, s, a, s', r, key)
  {
    hide Inv, Sync, RuleDial, Tick, Reset, Record;
    if !a.Wrapping? {
      hide HopCountersChange;
    }
    match a {
      case Syncing(cfgs) => assert Shape(s) by { ShapeAndSane(s); } SyncCounters(redact, s, s', cfgs, r, key);
      case Ticking(at) => TickTargets(s, at, r); SameCounters(redact, s, a, s', r, key);
      case Resetting(at) => ResetIs(s, at); SameCounters(redact, s, a, s', r, key);
      case RuleDialing(d) => RuleDialLive(s, s', d); SameCounters(redact, s, a, s', r, key);
      case Recording(k, size, read, at) =>
        RecordNames(s, k, size, read, at);
        SameCounters(redact, s, a, s', r, key);
      case Wrapping(_, _, _) =>
      case _ => SameCounters(redact, s, a, s', r, key);
    }
  }

  // ------------------------------------------------------------------ tracked connections

  // A successful dial of a registered rule tracks its connection under the next id, with what the dial knew.
  ghost predicate Tracks(s: State, d: Dialing, s': State, id: nat)
    requires id in s'.live && d.rule in s.ruleAt
  {
    var l := s'.live[id];
    && !d.failed && s.Registered(d.rule) && id == s.nextId + 1 == s'.nextId
    && l.rule == d.rule && l.client == d.client && l.target == d.key.address && l.via == d.key.via
    && l.path == Route(s.ruleAt[d.rule].forwardWay, d.dialed) && l.started == d.now
    && Some(l.conn) == d.conn && Some(l.count) == d.own && Dials(d, s', l.conn)
  }

  // The connection is new, on the target's counter, and its writes are the ones that flow up.
  ghost predicate Dials(d: Dialing, s': State, k: Conn) {
    k in s'.connAt && s'.connAt[k].count == d.target && !s'.connAt[k].accepted && s'.connAt[k].phase.InUse?
  }

  ghost predicate LiveChange(s: State, a: Action, s': State, id: nat) {
    && (id in s.live && id in s'.live ==>
          SameEntry(s'.live[id], s.live[id]) && (s'.live[id] != s.live[id] ==> a.Resetting?))
    && (id in s'.live && id !in s.live ==>
          a.RuleDialing? && a.dial.rule in s.ruleAt && Tracks(s, a.dial, s', id))
    && (id in s.live && id !in s'.live ==>
          || (a.Dropping? && a.conn == s.live[id].conn)
          || (a.Syncing? && s.live[id].rule in s.ruleAt && forall i :: 0 <= i < |a.cfgs| ==>
                a.cfgs[i].name != s.ruleAt[s.live[id].rule].name))
  }

  lemma DialLive(s: State, s': State, d: Dialing)
    requires RuleDial(s, s', d)
    ensures d.rule in s.ruleAt
    ensures if d.failed then s'.connAt == s.connAt
            else d.conn.Some? && d.conn.value !in s.connAt && Dials(d, s', d.conn.value)
    ensures if d.failed || !s.Registered(d.rule) then s'.live == s.live && s'.nextId == s.nextId
            else
              var id := s.nextId + 1;
              id in s'.live && s'.live == s.live[id := s'.live[id]] && Tracks(s, d, s', id)
  {
    hide Looked, CanLook, CountDial, Route;
    var s0 := CountDial(s, s.ruleAt[d.rule].count, d.elapsed, d.now, d.failed);
    CountDialIs(s, s.ruleAt[d.rule].count, d.elapsed, d.now, d.failed);
    var s1 := Looked(s0, d.rule, d.key, d.target, d.victim);
    LookedIs(s0, d.rule, d.key, d.target, d.victim);
    CountDialIs(s1, d.target, d.elapsed, d.now, d.failed);
  }

  lemma SyncStays(redact: Redact, s: State, s': State, cfgs: seq<Config.Rule>, r: Rule, i: nat)
    requires Sync(redact, s, s', cfgs) && r in s.ruleAt && s.Registered(r)
    requires i < |cfgs| && cfgs[i].name == s.ruleAt[r].name
    ensures r in s'.ruleAt && s'.Registered(r)
  {
    hide WaySynced, NewIn;
    assert Chosen(s, s', cfgs[i].name) && RuleSynced(redact, s, s', s'.rules[cfgs[i].name], cfgs[i]);
  }

  lemma SyncLiveIs(redact: Redact, s: State, s': State, cfgs: seq<Config.Rule>, id: nat)
    requires Sync(redact, s, s', cfgs)
    ensures id in s'.live <==> id in s.live && s.live[id].rule in s'.ruleAt && s'.Registered(s.live[id].rule)
    ensures id in s'.live ==> s'.live[id] == s.live[id]
  {
    hide RuleSynced, Chosen;
  }

  lemma SyncLive(redact: Redact, s: State, s': State, cfgs: seq<Config.Rule>, id: nat)
    requires Tracked(s) && Sync(redact, s, s', cfgs)
    ensures LiveChange(s, Syncing(cfgs), s', id)
  {
    hide Sync;
    SyncLiveIs(redact, s, s', cfgs, id);
    if id in s.live {
      assert LiveEntry(s, id, s.live[id]);
      var r := s.live[id].rule;
      forall i | 0 <= i < |cfgs| && cfgs[i].name == s.ruleAt[r].name ensures id in s'.live {
        SyncStays(redact, s, s', cfgs, r, i);
      }
    }
  }

  lemma IdsKnown(s: State)
    requires Inv(s)
    ensures Tracked(s) && forall id :: id in s.live ==> id <= s.nextId
  {
    hide Shape, Conns, Counting, Traffic;
    forall id | id in s.live ensures id <= s.nextId {
      assert LiveEntry(s, id, s.live[id]);
    }
  }

  // A connection joins the live set by its own dial and leaves it by its own close, or because the
  // configuration has its rule no more; a reset gives it a new start, and nothing else touches it.
  lemma OnlyDialsAndClosesChangeLive(redact: Redact, s: State, a: Action, s': State, id: nat)
    requires Inv(s) && Next(redact, s, a, s')
    ensures LiveChange(s, a, s', id)
  {
    hide Inv, Sync, RuleDial, Tick, Reset, Record, AddHopUrl, Tracks;
    match a {
      case Syncing(cfgs) => assert Tracked(s) by { IdsKnown(s); } SyncLive(redact, s, s', cfgs, id);
      case Ticking(at) => TickIs(s, at);
      case Resetting(at) => ResetIs(s, at);
      case RuleDialing(d) => assert id in s.live ==> id <= s.nextId by { IdsKnown(s); } DialLive(s, s', d);
      case Wrapping(r, key, c) => WrapNames(s, s', r, key, c);
      case Recording(k, size, read, at) => RecordNames(s, k, size, read, at);
      case Dropping(k) => if id in s.live { LinkedBack(s, k, id); }
      case _ =>
    }
  }

  // ------------------------------------------------------------------ rules

  // In every state the rules registered are those of the last configuration, and none before the first.
  lemma {:induction false} RulesAreConfigured(redact: Redact, states: seq<State>, actions: seq<Action>, m: int, j: nat)
    requires Run(redact, states, actions) && -1 <= m < j < |states| && (m >= 0 ==> actions[m].Syncing?)
    requires forall q :: m < q < j ==> !actions[q].Syncing?
    ensures if m < 0 then states[j].rules == map[]
            else forall n :: n in states[j].rules <==>
                   exists i :: 0 <= i < |actions[m].cfgs| && actions[m].cfgs[i].name == n
    decreases j
  {
    hide Inv, Next;
    if j == 0 {
      var now :| states[0] == Initial(now);
    } else {
      assert Steps(redact, states, actions, j - 1);
      if m < j - 1 {
        RulesAreConfigured(redact, states, actions, m, j - 1);
        InvAlways(redact, states, actions, j - 1);
        OrderKept(redact, states[j - 1], actions[j - 1], states[j]);
      } else {
        SyncNames(redact, states[j - 1], states[j], actions[j - 1].cfgs);
      }
    }
  }

  lemma SyncNames(redact: Redact, s: State, s': State, cfgs: seq<Config.Rule>)
    requires Next(redact, s, Syncing(cfgs), s')
    ensures forall n :: n in s'.rules <==> exists i :: 0 <= i < |cfgs| && cfgs[i].name == n
  {
    hide RuleSynced;
    forall i | 0 <= i < |cfgs| ensures cfgs[i].name in s'.rules {
      assert Chosen(s, s', cfgs[i].name);
    }
  }
}

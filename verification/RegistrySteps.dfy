/** Every atomic step of the traffic registry. */
module RegistrySteps {
  import opened Text
  import opened Counters
  import opened RegistryState
  import Config

  // ------------------------------------------------------------------ counters and connections

  ghost function SetCount(s: State, c: Counter, v: CounterView): State { s.(countAt := s.countAt[c := v]) }

  // A dial through a wrapped dialer, or through a whole rule, ends.
  ghost function CountDial(s: State, c: Counter, elapsed: int, now: Time, failed: bool): State
    requires c in s.countAt
  {
    SetCount(s, c, s.countAt[c].Dialed(elapsed, now, failed))
  }

  // A counted connection is made on c.
  ghost function OpenConn(s: State, c: Counter, k: Conn, accepted: bool, now: Time): State
    requires c in s.countAt
  {
    SetCount(s, c, s.countAt[c].Opened(now))
    .(connAt := s.connAt[k := ConnView(c, accepted, s.countAt[c].generation, None, None, InUse)])
  }

  // Bytes read by the accepting side, or written by the dialing side, flow up.
  predicate FlowsUp(v: ConnView, read: bool) { read == v.accepted }

  ghost function Record(s: State, k: Conn, size: int, read: bool, now: Time): State
    requires k in s.connAt && s.connAt[k].count in s.countAt
  {
    var v := s.connAt[k];
    var isUp := FlowsUp(v, read);
    if size <= 0 then s
    else
      var s1 := SetCount(s, v.count, s.countAt[v.count].Added(isUp, size, now));
      if v.extra.Some? && v.extra.value in s1.countAt
      then SetCount(s1, v.extra.value, s1.countAt[v.extra.value].Added(isUp, size, now)) else s1
  }

  ghost function CloseCount(s: State, k: Conn, now: Time): State
    requires k in s.connAt && s.connAt[k].count in s.countAt
  {
    var v := s.connAt[k];
    SetCount(s, v.count, s.countAt[v.count].Closed(v.generation, now)).(connAt := s.connAt[k := v.(phase := Counted)])
  }

  ghost function Untrack(s: State, k: Conn): State
    requires k in s.connAt
  {
    var v := s.connAt[k];
    s.(connAt := s.connAt[k := v.(phase := Gone)], live := if v.tracked.Some? then s.live - {v.tracked.value}
      else s.live)
  }

  // ------------------------------------------------------------------ targets

  ghost function SetRule(s: State, r: Rule, v: RuleView): State { s.(ruleAt := s.ruleAt[r := v]) }

  ghost function NewCount(s: State, c: Counter, home: Home): State {
    s.(countAt := s.countAt[c := Fresh(s.lastTick)], home := s.home[c := home])
  }

  ghost predicate Idle(s: State, c: Counter)
    requires c in s.countAt
  {
    s.countAt[c].active == 0
  }

  // Whom an eviction may remove: an idle target if there is one, and the least recently active of its class.
  ghost predicate Victim(s: State, v: RuleView, key: TargetKey)
    requires forall k :: k in v.targets ==> v.targets[k] in s.countAt
  {
    && key in v.targets
    && forall k :: k in v.targets ==>
         && (Idle(s, v.targets[k]) ==> Idle(s, v.targets[key]))
         && (Idle(s, v.targets[k]) == Idle(s, v.targets[key]) ==>
               s.countAt[v.targets[key]].lastActive <= s.countAt[v.targets[k]].lastActive)
  }

  ghost function Evict(s: State, r: Rule, key: TargetKey): State
    requires r in s.ruleAt
  {
    var v := s.ruleAt[r];
    SetRule(s, r, v.(targets := v.targets - {key}, targetsEvicted := v.targetsEvicted + 1))
  }

  ghost function AddTarget(s: State, r: Rule, key: TargetKey, c: Counter): State
    requires r in s.ruleAt
  {
    var v := s.ruleAt[r];
    NewCount(SetRule(s, r, v.(targets := v.targets[key := c])), c, OfTarget(r, key))
  }

  // The counter a lookup may return, and whom it may evict for it.
  ghost predicate CanLook(s: State, r: Rule, key: TargetKey, c: Counter, victim: TargetKey) {
    && r in s.ruleAt && (forall k :: k in s.ruleAt[r].targets ==> s.ruleAt[r].targets[k] in s.countAt)
    && if key in s.ruleAt[r].targets then c == s.ruleAt[r].targets[key]
       else c !in s.countAt && (|s.ruleAt[r].targets| == MAX_TARGETS ==> Victim(s, s.ruleAt[r], victim))
  }

  // The lookup of a target: known, new, or new after an eviction.
  ghost function Looked(s: State, r: Rule, key: TargetKey, c: Counter, victim: TargetKey): State
    requires r in s.ruleAt
  {
    if key in s.ruleAt[r].targets then s
    else AddTarget(if |s.ruleAt[r].targets| == MAX_TARGETS then Evict(s, r, victim) else s, r, key, c)
  }

  // A connection just dialed on target key of a registered rule gets the next id.
  ghost function Track(s: State, k: Conn, r: Rule, key: TargetKey, client: string, path: seq<PathHop>, started: Time,
                       c: Counter): State
    requires k in s.connAt
  {
    var id := s.nextId + 1;
    NewCount(s, c, OfLive(id))
    .(nextId := id,
      live := s.live[id := Live(id, r, client, key.address, key.via, path, started, c, k)],
      connAt := s.connAt[k := s.connAt[k].(extra := Some(c), tracked := Some(id))])
  }

  // ------------------------------------------------------------------ the clock, and starting over

  ghost function TickedCounts(s: State, now: Time): map<Counter, CounterView> {
    map c | c in s.countAt :: if s.Visible(c) then s.countAt[c].Ticked(now) else s.countAt[c]
  }

  ghost function PeakedHop(s: State, hop: Hop): Hop {
    hop.(peakUp := Max(hop.peakUp, s.HopRate(hop, true)), peakDown := Max(hop.peakDown, s.HopRate(hop, false)))
  }

  ghost function PeakedWay(s: State, way: seq<Hop>): (peaked: seq<Hop>)
    ensures |peaked| == |way|
  {
    seq(|way|, i requires 0 <= i < |way| => PeakedHop(s, way[i]))
  }

  ghost function PeakedRule(s: State, v: RuleView): RuleView {
    v.(listenWay := PeakedWay(s, v.listenWay), forwardWay := PeakedWay(s, v.forwardWay))
  }

  // Visible counters close their window, then the hops of registered rules raise their peaks.
  ghost function Tick(s: State, now: Time): State {
    var s1 := s.(lastTick := now, countAt := TickedCounts(s, now));
    s1.(ruleAt := map r | r in s.ruleAt :: if s.Registered(r) then PeakedRule(s1, s.ruleAt[r]) else s.ruleAt[r])
  }

  // The target counters that tracked connections still name.
  ghost function Kept(s: State): set<Counter> {
    set id | id in s.live && s.live[id].rule in s.ruleAt && s.live[id].Key() in s.ruleAt[s.live[id].rule].targets
      :: s.ruleAt[s.live[id].rule].targets[s.live[id].Key()]
  }

  function ClearedWay(way: seq<Hop>): (cleared: seq<Hop>)
    ensures |cleared| == |way|
  {
    seq(|way|, i requires 0 <= i < |way| => way[i].(peakUp := 0, peakDown := 0))
  }

  ghost function ClearedRule(v: RuleView, kept: set<Counter>): RuleView {
    v.(listenWay := ClearedWay(v.listenWay), forwardWay := ClearedWay(v.forwardWay),
       targets := map key | key in v.targets && v.targets[key] in kept :: v.targets[key], targetsEvicted := 0)
  }

  ghost function Reset(s: State, now: Time): State {
    s.(since := now,
       countAt := map c | c in s.countAt :: if s.Visible(c) then s.countAt[c].Resetted(s.lastTick) else s.countAt[c],
       live := map id | id in s.live :: s.live[id].(started := now),
       ruleAt := map r | r in s.ruleAt :: if s.Registered(r) then ClearedRule(s.ruleAt[r], Kept(s)) else s.ruleAt[r])
  }

  // ------------------------------------------------------------------ hops

  ghost function GrownWay(way: seq<Hop>, key: HopKey, c: Counter): seq<Hop> {
    var filled := way + seq(if key.index < |way| then 0 else key.index + 1 - |way|, i => Hop([], 0, 0));
    filled[key.index := filled[key.index].(urls := filled[key.index].urls + [UrlCounter(key.url, c)])]
  }

  // A dialer for a URL the rule has no counter for joins its hop, which is made if need be.
  ghost function AddHopUrl(s: State, r: Rule, key: HopKey, c: Counter): State
    requires r in s.ruleAt
  {
    var v := s.ruleAt[r];
    NewCount(SetRule(s, r, v.WithWay(key.role, GrownWay(v.Way(key.role), key, c)).(counters := v.counters[key := c])),
      c, OfHop(r, key))
  }

  // ------------------------------------------------------------------ a new configuration

  // The text a URL is counted under; different URLs may have the same one.
  type Redact = string -> string

  function KeyAt(redact: Redact, role: Role, nodes: seq<Config.Node>, i: nat, j: nat): HopKey
    requires i < |nodes| && j < |nodes[i]|
  {
    HopKey(role, i, redact(nodes[i][j]))
  }

  // One side of a rule after a sync: hops keep their peaks by position, URLs their counters by key.
  ghost predicate WaySynced(redact: Redact, before: seq<Hop>, after: seq<Hop>, counters: map<HopKey, Counter>,
                            role: Role, nodes: seq<Config.Node>) {
    && |after| == |nodes|
    && (forall i :: 0 <= i < |nodes| ==>
          && after[i].peakUp == (if i < |before| then before[i].peakUp else 0)
          && after[i].peakDown == (if i < |before| then before[i].peakDown else 0)
          && |after[i].urls| == |nodes[i]|)
    && (forall i, j :: 0 <= i < |nodes| && 0 <= j < |nodes[i]| ==>
          && KeyAt(redact, role, nodes, i, j) in counters
          && after[i].urls[j] == UrlCounter(redact(nodes[i][j]), counters[KeyAt(redact, role, nodes, i, j)]))
    && (forall key :: key in counters && key.role == role ==>
          exists i, j :: 0 <= i < |nodes| && 0 <= j < |nodes[i]| && key == KeyAt(redact, role, nodes, i, j))
  }

  // The rule object r after a sync, from its view before (or a new rule's).
  ghost predicate RuleSynced(redact: Redact, s: State, s': State, r: Rule, cfg: Config.Rule) {
    && r in s'.ruleAt
    && var before := if r in s.ruleAt then s.ruleAt[r]
         else RuleView(cfg.name, s'.ruleAt[r].count, [], [], map[], map[], 0);
       var after := s'.ruleAt[r];
       && after.name == cfg.name && after.count == before.count
       && after.targets == before.targets && after.targetsEvicted == before.targetsEvicted
       && WaySynced(redact, before.listenWay, after.listenWay, after.counters, Listening, cfg.listen.way)
       && WaySynced(redact, before.forwardWay, after.forwardWay, after.counters, Forwarding, cfg.forward.way)
       && (forall key :: key in after.counters ==>
             if key in before.counters then after.counters[key] == before.counters[key]
             else NewIn(s, s', after.counters[key], OfHop(r, key)))
       && (r !in s.ruleAt ==> NewIn(s, s', after.count, OfRule(r)))
  }

  ghost predicate NewIn(s: State, s': State, c: Counter, home: Home) {
    c !in s.countAt && c in s'.countAt && s'.countAt[c] == Fresh(s.lastTick) && c in s'.home && s'.home[c] == home
  }

  predicate DistinctNames(cfgs: seq<Config.Rule>) {
    forall i, j :: 0 <= i < j < |cfgs| ==> cfgs[i].name != cfgs[j].name
  }

  // A known name keeps its rule object, a new one gets a new object.
  ghost predicate Chosen(s: State, s': State, name: string) {
    && name in s'.rules
    && if name in s.rules then s'.rules[name] == s.rules[name] else s'.rules[name] !in s.ruleAt
  }

  ghost predicate Sync(redact: Redact, s: State, s': State, cfgs: seq<Config.Rule>) {
    && s'.nextId == s.nextId && s'.since == s.since && s'.lastTick == s.lastTick && s'.connAt == s.connAt
    && s'.order == seq(|cfgs|, i requires 0 <= i < |cfgs| => cfgs[i].name)
    && (forall n :: n in s'.rules ==> exists i :: 0 <= i < |cfgs| && cfgs[i].name == n)
    && (forall i :: 0 <= i < |cfgs| ==>
          Chosen(s, s', cfgs[i].name) && RuleSynced(redact, s, s', s'.rules[cfgs[i].name], cfgs[i]))
    && (forall r :: r in s'.ruleAt ==> r in s.ruleAt || r in s'.rules.Values)
    && (forall r :: r in s.ruleAt ==> r in s'.ruleAt && (r !in s'.rules.Values ==> s'.ruleAt[r] == s.ruleAt[r]))
    && s'.home.Keys == s'.countAt.Keys
    && (forall c :: c in s.countAt ==>
         c in s'.countAt && s'.countAt[c] == s.countAt[c] && (c in s.home ==> s'.home[c] == s.home[c]))
    && (forall c :: c in s'.countAt && c !in s.countAt ==> s'.countAt[c] == Fresh(s.lastTick))
    && s'.live == map id | id in s.live && s.live[id].rule in s'.ruleAt && s'.Registered(s.live[id].rule) :: s.live[id]
  }
}

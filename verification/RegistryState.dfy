/** What the traffic registry holds at one moment, and what may never stop being true of it.
    References are compared, never followed: the state maps each of them to its fields. */
module RegistryState {
  import opened Text
  import opened Sums
  import opened Counters

  const MAX_TARGETS := 1000

  datatype Role = Listening | Forwarding

  datatype HopKey = HopKey(role: Role, index: nat, url: string)
  datatype TargetKey = TargetKey(address: string, via: string)
  datatype UrlCounter = UrlCounter(url: string, count: Counter)

  // A hop and its dialable URLs in order; the same counter may stand beside several of them.
  datatype Hop = Hop(urls: seq<UrlCounter>, peakUp: int, peakDown: int) {
    function Peak(isUp: bool): int { if isUp then peakUp else peakDown }

    function Counts(): set<Counter> {
      set i | 0 <= i < |urls| :: urls[i].count
    }
  }

  class Rule {
    const name: string
    const count: Counter
    var listenWay: seq<Hop>
    var forwardWay: seq<Hop>
    var counters: map<HopKey, Counter>
    var targets: map<TargetKey, Counter>
    var targetsEvicted: nat

    function View(): RuleView
      reads this
    {
      RuleView(name, count, listenWay, forwardWay, counters, targets, targetsEvicted)
    }

    constructor (name: string, count: Counter)
      ensures View() == RuleView(name, count, [], [], map[], map[], 0)
    {
      this.name, this.count := name, count;
      listenWay, forwardWay, counters, targets, targetsEvicted := [], [], map[], map[], 0;
    }
  }

  datatype RuleView = RuleView(
    name: string, count: Counter, listenWay: seq<Hop>, forwardWay: seq<Hop>,
    counters: map<HopKey, Counter>, targets: map<TargetKey, Counter>, targetsEvicted: nat)
  {
    function Way(role: Role): seq<Hop> { if role.Listening? then listenWay else forwardWay }

    predicate Holds(c: Counter) {
      c == count || (exists key :: key in counters && counters[key] == c) ||
        (exists key :: key in targets && targets[key] == c)
    }

    function WithWay(role: Role, way: seq<Hop>): RuleView {
      if role.Listening? then this.(listenWay := way) else this.(forwardWay := way)
    }
  }

  // A connection is open, then its counter is told of the close, then its entry is dropped.
  datatype Phase = InUse | Counted | Gone

  class Conn {
    const count: Counter
    const accepted: bool
    const generation: nat
    var extra: Option<Counter>
    var tracked: Option<nat>
    var phase: Phase

    function View(): ConnView
      reads this
    {
      ConnView(count, accepted, generation, extra, tracked, phase)
    }

    constructor (count: Counter, accepted: bool, generation: nat)
      ensures View() == ConnView(count, accepted, generation, None, None, InUse)
    {
      this.count, this.accepted, this.generation := count, accepted, generation;
      extra, tracked, phase := None, None, InUse;
    }
  }

  datatype ConnView = ConnView(
    count: Counter, accepted: bool, generation: nat, extra: Option<Counter>, tracked: Option<nat>, phase: Phase)

  // Where a connection went at one position of its way: the URL its dial noted (dialed), or the only
  // one possible.
  datatype PathHop = PathHop(index: nat, url: string, dialed: bool)

  datatype Live = Live(
    id: nat, rule: Rule, client: string, target: string, via: string, path: seq<PathHop>,
    started: Time, count: Counter, conn: Conn)
  {
    function Key(): TargetKey { TargetKey(target, via) }
  }

  // What a counter was made for.
  datatype Home = OfRule(rule: Rule) | OfHop(rule: Rule, key: HopKey) | OfTarget(rule: Rule, target: TargetKey)
    | OfLive(id: nat)

  datatype State = State(
    nextId: nat, since: Time, lastTick: Time,
    rules: map<string, Rule>, order: seq<string>, live: map<nat, Live>,
    ruleAt: map<Rule, RuleView>, countAt: map<Counter, CounterView>, connAt: map<Conn, ConnView>,
    home: map<Counter, Home>)
  {
    // The rule registered under its own name.
    predicate Registered(r: Rule)
      requires r in ruleAt
    {
      ruleAt[r].name in rules && rules[ruleAt[r].name] == r
    }

    // A snapshot can show the counter: it is in a registered rule or is a tracked connection's own.
    ghost predicate Visible(c: Counter) {
      || (exists r :: r in ruleAt && Registered(r) && ruleAt[r].Holds(c))
      || (exists id :: id in live && live[id].count == c)
    }

    ghost function RateOf(isUp: bool): Counter -> int {
      c => if c in countAt then countAt[c].Rate(isUp) else 0
    }

    // The current rate of a hop: each distinct counter once.
    ghost function HopRate(hop: Hop, isUp: bool): int { Sum(hop.Counts(), RateOf(isUp)) }

    // The tracked connections whose bytes counter t counts.
    ghost function Writers(t: Counter): set<nat> {
      set id | id in live && live[id].conn in connAt && connAt[live[id].conn].count == t
    }

    ghost function LiveBytes(isUp: bool): nat -> int {
      id => if id in live && live[id].count in countAt then countAt[live[id].count].Bytes(isUp) else 0
    }

    // Connections opened on c in its current generation, and those among them not yet closed.
    ghost function OpenedOn(c: Counter): set<Conn>
      requires c in countAt
    {
      set k | k in connAt && connAt[k].count == c && connAt[k].generation == countAt[c].generation
    }

    ghost function OpenOn(c: Counter): set<Conn>
      requires c in countAt
    {
      set k | k in OpenedOn(c) && connAt[k].phase.InUse?
    }
  }

  // ------------------------------------------------------------------ invariants

  // Counter c exists and was made for h.
  ghost predicate Made(s: State, c: Counter, h: Home) { c in s.countAt && c in s.home && s.home[c] == h }

  // One rule object, registered or detached: every counter in it sits under its own key.
  ghost predicate RuleShape(s: State, r: Rule, v: RuleView) {
    && Made(s, v.count, OfRule(r))
    && (forall key :: key in v.counters ==> Made(s, v.counters[key], OfHop(r, key)))
    && (forall key :: key in v.targets ==> Made(s, v.targets[key], OfTarget(r, key)))
    && |v.targets| <= MAX_TARGETS
    && WayShape(v, Listening) && WayShape(v, Forwarding)
  }

  // The hop list and the counter map of one side name the same counters.
  ghost predicate WayShape(v: RuleView, role: Role) {
    && (forall i, j :: 0 <= i < |v.Way(role)| && 0 <= j < |v.Way(role)[i].urls| ==>
          Keyed(v, HopKey(role, i, v.Way(role)[i].urls[j].url), v.Way(role)[i].urls[j].count))
    && (forall key :: key in v.counters && key.role == role ==>
          key.index < |v.Way(role)| && v.counters[key] in v.Way(role)[key.index].Counts())
  }

  predicate Keyed(v: RuleView, key: HopKey, c: Counter) { key in v.counters && v.counters[key] == c }

  ghost predicate Shape(s: State)
  {
    && s.home.Keys == s.countAt.Keys
    && (forall r :: r in s.ruleAt ==> RuleShape(s, r, s.ruleAt[r]))
    && (forall n :: n in s.rules ==> s.rules[n] in s.ruleAt && s.ruleAt[s.rules[n]].name == n)
  }

  ghost predicate LiveEntry(s: State, id: nat, l: Live) {
    && l.id == id && 0 < id <= s.nextId
    && l.rule in s.ruleAt && s.Registered(l.rule)
    && Made(s, l.count, OfLive(id))
    && l.conn in s.connAt && s.connAt[l.conn].extra == Some(l.count) && s.connAt[l.conn].tracked == Some(id)
    && !s.connAt[l.conn].phase.Gone?
    && Made(s, s.connAt[l.conn].count, OfTarget(l.rule, l.Key()))
  }

  // Every tracked connection belongs to a registered rule and is the one its id names.
  ghost predicate Tracked(s: State)
  {
    forall id :: id in s.live ==> LiveEntry(s, id, s.live[id])
  }

  ghost predicate ConnShape(s: State, k: Conn, v: ConnView) {
    && v.count in s.countAt && v.count in s.home && !s.home[v.count].OfLive?
    && v.generation <= s.countAt[v.count].generation
    && (v.tracked.Some? <==> v.extra.Some?)
    && (v.tracked.Some? ==>
          && v.tracked.value <= s.nextId
          && Made(s, v.extra.value, OfLive(v.tracked.value))
          && (v.tracked.value in s.live ==> s.live[v.tracked.value].conn == k))
  }

  ghost predicate Conns(s: State) {
    forall k :: k in s.connAt ==> ConnShape(s, k, s.connAt[k])
  }

  ghost predicate CountsOpen(s: State, c: Counter)
    requires c in s.countAt
  {
    s.countAt[c].active == |s.OpenOn(c)| && s.countAt[c].total == |s.OpenedOn(c)|
  }

  // Active and total count connections.
  ghost predicate Counting(s: State) {
    forall c :: c in s.countAt ==> CountsOpen(s, c)
  }

  ghost predicate AllSane(s: State) {
    forall c :: c in s.countAt ==> s.countAt[c].Sane()
  }

  ghost predicate InWindow(s: State, c: Counter) { c in s.countAt ==> s.countAt[c].prevAt == s.lastTick }

  ghost predicate RuleInWindow(s: State, v: RuleView) {
    && InWindow(s, v.count)
    && (forall key :: key in v.counters ==> InWindow(s, v.counters[key]))
    && (forall key :: key in v.targets ==> InWindow(s, v.targets[key]))
  }

  // Every visible counter measures from the last tick.
  ghost predicate Windows(s: State) {
    && (forall r :: r in s.ruleAt && s.Registered(r) ==> RuleInWindow(s, s.ruleAt[r]))
    && (forall id :: id in s.live ==> InWindow(s, s.live[id].count))
  }

  ghost predicate HopPeaked(s: State, hop: Hop, isUp: bool) {
    && 0 <= hop.Peak(isUp)
    && s.HopRate(hop, isUp) <= hop.Peak(isUp)
    && forall c :: c in hop.Counts() && c in s.countAt ==> s.countAt[c].Peak(isUp) <= hop.Peak(isUp)
  }

  ghost predicate WayPeaked(s: State, way: seq<Hop>) {
    forall i :: 0 <= i < |way| ==> HopPeaked(s, way[i], true) && HopPeaked(s, way[i], false)
  }

  ghost predicate RulePeaked(s: State, v: RuleView) { WayPeaked(s, v.listenWay) && WayPeaked(s, v.forwardWay) }

  // The retained peak of a hop of a registered rule covers its current rate and the peak of each of its URLs.
  ghost predicate Peaked(s: State) {
    forall r :: r in s.ruleAt && s.Registered(r) ==> RulePeaked(s, s.ruleAt[r])
  }

  ghost predicate Covers(s: State, t: Counter, isUp: bool)
    requires t in s.countAt
  {
    Sum(s.Writers(t), s.LiveBytes(isUp)) <= s.countAt[t].Bytes(isUp)
  }

  // A counter's bytes cover the bytes of the tracked connections that write to it.
  ghost predicate BytesCovered(s: State) {
    forall t, isUp: bool :: t in s.countAt ==> Covers(s, t, isUp)
  }

  ghost predicate Structure(s: State) { Shape(s) && Tracked(s) && Conns(s) }

  ghost predicate Traffic(s: State) { AllSane(s) && Windows(s) && Peaked(s) && BytesCovered(s) }

  ghost predicate Inv(s: State) { Structure(s) && Counting(s) && Traffic(s) }

  // The list of names is the key set of the rules, without repetition.
  ghost predicate Enumerates(order: seq<string>, rules: map<string, Rule>) {
    && (forall n :: n in rules <==> n in order)
    && forall i, j :: 0 <= i < j < |order| ==> order[i] != order[j]
  }

  ghost predicate Ordered(s: State) { Enumerates(s.order, s.rules) }
}

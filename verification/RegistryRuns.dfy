/** The registry over whole runs: any interleaving of its atomic steps. */
module RegistryRuns {
  import opened Text
  import opened Counters
  import opened RegistryState
  import opened RegistrySteps
  import opened RegistryProofs
  import opened RegistryTargets
  import opened RegistryClock
  import opened RegistryHops
  import opened RegistrySync
  import Config

  // ------------------------------------------------------------------ a dial through a whole rule

  // A hop that can only have been reached by one text.
  predicate OneUrl(hop: Hop) {
    hop.urls != [] && forall j :: 0 <= j < |hop.urls| ==> hop.urls[j].url == hop.urls[0].url
  }

  // The route of a connection: the URL each hop dialed, else the only one it could have used.
  function Route(way: seq<Hop>, dialed: map<nat, string>): seq<PathHop> {
    seq(|way|, i requires 0 <= i < |way| =>
      if i in dialed then PathHop(i, dialed[i], true)
      else PathHop(i, if OneUrl(way[i]) then way[i].urls[0].url else "", false))
  }

  // What the end of a dial knows: where it went, how it went, the target counter it finds or makes,
  // the target it evicts if it must, and the objects it may need.
  datatype Dialing = Dialing(
    rule: Rule, key: TargetKey, client: string, dialed: map<nat, string>,
    elapsed: int, now: Time, failed: bool, openedAt: Time,
    target: Counter, victim: TargetKey, conn: Option<Conn>, own: Option<Counter>)

  // The part of a dial after its target's counter is known.
  ghost predicate Dialed(s: State, s': State, d: Dialing) {
    && d.target in s.countAt && d.rule in s.ruleAt
    && var s1 := CountDial(s, d.target, d.elapsed, d.now, d.failed);
       if d.failed then s' == s1 else Yielded(s1, s', d)
  }

  // The connection a successful dial yields, tracked if the rule is still the registered one.
  ghost predicate Yielded(s: State, s': State, d: Dialing) {
    && d.target in s.countAt && d.rule in s.ruleAt && d.conn.Some? && d.conn.value !in s.connAt
    && var joined := OpenConn(s, d.target, d.conn.value, false, d.openedAt);
       if joined.Registered(d.rule)
       then
         && d.own.Some? && d.own.value !in joined.countAt
         && s' ==
              Track(joined, d.conn.value, d.rule, d.key, d.client, Route(joined.ruleAt[d.rule].forwardWay, d.dialed),
              d.now, d.own.value)
       else s' == joined
  }

  // Rule counter, target lookup, target counter; then, on success, the connection and its entry.
  ghost predicate RuleDial(s: State, s': State, d: Dialing) {
    && d.rule in s.ruleAt && s.ruleAt[d.rule].count in s.countAt
    && var s0 := CountDial(s, s.ruleAt[d.rule].count, d.elapsed, d.now, d.failed);
       CanLook(s0, d.rule, d.key, d.target, d.victim) && Dialed(Looked(s0, d.rule, d.key, d.target, d.victim), s', d)
  }

  // ------------------------------------------------------------------ actions

  datatype Action =
    | Syncing(cfgs: seq<Config.Rule>)
    | Wrapping(rule: Rule, hop: HopKey, made: Counter)
    | RuleDialing(dial: Dialing)
    | HopDialing(count: Counter, elapsed: int, at: Time, failed: bool)
    | Opening(count: Counter, accepted: bool, at: Time, conn: Conn)
    | Recording(conn: Conn, size: int, read: bool, at: Time)
    | Closing(conn: Conn, at: Time)
    | Dropping(conn: Conn)
    | Ticking(at: Time)
    | Resetting(at: Time)

  // Listeners and hop dialers count on a rule's own counter or on a hop's. A hop's dial and the
  // connection it yields lock the counter one after the other, so anything may fall between.
  ghost predicate Wraps(s: State, c: Counter) {
    c in s.countAt && c in s.home && (s.home[c].OfRule? || s.home[c].OfHop?)
  }

  ghost predicate Next(redact: Redact, s: State, a: Action, s': State) {
    match a
    case Syncing(cfgs) => Sync(redact, s, s', cfgs)
    case Wrapping(r, key, c) =>
      r in s.ruleAt &&
        (if key in s.ruleAt[r].counters then s' == s else c !in s.countAt && s' == AddHopUrl(s, r, key, c))
    case RuleDialing(d) => RuleDial(s, s', d)
    case HopDialing(c, elapsed, at, failed) => Wraps(s, c) && s' == CountDial(s, c, elapsed, at, failed)
    case Opening(c, accepted, at, k) => Wraps(s, c) && k !in s.connAt && s' == OpenConn(s, c, k, accepted, at)
    case Recording(k, size, read, at) => k in s.connAt && s.connAt[k].count in s.countAt &&
      s' == Record(s, k, size, read, at)
    case Closing(k, at) =>
      k in s.connAt && s.connAt[k].count in s.countAt && s.connAt[k].phase.InUse? && s' == CloseCount(s, k, at)
    case Dropping(k) => k in s.connAt && s.connAt[k].phase.Counted? && s' == Untrack(s, k)
    case Ticking(at) => s' == Tick(s, at)
    case Resetting(at) => s' == Reset(s, at)
  }

  function Initial(now: Time): State {
    State(0, now, now, map[], [], map[], map[], map[], map[], map[])
  }

  lemma InitialInv(now: Time)
    ensures Inv(Initial(now))
  {
  }

  // A run: states[i + 1] follows states[i] by actions[i].
  ghost predicate Run(redact: Redact, states: seq<State>, actions: seq<Action>) {
    && |states| == |actions| + 1
    && (exists now :: states[0] == Initial(now))
    && forall i :: 0 <= i < |actions| ==> Steps(redact, states, actions, i)
  }

  ghost predicate Steps(redact: Redact, states: seq<State>, actions: seq<Action>, i: nat)
    requires i < |actions| < |states|
  {
    Next(redact, states[i], actions[i], states[i + 1])
  }

  // ------------------------------------------------------------------ every action keeps the invariants

  lemma KeepDialed(s: State, s': State, d: Dialing)
    requires Inv(s) && d.target in s.countAt && Made(s, d.target, OfTarget(d.rule, d.key)) && Dialed(s, s', d)
    ensures Inv(s')
  {
    hide Inv, CountDial, Track, Route;
    KeepCountDial(s, d.target, d.elapsed, d.now, d.failed);
    if !d.failed {
      var s1 := CountDial(s, d.target, d.elapsed, d.now, d.failed);
      CountDialIs(s, d.target, d.elapsed, d.now, d.failed);
      KeepOpenConn(s1, d.target, d.conn.value, false, d.openedAt);
      var s2 := OpenConn(s1, d.target, d.conn.value, false, d.openedAt);
      if s2.Registered(d.rule) {
        KeepTrack(s2, d.conn.value, d.rule, d.key, d.client, Route(s2.ruleAt[d.rule].forwardWay, d.dialed), d.now,
          d.own.value);
      }
    }
  }

  lemma CountDialIs(s: State, c: Counter, elapsed: int, now: Time, failed: bool)
    requires c in s.countAt
    ensures var s' := CountDial(s, c, elapsed, now, failed);
            s' == s.(countAt := s'.countAt) && s'.countAt.Keys == s.countAt.Keys &&
              s'.countAt == s.countAt[c := s'.countAt[c]]
  {
  }

  lemma TargetMade(s: State, r: Rule, key: TargetKey)
    requires Inv(s) && r in s.ruleAt && key in s.ruleAt[r].targets
    ensures Made(s, s.ruleAt[r].targets[key], OfTarget(r, key))
  {
    assert RuleShape(s, r, s.ruleAt[r]);
  }

  lemma KeepRuleDial(s: State, s': State, d: Dialing)
    requires Inv(s) && RuleDial(s, s', d)
    ensures Inv(s')
  {
    hide Inv, CountDial, Looked, Dialed, CanLook;
    var c0 := s.ruleAt[d.rule].count;
    var s0 := CountDial(s, c0, d.elapsed, d.now, d.failed);
    CountDialIs(s, c0, d.elapsed, d.now, d.failed);
    KeepCountDial(s, c0, d.elapsed, d.now, d.failed);
    KeepLooked(s0, d.rule, d.key, d.target, d.victim);
    TargetMade(Looked(s0, d.rule, d.key, d.target, d.victim), d.rule, d.key);
    KeepDialed(Looked(s0, d.rule, d.key, d.target, d.victim), s', d);
  }

  lemma KeepNext(redact: Redact, s: State, a: Action, s': State)
    requires Inv(s) && Next(redact, s, a, s')
    ensures Inv(s')
  {
    hide Inv, Sync, RuleDial, AddHopUrl, OpenConn, Record, CloseCount, Untrack, Tick, Reset, CountDial;
    match a {
      case Syncing(cfgs) => KeepSync(redact, s, s', cfgs);
      case Wrapping(r, key, c) =>
        if key !in s.ruleAt[r].counters {
          KeepAddHopUrl(s, r, key, c);
        }
      case RuleDialing(d) => KeepRuleDial(s, s', d);
      case HopDialing(c, elapsed, at, failed) => KeepCountDial(s, c, elapsed, at, failed);
      case Opening(c, accepted, at, k) => KeepOpenConn(s, c, k, accepted, at);
      case Recording(k, size, read, at) => KeepRecord(s, k, size, read, at);
      case Closing(k, at) => KeepCloseCount(s, k, at);
      case Dropping(k) => KeepUntrack(s, k);
      case Ticking(at) => KeepTick(s, at);
      case Resetting(at) => KeepReset(s, at);
    }
  }

  // Every state of every run satisfies the invariants.
  lemma {:induction false} InvAlways(redact: Redact, states: seq<State>, actions: seq<Action>, i: nat)
    requires Run(redact, states, actions) && i < |states|
    ensures Inv(states[i])
  {
    hide Inv, Next, Initial;
    if i == 0 {
      var now :| states[0] == Initial(now);
      InitialInv(now);
    } else {
      InvAlways(redact, states, actions, i - 1);
      assert Steps(redact, states, actions, i - 1);
      KeepNext(redact, states[i - 1], actions[i - 1], states[i]);
    }
  }
}

/** The traffic registry itself: objects shared by pointer and changed in place. Each method is one
    atomic step of the state machine in RegistrySteps. */
module Registry {
  import opened Text
  import opened Sums
  import opened Counters
  import opened RegistryState
  import Steps = RegistrySteps
  import opened RegistryProofs
  import opened RegistryClock
  import opened RegistryHops
  import opened RegistrySync
  import opened RegistryParts
  import Runs = RegistryRuns
  import Properties = RegistryProperties
  import Config

  class Registry {
    var nextId: nat
    var since: Time
    var lastTick: Time
    var rules: map<string, Rule>
    var order: seq<string>
    var live: map<nat, Live>
    // Every object the registry has handed out, and what each counter was made for.
    ghost var allRules: set<Rule>
    ghost var allCounts: set<Counter>
    ghost var allConns: set<Conn>
    ghost var home: map<Counter, Home>

    ghost function Rules(): map<Rule, RuleView>
      reads this, allRules
    {
      map r | r in allRules :: r.View()
    }

    ghost function Counts(): map<Counter, CounterView>
      reads this, allCounts
    {
      map c | c in allCounts :: c.View()
    }

    ghost function Conns(): map<Conn, ConnView>
      reads this, allConns
    {
      map k | k in allConns :: k.View()
    }

    ghost function Now(): State
      reads this, allRules, allCounts, allConns
    {
      State(nextId, since, lastTick, rules, order, live, Rules(), Counts(), Conns(), home)
    }

    ghost predicate Valid()
      reads this, allRules, allCounts, allConns
    {
      Inv(Now()) && Enumerates(order, rules)
    }

    lemma Seen(r: Rule)
      requires r in allRules
      ensures r in Now().ruleAt && Now().ruleAt[r] == r.View()
    {
    }

    // All rule objects but one are as they were.
    twostate lemma RuleSet(new entry: Rule)
      requires allRules == old(allRules) + {entry} && forall r :: r in old(allRules) && r != entry ==> unchanged(r)
      ensures Rules() == old(Rules())[entry := entry.View()]
    {
    }

    lemma OrderedSeen()
      ensures Ordered(Now()) <==> Enumerates(order, rules)
    {
      hide Enumerates;
    }

    twostate lemma CountSet(new c: Counter)
      requires allCounts == old(allCounts) + {c} && forall x :: x in old(allCounts) && x != c ==> unchanged(x)
      ensures Counts() == old(Counts())[c := c.View()]
    {
    }

    twostate lemma ConnSet(new k: Conn)
      requires allConns == old(allConns) + {k} && forall x :: x in old(allConns) && x != k ==> unchanged(x)
      ensures Conns() == old(Conns())[k := k.View()]
    {
    }

    twostate lemma RulesSame()
      requires allRules == old(allRules) && forall r :: r in old(allRules) ==> unchanged(r)
      ensures Rules() == old(Rules())
    {
    }

    twostate lemma CountsSame()
      requires allCounts == old(allCounts) && forall c :: c in old(allCounts) ==> unchanged(c)
      ensures Counts() == old(Counts())
    {
    }

    twostate lemma ConnsSame()
      requires allConns == old(allConns) && forall k :: k in old(allConns) ==> unchanged(k)
      ensures Conns() == old(Conns())
    {
    }

    lemma SeenCount(c: Counter)
      ensures c in Now().countAt <==> c in allCounts
      ensures c in allCounts ==> Now().countAt[c] == c.View()
    {
    }

    lemma SeenConn(k: Conn)
      ensures k in Now().connAt <==> k in allConns
      ensures k in allConns ==> Now().connAt[k] == k.View()
    {
    }

    constructor (now: Time)
      ensures Now() == State(0, now, now, map[], [], map[], map[], map[], map[], map[]) && Valid()
    {
      nextId, since, lastTick := 0, now, now;
      rules, order, live := map[], [], map[];
      allRules, allCounts, allConns, home := {}, {}, {}, map[];
      new;
      assert Now() == Runs.Initial(now);
      Runs.InitialInv(now);
    }

    // ---------------------------------------------------------------- counters and connections

    method CountDial(c: Counter, elapsed: int, now: Time, failed: bool)
      requires c in allCounts
      modifies c
      ensures Now() == Steps.CountDial(old(Now()), c, elapsed, now, failed)
    {
      c.Dial(elapsed, now, failed);
      CountSet(c);
      RulesSame();
      ConnsSame();
    }

    method NewConn(c: Counter, accepted: bool, now: Time) returns (k: Conn)
      requires c in allCounts
      modifies this`allConns, c
      ensures fresh(k) && allConns == old(allConns) + {k} && k !in old(Now()).connAt
      ensures Now() == Steps.OpenConn(old(Now()), c, k, accepted, now)
      ensures k.count == c && k.accepted == accepted && k.generation == old(c.generation) && k.extra == None
    {
      var generation := c.Open(now);
      k := new Conn(c, accepted, generation);
      allConns := allConns + {k};
      CountSet(c);
      ConnSet(k);
      RulesSame();
    }

    method AddBytes(c: Counter, isUp: bool, size: int, now: Time)
      requires c in allCounts
      modifies c
      ensures Now() == Steps.SetCount(old(Now()), c, old(c.View()).Added(isUp, size, now))
      ensures c.up == old(c.up) + (if isUp then size else 0) && c.down == old(c.down) + (if isUp then 0 else size)
    {
      c.AddBytes(isUp, size, now);
      CountSet(c);
      RulesSame();
      ConnsSame();
    }

    method Record(k: Conn, size: int, read: bool, now: Time)
      requires Valid() && k in allConns
      modifies allCounts
      ensures k.count in old(allCounts) && Now() == Steps.Record(old(Now()), k, size, read, now) && Valid()
      ensures forall c :: c in old(allCounts) ==>
                var moved := if size > 0 && (c == k.count || k.extra == Some(c)) then size else 0;
                && c.up == old(c.up) + (if read == k.accepted then moved else 0)
                && c.down == old(c.down) + (if read == k.accepted then 0 else moved)
    {
      hide Inv, Enumerates, Steps.Record, Registry.Rules, Registry.Counts, Registry.Conns;
      ghost var before := Now();
      SeenConn(k);
      ConnCounters(before, k);
      SeenCount(k.count);
      if k.extra.Some? {
        SeenCount(k.extra.value);
      }
      RecordOn(k, size, read, now);
      KeepRecord(before, k, size, read, now);
    }

    method RecordOn(k: Conn, size: int, read: bool, now: Time)
      requires k in allConns && k.count in allCounts && (k.extra.Some? ==> k.extra.value in allCounts)
      requires k.extra != Some(k.count)
      modifies k.count, if k.extra.Some? then {k.extra.value} else {}
      ensures Now() == Steps.Record(old(Now()), k, size, read, now)
      ensures forall c :: c == k.count || k.extra == Some(c) ==>
                && c.up == old(c.up) + (if size > 0 && read == k.accepted then size else 0)
                && c.down == old(c.down) + (if size > 0 && read != k.accepted then size else 0)
    {
      hide CounterView.Added;
      if size <= 0 {
        return;
      }
      var isUp := read == k.accepted;
      AddBytes(k.count, isUp, size, now);
      if k.extra.Some? {
        AddBytes(k.extra.value, isUp, size, now);
      }
    }

    // A listener's accepted connection, or one a hop's dial yields, is counted.
    method Connect(c: Counter, accepted: bool, now: Time) returns (k: Conn)
      requires Valid() && Runs.Wraps(Now(), c)
      modifies this`allConns, allCounts
      ensures fresh(k) && c in old(Now()).countAt && Now() == Steps.OpenConn(old(Now()), c, k, accepted, now) && Valid()
      ensures k.count == c && k.accepted == accepted
    {
      hide Inv, Enumerates, Steps.OpenConn, Registry.Rules, Registry.Counts, Registry.Conns;
      ghost var before := Now();
      SeenCount(c);
      k := NewConn(c, accepted, now);
      KeepOpenConn(before, c, k, accepted, now);
    }

    // A dial through one hop ends: its counter counts it; Connect then counts what it yields.
    method HopDial(c: Counter, elapsed: int, now: Time, failed: bool)
      requires Valid() && Runs.Wraps(Now(), c)
      modifies allCounts
      ensures c in old(Now()).countAt && Now() == Steps.CountDial(old(Now()), c, elapsed, now, failed) && Valid()
    {
      hide Inv, Enumerates, Steps.CountDial, Registry.Rules, Registry.Counts, Registry.Conns;
      ghost var before := Now();
      SeenCount(c);
      CountDial(c, elapsed, now, failed);
      DialKept(before, c, elapsed, now, failed);
    }

    // The counter learns of the close.
    method CloseCount(k: Conn, now: Time)
      requires k in allConns && k.count in allCounts
      modifies k, k.count
      ensures Now() == Steps.CloseCount(old(Now()), k, now) && k.phase == Counted
    {
      k.count.Close(k.generation, now);
      k.phase := Counted;
      CountSet(k.count);
      ConnSet(k);
      RulesSame();
    }

    // The entry of the connection is dropped.
    method Drop(k: Conn)
      requires k in allConns
      modifies this`live, k
      ensures Now() == Steps.Untrack(old(Now()), k) && k.phase == Gone
    {
      if k.tracked.Some? {
        live := live - {k.tracked.value};
      }
      k.phase := Gone;
      ConnSet(k);
      RulesSame();
      CountsSame();
    }

    // ---------------------------------------------------------------- targets and dials

    method EvictOldest(r: Rule) returns (victim: TargetKey)
      requires r in allRules && r.targets != map[] && forall k :: k in r.targets ==> r.targets[k] in allCounts
      modifies r`targets, r`targetsEvicted
      ensures Steps.Victim(old(Now()), old(r.View()), victim)
      ensures Now() == Steps.Evict(old(Now()), r, victim)
    {
      hide Steps.Victim;
      victim := FindVictim(r);
      RemoveTarget(r, victim);
    }

    method RemoveTarget(r: Rule, key: TargetKey)
      requires r in allRules
      modifies r`targets, r`targetsEvicted
      ensures Now() == Steps.Evict(old(Now()), r, key)
    {
      r.targets := r.targets - {key};
      r.targetsEvicted := r.targetsEvicted + 1;
      RuleSet(r);
      CountsSame();
      ConnsSame();
    }

    method MakeTarget(r: Rule, key: TargetKey) returns (c: Counter)
      requires r in allRules
      modifies this`allCounts, this`home, r`targets
      ensures fresh(c) && allCounts == old(allCounts) + {c}
      ensures Now() == Steps.AddTarget(old(Now()), r, key, c)
    {
      c := new Counter(lastTick);
      AddCount(c, OfTarget(r, key));
      r.targets := r.targets[key := c];
      RuleSet(r);
      assert Counts() == old(Counts())[c := Fresh(lastTick)];
      ConnsSame();
    }

    // The counter under key, made if need be; a full rule first evicts an idle target, or else the
    // least recently active one, whatever the order its targets are visited in.
    method Target(r: Rule, key: TargetKey) returns (c: Counter, ghost victim: TargetKey)
      requires r in allRules && forall k :: k in r.targets ==> r.targets[k] in allCounts
      modifies this`allCounts, this`home, r`targets, r`targetsEvicted
      ensures Steps.CanLook(old(Now()), r, key, c, victim)
      ensures Now() == Steps.Looked(old(Now()), r, key, c, victim)
      ensures allCounts == old(allCounts) + {c} && (c !in old(allCounts) ==> fresh(c))
    {
      hide Steps.Victim, Steps.Evict, Steps.AddTarget;
      victim := key;
      if key in r.targets {
        c := r.targets[key];
        return;
      }
      if |r.targets| == MAX_TARGETS {
        var oldest := EvictOldest(r);
        victim := oldest;
      }
      c := MakeTarget(r, key);
    }

    ghost method AddCount(c: Counter, h: Home)
      modifies this`allCounts, this`home
      ensures allCounts == old(allCounts) + {c} && home == old(home)[c := h]
    {
      allCounts := allCounts + {c};
      home := home[c := h];
    }

    method FindVictim(r: Rule) returns (victim: TargetKey)
      requires r in allRules && r.targets != map[] && forall k :: k in r.targets ==> r.targets[k] in allCounts
      ensures Steps.Victim(Now(), r.View(), victim)
      ensures victim in r.targets && forall k :: k in r.targets ==>
                && (r.targets[k].active == 0 ==> r.targets[victim].active == 0)
                && ((r.targets[k].active == 0) == (r.targets[victim].active == 0) ==>
                      r.targets[victim].lastActive <= r.targets[k].lastActive)
    {
      var todo := r.targets.Keys;
      victim :| victim in todo;
      var oldestTime, oldestIdle, found := 0, false, false;
      while todo != {}
        invariant todo <= r.targets.Keys && (found || todo == r.targets.Keys)
        invariant victim in r.targets
        invariant found ==>
                    && oldestIdle == (r.targets[victim].active == 0) && oldestTime == r.targets[victim].lastActive
                    && forall k :: k in r.targets && k !in todo ==>
                         && (r.targets[k].active == 0 ==> oldestIdle)
                         && ((r.targets[k].active == 0) == oldestIdle ==> oldestTime <= r.targets[k].lastActive)
        decreases todo
      {
        var key :| key in todo;
        todo := todo - {key};
        var idle := r.targets[key].active == 0;
        var lastActive := r.targets[key].lastActive;
        if !found || (idle && !oldestIdle) || (idle == oldestIdle && lastActive < oldestTime) {
          victim, oldestTime, oldestIdle := key, lastActive, idle;
          found := true;
        }
      }
    }

    // The next id, and the own counter of the connection that gets it.
    method TakeId() returns (c: Counter)
      modifies this`nextId, this`allCounts, this`home
      ensures fresh(c) && allCounts == old(allCounts) + {c} && c !in old(Now()).countAt
      ensures Now() == Steps.NewCount(old(Now()), c, OfLive(old(nextId) + 1)).(nextId := old(nextId) + 1)
    {
      c := new Counter(lastTick);
      nextId := nextId + 1;
      AddCount(c, OfLive(nextId));
      assert Counts() == old(Counts())[c := Fresh(lastTick)];
      RulesSame();
      ConnsSame();
    }

    method Enter(entry: Live)
      requires entry.conn in allConns
      modifies this`live, entry.conn`extra, entry.conn`tracked
      ensures var tracked := old(entry.conn.View()).(extra := Some(entry.count), tracked := Some(entry.id));
              Now() == old(Now()).(live := old(live)[entry.id := entry], connAt := old(Conns())[entry.conn := tracked])
    {
      entry.conn.extra := Some(entry.count);
      entry.conn.tracked := Some(entry.id);
      live := live[entry.id := entry];
      ConnSet(entry.conn);
      CountsSame();
      RulesSame();
    }

    // A connection just made on a target of a registered rule joins the live set under the next id.
    method Track(k: Conn, r: Rule, key: TargetKey, client: string, dialed: map<nat, string>, started: Time)
      returns (c: Counter)
      requires k in allConns && r in allRules
      modifies this`nextId, this`live, this`allCounts, this`home, k`extra, k`tracked
      ensures fresh(c) && allCounts == old(allCounts) + {c} && c !in old(Now()).countAt
      ensures Now() == Steps.Track(old(Now()), k, r, key, client, Runs.Route(r.forwardWay, dialed), started, c)
    {
      hide Runs.Route, Registry.Rules, Registry.Counts, Registry.Conns;
      SeenConn(k);
      var path := RouteOf(r.forwardWay, dialed);
      c := TakeId();
      SeenConn(k);
      Enter(Live(nextId, r, client, key.address, key.via, path, started, c, k));
    }

    // A successful dial yields a connection, tracked if the rule is still the registered one; d0 is
    // the dial as far as it is known.
    method Yield(r: Rule, key: TargetKey, client: string, dialed: map<nat, string>, now: Time, openedAt: Time,
                 c: Counter, ghost d0: Runs.Dialing)
      returns (k: Conn, ghost d: Runs.Dialing)
      requires r in allRules && c in allCounts
      requires d0 ==
               d0.(rule := r, key := key, client := client, dialed := dialed, now := now, openedAt := openedAt,
               target := c)
      modifies this`allConns, this`nextId, this`live, this`allCounts, this`home, c
      ensures Runs.Yielded(old(Now()), Now(), d) && d == d0.(conn := Some(k), own := d.own)
      ensures fresh(allCounts - old(allCounts)) && fresh(allConns - old(allConns))
    {
      hide Steps.Track, Runs.Route, Steps.OpenConn, Registry.Rules, Registry.Counts, Registry.Conns;
      ghost var before := Now();
      Seen(r);
      SeenCount(c);
      k := NewConn(c, false, openedAt);
      d := d0.(conn := Some(k));
      Seen(r);
      if r.name in rules && rules[r.name] == r {
        var own := Track(k, r, key, client, dialed, now);
        d := d.(own := Some(own));
      }
    }

    // The target counts the dial, and a successful one yields.
    method FinishDial(r: Rule, key: TargetKey, client: string, dialed: map<nat, string>, elapsed: int, now: Time,
                      failed: bool, openedAt: Time, c: Counter, ghost victim: TargetKey)
      returns (conn: Option<Conn>, ghost d: Runs.Dialing)
      requires r in allRules && c in allCounts
      modifies this`allConns, this`nextId, this`live, this`allCounts, this`home, c
      ensures Runs.Dialed(old(Now()), Now(), d)
      ensures d == Runs.Dialing(r, key, client, dialed, elapsed, now, failed, openedAt, c, victim, conn, d.own)
      ensures conn.None? <==> failed
      ensures fresh(allCounts - old(allCounts)) && fresh(allConns - old(allConns))
    {
      hide Steps.CountDial, Runs.Yielded, Registry.Rules, Registry.Counts, Registry.Conns;
      ghost var looked := Now();
      Seen(r);
      SeenCount(c);
      conn := None;
      d := Runs.Dialing(r, key, client, dialed, elapsed, now, failed, openedAt, c, victim, None, None);
      CountDial(c, elapsed, now, failed);
      if !failed {
        var k;
        k, d := Yield(r, key, client, dialed, now, openedAt, c, d);
        conn := Some(k);
      }
    }

    // The rule counts the dial, and its target is looked up.
    method LookUp(r: Rule, key: TargetKey, elapsed: int, now: Time, failed: bool)
      returns (c: Counter, ghost victim: TargetKey)
      requires Inv(Now()) && r in allRules
      modifies this`allCounts, this`home, r`targets, r`targetsEvicted, allCounts
      ensures r in old(Now()).ruleAt && r.count in old(Now()).countAt && allCounts == old(allCounts) + {c}
      ensures c !in old(allCounts) ==> fresh(c)
      ensures var counted := Steps.CountDial(old(Now()), r.count, elapsed, now, failed);
              Steps.CanLook(counted, r, key, c, victim) && Now() == Steps.Looked(counted, r, key, c, victim)
    {
      hide Inv, Steps.CountDial, Steps.Looked, Steps.CanLook, Registry.Rules, Registry.Counts, Registry.Conns;
      ghost var before := Now();
      Seen(r);
      KnownRule(before, r);
      SeenCount(r.count);
      CountDial(r.count, elapsed, now, failed);
      DialKept(before, r.count, elapsed, now, failed);
      TargetsKnown(r);
      c, victim := Target(r, key);
    }

    lemma TargetsKnown(r: Rule)
      requires Inv(Now()) && r in allRules
      ensures forall k :: k in r.targets ==> r.targets[k] in allCounts
    {
      hide Inv;
      Seen(r);
      KnownRule(Now(), r);
    }

    // A dial through a whole rule ends: its rule and its target count it.
    method RuleDial(r: Rule, key: TargetKey, client: string, dialed: map<nat, string>, elapsed: int, now: Time,
                    failed: bool, openedAt: Time)
      returns (conn: Option<Conn>, ghost d: Runs.Dialing)
      requires Valid() && r in allRules
      modifies this, r, allCounts
      ensures Runs.RuleDial(old(Now()), Now(), d) && Valid()
      ensures d == Runs.Dialing(r, key, client, dialed, elapsed, now, failed, openedAt, d.target, d.victim, conn, d.own)
      ensures conn.None? <==> failed
      ensures allRules == old(allRules) && fresh(allCounts - old(allCounts)) && fresh(allConns - old(allConns))
    {
      hide Inv, Enumerates, Steps.CountDial, Steps.Looked, Steps.CanLook, Runs.Dialed, Registry.Rules, Registry.Counts,
        Registry.Conns;
      ghost var before := Now();
      Seen(r);
      var c, victim := LookUp(r, key, elapsed, now, failed);
      conn, d := FinishDial(r, key, client, dialed, elapsed, now, failed, openedAt, c, victim);
      Runs.KeepRuleDial(before, Now(), d);
    }

    // ---------------------------------------------------------------- the clock, and starting over

    // A hop's current rates, each distinct counter once.
    method HopRates(hop: Hop) returns (up: int, down: int)
      requires hop.Counts() <= allCounts
      ensures up == Now().HopRate(hop, true) && down == Now().HopRate(hop, false)
    {
      hide Registry.Now, Registry.Rules, Registry.Counts, Registry.Conns, State.RateOf;
      var counters := UniqueCounters(hop.urls);
      ghost var ups, downs := Now().RateOf(true), Now().RateOf(false);
      RatesRead(hop);
      up, down := 0, 0;
      for i := 0 to |counters|
        invariant up == SumSeq(counters[..i], ups) && down == SumSeq(counters[..i], downs)
      {
        assert counters[..i + 1][..i] == counters[..i];
        up := up + counters[i].rateUp;
        down := down + counters[i].rateDown;
      }
      assert counters[..|counters|] == counters;
      UniqueSums(hop, ups);
      UniqueSums(hop, downs);
    }

    lemma RatesRead(hop: Hop)
      requires hop.Counts() <= allCounts
      ensures forall c :: c in Unique(hop.urls) ==>
              Now().RateOf(true)(c) == c.rateUp && Now().RateOf(false)(c) == c.rateDown
    {
      hide Registry.Rules, Registry.Conns, Unique;
      forall c | c in Unique(hop.urls)
        ensures Now().RateOf(true)(c) == c.rateUp && Now().RateOf(false)(c) == c.rateDown
      {
        SeenCount(c);
      }
    }

    method PeakWay(way: seq<Hop>) returns (peaked: seq<Hop>)
      requires forall i :: 0 <= i < |way| ==> way[i].Counts() <= allCounts
      ensures peaked == Steps.PeakedWay(Now(), way)
    {
      hide State.HopRate;
      peaked := way;
      for index := 0 to |way|
        invariant |peaked| == |way|
        invariant forall i :: 0 <= i < index ==> peaked[i] == Steps.PeakedHop(Now(), way[i])
        invariant forall i :: index <= i < |way| ==> peaked[i] == way[i]
      {
        var up, down := HopRates(way[index]);
        var raised := way[index].(peakUp := Max(way[index].peakUp, up), peakDown := Max(way[index].peakDown, down));
        peaked := peaked[index := raised];
      }
    }

    // The hops of registered rules raise their peaks to their current rates.
    method PeakRules()
      requires rules.Values <= allRules
      requires forall r, role: Role, i :: r in allRules && 0 <= i < |r.View().Way(role)| ==>
               r.View().Way(role)[i].Counts() <= allCounts
      modifies rules.Values
      ensures Now() == PeakedRules(old(Now()), rules.Values)
    {
      hide Steps.PeakedRule;
      ghost var before := Now();
      PeakMap(before);
      assert Counts() == before.countAt && Conns() == before.connAt;
    }

    method PeakMap(ghost before: State)
      requires rules.Values <= allRules && before == Now()
      requires forall r, role: Role, i :: r in rules.Values && 0 <= i < |r.View().Way(role)| ==>
               r.View().Way(role)[i].Counts() <= allCounts
      modifies rules.Values
      ensures Rules() == PeakedRules(before, rules.Values).ruleAt
    {
      hide Steps.PeakedRule, Registry.Counts, Registry.Conns, Hop.Counts;
      PeakEach(before);
    }

    method PeakEach(ghost before: State)
      requires rules.Values <= allRules && Counts() == before.countAt
      requires forall r, role: Role, i :: r in rules.Values && 0 <= i < |r.View().Way(role)| ==>
               r.View().Way(role)[i].Counts() <= allCounts
      modifies rules.Values
      ensures forall r :: r in allRules ==>
                r.View() == if r in rules.Values then Steps.PeakedRule(before, old(r.View())) else old(r.View())
    {
      hide Steps.PeakedRule, Registry.Rules, Registry.Conns, Registry.Counts, Registry.Now, Hop.Counts;
      var todo := rules.Values;
      while todo != {}
        invariant todo <= rules.Values && Counts() == before.countAt
        invariant forall r :: r in allRules ==>
                    r.View() == if r in rules.Values - todo then Steps.PeakedRule(before, old(r.View()))
                      else old(r.View())
        decreases todo
      {
        var r :| r in todo;
        todo := todo - {r};
        PeakRule(r, before);
      }
    }

    method PeakRule(r: Rule, ghost before: State)
      requires r in allRules && Counts() == before.countAt
      requires forall role: Role, i :: 0 <= i < |r.View().Way(role)| ==> r.View().Way(role)[i].Counts() <= allCounts
      modifies r
      ensures r.View() == Steps.PeakedRule(before, old(r.View()))
    {
      hide Steps.PeakedWay;
      assert r.listenWay == r.View().Way(Listening) && r.forwardWay == r.View().Way(Forwarding);
      var listenWay := PeakWay(r.listenWay);
      var forwardWay := PeakWay(r.forwardWay);
      PeaksRead(before, Now(), r.listenWay);
      PeaksRead(before, Now(), r.forwardWay);
      r.listenWay, r.forwardWay := listenWay, forwardWay;
    }

    // Every counter a snapshot can show: those of registered rules and of tracked connections.
    method VisibleCounters(ghost s: State) returns (cs: set<Counter>)
      requires Valid() && s == Now()
      ensures cs <= allCounts && forall c :: c in allCounts ==> (c in cs <==> s.Visible(c))
    {
      hide Inv, Enumerates, Registry.Rules, Registry.Counts, Registry.Conns;
      cs := {};
      var names := rules.Keys;
      while names != {}
        invariant names <= rules.Keys
        invariant forall c :: c in cs <==> exists n :: n in rules && n !in names && rules[n].View().Holds(c)
        decreases names
      {
        var n :| n in names;
        names := names - {n};
        var rule := rules[n];
        cs := cs + {rule.count} + rule.counters.Values + rule.targets.Values;
        forall c ensures c in {rule.count} + rule.counters.Values + rule.targets.Values <==> rule.View().Holds(c) {}
      }
      var ids := live.Keys;
      ghost var ofRules := cs;
      while ids != {}
        invariant ids <= live.Keys
        invariant forall c :: c in cs <==> c in ofRules || exists id :: id in live && id !in ids && live[id].count == c
        decreases ids
      {
        var id :| id in ids;
        ids := ids - {id};
        cs := cs + {live[id].count};
      }
      forall c ensures c in cs <==> s.Visible(c) {
        VisibleIs(c);
      }
      VisibleExist(s);
      forall c | c in cs ensures c in allCounts {
        SeenCount(c);
      }
    }

    // Registered rules are those the name map holds.
    lemma VisibleIs(c: Counter)
      requires Valid()
      ensures Now().Visible(c) <==>
              (exists n :: n in rules && rules[n].View().Holds(c)) || (exists id :: id in live && live[id].count == c)
    {
    }

    // The window of every visible counter closes, then hop peaks rise.
    method Tick(now: Time)
      requires Valid()
      modifies this`lastTick, allCounts, allRules
      ensures Now() == Steps.Tick(old(Now()), now) && Valid()
    {
      hide Inv, Enumerates, Registry.Now, Registry.Rules, Registry.Conns, Registry.Counts, Steps.Tick, TickedSome,
        PeakedRules, State.Visible, RuleView.Way;
      ghost var before := Now();
      HopsKnown();
      SeenAll();
      LiveSeen();
      var cs := VisibleCounters(before);
      TickCounters(cs, now);
      PeakRules();
      TickCompose(before, cs, before.rules.Values, now);
      KeepTick(before, now);
    }

    lemma HopsKnown()
      requires Inv(Now())
      ensures rules.Values <= allRules && forall r :: r in Now().ruleAt ==> (r in rules.Values <==> Now().Registered(r))
      ensures forall r, role: Role, i :: r in allRules && 0 <= i < |r.View().Way(role)| ==>
              r.View().Way(role)[i].Counts() <= allCounts
    {
      hide Inv, RuleView.Way;
      RegisteredAre(Now());
      SeenAll();
    }

    // The registry's maps hold exactly the objects of its state.
    lemma SeenAll()
      ensures Now().ruleAt.Keys == allRules && Now().countAt.Keys == allCounts && Now().connAt.Keys == allConns
      ensures forall r :: r in allRules ==> Now().ruleAt[r] == r.View()
    {
    }

    method TickCounters(cs: set<Counter>, now: Time)
      requires cs <= allCounts
      modifies this`lastTick, cs
      ensures Now() == TickedSome(old(Now()), cs, now)
    {
      lastTick := now;
      var todo := cs;
      while todo != {}
        invariant todo <= cs && lastTick == now
        invariant forall c :: c in allCounts ==>
                  c.View() == if c in cs - todo then old(c.View()).Ticked(now) else old(c.View())
        decreases todo
      {
        hide CounterView.Ticked;
        var c :| c in todo;
        c.Tick(now);
        todo := todo - {c};
      }
      {
        hide Registry.Rules, Registry.Conns, CounterView.Ticked;
        assert Counts() == TickedSome(old(Now()), cs, now).countAt;
      }
      {
        hide Registry.Counts, Registry.Now, Registry.Rules, Registry.Conns;
        RulesSame();
        ConnsSame();
      }
      hide Registry.Rules, Registry.Counts, Registry.Conns;
    }

    // Statistics start over: visible counters and hop peaks go to zero, tracked connections restart,
    // and a registered rule keeps only the targets that tracked connections name.
    method Reset(now: Time)
      requires Valid()
      modifies this`since, this`live, allCounts, allRules
      ensures Now() == Steps.Reset(old(Now()), now) && Valid()
    {
      hide Inv, Enumerates, Registry.Now, Registry.Rules, Registry.Conns, Registry.Counts, Steps.Reset, ResettedSome,
        Restarted, ClearedRules, Steps.Kept, State.Visible;
      ghost var before := Now();
      RegisteredAre(before);
      SeenAll();
      LiveSeen();
      var kept;
      ghost var cs;
      kept, cs := StartOver(now);
      ClearRules(kept);
      ResetCompose(before, cs, before.rules.Values, now);
      KeepReset(before, now);
    }

    // All of a reset but the rules; cs are the counters it resets, kept the targets it leaves.
    method StartOver(now: Time) returns (kept: set<Counter>, ghost cs: set<Counter>)
      requires Valid()
      modifies this`since, this`live, allCounts
      ensures forall c :: c in old(Now()).countAt ==> (c in cs <==> old(Now()).Visible(c))
      ensures var resetted := ResettedSome(old(Now()), cs, now);
              Now() == Restarted(resetted, now) && kept == Steps.Kept(resetted)
    {
      hide Inv, Enumerates, Registry.Rules, Registry.Conns, Registry.Counts, ResettedSome, Restarted, Steps.Kept,
        State.Visible;
      ghost var before := Now();
      var visible := VisibleCounters(before);
      cs := visible;
      NamesKnown(before);
      SeenAll();
      ResetCounters(visible, now);
      ghost var resetted := Now();
      SeenAll();
      kept := KeptTargets(resetted);
      RestartLive(now);
    }

    method ResetCounters(cs: set<Counter>, now: Time)
      requires cs <= allCounts
      modifies this`since, cs
      ensures Now() == ResettedSome(old(Now()), cs, now)
    {
      since := now;
      var todo := cs;
      while todo != {}
        invariant todo <= cs && since == now
        invariant forall c :: c in allCounts ==>
                  c.View() == if c in cs - todo then old(c.View()).Resetted(lastTick) else old(c.View())
        decreases todo
      {
        hide CounterView.Resetted;
        var c :| c in todo;
        c.Reset(lastTick);
        todo := todo - {c};
      }
      hide CounterView.Resetted, Registry.Rules, Registry.Conns;
      assert Counts() == ResettedSome(old(Now()), cs, now).countAt;
      RulesSame();
      ConnsSame();
    }

    // Tracked connections start over.
    method RestartLive(now: Time)
      modifies this`live
      ensures Now() == Restarted(old(Now()), now)
    {
      var started := RestartedEntries(live, now);
      live := started;
      RulesSame();
      CountsSame();
      ConnsSame();
    }

    static method RestartedEntries(entries: map<nat, Live>, now: Time) returns (started: map<nat, Live>)
      ensures started == map id | id in entries :: entries[id].(started := now)
    {
      started := entries;
      var ids := entries.Keys;
      while ids != {}
        invariant ids <= entries.Keys && started.Keys == entries.Keys
        invariant forall id :: id in entries ==>
                  started[id] == if id in ids then entries[id] else entries[id].(started := now)
        decreases ids
      {
        var id :| id in ids;
        ids := ids - {id};
        started := started[id := started[id].(started := now)];
      }
    }

    // The target counters that tracked connections name.
    method KeptTargets(ghost s: State) returns (kept: set<Counter>)
      requires s == Now() && forall id :: id in live ==> live[id].rule in allRules
      ensures kept == Steps.Kept(s)
    {
      hide Live.Key, Registry.Now, Registry.Counts, Registry.Conns, Steps.Kept;
      SeenAll();
      assert s.live == live by { LiveSeen(); }
      var ids := live.Keys;
      kept := {};
      while ids != {}
        invariant ids <= live.Keys
        invariant forall id :: id in live && id !in ids && NamesTarget(s, live[id]) ==> Named(s, live[id]) in kept
        invariant forall c :: c in kept ==>
                  exists id :: id in live && id !in ids && NamesTarget(s, live[id]) && Named(s, live[id]) == c
        decreases ids
      {
        var id :| id in ids;
        ids := ids - {id};
        var entry := live[id];
        assert s.ruleAt[entry.rule] == entry.rule.View();
        if entry.Key() in entry.rule.targets {
          kept := kept + {entry.rule.targets[entry.Key()]};
        }
      }
      KeptIs(s, kept);
    }

    lemma LiveSeen()
      ensures Now().live == live && Now().rules == rules && Now().order == order
    {
    }

    method ClearRules(kept: set<Counter>)
      requires rules.Values <= allRules
      modifies rules.Values
      ensures Now() == ClearedRules(old(Now()), rules.Values, kept)
    {
      hide Steps.ClearedRule;
      ClearEach(kept);
      assert Rules() == ClearedRules(old(Now()), rules.Values, kept).ruleAt;
      CountsSame();
      ConnsSame();
    }

    method ClearEach(kept: set<Counter>)
      modifies rules.Values
      ensures forall r :: r in old(allRules) + rules.Values ==>
                r.View() == if r in rules.Values then Steps.ClearedRule(old(r.View()), kept) else old(r.View())
    {
      hide Steps.ClearedRule, Registry.Rules, Registry.Conns, Registry.Counts, Registry.Now;
      var todo := rules.Values;
      while todo != {}
        invariant todo <= rules.Values
        invariant forall r :: r in allRules + rules.Values ==>
                    r.View() == if r in rules.Values - todo then Steps.ClearedRule(old(r.View()), kept)
                      else old(r.View())
        decreases todo
      {
        var r :| r in todo;
        todo := todo - {r};
        ClearRule(r, kept);
      }
    }

    static method ClearRule(r: Rule, kept: set<Counter>)
      modifies r
      ensures r.View() == Steps.ClearedRule(old(r.View()), kept)
    {
      var keys := r.targets.Keys;
      while keys != {}
        invariant keys <= old(r.targets).Keys
        invariant r.targets == map key | key in old(r.targets) &&
                  (key in keys || old(r.targets)[key] in kept) :: old(r.targets)[key]
        invariant r.listenWay == old(r.listenWay) && r.forwardWay == old(r.forwardWay) && r.counters == old(r.counters)
        decreases keys
      {
        var key :| key in keys;
        keys := keys - {key};
        if r.targets[key] !in kept {
          r.targets := r.targets - {key};
        }
      }
      r.targetsEvicted := 0;
      var listenWay := ClearWay(r.listenWay);
      var forwardWay := ClearWay(r.forwardWay);
      r.listenWay, r.forwardWay := listenWay, forwardWay;
    }

    static method ClearWay(way: seq<Hop>) returns (cleared: seq<Hop>)
      ensures cleared == Steps.ClearedWay(way)
    {
      cleared := way;
      for index := 0 to |way|
        invariant |cleared| == |way|
        invariant forall i :: 0 <= i < index ==> cleared[i] == way[i].(peakUp := 0, peakDown := 0)
        invariant forall i :: index <= i < |way| ==> cleared[i] == way[i]
      {
        cleared := cleared[index := cleared[index].(peakUp := 0, peakDown := 0)];
      }
    }

    // ---------------------------------------------------------------- hops

    // The counter of a hop URL for which a dialer is made; a URL the rule has no counter for joins
    // its hop, and the hops up to it are made if need be.
    method Wrap(r: Rule, key: HopKey) returns (c: Counter)
      requires Valid() && r in allRules
      modifies this`allCounts, this`home, r`counters, r`listenWay, r`forwardWay
      ensures Valid()
      ensures key in old(r.counters) ==> c == old(r.counters)[key] && Now() == old(Now())
      ensures key !in old(r.counters) ==> fresh(c) && Now() == Steps.AddHopUrl(old(Now()), r, key, c)
      ensures allCounts == old(allCounts) + {c}
    {
      hide Inv, Enumerates, Steps.GrownWay, Steps.AddHopUrl, Registry.Rules, Registry.Counts, Registry.Conns;
      Seen(r);
      if key in r.counters {
        c := r.counters[key];
        HopCounterKnown(Now(), r, key);
        SeenCount(c);
      } else {
        c := AddUrl(r, key);
        KeepAddHopUrl(old(Now()), r, key, c);
      }
    }

    method AddUrl(r: Rule, key: HopKey) returns (c: Counter)
      requires r in allRules
      modifies this`allCounts, this`home, r`counters, r`listenWay, r`forwardWay
      ensures fresh(c) && c !in old(Now()).countAt && allCounts == old(allCounts) + {c}
      ensures Now() == Steps.AddHopUrl(old(Now()), r, key, c)
    {
      hide Steps.GrownWay;
      c := new Counter(lastTick);
      AddCount(c, OfHop(r, key));
      JoinHop(r, key, c);
      RuleSet(r);
      assert Counts() == old(Counts())[c := Fresh(lastTick)];
      ConnsSame();
    }

    static method JoinHop(r: Rule, key: HopKey, c: Counter)
      modifies r`counters, r`listenWay, r`forwardWay
      ensures var v := old(r.View());
              r.View() ==
                v.WithWay(key.role, Steps.GrownWay(v.Way(key.role), key, c)).(counters := v.counters[key := c])
    {
      hide Steps.GrownWay;
      r.counters := r.counters[key := c];
      if key.role.Listening? {
        var way := Grow(r.listenWay, key, c);
        r.listenWay := way;
      } else {
        var way := Grow(r.forwardWay, key, c);
        r.forwardWay := way;
      }
    }

    static method Grow(way: seq<Hop>, key: HopKey, c: Counter) returns (grown: seq<Hop>)
      ensures grown == Steps.GrownWay(way, key, c)
    {
      grown := way;
      while |grown| <= key.index
        invariant |way| <= |grown| && (|grown| == |way| || |grown| <= key.index + 1)
        invariant grown[..|way|] == way && forall i :: |way| <= i < |grown| ==> grown[i] == Hop([], 0, 0)
        decreases key.index + 1 - |grown|
      {
        grown := grown + [Hop([], 0, 0)];
      }
      grown := grown[key.index := grown[key.index].(urls := grown[key.index].urls + [UrlCounter(key.url, c)])];
    }

    // ---------------------------------------------------------------- closes

    // Closing again does nothing.
    method Close(k: Conn, now: Time)
      requires Valid() && k in allConns
      modifies this`live, k, allCounts
      ensures Valid() && k.phase == if old(k.phase).InUse? then Gone else old(k.phase)
      ensures old(k.phase).InUse? ==>
                k.count in old(allCounts) && Now() == Steps.Untrack(Steps.CloseCount(old(Now()), k, now), k)
      ensures !old(k.phase).InUse? ==> Now() == old(Now())
    {
      hide Inv, Enumerates, Steps.CloseCount, Steps.Untrack, Registry.Rules, Registry.Counts, Registry.Conns;
      SeenConn(k);
      if k.phase.InUse? {
        ghost var before := Now();
        ConnKnown(before, k);
        SeenCount(k.count);
        CloseCount(k, now);
        KeepCloseCount(before, k, now);
        SeenConn(k);
        ghost var closed := Now();
        assert closed.connAt[k].phase.Counted?;
        Drop(k);
        KeepUntrack(closed, k);
      }
    }

    // Closes the connection an id names, if it is still tracked.
    method Disconnect(id: nat, now: Time) returns (found: bool)
      requires Valid()
      modifies this`live, if id in live then {live[id].conn} else {}, allCounts
      ensures Valid() && found == (id in old(live))
      ensures !found || !old(live[id].conn.phase).InUse? ==> Now() == old(Now())
      ensures found && old(live[id].conn.phase).InUse? ==>
                var k := old(live)[id].conn;
                && k in old(allConns) && k.count in old(allCounts)
                && Now() == Steps.Untrack(Steps.CloseCount(old(Now()), k, now), k) && live == old(live) - {id}
    {
      hide Inv, Enumerates, Registry.Rules, Registry.Counts, Registry.Conns;
      found := id in live;
      if found {
        EntryKnown(Now(), id);
        SeenConn(live[id].conn);
        Close(live[id].conn, now);
      }
    }

    // ---------------------------------------------------------------- a new configuration

    // Since state s only new counters were made, in the window s was in.
    ghost predicate Extends(s: State)
      reads this, allCounts
    {
      && lastTick == s.lastTick && s.countAt.Keys <= allCounts && home.Keys == allCounts
      && (forall c :: c in s.countAt ==> c.View() == s.countAt[c])
      && (forall c :: c in s.countAt && c in s.home ==> home[c] == s.home[c])
      && (forall c :: c in allCounts && c !in s.countAt ==> c.View() == Fresh(s.lastTick))
    }

    ghost predicate NewMade(s: State, c: Counter, h: Home)
      reads this
    {
      c in allCounts && c !in s.countAt && c in home && home[c] == h
    }

    // Known keys keep their counters, other keys have new ones of their own.
    ghost predicate Follows(s: State, r: Rule, was: map<HopKey, Counter>, counters: map<HopKey, Counter>)
      reads this
    {
      forall key :: key in counters ==>
          if key in was then counters[key] == was[key] else NewMade(s, counters[key], OfHop(r, key))
    }

    // A new counter, made for h, joins.
    ghost method EnterCounter(c: Counter, h: Home, s: State)
      requires Extends(s) && c !in allCounts && c.View() == Fresh(lastTick)
      modifies this`allCounts, this`home
      ensures allCounts == old(allCounts) + {c} && home == old(home)[c := h]
      ensures Extends(s) && NewMade(s, c, h) && OnlyMade(old(allCounts), old(home), allCounts, home)
    {
      hide Fresh;
      AddCount(c, h);
    }

    method MakeCounter(h: Home, ghost s: State) returns (c: Counter)
      requires Extends(s)
      modifies this`allCounts, this`home
      ensures fresh(c) && allCounts == old(allCounts) + {c} && home == old(home)[c := h]
      ensures Extends(s) && NewMade(s, c, h) && OnlyMade(old(allCounts), old(home), allCounts, home)
    {
      hide OnlyMade, Fresh;
      c := new Counter(lastTick);
      EnterCounter(c, h, s);
    }

    method SyncUrl(r: Rule, key: HopKey, counters: map<HopKey, Counter>, ghost s: State)
      returns (count: Counter, updated: map<HopKey, Counter>)
      requires Extends(s) && Follows(s, r, r.counters, counters)
      modifies this`allCounts, this`home
      ensures Extends(s) && Follows(s, r, r.counters, updated) && OnlyMade(old(allCounts), old(home), allCounts, home)
      ensures fresh(allCounts - old(allCounts))
      ensures if key in counters then count == counters[key] && updated == counters
              else updated == counters[key := count]
    {
      hide Extends, OnlyMade;
      OnlyMadeMore(allCounts, home, allCounts, home, allCounts, home);
      updated := counters;
      if key in counters {
        count := counters[key];
      } else {
        if key in r.counters {
          count := r.counters[key];
        } else {
          count := MakeCounter(OfHop(r, key), s);
        }
        updated := updated[key := count];
      }
    }

    method SyncHop(redact: Steps.Redact, r: Rule, role: Role, index: nat, node: Config.Node,
                   counters: map<HopKey, Counter>, ghost s: State)
      returns (urls: seq<UrlCounter>, updated: map<HopKey, Counter>)
      requires Extends(s) && Follows(s, r, r.counters, counters)
      modifies this`allCounts, this`home
      ensures Extends(s) && Follows(s, r, r.counters, updated) && OnlyMade(old(allCounts), old(home), allCounts, home)
      ensures fresh(allCounts - old(allCounts))
      ensures HopSynced(redact, role, index, node, counters, urls, updated)
    {
      hide Extends, Follows, OnlyMade;
      urls, updated := [], counters;
      OnlyMadeMore(allCounts, home, allCounts, home, allCounts, home);
      for j := 0 to |node|
        invariant Extends(s) && Follows(s, r, r.counters, updated)
        invariant OnlyMade(old(allCounts), old(home), allCounts, home) && fresh(allCounts - old(allCounts))
        invariant HopSynced(redact, role, index, node[..j], counters, urls, updated)
      {
        hide HopSynced;
        var key := HopKey(role, index, redact(node[j]));
        var count;
        ghost var urls0, updated0, counts0, homes0 := urls, updated, allCounts, home;
        count, updated := SyncUrl(r, key, updated, s);
        OnlyMadeMore(old(allCounts), old(home), counts0, homes0, allCounts, home);
        urls := urls + [UrlCounter(key.url, count)];
        assert node[..j + 1] == node[..j] + [node[j]];
        HopSyncedMore(redact, role, index, node[..j], node[j], counters, urls0, updated0, urls, updated);
      }
      assert node[..|node|] == node;
    }

    method SyncWay(redact: Steps.Redact, r: Rule, role: Role, before: seq<Hop>, nodes: seq<Config.Node>,
                   counters: map<HopKey, Counter>, ghost s: State)
      returns (way: seq<Hop>, updated: map<HopKey, Counter>)
      requires Extends(s) && Follows(s, r, r.counters, counters)
      requires forall key :: key in counters ==> key.role != role
      modifies this`allCounts, this`home
      ensures Extends(s) && Follows(s, r, r.counters, updated) && OnlyMade(old(allCounts), old(home), allCounts, home)
      ensures fresh(allCounts - old(allCounts))
      ensures Steps.WaySynced(redact, before, way, updated, role, nodes)
      ensures MapKept(counters, updated) && forall key :: key in updated && key !in counters ==> key.role == role
    {
      hide Extends, Follows, OnlyMade, HopSynced, Steps.WaySynced, MapKept;
      way, updated := [], counters;
      WayStarts(redact, before, role, counters);
      OnlyMadeMore(allCounts, home, allCounts, home, allCounts, home);
      for index := 0 to |nodes|
        invariant Extends(s) && Follows(s, r, r.counters, updated)
        invariant OnlyMade(old(allCounts), old(home), allCounts, home) && fresh(allCounts - old(allCounts))
        invariant MapKept(counters, updated) && forall key :: key in updated && key !in counters ==> key.role == role
        invariant Steps.WaySynced(redact, before, way, updated, role, nodes[..index])
      {
        var urls;
        ghost var way0, updated0, counts0, homes0 := way, updated, allCounts, home;
        urls, updated := SyncHop(redact, r, role, index, nodes[index], updated, s);
        OnlyMadeMore(old(allCounts), old(home), counts0, homes0, allCounts, home);
        var hop := if index < |before| then Hop(urls, before[index].peakUp, before[index].peakDown)
          else Hop(urls, 0, 0);
        way := way + [hop];
        assert nodes[..index + 1] == nodes[..index] + [nodes[index]];
        WaySyncedMore(redact, before, role, nodes[..index], nodes[index], counters, way0, updated0, hop, updated);
      }
      assert nodes[..|nodes|] == nodes;
    }

    method SyncWays(redact: Steps.Redact, r: Rule, cfg: Config.Rule, ghost s: State)
      requires Extends(s)
      modifies this`allCounts, this`home, r`listenWay, r`forwardWay, r`counters
      ensures Extends(s) && OnlyMade(old(allCounts), old(home), allCounts, home) && fresh(allCounts - old(allCounts))
      ensures Follows(s, r, old(r.counters), r.counters)
      ensures Steps.WaySynced(redact, old(r.listenWay), r.listenWay, r.counters, Listening, cfg.listen.way)
      ensures Steps.WaySynced(redact, old(r.forwardWay), r.forwardWay, r.counters, Forwarding, cfg.forward.way)
    {
      hide Extends, OnlyMade, Steps.WaySynced;
      ghost var counts0, homes0 := allCounts, home;
      var listenWay, counters := SyncWay(redact, r, Listening, r.listenWay, cfg.listen.way, map[], s);
      ghost var listened, counts1, homes1 := counters, allCounts, home;
      var forwardWay;
      forwardWay, counters := SyncWay(redact, r, Forwarding, r.forwardWay, cfg.forward.way, counters, s);
      WaySyncedKept(redact, r.listenWay, listenWay, listened, counters, Listening, cfg.listen.way);
      OnlyMadeMore(counts0, homes0, counts1, homes1, allCounts, home);
      r.listenWay, r.forwardWay, r.counters := listenWay, forwardWay, counters;
    }

    method MakeRule(name: string, ghost s: State) returns (r: Rule)
      requires Extends(s) && allRules >= s.ruleAt.Keys
      modifies this`allRules, this`allCounts, this`home
      ensures Extends(s) && OnlyMade(old(allCounts), old(home), allCounts, home) && fresh(allCounts - old(allCounts))
      ensures fresh(r) && r !in s.ruleAt && allRules == old(allRules) + {r}
      ensures r.View() == RuleView(name, r.count, [], [], map[], map[], 0) && NewMade(s, r.count, OfRule(r))
    {
      hide Fresh, OnlyMade, Extends;
      r := NewRule(name, lastTick);
      EnterRule(r, s);
    }

    ghost method EnterRule(r: Rule, s: State)
      requires Extends(s) && r.count !in allCounts && r.count.View() == Fresh(lastTick)
      modifies this`allRules, this`allCounts, this`home
      ensures allCounts == old(allCounts) + {r.count} && allRules == old(allRules) + {r}
      ensures Extends(s) && NewMade(s, r.count, OfRule(r)) && OnlyMade(old(allCounts), old(home), allCounts, home)
    {
      hide Fresh;
      AddCount(r.count, OfRule(r));
      allRules := allRules + {r};
    }

    static method NewRule(name: string, now: Time) returns (r: Rule)
      ensures fresh(r) && fresh(r.count) && r.count.View() == Fresh(now)
      ensures r.View() == RuleView(name, r.count, [], [], map[], map[], 0)
    {
      var count := new Counter(now);
      r := new Rule(name, count);
    }

    // Rule object r holds what a sync makes of it.
    ghost predicate Synced(redact: Steps.Redact, s: State, r: Rule, before: RuleView, cfg: Config.Rule)
      reads this, r
    {
      && r.name == before.name == cfg.name && r.count == before.count
      && r.targets == before.targets && r.targetsEvicted == before.targetsEvicted
      && Steps.WaySynced(redact, before.listenWay, r.listenWay, r.counters, Listening, cfg.listen.way)
      && Steps.WaySynced(redact, before.forwardWay, r.forwardWay, r.counters, Forwarding, cfg.forward.way)
      && Follows(s, r, before.counters, r.counters)
      && if r in s.ruleAt then before == s.ruleAt[r]
         else before == RuleView(cfg.name, r.count, [], [], map[], map[], 0) && NewMade(s, r.count, OfRule(r))
    }

    lemma SyncedIs(redact: Steps.Redact, s: State, r: Rule, before: RuleView, cfg: Config.Rule)
      requires Extends(s) && r in allRules && Synced(redact, s, r, before, cfg)
      ensures Steps.RuleSynced(redact, s, Now(), r, cfg)
    {
      hide Steps.WaySynced;
    }

    // The rule object of an entry: the registered one, or else a new one.
    method SyncEntry(redact: Steps.Redact, cfg: Config.Rule, ghost s: State)
      returns (entry: Rule, ghost before: RuleView)
      requires Extends(s) && allRules >= s.ruleAt.Keys
      requires cfg.name in rules ==>
                 rules[cfg.name] in s.ruleAt && s.ruleAt[rules[cfg.name]] == rules[cfg.name].View() &&
                   rules[cfg.name].name == cfg.name
      modifies this`allRules, this`allCounts, this`home, if cfg.name in rules then {rules[cfg.name]} else {}
      ensures Extends(s) && OnlyMade(old(allCounts), old(home), allCounts, home) && fresh(allCounts - old(allCounts))
      ensures allRules == old(allRules) + {entry}
      ensures (if cfg.name in rules then entry == rules[cfg.name] else fresh(entry) && entry !in s.ruleAt)
      ensures Synced(redact, s, entry, before, cfg) && Conns() == old(Conns())
    {
      hide Extends, Steps.WaySynced, OnlyMade, Follows, Registry.Conns;
      ghost var counts0, homes0 := allCounts, home;
      OnlyMadeMore(counts0, homes0, counts0, homes0, counts0, homes0);
      if cfg.name in rules {
        entry := rules[cfg.name];
      } else {
        entry := MakeRule(cfg.name, s);
      }
      before := entry.View();
      ghost var counts1, homes1 := allCounts, home;
      SyncWays(redact, entry, cfg, s);
      OnlyMadeMore(counts0, homes0, counts1, homes1, allCounts, home);
      assert entry !in s.ruleAt ==>
        NewMade(s, entry.count, OfRule(entry)) by { OnlyMadeKeeps(counts1, homes1, allCounts, home); }
      ConnsSame();
    }

    lemma ExtendsIs(s: State)
      requires Extends(s)
      ensures CountsExtend(s, Now())
    {
    }

    // One entry of a new configuration, as a step between states.
    method SyncNext(redact: Steps.Redact, cfg: Config.Rule, ghost s: State) returns (entry: Rule)
      requires Extends(s) && allRules >= s.ruleAt.Keys && rules == s.rules
      requires cfg.name in rules ==>
                 rules[cfg.name] in s.ruleAt && s.ruleAt[rules[cfg.name]] == rules[cfg.name].View() &&
                   rules[cfg.name].name == cfg.name
      modifies this`allRules, this`allCounts, this`home, if cfg.name in rules then {rules[cfg.name]} else {}
      ensures Extends(s) && NextSynced(redact, s, old(Now()), Now(), cfg, entry)
    {
      hide Extends, OnlyMade, Synced, Follows, Steps.RuleSynced, Registry.Rules, Registry.Counts, Registry.Conns;
      ghost var s1 := Now();
      SeenAll();
      ghost var before;
      entry, before := SyncObject(redact, cfg, s);
      SyncedIs(redact, s, entry, before, cfg);
      SeenAll();
    }

    method SyncObject(redact: Steps.Redact, cfg: Config.Rule, ghost s: State)
      returns (entry: Rule, ghost before: RuleView)
      requires Extends(s) && allRules >= s.ruleAt.Keys
      requires cfg.name in rules ==>
                 rules[cfg.name] in s.ruleAt && s.ruleAt[rules[cfg.name]] == rules[cfg.name].View() &&
                   rules[cfg.name].name == cfg.name
      modifies this`allRules, this`allCounts, this`home, if cfg.name in rules then {rules[cfg.name]} else {}
      ensures Extends(s) && OnlyMade(old(allCounts), old(home), allCounts, home)
      ensures allRules == old(allRules) + {entry}
      ensures (if cfg.name in rules then entry == rules[cfg.name] else fresh(entry) && entry !in s.ruleAt)
      ensures Synced(redact, s, entry, before, cfg)
      ensures Rules() == old(Rules())[entry := entry.View()] && Conns() == old(Conns())
    {
      hide Extends, OnlyMade, Synced, Follows, Registry.Counts, Registry.Conns, Registry.Now, Steps.RuleSynced;
      entry, before := SyncEntry(redact, cfg, s);
      RuleSet(entry);
    }

    // Every entry of a new configuration in turn gets its rule object.
    method SyncEach(redact: Steps.Redact, cfgs: seq<Config.Rule>, ghost s: State)
      returns (updated: map<string, Rule>, order: seq<string>)
      requires Steps.DistinctNames(cfgs) && s == Now() && Inv(s)
      modifies this`allRules, this`allCounts, this`home, rules.Values
      ensures EachSynced(redact, s, Now(), cfgs, updated) && Extends(s)
      ensures order == seq(|cfgs|, i requires 0 <= i < |cfgs| => cfgs[i].name)
    {
      hide Inv, Enumerates, EachSynced, Extends, NextSynced, Registry.Now, Registry.Rules, Registry.Counts,
        Registry.Conns;
      updated, order := map[], [];
      SyncStarts(redact, s);
      for i := 0 to |cfgs|
        invariant order == seq(i, j requires 0 <= j < i => cfgs[j].name)
        invariant EachSynced(redact, s, Now(), cfgs[..i], updated) && Extends(s) && rules == s.rules
      {
        ghost var s1 := Now();
        assert cfgs[..i + 1] == cfgs[..i] + [cfgs[i]];
        ReadyFor(redact, s, cfgs[..i], cfgs[i], updated);
        ExtendsIs(s);
        var entry := SyncNext(redact, cfgs[i], s);
        ExtendsIs(s);
        EachSyncedMore(redact, s, s1, Now(), cfgs[..i], cfgs[i], updated, entry);
        updated := updated[cfgs[i].name := entry];
        order := order + [cfgs[i].name];
      }
      assert cfgs[..|cfgs|] == cfgs;
    }

    lemma SyncStarts(redact: Steps.Redact, s: State)
      requires s == Now() && Inv(s)
      ensures EachSynced(redact, s, s, [], map[]) && Extends(s) && rules == s.rules
    {
      ShapeAndSane(s);
    }

    lemma ReadyFor(redact: Steps.Redact, s: State, cfgs: seq<Config.Rule>, cfg: Config.Rule, updated: map<string, Rule>)
      requires Inv(s) && EachSynced(redact, s, Now(), cfgs, updated) && rules == s.rules
      requires forall i :: 0 <= i < |cfgs| ==> cfgs[i].name != cfg.name
      ensures allRules >= s.ruleAt.Keys
      ensures cfg.name in rules ==>
                rules[cfg.name] in s.ruleAt && s.ruleAt[rules[cfg.name]] == rules[cfg.name].View() &&
                  rules[cfg.name].name == cfg.name
    {
      hide Inv, Enumerates, Steps.RuleSynced;
      NamesKnown(s);
      SeenAll();
      if cfg.name in rules {
        Seen(rules[cfg.name]);
      }
    }

    // A new configuration: rules of known names keep their objects, hops their peaks and URLs their
    // counters; tracked connections of other rule objects are dropped.
    method Sync(redact: Steps.Redact, cfgs: seq<Config.Rule>)
      requires Valid() && Steps.DistinctNames(cfgs)
      modifies this, rules.Values
      ensures Steps.Sync(redact, old(Now()), Now(), cfgs) && Valid()
    {
      hide Inv, Enumerates, EachSynced, Extends, CountsExtend, Steps.Sync, Pruned, Registry.Now, Registry.Rules,
        Registry.Counts, Registry.Conns;
      ghost var s := Now();
      var updated, names := SyncEach(redact, cfgs, s);
      ExtendsIs(s);
      ghost var s1 := Now();
      NamesKnown(s);
      EachSyncedIs(redact, s, s1, cfgs, updated);
      SeenAll();
      LiveSeen();
      var kept := PruneLive(live, updated);
      PrunedIs(s1, live, updated, kept);
      Install(updated, names, kept);
      SyncCompose(redact, s, s1, cfgs, updated, names, kept);
      KeepSync(redact, s, Now(), cfgs);
      Properties.SyncOrdered(redact, s, Now(), cfgs);
      OrderedSeen();
    }

    method Install(updated: map<string, Rule>, names: seq<string>, kept: map<nat, Live>)
      modifies this`rules, this`order, this`live
      ensures Now() == old(Now()).(rules := updated, order := names, live := kept)
    {
      rules, order, live := updated, names, kept;
      RulesSame();
      CountsSame();
      ConnsSame();
    }

    static method PruneLive(entries: map<nat, Live>, updated: map<string, Rule>) returns (kept: map<nat, Live>)
      ensures Pruned(entries, updated, kept)
    {
      kept := entries;
      var ids := entries.Keys;
      while ids != {}
        invariant ids <= entries.Keys
        invariant kept == map id | id in entries && (id in ids || Names(updated, entries[id].rule)) :: entries[id]
        decreases ids
      {
        var id :| id in ids;
        ids := ids - {id};
        var rule := entries[id].rule;
        if rule.name !in updated || updated[rule.name] != rule {
          kept := kept - {id};
        }
      }
    }
  }
}

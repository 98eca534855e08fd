/** Lazy hop registration and configuration syncs keep the invariants. */
module RegistryHops {
  import opened Sums
  import opened Counters
  import opened RegistryState
  import opened RegistrySteps
  import opened RegistryProofs
  import opened RegistryTargets

  // ------------------------------------------------------------------ a lazily registered hop URL

  // Besides the new counter, only the hops and hop counters of rule r change.
  lemma AddHopUrlIs(s: State, r: Rule, key: HopKey, c: Counter)
    requires r in s.ruleAt && c !in s.countAt
    ensures var s' := AddHopUrl(s, r, key, c);
            var v := s.ruleAt[r];
            && Made1(s, s', c, OfHop(r, key)) && s'.rules == s.rules && s'.live == s.live && s'.connAt == s.connAt
            && s'.nextId == s.nextId
            && var grown := v.WithWay(key.role, GrownWay(v.Way(key.role), key, c));
               s'.ruleAt == s.ruleAt[r := grown.(counters := v.counters[key := c])]
  {
  }

  // Hops past the end are empty.
  function HopAt(way: seq<Hop>, i: nat): Hop { if i < |way| then way[i] else Hop([], 0, 0) }

  lemma GrownHops(way: seq<Hop>, key: HopKey, c: Counter)
    ensures var grown := GrownWay(way, key, c);
            && |grown| == (if key.index < |way| then |way| else key.index + 1)
            && (forall i :: 0 <= i < |grown| && i != key.index ==> grown[i] == HopAt(way, i))
            && grown[key.index] == HopAt(way, key.index).(urls := HopAt(way, key.index).urls + [UrlCounter(key.url, c)])
  {
  }

  lemma GrownCounts(hop: Hop, url: string, c: Counter)
    ensures hop.(urls := hop.urls + [UrlCounter(url, c)]).Counts() == hop.Counts() + {c}
  {
    var grown := hop.(urls := hop.urls + [UrlCounter(url, c)]);
    assert forall i :: 0 <= i < |hop.urls| ==> grown.urls[i] == hop.urls[i];
    assert grown.urls[|hop.urls|].count == c;
  }

  lemma AddHopUrlSide(v: RuleView, v': RuleView, key: HopKey, c: Counter, role: Role)
    requires WayShape(v, role) && key !in v.counters
    requires v' == v.WithWay(key.role, GrownWay(v.Way(key.role), key, c)).(counters := v.counters[key := c])
    ensures WayShape(v', role)
  {
    AddHopUrlKeyed(v, v', key, c, role);
    AddHopUrlCounted(v, v', key, c, role);
    hide GrownWay, Hop.Counts, Keyed, RuleView.WithWay;
  }

  lemma AddHopUrlKeyed(v: RuleView, v': RuleView, key: HopKey, c: Counter, role: Role)
    requires WayShape(v, role) && key !in v.counters
    requires v' == v.WithWay(key.role, GrownWay(v.Way(key.role), key, c)).(counters := v.counters[key := c])
    ensures forall i, j :: 0 <= i < |v'.Way(role)| && 0 <= j < |v'.Way(role)[i].urls| ==>
              Keyed(v', HopKey(role, i, v'.Way(role)[i].urls[j].url), v'.Way(role)[i].urls[j].count)
  {
    GrownHops(v.Way(key.role), key, c);
    hide GrownWay;
    var way, way' := v.Way(role), v'.Way(role);
    forall i, j | 0 <= i < |way'| && 0 <= j < |way'[i].urls|
      ensures Keyed(v', HopKey(role, i, way'[i].urls[j].url), way'[i].urls[j].count)
    {
      if i < |way| && j < |way[i].urls| {
        assert Keyed(v, HopKey(role, i, way[i].urls[j].url), way[i].urls[j].count);
      }
    }
  }

  lemma AddHopUrlCounted(v: RuleView, v': RuleView, key: HopKey, c: Counter, role: Role)
    requires WayShape(v, role) && key !in v.counters
    requires v' == v.WithWay(key.role, GrownWay(v.Way(key.role), key, c)).(counters := v.counters[key := c])
    ensures forall k :: k in v'.counters && k.role == role ==>
              k.index < |v'.Way(role)| && v'.counters[k] in v'.Way(role)[k.index].Counts()
  {
    GrownHops(v.Way(key.role), key, c);
    hide GrownWay;
    var way, way' := v.Way(role), v'.Way(role);
    forall k | k in v'.counters && k.role == role ensures k.index < |way'| && v'.counters[k] in way'[k.index].Counts() {
      if k == key {
        GrownCounts(HopAt(way, key.index), key.url, c);
      } else {
        assert k.index < |way| && v.counters[k] in way[k.index].Counts();
        if k.index == key.index && role == key.role {
          GrownCounts(way[k.index], key.url, c);
        }
      }
    }
  }

  lemma AddHopUrlShape(s: State, s': State, r: Rule, v': RuleView, key: HopKey, c: Counter)
    requires r in s.ruleAt && RuleShape(s, r, s.ruleAt[r]) && key !in s.ruleAt[r].counters
    requires CountsKept(s, s') && HomesKept(s, s') && Made(s', c, OfHop(r, key))
    requires var v := s.ruleAt[r];
             v' == v.WithWay(key.role, GrownWay(v.Way(key.role), key, c)).(counters := v.counters[key := c])
    ensures RuleShape(s', r, v')
  {
    hide WayShape, GrownWay;
    AddHopUrlSide(s.ruleAt[r], v', key, c, Listening);
    AddHopUrlSide(s.ruleAt[r], v', key, c, Forwarding);
  }

  lemma AddHopUrlStructure(s: State, r: Rule, key: HopKey, c: Counter)
    requires Structure(s) && r in s.ruleAt && c !in s.countAt && key !in s.ruleAt[r].counters
    ensures Structure(AddHopUrl(s, r, key, c))
  {
    hide Tracked, Conns, RuleShape, AddHopUrl, Made1, GrownWay, Made, CountsKept, HomesKept, SameRates;
    var s' := AddHopUrl(s, r, key, c);
    AddHopUrlIs(s, r, key, c);
    MadeKeepsCounts(s, s', c, OfHop(r, key));
    assert RuleShape(s, r, s.ruleAt[r]);
    AddHopUrlShape(s, s', r, s'.ruleAt[r], key, c);
    ShapeKept(s, s');
    hide Shape;
    LiveLinks(s, s');
    TrackedKept(s, s');
    ConnsKept(s, s');
  }

  // A fresh counter adds nothing to a hop.
  lemma GrownPeaked(s: State, s': State, hop: Hop, url: string, c: Counter, h: Home, isUp: bool)
    requires HopPeaked(s, hop, isUp) && Made1(s, s', c, h)
    requires forall x :: x in hop.Counts() ==> x in s.countAt
    ensures HopPeaked(s', hop.(urls := hop.urls + [UrlCounter(url, c)]), isUp)
  {
    FreshSane(s.lastTick);
    GrownCounts(hop, url, c);
    SumSame(hop.Counts(), s.RateOf(isUp), s'.RateOf(isUp));
    SumAdd(hop.Counts(), s'.RateOf(isUp), c);
  }

  lemma EmptyPeaked(s: State, isUp: bool)
    ensures HopPeaked(s, Hop([], 0, 0), isUp)
  {
  }

  lemma AddHopUrlPeaked(s: State, r: Rule, key: HopKey, c: Counter)
    requires Shape(s) && r in s.ruleAt && c !in s.countAt && RulePeaked(s, s.ruleAt[r])
    ensures RulePeaked(AddHopUrl(s, r, key, c), AddHopUrl(s, r, key, c).ruleAt[r])
  {
    hide HopPeaked, AddHopUrl, GrownWay, Shape, CountsKept, HomesKept, SameRates, Made;
    var s' := AddHopUrl(s, r, key, c);
    AddHopUrlIs(s, r, key, c);
    var v, v' := s.ruleAt[r], s'.ruleAt[r];
    MadeKeepsCounts(s, s', c, OfHop(r, key));
    GrownHops(v.Way(key.role), key, c);
    forall role: Role, i, isUp: bool | 0 <= i < |v'.Way(role)| ensures HopPeaked(s', v'.Way(role)[i], isUp) {
      EmptyPeaked(s, isUp);
      EmptyPeaked(s', isUp);
      if i < |v.Way(role)| {
        assert WayPeaked(s, v.Way(role));
        assert HopPeaked(s, v.Way(role)[i], isUp);
        forall x | x in v.Way(role)[i].Counts() ensures x in s.countAt && x in s'.countAt {
          HopCountsExist(s, r, role, i, x);
        }
        HopPeakedKept(s, s', v.Way(role)[i], isUp);
      }
      if role == key.role && i == key.index {
        GrownPeaked(s, s', HopAt(v.Way(role), i), key.url, c, OfHop(r, key), isUp);
      }
    }
    assert v'.listenWay == v'.Way(Listening) && v'.forwardWay == v'.Way(Forwarding);
  }

  // Rules other than r keep their views; the peaks of r are shown separately.
  lemma PeakedAround(s: State, s': State, r: Rule)
    requires Shape(s) && Peaked(s) && CountsKept(s, s') && SameRates(s, s') && s'.rules == s.rules
    requires s'.ruleAt.Keys == s.ruleAt.Keys
    requires forall x :: x in s.ruleAt ==>
             s'.ruleAt[x].name == s.ruleAt[x].name && (x != r ==> s'.ruleAt[x] == s.ruleAt[x])
    requires r in s.ruleAt && s.Registered(r) ==> RulePeaked(s', s'.ruleAt[r])
    ensures Peaked(s')
  {
    hide RulePeaked, Shape, SameRates, CountsKept;
    forall x | x in s'.ruleAt && s'.Registered(x) ensures RulePeaked(s', s'.ruleAt[x]) {
      assert s.Registered(x);
      if x != r {
        RulePeakedKept(s, s', x);
      }
    }
  }

  lemma AddHopUrlWindow(s: State, r: Rule, key: HopKey, c: Counter)
    requires r in s.ruleAt && RuleShape(s, r, s.ruleAt[r]) && c !in s.countAt && RuleInWindow(s, s.ruleAt[r])
    ensures RuleInWindow(AddHopUrl(s, r, key, c), AddHopUrl(s, r, key, c).ruleAt[r])
  {
    hide AddHopUrl, GrownWay, WayShape;
    AddHopUrlIs(s, r, key, c);
  }

  lemma AddHopUrlWindows(s: State, r: Rule, key: HopKey, c: Counter)
    requires Windows(s) && Structure(s) && r in s.ruleAt && c !in s.countAt
    ensures Windows(AddHopUrl(s, r, key, c))
  {
    hide RuleShape, Tracked, Conns, Shape, Windows, RuleInWindow, AddHopUrl, Made1, GrownWay, CountsKept, HomesKept,
      SameRates, Made;
    var s' := AddHopUrl(s, r, key, c);
    RuleFacts(s, r);
    AddHopUrlIs(s, r, key, c);
    MadeKeepsCounts(s, s', c, OfHop(r, key));
    FreshCounts(s, s', c, OfHop(r, key));
    if s.Registered(r) {
      AddHopUrlWindow(s, r, key, c);
    }
    WindowsKept(s, s');
  }

  lemma KeepAddHopUrl(s: State, r: Rule, key: HopKey, c: Counter)
    requires Inv(s) && r in s.ruleAt && c !in s.countAt && key !in s.ruleAt[r].counters
    ensures Inv(AddHopUrl(s, r, key, c))
  {
    hide Shape, RuleShape, Tracked, Conns, Peaked, Counting, BytesCovered, AllSane, Windows, AddHopUrl, GrownWay,
      CountsKept, HomesKept, SameRates, Made, RulePeaked;
    var s' := AddHopUrl(s, r, key, c);
    AddHopUrlStructure(s, r, key, c);
    AddHopUrlIs(s, r, key, c);
    MadeKeepsCounts(s, s', c, OfHop(r, key));
    MadeCounting(s, s', c, OfHop(r, key));
    if s.Registered(r) {
      assert RulePeaked(s, s.ruleAt[r]) by { PeakedAt(s, r); }
      AddHopUrlPeaked(s, r, key, c);
    }
    PeakedAround(s, s', r);
    AddHopUrlWindows(s, r, key, c);
    FreshBytes(s, s', c, OfHop(r, key));
    LiveLinks(s, s');
    BytesKept(s, s');
  }

  lemma PeakedAt(s: State, r: Rule)
    requires Peaked(s) && r in s.ruleAt && s.Registered(r)
    ensures RulePeaked(s, s.ruleAt[r])
  {
  }

  lemma FreshBytes(s: State, s': State, c: Counter, h: Home)
    requires Made1(s, s', c, h)
    ensures forall x, isUp: bool :: x in s.countAt ==> s'.countAt[x].Bytes(isUp) == s.countAt[x].Bytes(isUp)
    ensures forall x, isUp: bool :: x in s'.countAt && x !in s.countAt ==> s'.countAt[x].Bytes(isUp) == 0
  {
  }
}

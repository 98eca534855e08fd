/** The retained peak of a hop is the highest rate its ticks have shown, no more and no less. */
module RegistryPeaks {
  import opened Text
  import opened Sums
  import opened Counters
  import opened RegistryState
  import opened RegistrySteps
  import opened RegistryProofs
  import opened RegistryClock
  import opened RegistrySync
  import opened RegistryRuns
  import opened RegistryProperties
  import Config

  // A registered rule has a hop at that position of its way.
  ghost predicate Has(s: State, r: Rule, role: Role, i: nat) {
    r in s.ruleAt && s.Registered(r) && i < |s.ruleAt[r].Way(role)|
  }

  ghost function HopAt(s: State, r: Rule, role: Role, i: nat): Hop
    requires Has(s, r, role, i)
  {
    s.ruleAt[r].Way(role)[i]
  }

  // Step m is a tick after which the hop at that position has been there up to state j, with no reset
  // in between.
  ghost predicate Counts(states: seq<State>, actions: seq<Action>, m: int, j: nat, r: Rule, role: Role, i: nat)
    requires |states| == |actions| + 1 && j < |states|
  {
    && 0 <= m < j && actions[m].Ticking? && (forall q :: m < q < j ==> !actions[q].Resetting?)
    && forall q :: m < q <= j ==> Has(states[q], r, role, i)
  }

  // ------------------------------------------------------------------ one step

  // Only a tick raises a peak, to the rate it shows; a reset clears it, and nothing else touches it for as
  // long as the hop is there. A hop that appears starts at zero.
  ghost predicate Follows(s: State, a: Action, s': State, r: Rule, role: Role, i: nat, isUp: bool)
    requires Has(s', r, role, i)
  {
    var hop := HopAt(s', r, role, i);
    if a.Resetting? then hop.Peak(isUp) == 0
    else if !Has(s, r, role, i) then hop.Peak(isUp) == 0 && !a.Ticking?
    else if a.Ticking? then hop.Peak(isUp) == Max(HopAt(s, r, role, i).Peak(isUp), s'.HopRate(hop, isUp))
    else hop.Peak(isUp) == HopAt(s, r, role, i).Peak(isUp)
  }

  lemma TickFollows(s: State, at: Time, r: Rule, role: Role, i: nat, isUp: bool)
    requires Has(Tick(s, at), r, role, i)
    ensures Follows(s, Ticking(at), Tick(s, at), r, role, i, isUp)
  {
    hide Tick, State.RateOf, PeakedHop;
    var s', s1 := Tick(s, at), s.(lastTick := at, countAt := TickedCounts(s, at));
    TickIs(s, at);
    assert s.Registered(r) by { TickNames(s, at, r); }
    var before := s.ruleAt[r].Way(role)[i];
    assert HopAt(s', r, role, i) == PeakedHop(s1, before);
    PeakedHopIs(s1, s', before, isUp);
  }

  lemma TickNames(s: State, at: Time, r: Rule)
    requires r in s.ruleAt
    ensures r in Tick(s, at).ruleAt && (Tick(s, at).Registered(r) <==> s.Registered(r))
  {
  }

  lemma PeakedHopIs(s1: State, s': State, hop: Hop, isUp: bool)
    requires s'.countAt == s1.countAt
    ensures var raised := PeakedHop(s1, hop); raised.Peak(isUp) == Max(hop.Peak(isUp), s'.HopRate(raised, isUp))
  {
    assert PeakedHop(s1, hop).Counts() == hop.Counts();
    SumSame(hop.Counts(), s1.RateOf(isUp), s'.RateOf(isUp));
  }

  lemma ResetFollows(s: State, at: Time, r: Rule, role: Role, i: nat, isUp: bool)
    requires Has(Reset(s, at), r, role, i)
    ensures Follows(s, Resetting(at), Reset(s, at), r, role, i, isUp)
  {
    hide Reset, State.Visible;
    ResetIs(s, at);
    assert s.Registered(r);
  }

  lemma SyncFollows(redact: Redact, s: State, s': State, cfgs: seq<Config.Rule>, r: Rule, role: Role, i: nat,
                    isUp: bool)
    requires Sync(redact, s, s', cfgs) && Shape(s) && Has(s', r, role, i)
    ensures Follows(s, Syncing(cfgs), s', r, role, i, isUp)
  {
    hide Sync, RuleShape;
    var n := s'.ruleAt[r].name;
    var k := SyncedFrom(redact, s, s', cfgs, n);
    hide Shape;
  }

  lemma WrapFollows(s: State, r0: Rule, key: HopKey, c: Counter, r: Rule, role: Role, i: nat, isUp: bool)
    requires r0 in s.ruleAt && Has(AddHopUrl(s, r0, key, c), r, role, i)
    ensures Follows(s, Wrapping(r0, key, c), AddHopUrl(s, r0, key, c), r, role, i, isUp)
  {
  }

  lemma SameWaysFollows(s: State, a: Action, s': State, r: Rule, role: Role, i: nat, isUp: bool)
    requires SameWays(s, s') && Has(s', r, role, i) && !a.Ticking? && !a.Resetting?
    ensures Follows(s, a, s', r, role, i, isUp)
  {
  }

  lemma StepFollows(redact: Redact, s: State, a: Action, s': State, r: Rule, role: Role, i: nat, isUp: bool)
    requires Inv(s) && Next(redact, s, a, s') && Has(s', r, role, i)
    ensures Follows(s, a, s', r, role, i, isUp)
  {
    hide Inv, Sync, RuleDial, Tick, Reset, Record, AddHopUrl, Follows, Has, SameWays;
    match a {
      case Syncing(cfgs) => assert Shape(s) by { ShapeAndSane(s); } SyncFollows(redact, s, s', cfgs, r, role, i, isUp);
      case Ticking(at) => TickFollows(s, at, r, role, i, isUp);
      case Resetting(at) => ResetFollows(s, at, r, role, i, isUp);
      case Wrapping(r0, key, c) =>
        if s' == s {
          NothingFollows(s, a, s', r, role, i, isUp);
        } else {
          WrapFollows(s, r0, key, c, r, role, i, isUp);
        }
      case RuleDialing(d) => RuleDialLive(s, s', d); SameWaysFollows(s, a, s', r, role, i, isUp);
      case Recording(k, size, read, at) =>
        RecordNames(s, k, size, read, at);
        NothingFollows(s, a, s', r, role, i, isUp);
      case _ => NothingFollows(s, a, s', r, role, i, isUp);
    }
  }

  lemma NothingFollows(s: State, a: Action, s': State, r: Rule, role: Role, i: nat, isUp: bool)
    requires s'.rules == s.rules && s'.ruleAt == s.ruleAt && Has(s', r, role, i) && !a.Ticking? && !a.Resetting?
    ensures Follows(s, a, s', r, role, i, isUp)
  {
  }

  // ------------------------------------------------------------------ whole runs

  // The rate a tick showed for the hop at that position.
  ghost function ShownBy(states: seq<State>, actions: seq<Action>, m: int, j: nat, r: Rule, role: Role, i: nat,
                         isUp: bool): int
    requires |states| == |actions| + 1 && j < |states| && Counts(states, actions, m, j, r, role, i)
  {
    states[m + 1].HopRate(HopAt(states[m + 1], r, role, i), isUp)
  }

  ghost predicate Highest(states: seq<State>, actions: seq<Action>, j: nat, r: Rule, role: Role, i: nat, isUp: bool)
    requires |states| == |actions| + 1 && j < |states| && Has(states[j], r, role, i)
  {
    var peak := HopAt(states[j], r, role, i).Peak(isUp);
    && (forall m :: Counts(states, actions, m, j, r, role, i) ==>
          ShownBy(states, actions, m, j, r, role, i, isUp) <= peak)
    && (peak == 0 || exists m :: Counts(states, actions, m, j, r, role, i)
                                 && ShownBy(states, actions, m, j, r, role, i, isUp) == peak)
  }

  // In every state of every run the retained peak of a hop is at least the rate each tick has shown since
  // the last reset, for as long as the hop has been at its place, and it is one of these rates, or zero.
  lemma {:induction false} PeakIsHighest(redact: Redact, states: seq<State>, actions: seq<Action>, j: nat, r: Rule,
        role: Role, i: nat, isUp: bool)
    requires Run(redact, states, actions) && j < |states| && Has(states[j], r, role, i)
    ensures Highest(states, actions, j, r, role, i, isUp)
  {
    hide Inv, Next, Initial, HopAt, Follows, Highest;
    if j == 0 {
      var now :| states[0] == Initial(now);
      InitialHasNone(now, r, role, i);
      assert false;
    } else {
      assert Steps(redact, states, actions, j - 1);
      InvAlways(redact, states, actions, j - 1);
      StepFollows(redact, states[j - 1], actions[j - 1], states[j], r, role, i, isUp);
      if Has(states[j - 1], r, role, i) {
        PeakIsHighest(redact, states, actions, j - 1, r, role, i, isUp);
        HighestKept(states, actions, j, r, role, i, isUp);
      } else {
        HighestStarts(states, actions, j, r, role, i, isUp);
      }
    }
  }

  lemma InitialHasNone(now: Time, r: Rule, role: Role, i: nat)
    ensures !Has(Initial(now), r, role, i)
  {
  }

  lemma HighestStarts(states: seq<State>, actions: seq<Action>, j: nat, r: Rule, role: Role, i: nat, isUp: bool)
    requires |states| == |actions| + 1 && 0 < j < |states| && Has(states[j], r, role, i)
    requires !Has(states[j - 1], r, role, i) && Follows(states[j - 1], actions[j - 1], states[j], r, role, i, isUp)
    ensures Highest(states, actions, j, r, role, i, isUp)
  {
    hide State.HopRate, HopAt, Has;
    forall m ensures !Counts(states, actions, m, j, r, role, i) {
      assert 0 <= m < j - 1 ==> m < j - 1 <= j;
    }
  }

  lemma HighestKept(states: seq<State>, actions: seq<Action>, j: nat, r: Rule, role: Role, i: nat, isUp: bool)
    requires |states| == |actions| + 1 && 0 < j < |states|
    requires Has(states[j], r, role, i) && Has(states[j - 1], r, role, i)
    requires Highest(states, actions, j - 1, r, role, i, isUp)
    requires Follows(states[j - 1], actions[j - 1], states[j], r, role, i, isUp)
    ensures Highest(states, actions, j, r, role, i, isUp)
  {
    hide State.HopRate, HopAt, Has;
    forall m
      ensures Counts(states, actions, m, j, r, role, i) <==>
              if m == j - 1 then actions[j - 1].Ticking?
              else Counts(states, actions, m, j - 1, r, role, i) && !actions[j - 1].Resetting?
    {
      CountsMore(states, actions, m, j, r, role, i);
    }
    var before, peak := HopAt(states[j - 1], r, role, i).Peak(isUp), HopAt(states[j], r, role, i).Peak(isUp);
    hide Counts;
    forall m | Counts(states, actions, m, j, r, role, i)
      ensures ShownBy(states, actions, m, j, r, role, i, isUp) <= peak
    {
      if m != j - 1 {
        assert ShownBy(states, actions, m, j - 1, r, role, i, isUp) <= before;
      }
    }
    if peak != 0 {
      if actions[j - 1].Ticking? && peak != before {
        assert ShownBy(states, actions, j - 1, j, r, role, i, isUp) == peak;
      } else {
        var m :| Counts(states, actions, m, j - 1, r, role, i)
                 && ShownBy(states, actions, m, j - 1, r, role, i, isUp) == before;
        assert Counts(states, actions, m, j, r, role, i);
        assert ShownBy(states, actions, m, j, r, role, i, isUp) == peak;
      }
    }
  }

  lemma CountsMore(states: seq<State>, actions: seq<Action>, m: int, j: nat, r: Rule, role: Role, i: nat)
    requires |states| == |actions| + 1 && 0 < j < |states|
    requires Has(states[j], r, role, i) && Has(states[j - 1], r, role, i)
    ensures Counts(states, actions, m, j, r, role, i) <==>
            if m == j - 1 then actions[j - 1].Ticking?
            else Counts(states, actions, m, j - 1, r, role, i) && !actions[j - 1].Resetting?
  {
    hide Has;
  }
}

/** What a snapshot shows of one counter, and of several counters together. */
module Aggregates {
  import opened Text
  import opened Sums
  import opened Counters

  // Latencies are in nanoseconds; a time that is not known yet is not shown.
  datatype Stats = Stats(
    up: int, down: int, rateUp: int, rateDown: int, peakUp: int, peakDown: int,
    active: int, total: int, dials: int, dialFailures: int,
    latency: int, average: real, lastActive: Option<int>, lastUp: Option<int>, lastDown: Option<int>)

  function Mean(sum: int, count: int): real
    requires count > 0
  {
    sum as real / count as real
  }

  datatype Snap = Snap(stats: Stats, lastDial: int, lastActive: int, lastUp: int, lastDown: int, latencySum: int)
  {
    function Finished(): Snap {
      var successes := stats.dials - stats.dialFailures;
      this.(stats := stats.(
              average := if successes > 0 then Mean(latencySum, successes) else stats.average,
              lastActive := if lastActive != 0 then Some(lastActive) else stats.lastActive,
              lastUp := if lastUp != 0 then Some(lastUp) else stats.lastUp,
              lastDown := if lastDown != 0 then Some(lastDown) else stats.lastDown))
    }

    function Plus(other: Snap): Snap {
      Snap(Stats(stats.up + other.stats.up, stats.down + other.stats.down,
                 stats.rateUp + other.stats.rateUp, stats.rateDown + other.stats.rateDown,
                 stats.peakUp + other.stats.peakUp, stats.peakDown + other.stats.peakDown,
                 stats.active + other.stats.active, stats.total + other.stats.total,
                 stats.dials + other.stats.dials, stats.dialFailures + other.stats.dialFailures,
                 if other.lastDial > lastDial then other.stats.latency else stats.latency,
                 stats.average, stats.lastActive, stats.lastUp, stats.lastDown),
           Max(lastDial, other.lastDial), Max(lastActive, other.lastActive), Max(lastUp, other.lastUp),
             Max(lastDown, other.lastDown),
           latencySum + other.latencySum).Finished()
    }
  }

  const NOTHING := Snap(Stats(0, 0, 0, 0, 0, 0, 0, 0, 0, 0, 0, 0.0, None, None, None), 0, 0, 0, 0, 0)

  function Of(v: CounterView): Snap {
    Snap(Stats(v.up, v.down, v.rateUp, v.rateDown, v.peakUp, v.peakDown, v.active, v.total, v.dials, v.dialFailures,
               v.latency, 0.0, None, None, None),
         v.lastDial, v.lastActive, v.lastUp, v.lastDown, v.latencySum).Finished()
  }

  // The counters vs added one after the other.
  function Together(vs: seq<CounterView>): Snap {
    if vs == [] then NOTHING else Together(vs[..|vs| - 1]).Plus(Of(vs[|vs| - 1]))
  }

  // ------------------------------------------------------------------ the objects

  class CounterSnapshot {
    var stats: Stats
    var lastDial: int
    var lastActive: int
    var lastUp: int
    var lastDown: int
    var latencySum: int

    function Value(): Snap
      reads this
    {
      Snap(stats, lastDial, lastActive, lastUp, lastDown, latencySum)
    }

    constructor ()
      ensures Value() == NOTHING
    {
      stats, lastDial, lastActive, lastUp, lastDown, latencySum := NOTHING.stats, 0, 0, 0, 0, 0;
    }

    constructor Take(c: Counter)
      ensures Value() == Of(c.View())
    {
      stats :=
        Stats(c.up, c.down, c.rateUp, c.rateDown, c.peakUp, c.peakDown, c.active, c.total, c.dials, c.dialFailures,
              c.latency, 0.0, None, None, None);
      lastDial, lastActive, lastUp, lastDown, latencySum :=
        c.lastDial, c.lastActive, c.lastUp, c.lastDown, c.latencySum;
      new;
      Finish();
    }

    method Finish()
      modifies this`stats
      ensures Value() == old(Value()).Finished()
    {
      var successes := stats.dials - stats.dialFailures;
      if successes > 0 {
        stats := stats.(average := Mean(latencySum, successes));
      }
      if lastActive != 0 {
        stats := stats.(lastActive := Some(lastActive));
      }
      if lastUp != 0 {
        stats := stats.(lastUp := Some(lastUp));
      }
      if lastDown != 0 {
        stats := stats.(lastDown := Some(lastDown));
      }
    }

    method Add(other: CounterSnapshot)
      requires other != this
      modifies this
      ensures Value() == old(Value()).Plus(other.Value())
    {
      stats := stats.(up := stats.up + other.stats.up, down := stats.down + other.stats.down,
                      rateUp := stats.rateUp + other.stats.rateUp, rateDown := stats.rateDown + other.stats.rateDown,
                      peakUp := stats.peakUp + other.stats.peakUp, peakDown := stats.peakDown + other.stats.peakDown,
                      active := stats.active + other.stats.active, total := stats.total + other.stats.total,
                      dials := stats.dials + other.stats.dials,
                      dialFailures := stats.dialFailures + other.stats.dialFailures);
      latencySum := latencySum + other.latencySum;
      if other.lastDial > lastDial {
        lastDial := other.lastDial;
        stats := stats.(latency := other.stats.latency);
      }
      if other.lastActive > lastActive {
        lastActive := other.lastActive;
      }
      if other.lastUp > lastUp {
        lastUp := other.lastUp;
      }
      if other.lastDown > lastDown {
        lastDown := other.lastDown;
      }
      Finish();
    }
  }

  // ------------------------------------------------------------------ what adding counters up means

  datatype Total = Up | Down | RateUp | RateDown | PeakUp | PeakDown | Active | Opened | Dials | DialFailures
    | LatencySum
  datatype Moment = Dialed | Active | MovedUp | MovedDown

  function TotalOf(s: Snap, t: Total): int {
    match t
    case Up => s.stats.up
    case Down => s.stats.down
    case RateUp => s.stats.rateUp
    case RateDown => s.stats.rateDown
    case PeakUp => s.stats.peakUp
    case PeakDown => s.stats.peakDown
    case Active => s.stats.active
    case Opened => s.stats.total
    case Dials => s.stats.dials
    case DialFailures => s.stats.dialFailures
    case LatencySum => s.latencySum
  }

  function Measure(v: CounterView, t: Total): int {
    match t
    case Up => v.up
    case Down => v.down
    case RateUp => v.rateUp
    case RateDown => v.rateDown
    case PeakUp => v.peakUp
    case PeakDown => v.peakDown
    case Active => v.active
    case Opened => v.total
    case Dials => v.dials
    case DialFailures => v.dialFailures
    case LatencySum => v.latencySum
  }

  function MomentOf(s: Snap, m: Moment): int {
    match m
    case Dialed => s.lastDial
    case Active => s.lastActive
    case MovedUp => s.lastUp
    case MovedDown => s.lastDown
  }

  function Seen(v: CounterView, m: Moment): int {
    match m
    case Dialed => v.lastDial
    case Active => v.lastActive
    case MovedUp => v.lastUp
    case MovedDown => v.lastDown
  }

  // Totals of an aggregate are the sums over its counters.
  lemma {:induction false} TotalsAdd(vs: seq<CounterView>, t: Total)
    ensures TotalOf(Together(vs), t) == SumSeq(vs, v => Measure(v, t))
  {
    if vs != [] {
      TotalsAdd(vs[..|vs| - 1], t);
    }
  }

  predicate Latest(vs: seq<CounterView>, m: Moment, at: int) {
    && at >= 0 && (forall v :: v in vs ==> Seen(v, m) <= at)
    && (at == 0 || exists v :: v in vs && Seen(v, m) == at)
  }

  // Last times of an aggregate are the latest of its counters.
  lemma {:induction false} MomentsAreLatest(vs: seq<CounterView>, m: Moment)
    ensures Latest(vs, m, MomentOf(Together(vs), m))
  {
    if vs != [] {
      var last := |vs| - 1;
      MomentsAreLatest(vs[..last], m);
      assert vs == vs[..last] + [vs[last]];
      assert vs[last] in vs;
    }
  }

  function Shown(at: int): Option<int> { if at != 0 then Some(at) else None }

  predicate Plausible(vs: seq<CounterView>) {
    forall v :: v in vs ==> v.Sane()
  }

  // The average latency is the time of all successful dials over their number; times are shown when known.
  predicate Settled(s: Snap) {
    var successes := s.stats.dials - s.stats.dialFailures;
    && successes >= 0
    && (if successes == 0 then s.stats.average == 0.0
        else s.stats.average * (successes as real) == s.latencySum as real)
    && s.stats.lastActive == Shown(s.lastActive) && s.stats.lastUp == Shown(s.lastUp)
    && s.stats.lastDown == Shown(s.lastDown)
  }

  lemma MeanTimes(sum: int, count: int)
    requires count > 0
    ensures Mean(sum, count) * (count as real) == sum as real
  {
  }

  lemma {:induction false} AverageAndTimes(vs: seq<CounterView>)
    requires Plausible(vs)
    ensures Settled(Together(vs))
  {
    hide Mean;
    if vs != [] {
      var last := |vs| - 1;
      assert vs == vs[..last] + [vs[last]];
      AverageAndTimes(vs[..last]);
      forall m: Moment ensures MomentOf(Together(vs[..last]), m) >= 0 {
        MomentsAreLatest(vs[..last], m);
      }
      var before := Together(vs[..last]);
      assert MomentOf(before, Moment.Active) >= 0 && MomentOf(before, MovedUp) >= 0 && MomentOf(before, MovedDown) >= 0;
      assert vs[last] in vs;
      var all := Together(vs);
      if all.stats.dials != all.stats.dialFailures {
        MeanTimes(all.latencySum, all.stats.dials - all.stats.dialFailures);
      }
    }
  }

  // ------------------------------------------------------------------ the order does not matter, with one exception

  lemma {:induction false} SumSeqWithout<T>(xs: seq<T>, f: T -> int, i: nat)
    requires i < |xs|
    ensures SumSeq(xs, f) == f(xs[i]) + SumSeq(xs[..i] + xs[i + 1..], f)
  {
    var last := |xs| - 1;
    if i == last {
      assert xs[..i] + xs[i + 1..] == xs[..last];
    } else {
      SumSeqWithout(xs[..last], f, i);
      var rest := xs[..i] + xs[i + 1..];
      assert rest[..|rest| - 1] == xs[..last][..i] + xs[..last][i + 1..];
    }
  }

  lemma TakenOut<T>(xs: seq<T>, i: nat)
    requires i < |xs|
    ensures multiset(xs) == multiset(xs[..i] + xs[i + 1..]) + multiset{xs[i]}
  {
    assert xs == xs[..i] + [xs[i]] + xs[i + 1..];
  }

  lemma Cancel<T>(a: multiset<T>, b: multiset<T>, x: T)
    requires a + multiset{x} == b + multiset{x}
    ensures a == b
  {
    assert a == a + multiset{x} - multiset{x};
    assert b == b + multiset{x} - multiset{x};
  }

  lemma {:induction false} SumSeqPermuted<T>(xs: seq<T>, ys: seq<T>, f: T -> int)
    requires multiset(xs) == multiset(ys)
    ensures SumSeq(xs, f) == SumSeq(ys, f)
    decreases |xs|
  {
    if xs == [] {
      assert |multiset(ys)| == 0;
    } else {
      var last := |xs| - 1;
      assert xs[last] in multiset(ys);
      var i :| 0 <= i < |ys| && ys[i] == xs[last];
      TakenOut(xs, last);
      assert xs[..last] + xs[last + 1..] == xs[..last];
      TakenOut(ys, i);
      Cancel(multiset(xs[..last]), multiset(ys[..i] + ys[i + 1..]), xs[last]);
      SumSeqPermuted(xs[..last], ys[..i] + ys[i + 1..], f);
      SumSeqWithout(ys, f, i);
    }
  }

  lemma SameMembers<T>(xs: seq<T>, ys: seq<T>)
    requires multiset(xs) == multiset(ys)
    ensures forall x :: x in xs <==> x in ys
  {
    forall x ensures x in xs <==> x in ys {
      assert x in multiset(xs) <==> x in multiset(ys);
    }
  }

  lemma SameTotals(vs: seq<CounterView>, ws: seq<CounterView>)
    requires multiset(vs) == multiset(ws)
    ensures forall t: Total :: TotalOf(Together(vs), t) == TotalOf(Together(ws), t)
  {
    hide Together, TotalOf, Measure;
    forall t: Total ensures TotalOf(Together(vs), t) == TotalOf(Together(ws), t) {
      TotalsAdd(vs, t);
      TotalsAdd(ws, t);
      SumSeqPermuted(vs, ws, v => Measure(v, t));
    }
  }

  lemma SameMoments(vs: seq<CounterView>, ws: seq<CounterView>)
    requires multiset(vs) == multiset(ws)
    ensures forall m: Moment :: MomentOf(Together(vs), m) == MomentOf(Together(ws), m)
  {
    hide Together, MomentOf, Seen;
    SameMembers(vs, ws);
    forall m: Moment ensures MomentOf(Together(vs), m) == MomentOf(Together(ws), m) {
      MomentsAreLatest(vs, m);
      MomentsAreLatest(ws, m);
    }
  }

  // In whatever order counters are listed, an aggregate differs in its latest latency at most.
  lemma OrderMattersOnlyToLatency(vs: seq<CounterView>, ws: seq<CounterView>)
    requires Plausible(vs) && multiset(vs) == multiset(ws)
    ensures Together(ws) == Together(vs).(stats := Together(vs).stats.(latency := Together(ws).stats.latency))
  {
    hide TotalOf, MomentOf, Together, Settled;
    SameTotals(vs, ws);
    SameMoments(vs, ws);
    assert Plausible(ws) by { SameMembers(vs, ws); }
    AverageAndTimes(vs);
    AverageAndTimes(ws);
    SameParts(Together(vs), Together(ws));
  }

  lemma SameParts(a: Snap, b: Snap)
    requires forall t: Total :: TotalOf(a, t) == TotalOf(b, t)
    requires forall m: Moment :: MomentOf(a, m) == MomentOf(b, m)
    requires Settled(a) && Settled(b)
    ensures b == a.(stats := a.stats.(latency := b.stats.latency))
  {
    assert TotalOf(a, Up) == TotalOf(b, Up) && TotalOf(a, Down) == TotalOf(b, Down);
    assert TotalOf(a, RateUp) == TotalOf(b, RateUp) && TotalOf(a, RateDown) == TotalOf(b, RateDown);
    assert TotalOf(a, PeakUp) == TotalOf(b, PeakUp) && TotalOf(a, PeakDown) == TotalOf(b, PeakDown);
    assert TotalOf(a, Total.Active) == TotalOf(b, Total.Active) && TotalOf(a, Opened) == TotalOf(b, Opened);
    assert TotalOf(a, Total.Dials) == TotalOf(b, Total.Dials) && TotalOf(a, DialFailures) == TotalOf(b, DialFailures);
    assert TotalOf(a, LatencySum) == TotalOf(b, LatencySum);
    assert MomentOf(a, Dialed) == MomentOf(b, Dialed) && MomentOf(a, Moment.Active) == MomentOf(b, Moment.Active);
    assert MomentOf(a, MovedUp) == MomentOf(b, MovedUp) && MomentOf(a, MovedDown) == MomentOf(b, MovedDown);
  }

  // The latest latency is that of the first listed counter dialed last; none dialed shows none.
  lemma {:induction false} LatencyIsFirstLatest(vs: seq<CounterView>)
    ensures var s := Together(vs);
            if s.lastDial == 0 then s.stats.latency == 0
            else exists i :: 0 <= i < |vs| && vs[i].lastDial == s.lastDial && s.stats.latency == vs[i].latency
                          && forall j :: 0 <= j < i ==> vs[j].lastDial < s.lastDial
  {
    if vs != [] {
      var last := |vs| - 1;
      LatencyIsFirstLatest(vs[..last]);
      MomentsAreLatest(vs[..last], Dialed);
      var before, s := Together(vs[..last]), Together(vs);
      if vs[last].lastDial > before.lastDial {
        assert s.lastDial == vs[last].lastDial && s.stats.latency == vs[last].latency;
        forall j | 0 <= j < last ensures vs[j].lastDial < s.lastDial {
          assert vs[..last][j] in vs[..last] && Seen(vs[j], Dialed) <= before.lastDial;
        }
      } else if before.lastDial != 0 {
        var i :| 0 <= i < last && vs[..last][i].lastDial == before.lastDial &&
          before.stats.latency == vs[..last][i].latency
                 && forall j :: 0 <= j < i ==> vs[..last][j].lastDial < before.lastDial;
        assert forall j :: 0 <= j < i ==> vs[j] == vs[..last][j];
        assert vs[i].lastDial == s.lastDial;
      }
    }
  }

  // No listed counter was dialed later.
  predicate DialedLast(vs: seq<CounterView>, v: CounterView) {
    v in vs && v.lastDial != 0 && forall u :: u in vs ==> u.lastDial <= v.lastDial
  }

  // All counters dialed last agree on how long that took.
  ghost predicate LatestAgree(vs: seq<CounterView>) {
    forall v, w :: DialedLast(vs, v) && DialedLast(vs, w) ==> v.latency == w.latency
  }

  lemma DialedLastIs(vs: seq<CounterView>, v: CounterView)
    requires Plausible(vs)
    ensures DialedLast(vs, v) <==> v in vs && v.lastDial == Together(vs).lastDial != 0
  {
    hide Together;
    MomentsAreLatest(vs, Dialed);
    assert forall u :: u in vs ==> Seen(u, Dialed) == u.lastDial;
  }

  // The latest latency does not depend on the order either, exactly if there is no tie between different latencies.
  lemma LatencyIndependentOfOrder(vs: seq<CounterView>)
    requires Plausible(vs)
    ensures LatestAgree(vs) <==>
            forall ws: seq<CounterView> :: multiset(ws) == multiset(vs) ==> Together(ws) == Together(vs)
  {
    forall v ensures DialedLast(vs, v) <==> v in vs && v.lastDial == Together(vs).lastDial != 0 {
      DialedLastIs(vs, v);
    }
    if LatestAgree(vs) {
      forall ws: seq<CounterView> | multiset(ws) == multiset(vs) ensures Together(ws) == Together(vs) {
        OrderMattersOnlyToLatency(vs, ws);
        SameMembers(vs, ws);
        LatencyIsFirstLatest(vs);
        LatencyIsFirstLatest(ws);
      }
    } else {
      var v, w :| DialedLast(vs, v) && DialedLast(vs, w) && v.latency != w.latency;
      PutFirst(vs, v);
      PutFirst(vs, w);
    }
  }

  lemma FirstDecides(ws: seq<CounterView>)
    requires ws != [] && ws[0].lastDial == Together(ws).lastDial != 0
    ensures Together(ws).stats.latency == ws[0].latency
  {
    hide Together;
    LatencyIsFirstLatest(ws);
  }

  // Of two counters dialed once, at one instant, the one listed first shows its latency: swapping them
  // changes what is shown exactly if the dials took different times.
  lemma TieShowsOrder(at: Time, a: int, b: int)
    requires at > 0
    ensures var v, w := Fresh(0).Dialed(a, at, false), Fresh(0).Dialed(b, at, false);
            && Together([v, w]).stats.latency == a && Together([w, v]).stats.latency == b
            && (LatestAgree([v, w]) <==> a == b)
  {
    hide Together;
    var v, w := Fresh(0).Dialed(a, at, false), Fresh(0).Dialed(b, at, false);
    assert v.lastDial == w.lastDial == at && v.latency == a && w.latency == b;
    assert DialedLast([v, w], v) && DialedLast([v, w], w) && DialedLast([w, v], w);
    DialedLastIs([v, w], v);
    DialedLastIs([w, v], w);
    FirstDecides([v, w]);
    FirstDecides([w, v]);
  }

  // Listed first, a counter dialed last decides the latest latency.
  lemma PutFirst(vs: seq<CounterView>, v: CounterView)
    requires Plausible(vs) && v in vs && v.lastDial == Together(vs).lastDial != 0
    ensures exists ws: seq<CounterView> :: multiset(ws) == multiset(vs) && Together(ws).stats.latency == v.latency
  {
    var i :| 0 <= i < |vs| && vs[i] == v;
    var ws := [v] + (vs[..i] + vs[i + 1..]);
    TakenOut(vs, i);
    assert multiset(ws) == multiset(vs);
    hide Together;
    OrderMattersOnlyToLatency(vs, ws);
    FirstDecides(ws);
  }
}

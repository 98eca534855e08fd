/** One traffic counter: what every event does to it. */
module Counters {

  // Nanoseconds since the Unix epoch.
  type Time = int

  const SECOND := 1_000_000_000
  // time.Time{}, the first instant of year 1.
  const ZERO_TIME: Time := -62_135_596_800 * SECOND

  function Max(a: int, b: int): int { if a < b then b else a }

  // Conversion to int64 truncates toward zero.
  function Trunc(a: int, b: int): int
    requires b > 0
  {
    if a >= 0 then a / b else -((-a) / b)
  }

  function PerSecond(bytes: int, elapsed: int): int
    requires elapsed > 0
  {
    Trunc(bytes * SECOND, elapsed)
  }

  datatype CounterView = CounterView(
    generation: nat,
    up: int, down: int, rateUp: int, rateDown: int, peakUp: int, peakDown: int,
    active: int, total: int, dials: int, dialFailures: int, latency: int, latencySum: int,
    lastDial: int, lastActive: int, lastUp: int, lastDown: int,
    prevUp: int, prevDown: int, prevAt: Time)
  {
    function Bytes(isUp: bool): int { if isUp then up else down }
    function Rate(isUp: bool): int { if isUp then rateUp else rateDown }
    function Peak(isUp: bool): int { if isUp then peakUp else peakDown }
    function Prev(isUp: bool): int { if isUp then prevUp else prevDown }

    function Touched(now: Time): CounterView { this.(lastActive := Max(lastActive, now)) }

    function Opened(now: Time): CounterView { this.(total := total + 1, active := active + 1).Touched(now) }

    // A close of an earlier generation only touches.
    function Closed(of: nat, now: Time): CounterView {
      (if generation == of then this.(active := active - 1) else this).Touched(now)
    }

    function Dialed(elapsed: int, now: Time, failed: bool): CounterView {
      var counted := this.(dials := dials + 1);
      (if failed then counted.(dialFailures := dialFailures + 1)
       else
         var timed := if now >= lastDial then counted.(latency := elapsed, lastDial := now) else counted;
         timed.(latencySum := latencySum + elapsed)
      ).Touched(now)
    }

    function Added(isUp: bool, size: int, now: Time): CounterView {
      (if isUp then this.(up := up + size, lastUp := Max(lastUp, now))
       else this.(down := down + size, lastDown := Max(lastDown, now))).Touched(now)
    }

    function Measured(newUp: int, newDown: int, now: Time): CounterView {
      this.(rateUp := newUp, rateDown := newDown, peakUp := Max(peakUp, newUp), peakDown := Max(peakDown, newDown),
            prevUp := up, prevDown := down, prevAt := now)
    }

    // A clock that went back measures nothing; one that stood still leaves everything.
    function Ticked(now: Time): CounterView {
      if prevAt == ZERO_TIME || now < prevAt then Measured(0, 0, now)
      else if now == prevAt then this
      else Measured(PerSecond(up - prevUp, now - prevAt), PerSecond(down - prevDown, now - prevAt), now)
    }

    function Resetted(now: Time): CounterView { Fresh(now).(generation := generation + 1) }

    // What holds of every counter at every step.
    predicate Sane() {
      && (forall isUp :: 0 <= Prev(isUp) <= Bytes(isUp) && 0 <= Rate(isUp) <= Peak(isUp))
      && 0 <= dialFailures <= dials
      && 0 <= lastDial && 0 <= lastActive && 0 <= lastUp && 0 <= lastDown
    }
  }

  // A counter as newCounter makes it.
  function Fresh(now: Time): CounterView {
    CounterView(0, 0, 0, 0, 0, 0, 0, 0, 0, 0, 0, 0, 0, 0, 0, 0, 0, 0, 0, now)
  }

  lemma RateBounds(bytes: int, elapsed: int)
    requires bytes >= 0 && elapsed > 0
    ensures 0 <= PerSecond(bytes, elapsed)
    ensures PerSecond(bytes, elapsed) * elapsed <= bytes * SECOND < (PerSecond(bytes, elapsed) + 1) * elapsed
  {
  }

  lemma TickedSane(v: CounterView, now: Time)
    requires v.Sane()
    ensures v.Ticked(now).Sane()
    ensures v.Ticked(now).prevAt == now
    ensures forall isUp :: v.Ticked(now).Bytes(isUp) == v.Bytes(isUp)
                           && v.Ticked(now).Peak(isUp) == Max(v.Peak(isUp), v.Ticked(now).Rate(isUp))
  {
    assert v.Prev(true) <= v.Bytes(true) && v.Prev(false) <= v.Bytes(false);
    assert 0 <= v.Rate(true) <= v.Peak(true) && 0 <= v.Rate(false) <= v.Peak(false);
    if v.prevAt != ZERO_TIME && now > v.prevAt {
      RateBounds(v.up - v.prevUp, now - v.prevAt);
      RateBounds(v.down - v.prevDown, now - v.prevAt);
    }
    var t := v.Ticked(now);
    forall isUp ensures 0 <= t.Prev(isUp) <= t.Bytes(isUp) && 0 <= t.Rate(isUp) <= t.Peak(isUp) {}
  }

  // A tick that finds the clock gone on measures the bytes since the last one, per second and rounded
  // down; one that finds it gone back, or no window yet, measures nothing.
  lemma WindowRates(v: CounterView, now: Time, isUp: bool)
    requires v.Sane()
    ensures var t := v.Ticked(now);
            if v.prevAt == ZERO_TIME || now < v.prevAt then t.Rate(isUp) == 0 && t.Prev(isUp) == v.Bytes(isUp)
            else if now == v.prevAt then t == v
            else
              && t.Rate(isUp) * (now - v.prevAt) <= (v.Bytes(isUp) - v.Prev(isUp)) * SECOND
              && (v.Bytes(isUp) - v.Prev(isUp)) * SECOND < (t.Rate(isUp) + 1) * (now - v.prevAt)
              && t.Prev(isUp) == v.Bytes(isUp)
  {
    assert v.Prev(isUp) <= v.Bytes(isUp);
    if v.prevAt != ZERO_TIME && now > v.prevAt {
      RateBounds(v.Bytes(isUp) - v.Prev(isUp), now - v.prevAt);
    }
  }

  // ------------------------------------------------------------------ runs of one counter

  datatype Event =
    | Opens(at: Time)
    | Closes(of: nat, at: Time)
    | Dials(elapsed: int, at: Time, failed: bool)
    | Adds(isUp: bool, size: nat, at: Time)
    | Ticks(at: Time)

  function After(v: CounterView, e: Event): CounterView {
    match e
    case Opens(now) => v.Opened(now)
    case Closes(of, now) => v.Closed(of, now)
    case Dials(elapsed, now, failed) => v.Dialed(elapsed, now, failed)
    case Adds(isUp, size, now) => v.Added(isUp, size, now)
    case Ticks(now) => v.Ticked(now)
  }

  function Evolve(v: CounterView, events: seq<Event>): CounterView
    decreases |events|
  {
    if events == [] then v else Evolve(After(v, events[0]), events[1..])
  }

  predicate Measures(v: CounterView, e: Event) {
    e.Ticks? && v.prevAt != ZERO_TIME && v.prevAt < e.at
  }

  // The sum of (rate + extra) x window over the windows the run measures.
  function Area(v: CounterView, events: seq<Event>, isUp: bool, extra: int): int
    decreases |events|
  {
    if events == [] then 0
    else
      var next := After(v, events[0]);
      (if Measures(v, events[0]) then (next.Rate(isUp) + extra) * (events[0].at - v.prevAt) else 0) +
        Area(next, events[1..], isUp, extra)
  }

  // No tick of the run finds the clock gone back.
  predicate Forward(v: CounterView, events: seq<Event>)
    decreases |events|
  {
    events == [] ||
      ((events[0].Ticks? ==> v.prevAt != ZERO_TIME && v.prevAt <= events[0].at) &&
      Forward(After(v, events[0]), events[1..]))
  }

  lemma AfterSane(v: CounterView, e: Event)
    requires v.Sane()
    ensures After(v, e).Sane()
    ensures forall isUp :: !e.Ticks? ==> After(v, e).Prev(isUp) == v.Prev(isUp)
  {
    if e.Ticks? {
      TickedSane(v, e.at);
    } else {
      forall isUp
        ensures After(v, e).Prev(isUp) == v.Prev(isUp) && 0 <= After(v, e).Prev(isUp) <= After(v, e).Bytes(isUp)
        ensures After(v, e).Rate(isUp) == v.Rate(isUp) && After(v, e).Peak(isUp) == v.Peak(isUp)
      {
        assert 0 <= v.Prev(isUp) <= v.Bytes(isUp);
      }
    }
  }

  // One tick: the bytes its window accounts for lie between rate and rate + 1 per second.
  lemma TickArea(v: CounterView, e: Event, isUp: bool)
    requires v.Sane() && e.Ticks?
    ensures Measures(v, e) ==>
              var next := After(v, e);
              next.Rate(isUp) * (e.at - v.prevAt) <= (next.Prev(isUp) - v.Prev(isUp)) * SECOND <=
                (next.Rate(isUp) + 1) * (e.at - v.prevAt)
    ensures !Measures(v, e) ==> After(v, e).Prev(isUp) >= v.Prev(isUp)
    ensures !Measures(v, e) && v.prevAt != ZERO_TIME && v.prevAt <= e.at ==> After(v, e).Prev(isUp) == v.Prev(isUp)
  {
    assert v.Prev(isUp) <= v.Bytes(isUp);
    if Measures(v, e) {
      RateBounds(v.Bytes(isUp) - v.Prev(isUp), e.at - v.prevAt);
    }
  }

  lemma {:induction false} AreaBounds(v: CounterView, events: seq<Event>, isUp: bool)
    requires v.Sane()
    ensures Evolve(v, events).Sane()
    ensures Area(v, events, isUp, 0) <= (Evolve(v, events).Prev(isUp) - v.Prev(isUp)) * SECOND
    ensures Forward(v, events) ==> (Evolve(v, events).Prev(isUp) - v.Prev(isUp)) * SECOND <= Area(v, events, isUp, 1)
    decreases |events|
  {
    if events != [] {
      AfterSane(v, events[0]);
      if events[0].Ticks? {
        TickArea(v, events[0], isUp);
      }
      AreaBounds(After(v, events[0]), events[1..], isUp);
    }
  }

  // Since a counter was made or reset, rate x window never adds up to more than the bytes counted;
  // with a clock that never goes back, (rate + 1) x window covers every byte a tick has seen.
  lemma RatesAccountForBytes(at: Time, generation: nat, events: seq<Event>, isUp: bool)
    ensures var v := Fresh(at).(generation := generation);
            var end := Evolve(v, events);
            && Area(v, events, isUp, 0) <= end.Prev(isUp) * SECOND <= end.Bytes(isUp) * SECOND
            && (Forward(v, events) ==> end.Prev(isUp) * SECOND <= Area(v, events, isUp, 1))
  {
    var v := Fresh(at).(generation := generation);
    AreaBounds(v, events, isUp);
    assert Evolve(v, events).Prev(isUp) <= Evolve(v, events).Bytes(isUp);
  }

  lemma {:induction false} EvolveAppend(v: CounterView, events: seq<Event>, e: Event)
    ensures Evolve(v, events + [e]) == After(Evolve(v, events), e)
    decreases |events|
  {
    if events == [] {
      assert events + [e] == [e];
      assert Evolve(v, [e]) == Evolve(After(v, e), []);
    } else {
      EvolveAppend(After(v, events[0]), events[1..], e);
      assert (events + [e])[1..] == events[1..] + [e];
    }
  }

  // A tick that advances the clock has seen every byte.
  lemma TickSeesAll(at: Time, generation: nat, events: seq<Event>, now: Time, isUp: bool)
    requires var v := Fresh(at).(generation := generation);
             Forward(v, events + [Ticks(now)]) && Evolve(v, events).prevAt < now
    ensures var v := Fresh(at).(generation := generation);
            Evolve(v, events + [Ticks(now)]).Bytes(isUp) * SECOND <= Area(v, events + [Ticks(now)], isUp, 1)
  {
    var v := Fresh(at).(generation := generation);
    RatesAccountForBytes(at, generation, events + [Ticks(now)], isUp);
    EvolveAppend(v, events, Ticks(now));
  }

  function Successes(events: seq<Event>): nat {
    if events == [] then 0 else (if events[0].Dials? && !events[0].failed then 1 else 0) + Successes(events[1..])
  }

  function SuccessTime(events: seq<Event>): int {
    if events == [] then 0
        else (if events[0].Dials? && !events[0].failed then events[0].elapsed else 0) + SuccessTime(events[1..])
  }

  // Since a counter was made or reset: the dials split into failures and successes, and latencySum
  // is the time the successes took.
  lemma {:induction false} DialsAddUp(v: CounterView, events: seq<Event>)
    ensures var end := Evolve(v, events);
            && end.dials - end.dialFailures == v.dials - v.dialFailures + Successes(events)
            && end.latencySum == v.latencySum + SuccessTime(events)
            && end.dialFailures >= v.dialFailures
    decreases |events|
  {
    if events != [] {
      DialsAddUp(After(v, events[0]), events[1..]);
    }
  }

  // What one event adds to a figure that only counts.
  datatype Figure = Bytes(isUp: bool) | Total | Active(generation: nat) | AllDials | Failures

  function Share(e: Event, f: Figure): int {
    match f
    case Bytes(isUp) => if e.Adds? && e.isUp == isUp then e.size else 0
    case Total => if e.Opens? then 1 else 0
    case Active(generation) => if e.Opens? then 1 else if e.Closes? && e.of == generation then -1 else 0
    case AllDials => if e.Dials? then 1 else 0
    case Failures => if e.Dials? && e.failed then 1 else 0
  }

  function Shares(events: seq<Event>, f: Figure): int {
    if events == [] then 0 else Share(events[0], f) + Shares(events[1..], f)
  }

  function FigureOf(v: CounterView, f: Figure): int {
    match f
    case Bytes(isUp) => v.Bytes(isUp)
    case Total => v.total
    case Active(_) => v.active
    case AllDials => v.dials
    case Failures => v.dialFailures
  }

  // Every figure that counts is the sum of what the events add to it.
  lemma {:induction false} FiguresAddUp(v: CounterView, events: seq<Event>, f: Figure)
    requires f.Active? ==> f.generation == v.generation
    ensures FigureOf(Evolve(v, events), f) == FigureOf(v, f) + Shares(events, f)
    decreases |events|
  {
    if events != [] {
      FiguresAddUp(After(v, events[0]), events[1..], f);
    }
  }

  // The times a counter keeps: of the latest event but ticks, and of the latest bytes each way.
  datatype Mark = Anything | Moved(isUp: bool)

  predicate Marks(e: Event, m: Mark) {
    match m
    case Anything => !e.Ticks?
    case Moved(isUp) => e.Adds? && e.isUp == isUp
  }

  function LastOf(v: CounterView, m: Mark): Time {
    match m
    case Anything => v.lastActive
    case Moved(isUp) => if isUp then v.lastUp else v.lastDown
  }

  // Each is the latest time of its events, if that is later than what it started with.
  lemma {:induction false} TimesAreLatest(v: CounterView, events: seq<Event>, m: Mark)
    ensures var last := LastOf(Evolve(v, events), m);
            && LastOf(v, m) <= last && (forall e :: e in events && Marks(e, m) ==> e.at <= last)
            && (last == LastOf(v, m) || exists e :: e in events && Marks(e, m) && e.at == last)
    decreases |events|
  {
    if events != [] {
      TimesAreLatest(After(v, events[0]), events[1..], m);
      assert forall e :: e in events <==> e == events[0] || e in events[1..];
    }
  }

  predicate Succeeds(e: Event) { e.Dials? && !e.failed }

  // Of the successful dials that ended at the latest time, event i was told of last.
  predicate DialedLastAt(events: seq<Event>, i: int) {
    && 0 <= i < |events| && Succeeds(events[i])
    && forall j :: 0 <= j < |events| && Succeeds(events[j]) && j != i ==>
         events[j].at < events[i].at || (events[j].at == events[i].at && j < i)
  }

  // The latency shown is that of the latest successful dial, told of last among equals; it stays as it
  // was if all of them are older than the last one known before.
  lemma {:induction false} LatencyIsLatest(v: CounterView, events: seq<Event>)
    ensures var end := Evolve(v, events);
            if forall e :: e in events && Succeeds(e) ==> e.at < v.lastDial
            then end.latency == v.latency && end.lastDial == v.lastDial
            else exists i :: DialedLastAt(events, i) && end.latency == events[i].elapsed && end.lastDial == events[i].at
    decreases |events|
  {
    if events != [] {
      var next, rest := After(v, events[0]), events[1..];
      LatencyIsLatest(next, rest);
      assert forall e :: e in events <==> e == events[0] || e in rest;
      if forall e :: e in rest && Succeeds(e) ==> e.at < next.lastDial {
        if Succeeds(events[0]) && events[0].at >= v.lastDial {
          assert DialedLastAt(events, 0);
        }
      } else {
        var i :| DialedLastAt(rest, i) && Evolve(v, events).latency == rest[i].elapsed
                 && Evolve(v, events).lastDial == rest[i].at;
        LatestShifted(v, events, i);
      }
    }
  }

  lemma LatestShifted(v: CounterView, events: seq<Event>, i: int)
    requires events != [] && DialedLastAt(events[1..], i)
    requires exists e :: e in events[1..] && Succeeds(e) && e.at >= After(v, events[0]).lastDial
    ensures !(forall e :: e in events && Succeeds(e) ==> e.at < v.lastDial)
    ensures DialedLastAt(events, i + 1)
  {
  }

  // ------------------------------------------------------------------ the counter object

  class Counter {
    var generation: nat
    var up: int
    var down: int
    var rateUp: int
    var rateDown: int
    var peakUp: int
    var peakDown: int
    var active: int
    var total: int
    var dials: int
    var dialFailures: int
    var latency: int
    var latencySum: int
    var lastDial: int
    var lastActive: int
    var lastUp: int
    var lastDown: int
    var prevUp: int
    var prevDown: int
    var prevAt: Time

    function View(): CounterView
      reads this
    {
      CounterView(generation, up, down, rateUp, rateDown, peakUp, peakDown, active, total, dials, dialFailures,
        latency, latencySum,
                  lastDial, lastActive, lastUp, lastDown, prevUp, prevDown, prevAt)
    }

    constructor (now: Time)
      ensures View() == Fresh(now)
    {
      generation := 0;
      up, down, rateUp, rateDown, peakUp, peakDown := 0, 0, 0, 0, 0, 0;
      active, total, dials, dialFailures, latency, latencySum := 0, 0, 0, 0, 0, 0;
      lastDial, lastActive, lastUp, lastDown := 0, 0, 0, 0;
      prevUp, prevDown, prevAt := 0, 0, now;
    }

    method Touch(now: Time)
      modifies this`lastActive
      ensures View() == old(View()).Touched(now)
    {
      if now > lastActive {
        lastActive := now;
      }
    }

    // The generation the opened connection belongs to.
    method Open(now: Time) returns (of: nat)
      modifies this
      ensures View() == old(View()).Opened(now) && of == generation
    {
      total := total + 1;
      active := active + 1;
      Touch(now);
      of := generation;
    }

    method Close(of: nat, now: Time)
      modifies this
      ensures View() == old(View()).Closed(of, now)
    {
      if generation == of {
        active := active - 1;
      }
      Touch(now);
    }

    method Dial(elapsed: int, now: Time, failed: bool)
      modifies this
      ensures View() == old(View()).Dialed(elapsed, now, failed)
    {
      dials := dials + 1;
      if failed {
        dialFailures := dialFailures + 1;
      } else {
        if now >= lastDial {
          latency := elapsed;
          lastDial := now;
        }
        latencySum := latencySum + elapsed;
      }
      Touch(now);
    }

    method AddBytes(isUp: bool, size: int, now: Time)
      modifies this
      ensures View() == old(View()).Added(isUp, size, now)
    {
      if isUp {
        up := up + size;
        if now > lastUp {
          lastUp := now;
        }
      } else {
        down := down + size;
        if now > lastDown {
          lastDown := now;
        }
      }
      Touch(now);
    }

    // Stores new rates, raises the peaks and starts the next window.
    method Measure(newUp: int, newDown: int, now: Time)
      modifies this
      ensures View() == old(View()).Measured(newUp, newDown, now)
    {
      hide Max;
      SetRates(newUp, newDown);
      prevUp, prevDown, prevAt := up, down, now;
    }

    method SetRates(newUp: int, newDown: int)
      modifies `rateUp, `rateDown, `peakUp, `peakDown
      ensures rateUp == newUp && rateDown == newDown
      ensures peakUp == Max(old(peakUp), newUp) && peakDown == Max(old(peakDown), newDown)
    {
      rateUp, rateDown := newUp, newDown;
      peakUp, peakDown := Max(peakUp, newUp), Max(peakDown, newDown);
    }

    method Tick(now: Time)
      modifies this
      ensures View() == old(View()).Ticked(now)
    {
      hide PerSecond;
      if prevAt == ZERO_TIME || now < prevAt {
        Measure(0, 0, now);
      } else if now != prevAt {
        Measure(PerSecond(up - prevUp, now - prevAt), PerSecond(down - prevDown, now - prevAt), now);
      }
    }

    method ClearTraffic()
      modifies `up, `down, `rateUp, `rateDown, `peakUp, `peakDown, `prevUp, `prevDown
      ensures up == down == rateUp == rateDown == peakUp == peakDown == prevUp == prevDown == 0
    {
      up, down, rateUp, rateDown, peakUp, peakDown := 0, 0, 0, 0, 0, 0;
      prevUp, prevDown := 0, 0;
    }

    method ClearTotals()
      modifies `active, `total, `dials, `dialFailures, `latency, `latencySum
      ensures active == total == dials == dialFailures == latency == latencySum == 0
    {
      active, total, dials, dialFailures, latency, latencySum := 0, 0, 0, 0, 0, 0;
    }

    method ClearMoments()
      modifies `lastDial, `lastActive, `lastUp, `lastDown
      ensures lastDial == lastActive == lastUp == lastDown == 0
    {
      lastDial, lastActive, lastUp, lastDown := 0, 0, 0, 0;
    }

    method Reset(now: Time)
      modifies this
      ensures View() == old(View()).Resetted(now)
    {
      ClearTraffic();
      ClearTotals();
      ClearMoments();
      prevAt, generation := now, generation + 1;
      assert up == down == rateUp == rateDown == peakUp == peakDown == prevUp == prevDown == 0;
      assert active == total == dials == dialFailures == latency == latencySum == 0;
      assert lastDial == lastActive == lastUp == lastDown == 0;
    }
  }
}

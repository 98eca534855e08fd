/** The loop under every rule: listen, serve, wait, listen again, until the context is cancelled. */
module Serve {
  import opened Backoff

  // What one round of the loop meets: the answer of listen, and when the context is cancelled, if it is.
  datatype Answer = Listening | Broken | Refused | Missing
  datatype Cancel = Never | Serving | Before | Waiting
  datatype Round = Round(answer: Answer, cancel: Cancel)

  datatype Happening =
    | Tried                                   // listen was called
    | Opened(id: nat)                         // and gave a listener
    | Up(id: nat)                             // reported with its address
    | Closed(id: nat)
    | Failed(attempt: nat, backoff: int)      // reported
    | Waited(backoff: int)
    | Returned

  // The wait after the n-th failure in a row.
  function Delay(initial: int, maximum: int, n: nat): int
    requires n > 0
  {
    if n == 1 then initial else Min(initial * Pow2(n - 1), maximum)
  }

  function OpenAfter(listeners: set<nat>, h: Happening): set<nat> {
    match h
    case Opened(id) => listeners + {id}
    case Closed(id) => listeners - {id}
    case _ => listeners
  }

  // Listeners opened and not yet closed.
  function OpenIn(t: seq<Happening>): set<nat> {
    if t == [] then {} else OpenAfter(OpenIn(t[..|t| - 1]), t[|t| - 1])
  }

  function StreakAfter(n: nat, h: Happening): nat {
    match h
    case Up(_) => 0
    case Failed(_, _) => n + 1
    case _ => n
  }

  // Failures in a row, up to now.
  function Streak(t: seq<Happening>): nat {
    if t == [] then 0 else StreakAfter(Streak(t[..|t| - 1]), t[|t| - 1])
  }

  // Every listener is closed before listen is called again, and before the loop returns.
  predicate OneAtATime(t: seq<Happening>) {
    forall k :: 0 <= k < |t| && (t[k].Tried? || t[k].Opened? || t[k].Returned?) ==> OpenIn(t[..k]) == {}
  }

  // The n-th failure in a row since the last listener carries number n and its delay.
  predicate Numbered(t: seq<Happening>, initial: int, maximum: int) {
    forall k :: 0 <= k < |t| && t[k].Failed? ==>
      t[k].attempt == Streak(t[..k]) + 1 && t[k].backoff == Delay(initial, maximum, t[k].attempt)
  }

  // Only the first try does not follow a failure and the wait it announced.
  predicate Paced(t: seq<Happening>) {
    forall k :: 0 < k < |t| && t[k].Tried? ==> k >= 2 && t[k - 2].Failed? && t[k - 1] == Waited(t[k - 2].backoff)
  }

  predicate ReturnsLast(t: seq<Happening>) {
    t != [] && t[|t| - 1].Returned? && forall k :: 0 <= k < |t| - 1 ==> !t[k].Returned?
  }

  predicate Orderly(t: seq<Happening>, initial: int, maximum: int) {
    OneAtATime(t) && Numbered(t, initial, maximum) && Paced(t)
  }

  // The last wait is over, or nothing was tried yet.
  predicate MayTry(t: seq<Happening>) {
    t == [] || (|t| >= 2 && t[|t| - 2].Failed? && t[|t| - 1] == Waited(t[|t| - 2].backoff))
  }

  predicate Fits(t: seq<Happening>, h: Happening, initial: int, maximum: int) {
    && (h.Tried? || h.Opened? || h.Returned? ==> OpenIn(t) == {})
    && (h.Failed? ==> h.attempt == Streak(t) + 1 && h.backoff == Delay(initial, maximum, h.attempt))
    && (h.Tried? ==> MayTry(t))
  }

  lemma ThenOneAtATime(t: seq<Happening>, h: Happening)
    requires OneAtATime(t) && (h.Tried? || h.Opened? || h.Returned? ==> OpenIn(t) == {})
    ensures OneAtATime(t + [h]) && OpenIn(t + [h]) == OpenAfter(OpenIn(t), h)
  {
    var t' := t + [h];
    assert t'[..|t|] == t;
    forall k | 0 <= k < |t'| && (t'[k].Tried? || t'[k].Opened? || t'[k].Returned?) ensures OpenIn(t'[..k]) == {} {
      if k < |t| {
        assert t'[..k] == t[..k] && t'[k] == t[k];
      }
    }
  }

  lemma ThenNumbered(t: seq<Happening>, h: Happening, initial: int, maximum: int)
    requires Numbered(t, initial, maximum)
    requires h.Failed? ==> h.attempt == Streak(t) + 1 && h.backoff == Delay(initial, maximum, h.attempt)
    ensures Numbered(t + [h], initial, maximum) && Streak(t + [h]) == StreakAfter(Streak(t), h)
  {
    hide Delay;
    var t' := t + [h];
    assert t'[..|t|] == t;
    forall k | 0 <= k < |t'| && t'[k].Failed?
      ensures t'[k].attempt == Streak(t'[..k]) + 1 && t'[k].backoff == Delay(initial, maximum, t'[k].attempt)
    {
      if k < |t| {
        assert t'[..k] == t[..k] && t'[k] == t[k];
      }
    }
  }

  // A further happening that keeps all of this.
  lemma Then(t: seq<Happening>, h: Happening, initial: int, maximum: int)
    requires Orderly(t, initial, maximum) && Fits(t, h, initial, maximum)
    ensures Orderly(t + [h], initial, maximum)
    ensures OpenIn(t + [h]) == OpenAfter(OpenIn(t), h) && Streak(t + [h]) == StreakAfter(Streak(t), h)
  {
    hide OpenIn, Streak, OneAtATime, Numbered;
    ThenOneAtATime(t, h);
    ThenNumbered(t, h, initial, maximum);
  }

  // Doubling the wait and capping it is the delay of the next failure.
  lemma NextDelay(initial: int, maximum: int, n: nat)
    requires n > 0 && maximum >= 0
    ensures Min(Delay(initial, maximum, n) * 2, maximum) == Delay(initial, maximum, n + 1)
  {
  }

  // What one call of listen leads to until its listener, if any, is closed. The context closes the
  // listener itself when it is cancelled meanwhile.
  function Heard(now: Round, id: nat): seq<Happening> {
    [Tried] +
    match now.answer
    case Listening => [Opened(id), Up(id)] + (if now.cancel.Serving? then [Closed(id)] else []) + [Closed(id)]
    case Broken => [Opened(id), Closed(id)]
    case _ => []
  }

  // All that happens from round number id on, after n failures in a row.
  function Story(rounds: seq<Round>, id: nat, n: nat, initial: int, maximum: int): seq<Happening>
    requires id <= |rounds|
    decreases |rounds| - id
  {
    if id == |rounds| then [Returned]
    else
      var failures := (if rounds[id].answer.Listening? then 0 else n) + 1;
      var wait := Delay(initial, maximum, failures);
      Heard(rounds[id], id) +
      if rounds[id].cancel.Serving? || rounds[id].cancel.Before? then [Returned]
      else [Failed(failures, wait)] +
           if rounds[id].cancel.Waiting? then [Returned]
               else [Waited(wait)] + Story(rounds, id + 1, failures, initial, maximum)
  }

  // What one round of the loop adds is what the story goes on with.
  lemma OneRound(rounds: seq<Round>, id: nat, n: nat, initial: int, maximum: int, story: seq<Happening>,
                 before: seq<Happening>, t: seq<Happening>)
    requires id < |rounds| && story == before + Story(rounds, id, n, initial, maximum)
    requires var failures := (if rounds[id].answer.Listening? then 0 else n) + 1;
             var wait := Delay(initial, maximum, failures);
             t == if rounds[id].cancel.Serving? || rounds[id].cancel.Before? then before + Heard(rounds[id], id)
                  else before + Heard(rounds[id], id) + [Failed(failures, wait)] + if rounds[id].cancel.Waiting?
                      then [] else [Waited(wait)]
    ensures var failures := (if rounds[id].answer.Listening? then 0 else n) + 1;
            story == t + if rounds[id].cancel.Never? then Story(rounds, id + 1, failures, initial, maximum)
              else [Returned]
  {
    hide Heard, Delay;
  }

  lemma NoRound(rounds: seq<Round>, n: nat, initial: int, maximum: int)
    ensures Story(rounds, |rounds|, n, initial, maximum) == [Returned]
  {
  }

  method ServeWithBackoff(rounds: seq<Round>, initial: int, maximum: int) returns (t: seq<Happening>)
    requires maximum >= 0
    ensures t == Story(rounds, 0, 0, initial, maximum)
    ensures OneAtATime(t) && Numbered(t, initial, maximum) && Paced(t) && ReturnsLast(t)
  {
    hide Orderly, OpenIn, Streak, Delay, MayTry, Heard, Story;
    t := [];
    Nothing(initial, maximum);
    var backoff, attempt := initial, 0;
    var cancelled := false;
    var round := 0;
    ghost var story := Story(rounds, 0, 0, initial, maximum);
    while round < |rounds| && !cancelled
      invariant round <= |rounds| && Orderly(t, initial, maximum) && OpenIn(t) == {} && NotReturned(t)
      invariant !cancelled ==> attempt == Streak(t) && backoff == Delay(initial, maximum, attempt + 1) && MayTry(t)
      invariant story == t + if cancelled then [Returned] else Story(rounds, round, attempt, initial, maximum)
      decreases |rounds| - round, !cancelled
    {
      hide NotReturned;
      ghost var before, n := t, attempt;
      t := Listen(t, rounds[round], round, initial, maximum);
      if rounds[round].answer.Listening? {
        backoff, attempt := initial, 0;
      }
      if rounds[round].cancel.Serving? || rounds[round].cancel.Before? {
        cancelled := true;
      } else {
        attempt := attempt + 1;
        cancelled := rounds[round].cancel.Waiting?;
        t := Fail(t, attempt, backoff, cancelled, initial, maximum);
        if !cancelled {
          NextDelay(initial, maximum, attempt);
          backoff := Min(backoff * 2, maximum);
        }
      }
      OneRound(rounds, round, n, initial, maximum, story, before, t);
      round := round + 1;
    }
    NoRound(rounds, attempt, initial, maximum);
    t := Note(t, Returned, initial, maximum);
  }

  // One call of listen, and the serving of what it gives.
  method Listen(t0: seq<Happening>, now: Round, id: nat, ghost initial: int, ghost maximum: int)
    returns (t: seq<Happening>)
    requires Orderly(t0, initial, maximum) && OpenIn(t0) == {} && NotReturned(t0) && MayTry(t0)
    ensures Orderly(t, initial, maximum) && OpenIn(t) == {} && NotReturned(t) && t == t0 + Heard(now, id)
    ensures Streak(t) == if now.answer.Listening? then 0 else Streak(t0)
  {
    hide Orderly, OpenIn, Streak, MayTry, NotReturned;
    t := Note(t0, Tried, initial, maximum);
    if now.answer.Listening? {
      t := Note(t, Opened(id), initial, maximum);
      t := Note(t, Up(id), initial, maximum);
      if now.cancel.Serving? {
        t := Note(t, Closed(id), initial, maximum);
      }
      t := Note(t, Closed(id), initial, maximum);
    } else if now.answer.Broken? {
      t := Note(t, Opened(id), initial, maximum);
      t := Note(t, Closed(id), initial, maximum);
    }
  }

  // A failure is reported and, unless the context is cancelled meanwhile, waited for.
  method Fail(t0: seq<Happening>, attempt: nat, backoff: int, cancelled: bool, ghost initial: int, ghost maximum: int)
    returns (t: seq<Happening>)
    requires Orderly(t0, initial, maximum) && OpenIn(t0) == {} && NotReturned(t0)
    requires attempt == Streak(t0) + 1 && backoff == Delay(initial, maximum, attempt)
    ensures Orderly(t, initial, maximum) && OpenIn(t) == {} && NotReturned(t) && Streak(t) == attempt
    ensures t == t0 + [Failed(attempt, backoff)] + if cancelled then [] else [Waited(backoff)]
    ensures !cancelled ==> MayTry(t)
  {
    hide Orderly, OpenIn, Streak, MayTry, NotReturned, Delay;
    t := Note(t0, Failed(attempt, backoff), initial, maximum);
    if !cancelled {
      t := Note(t, Waited(backoff), initial, maximum);
      NowMayTry(t, attempt, backoff);
    }
  }

  predicate NotReturned(t: seq<Happening>) { forall k :: 0 <= k < |t| ==> !t[k].Returned? }

  lemma NowMayTry(t: seq<Happening>, attempt: nat, backoff: int)
    requires |t| >= 2 && t[|t| - 2] == Failed(attempt, backoff) && t[|t| - 1] == Waited(backoff)
    ensures MayTry(t)
  {
  }

  lemma Nothing(initial: int, maximum: int)
    ensures Orderly([], initial, maximum) && OpenIn([]) == {} && Streak([]) == 0 && MayTry([])
    ensures Delay(initial, maximum, 1) == initial
  {
  }

  method Note(t: seq<Happening>, h: Happening, ghost initial: int, ghost maximum: int) returns (t': seq<Happening>)
    requires Orderly(t, initial, maximum) && Fits(t, h, initial, maximum)
    ensures t' == t + [h] && Orderly(t', initial, maximum)
    ensures OpenIn(t') == OpenAfter(OpenIn(t), h) && Streak(t') == StreakAfter(Streak(t), h)
    ensures NotReturned(t) && !h.Returned? ==> NotReturned(t')
  {
    Then(t, h, initial, maximum);
    t' := t + [h];
  }

  // The waits are initial, 2 x initial, 4 x initial and so on up to the maximum from the first failure
  // on, exactly if the initial wait does not exceed the maximum.
  lemma DelaysDouble(initial: int, maximum: int)
    ensures initial <= maximum <==> forall n: nat :: n > 0 ==>
            Delay(initial, maximum, n) == Min(initial * Pow2(n - 1), maximum)
  {
    if initial > maximum {
      assert Pow2(0) == 1;
      assert Delay(initial, maximum, 1) == initial != Min(initial * Pow2(0), maximum);
    }
  }

  // ------------------------------------------------------------------ nothing too much, nothing left out

  datatype Matter = Tries | Ups | Failures | Waits

  predicate Is(h: Happening, m: Matter) {
    match m
    case Tries => h.Tried?
    case Ups => h.Up?
    case Failures => h.Failed?
    case Waits => h.Waited?
  }

  function Times(t: seq<Happening>, m: Matter): nat {
    if t == [] then 0 else (if Is(t[0], m) then 1 else 0) + Times(t[1..], m)
  }

  lemma {:induction false} TimesAdd(t: seq<Happening>, u: seq<Happening>, m: Matter)
    ensures Times(t + u, m) == Times(t, m) + Times(u, m)
  {
    if t == [] {
      assert t + u == u;
    } else {
      TimesAdd(t[1..], u, m);
      assert (t + u)[1..] == t[1..] + u;
    }
  }

  // What one round is good for: every round tries; one that gets a listener reports it; it reports a
  // failure unless it is cancelled first, and waits unless it is cancelled at all.
  predicate Brings(round: Round, m: Matter) {
    match m
    case Tries => true
    case Ups => round.answer.Listening?
    case Failures => round.cancel.Never? || round.cancel.Waiting?
    case Waits => round.cancel.Never?
  }

  // The rounds from id on up to the first that is cancelled.
  function Brought(rounds: seq<Round>, id: nat, m: Matter): nat
    requires id <= |rounds|
    decreases |rounds| - id
  {
    if id == |rounds| then 0
    else
      (if Brings(rounds[id], m) then 1 else 0) + if rounds[id].cancel.Never? then Brought(rounds, id + 1, m) else 0
  }

  lemma TimesPut(h: Happening, t: seq<Happening>, m: Matter)
    ensures Times([h] + t, m) == (if Is(h, m) then 1 else 0) + Times(t, m)
  {
    assert ([h] + t)[1..] == t;
  }

  lemma HeardTimes(now: Round, id: nat, m: Matter)
    ensures Times(Heard(now, id), m) == (if m.Tries? || (m.Ups? && now.answer.Listening?) then 1 else 0)
  {
    var closed, up := [Closed(id)] + [], [Up(id)];
    TimesPut(Closed(id), [], m);
    TimesPut(Closed(id), closed, m);
    assert [Closed(id)] + closed == [Closed(id), Closed(id)];
    var rest := if now.cancel.Serving? then [Closed(id)] + closed else closed;
    TimesPut(Up(id), rest, m);
    TimesPut(Opened(id), [Up(id)] + rest, m);
    TimesPut(Opened(id), closed, m);
    var heard := match now.answer
      case Listening => [Opened(id)] + ([Up(id)] + rest)
      case Broken => [Opened(id)] + closed
      case _ => [];
    TimesPut(Tried, heard, m);
    assert Heard(now, id) == [Tried] + heard;
  }

  // Over all rounds up to the first that is cancelled, nothing is tried, reported or waited for too often
  // or too rarely: after a cancellation no failure is reported and no wait begins.
  lemma {:induction false} StoryTimes(rounds: seq<Round>, id: nat, n: nat, initial: int, maximum: int, m: Matter)
    requires id <= |rounds|
    ensures Times(Story(rounds, id, n, initial, maximum), m) == Brought(rounds, id, m)
    decreases |rounds| - id
  {
    hide Delay, Heard;
    TimesPut(Returned, [], m);
    assert [Returned] + [] == [Returned];
    if id < |rounds| {
      var failures := (if rounds[id].answer.Listening? then 0 else n) + 1;
      var wait := Delay(initial, maximum, failures);
      var later := Story(rounds, id + 1, failures, initial, maximum);
      StoryTimes(rounds, id + 1, failures, initial, maximum, m);
      HeardTimes(rounds[id], id, m);
      TimesPut(Waited(wait), later, m);
      TimesPut(Failed(failures, wait), [Waited(wait)] + later, m);
      TimesPut(Failed(failures, wait), [Returned], m);
      var rest := if rounds[id].cancel.Serving? || rounds[id].cancel.Before? then [Returned]
        else [Failed(failures, wait)] + if rounds[id].cancel.Waiting? then [Returned] else [Waited(wait)] + later;
      TimesAdd(Heard(rounds[id], id), rest, m);
      assert Story(rounds, id, n, initial, maximum) == Heard(rounds[id], id) + rest;
    }
  }

  // Nanoseconds.
  const DEFAULT_LISTEN_BACKOFF := 100_000_000
  const MAX_LISTEN_BACKOFF := 30_000_000_000

  method Serve(rounds: seq<Round>) returns (t: seq<Happening>)
    ensures OneAtATime(t) && Paced(t) && ReturnsLast(t)
    ensures forall k :: 0 <= k < |t| && t[k].Failed? ==>
              t[k].attempt == Streak(t[..k]) + 1
              && t[k].backoff == Min(DEFAULT_LISTEN_BACKOFF * Pow2(t[k].attempt - 1), MAX_LISTEN_BACKOFF)
  {
    DelaysDouble(DEFAULT_LISTEN_BACKOFF, MAX_LISTEN_BACKOFF);
    t := ServeWithBackoff(rounds, DEFAULT_LISTEN_BACKOFF, MAX_LISTEN_BACKOFF);
  }
}

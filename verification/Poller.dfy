/** The poller object: each method is what the closure of the same name does, on its variables. */
module Poller {
  import opened Backoff
  import opened Text
  import opened PollerSteps

  class Poller {
    const pace: Pace
    var data: Option<string>
    var error: Option<string>
    var loading: bool
    var failures: nat
    var subscribers: nat
    var timer: Option<nat>
    var controller: Option<nat>
    var inFlight: Option<nat>
    var generation: nat
    var requested: nat
    var answered: nat
    // The page.
    var visible: bool
    var busy: bool
    // The promises under way, and the refreshes that await one.
    var loads: map<nat, Load>
    var waiting: map<nat, Waiting>

    function Now(): State
      reads this
    {
      State(data, error, loading, failures, subscribers, timer, controller, inFlight, generation, requested, answered,
        visible, busy,
            loads, waiting)
    }

    ghost predicate Valid()
      reads this
    {
      Inv(Now())
    }

    constructor (pace: Pace, visible: bool, busy: bool)
      ensures Valid() && Now() == Initial(visible, busy) && this.pace == pace
    {
      this.pace, this.visible, this.busy := pace, visible, busy;
      data, error, loading, failures, subscribers := None, None, false, 0, 0;
      timer, controller, inFlight, generation, requested, answered := None, None, None, 0, 0, 0;
      loads, waiting := map[], map[];
    }

    method ClearTimer()
      modifies this`timer
      ensures Now() == old(Now()).Cleared()
    {
      timer := None;
    }

    method Invalidate()
      modifies this`generation, this`controller, this`inFlight, this`loading
      ensures Now() == old(Now()).Invalidated()
    {
      generation := generation + 1;
      controller := None;
      inFlight := None;
      loading := false;
    }

    function Delay(): nat
      reads this
    {
      Min(pace.interval * Pow2(failures), pace.maximum)
    }

    method Schedule()
      modifies this`timer
      ensures Now() == old(Now()).Scheduled(pace)
    {
      hide Pow2;
      ClearTimer();
      if subscribers > 0 && visible {
        timer := Some(Delay());
      }
    }

    method FetchOnce() returns (number: nat)
      modifies this`requested, this`controller, this`inFlight, this`loading, this`loads
      ensures Now() == old(Now()).Fetched() && number == requested
    {
      requested := requested + 1;
      number := requested;
      controller := Some(number);
      loading := true;
      loads := loads[number := Load(generation, Pending)];
      inFlight := Some(number);
    }

    method Tick()
      modifies this
      ensures Now() == old(Now()).Ticked(pace)
    {
      hide State.Scheduled, State.Fetched;
      ClearTimer();
      if subscribers == 0 || !visible {
        return;
      }
      if busy || inFlight.Some? {
        Schedule();
        return;
      }
      var number := FetchOnce();
    }

    method TimerFires()
      requires Valid() && timer.Some?
      modifies this
      ensures Valid() && Next(pace, old(Now()), Event.TimerFires, Now())
    {
      hide Inv, State.Ticked;
      ghost var before := Now();
      Tick();
      KeepNext(pace, before, Event.TimerFires, Now());
    }

    method OnVisibility(isVisible: bool)
      requires Valid()
      modifies this
      ensures Valid() && Next(pace, old(Now()), Visibility(isVisible), Now())
    {
      hide Inv, State.Ticked, State.Invalidated, State.Cleared;
      ghost var before := Now();
      visible := isVisible;
      if subscribers > 0 {
        if visible {
          failures := 0;
          if inFlight.None? {
            Tick();
          }
        } else {
          ClearTimer();
          Invalidate();
        }
      }
      KeepNext(pace, before, Visibility(isVisible), Now());
    }

    method SetBusy(isBusy: bool)
      requires Valid()
      modifies this`busy
      ensures Valid() && Next(pace, old(Now()), Busy(isBusy), Now())
    {
      hide Inv;
      ghost var before := Now();
      busy := isBusy;
      KeepNext(pace, before, Busy(isBusy), Now());
    }

    method Subscribe()
      requires Valid()
      modifies this
      ensures Valid() && Next(pace, old(Now()), Event.Subscribe, Now())
    {
      hide Inv, State.Ticked;
      ghost var before := Now();
      subscribers := subscribers + 1;
      if subscribers == 1 {
        failures := 0;
        Tick();
      }
      KeepNext(pace, before, Event.Subscribe, Now());
    }

    // Releasing a subscription again does nothing: released is that subscription's own flag.
    method Unsubscribe(released: bool)
      requires Valid() && (!released ==> subscribers > 0)
      modifies this
      ensures Valid() && if released then Now() == old(Now()) else Next(pace, old(Now()), Event.Unsubscribe, Now())
    {
      hide Inv, State.Invalidated, State.Cleared;
      if released {
        return;
      }
      ghost var before := Now();
      subscribers := subscribers - 1;
      if subscribers == 0 {
        ClearTimer();
        Invalidate();
      }
      KeepNext(pace, before, Event.Unsubscribe, Now());
    }

    method Continue(call: nat, started: nat) returns (number: Option<nat>)
      modifies this
      ensures Now() == old(Now()).Refreshed(call, started)
      ensures number == if requested == old(requested) then None else Some(requested)
    {
      hide State.Fetched;
      waiting := waiting - {call};
      number := None;
      if !(started == generation && subscribers > 0 && visible && !busy) {
        return;
      }
      if inFlight.Some? {
        waiting := waiting[call := Waiting(started, inFlight.value)];
        return;
      }
      failures := 0;
      var made := FetchOnce();
      FetchedNumber(old(Now()).(waiting := old(waiting) - {call}, failures := 0));
      number := Some(made);
    }

    method Refresh(call: nat) returns (number: Option<nat>)
      requires Valid() && call !in waiting
      modifies this
      ensures Valid() && Next(pace, old(Now()), Event.Refresh(call), Now())
      ensures number == if requested == old(requested) then None else Some(requested)
    {
      hide Inv, State.Refreshed;
      ghost var before := Now();
      number := Continue(call, generation);
      KeepNext(pace, before, Event.Refresh(call), Now());
    }

    method Resume(call: nat) returns (number: Option<nat>)
      requires Valid() && call in waiting && waiting[call].on in loads
      requires loads[waiting[call].on].phase in {Settled, Over}
      modifies this
      ensures Valid() && Next(pace, old(Now()), Event.Resume(call), Now())
      ensures number == if requested == old(requested) then None else Some(requested)
    {
      hide Inv, State.Refreshed;
      ghost var before := Now();
      number := Continue(call, waiting[call].started);
      KeepNext(pace, before, Event.Resume(call), Now());
    }

    // The handlers of one load's promise, in their order.
    method Answer(k: nat, answer: Answer)
      requires Valid() && k in loads && loads[k].phase.Pending?
      modifies this
      ensures Valid() && Next(pace, old(Now()), Answers(k, answer), Now())
    {
      hide Inv;
      ghost var before := Now();
      var current := loads[k].started == generation && controller == Some(k);
      loads := loads[k := loads[k].(phase := Ran)];
      if current {
        Take(k, answer);
      }
      KeepNext(pace, before, Answers(k, answer), Now());
    }

    method Take(k: nat, answer: Answer)
      modifies `data, `answered, `error, `failures
      ensures answer.Value? ==> data == Some(answer.value) && answered == k && error == None && failures == 0
      ensures answer.Rejected? ==> data == old(data) && answered == old(answered)
      ensures answer.Rejected? ==> error == if answer.aborted then old(error) else Some(answer.reason)
      ensures answer.Rejected? ==> failures == if answer.aborted then old(failures) else old(failures) + 1
    {
      match answer {
        case Value(value) =>
          data := Some(value);
          answered := k;
          error := None;
          failures := 0;
        case Rejected(reason, aborted) =>
          if !aborted {
            error := Some(reason);
            failures := failures + 1;
          }
      }
    }

    method Settle(k: nat)
      requires Valid() && k in loads && loads[k].phase.Ran?
      modifies this
      ensures Valid() && Next(pace, old(Now()), Settles(k), Now())
    {
      hide Inv;
      ghost var before := Now();
      loads := loads[k := loads[k].(phase := Settled)];
      if controller == Some(k) {
        controller := None;
        inFlight := None;
        loading := false;
      }
      KeepNext(pace, before, Settles(k), Now());
    }

    method Reschedule(k: nat)
      requires Valid() && k in loads && loads[k].phase.Settled?
      modifies this
      ensures Valid() && Next(pace, old(Now()), Reschedules(k), Now())
    {
      hide Inv, State.Scheduled;
      ghost var before := Now();
      loads := loads[k := loads[k].(phase := Over)];
      Schedule();
      KeepNext(pace, before, Reschedules(k), Now());
    }
  }

  lemma FetchedNumber(s: State)
    ensures s.Fetched().requested == s.requested + 1
  {
  }
}

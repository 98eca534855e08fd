/** The status poller: one load at a time while somebody watches a visible page. Promises settle, and
    their handlers run, at any moment and in any order the language allows. */
module PollerSteps {
  import opened Backoff
  import opened Text

  // A load's answer has not come; or its handler has run; or the load's promise has settled; or the
  // schedule that follows it has run too.
  datatype Phase = Pending | Ran | Settled | Over
  datatype Load = Load(started: nat, phase: Phase)

  // A refresh that waits for a load, since it began in a generation.
  datatype Waiting = Waiting(started: nat, on: nat)

  datatype Answer = Value(value: string) | Rejected(reason: string, aborted: bool)

  datatype Pace = Pace(interval: nat, maximum: nat)

  datatype State = State(
    data: Option<string>, error: Option<string>, loading: bool, failures: nat, subscribers: nat,
    timer: Option<nat>, controller: Option<nat>, inFlight: Option<nat>,
    generation: nat, requested: nat, answered: nat, visible: bool, busy: bool,
    loads: map<nat, Load>, waiting: map<nat, Waiting>)
  {
    predicate Watched() { subscribers > 0 && visible }

    predicate Current(k: nat) { k in loads && loads[k].started == generation && controller == Some(k) }

    function Cleared(): State { this.(timer := None) }

    function Invalidated(): State {
      this.(generation := generation + 1, controller := None, inFlight := None, loading := false)
    }

    function Scheduled(pace: Pace): State {
      this.(timer := if Watched() then Some(Min(pace.interval * Pow2(failures), pace.maximum)) else None)
    }

    function Fetched(): State {
      this.(requested := requested + 1, controller := Some(requested + 1), inFlight := Some(requested + 1),
        loading := true,
            loads := loads[requested + 1 := Load(generation, Pending)])
    }

    function Ticked(pace: Pace): State {
      if !Watched() then Cleared()
      else if busy || inFlight.Some? then Cleared().Scheduled(pace)
      else Cleared().Fetched()
    }

    function Turned(isVisible: bool, pace: Pace): State {
      var turned := this.(visible := isVisible);
      if subscribers == 0 then turned
      else if isVisible then
        var calmed := turned.(failures := 0);
        if inFlight.Some? then calmed else calmed.Ticked(pace)
      else turned.Cleared().Invalidated()
    }

    function Joined(pace: Pace): State {
      var joined := this.(subscribers := subscribers + 1);
      if subscribers == 0 then joined.(failures := 0).Ticked(pace) else joined
    }

    function Left(): State
      requires subscribers > 0
    {
      var left := this.(subscribers := subscribers - 1);
      if subscribers == 1 then left.Cleared().Invalidated() else left
    }

    predicate Wanted(started: nat) { started == generation && Watched() && !busy }

    // A refresh loads afresh, after the load under way if there is one.
    function Refreshed(call: nat, started: nat): State {
      var here := this.(waiting := waiting - {call});
      if !Wanted(started) then here
      else if inFlight.Some? then here.(waiting := here.waiting[call := Waiting(started, inFlight.value)])
      else here.(failures := 0).Fetched()
    }

    function Answered(k: nat, answer: Answer): State
      requires k in loads
    {
      var ran := this.(loads := loads[k := loads[k].(phase := Ran)]);
      if !Current(k) then ran
      else
        match answer
        case Value(value) => ran.(data := Some(value), answered := k, error := None, failures := 0)
        case Rejected(reason, aborted) => if aborted then ran else ran.(error := Some(reason), failures := failures + 1)
    }

    function Finished(k: nat): State
      requires k in loads
    {
      var settled := this.(loads := loads[k := loads[k].(phase := Settled)]);
      if controller != Some(k) then settled else settled.(controller := None, inFlight := None, loading := false)
    }

    function Rearmed(k: nat, pace: Pace): State
      requires k in loads
    {
      this.(loads := loads[k := loads[k].(phase := Over)]).Scheduled(pace)
    }
  }

  datatype Event =
    | TimerFires
    | Visibility(isVisible: bool)
    | Busy(isBusy: bool)
    | Subscribe
    | Unsubscribe
    | Refresh(call: nat)
    | Resume(call: nat)
    | Answers(load: nat, answer: Answer)
    | Settles(load: nat)
    | Reschedules(load: nat)

  ghost predicate Next(pace: Pace, s: State, e: Event, s': State) {
    match e
    case TimerFires => s.timer.Some? && s' == s.Ticked(pace)
    case Visibility(isVisible) => s' == s.Turned(isVisible, pace)
    case Busy(isBusy) => s' == s.(busy := isBusy)
    case Subscribe => s' == s.Joined(pace)
    case Unsubscribe => s.subscribers > 0 && s' == s.Left()
    case Refresh(call) => call !in s.waiting && s' == s.Refreshed(call, s.generation)
    case Resume(call) =>
      && call in s.waiting && s.waiting[call].on in s.loads && s.loads[s.waiting[call].on].phase in {Settled, Over}
      && s' == s.Refreshed(call, s.waiting[call].started)
    case Answers(k, answer) => k in s.loads && s.loads[k].phase.Pending? && s' == s.Answered(k, answer)
    case Settles(k) => k in s.loads && s.loads[k].phase.Ran? && s' == s.Finished(k)
    case Reschedules(k) => k in s.loads && s.loads[k].phase.Settled? && s' == s.Rearmed(k, pace)
  }

  function Initial(visible: bool, busy: bool): State {
    State(None, None, false, 0, 0, None, None, None, 0, 0, 0, visible, busy, map[], map[])
  }

  // ------------------------------------------------------------------ what stays true

  // Some load has yet to run its schedule.
  ghost predicate Underway(s: State) { exists k :: k in s.loads && !s.loads[k].phase.Over? }

  ghost predicate Base(s: State) {
    && s.inFlight == s.controller && s.loading == s.controller.Some?
    && (s.controller.Some? ==>
          && s.controller.value == s.requested && s.controller.value in s.loads
          && s.loads[s.controller.value].started == s.generation
          && s.loads[s.controller.value].phase in {Pending, Ran}
          && (s.loads[s.controller.value].phase.Pending? ==> s.answered < s.controller.value)
          && s.subscribers > 0)
    && s.answered <= s.requested
    && (forall k :: k in s.loads ==> 0 < k <= s.requested && s.loads[k].started <= s.generation)
    && (forall call :: call in s.waiting ==> s.waiting[call].on in s.loads && s.waiting[call].started <= s.generation)
  }

  ghost predicate Inv(s: State) {
    && Base(s)
    && (s.Watched() ==> s.timer.Some? || Underway(s))
    && (s.timer.Some? ==> s.Watched())
  }

  lemma StillUnderway(s: State, s': State)
    requires Underway(s)
    requires forall k :: k in s.loads && !s.loads[k].phase.Over? ==> k in s'.loads && !s'.loads[k].phase.Over?
    ensures Underway(s')
  {
  }

  lemma LoadUnderway(s: State, k: nat)
    requires k in s.loads && !s.loads[k].phase.Over?
    ensures Underway(s)
  {
  }

  lemma KeepFetched(s: State)
    requires Base(s) && s.Watched() && s.inFlight.None?
    ensures Inv(s.Fetched())
  {
  }

  lemma KeepTicked(s: State, pace: Pace)
    requires Base(s)
    ensures Inv(s.Ticked(pace))
  {
  }

  lemma KeepTurned(s: State, isVisible: bool, pace: Pace)
    requires Inv(s)
    ensures Inv(s.Turned(isVisible, pace))
  {
    hide State.Ticked, Underway;
    if s.subscribers > 0 && isVisible {
      if s.inFlight.Some? {
        LoadUnderway(s.Turned(isVisible, pace), s.controller.value);
      } else {
        KeepTicked(s.(visible := isVisible, failures := 0), pace);
      }
    }
  }

  lemma KeepJoined(s: State, pace: Pace)
    requires Inv(s)
    ensures Inv(s.Joined(pace))
  {
    hide State.Ticked, Underway;
    if s.subscribers == 0 {
      KeepTicked(s.(subscribers := 1, failures := 0), pace);
    } else if Underway(s) {
      StillUnderway(s, s.Joined(pace));
    }
  }

  lemma KeepLeft(s: State)
    requires Inv(s) && s.subscribers > 0
    ensures Inv(s.Left())
  {
    hide Underway;
    if Underway(s) {
      StillUnderway(s, s.Left());
    }
  }

  lemma KeepRefreshed(s: State, call: nat, started: nat)
    requires Inv(s)
    ensures Inv(s.Refreshed(call, started))
  {
    hide Underway, State.Fetched;
    var here := s.(waiting := s.waiting - {call});
    if s.Wanted(started) && s.inFlight.None? {
      KeepFetched(here.(failures := 0));
    } else if Underway(s) {
      StillUnderway(s, s.Refreshed(call, started));
    }
  }

  lemma KeepAnswered(s: State, k: nat, answer: Answer)
    requires Inv(s) && k in s.loads && s.loads[k].phase.Pending?
    ensures Inv(s.Answered(k, answer))
  {
    hide Underway;
    LoadUnderway(s.Answered(k, answer), k);
  }

  lemma KeepFinished(s: State, k: nat)
    requires Inv(s) && k in s.loads && s.loads[k].phase.Ran?
    ensures Inv(s.Finished(k))
  {
    hide Underway;
    LoadUnderway(s.Finished(k), k);
  }

  lemma KeepRearmed(s: State, k: nat, pace: Pace)
    requires Inv(s) && k in s.loads && s.loads[k].phase.Settled?
    ensures Inv(s.Rearmed(k, pace))
  {
  }

  lemma KeepNext(pace: Pace, s: State, e: Event, s': State)
    requires Inv(s) && Next(pace, s, e, s')
    ensures Inv(s')
  {
    hide Base, Underway, Pow2, State.Ticked, State.Turned, State.Joined, State.Left, State.Refreshed, State.Answered,
      State.Finished, State.Rearmed;
    match e {
      case TimerFires => KeepTicked(s, pace);
      case Visibility(isVisible) => KeepTurned(s, isVisible, pace);
      case Busy(isBusy) => KeepBusy(s, isBusy);
      case Subscribe => KeepJoined(s, pace);
      case Unsubscribe => KeepLeft(s);
      case Refresh(call) => KeepRefreshed(s, call, s.generation);
      case Resume(call) => KeepRefreshed(s, call, s.waiting[call].started);
      case Answers(k, answer) => KeepAnswered(s, k, answer);
      case Settles(k) => KeepFinished(s, k);
      case Reschedules(k) => KeepRearmed(s, k, pace);
    }
  }

  lemma KeepBusy(s: State, isBusy: bool)
    requires Inv(s)
    ensures Inv(s.(busy := isBusy))
  {
  }

  // ------------------------------------------------------------------ runs

  datatype Trace = Trace(states: seq<State>, events: seq<Event>)

  ghost predicate Run(pace: Pace, t: Trace) {
    && |t.states| == |t.events| + 1 && (exists visible, busy :: t.states[0] == Initial(visible, busy))
    && forall i :: 0 <= i < |t.events| ==> Next(pace, t.states[i], t.events[i], t.states[i + 1])
  }

  lemma {:induction false} InvAlways(pace: Pace, t: Trace, i: nat)
    requires Run(pace, t) && i < |t.states|
    ensures Inv(t.states[i])
  {
    hide Inv, Next;
    if i == 0 {
      InitialInv(t.states[0]);
    } else {
      InvAlways(pace, t, i - 1);
      KeepNext(pace, t.states[i - 1], t.events[i - 1], t.states[i]);
    }
  }

  lemma InitialInv(s: State)
    requires exists visible, busy :: s == Initial(visible, busy)
    ensures Inv(s)
  {
  }

  // Whenever somebody watches a visible page, a timer is armed or a load is under way that will arm it.
  lemma NeverForgotten(pace: Pace, t: Trace, i: nat)
    requires Run(pace, t) && i < |t.states| && t.states[i].Watched()
    ensures t.states[i].timer.Some? || Underway(t.states[i])
  {
    hide Run, Underway;
    InvAlways(pace, t, i);
  }

  // Step i accepts the answer of load k.
  predicate Accepts(t: Trace, i: nat, k: nat)
    requires i < |t.events| < |t.states|
  {
    t.events[i].Answers? && t.events[i].load == k && t.events[i].answer.Value? && t.states[i].Current(k)
  }

  predicate Onward(s: State, s': State) {
    && s.answered <= s'.answered && s.requested <= s'.requested && s.generation <= s'.generation
    && forall k :: k in s.loads ==> k in s'.loads && s'.loads[k].started == s.loads[k].started
  }

  lemma FetchedOnward(s: State)
    requires forall k :: k in s.loads ==> k <= s.requested
    ensures Onward(s, s.Fetched()) && s.Fetched().answered == s.answered
  {
  }

  lemma TickedOnward(s: State, pace: Pace)
    requires forall k :: k in s.loads ==> k <= s.requested
    ensures Onward(s, s.Ticked(pace)) && s.Ticked(pace).answered == s.answered
  {
  }

  lemma TurnedOnward(s: State, isVisible: bool, pace: Pace)
    requires forall k :: k in s.loads ==> k <= s.requested
    ensures Onward(s, s.Turned(isVisible, pace)) && s.Turned(isVisible, pace).answered == s.answered
  {
    hide State.Ticked, Pow2;
    TickedOnward(s.(visible := isVisible, failures := 0), pace);
  }

  lemma JoinedOnward(s: State, pace: Pace)
    requires forall k :: k in s.loads ==> k <= s.requested
    ensures Onward(s, s.Joined(pace)) && s.Joined(pace).answered == s.answered
  {
    hide State.Ticked, Pow2;
    TickedOnward(s.(subscribers := s.subscribers + 1, failures := 0), pace);
  }

  lemma RefreshedOnward(s: State, call: nat, started: nat)
    requires forall k :: k in s.loads ==> k <= s.requested
    ensures Onward(s, s.Refreshed(call, started)) && s.Refreshed(call, started).answered == s.answered
  {
    hide State.Fetched;
    FetchedOnward(s.(waiting := s.waiting - {call}, failures := 0));
  }

  lemma NumbersElse(pace: Pace, s: State, e: Event, s': State)
    requires (forall k :: k in s.loads ==> k <= s.requested) && Next(pace, s, e, s') && !e.Answers? && !e.Settles?
    requires !e.Reschedules?
    ensures Onward(s, s') && s'.answered == s.answered
  {
    hide State.Fetched, State.Ticked, State.Turned, State.Joined, State.Refreshed, Pow2;
    match e {
      case TimerFires => TickedOnward(s, pace);
      case Visibility(isVisible) => TurnedOnward(s, isVisible, pace);
      case Subscribe => JoinedOnward(s, pace);
      case Refresh(call) => RefreshedOnward(s, call, s.generation);
      case Resume(call) => RefreshedOnward(s, call, s.waiting[call].started);
      case _ =>
    }
  }

  lemma Numbers(pace: Pace, s: State, e: Event, s': State)
    requires Inv(s) && Next(pace, s, e, s')
    ensures Onward(s, s') && s'.answered <= s'.requested
    ensures s'.answered != s.answered ==> e.Answers? && s'.answered == e.load > s.answered && e.load == s.requested
  {
    hide Underway, Pow2, State.Ticked, State.Turned, State.Joined, State.Left, State.Refreshed;
    if !e.Answers? && !e.Settles? && !e.Reschedules? {
      NumbersElse(pace, s, e, s');
    }
  }

  // The numbers of accepted answers strictly increase and never exceed the number of loads started:
  // once a load's answer is accepted, no earlier or equal load's answer is accepted any more.
  lemma {:induction false} AcceptedInOrder(pace: Pace, t: Trace, i: nat, j: nat, k: nat, m: nat)
    requires Run(pace, t) && i < j < |t.events| && Accepts(t, i, k) && Accepts(t, j, m)
    ensures k < m <= t.states[j].requested
  {
    hide Inv, Next, State.Answered;
    InvAlways(pace, t, i);
    InvAlways(pace, t, j);
    Numbers(pace, t.states[i], t.events[i], t.states[i + 1]);
    Accepted(pace, t.states[i], t.events[i], t.states[i + 1], k);
    AnsweredGrows(pace, t, i + 1, j);
    Accepted(pace, t.states[j], t.events[j], t.states[j + 1], m);
  }

  lemma Accepted(pace: Pace, s: State, e: Event, s': State, k: nat)
    requires Inv(s) && Next(pace, s, e, s') && e.Answers? && e.load == k && e.answer.Value? && s.Current(k)
    ensures s.answered < k == s'.answered == s.requested && s'.data == Some(e.answer.value) && s'.error == None
    ensures s'.failures == 0
  {
  }

  lemma {:induction false} AnsweredGrows(pace: Pace, t: Trace, i: nat, j: nat)
    requires Run(pace, t) && i <= j < |t.states|
    ensures t.states[i].answered <= t.states[j].answered && t.states[i].generation <= t.states[j].generation
    ensures forall k :: k in t.states[i].loads ==>
            k in t.states[j].loads && t.states[j].loads[k].started == t.states[i].loads[k].started
    decreases j
  {
    hide Inv, Next;
    if i < j {
      AnsweredGrows(pace, t, i, j - 1);
      InvAlways(pace, t, j - 1);
      Numbers(pace, t.states[j - 1], t.events[j - 1], t.states[j]);
    }
  }

  // Two loads are never acceptable at once, and an acceptable one is the latest started.
  lemma OneAcceptable(pace: Pace, t: Trace, i: nat, k: nat)
    requires Run(pace, t) && i < |t.states| && t.states[i].Current(k)
    ensures k == t.states[i].requested && forall m :: t.states[i].Current(m) ==> m == k
  {
    hide Run, Underway;
    InvAlways(pace, t, i);
  }

  // The page is hidden while watched, or the last subscriber leaves.
  predicate Ends(s: State, e: Event) {
    (e == Visibility(false) && s.subscribers > 0) || (e == Unsubscribe && s.subscribers == 1)
  }

  // No load started before the page was hidden or left changes data, error, answered or the count of
  // failures afterwards, whatever it answers and however late.
  lemma NothingFromBefore(pace: Pace, t: Trace, i: nat, j: nat, k: nat)
    requires Run(pace, t) && i < j < |t.events| && Ends(t.states[i], t.events[i]) && k in t.states[i].loads
    requires t.events[j].Answers? && t.events[j].load == k
    ensures var s, s' := t.states[j], t.states[j + 1];
            s'.data == s.data && s'.error == s.error && s'.answered == s.answered && s'.failures == s.failures
  {
    hide Inv, Underway, Pow2;
    InvAlways(pace, t, i);
    assert Next(pace, t.states[i], t.events[i], t.states[i + 1]);
    AnsweredGrows(pace, t, i, j);
    AnsweredGrows(pace, t, i + 1, j);
    StartedBefore(t.states[i], k);
    assert Next(pace, t.states[j], t.events[j], t.states[j + 1]);
  }

  lemma StartedBefore(s: State, k: nat)
    requires Inv(s) && k in s.loads
    ensures s.loads[k].started <= s.generation
  {
  }

  // A refresh that waits keeps the generation it began in.
  lemma WaitKept(pace: Pace, s: State, e: Event, s': State, call: nat)
    requires Next(pace, s, e, s') && call in s.waiting && call in s'.waiting
    ensures s'.waiting[call].started == s.waiting[call].started
  {
    hide Pow2, State.Ticked;
    match e {
      case TimerFires => TickedOne(s, pace);
      case Visibility(isVisible) => TickedOne(s.(visible := isVisible, failures := 0), pace);
      case Subscribe => TickedOne(s.(subscribers := s.subscribers + 1, failures := 0), pace);
      case _ =>
    }
  }

  lemma {:induction false} WaitsAlong(pace: Pace, t: Trace, i: nat, j: nat, call: nat)
    requires Run(pace, t) && i <= j < |t.states| && forall n :: i <= n <= j ==> call in t.states[n].waiting
    ensures t.states[j].waiting[call].started == t.states[i].waiting[call].started
    decreases j
  {
    hide Next;
    if i < j {
      WaitsAlong(pace, t, i, j - 1, call);
      assert Next(pace, t.states[j - 1], t.events[j - 1], t.states[j]);
      WaitKept(pace, t.states[j - 1], t.events[j - 1], t.states[j], call);
    }
  }

  // A refresh that was waiting when the page was hidden or left does nothing when its wait is over.
  lemma RefreshFromBefore(pace: Pace, t: Trace, i: nat, j: nat, call: nat)
    requires Run(pace, t) && i < j < |t.events| && Ends(t.states[i], t.events[i]) && t.events[j] == Resume(call)
    requires forall n :: i <= n <= j ==> call in t.states[n].waiting
    ensures t.states[j + 1] == t.states[j].(waiting := t.states[j].waiting - {call})
  {
    hide Inv, Underway, Pow2;
    InvAlways(pace, t, i);
    WaitedBefore(t.states[i], call);
    assert Next(pace, t.states[i], t.events[i], t.states[i + 1]);
    AnsweredGrows(pace, t, i + 1, j);
    WaitsAlong(pace, t, i, j, call);
    assert Next(pace, t.states[j], t.events[j], t.states[j + 1]);
  }

  lemma WaitedBefore(s: State, call: nat)
    requires Inv(s) && call in s.waiting
    ensures s.waiting[call].started <= s.generation
  {
  }

  // The step asks for a load: the timer of a watched page fires, the first subscriber comes to a visible
  // page, a page with subscribers is shown, or a refresh that has not been overtaken goes on.
  predicate Due(s: State, e: Event) {
    match e
    case TimerFires => s.Watched()
    case Subscribe => s.subscribers == 0 && s.visible
    case Visibility(isVisible) => isVisible && s.subscribers > 0
    case Refresh(_) => s.Watched()
    case Resume(call) => s.Watched() && call in s.waiting && s.waiting[call].started == s.generation
    case _ => false
  }

  // A refresh that is due while a load is under way waits for that load.
  predicate Waits(s: State, call: nat, s': State) {
    if s.inFlight.None? then call !in s'.waiting
    else call in s'.waiting && s'.waiting[call] == Waiting(s.generation, s.inFlight.value)
  }

  // A load is started exactly when it is due, the page is not busy and no load is under way: one, for
  // somebody who watches a visible page. A refresh that finds one under way waits for it instead.
  lemma LoadsExactlyWhenDue(pace: Pace, t: Trace, i: nat)
    requires Run(pace, t) && i < |t.events|
    ensures var s, s' := t.states[i], t.states[i + 1];
            && s'.requested == s.requested + (if Due(s, t.events[i]) && !s.busy && s.inFlight.None? then 1 else 0)
            && (s'.requested != s.requested ==> s'.Watched() && !s'.busy)
            && (t.events[i].Refresh? || t.events[i].Resume? ==>
                  Due(s, t.events[i]) && !s.busy ==> Waits(s, t.events[i].call, s'))
  {
    hide Next;
    assert Next(pace, t.states[i], t.events[i], t.states[i + 1]);
    StartedExactly(pace, t.states[i], t.events[i], t.states[i + 1]);
  }

  lemma TickedOne(s: State, pace: Pace)
    ensures var s' := s.Ticked(pace);
            && s'.requested == s.requested + (if s.Watched() && !s.busy && s.inFlight.None? then 1 else 0)
            && s'.visible == s.visible && s'.subscribers == s.subscribers && s'.busy == s.busy
            && s'.waiting == s.waiting
  {
    hide Pow2;
  }

  lemma StartedExactly(pace: Pace, s: State, e: Event, s': State)
    requires Next(pace, s, e, s')
    ensures s'.requested == s.requested + (if Due(s, e) && !s.busy && s.inFlight.None? then 1 else 0)
    ensures s'.requested != s.requested ==> s'.Watched() && !s'.busy
    ensures e.Refresh? || e.Resume? ==> Due(s, e) && !s.busy ==> Waits(s, e.call, s')
  {
    hide Pow2, State.Ticked;
    match e {
      case TimerFires => TickedOne(s, pace);
      case Visibility(isVisible) => TickedOne(s.(visible := isVisible, failures := 0), pace);
      case Subscribe => TickedOne(s.(subscribers := s.subscribers + 1, failures := 0), pace);
      case _ =>
    }
  }

  // What a refresh starts is a load of its own: numbered after every load started before the call.
  lemma {:induction false} RefreshLoadsAfresh(pace: Pace, t: Trace, i: nat, j: nat)
    requires Run(pace, t) && i <= j < |t.events| && t.events[i].Refresh?
    requires (j == i || (t.events[j].Resume? && t.events[j].call == t.events[i].call))
    requires t.states[j + 1].requested != t.states[j].requested
    ensures t.states[j + 1].controller == Some(t.states[j + 1].requested)
    ensures t.states[j + 1].requested > t.states[i].requested
    ensures t.states[j + 1].failures == 0
  {
    hide Underway, Pow2, Inv;
    RequestedGrows(pace, t, i, j);
    assert Next(pace, t.states[j], t.events[j], t.states[j + 1]);
  }

  lemma {:induction false} RequestedGrows(pace: Pace, t: Trace, i: nat, j: nat)
    requires Run(pace, t) && i <= j < |t.states|
    ensures t.states[i].requested <= t.states[j].requested
    decreases j
  {
    hide Inv, Next;
    if i < j {
      RequestedGrows(pace, t, i, j - 1);
      InvAlways(pace, t, j - 1);
      Numbers(pace, t.states[j - 1], t.events[j - 1], t.states[j]);
    }
  }

  // ------------------------------------------------------------------ the backoff

  // Step i brings a failure that counts: the answer of the current load, rejected and not aborted.
  predicate FailsAt(t: Trace, i: nat)
    requires i < |t.events| < |t.states|
  {
    t.events[i].Answers? && t.events[i].answer.Rejected? && !t.events[i].answer.aborted
    && t.states[i].Current(t.events[i].load)
  }

  // Step i starts the count anew: an accepted value, the first subscription, the page shown to
  // subscribers, or a load that a refresh starts.
  predicate CalmsAt(t: Trace, i: nat)
    requires i < |t.events| < |t.states|
  {
    match t.events[i]
    case Answers(k, answer) => Accepts(t, i, k)
    case Subscribe => t.states[i].subscribers == 0
    case Visibility(isVisible) => isVisible && t.states[i].subscribers > 0
    case Refresh(_) => t.states[i + 1].requested > t.states[i].requested
    case Resume(_) => t.states[i + 1].requested > t.states[i].requested
    case _ => false
  }

  // The failures of steps from to i - 1.
  ghost function FailuresIn(t: Trace, from: nat, i: nat): set<nat>
    requires i <= |t.events| < |t.states|
  {
    set m: nat | from <= m < i && FailsAt(t, m)
  }

  // Where the count was last started anew before step i: the beginning, or right after a calming step.
  ghost function CountStart(t: Trace, i: nat): (from: nat)
    requires i <= |t.events| < |t.states|
    ensures from <= i && (from == 0 || CalmsAt(t, from - 1)) && forall m :: from <= m < i ==> !CalmsAt(t, m)
  {
    if i == 0 then 0 else if CalmsAt(t, i - 1) then i else CountStart(t, i - 1)
  }

  predicate ArmedBy(pace: Pace, n: nat, timer: Option<nat>) {
    timer == Some(Min(pace.interval * Pow2(n), pace.maximum))
  }

  lemma TickedArms(s: State, pace: Pace)
    ensures s.Ticked(pace).failures == s.failures && s.Ticked(pace).requested >= s.requested
    ensures s.Ticked(pace).timer == None || ArmedBy(pace, s.failures, s.Ticked(pace).timer)
  {
    hide Pow2;
  }

  // What one step makes of the count and of the timer.
  predicate Counted(pace: Pace, s: State, s': State, calms: bool, fails: bool) {
    && s'.failures == (if calms then 0 else if fails then s.failures + 1 else s.failures)
    && (s'.timer.Some? && s'.timer != s.timer ==> ArmedBy(pace, s'.failures, s'.timer))
  }

  lemma FailuresStep(pace: Pace, t: Trace, i: nat)
    requires i < |t.events| < |t.states| && Next(pace, t.states[i], t.events[i], t.states[i + 1])
    ensures Counted(pace, t.states[i], t.states[i + 1], CalmsAt(t, i), FailsAt(t, i))
    ensures t.events[i].Reschedules? || t.events[i].TimerFires? ==>
              var s' := t.states[i + 1]; s'.timer == None || ArmedBy(pace, s'.failures, s'.timer)
    ensures t.events[i].Reschedules? ==> (t.states[i + 1].timer.Some? <==> t.states[i + 1].Watched())
  {
    hide Pow2, State.Ticked, State.Fetched;
    var s := t.states[i];
    match t.events[i] {
      case TimerFires => TickedArms(s, pace);
      case Visibility(isVisible) => TickedArms(s.(visible := isVisible, failures := 0), pace);
      case Subscribe => TickedArms(s.(subscribers := s.subscribers + 1, failures := 0), pace);
      case Refresh(call) => RefreshCounted(pace, s, call, s.generation);
      case Resume(call) => RefreshCounted(pace, s, call, s.waiting[call].started);
      case _ =>
    }
  }

  lemma RefreshCounted(pace: Pace, s: State, call: nat, started: nat)
    ensures var s' := s.Refreshed(call, started);
            Counted(pace, s, s', s'.requested > s.requested, false) && s'.timer == s.timer
  {
  }

  lemma {:induction false} FailuresCounted(pace: Pace, t: Trace, i: nat)
    requires Run(pace, t) && i < |t.states|
    ensures t.states[i].failures == |FailuresIn(t, CountStart(t, i), i)|
  {
    hide Next, CalmsAt, FailsAt, ArmedBy;
    var from := CountStart(t, i);
    if from == i {
      assert FailuresIn(t, from, i) == {};
      if i > 0 {
        FailuresStep(pace, t, i - 1);
      }
    } else {
      FailuresCounted(pace, t, i - 1);
      FailuresStep(pace, t, i - 1);
      assert FailuresIn(t, from, i) == FailuresIn(t, from, i - 1) + if FailsAt(t, i - 1) then {i - 1} else {};
    }
  }

  // A step that arms the timer does so with interval * 2^n, but at most the maximum, where n is the
  // number of failures that count since the count was last started anew; and the schedule after a load
  // arms it exactly if somebody watches a visible page.
  lemma BackoffDoubles(pace: Pace, t: Trace, i: nat)
    requires Run(pace, t) && i < |t.events|
    ensures var s, s' := t.states[i], t.states[i + 1];
            var n := |FailuresIn(t, CountStart(t, i + 1), i + 1)|;
            && (t.events[i].Reschedules? ==> (s'.timer.Some? <==> s'.Watched()))
            && (s'.timer.Some? && (t.events[i].Reschedules? || t.events[i].TimerFires? || s'.timer != s.timer) ==>
                  s'.timer == Some(Min(pace.interval * Pow2(n), pace.maximum)))
  {
    hide Next, Pow2;
    FailuresCounted(pace, t, i + 1);
    FailuresStep(pace, t, i);
  }

  // ------------------------------------------------------------------ what is shown

  // Step i brings an answer that counts: that of the current load, and not an abort.
  predicate TakenAt(t: Trace, i: nat)
    requires i < |t.events| < |t.states|
  {
    FailsAt(t, i) || (t.events[i].Answers? && Accepts(t, i, t.events[i].load))
  }

  predicate SameShown(s: State, s': State) { s'.data == s.data && s'.error == s.error && s'.answered == s.answered }

  lemma ShownStep(pace: Pace, t: Trace, i: nat)
    requires i < |t.events| < |t.states| && Next(pace, t.states[i], t.events[i], t.states[i + 1])
    ensures !TakenAt(t, i) ==> SameShown(t.states[i], t.states[i + 1])
    ensures TakenAt(t, i) ==> Shows(t.states[i], t.events[i].load, t.events[i].answer, t.states[i + 1])
  {
    hide Pow2, State.Ticked, State.Fetched;
    var s := t.states[i];
    match t.events[i] {
      case TimerFires => TickedShown(s, pace);
      case Visibility(isVisible) => TickedShown(s.(visible := isVisible, failures := 0), pace);
      case Subscribe => TickedShown(s.(subscribers := s.subscribers + 1, failures := 0), pace);
      case Refresh(call) => FetchedShown(s.(waiting := s.waiting - {call}, failures := 0));
      case Resume(call) => FetchedShown(s.(waiting := s.waiting - {call}, failures := 0));
      case _ =>
    }
  }

  lemma FetchedShown(s: State)
    ensures SameShown(s, s.Fetched())
  {
  }

  lemma TickedShown(s: State, pace: Pace)
    ensures SameShown(s, s.Ticked(pace))
  {
    hide Pow2;
  }

  // A value replaces the data and the error; a failure is shown beside the data there is.
  predicate Shows(s: State, load: nat, answer: Answer, s': State) {
    match answer
    case Value(value) => s'.data == Some(value) && s'.error == None && s'.answered == load
    case Rejected(reason, _) => s'.data == s.data && s'.error == Some(reason) && s'.answered == s.answered
  }

  // Data, error and answered are what the last answer that counts made of them, and nothing before any.
  lemma {:induction false} ShowsLatest(pace: Pace, t: Trace, m: int, i: nat)
    requires Run(pace, t) && -1 <= m < i < |t.states| && (m >= 0 ==> TakenAt(t, m))
    requires forall k :: m < k < i ==> !TakenAt(t, k)
    ensures var s := t.states[i];
            if m < 0 then s.data == None && s.error == None && s.answered == 0
            else Shows(t.states[m], t.events[m].load, t.events[m].answer, s)
    decreases i
  {
    hide Next, TakenAt;
    if i > 0 {
      ShownStep(pace, t, i - 1);
      if m < i - 1 {
        ShowsLatest(pace, t, m, i - 1);
      }
    }
  }
}

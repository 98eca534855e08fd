/** The in-process network: virtual channels on which dials and accepts meet. A dial first looks its
    listener up, then waits for an accept, for the listener's end or for its own cancellation;
    anything may happen in between. */
module VirtualSteps {

  class Listener {
    const name: string
    var done: bool
    var released: bool

    constructor (name: string)
      ensures this.name == name && !done && !released
    {
      this.name, done, released := name, false, false;
    }

    function View(): ListenerView
      reads this
    {
      ListenerView(done, released)
    }
  }

  // done: its end was announced; released: its Close has run to the end.
  datatype ListenerView = ListenerView(done: bool, released: bool)

  datatype Kind = Dial | Accept

  // A call has chosen its listener, waits on it, has met the call of the other kind, or has failed.
  datatype Stage = Chosen | Parked | Met(other: nat) | Failed
  datatype Call = Call(kind: Kind, listener: Listener, stage: Stage)

  datatype State = State(
    listeners: map<string, Listener>, at: map<Listener, ListenerView>, calls: map<nat, Call>, cancelled: set<nat>)

  // ------------------------------------------------------------------ steps

  datatype Action =
    | Listen(listener: Listener)
    | End(listener: Listener)
    | Release(listener: Listener)
    | Lookup(call: nat, name: string)
    | Arrive(call: nat, listener: Listener)
    | Meet(call: nat, waiting: nat)
    | Park(call: nat)
    | Fail(call: nat)
    | Cancel(call: nat)

  predicate Waits(s: State, c: nat, kind: Kind, l: Listener) {
    c in s.calls && s.calls[c] == Call(kind, l, Parked)
  }

  function Other(kind: Kind): Kind { if kind.Dial? then Accept else Dial }

  // A call waiting on the other side of a chosen one.
  predicate Waiting(s: State, c: nat, w: nat) {
    c in s.calls && s.calls[c].stage.Chosen? && w != c && Waits(s, w, Other(s.calls[c].kind), s.calls[c].listener)
  }

  // The call may give up: its listener has ended, or it is a dial that was cancelled.
  predicate MayFail(s: State, c: nat) {
    c in s.calls && s.calls[c].listener in s.at
    && (s.at[s.calls[c].listener].done || (s.calls[c].kind.Dial? && c in s.cancelled))
  }

  function With(s: State, c: nat, stage: Stage): State
    requires c in s.calls
  {
    s.(calls := s.calls[c := s.calls[c].(stage := stage)])
  }

  // Announcing the end wakes every call that waits on the listener.
  function Ended(s: State, l: Listener): State
    requires l in s.at
  {
    s.(at := s.at[l := s.at[l].(done := true)],
       calls := map c | c in s.calls ::
         if s.calls[c].listener == l && s.calls[c].stage.Parked? then s.calls[c].(stage := Failed) else s.calls[c])
  }

  ghost predicate Next(s: State, a: Action, s': State) {
    match a
    case Listen(l) =>
      l !in s.at && if l.name in s.listeners then s' == s
                    else s' == s.(listeners := s.listeners[l.name := l], at := s.at[l := ListenerView(false, false)])
    case End(l) => l in s.at && !s.at[l].done && s' == Ended(s, l)
    case Release(l) =>
      && l in s.at && s.at[l].done && !s.at[l].released
      && s' ==
           s.(listeners := if l.name in s.listeners && s.listeners[l.name] == l then s.listeners - {l.name}
           else s.listeners,
                  at := s.at[l := ListenerView(true, true)])
    case Lookup(c, name) =>
      && c !in s.calls
      && if name !in s.listeners || c in s.cancelled then s' == s
         else s' == s.(calls := s.calls[c := Call(Dial, s.listeners[name], Chosen)])
    case Arrive(c, l) => c !in s.calls && l in s.at && s' == s.(calls := s.calls[c := Call(Accept, l, Chosen)])
    case Meet(c, w) => Waiting(s, c, w) && s' == With(With(s, c, Met(w)), w, Met(c))
    case Park(c) =>
      && c in s.calls && s.calls[c].stage.Chosen? && !MayFail(s, c) && (forall w :: w in s.calls ==> !Waiting(s, c, w))
      && s' == With(s, c, Parked)
    case Fail(c) => MayFail(s, c) && s.calls[c].stage.Chosen? && s' == With(s, c, Failed)
    case Cancel(c) =>
      s' == (if c in s.calls && s.calls[c].kind.Dial? && s.calls[c].stage.Parked? then With(s, c, Failed) else s)
            .(cancelled := s.cancelled + {c})
  }

  // ------------------------------------------------------------------ what stays true

  // The listener under a name carries it; a listener that has not ended is the one under its name.
  ghost predicate Registered(s: State) {
    && (forall n :: n in s.listeners ==>
         s.listeners[n] in s.at && s.listeners[n].name == n && !s.at[s.listeners[n]].released)
    && (forall l :: l in s.at && !s.at[l].done ==> l.name in s.listeners && s.listeners[l.name] == l)
    && (forall l :: l in s.at && s.at[l].released ==> s.at[l].done)
  }

  predicate BothWait(c: Call, w: Call) { c.stage.Parked? && w.stage.Parked? && c.listener == w.listener }

  // Nobody waits on a listener that has ended, nor where the other side waits too.
  ghost predicate NoneStuck(s: State) {
    && (forall c :: c in s.calls ==> s.calls[c].listener in s.at)
    && (forall c :: c in s.calls && s.calls[c].stage.Parked? ==> !s.at[s.calls[c].listener].done)
    && (forall c, w :: c in s.calls && w in s.calls && BothWait(s.calls[c], s.calls[w]) ==>
         s.calls[c].kind == s.calls[w].kind)
  }

  predicate Paired(s: State, c: nat, w: nat) {
    && c in s.calls && w in s.calls && c != w
    && s.calls[c].stage == Met(w) && s.calls[w].stage == Met(c)
    && s.calls[c].listener == s.calls[w].listener && s.calls[c].kind != s.calls[w].kind
  }

  // Who has met somebody was met by it: a dial by an accept on the listener it looked up.
  ghost predicate AllPaired(s: State) {
    forall c :: c in s.calls && s.calls[c].stage.Met? ==> Paired(s, c, s.calls[c].stage.other)
  }

  ghost predicate Inv(s: State) { Registered(s) && NoneStuck(s) && AllPaired(s) }

  function Initial(): State { State(map[], map[], map[], {}) }

  lemma KeepMeet(s: State, c: nat, w: nat)
    requires Inv(s) && Waiting(s, c, w)
    ensures Inv(With(With(s, c, Met(w)), w, Met(c)))
  {
    var s' := With(With(s, c, Met(w)), w, Met(c));
    forall x | x in s'.calls && s'.calls[x].stage.Met? ensures Paired(s', x, s'.calls[x].stage.other) {
      if x != c && x != w {
        assert Paired(s, x, s.calls[x].stage.other);
      }
    }
  }

  lemma KeepPairs(s: State, s': State)
    requires AllPaired(s)
    requires forall c :: c in s.calls ==> c in s'.calls && (s.calls[c].stage.Met? ==> s'.calls[c] == s.calls[c])
    requires forall c :: c in s'.calls && s'.calls[c].stage.Met? ==> c in s.calls && s.calls[c].stage.Met?
    ensures AllPaired(s')
  {
  }

  lemma KeepNext(s: State, a: Action, s': State)
    requires Inv(s) && Next(s, a, s')
    ensures Inv(s')
  {
    hide Paired, AllPaired, Registered, NoneStuck;
    KeepRegistered(s, a, s');
    KeepNoneStuck(s, a, s');
    match a {
      case Meet(c, w) => KeepMeet(s, c, w);
      case _ => KeepPairs(s, s');
    }
  }

  lemma KeepRegistered(s: State, a: Action, s': State)
    requires Registered(s) && Next(s, a, s')
    ensures Registered(s')
  {
  }

  lemma KeepNoneStuck(s: State, a: Action, s': State)
    requires Registered(s) && NoneStuck(s) && Next(s, a, s')
    ensures NoneStuck(s')
  {
    hide NoneStuck;
    match a {
      case Meet(c, w) => FewerWait(s, s');
      case Park(c) => ParkedFits(s, c);
      case End(l) => NoneWaitsOn(s, l);
      case Lookup(c, name) => FewerWait(s, s');
      case Arrive(c, l) => FewerWait(s, s');
      case Fail(c) => FewerWait(s, s');
      case Cancel(c) => FewerWait(s, s');
      case Listen(l) => FewerWait(s, s');
      case Release(l) => FewerWait(s, s');
    }
  }

  lemma FewerWait(s: State, s': State)
    requires NoneStuck(s)
    requires forall c :: c in s'.calls ==>
             if c in s.calls then s'.calls[c].listener == s.calls[c].listener else s'.calls[c].listener in s'.at
    requires forall c :: c in s'.calls && s'.calls[c].stage.Parked? ==> c in s.calls && s'.calls[c] == s.calls[c]
    requires forall l :: l in s.at ==> l in s'.at && s'.at[l].done == s.at[l].done
    ensures NoneStuck(s')
  {
  }

  lemma ParkedFits(s: State, c: nat)
    requires NoneStuck(s) && c in s.calls && s.calls[c].stage.Chosen? && !MayFail(s, c)
    requires forall w :: w in s.calls ==> !Waiting(s, c, w)
    ensures NoneStuck(With(s, c, Parked))
  {
  }

  lemma NoneWaitsOn(s: State, l: Listener)
    requires NoneStuck(s) && l in s.at
    ensures NoneStuck(Ended(s, l))
  {
  }

  // ------------------------------------------------------------------ runs

  datatype Trace = Trace(states: seq<State>, actions: seq<Action>)

  ghost predicate Run(t: Trace) {
    && |t.states| == |t.actions| + 1 && t.states[0] == Initial()
    && forall i :: 0 <= i < |t.actions| ==> Next(t.states[i], t.actions[i], t.states[i + 1])
  }

  lemma {:induction false} InvAlways(t: Trace, i: nat)
    requires Run(t) && i < |t.states|
    ensures Inv(t.states[i])
  {
    hide Inv, Next;
    if i == 0 {
      InitialInv();
    } else {
      InvAlways(t, i - 1);
      KeepNext(t.states[i - 1], t.actions[i - 1], t.states[i]);
    }
  }

  lemma InitialInv()
    ensures Inv(Initial())
  {
  }

  // Two listeners that have not ended never share a name.
  lemma OneListenerPerName(t: Trace, i: nat, l: Listener, m: Listener)
    requires Run(t) && i < |t.states| && l in t.states[i].at && m in t.states[i].at
    requires !t.states[i].at[l].done && !t.states[i].at[m].done && l.name == m.name
    ensures l == m
  {
    hide Run, NoneStuck, AllPaired;
    InvAlways(t, i);
  }

  // A successful dial has met exactly one accept, on the listener it looked up, and the reverse: the
  // one it met has met it and nobody else.
  lemma DialsMatchAccepts(t: Trace, i: nat, c: nat)
    requires Run(t) && i < |t.states| && c in t.states[i].calls && t.states[i].calls[c].stage.Met?
    ensures var s := t.states[i];
            var w := s.calls[c].stage.other;
            && w in s.calls && s.calls[w].kind == Other(s.calls[c].kind) && s.calls[w].listener == s.calls[c].listener
            && s.calls[w].stage == Met(c)
            && forall x :: x in s.calls && s.calls[x].stage == Met(w) ==> x == c
  {
    hide Run, NoneStuck, Registered;
    InvAlways(t, i);
    var s := t.states[i];
    assert Paired(s, c, s.calls[c].stage.other);
    forall x | x in s.calls && s.calls[x].stage == Met(s.calls[c].stage.other) ensures x == c {
      assert Paired(s, x, s.calls[c].stage.other);
    }
  }

  // No two calls meet on a listener after its end was announced.
  lemma NoMeetingAfterEnd(t: Trace, i: nat)
    requires Run(t) && i < |t.actions| && t.actions[i].Meet?
    ensures var s, c := t.states[i], t.actions[i].call;
            c in s.calls && s.calls[c].listener in s.at && !s.at[s.calls[c].listener].done
  {
    hide Inv;
    InvAlways(t, i);
    assert Next(t.states[i], t.actions[i], t.states[i + 1]);
    Unended(t.states[i], t.actions[i].call, t.actions[i].waiting);
  }

  lemma Unended(s: State, c: nat, w: nat)
    requires Inv(s) && Waiting(s, c, w)
    ensures s.calls[c].listener in s.at && !s.at[s.calls[c].listener].done
  {
  }

  // Nobody is left waiting: not on a listener that has ended, and not while the other side waits too.
  lemma NobodyForgotten(t: Trace, i: nat, c: nat)
    requires Run(t) && i < |t.states| && c in t.states[i].calls && t.states[i].calls[c].stage.Parked?
    ensures var s := t.states[i];
            && s.calls[c].listener in s.at && !s.at[s.calls[c].listener].done
            && forall w :: !Waits(s, w, Other(s.calls[c].kind), s.calls[c].listener)
  {
    hide Run, Registered, AllPaired;
    InvAlways(t, i);
  }

  // Only the end of the listener under a name takes the name: a close that is late, because another
  // listener has the name by now, leaves that one alone.
  lemma CloseTakesOnlyItsOwn(t: Trace, i: nat, n: string)
    requires Run(t) && i < |t.actions| && n in t.states[i].listeners
    ensures t.actions[i] == Release(t.states[i].listeners[n])
            || (n in t.states[i + 1].listeners && t.states[i + 1].listeners[n] == t.states[i].listeners[n])
  {
  }

  // What is done stays done: a listener that has ended never accepts again, nor gets a name again.
  lemma {:induction false} EndIsForGood(t: Trace, i: nat, j: nat, l: Listener)
    requires Run(t) && i <= j < |t.states| && l in t.states[i].at && t.states[i].at[l].released
    ensures l in t.states[j].at && t.states[j].at[l] == ListenerView(true, true)
    ensures forall n :: n in t.states[j].listeners ==> t.states[j].listeners[n] != l
    decreases j - i
  {
    hide Inv, Initial;
    InvAlways(t, i);
    ReleasedIs(t.states[i], l);
    if i < j {
      assert Next(t.states[i], t.actions[i], t.states[i + 1]);
      EndIsForGood(t, i + 1, j, l);
    }
  }

  lemma ReleasedIs(s: State, l: Listener)
    requires Inv(s) && l in s.at && s.at[l].released
    ensures s.at[l].done && forall n :: n in s.listeners ==> s.listeners[n] != l
  {
  }

  // A dial whose context is cancelled before it has found its listener never reaches one.
  lemma {:induction false} CancelledNeverDials(t: Trace, i: nat, j: nat, c: nat)
    requires Run(t) && i <= j < |t.states| && c in t.states[i].cancelled && c !in t.states[i].calls
    ensures c in t.states[j].cancelled && (c in t.states[j].calls ==> t.states[j].calls[c].kind.Accept?)
    decreases j
  {
    hide Next;
    if i < j {
      CancelledNeverDials(t, i, j - 1, c);
      CancelledNext(t.states[j - 1], t.actions[j - 1], t.states[j], c);
    }
  }

  lemma CancelledNext(s: State, a: Action, s': State, c: nat)
    requires Next(s, a, s') && c in s.cancelled && (c in s.calls ==> s.calls[c].kind.Accept?)
    ensures c in s'.cancelled && (c in s'.calls ==> s'.calls[c].kind.Accept?)
  {
  }
}

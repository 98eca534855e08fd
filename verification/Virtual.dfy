/** The network object: its map of listeners changes under a lock, its channels pair calls and close. */
module Virtual {
  import opened Text
  import opened VirtualSteps

  class VirtualNetwork {
    var listeners: map<string, Listener>
    // The calls under way or over, and the contexts of dials that are done.
    var calls: map<nat, Call>
    var cancelled: set<nat>
    ghost var all: set<Listener>

    ghost function Views(): map<Listener, ListenerView>
      reads this, all
    {
      map l | l in all :: l.View()
    }

    ghost function Now(): State
      reads this, all
    {
      State(listeners, Views(), calls, cancelled)
    }

    ghost predicate Valid()
      reads this, all
    {
      Inv(Now())
    }

    constructor ()
      ensures Valid() && Now() == Initial()
    {
      listeners, calls, cancelled, all := map[], map[], {}, {};
      new;
      assert Views() == map[];
    }

    // A name in use is refused.
    method Listen(name: string) returns (made: Option<Listener>)
      requires Valid()
      modifies this`listeners, this`all
      ensures Valid() && made.None? == (name in old(listeners))
      ensures made.None? ==> Now() == old(Now())
      ensures made.Some? ==>
              fresh(made.value) && made.value.name == name && Next(old(Now()), Action.Listen(made.value), Now())
    {
      hide Inv;
      if name in listeners {
        return None;
      }
      ghost var before := Now();
      var l := new Listener(name);
      listeners := listeners[name := l];
      all := all + {l};
      assert Views() == before.at[l := l.View()];
      KeepNext(before, Action.Listen(l), Now());
      made := Some(l);
    }

    // The end is announced once; whoever waits on the listener is woken with nothing.
    method End(l: Listener) returns (first: bool)
      requires Valid() && l in all
      modifies this`calls, l`done
      ensures Valid() && first == !old(l.done) && l.done
      ensures first ==> l in old(Now()).at && Now() == Ended(old(Now()), l)
      ensures !first ==> Now() == old(Now())
    {
      hide Inv;
      ghost var before := Now();
      first := !l.done;
      if first {
        l.done := true;
        WakeAll(l);
        assert Views() == before.at[l := l.View()];
        KeepNext(before, Action.End(l), Now());
      }
    }

    method WakeAll(l: Listener)
      modifies this`calls
      ensures calls == map c | c in old(calls) ::
                if old(calls)[c].listener == l && old(calls)[c].stage.Parked? then old(calls)[c].(stage := Failed)
                    else old(calls)[c]
    {
      var todo := calls.Keys;
      while todo != {}
        invariant todo <= calls.Keys == old(calls).Keys
        invariant forall c :: c in calls ==>
                    calls[c] == if c !in todo && old(calls)[c].listener == l && old(calls)[c].stage.Parked?
                                then old(calls)[c].(stage := Failed) else old(calls)[c]
        decreases todo
      {
        var c :| c in todo;
        todo := todo - {c};
        if calls[c].listener == l && calls[c].stage.Parked? {
          calls := calls[c := calls[c].(stage := Failed)];
        }
      }
    }

    // The name is given back, unless another listener has it by now.
    method Release(l: Listener)
      requires Valid() && l in all && l.done && !l.released
      modifies this`listeners, l`released
      ensures Valid() && Next(old(Now()), Action.Release(l), Now())
    {
      hide Inv;
      ghost var before := Now();
      if l.name in listeners && listeners[l.name] == l {
        listeners := listeners - {l.name};
      }
      l.released := true;
      assert Views() == before.at[l := l.View()];
      KeepNext(before, Action.Release(l), Now());
    }

    // Closing again, or late, does nothing.
    method Close(l: Listener)
      requires Valid() && l in all
      modifies this`listeners, this`calls, l`done, l`released
      ensures Valid() && l.done
      ensures forall n :: n in old(listeners) && old(listeners)[n] != l ==>
              n in listeners && listeners[n] == old(listeners)[n]
      ensures old(l.done) ==> Now() == old(Now())
      ensures !old(l.done) ==> l.released && l.name !in listeners
      ensures !old(l.done) ==> l in old(Now()).at && Next(Ended(old(Now()), l), Action.Release(l), Now())
    {
      hide Inv;
      Ready(l);
      var first := End(l);
      if first {
        Release(l);
      }
    }

    lemma Ready(l: Listener)
      requires Valid() && l in all
      ensures !l.done ==> !l.released && l.name in listeners && listeners[l.name] == l
    {
    }

    // A dial under a live context finds the listener of its name.
    method Lookup(c: nat, name: string) returns (found: bool)
      requires Valid() && c !in calls
      modifies this`calls
      ensures Valid() && Next(old(Now()), Action.Lookup(c, name), Now())
      ensures found == (name in listeners && c !in cancelled)
    {
      hide Inv;
      ghost var before := Now();
      found := name in listeners && c !in cancelled;
      if found {
        calls := calls[c := Call(Dial, listeners[name], Chosen)];
      }
      assert Views() == before.at;
      KeepNext(before, Action.Lookup(c, name), Now());
    }

    // A select takes any case that is ready and waits only if none is.
    method Select(c: nat)
      requires Valid() && c in calls && calls[c].stage.Chosen? && calls[c].listener in all
      modifies this`calls
      ensures Valid()
      ensures Next(old(Now()), Park(c), Now()) || Next(old(Now()), Action.Fail(c), Now())
              || exists w :: w in old(calls) && Next(old(Now()), Action.Meet(c, w), Now())
    {
      hide Inv;
      ghost var before := Now();
      assert before.at[calls[c].listener] == calls[c].listener.View();
      var ended := calls[c].listener.done || (calls[c].kind.Dial? && c in cancelled);
      var prefers: bool := *;
      if w :| w in calls && w != c && calls[w] == Call(Other(calls[c].kind), calls[c].listener, Parked)
              && (!ended || prefers) {
        calls := calls[c := calls[c].(stage := Met(w))][w := calls[w].(stage := Met(c))];
        assert Views() == before.at;
        KeepNext(before, Action.Meet(c, w), Now());
        assert Next(before, Action.Meet(c, w), Now());
      } else if ended {
        calls := calls[c := calls[c].(stage := Failed)];
        assert Views() == before.at;
        KeepNext(before, Action.Fail(c), Now());
      } else {
        calls := calls[c := calls[c].(stage := Parked)];
        assert Views() == before.at;
        KeepNext(before, Park(c), Now());
      }
    }

    method Accept(c: nat, l: Listener)
      requires Valid() && c !in calls && l in all
      modifies this`calls
      ensures Valid() && c in calls && calls[c].kind == VirtualSteps.Accept && calls[c].listener == l
      ensures calls[c].stage.Parked? || calls[c].stage.Failed? || calls[c].stage.Met?
      ensures old(l.done) ==> calls[c].stage.Failed?
      ensures var arrived := old(Now()).(calls := old(calls)[c := Call(VirtualSteps.Accept, l, Chosen)]);
              Next(arrived, Park(c), Now()) || Next(arrived, Action.Fail(c), Now())
              || exists w :: w in arrived.calls && Next(arrived, Action.Meet(c, w), Now())
    {
      hide Inv;
      ghost var before := Now();
      calls := calls[c := Call(VirtualSteps.Accept, l, Chosen)];
      assert Views() == before.at;
      KeepNext(before, Action.Arrive(c, l), Now());
      ghost var arrived := Now();
      Select(c);
      AfterSelect(arrived, c, Now());
    }

    method Cancel(c: nat)
      requires Valid()
      modifies this`calls, this`cancelled
      ensures Valid() && Next(old(Now()), Action.Cancel(c), Now())
    {
      hide Inv;
      ghost var before := Now();
      cancelled := cancelled + {c};
      if c in calls && calls[c].kind.Dial? && calls[c].stage.Parked? {
        calls := calls[c := calls[c].(stage := Failed)];
      }
      assert Views() == before.at;
      KeepNext(before, Action.Cancel(c), Now());
    }
  }

  lemma AfterSelect(s: State, c: nat, s': State)
    requires Inv(s) && c in s.calls && s.calls[c].stage.Chosen? && s.calls[c].listener in s.at
    requires || Next(s, Park(c), s') || Next(s, Action.Fail(c), s')
             || exists w :: w in s.calls && Next(s, Action.Meet(c, w), s')
    ensures c in s'.calls && s'.calls[c].kind == s.calls[c].kind && s'.calls[c].listener == s.calls[c].listener
    ensures s'.calls[c].stage.Parked? || s'.calls[c].stage.Failed? || s'.calls[c].stage.Met?
    ensures s.at[s.calls[c].listener].done ==> s'.calls[c].stage.Failed?
  {
    hide Inv;
    if w :| w in s.calls && Next(s, Action.Meet(c, w), s') {
      Unended(s, c, w);
    }
  }
}

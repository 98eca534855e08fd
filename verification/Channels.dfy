/** The rules' serving loops on the in-process network, while the application reconciles them: what keeps
    runtimes apart, the order in which a loop listens and closes, and the network's names, taken together. */
module Channels {
  import Validate
  import Apps = ReloadSteps
  import Net = VirtualSteps

  // held: the listener a runtime's loop has, from the call that gave it until its Close has run to the end.
  datatype State = State(apps: Apps.State, net: Net.State, held: map<Apps.Runtime, Net.Listener>)

  function ChannelOf(r: Apps.Runtime): string { r.fingerprint.rule.listen.virtual }

  datatype Action =
    | Reconcile(step: Apps.Action)
    | Listen(runtime: Apps.Runtime, listener: Net.Listener)
    | End(runtime: Apps.Runtime)
    | Release(runtime: Apps.Runtime)
    | Traffic(call: Net.Action)

  // The loop of an unfinished runtime calls listen while it holds no listener, and returns, which makes
  // the runtime done, only when it holds none. All listeners of the network are the loops'.
  ghost predicate Next(env: Validate.Env, s: State, a: Action, s': State) {
    match a
    case Reconcile(step) =>
      && Apps.Next(env, s.apps, step, s'.apps) && s' == s.(apps := s'.apps)
      && forall r :: r in s'.apps.at && s'.apps.at[r].done ==> r !in s.held
    case Listen(r, l) =>
      && Idle(s, r) && l.name == ChannelOf(r) != "" && Net.Next(s.net, Net.Listen(l), s'.net)
      && s' == s.(net := s'.net, held := if l in s'.net.at then s.held[r := l] else s.held)
    case End(r) => r in s.held && Net.Next(s.net, Net.End(s.held[r]), s'.net) && s' == s.(net := s'.net)
    case Release(r) =>
      && r in s.held && Net.Next(s.net, Net.Release(s.held[r]), s'.net)
      && s' == s.(net := s'.net, held := s.held - {r})
    case Traffic(call) =>
      && !call.Listen? && !call.End? && !call.Release?
      && Net.Next(s.net, call, s'.net) && s' == s.(net := s'.net)
  }

  predicate Idle(s: State, r: Apps.Runtime) { r in s.apps.at && !s.apps.at[r].done && r !in s.held }

  function Initial(): State { State(Apps.Initial(), Net.Initial(), map[]) }

  // ------------------------------------------------------------------ what stays true

  ghost predicate Holder(s: State, l: Net.Listener) { exists r :: r in s.held && s.held[r] == l }

  // The name of a channel is taken only by the loop of an unfinished runtime that listens there.
  ghost predicate Inv(s: State) {
    && Apps.Inv(s.apps)
    && (forall r :: r in s.held ==> r in s.apps.at && !s.apps.at[r].done && s.held[r].name == ChannelOf(r))
    && (forall n :: n in s.net.listeners ==> s.net.listeners[n].name == n && Holder(s, s.net.listeners[n]))
  }

  // What a step does on the network.
  function NetStep(s: State, a: Action): Net.Action
    requires !a.Reconcile? && (a.End? || a.Release? ==> a.runtime in s.held)
  {
    match a
    case Listen(_, l) => Net.Listen(l)
    case End(r) => Net.End(s.held[r])
    case Release(r) => Net.Release(s.held[r])
    case Traffic(call) => call
  }

  // Only a listen gives a name, to its own listener, and a listener released has lost its name.
  lemma NamesChange(s: Net.State, a: Net.Action, s': Net.State)
    requires Net.Next(s, a, s')
    ensures forall n :: n in s'.listeners ==>
              || (n in s.listeners && s'.listeners[n] == s.listeners[n])
              || (a.Listen? && n == a.listener.name && s'.listeners[n] == a.listener && a.listener in s'.at)
    ensures a.Release? ==> forall n :: n in s'.listeners && s'.listeners[n] == a.listener ==> n != a.listener.name
  {
  }

  // Names come and go with the listeners of loops.
  lemma KeepNet(env: Validate.Env, s: State, a: Action, s': State)
    requires Inv(s) && Next(env, s, a, s') && !a.Reconcile?
    ensures Inv(s')
  {
    hide Apps.Inv, Net.Next;
    NamesChange(s.net, NetStep(s, a), s'.net);
    forall n | n in s'.net.listeners ensures s'.net.listeners[n].name == n && Holder(s', s'.net.listeners[n]) {
      if n in s.net.listeners && s'.net.listeners[n] == s.net.listeners[n] {
        var r :| r in s.held && s.held[r] == s.net.listeners[n];
        assert r in s'.held && s'.held[r] == s'.net.listeners[n];
      } else {
        assert a.Listen? && s'.held[a.runtime] == s'.net.listeners[n];
      }
    }
  }

  lemma KeepNext(env: Validate.Env, s: State, a: Action, s': State)
    requires Inv(s) && Next(env, s, a, s')
    ensures Inv(s')
  {
    hide Apps.Inv, Apps.Next, Net.Next;
    if a.Reconcile? {
      Apps.KeepNext(env, s.apps, a.step, s'.apps);
      Apps.RuntimesStay(env, s.apps, a.step, s'.apps);
      forall l | Holder(s, l) ensures Holder(s', l) {
        var r :| r in s.held && s.held[r] == l;
        assert r in s'.held && s'.held[r] == l;
      }
    } else {
      KeepNet(env, s, a, s');
    }
  }

  // The name a loop asks for is free: another holder's runtime would share its channel.
  lemma NameFree(s: State, r: Apps.Runtime)
    requires Inv(s) && Idle(s, r) && ChannelOf(r) != ""
    ensures ChannelOf(r) !in s.net.listeners
  {
    hide Apps.Inv;
    if ChannelOf(r) in s.net.listeners {
      var q :| q in s.held && s.held[q] == s.net.listeners[ChannelOf(r)];
      Apps.Apart(s.apps, r, q);
      Apps.Apart(s.apps, q, r);
      assert false;
    }
  }

  // ------------------------------------------------------------------ runs

  datatype Trace = Trace(states: seq<State>, actions: seq<Action>)

  ghost predicate Run(env: Validate.Env, t: Trace) {
    && |t.states| == |t.actions| + 1 && t.states[0] == Initial()
    && forall i :: 0 <= i < |t.actions| ==> Steps(env, t, i)
  }

  ghost predicate Steps(env: Validate.Env, t: Trace, i: nat)
    requires i < |t.actions| < |t.states|
  {
    Next(env, t.states[i], t.actions[i], t.states[i + 1])
  }

  lemma {:induction false} InvAlways(env: Validate.Env, t: Trace, i: nat)
    requires Run(env, t) && i < |t.states|
    ensures Inv(t.states[i])
  {
    hide Apps.Inv, Next;
    if i == 0 {
      Apps.InitialInv();
    } else {
      InvAlways(env, t, i - 1);
      assert Steps(env, t, i - 1);
      KeepNext(env, t.states[i - 1], t.actions[i - 1], t.states[i]);
    }
  }

  // No rule's loop is ever refused its channel, whatever reloads, reports, exits and ends come between:
  // the listener it asks for is the one then registered under the channel's name.
  lemma NeverRefused(env: Validate.Env, t: Trace, i: nat)
    requires Run(env, t) && i < |t.actions| && t.actions[i].Listen?
    ensures var r, l, net := t.actions[i].runtime, t.actions[i].listener, t.states[i + 1].net;
            && t.states[i + 1].held == t.states[i].held[r := l]
            && ChannelOf(r) in net.listeners && net.listeners[ChannelOf(r)] == l
  {
    hide Inv;
    InvAlways(env, t, i);
    assert Steps(env, t, i);
    NameFree(t.states[i], t.actions[i].runtime);
  }
}

/** The application's side of a reload. Reports and exits of runtimes come at any moment the code
    does not hold the lock: wherever that may matter, Meantime lets any number of them happen. */
module Reload {
  import opened Text
  import opened Config
  import opened Validate
  import opened ReloadSteps
  import RegistryState
  import RegistrySteps
  import Registry

  // The loop over a configuration's rules: disabled ones are dropped, the others get their fingerprint.
  method EnabledRules(rules: seq<Rule>, noProxy: seq<string>)
    returns (enabled: seq<Rule>, fingerprints: map<string, Fingerprint>)
    ensures enabled == Enabled(rules) && fingerprints == FingerprintsOf(enabled, noProxy)
  {
    hide Enabled, FingerprintsOf;
    enabled, fingerprints := [], map[];
    NoRules(noProxy);
    for i := 0 to |rules|
      invariant enabled == Enabled(rules[..i]) && fingerprints == FingerprintsOf(enabled, noProxy)
    {
      assert rules[..i + 1] == rules[..i] + [rules[i]];
      OneMore(rules[..i], rules[i]);
      if !rules[i].disabled {
        FingerprintMore(enabled, rules[i], noProxy);
        enabled := enabled + [rules[i]];
        var listed := if rules[i].forward.IsProxy() then Some(noProxy) else None;
        fingerprints := fingerprints[rules[i].name := Fingerprint(rules[i], listed)];
      }
    }
    assert rules[..|rules|] == rules;
  }

  lemma NoRules(noProxy: seq<string>)
    ensures Enabled([]) == [] && FingerprintsOf([], noProxy) == map[]
  {
  }

  lemma OneMore(rules: seq<Rule>, rule: Rule)
    ensures Enabled(rules + [rule]) == if rule.disabled then Enabled(rules) else Enabled(rules) + [rule]
  {
  }

  lemma FingerprintMore(rules: seq<Rule>, rule: Rule, noProxy: seq<string>)
    ensures FingerprintsOf(rules + [rule], noProxy) ==
            FingerprintsOf(rules, noProxy)[rule.name := FingerprintOf(rule, noProxy)]
  {
  }

  class App {
    const metrics: Registry.Registry
    var runtimes: map<string, Runtime>
    var rules: seq<RuleState>
    // Whether the root context has been made, and whether it has been cancelled.
    var rooted: bool
    var quit: bool
    var lastErr: Option<Error>
    // Every runtime ever started, as the goroutines that serve them.
    var all: set<Runtime>
    ghost var stopping: set<Runtime>
    ghost var plan: Plan
    ghost var phase: Phase

    ghost function States(): set<RuleState>
      reads this
    {
      set r | r in all :: r.state
    }

    ghost function Views(): map<Runtime, RunView>
      reads this, all, States()
    {
      map r | r in all :: r.View()
    }

    ghost function Now(): State
      reads this, all, States(), metrics
    {
      State(runtimes, Views(), stopping, metrics.rules, plan, phase, rooted, quit)
    }

    ghost predicate Valid()
      reads this, all, States(), metrics
    {
      && Inv(Now()) && (forall r, q :: r in all && q in all && r.state == q.state ==> r == q)
      && (forall r :: r in all ==> r.state.name == NameOf(r)) && forall x :: x in rules ==> x.name != ""
    }

    constructor (metrics: Registry.Registry)
      requires metrics.rules == map[]
      ensures Now() == Initial() && Valid() && this.metrics == metrics && all == {}
    {
      this.metrics := metrics;
      runtimes, rules, rooted, quit, lastErr := map[], [], false, false, None;
      all, stopping, plan, phase := {}, {}, Plan([], []), Idle;
      new;
      assert Views() == map[];
    }

    lemma Seen()
      ensures Now().at.Keys == all && forall r :: r in all ==> Now().at[r] == r.View()
    {
    }

    // ---------------------------------------------------------------- what happens meanwhile

    // A runtime reports the address it listens on, or a failed attempt.
    method Report(r: Runtime, address: Option<string>, failed: nat, error: string)
      requires Valid() && r in all && !r.done
      modifies r.state
      ensures Now() == old(Now()).(at := old(Now()).at[r := old(r.View()).(running := address.Some?)])
      ensures r.state.address == (if address.Some? then address.value else old(r.state.address))
      ensures r.state.attempt == (if address.Some? then 0 else failed)
      ensures r.state.err == if address.Some? then None else Some(error)
      ensures Valid() && Reported(old(Now()), Now())
    {
      hide Inv, Meanwhile, Reported;
      ghost var before := Now();
      r.state.Report(address, failed, error);
      assert Views() == before.at[r := r.View()];
      OneReport(before, r, r.View());
    }

    method Exit(r: Runtime)
      requires Valid() && r in all && r.cancelled
      modifies r`done
      ensures Valid() && Reported(old(Now()), Now()) && r.done
    {
      hide Inv, Meanwhile, Reported;
      ghost var before := Now();
      r.done := true;
      assert Views() == before.at[r := r.View()];
      OneReport(before, r, r.View());
    }

    // The end of the application: the root is cancelled, if there is one, and with it every runtime.
    method Quit()
      requires Valid()
      modifies this`quit, all`cancelled
      ensures Valid() && Now() == Ended(old(Now()))
      ensures rooted ==> quit && forall r :: r in all ==> r.cancelled
    {
      hide Inv;
      ghost var before := Now();
      if rooted {
        quit := true;
        forall r | r in all {
          r.cancelled := true;
        }
      }
      assert Views() == if rooted then map r | r in before.at :: before.at[r].(cancelled := true) else before.at;
      EndedMeanwhile(before);
      KeepMeanwhile(before, Now());
    }

    // Any number of reports, exits and ends, each a step of its own.
    method Meantime(ghost env: Env, ghost t0: Trace, ghost t1: Trace) returns (ghost t: Trace)
      requires Valid() && Along(env, t1, Now()) && Continues(t0, t1)
      modifies this`quit, all, States()
      ensures Valid() && Meanwhile(old(Now()), Now()) && Along(env, t, Now()) && Continues(t0, t)
    {
      hide Inv, Meanwhile, Reported, Ended, App.Now, App.Views, Along, Continues, Next;
      ghost var before := Now();
      var n: nat := *;
      t := t1;
      NoTime(before);
      while n > 0
        invariant Valid() && Meanwhile(before, Now()) && Along(env, t, Now()) && Continues(t0, t)
      {
        n := n - 1;
        ghost var now := Now();
        var kind: nat, address: Option<string>, failed: nat, error: string := *, *, *, *;
        if kind == 0 {
          if r :| r in all && !r.done {
            Report(r, address, failed, error);
            t := Elapsed(env, t0, t, now, Now());
          }
        } else if kind == 1 {
          if r :| r in all && r.cancelled {
            Exit(r);
            t := Elapsed(env, t0, t, now, Now());
          }
        } else {
          EndedHere(env, now);
          Quit();
          t := Step(env, t0, t, End, now, Now());
        }
        NoTime(now);
        MeanwhileMore(before, now, Now());
      }
    }

    lemma EndedHere(env: Env, s: State)
      requires Valid() && s == Now()
      ensures Meanwhile(s, Ended(s)) && Next(env, s, End, Ended(s))
    {
      hide Inv;
      EndedMeanwhile(s);
    }

    // ---------------------------------------------------------------- stopping

    // One runtime is looked at: kept if it is up and its fingerprint is still wanted, cancelled otherwise.
    method LookAt(name: string, fingerprints: map<string, Fingerprint>) returns (stopped: Option<Runtime>)
      requires Valid() && phase.Stopping? && name in phase.todo && name in runtimes
      requires fingerprints == FingerprintsOf(phase.next.rules, phase.next.noProxy)
      modifies this`runtimes, this`stopping, this`phase, runtimes.Values`cancelled
      ensures name in old(Now()).runtimes && old(runtimes[name]) in old(Now()).at && Now() == Looked(old(Now()), name)
      ensures Valid()
      ensures stopped == if old(Current(Now(), name)) then None else Some(old(runtimes[name]))
    {
      hide Inv, Current, FingerprintsOf;
      ghost var before := Now();
      KeepLook(before, name);
      Seen();
      var runtime := runtimes[name];
      CurrentHere(name);
      phase := phase.(todo := phase.todo - {name});
      assert Views() == before.at;
      if name in fingerprints && fingerprints[name] == runtime.fingerprint && runtime.state.running {
        stopped := None;
      } else {
        stopped := Some(runtime);
        Cancel(runtime, name);
      }
    }

    lemma CurrentHere(name: string)
      requires Valid() && phase.Stopping? && name in runtimes
      ensures var fingerprints := FingerprintsOf(phase.next.rules, phase.next.noProxy);
              && name in Now().runtimes && Now().runtimes[name] in Now().at
              && (Current(Now(), name) <==>
                  name in fingerprints && fingerprints[name] == runtimes[name].fingerprint &&
                    runtimes[name].state.running)
    {
      hide Inv, FingerprintsOf, Wants;
      Seen();
      NamesFit(Now());
      LookupDecides(phase.next, runtimes[name].fingerprint);
    }

    method Cancel(runtime: Runtime, name: string)
      requires runtime in all
      modifies this`runtimes, this`stopping, runtime`cancelled
      ensures Now() == old(Now()).(runtimes := old(runtimes) - {name}, stopping := old(stopping) + {runtime},
                                   at := old(Now()).at[runtime := old(runtime.View()).(cancelled := true)])
    {
      runtime.cancelled := true;
      runtimes := runtimes - {name};
      stopping := stopping + {runtime};
      assert Views() == old(Views())[runtime := runtime.View()];
    }

    // Waiting for a cancelled runtime: anything may happen until it is done.
    method Await(r: Runtime, ghost env: Env, ghost t0: Trace, ghost t1: Trace) returns (ghost t: Trace)
      requires Valid() && r in all && r.cancelled && Along(env, t1, Now()) && Continues(t0, t1)
      modifies this`quit, all, States()
      ensures Valid() && Meanwhile(old(Now()), Now()) && r.done && Along(env, t, Now()) && Continues(t0, t)
    {
      hide Inv, Meanwhile, Reported, App.Now, App.Views, Along, Continues, Next;
      ghost var before := Now();
      Seen();
      t := Meantime(env, t0, t1);
      ghost var now := Now();
      StillCancelled(before, now, r);
      Exit(r);
      t := Elapsed(env, t0, t, now, Now());
      MeanwhileMore(before, now, Now());
    }

    ghost predicate AllStopped()
      reads this, stopping
    {
      phase.Stopping? && phase.todo == {} && forall r :: r in stopping ==> r.done
    }

    // Runtimes that are stale or not up are cancelled and forgotten, then waited for.
    method StopStaleRules(fingerprints: map<string, Fingerprint>, ghost env: Env, ghost t0: Trace)
      returns (ghost t: Trace)
      requires Valid() && Along(env, t0, Now()) && phase.Stopping? && phase.todo == runtimes.Keys && stopping == {}
      requires fingerprints == FingerprintsOf(phase.next.rules, phase.next.noProxy)
      modifies this`runtimes, this`stopping, this`phase, this`quit, all, States()
      ensures Valid() && Along(env, t, Now()) && Continues(t0, t)
      ensures old(phase).Stopping? && phase == Stopping(old(phase).next, {}) && AllStopped()
    {
      hide Inv, Meanwhile, Looked, Current, App.Now, App.Views, Along, Continues, Next;
      t := t0;
      var todo := runtimes.Keys;
      var stopped: set<Runtime> := {};
      PhaseSeen();
      Known();
      ContinuesSelf(t0);
      while todo != {}
        invariant Valid() && Along(env, t, Now()) && Continues(t0, t)
        invariant phase == Stopping(old(phase).next, todo) && stopped == stopping && runtimes.Values <= all
        decreases todo
      {
        var name :| name in todo;
        todo := todo - {name};
        var runtime;
        runtime, t := LookNext(name, fingerprints, env, t0, t);
        if runtime.Some? {
          stopped := stopped + {runtime.value};
        }
      }
      t := AwaitAll(stopped, env, t0, t);
    }

    // After any time, the next runtime is looked at.
    method LookNext(name: string, fingerprints: map<string, Fingerprint>, ghost env: Env, ghost t0: Trace,
                    ghost t1: Trace)
      returns (stopped: Option<Runtime>, ghost t: Trace)
      requires Valid() && Along(env, t1, Now()) && Continues(t0, t1) && phase.Stopping? && name in phase.todo
      requires fingerprints == FingerprintsOf(phase.next.rules, phase.next.noProxy)
      modifies this`runtimes, this`stopping, this`phase, this`quit, all, States()
      ensures Valid() && Along(env, t, Now()) && Continues(t0, t) && runtimes.Values <= all
      ensures old(phase).Stopping? && phase == old(phase).(todo := old(phase).todo - {name})
      ensures stopping == if stopped.Some? then old(stopping) + {stopped.value} else old(stopping)
    {
      hide Inv, Meanwhile, Looked, Current, App.Now, App.Views, Along, Continues, ValidConfig;
      ghost var s1 := Now();
      t := Meantime(env, t0, t1);
      MeantimePhase(s1, Now());
      ghost var s2 := Now();
      NamesFit(s2);
      PhaseSeen();
      Known();
      stopped := LookAt(name, fingerprints);
      t := Step(env, t0, t, Look(name), s2, Now());
      LookPhase(s2, name);
      Known();
    }

    method AwaitAll(stopped: set<Runtime>, ghost env: Env, ghost t0: Trace, ghost t1: Trace) returns (ghost t: Trace)
      requires Valid() && phase.Stopping? && phase.todo == {} && stopped == stopping && Along(env, t1, Now())
      requires Continues(t0, t1)
      modifies this`quit, all, States()
      ensures Valid() && AllStopped() && Along(env, t, Now()) && Continues(t0, t)
    {
      hide Inv, Meanwhile, App.Now, App.Views, Along, Continues, Next;
      t := t1;
      var waiting := stopped;
      Known();
      while waiting != {}
        invariant waiting <= stopped && Valid() && Along(env, t, Now()) && Continues(t0, t)
        invariant forall r :: r in stopped ==> r in all && r.cancelled && (r !in waiting ==> r.done)
        decreases waiting
      {
        var r :| r in waiting;
        ghost var s1 := Now();
        Seen();
        t := Await(r, env, t0, t);
        Seen();
        MeanwhileIs(s1, Now());
        waiting := waiting - {r};
      }
    }

    lemma Known()
      requires Valid()
      ensures runtimes.Values <= all && forall n :: n in runtimes ==> runtimes[n].state.name == n
      ensures forall r :: r in stopping ==> r in all && r.cancelled
    {
    }

    lemma PhaseSeen()
      ensures Now().phase == phase && Now().stopping == stopping && Now().runtimes == runtimes && Now().plan == plan
      ensures Now().registered == metrics.rules && Now().quit == quit
    {
    }

    lemma MeantimePhase(s: State, s': State)
      requires Meanwhile(s, s') && s' == Now()
      ensures s'.phase == s.phase == phase && s'.stopping == s.stopping == stopping
      ensures s'.runtimes == s.runtimes == runtimes
    {
    }

    lemma LookPhase(s: State, name: string)
      requires s.phase.Stopping? && name in s.runtimes && s.runtimes[name] in s.at && Now() == Looked(s, name)
      ensures phase == s.phase.(todo := s.phase.todo - {name})
      ensures stopping == if Current(s, name) then s.stopping else s.stopping + {s.runtimes[name]}
      ensures forall r :: r in runtimes.Values ==> r in s.runtimes.Values
    {
    }

    lemma StillCancelled(s: State, s': State, r: Runtime)
      requires Meanwhile(s, s') && s' == Now() && r in all && r in s.at && s.at[r].cancelled
      ensures r.cancelled
    {
    }

    // ---------------------------------------------------------------- starting

    // Every enabled rule gets a state, that of its runtime if there still is one, and the statistics
    // follow the new configuration.
    method SyncRuleStates(redact: RegistrySteps.Redact, enabled: seq<Rule>) returns (states: seq<RuleState>)
      requires Valid() && metrics.Valid() && AllStopped() && enabled == phase.next.rules
      modifies this`rules, this`stopping, this`plan, this`phase, metrics, metrics.rules.Values
      ensures Valid() && metrics.Valid() && rules == states
      ensures Synced(old(Now()), Now())
      ensures |states| == |enabled| && forall i :: 0 <= i < |enabled| ==>
                if enabled[i].name in runtimes then states[i] == runtimes[enabled[i].name].state
                else fresh(states[i]) && !states[i].running && StateFor(states[i], enabled[i])
      ensures forall i :: 0 <= i < |enabled| ==> states[i].name == enabled[i].name
      ensures forall i, j :: 0 <= i < j < |enabled| && enabled[i].name !in runtimes && enabled[j].name !in runtimes ==>
              states[i] != states[j]
    {
      hide Inv, Registry.Registry.Valid, Kept, StateFor, Synced;
      ghost var before := Now();
      Known();
      states := MakeStates(enabled);
      assert Views() == before.at;
      NamesFit(before);
      SyncMetrics(redact, enabled, before);
      Publish(states);
      BeginStarting(before);
    }

    method Publish(states: seq<RuleState>)
      modifies this`rules
      ensures rules == states && Now() == old(Now())
    {
      rules := states;
      assert Views() == old(Views());
    }

    ghost method BeginStarting(before: State)
      requires Now() == before.(registered := metrics.rules) && Inv(before) && AllStopped()
      requires Kept(before, before.phase.next, metrics.rules)
      requires forall r, q :: r in all && q in all && r.state == q.state ==> r == q
      requires (forall r :: r in all ==> r.state.name == NameOf(r)) && forall x :: x in rules ==> x.name != ""
      modifies this`stopping, this`plan, this`phase
      ensures Valid() && Synced(before, Now())
    {
      hide Inv, Kept;
      AllDone(before);
      stopping, plan, phase := {}, phase.next, Starting(0);
      assert Views() == before.at;
      KeepSync(before, metrics.rules);
    }

    method SyncMetrics(redact: RegistrySteps.Redact, enabled: seq<Rule>, ghost before: State)
      requires metrics.Valid() && metrics.rules == before.registered && before.phase.Stopping?
      requires enabled == before.phase.next.rules && PlanOk(before.phase.next)
      requires before == Now()
      modifies metrics, metrics.rules.Values
      ensures metrics.Valid() && Kept(before, before.phase.next, metrics.rules)
      ensures Now() == before.(registered := metrics.rules)
    {
      hide Registry.Registry.Valid, RegistrySteps.Sync, Registry.Registry.Now, Kept;
      ghost var ms := metrics.Now();
      metrics.LiveSeen();
      metrics.Sync(redact, enabled);
      metrics.LiveSeen();
      SyncKept(redact, ms, metrics.Now(), before, enabled);
      assert Views() == before.at;
    }

    lemma AllDone(s: State)
      requires s.at == Views() && Inv(s) && forall r :: r in s.stopping ==> r.done
      ensures forall r :: r in s.stopping ==> r in s.at && s.at[r].done
    {
    }

    static method NewState(rule: Rule) returns (state: RuleState)
      ensures fresh(state) && !state.running && StateFor(state, rule) && state.name == rule.name
    {
      state := new RuleState(rule);
    }

    method MakeStates(enabled: seq<Rule>) returns (states: seq<RuleState>)
      requires forall n :: n in runtimes ==> runtimes[n].state.name == n
      ensures |states| == |enabled| && forall i :: 0 <= i < |enabled| ==>
                if enabled[i].name in runtimes then states[i] == runtimes[enabled[i].name].state
                else fresh(states[i]) && !states[i].running && StateFor(states[i], enabled[i])
      ensures forall i :: 0 <= i < |enabled| ==> states[i].name == enabled[i].name
      ensures forall i, j :: 0 <= i < j < |enabled| && enabled[i].name !in runtimes && enabled[j].name !in runtimes ==>
              states[i] != states[j]
    {
      hide StateFor;
      states := [];
      for index := 0 to |enabled|
        invariant |states| == index && forall i :: 0 <= i < index ==>
                    if enabled[i].name in runtimes then states[i] == runtimes[enabled[i].name].state
                    else fresh(states[i]) && !states[i].running && StateFor(states[i], enabled[i])
        invariant forall i :: 0 <= i < index ==> states[i].name == enabled[i].name
        invariant forall i, j :: 0 <= i < j < index && enabled[i].name !in runtimes && enabled[j].name !in runtimes ==>
                  states[i] != states[j]
      {
        if enabled[index].name in runtimes {
          states := states + [runtimes[enabled[index].name].state];
        } else {
          var state := NewState(enabled[index]);
          states := states + [state];
        }
      }
    }

    // Each rule with a runtime has its state; the others' belong to no runtime, and to one rule each.
    ghost predicate StatesReady(enabled: seq<Rule>, states: seq<RuleState>, from: nat)
      reads this, States(), states
    {
      && |states| == |enabled| && (forall i :: 0 <= i < |enabled| ==> states[i].name == enabled[i].name)
      && (forall i :: 0 <= i < |enabled| && enabled[i].name in runtimes ==>
           states[i] == runtimes[enabled[i].name].state)
      && (forall i :: from <= i < |enabled| && enabled[i].name !in runtimes ==>
           states[i] !in States() && !states[i].running)
      && (forall i, j :: from <= i < j < |enabled| && enabled[i].name !in runtimes && enabled[j].name !in runtimes ==>
           states[i] != states[j])
    }

    lemma FingerprintHere(enabled: seq<Rule>, index: nat)
      requires Valid() && index < |enabled| && enabled == plan.rules
      ensures enabled[index].name in FingerprintsOf(enabled, plan.noProxy)
      ensures FingerprintsOf(enabled, plan.noProxy)[enabled[index].name] == FingerprintOf(enabled[index], plan.noProxy)
      ensures !phase.Stopping? ==> enabled[index].name in metrics.rules
    {
      hide Wants, Clash;
      NamesFit(Now());
      FingerprintAt(enabled, plan.noProxy, index);
      assert Names(plan, enabled[index].name);
    }

    // A runtime for a rule that has none; if its chain cannot be built it is done at once.
    method StartRule(rule: Rule, state: RuleState, fingerprint: Fingerprint, built: bool) returns (ghost made: Runtime)
      requires Valid() && phase.Starting? && phase.index < |plan.rules| && rule == plan.rules[phase.index]
      requires rule.name !in runtimes && fingerprint == FingerprintOf(rule, plan.noProxy) && rule.name in metrics.rules
      requires state !in States() && !state.running && state.name == rule.name
      modifies this`runtimes, this`all, this`phase
      ensures Valid() && fresh(made) && all == old(all) + {made} && made.state == state
      ensures old(phase).Starting? && StartedBy(old(Now()), rule, Some(made), built, Now())
    {
      hide Inv, App.Now, App.Views;
      ghost var before := Now();
      PhaseSeen();
      made := Launch(rule.name, state, fingerprint, built);
      KeepStart(before, Some(made), built, Now());
    }

    method Launch(name: string, state: RuleState, fingerprint: Fingerprint, built: bool) returns (ghost made: Runtime)
      requires phase.Starting? && name in metrics.rules && !state.running
      modifies this`runtimes, this`all, this`phase
      ensures fresh(made) && made.fingerprint == fingerprint && made.state == state
      ensures made.metrics == metrics.rules[name]
      ensures all == old(all) + {made} && made !in old(Now()).at && old(phase).Starting?
      ensures Now() == old(Now()).(runtimes := old(runtimes)[name := made], phase := Starting(old(phase).index + 1),
                                   at := old(Now()).at[made := if built then RunView(false, quit, false)
                                                               else RunView(false, true, true)])
    {
      ghost var before := Now();
      var runtime := new Runtime(fingerprint, state, metrics.rules[name], quit || !built, !built);
      runtimes := runtimes[name := runtime];
      all := all + {runtime};
      phase := Starting(phase.index + 1);
      made := runtime;
      assert Views() == before.at[runtime := runtime.View()];
    }

    method Skip()
      requires Valid() && phase.Starting? && phase.index < |plan.rules| && plan.rules[phase.index].name in runtimes
      modifies this`phase
      ensures Valid() && Now() == old(Now()).(phase := Starting(old(phase).index + 1))
    {
      hide Inv;
      ghost var before := Now();
      phase := Starting(phase.index + 1);
      assert Views() == before.at;
      KeepStart(before, None, true, Now());
    }

    method FinishStarting(ghost enabled: seq<Rule>, ghost states: seq<RuleState>)
      requires Valid() && phase.Starting? && phase.index == |plan.rules| && StatesReady(enabled, states, |enabled|)
      modifies this`phase
      ensures Valid() && Now() == old(Now()).(phase := Idle) && StatesReady(enabled, states, |enabled|)
    {
      hide Inv;
      ghost var before := Now();
      phase := Idle;
      assert Views() == before.at;
      KeepFinish(before);
    }

    // Every rule without a runtime gets one; which chains can be built is left open.
    method StartMissing(enabled: seq<Rule>, fingerprints: map<string, Fingerprint>, states: seq<RuleState>,
                        ghost env: Env, ghost t0: Trace)
      returns (ghost t: Trace)
      requires Valid() && Along(env, t0, Now()) && phase == Starting(0) && enabled == plan.rules
      requires fingerprints == FingerprintsOf(enabled, plan.noProxy) && StatesReady(enabled, states, 0)
      modifies this`runtimes, this`all, this`phase, this`quit, all, States(), set x | x in states
      ensures Valid() && Along(env, t, Now()) && Continues(t0, t) && phase == Idle && plan == old(plan)
      ensures StatesReady(enabled, states, |enabled|)
    {
      hide Inv, StartedBy, Meanwhile, App.Views, App.Now, App.States, StatesReady, Along, Continues, ValidConfig;
      t := t0;
      ContinuesSelf(t0);
      for index := 0 to |enabled|
        invariant Valid() && Along(env, t, Now()) && Continues(t0, t) && phase == Starting(index) && plan == old(plan)
        invariant StatesReady(enabled, states, index)
        invariant all <= old(all) + (set r | r in all && fresh(r)) && States() <= old(States()) + (set x | x in states)
      {
        t := MeantimeReady(index, enabled, states, env, t0, t);
        t := StartHere(index, enabled, fingerprints, states, env, t0, t);
      }
      ghost var s2 := Now();
      PhaseSeen();
      FinishStarting(enabled, states);
      t := Step(env, t0, t, Finish, s2, Now());
      PhaseSeen();
    }

    method MeantimeReady(ghost index: nat, ghost enabled: seq<Rule>, ghost states: seq<RuleState>,
                         ghost env: Env, ghost t0: Trace, ghost t1: Trace) returns (ghost t: Trace)
      requires Valid() && StatesReady(enabled, states, index) && Along(env, t1, Now()) && Continues(t0, t1)
      modifies this`quit, all, States()
      ensures Valid() && Along(env, t, Now()) && Continues(t0, t)
      ensures StatesReady(enabled, states, index) && States() == old(States())
    {
      hide Inv, App.Views, App.Now, Meanwhile, Along, Continues;
      t := Meantime(env, t0, t1);
    }

    method StartMade(index: nat, enabled: seq<Rule>, fingerprint: Fingerprint, states: seq<RuleState>, built: bool)
      returns (ghost made: Runtime)
      requires Valid() && phase == Starting(index) && index < |enabled| && enabled == plan.rules
      requires enabled[index].name in metrics.rules
      requires enabled[index].name !in runtimes && fingerprint == FingerprintOf(enabled[index], plan.noProxy)
      requires StatesReady(enabled, states, index)
      modifies this`runtimes, this`all, this`phase
      ensures Valid() && fresh(made) && all == old(all) + {made} && made.state == states[index]
      ensures StartedBy(old(Now()), enabled[index], Some(made), built, Now())
      ensures StatesReady(enabled, states, index + 1)
    {
      hide Inv, StartedBy, App.Views, App.Now;
      ghost var before := Now();
      PhaseSeen();
      NamesFit(before);
      made := StartRule(enabled[index], states[index], fingerprint, built);
      StartedPhase(before, enabled[index], made, built);
    }

    method SkipReady(index: nat, ghost enabled: seq<Rule>, ghost states: seq<RuleState>)
      requires Valid() && phase == Starting(index) && index < |enabled| && enabled == plan.rules
      requires enabled[index].name in runtimes
      requires StatesReady(enabled, states, index)
      modifies this`phase
      ensures Valid() && Now() == old(Now()).(phase := Starting(index + 1)) && StatesReady(enabled, states, index + 1)
      ensures StartedBy(old(Now()), enabled[index], None, true, Now())
    {
      hide Inv, App.Views, App.Now;
      PhaseSeen();
      Skip();
    }

    method StartHere(index: nat, enabled: seq<Rule>, fingerprints: map<string, Fingerprint>, states: seq<RuleState>,
                     ghost env: Env, ghost t0: Trace, ghost t1: Trace) returns (ghost t: Trace)
      requires Valid() && phase == Starting(index) && index < |enabled| && Along(env, t1, Now()) && Continues(t0, t1)
      requires enabled == plan.rules && fingerprints == FingerprintsOf(enabled, plan.noProxy)
      requires StatesReady(enabled, states, index)
      modifies this`runtimes, this`all, this`phase
      ensures Valid() && Along(env, t, Now()) && Continues(t0, t) && phase == Starting(index + 1) && plan == old(plan)
      ensures StatesReady(enabled, states, index + 1)
      ensures fresh(all - old(all)) && old(all) <= all && States() <= old(States()) + (set x | x in states)
    {
      hide Inv, StartedBy, App.Views, App.Now, Along, Continues, App.StatesReady, ValidConfig;
      ghost var s2 := Now();
      FingerprintHere(enabled, index);
      PhaseSeen();
      ReadyLength(enabled, states, index);
      if enabled[index].name !in runtimes {
        var built: bool := *;
        ghost var made := StartMade(index, enabled, fingerprints[enabled[index].name], states, built);
        t := Step(env, t0, t1, Start(Some(made), built), s2, Now());
        StartedPhase(s2, enabled[index], made, built);
      } else {
        SkipReady(index, enabled, states);
        t := Step(env, t0, t1, Start(None, true), s2, Now());
        PhaseSeen();
      }
    }

    lemma ReadyLength(enabled: seq<Rule>, states: seq<RuleState>, from: nat)
      requires StatesReady(enabled, states, from)
      ensures |states| == |enabled|
    {
    }

    lemma StartedPhase(s: State, rule: Rule, made: Runtime, built: bool)
      requires s.phase.Starting? && StartedBy(s, rule, Some(made), built, Now())
      ensures phase == Starting(s.phase.index + 1) && plan == s.plan && runtimes == s.runtimes[rule.name := made]
    {
    }

    // ---------------------------------------------------------------- the whole reload

    // The states shown are those of the runtimes, in the order of the rules.
    ghost predicate Published()
      reads this
    {
      |rules| == |plan.rules| && forall i :: 0 <= i < |rules| ==>
        plan.rules[i].name in runtimes && rules[i] == runtimes[plan.rules[i].name].state
    }

    // A configuration that cannot be loaded or is not valid is remembered as an error and changes
    // nothing else; any other is applied, by the steps t of one reload.
    method Reload(redact: RegistrySteps.Redact, env: Env, conf: Option<Config>, noProxy: seq<string>)
      returns (err: Option<Error>, ghost t: Trace)
      requires Valid() && metrics.Valid() && phase == Idle
      modifies this, all, States(), metrics, metrics.rules.Values
      ensures Valid() && metrics.Valid() && phase == Idle && lastErr == err
      ensures err.None? <==> conf.Some? && ValidConfig(env, conf.value)
      ensures err.Some? ==> Now() == old(Now())
      ensures err.None? ==> plan == PlanOf(conf.value, noProxy) && Settled(Now())
      ensures err.None? ==> OneReload(env, t, conf.value, noProxy, old(Now()), Now()) && Published()
    {
      hide Inv, ValidConfig, Explains, OneReload, Settled, Registry.Registry.Valid, PlanOf, Published;
      t := Trace([Now()], []);
      err := Validate.Validate(env, conf);
      SetError(err);
      if err.None? {
        t := Accepted(redact, env, conf.value, noProxy);
      }
    }

    method Accepted(redact: RegistrySteps.Redact, ghost env: Env, conf: Config, noProxy: seq<string>)
      returns (ghost t: Trace)
      requires Valid() && metrics.Valid() && phase == Idle && ValidConfig(env, conf)
      modifies this`runtimes, this`rules, this`all, this`stopping, this`plan, this`phase, this`rooted, this`quit
      modifies all, States(), metrics, metrics.rules.Values
      ensures Valid() && metrics.Valid() && phase == Idle && plan == PlanOf(conf, noProxy) && Settled(Now())
      ensures OneReload(env, t, conf, noProxy, old(Now()), Now()) && Published()
    {
      hide Inv, ValidConfig, OneReload, Settled, Registry.Registry.Valid, PlanOf, App.Views, App.Now, App.StatesReady;
      var enabled, fingerprints := EnabledRules(conf.rules, noProxy);
      t := Apply(redact, env, conf, noProxy, enabled, fingerprints);
      PhaseSeen();
      IdleSettled(Now());
      PlanIs(conf, noProxy);
      PublishedNow(enabled);
    }

    lemma PublishedNow(enabled: seq<Rule>)
      requires Settled(Now()) && enabled == plan.rules && StatesReady(enabled, rules, |enabled|)
      ensures Published()
    {
      forall i | 0 <= i < |enabled| ensures enabled[i].name in runtimes {
        assert Names(plan, enabled[i].name);
      }
    }

    method SetError(err: Option<Error>)
      requires Valid()
      modifies this`lastErr
      ensures lastErr == err && Now() == old(Now()) && Valid()
    {
      hide Inv;
      lastErr := err;
      assert Views() == old(Views());
    }

    method Apply(redact: RegistrySteps.Redact, ghost env: Env, ghost conf: Config, ghost noProxy: seq<string>,
                 enabled: seq<Rule>, fingerprints: map<string, Fingerprint>) returns (ghost t: Trace)
      requires Valid() && metrics.Valid() && phase == Idle && ValidConfig(env, conf)
      requires enabled == Enabled(conf.rules) && fingerprints == FingerprintsOf(enabled, noProxy)
      modifies this`runtimes, this`rules, this`all, this`stopping, this`plan, this`phase, this`rooted, this`quit, all,
        States(), metrics, metrics.rules.Values
      ensures Valid() && metrics.Valid() && phase == Idle && plan == PlanOf(conf, noProxy)
      ensures OneReload(env, t, conf, noProxy, old(Now()), Now()) && StatesReady(enabled, rules, |enabled|)
    {
      hide Inv, ValidConfig, Registry.Registry.Valid, App.Views, App.Now, Along, Continues, Next, App.StatesReady,
        Enabled, FingerprintsOf;
      ghost var before := Now();
      ghost var t0 := Open(env, conf, noProxy);
      var states;
      ghost var t1;
      states, t1 := StopAndSync(redact, env, enabled, fingerprints, t0);
      t := StartMissing(enabled, fingerprints, states, env, t1);
      ContinuesMore(t0, t1, t);
      Applied(env, conf, noProxy, before, t0, t, Now());
    }

    method StopAndSync(redact: RegistrySteps.Redact, ghost env: Env, enabled: seq<Rule>,
                       fingerprints: map<string, Fingerprint>, ghost t0: Trace)
      returns (states: seq<RuleState>, ghost t: Trace)
      requires Valid() && metrics.Valid() && Along(env, t0, Now()) && phase.Stopping? && phase.todo == runtimes.Keys
      requires stopping == {}
      requires enabled == phase.next.rules && fingerprints == FingerprintsOf(phase.next.rules, phase.next.noProxy)
      modifies this`runtimes, this`rules, this`stopping, this`plan, this`phase, this`quit, all, States(), metrics,
        metrics.rules.Values
      ensures Valid() && metrics.Valid() && Along(env, t, Now()) && Continues(t0, t)
      ensures old(phase).Stopping? && phase == Starting(0) && plan == old(phase).next && StatesReady(enabled, states, 0)
      ensures rules == states
      ensures forall x :: x in states ==> x in States() || fresh(x)
    {
      hide Inv, Registry.Registry.Valid, App.Views, App.Now, Along, Continues, App.StatesReady, StateFor, ValidConfig;
      t := StopStaleRules(fingerprints, env, t0);
      ghost var stopped := Now();
      PhaseSeen();
      states := SyncRuleStates(redact, enabled);
      ghost var synced := Now();
      t := Step(env, t0, t, Sync(synced.registered), stopped, synced);
      PhaseSeen();
      Known();
      ReadyNow(enabled, states);
    }

    // A valid configuration is accepted: there is a root from now on, and its plan comes next.
    method Open(ghost env: Env, ghost conf: Config, ghost noProxy: seq<string>) returns (ghost t: Trace)
      requires Valid() && phase == Idle && ValidConfig(env, conf)
      modifies this`phase, this`rooted
      ensures Valid() && phase == Stopping(PlanOf(conf, noProxy), runtimes.Keys) && stopping == {}
      ensures Along(env, t, Now()) && t == Trace([old(Now()), Now()], [Accept(conf, noProxy)])
    {
      hide Inv, ValidConfig;
      ghost var before := Now();
      phase, rooted := Stopping(PlanOf(conf, noProxy), runtimes.Keys), true;
      assert Views() == before.at;
      KeepNext(env, before, Accept(conf, noProxy), Now());
      NamesFit(before);
      t := Trace([before, Now()], [Accept(conf, noProxy)]);
    }

    lemma ReadyNow(enabled: seq<Rule>, states: seq<RuleState>)
      requires |states| == |enabled| && forall i :: 0 <= i < |enabled| ==> states[i].name == enabled[i].name
      requires forall i :: 0 <= i < |enabled| && enabled[i].name in runtimes ==>
               states[i] == runtimes[enabled[i].name].state
      requires forall i :: 0 <= i < |enabled| && enabled[i].name !in runtimes ==>
               states[i] !in States() && !states[i].running
      requires forall i, j ::
                 0 <= i < j < |enabled| && enabled[i].name !in runtimes && enabled[j].name !in runtimes ==>
                   states[i] != states[j]
      ensures StatesReady(enabled, states, 0)
    {
    }
  }

  // A runtime not yet done reports, or a cancelled one exits.
  lemma OneReport(s: State, r: Runtime, v: RunView)
    requires Inv(s) && r in s.at
    requires if v.done then s.at[r].cancelled && v == s.at[r].(done := true)
             else !s.at[r].done && v == s.at[r].(running := v.running)
    ensures Inv(s.(at := s.at[r := v])) && Reported(s, s.(at := s.at[r := v]))
  {
    hide Inv;
    KeepMeanwhile(s, s.(at := s.at[r := v]));
  }

  lemma NoTime(s: State)
    ensures Meanwhile(s, s)
  {
  }

  lemma MeanwhileMore(s: State, s1: State, s2: State)
    requires Meanwhile(s, s1) && Meanwhile(s1, s2)
    ensures Meanwhile(s, s2)
  {
  }

  // What the invariants say of names.
  lemma NamesFit(s: State)
    requires Inv(s)
    ensures forall n :: n in s.runtimes ==> s.runtimes[n].fingerprint.rule.name == n && s.runtimes[n] in s.at
    ensures s.phase.Stopping? ==> s.phase.todo <= s.runtimes.Keys && PlanOk(s.phase.next)
    ensures s.phase.Idle? ==> s.stopping == {}
    ensures PlanOk(s.plan) && (!s.phase.Stopping? ==> forall n :: Names(s.plan, n) ==> n in s.registered)
  {
  }

  lemma MeanwhileIs(s: State, s': State)
    requires Meanwhile(s, s')
    ensures s'.at.Keys == s.at.Keys && s'.stopping == s.stopping
    ensures forall r :: r in s.at ==> (s.at[r].cancelled ==> s'.at[r].cancelled) && (s.at[r].done ==> s'.at[r].done)
  {
  }

  predicate StateFor(state: RuleState, rule: Rule) {
    state.name == rule.name && state.listenAddress == rule.listen.Address() && state.target == rule.forward.Target()
    && state.remote == rule.listen.Remote() && state.virtual == (rule.listen.virtual != "")
    && state.http == (rule.forward.IsProxy() && exists p :: p in rule.listen.Schemes() && p.kind == HTTP)
  }

  // The statistics have followed, and starting begins.
  ghost predicate Synced(s: State, s': State) {
    && s.phase.Stopping? && s.phase.todo == {} && (forall r :: r in s.stopping ==> r in s.at && s.at[r].done)
    && Kept(s, s.phase.next, s'.registered)
    && s' == s.(stopping := {}, plan := s.phase.next, registered := s'.registered, phase := Starting(0))
  }

  lemma SyncKept(redact: RegistrySteps.Redact, ms: RegistryState.State, ms': RegistryState.State, s: State,
                 enabled: seq<Rule>)
    requires RegistrySteps.Sync(redact, ms, ms', enabled) && ms.rules == s.registered && s.phase.Stopping?
    requires enabled == s.phase.next.rules
    ensures Kept(s, s.phase.next, ms'.rules)
  {
    hide RegistrySteps.RuleSynced;
    forall n ensures n in ms'.rules <==> Names(s.phase.next, n) {
      if i :| 0 <= i < |enabled| && enabled[i].name == n {
        assert RegistrySteps.Chosen(ms, ms', enabled[i].name);
      }
    }
    forall n | n in ms'.rules && n in ms.rules ensures ms'.rules[n] == ms.rules[n] {
      var i :| 0 <= i < |enabled| && enabled[i].name == n;
      assert RegistrySteps.Chosen(ms, ms', enabled[i].name);
    }
  }

  lemma KeepFinish(s: State)
    requires Inv(s) && s.phase.Starting? && s.phase.index == |s.plan.rules|
    ensures Inv(s.(phase := Idle))
  {
  }

  // ------------------------------------------------------------------ the steps taken

  // The steps t lead to state s.
  ghost predicate Along(env: Env, t: Trace, s: State) { Path(env, t) && Last(t) == s }

  // t goes on from t0, ends included, without accepting another configuration.
  ghost predicate Continues(t0: Trace, t: Trace) {
    && t0.states <= t.states && t0.actions <= t.actions
    && forall k :: |t0.actions| <= k < |t.actions| ==> !t.actions[k].Accept?
  }

  lemma ContinuesSelf(t: Trace)
    ensures Continues(t, t)
  {
  }

  ghost function Step(env: Env, t0: Trace, t: Trace, a: Action, s: State, s': State): (t': Trace)
    requires Along(env, t, s) && Next(env, s, a, s') && Continues(t0, t) && !a.Accept?
    ensures Along(env, t', s') && Continues(t0, t')
  {
    hide Next;
    PathExtends(env, t, a, s');
    Extend(t, a, s')
  }

  ghost function Elapsed(env: Env, t0: Trace, t: Trace, s: State, s': State): (t': Trace)
    requires Along(env, t, s) && Reported(s, s') && Continues(t0, t)
    ensures Along(env, t', s') && Continues(t0, t') && Meanwhile(s, s')
  {
    Step(env, t0, t, Elapse, s, s')
  }

  lemma ContinuesMore(t0: Trace, t1: Trace, t2: Trace)
    requires Continues(t0, t1) && Continues(t1, t2)
    ensures Continues(t0, t2)
  {
  }

  // The steps of one reload: the configuration is accepted first, and no other.
  ghost predicate OneReload(env: Env, t: Trace, conf: Config, noProxy: seq<string>, s: State, s': State) {
    && Path(env, t) && t.actions != [] && t.states[0] == s && Last(t) == s' && t.actions[0] == Accept(conf, noProxy)
    && forall k :: 1 <= k < |t.actions| ==> !t.actions[k].Accept?
  }

  // A rule that is up when a reload looks at it, and whose definition the reload does not change,
  // keeps its runtime, which is not cancelled unless the application ends meanwhile.
  lemma ReloadLeavesUnchanged(env: Env, t: Trace, conf: Config, noProxy: seq<string>, s: State, s': State, r: Runtime)
    requires Inv(s) && s.phase.Idle? && OneReload(env, t, conf, noProxy, s, s')
    requires NameOf(r) in s.runtimes && s.runtimes[NameOf(r)] == r && Wants(PlanOf(conf, noProxy), r.fingerprint)
    requires forall k :: 0 <= k < |t.actions| && t.actions[k] == Look(NameOf(r)) ==> Up(t.states[k], r)
    ensures NameOf(r) in s'.runtimes && s'.runtimes[NameOf(r)] == r
    ensures r in s.at && r in s'.at && (!s'.quit && !s.at[r].cancelled ==> !s'.at[r].cancelled)
  {
    hide Inv, Next, Wants, PlanOf;
    NamesFit(s);
    UnchangedStays(env, t, 0, |t.states| - 1, r);
  }

  lemma Applied(env: Env, conf: Config, noProxy: seq<string>, s: State, t0: Trace, t: Trace, s': State)
    requires t0.states != [] && t0 == Trace([s, Last(t0)], [Accept(conf, noProxy)]) && Continues(t0, t)
    requires Along(env, t, s')
    ensures OneReload(env, t, conf, noProxy, s, s')
  {
  }

  lemma PlanIs(conf: Config, noProxy: seq<string>)
    ensures PlanOf(conf, noProxy).rules == Enabled(conf.rules)
  {
  }
}

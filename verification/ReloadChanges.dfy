/** When a reload replaces a runtime: exactly when its rule, or what it depends on, has changed, or it is
    down as the reload looks at it. */
module ReloadChanges {
  import opened Config
  import opened Validate
  import opened ReloadSteps
  import opened Reload

  // The rule called n is enabled before and after, word for word the same; a rule that serves a proxy
  // also depends on the no-proxy list, any other does not.
  ghost predicate Unchanged(plan: Plan, conf: Config, noProxy: seq<string>, n: string) {
    exists rule: Rule ::
      && rule in plan.rules && rule in conf.rules && rule.name == n && !rule.disabled
      && (rule.forward.IsProxy() ==> noProxy == plan.noProxy)
  }

  // No name leads to the runtime any more.
  ghost predicate Gone(s: State, r: Runtime) {
    r in s.at && forall n :: n in s.runtimes ==> s.runtimes[n] != r
  }

  lemma GoneNext(env: Env, s: State, a: Action, s': State, r: Runtime)
    requires Next(env, s, a, s') && Gone(s, r)
    ensures Gone(s', r)
  {
    hide ValidConfig, PlanOf, Wants, Kept;
  }

  lemma {:induction false} GoneForGood(env: Env, t: Trace, i: nat, j: nat, r: Runtime)
    requires Path(env, t) && i <= j < |t.states| && Gone(t.states[i], r)
    ensures Gone(t.states[j], r)
    decreases j
  {
    hide Next, Gone;
    if i < j {
      GoneForGood(env, t, i, j - 1, r);
      assert Steps(env, t, j - 1);
      GoneNext(env, t.states[j - 1], t.actions[j - 1], t.states[j], r);
    }
  }

  // Name n has still to be looked at.
  predicate Todo(s: State, n: string) { s.phase.Stopping? && n in s.phase.todo }

  lemma TodoNext(env: Env, s: State, a: Action, s': State, n: string)
    requires Next(env, s, a, s') && !a.Accept?
    ensures Todo(s', n) <==> Todo(s, n) && a != Look(n)
  {
    hide ValidConfig, PlanOf, Wants, Kept;
  }

  // Within one reload a name is to be looked at until it is, and then no more.
  lemma {:induction false} TodoAlong(env: Env, t: Trace, i: nat, j: nat, n: string)
    requires Path(env, t) && i <= j < |t.states| && forall k :: i <= k < j ==> !t.actions[k].Accept?
    ensures Todo(t.states[j], n) <==> Todo(t.states[i], n) && forall k :: i <= k < j ==> t.actions[k] != Look(n)
    decreases j
  {
    hide Next, Todo;
    if i < j {
      TodoAlong(env, t, i, j - 1, n);
      assert Steps(env, t, j - 1);
      TodoNext(env, t.states[j - 1], t.actions[j - 1], t.states[j], n);
    }
  }

  lemma {:induction false} PlanAlong(env: Env, t: Trace, i: nat, j: nat)
    requires Path(env, t) && i <= j < |t.states| && t.states[i].phase.Stopping?
    requires forall k :: i <= k < j ==> !t.actions[k].Accept?
    ensures var s := t.states[j];
            (if s.phase.Stopping? then s.phase.next else s.plan) == t.states[i].phase.next
    decreases j
  {
    hide Next;
    if i < j {
      PlanAlong(env, t, i, j - 1);
      assert Steps(env, t, j - 1);
      StepPlans(env, t.states[j - 1], t.actions[j - 1], t.states[j]);
    }
  }

  // The reload looks at the runtime called n in step k, and in no other.
  predicate LookedAtIn(t: Trace, k: int, n: string) {
    && 0 <= k < |t.actions| && t.actions[k] == Look(n)
    && forall m :: 0 <= m < |t.actions| && t.actions[m] == Look(n) ==> m == k
  }

  // A whole reload, from one quiet state to the next.
  ghost predicate Whole(env: Env, t: Trace, conf: Config, noProxy: seq<string>, s: State, s': State) {
    Inv(s) && s.phase.Idle? && s'.phase.Idle? && OneReload(env, t, conf, noProxy, s, s')
  }

  lemma Opened(env: Env, t: Trace, conf: Config, noProxy: seq<string>, s: State, s': State)
    requires Whole(env, t, conf, noProxy, s, s')
    ensures |t.states| > 1 && t.states[1].phase == Stopping(PlanOf(conf, noProxy), s.runtimes.Keys)
  {
    hide Inv, ValidConfig, PlanOf;
    assert Steps(env, t, 0);
  }

  lemma LookedAtOnce(env: Env, t: Trace, conf: Config, noProxy: seq<string>, s: State, s': State, n: string)
    returns (k: nat)
    requires Whole(env, t, conf, noProxy, s, s') && n in s.runtimes
    ensures 1 <= k && LookedAtIn(t, k, n)
  {
    hide Inv, Next, PlanOf;
    Opened(env, t, conf, noProxy, s, s');
    var last := |t.states| - 1;
    TodoAlong(env, t, 1, last, n);
    k :| 1 <= k < last && t.actions[k] == Look(n);
    TodoAlong(env, t, 1, k, n);
    assert Todo(t.states[k], n) by { LooksTodo(env, t, k, n); }
    forall m | 0 <= m < |t.actions| && t.actions[m] == Look(n) ensures m == k {
      LooksTodo(env, t, m, n);
      TodoAlong(env, t, 1, m, n);
    }
  }

  lemma LooksTodo(env: Env, t: Trace, k: nat, n: string)
    requires Path(env, t) && k < |t.actions| && t.actions[k] == Look(n)
    ensures Todo(t.states[k], n) && n in t.states[k].runtimes && t.states[k].runtimes[n] in t.states[k].at
    ensures t.states[k + 1] == Looked(t.states[k], n)
  {
    assert Steps(env, t, k);
  }

  // A runtime not up as it is looked at is let go.
  lemma DownIsGone(s: State, n: string)
    requires s.phase.Stopping? && n in s.runtimes && s.runtimes[n] in s.at && !s.at[s.runtimes[n]].running
    requires Listed(s)
    ensures Gone(Looked(s, n), s.runtimes[n])
  {
    hide Wants;
  }

  lemma StartedFrom(s: State, n: string) returns (rule: Rule)
    requires Inv(s) && s.phase.Idle? && n in s.runtimes
    ensures rule in s.plan.rules && rule.name == n && s.runtimes[n].fingerprint == FingerprintOf(rule, s.plan.noProxy)
    ensures forall other :: other in s.plan.rules && other.name == n ==> other == rule
  {
    hide Phased, Counted, Rooted, FingerprintOf, Clash, Binds;
    assert Wants(s.plan, s.runtimes[n].fingerprint);
    var i :| WantsAt(s.plan, i, s.runtimes[n].fingerprint);
    rule := s.plan.rules[i];
    assert rule.name == n by { FingerprintRule(rule, s.plan.noProxy); }
  }

  lemma FingerprintRule(rule: Rule, noProxy: seq<string>)
    ensures FingerprintOf(rule, noProxy).rule == rule
  {
  }

  // The next plan wants the runtime exactly if nothing it was started from has changed.
  lemma WantedIfUnchanged(s: State, conf: Config, noProxy: seq<string>, n: string)
    requires Inv(s) && s.phase.Idle? && n in s.runtimes
    ensures Wants(PlanOf(conf, noProxy), s.runtimes[n].fingerprint) <==> Unchanged(s.plan, conf, noProxy, n)
  {
    hide Inv, Clash, Enabled;
    var f := s.runtimes[n].fingerprint;
    var rule := StartedFrom(s, n);
    if Wants(PlanOf(conf, noProxy), f) {
      var i :| WantsAt(PlanOf(conf, noProxy), i, f);
      EnabledAre(conf.rules, i);
      assert rule in conf.rules && !rule.disabled;
    }
    if Unchanged(s.plan, conf, noProxy, n) {
      var k :| 0 <= k < |conf.rules| && conf.rules[k] == rule;
      EnabledHas(conf.rules, k);
      var i :| 0 <= i < |Enabled(conf.rules)| && Enabled(conf.rules)[i] == rule;
      assert WantsAt(PlanOf(conf, noProxy), i, f);
    }
  }

  // Over one whole reload a rule keeps its runtime exactly if it is enabled in both configurations and
  // the same, if the no-proxy list is the same when it serves a proxy, and if it was up in the one step
  // that looked at it. In any other case the runtime is let go.
  lemma KeptExactlyIfUnchanged(env: Env, t: Trace, conf: Config, noProxy: seq<string>, s: State, s': State, n: string)
    requires Whole(env, t, conf, noProxy, s, s') && n in s.runtimes
    ensures exists k :: LookedAtIn(t, k, n) &&
                        (n in s'.runtimes && s'.runtimes[n] == s.runtimes[n] <==>
                         Unchanged(s.plan, conf, noProxy, n) && Up(t.states[k], s.runtimes[n]))
  {
    hide Inv, Next, Unchanged, PlanOf, Wants;
    var r := s.runtimes[n];
    var k := LookedAtOnce(env, t, conf, noProxy, s, s', n);
    NamesFit(s);
    WantedIfUnchanged(s, conf, noProxy, n);
    if Unchanged(s.plan, conf, noProxy, n) && Up(t.states[k], r) {
      ReloadLeavesUnchanged(env, t, conf, noProxy, s, s', r);
    }
    if n in s'.runtimes && s'.runtimes[n] == r {
      StillWanted(env, t, conf, noProxy, s, s', n);
      StillUp(env, t, conf, noProxy, s, s', n, k);
    }
  }

  lemma StillWanted(env: Env, t: Trace, conf: Config, noProxy: seq<string>, s: State, s': State, n: string)
    requires Whole(env, t, conf, noProxy, s, s') && n in s'.runtimes
    ensures Wants(PlanOf(conf, noProxy), s'.runtimes[n].fingerprint)
  {
    hide Next, PlanOf, Wants, Listed, Phased, Counted, Rooted;
    Opened(env, t, conf, noProxy, s, s');
    PlanAlong(env, t, 1, |t.states| - 1);
    InvAlong(env, t, |t.states| - 1);
  }

  lemma StillUp(env: Env, t: Trace, conf: Config, noProxy: seq<string>, s: State, s': State, n: string, k: nat)
    requires Whole(env, t, conf, noProxy, s, s') && n in s.runtimes && n in s'.runtimes
    requires s'.runtimes[n] == s.runtimes[n] && k < |t.actions| && t.actions[k] == Look(n)
    ensures Up(t.states[k], s.runtimes[n])
  {
    hide Next, Wants, PlanOf, Planned, Phased, Counted, Rooted, Looked;
    InvAlong(env, t, k);
    LooksTodo(env, t, k, n);
    var here := t.states[k].runtimes[n];
    if !Up(t.states[k], here) {
      DownIsGone(t.states[k], n);
      GoneForGood(env, t, k + 1, |t.states| - 1, here);
    }
    if here != s.runtimes[n] {
      InvAlong(env, t, 0);
      Replaced(env, t, 0, k, s.runtimes[n]);
      GoneForGood(env, t, k, |t.states| - 1, s.runtimes[n]);
    }
  }

  // A runtime that is not under its name is under none.
  lemma Replaced(env: Env, t: Trace, i: nat, k: nat, r: Runtime)
    requires Path(env, t) && Inv(t.states[0]) && i <= k < |t.states| && r in t.states[i].at
    requires NameOf(r) !in t.states[k].runtimes || t.states[k].runtimes[NameOf(r)] != r
    ensures Gone(t.states[k], r)
  {
    hide Next, Planned, Phased, Counted, Rooted;
    InvAlong(env, t, k);
    AtGrows(env, t, i, k);
  }

  lemma {:induction false} AtGrows(env: Env, t: Trace, i: nat, k: nat)
    requires Path(env, t) && i <= k < |t.states|
    ensures t.states[i].at.Keys <= t.states[k].at.Keys
    decreases k
  {
    hide Next;
    if i < k {
      AtGrows(env, t, i, k - 1);
      assert Steps(env, t, k - 1);
      RuntimesStay(env, t.states[k - 1], t.actions[k - 1], t.states[k]);
    }
  }
}

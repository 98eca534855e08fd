/** Reconciling the running rules with a new configuration, step by step: old runtimes are looked at
    and stopped, waited for, the statistics are synced, then missing runtimes are started. Reports
    and exits of runtimes, and the end of the application, may come between any two steps. */
module ReloadSteps {
  import opened Text
  import opened Config
  import opened Validate
  import RegistryState

  // What a runtime was started from; the no-proxy list only matters to proxy rules.
  datatype Fingerprint = Fingerprint(rule: Rule, noProxy: Option<seq<string>>)

  function FingerprintOf(rule: Rule, noProxy: seq<string>): Fingerprint {
    Fingerprint(rule, if rule.forward.IsProxy() then Some(noProxy) else None)
  }

  class RuleState {
    const name: string
    const listenAddress: string
    const target: string
    const remote: bool
    const virtual: bool
    const http: bool
    var address: string
    var running: bool
    var attempt: nat
    var err: Option<string>

    constructor (rule: Rule)
      ensures name == rule.name && listenAddress == address == rule.listen.Address() && target == rule.forward.Target()
      ensures remote == rule.listen.Remote() && virtual == (rule.listen.virtual != "")
      ensures http == (rule.forward.IsProxy() && exists p :: p in rule.listen.Schemes() && p.kind == HTTP)
      ensures !running && attempt == 0 && err == None
    {
      name, listenAddress, address := rule.name, rule.listen.Address(), rule.listen.Address();
      target, remote, virtual := rule.forward.Target(), rule.listen.Remote(), rule.listen.virtual != "";
      http := rule.forward.IsProxy() && exists p :: p in rule.listen.Schemes() && p.kind == HTTP;
      running, attempt, err := false, 0, None;
    }

    // A new address to listen on, or another failed attempt.
    method Report(newAddress: Option<string>, failed: nat, error: string)
      modifies this
      ensures running == newAddress.Some? && address == (if newAddress.Some? then newAddress.value else old(address))
      ensures attempt == (if newAddress.Some? then 0 else failed) && err == if newAddress.Some? then None
              else Some(error)
    {
      if newAddress.Some? {
        address, running, attempt, err := newAddress.value, true, 0, None;
      } else {
        running, attempt, err := false, failed, Some(error);
      }
    }
  }

  class Runtime {
    const fingerprint: Fingerprint
    const state: RuleState
    const metrics: RegistryState.Rule
    var cancelled: bool
    var done: bool

    function View(): RunView
      reads this, state
    {
      RunView(state.running, cancelled, done)
    }

    constructor (fingerprint: Fingerprint, state: RuleState, metrics: RegistryState.Rule, cancelled: bool, done: bool)
      ensures this.fingerprint == fingerprint && this.state == state && this.metrics == metrics
      ensures this.cancelled == cancelled && this.done == done
    {
      this.fingerprint, this.state, this.metrics, this.cancelled, this.done :=
        fingerprint, state, metrics, cancelled, done;
    }
  }

  // A runtime is done when its serving loop has returned, and with it closed its listener.
  datatype RunView = RunView(running: bool, cancelled: bool, done: bool)

  function NameOf(r: Runtime): string { r.fingerprint.rule.name }

  // The enabled rules of an accepted configuration.
  datatype Plan = Plan(rules: seq<Rule>, noProxy: seq<string>)

  function Enabled(rules: seq<Rule>): seq<Rule> {
    if rules == [] then []
    else
      var last := rules[|rules| - 1];
      Enabled(rules[..|rules| - 1]) + if last.disabled then [] else [last]
  }

  function PlanOf(conf: Config, noProxy: seq<string>): Plan { Plan(Enabled(conf.rules), noProxy) }

  // A runtime started from f serves rule number i of the plan as it is.
  predicate WantsAt(plan: Plan, i: int, f: Fingerprint) {
    0 <= i < |plan.rules| && f == FingerprintOf(plan.rules[i], plan.noProxy)
  }

  ghost predicate Wants(plan: Plan, f: Fingerprint) { exists i :: WantsAt(plan, i, f) }

  predicate Names(plan: Plan, name: string) { exists i :: 0 <= i < |plan.rules| && plan.rules[i].name == name }

  // Enabled rules have names, all their own, and their own local addresses and channels; one with a
  // channel listens there and nowhere else.
  predicate PlanOk(plan: Plan) {
    && (forall i :: 0 <= i < |plan.rules| ==>
          plan.rules[i].name != "" && (plan.rules[i].listen.virtual != "" ==> Binds(plan.rules[i])))
    && forall i, j :: 0 <= i < j < |plan.rules| ==>
         plan.rules[i].name != plan.rules[j].name && !Clash(plan.rules[i], plan.rules[j])
  }

  datatype Phase = Idle | Stopping(next: Plan, todo: set<string>) | Starting(index: nat)

  // rooted since the first accepted configuration made the context all runtimes hang on; quit once
  // that is cancelled.
  datatype State = State(
    runtimes: map<string, Runtime>, at: map<Runtime, RunView>, stopping: set<Runtime>,
    registered: map<string, RegistryState.Rule>, plan: Plan, phase: Phase, rooted: bool, quit: bool)

  // ------------------------------------------------------------------ steps

  datatype Action =
    | Accept(conf: Config, noProxy: seq<string>)
    | Look(name: string)
    | Sync(registered: map<string, RegistryState.Rule>)
    | Start(made: Option<Runtime>, built: bool)
    | Finish
    | Elapse
    | End

  ghost predicate Current(s: State, name: string)
    requires s.phase.Stopping? && name in s.runtimes && s.runtimes[name] in s.at
  {
    Wants(s.phase.next, s.runtimes[name].fingerprint) && s.at[s.runtimes[name]].running
  }

  ghost predicate Next(env: Env, s: State, a: Action, s': State) {
    match a
    case Accept(conf, noProxy) =>
      s.phase.Idle? && ValidConfig(env, conf) &&
        s' == s.(rooted := true, phase := Stopping(PlanOf(conf, noProxy), s.runtimes.Keys))
    case Look(name) =>
      && s.phase.Stopping? && name in s.phase.todo && name in s.runtimes && s.runtimes[name] in s.at
      && s' == Looked(s, name)
    case Sync(registered) =>
      && s.phase.Stopping? && s.phase.todo == {} && (forall r :: r in s.stopping ==> r in s.at && s.at[r].done)
      && Kept(s, s.phase.next, registered)
      && s' == s.(stopping := {}, plan := s.phase.next, registered := registered, phase := Starting(0))
    case Start(made, built) =>
      && s.phase.Starting? && s.phase.index < |s.plan.rules|
      && StartedBy(s, s.plan.rules[s.phase.index], made, built, s')
    case Finish => s.phase.Starting? && s.phase.index == |s.plan.rules| && s' == s.(phase := Idle)
    case Elapse => Reported(s, s')
    case End => s' == Ended(s)
  }

  // The end of the application cancels everything if there is a root to cancel, and else nothing.
  function Ended(s: State): State {
    if s.rooted then s.(quit := true, at := map r | r in s.at :: s.at[r].(cancelled := true)) else s
  }

  // Any number of reports of runtimes not yet done, of exits of cancelled ones, and of ends.
  ghost predicate Meanwhile(s: State, s': State) {
    && s' == s.(at := s'.at, quit := s'.quit) && s'.at.Keys == s.at.Keys
    && (s.quit ==> s'.quit) && (s'.quit && !s.quit ==> s.rooted && forall r :: r in s'.at ==> s'.at[r].cancelled)
    && forall r :: r in s.at ==>
         && (s.at[r].cancelled ==> s'.at[r].cancelled)
         && (s'.at[r].cancelled ==> s.at[r].cancelled || (s'.quit && !s.quit))
         && (s.at[r].done ==> s'.at[r].done && s'.at[r].running == s.at[r].running)
         && (s'.at[r].done ==> s.at[r].done || s'.at[r].cancelled)
  }

  // The same without ends.
  ghost predicate Reported(s: State, s': State) { Meanwhile(s, s') && s'.quit == s.quit }

  // A runtime that still serves its rule and is up stays; any other is cancelled and will be waited for.
  ghost function Looked(s: State, name: string): State
    requires s.phase.Stopping? && name in s.runtimes && s.runtimes[name] in s.at
  {
    var seen := s.(phase := s.phase.(todo := s.phase.todo - {name}));
    var r := s.runtimes[name];
    if Current(s, name) then seen
    else seen.(runtimes := s.runtimes - {name}, stopping := s.stopping + {r},
        at := s.at[r := s.at[r].(cancelled := true)])
  }

  // The statistics keep the rule objects of known names.
  ghost predicate Kept(s: State, plan: Plan, registered: map<string, RegistryState.Rule>) {
    && (forall n :: n in registered <==> Names(plan, n))
    && (forall n :: n in registered && n in s.registered ==> registered[n] == s.registered[n])
  }

  // A rule that cannot be set up leaves a runtime that is already done.
  ghost predicate StartedBy(s: State, rule: Rule, made: Option<Runtime>, built: bool, s': State)
    requires s.phase.Starting?
  {
    if rule.name in s.runtimes then made == None && s' == s.(phase := Starting(s.phase.index + 1))
    else
      && made.Some? && made.value !in s.at && made.value.fingerprint == FingerprintOf(rule, s.plan.noProxy)
      && rule.name in s.registered && made.value.metrics == s.registered[rule.name]
      && s' == s.(runtimes := s.runtimes[rule.name := made.value],
                  at := s.at[made.value := if built then RunView(false, s.quit, false) else RunView(false, true, true)],
                  phase := Starting(s.phase.index + 1))
  }

  // ------------------------------------------------------------------ what stays true

  ghost predicate Listed(s: State) {
    && (forall n :: n in s.runtimes ==>
         s.runtimes[n] in s.at && NameOf(s.runtimes[n]) == n && s.runtimes[n] !in s.stopping)
    && (forall r :: r in s.stopping ==> r in s.at && s.at[r].cancelled)
    && (forall r :: r in s.at && !s.at[r].done ==>
         r in s.stopping || (NameOf(r) in s.runtimes && s.runtimes[NameOf(r)] == r))
    && (forall r, q :: r in s.stopping && q in s.stopping && NameOf(r) == NameOf(q) ==> r == q)
    && (forall r :: r in s.stopping ==> NameOf(r) !in s.runtimes)
  }

  // Every runtime that may still run serves a rule of one valid plan.
  ghost predicate Planned(s: State) {
    && PlanOk(s.plan)
    && (forall n :: n in s.runtimes ==> Wants(s.plan, s.runtimes[n].fingerprint))
    && (forall r :: r in s.stopping ==> Wants(s.plan, r.fingerprint))
  }

  ghost predicate Phased(s: State) {
    match s.phase
    case Idle => s.stopping == {} && forall n :: Names(s.plan, n) ==> n in s.runtimes
    case Stopping(next, todo) =>
      PlanOk(next) && todo <= s.runtimes.Keys && forall n :: n in s.runtimes && n !in todo ==>
        Wants(next, s.runtimes[n].fingerprint)
    case Starting(index) =>
      s.stopping == {} && index <= |s.plan.rules| && forall i :: 0 <= i < index ==> s.plan.rules[i].name in s.runtimes
  }

  // Every runtime counts on the registered rule of its name.
  ghost predicate Counted(s: State) {
    && (forall n :: n in s.runtimes ==> n in s.registered && s.runtimes[n].metrics == s.registered[n])
    && (!s.phase.Stopping? ==> forall n :: Names(s.plan, n) ==> n in s.registered)
  }

  // Without a root nothing runs, and once it is cancelled everything is.
  ghost predicate Rooted(s: State) {
    && (!s.rooted ==> s.at == map[] && s.phase.Idle? && !s.quit)
    && (s.quit ==> forall r :: r in s.at ==> s.at[r].cancelled)
  }

  ghost predicate Inv(s: State) { Listed(s) && Planned(s) && Phased(s) && Counted(s) && Rooted(s) }

  function Initial(): State { State(map[], map[], {}, map[], Plan([], []), Idle, false, false) }

  // ------------------------------------------------------------------ every step keeps it

  lemma {:induction false} EnabledAre(rules: seq<Rule>, i: nat)
    requires i < |Enabled(rules)|
    ensures exists k :: 0 <= k < |rules| && rules[k] == Enabled(rules)[i] && !rules[k].disabled
    decreases |rules|
  {
    var last := |rules| - 1;
    if i < |Enabled(rules[..last])| {
      EnabledAre(rules[..last], i);
      var k :| 0 <= k < last && rules[..last][k] == Enabled(rules)[i] && !rules[..last][k].disabled;
      assert rules[k] == Enabled(rules)[i];
    } else {
      assert rules[last] == Enabled(rules)[i];
    }
  }

  // Every enabled rule is in the plan.
  lemma {:induction false} EnabledHas(rules: seq<Rule>, k: nat)
    requires k < |rules| && !rules[k].disabled
    ensures exists i :: 0 <= i < |Enabled(rules)| && Enabled(rules)[i] == rules[k]
    decreases |rules|
  {
    var last := |rules| - 1;
    if k < last {
      EnabledHas(rules[..last], k);
      var i :| 0 <= i < |Enabled(rules[..last])| && Enabled(rules[..last])[i] == rules[k];
      assert Enabled(rules)[i] == rules[k];
    } else {
      assert Enabled(rules)[|Enabled(rules[..last])|] == rules[k];
    }
  }

  lemma {:induction false} EnabledApart(rules: seq<Rule>, i: nat, j: nat)
    requires i < j < |Enabled(rules)|
    requires forall m, n :: 0 <= m < n < |rules| ==> rules[m].name != rules[n].name && !Clash(rules[m], rules[n])
    ensures Enabled(rules)[i].name != Enabled(rules)[j].name && !Clash(Enabled(rules)[i], Enabled(rules)[j])
    decreases |rules|
  {
    var last := |rules| - 1;
    if j < |Enabled(rules[..last])| {
      EnabledApart(rules[..last], i, j);
    } else {
      EnabledAre(rules[..last], i);
    }
  }

  // The enabled rules of a valid configuration do not get in each other's way.
  lemma ValidPlan(env: Env, conf: Config, noProxy: seq<string>)
    requires ValidConfig(env, conf)
    ensures PlanOk(PlanOf(conf, noProxy))
  {
    forall m, n | 0 <= m < n < |conf.rules|
      ensures conf.rules[m].name != conf.rules[n].name && !Clash(conf.rules[m], conf.rules[n])
    {
      assert RuleOkAt(env, conf, n);
    }
    forall i | 0 <= i < |PlanOf(conf, noProxy).rules|
      ensures var rule := PlanOf(conf, noProxy).rules[i];
              rule.name != "" && (rule.listen.virtual != "" ==> Binds(rule))
    {
      EnabledAre(conf.rules, i);
      var k :| 0 <= k < |conf.rules| && conf.rules[k] == PlanOf(conf, noProxy).rules[i] && !conf.rules[k].disabled;
      assert RuleOkAt(env, conf, k);
    }
    forall i, j | 0 <= i < j < |PlanOf(conf, noProxy).rules|
      ensures PlanOf(conf, noProxy).rules[i].name != PlanOf(conf, noProxy).rules[j].name
      ensures !Clash(PlanOf(conf, noProxy).rules[i], PlanOf(conf, noProxy).rules[j])
    {
      EnabledApart(conf.rules, i, j);
    }
  }

  lemma WantedNames(plan: Plan, f: Fingerprint)
    requires Wants(plan, f)
    ensures Names(plan, f.rule.name)
  {
  }

  lemma KeepLook(s: State, name: string)
    requires Inv(s) && s.phase.Stopping? && name in s.phase.todo
    ensures name in s.runtimes && s.runtimes[name] in s.at && Inv(Looked(s, name))
  {
    hide Wants, PlanOk;
  }

  lemma KeepSync(s: State, registered: map<string, RegistryState.Rule>)
    requires Inv(s) && s.phase.Stopping? && s.phase.todo == {} && (forall r :: r in s.stopping ==> s.at[r].done)
    requires Kept(s, s.phase.next, registered)
    ensures Inv(s.(stopping := {}, plan := s.phase.next, registered := registered, phase := Starting(0)))
  {
    hide Wants, PlanOk;
    forall n | n in s.runtimes ensures Names(s.phase.next, n) {
      WantedNames(s.phase.next, s.runtimes[n].fingerprint);
    }
  }

  lemma KeepStart(s: State, made: Option<Runtime>, built: bool, s': State)
    requires Inv(s) && s.phase.Starting? && s.phase.index < |s.plan.rules|
    requires StartedBy(s, s.plan.rules[s.phase.index], made, built, s')
    ensures Inv(s')
  {
    hide Listed, Planned, Phased, Counted, Rooted;
    StartListed(s, made, built, s');
    StartPlanned(s, made, built, s');
    StartPhased(s, made, built, s');
    StartCounted(s, made, built, s');
    StartRooted(s, made, built, s');
  }

  lemma StartListed(s: State, made: Option<Runtime>, built: bool, s': State)
    requires Listed(s) && Phased(s) && s.phase.Starting? && s.phase.index < |s.plan.rules|
    requires StartedBy(s, s.plan.rules[s.phase.index], made, built, s')
    ensures Listed(s')
  {
    assert s.stopping == {};
    hide Phased;
    var rule := s.plan.rules[s.phase.index];
    if rule.name !in s.runtimes {
      hide Listed;
      ListedMore(s, made.value, s');
    }
  }

  // A new runtime takes a free name.
  lemma ListedMore(s: State, made: Runtime, s': State)
    requires Listed(s) && s.stopping == s'.stopping == {} && made !in s.at && made in s'.at
    requires NameOf(made) !in s.runtimes
    requires s'.runtimes == s.runtimes[NameOf(made) := made] && s'.at == s.at[made := s'.at[made]]
    ensures Listed(s')
  {
  }

  lemma StartPlanned(s: State, made: Option<Runtime>, built: bool, s': State)
    requires Planned(s) && s.phase.Starting? && s.phase.index < |s.plan.rules|
    requires StartedBy(s, s.plan.rules[s.phase.index], made, built, s')
    ensures Planned(s')
  {
    hide Wants, PlanOk;
    WantsNow(s.plan, s.phase.index);
  }

  lemma StartPhased(s: State, made: Option<Runtime>, built: bool, s': State)
    requires Phased(s) && s.phase.Starting? && s.phase.index < |s.plan.rules|
    requires StartedBy(s, s.plan.rules[s.phase.index], made, built, s')
    ensures Phased(s')
  {
    hide Wants, PlanOk;
  }

  lemma StartCounted(s: State, made: Option<Runtime>, built: bool, s': State)
    requires Counted(s) && s.phase.Starting? && s.phase.index < |s.plan.rules|
    requires StartedBy(s, s.plan.rules[s.phase.index], made, built, s')
    ensures Counted(s')
  {
    hide Names;
  }

  lemma StartRooted(s: State, made: Option<Runtime>, built: bool, s': State)
    requires Rooted(s) && s.phase.Starting? && s.phase.index < |s.plan.rules|
    requires StartedBy(s, s.plan.rules[s.phase.index], made, built, s')
    ensures Rooted(s')
  {
  }

  lemma WantsNow(plan: Plan, i: nat)
    requires i < |plan.rules|
    ensures Wants(plan, FingerprintOf(plan.rules[i], plan.noProxy))
  {
    assert WantsAt(plan, i, FingerprintOf(plan.rules[i], plan.noProxy));
  }

  lemma KeepMeanwhile(s: State, s': State)
    requires Inv(s) && Meanwhile(s, s')
    ensures Inv(s')
  {
  }

  lemma EndedMeanwhile(s: State)
    requires Inv(s)
    ensures Meanwhile(s, Ended(s))
  {
    hide Listed, Planned, Phased, Counted;
  }

  lemma KeepNext(env: Env, s: State, a: Action, s': State)
    requires Inv(s) && Next(env, s, a, s')
    ensures Inv(s')
  {
    hide Wants, PlanOk, Looked, StartedBy, Kept, ValidConfig, Meanwhile;
    match a {
      case Accept(conf, noProxy) => ValidPlan(env, conf, noProxy);
      case Look(name) => KeepLook(s, name);
      case Sync(registered) => KeepSync(s, registered);
      case Start(made, built) => KeepStart(s, made, built, s');
      case Elapse => KeepMeanwhile(s, s');
      case End => EndedMeanwhile(s); KeepMeanwhile(s, s');
      case _ =>
    }
  }

  // ------------------------------------------------------------------ runs

  datatype Trace = Trace(states: seq<State>, actions: seq<Action>)

  ghost predicate Path(env: Env, t: Trace) {
    |t.states| == |t.actions| + 1 && forall i :: 0 <= i < |t.actions| ==> Steps(env, t, i)
  }

  ghost predicate Steps(env: Env, t: Trace, i: nat)
    requires i < |t.actions| < |t.states|
  {
    Next(env, t.states[i], t.actions[i], t.states[i + 1])
  }

  ghost predicate Run(env: Env, t: Trace) { Path(env, t) && t.states[0] == Initial() }

  function Last(t: Trace): State
    requires t.states != []
  {
    t.states[|t.states| - 1]
  }

  function Extend(t: Trace, a: Action, s: State): Trace { Trace(t.states + [s], t.actions + [a]) }

  lemma PathExtends(env: Env, t: Trace, a: Action, s: State)
    requires Path(env, t) && Next(env, Last(t), a, s)
    ensures Path(env, Extend(t, a, s)) && Last(Extend(t, a, s)) == s
  {
    hide Next;
    forall i | 0 <= i < |t.actions| ensures Steps(env, Extend(t, a, s), i) {
      assert Steps(env, t, i);
    }
  }

  lemma {:induction false} InvAlong(env: Env, t: Trace, i: nat)
    requires Path(env, t) && Inv(t.states[0]) && i < |t.states|
    ensures Inv(t.states[i])
  {
    hide Inv, Next;
    if i > 0 {
      InvAlong(env, t, i - 1);
      assert Steps(env, t, i - 1);
      KeepNext(env, t.states[i - 1], t.actions[i - 1], t.states[i]);
    }
  }

  lemma InvAlways(env: Env, t: Trace, i: nat)
    requires Run(env, t) && i < |t.states|
    ensures Inv(t.states[i])
  {
    hide Inv;
    InitialInv();
    InvAlong(env, t, i);
  }

  lemma InitialInv()
    ensures Inv(Initial())
  {
  }

  // Two runtimes that have not finished never share a fixed local address or a channel, nor a name:
  // not before, during or after any number of reloads.
  lemma NothingShared(env: Env, t: Trace, i: nat, r: Runtime, q: Runtime)
    requires Run(env, t) && i < |t.states|
    requires r in t.states[i].at && q in t.states[i].at && r != q && !t.states[i].at[r].done && !t.states[i].at[q].done
    ensures NameOf(r) != NameOf(q) && !Clash(r.fingerprint.rule, q.fingerprint.rule)
  {
    hide Run, Inv, Clash;
    InvAlways(env, t, i);
    Apart(t.states[i], r, q);
  }

  lemma Apart(s: State, r: Runtime, q: Runtime)
    requires Inv(s) && r in s.at && q in s.at && r != q && !s.at[r].done && !s.at[q].done
    ensures NameOf(r) != NameOf(q) && !Clash(r.fingerprint.rule, q.fingerprint.rule)
    ensures r.fingerprint.rule.listen.virtual != "" ==> Binds(r.fingerprint.rule)
  {
    hide Phased, Counted, Clash, Binds;
    assert Wants(s.plan, r.fingerprint) && Wants(s.plan, q.fingerprint);
    var m :| WantsAt(s.plan, m, r.fingerprint);
    var n :| WantsAt(s.plan, n, q.fingerprint);
    ClashBothWays(s.plan.rules[m], s.plan.rules[n]);
  }

  lemma ClashBothWays(a: Rule, b: Rule)
    ensures Clash(a, b) <==> Clash(b, a)
  {
  }

  // Exactly one runtime per enabled rule, started from the rule as it is and counting on the
  // registered statistics of its name; every runtime that has not finished is one of these.
  ghost predicate Settled(s: State) {
    && (forall n :: n in s.runtimes <==> Names(s.plan, n))
    && (forall k :: 0 <= k < |s.plan.rules| ==>
          var n := s.plan.rules[k].name;
          n in s.runtimes && s.runtimes[n].fingerprint == FingerprintOf(s.plan.rules[k], s.plan.noProxy)
          && n in s.registered && s.runtimes[n].metrics == s.registered[n])
    && (forall r :: r in s.at && !s.at[r].done ==> NameOf(r) in s.runtimes && s.runtimes[NameOf(r)] == r)
  }

  lemma IdleSettled(s: State)
    requires Inv(s) && s.phase.Idle?
    ensures Settled(s)
  {
    hide Clash, Binds;
    forall n | n in s.runtimes ensures Names(s.plan, n) {
      WantedNames(s.plan, s.runtimes[n].fingerprint);
    }
    forall k | 0 <= k < |s.plan.rules|
      ensures s.plan.rules[k].name in s.runtimes
      ensures s.runtimes[s.plan.rules[k].name].fingerprint == FingerprintOf(s.plan.rules[k], s.plan.noProxy)
    {
      assert Names(s.plan, s.plan.rules[k].name);
      var m :| WantsAt(s.plan, m, s.runtimes[s.plan.rules[k].name].fingerprint);
    }
  }

  lemma SettledBetweenReloads(env: Env, t: Trace, i: nat)
    requires Run(env, t) && i < |t.states| && t.states[i].phase.Idle?
    ensures Settled(t.states[i])
  {
    hide Run, Inv, Settled;
    InvAlways(env, t, i);
    IdleSettled(t.states[i]);
  }

  // The plan between reloads is that of the last accepted configuration.
  lemma {:induction false} LastAccepted(env: Env, t: Trace, i: nat, j: nat)
    requires Run(env, t) && i < j < |t.states| && t.actions[i].Accept?
    requires forall k :: i < k < j ==> !t.actions[k].Accept?
    ensures var plan := PlanOf(t.actions[i].conf, t.actions[i].noProxy);
            if t.states[j].phase.Stopping? then t.states[j].phase.next == plan else t.states[j].plan == plan
    decreases j
  {
    hide ValidConfig, Looked, StartedBy, PlanOf, Kept;
    assert Steps(env, t, j - 1);
    if j - 1 > i {
      LastAccepted(env, t, i, j - 1);
      StepPlans(env, t.states[j - 1], t.actions[j - 1], t.states[j]);
    }
  }

  lemma StepPlans(env: Env, s: State, a: Action, s': State)
    requires Next(env, s, a, s') && !a.Accept?
    ensures s.phase.Stopping? && s'.phase.Stopping? ==> s'.phase.next == s.phase.next
    ensures s.phase.Stopping? && !s'.phase.Stopping? ==> s'.plan == s.phase.next
    ensures !s.phase.Stopping? ==> !s'.phase.Stopping? && s'.plan == s.plan
  {
  }

  // A runtime once started is known for good.
  lemma RuntimesStay(env: Env, s: State, a: Action, s': State)
    requires Next(env, s, a, s')
    ensures s.at.Keys <= s'.at.Keys
  {
    hide ValidConfig, PlanOf, Wants, Kept;
  }

  // Runtime r is in place and no configuration on its way changes its rule.
  ghost predicate Stays(s: State, r: Runtime) {
    && NameOf(r) in s.runtimes && s.runtimes[NameOf(r)] == r && r in s.at
    && (s.phase.Stopping? ==> Wants(s.phase.next, r.fingerprint))
  }

  ghost predicate Up(s: State, r: Runtime) { r in s.at && s.at[r].running }

  lemma StaysNext(env: Env, s: State, a: Action, s': State, r: Runtime)
    requires Inv(s) && Next(env, s, a, s') && Stays(s, r) && (a == Look(NameOf(r)) ==> Up(s, r))
    requires a.Accept? ==> Wants(PlanOf(a.conf, a.noProxy), r.fingerprint)
    ensures Stays(s', r) && (!s'.quit && !s.at[r].cancelled ==> !s'.at[r].cancelled) && (s.quit ==> s'.quit)
  {
    hide Wants, ValidConfig, PlanOk, Kept;
  }

  // A rule is replaced only if its definition changes, if it serves a proxy and the no-proxy list
  // changes, or if it is down at the moment a reload looks at it. Over any number of reloads in which
  // none of this happens it keeps its runtime, which nothing but the end of the application cancels.
  lemma {:induction false} UnchangedStays(env: Env, t: Trace, i: nat, j: nat, r: Runtime)
    requires Path(env, t) && Inv(t.states[0]) && i <= j < |t.states| && Stays(t.states[i], r)
    requires forall k :: i <= k < j && t.actions[k] == Look(NameOf(r)) ==> Up(t.states[k], r)
    requires forall k :: i <= k < j && t.actions[k].Accept? ==>
             Wants(PlanOf(t.actions[k].conf, t.actions[k].noProxy), r.fingerprint)
    ensures Stays(t.states[j], r) && (t.states[i].quit ==> t.states[j].quit)
    ensures !t.states[j].quit && !t.states[i].at[r].cancelled ==> !t.states[j].at[r].cancelled
    decreases j - i
  {
    hide Inv, Next, Stays;
    StaysHere(t.states[i], r);
    if i < j {
      InvAlong(env, t, i);
      assert Steps(env, t, i);
      StaysNext(env, t.states[i], t.actions[i], t.states[i + 1], r);
      StaysHere(t.states[i + 1], r);
      UnchangedStays(env, t, i + 1, j, r);
    }
  }

  lemma StaysHere(s: State, r: Runtime)
    requires Stays(s, r)
    ensures r in s.at
  {
  }

  // ------------------------------------------------------------------ the end

  // Once the end has cancelled the root, every runtime is cancelled, those started later included.
  lemma {:induction false} EndIsFinal(env: Env, t: Trace, i: nat, j: nat)
    requires Run(env, t) && i <= j < |t.states| && t.states[i].quit
    ensures t.states[j].quit && forall r :: r in t.states[j].at ==> t.states[j].at[r].cancelled
    decreases j
  {
    hide Inv, Next;
    InvAlways(env, t, j);
    if i < j {
      EndIsFinal(env, t, i, j - 1);
      assert Steps(env, t, j - 1);
      QuitKept(env, t.states[j - 1], t.actions[j - 1], t.states[j]);
    }
    QuitMeans(t.states[j]);
  }

  lemma QuitKept(env: Env, s: State, a: Action, s': State)
    requires Next(env, s, a, s')
    ensures s'.quit <==> s.quit || (a.End? && s.rooted)
    ensures s'.rooted <==> s.rooted || a.Accept?
  {
    hide ValidConfig, PlanOf, Wants, Kept;
  }

  lemma QuitMeans(s: State)
    requires Inv(s)
    ensures s.quit ==> s.rooted && forall r :: r in s.at ==> s.at[r].cancelled
  {
  }

  // Some configuration was accepted before step i.
  ghost predicate AcceptedBefore(t: Trace, i: nat)
    requires i <= |t.actions|
  {
    exists k :: 0 <= k < i && t.actions[k].Accept?
  }

  // Before step j an end came that an accepted configuration preceded.
  ghost predicate EndedBefore(t: Trace, j: nat)
    requires j <= |t.actions|
  {
    exists i :: 0 <= i < j && t.actions[i].End? && AcceptedBefore(t, i)
  }

  // There is a root to cancel exactly since the first accepted configuration.
  lemma {:induction false} RootedSinceAccept(env: Env, t: Trace, i: nat)
    requires Run(env, t) && i < |t.states|
    ensures t.states[i].rooted <==> AcceptedBefore(t, i)
  {
    hide Next;
    if i > 0 {
      RootedSinceAccept(env, t, i - 1);
      assert Steps(env, t, i - 1);
      QuitKept(env, t.states[i - 1], t.actions[i - 1], t.states[i]);
    }
  }

  // It is cancelled exactly since an end that found it.
  lemma {:induction false} QuitSinceEnd(env: Env, t: Trace, j: nat)
    requires Run(env, t) && j < |t.states|
    ensures t.states[j].quit <==> EndedBefore(t, j)
  {
    hide Next, AcceptedBefore;
    if j > 0 {
      QuitSinceEnd(env, t, j - 1);
      RootedSinceAccept(env, t, j - 1);
      assert Steps(env, t, j - 1);
      QuitKept(env, t.states[j - 1], t.actions[j - 1], t.states[j]);
    }
  }

  // As long as the root stands, a runtime in place is cancelled only if it could not be set up.
  ghost predicate OnlyFailedCancelled(s: State) {
    !s.quit ==> forall n :: n in s.runtimes && s.runtimes[n] in s.at && s.at[s.runtimes[n]].cancelled ==>
      s.at[s.runtimes[n]].done
  }

  lemma OnlyFailedNext(env: Env, s: State, a: Action, s': State)
    requires Listed(s) && OnlyFailedCancelled(s) && Next(env, s, a, s')
    ensures OnlyFailedCancelled(s')
  {
    hide Wants, ValidConfig, Kept, PlanOf;
  }

  lemma {:induction false} OnlyFailedAlways(env: Env, t: Trace, j: nat)
    requires Run(env, t) && j < |t.states|
    ensures OnlyFailedCancelled(t.states[j])
  {
    hide Next, Planned, Phased, Counted, Rooted;
    if j > 0 {
      OnlyFailedAlways(env, t, j - 1);
      InvAlways(env, t, j - 1);
      assert Steps(env, t, j - 1);
      hide Listed, OnlyFailedCancelled;
      OnlyFailedNext(env, t.states[j - 1], t.actions[j - 1], t.states[j]);
    }
  }

  // A runtime in place that has not finished is cancelled exactly if some end came after the first
  // accepted configuration.
  lemma CancelledByEnd(env: Env, t: Trace, j: nat, r: Runtime)
    requires Run(env, t) && j < |t.states| && r in t.states[j].at && !t.states[j].at[r].done
    requires NameOf(r) in t.states[j].runtimes && t.states[j].runtimes[NameOf(r)] == r
    ensures t.states[j].at[r].cancelled <==> EndedBefore(t, j)
  {
    hide Run, EndedBefore, Inv;
    InvAlways(env, t, j);
    QuitMeans(t.states[j]);
    QuitSinceEnd(env, t, j);
    OnlyFailedAlways(env, t, j);
  }

  // So the last end so far takes hold exactly if it does not come too early: a runtime in place
  // that has not finished is cancelled if and only if a configuration was accepted before that end.
  lemma EndTakesHold(env: Env, t: Trace, i: nat, j: nat, r: Runtime)
    requires Run(env, t) && i < j < |t.states| && t.actions[i].End? && (forall k :: i < k < j ==> !t.actions[k].End?)
    requires r in t.states[j].at && !t.states[j].at[r].done
    requires NameOf(r) in t.states[j].runtimes && t.states[j].runtimes[NameOf(r)] == r
    ensures t.states[j].at[r].cancelled <==> AcceptedBefore(t, i)
  {
    hide Next;
    CancelledByEnd(env, t, j, r);
  }

  // A configuration with one rule, a proxy on any port, which every environment finds valid.
  const EARLY_RULE := Rule("r", false, Listen("", 0, "", [], "", "", "", []), Forward("", 0, "", []))
  const EARLY_CONFIG := Config(Address("", 0), [EARLY_RULE], NoProxy([], [], []))

  // The application is told to end, reloads all the same, and starts a runtime.
  function EarlyEnd(noProxy: seq<string>, made: Runtime): Trace {
    var registered := map["r" := made.metrics];
    var plan := Plan([EARLY_RULE], noProxy);
    var stopping := Initial().(rooted := true, phase := Stopping(plan, {}));
    var starting := stopping.(plan := plan, registered := registered, phase := Starting(0));
    var started := starting.(
      runtimes := map["r" := made], at := map[made := RunView(false, false, false)], phase := Starting(1));
    Trace([Initial(), Initial(), stopping, starting, started, started.(phase := Idle)],
          [End, Accept(EARLY_CONFIG, noProxy), Sync(registered), Start(Some(made), true), Finish])
  }

  lemma EarlyStep(env: Env, noProxy: seq<string>, made: Runtime, i: nat)
    requires made.fingerprint == FingerprintOf(EARLY_RULE, noProxy) && i < 5
    ensures Steps(env, EarlyEnd(noProxy, made), i)
  {
    EarlyConfigValid(env, noProxy);
    hide ValidConfig, PlanOf, Meanwhile, Looked;
    var plan := Plan([EARLY_RULE], noProxy);
    assert plan.rules[0].name == "r";
    assert forall n :: Names(plan, n) <==> n == "r";
    var t := EarlyEnd(noProxy, made);
    if i == 2 {
      assert Kept(t.states[2], plan, t.states[3].registered);
    } else if i == 3 {
      assert StartedBy(t.states[3], plan.rules[0], Some(made), true, t.states[4]);
    }
  }

  // The runtime runs on: nothing remembers the end that came too early.
  lemma EarlyEndForgotten(env: Env, noProxy: seq<string>, made: Runtime)
    requires made.fingerprint == FingerprintOf(EARLY_RULE, noProxy)
    ensures var t := EarlyEnd(noProxy, made);
            && Run(env, t) && t.actions[0].End? && Last(t).phase.Idle?
            && "r" in Last(t).runtimes && Last(t).runtimes["r"] == made
            && made in Last(t).at && !Last(t).at[made].cancelled && !Last(t).at[made].done
  {
    hide Steps;
    var t := EarlyEnd(noProxy, made);
    forall i | 0 <= i < |t.actions| ensures Steps(env, t, i) {
      EarlyStep(env, noProxy, made, i);
    }
  }

  lemma EarlyConfigValid(env: Env, noProxy: seq<string>)
    ensures ValidConfig(env, EARLY_CONFIG) && PlanOf(EARLY_CONFIG, noProxy) == Plan([EARLY_RULE], noProxy)
  {
    assert Trim("r") == "r";
    assert RuleOkAt(env, EARLY_CONFIG, 0);
    assert EARLY_CONFIG.rules[..0] == [] && Enabled([]) == [];
    assert Enabled(EARLY_CONFIG.rules) == Enabled(EARLY_CONFIG.rules[..0]) + [EARLY_RULE];
  }

  // ------------------------------------------------------------------ the fingerprints of a plan

  function FingerprintsOf(rules: seq<Rule>, noProxy: seq<string>): map<string, Fingerprint> {
    if rules == [] then map[]
    else
      var last := rules[|rules| - 1];
      FingerprintsOf(rules[..|rules| - 1], noProxy)[last.name := FingerprintOf(last, noProxy)]
  }

  lemma {:induction false} FingerprintAt(rules: seq<Rule>, noProxy: seq<string>, i: nat)
    requires i < |rules| && forall m, n :: 0 <= m < n < |rules| ==> rules[m].name != rules[n].name
    ensures rules[i].name in FingerprintsOf(rules, noProxy)
    ensures FingerprintsOf(rules, noProxy)[rules[i].name] == FingerprintOf(rules[i], noProxy)
  {
    var last := |rules| - 1;
    if i < last {
      FingerprintAt(rules[..last], noProxy, i);
    }
  }

  lemma {:induction false} FingerprintFrom(rules: seq<Rule>, noProxy: seq<string>, n: string)
    requires n in FingerprintsOf(rules, noProxy)
    ensures exists i :: 0 <= i < |rules| && rules[i].name == n
                        && FingerprintsOf(rules, noProxy)[n] == FingerprintOf(rules[i], noProxy)
  {
    var last := |rules| - 1;
    if rules[last].name != n {
      FingerprintFrom(rules[..last], noProxy, n);
      var i :| 0 <= i < last && rules[..last][i].name == n &&
        FingerprintsOf(rules, noProxy)[n] == FingerprintOf(rules[..last][i], noProxy);
      assert rules[i].name == n;
    }
  }

  // Looking a name up and comparing is how the plan decides whether it still wants a runtime.
  lemma LookupDecides(plan: Plan, f: Fingerprint)
    requires PlanOk(plan)
    ensures Wants(plan, f) <==>
            f.rule.name in FingerprintsOf(plan.rules, plan.noProxy) &&
              FingerprintsOf(plan.rules, plan.noProxy)[f.rule.name] == f
  {
    if i :| WantsAt(plan, i, f) {
      FingerprintAt(plan.rules, plan.noProxy, i);
    }
    if f.rule.name in FingerprintsOf(plan.rules, plan.noProxy) &&
        FingerprintsOf(plan.rules, plan.noProxy)[f.rule.name] == f {
      FingerprintFrom(plan.rules, plan.noProxy, f.rule.name);
      var i :| 0 <= i < |plan.rules| && plan.rules[i].name == f.rule.name &&
        f == FingerprintOf(plan.rules[i], plan.noProxy);
      assert WantsAt(plan, i, f);
    }
  }
}

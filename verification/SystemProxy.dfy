/** The operating system's proxy setting follows the selected rule, and is off after the end. */
module SystemProxy {
  import opened Text
  import Config
  import RegistrySteps
  import Registry
  import Reload
  import ReloadSteps
  import Validate

  type RuleState = ReloadSteps.RuleState

  // How a bound address is turned into one to connect to.
  type Format = string -> string

  // What the selection needs to know of a rule's state.
  datatype RuleInfo = RuleInfo(name: string, local: bool, address: string)

  // os is the last address given to the operating system, "" for off, None before the first.
  datatype State = State(rules: seq<RuleInfo>, rule: string, address: string, stopped: bool, os: Option<string>)

  // What name stands for: the address of its first local HTTP proxy, or nothing.
  function AddressOf(rules: seq<RuleInfo>, name: string): string {
    if rules == [] then ""
    else if rules[0].name == name && rules[0].local then rules[0].address
    else AddressOf(rules[1..], name)
  }

  // Rules are published by a reload, and anew whenever a report changes an address.
  datatype Op = Publish(rules: seq<RuleInfo>) | Select(name: string) | Restore | Stop

  // The selection is dropped when its rule has no address any more.
  function Synced(s: State): State {
    var address := AddressOf(s.rules, s.rule);
    s.(rule := if address == "" then "" else s.rule, address := address)
  }

  function After(s: State, op: Op): State {
    match op
    case Publish(rules) => s.(rules := rules)
    case Select(name) =>
      if s.stopped then s
      else
        var synced := Synced(s.(rule := name));
        synced.(os := Some(synced.address))
    case Restore =>
      var synced := Synced(s);
      if synced.address != s.address || synced.rule != s.rule then synced.(os := Some(synced.address)) else synced
    case Stop => s.(stopped := true, rule := "", address := "", os := if s.address != "" then Some("") else s.os)
  }

  function AfterAll(s: State, ops: seq<Op>): State
    decreases |ops|
  {
    if ops == [] then s else AfterAll(After(s, ops[0]), ops[1..])
  }

  // Every rule has a name, as the checks on configurations demand.
  predicate Named(rules: seq<RuleInfo>) { forall r :: r in rules ==> r.name != "" }

  predicate AllNamed(ops: seq<Op>) { forall op :: op in ops && op.Publish? ==> Named(op.rules) }

  // The setting is what the selection says, nothing is selected without a rule, nor after the end.
  predicate Inv(s: State) {
    && Named(s.rules)
    && (if s.os.Some? then s.os.value == s.address else s.address == "" && s.rule == "")
    && (s.rule == "" ==> s.address == "")
    && (s.stopped ==> s.rule == "")
  }

  const INITIAL := State([], "", "", false, None)

  lemma {:induction false} Unnamed(rules: seq<RuleInfo>)
    requires Named(rules)
    ensures AddressOf(rules, "") == ""
  {
    if rules != [] {
      assert rules[0] in rules;
      Unnamed(rules[1..]);
    }
  }

  lemma KeepOp(s: State, op: Op)
    requires Inv(s) && (op.Publish? ==> Named(op.rules))
    ensures Inv(After(s, op))
  {
    Unnamed(s.rules);
  }

  lemma {:induction false} InvAlways(s: State, ops: seq<Op>)
    requires Inv(s) && AllNamed(ops)
    ensures Inv(AfterAll(s, ops))
    decreases |ops|
  {
    if ops != [] {
      assert ops[0] in ops;
      KeepOp(s, ops[0]);
      InvAlways(After(s, ops[0]), ops[1..]);
    }
  }

  // What holds with rules of any names: the system was told what is remembered, and a stop drops the selection.
  predicate Told(s: State) {
    && (if s.os.Some? then s.os.value == s.address else s.address == "")
    && (s.stopped ==> s.rule == "")
    && (s.rule != "" ==> s.address != "")
  }

  lemma {:induction false} ToldAlways(s: State, ops: seq<Op>)
    requires Told(s)
    ensures Told(AfterAll(s, ops))
    decreases |ops|
  {
    if ops != [] {
      ToldAlways(After(s, ops[0]), ops[1..]);
    }
  }

  // After the first selection the last address given to the system is the one the application
  // remembers, whatever is selected, published, restored or stopped; and a rule stays selected only
  // with an address.
  lemma SettingFollowsSelection(before: seq<Op>, name: string, ops: seq<Op>)
    requires !AfterAll(INITIAL, before).stopped
    ensures var s := AfterAll(After(AfterAll(INITIAL, before), Select(name)), ops);
            s.os == Some(s.address) && (s.rule != "" ==> s.address != "")
  {
    ToldAlways(INITIAL, before);
    var selected := After(AfterAll(INITIAL, before), Select(name));
    ToldAlways(selected, ops);
    StaysSet(selected, ops);
  }

  lemma {:induction false} StaysSet(s: State, ops: seq<Op>)
    requires s.os.Some?
    ensures AfterAll(s, ops).os.Some?
    decreases |ops|
  {
    if ops != [] {
      StaysSet(After(s, ops[0]), ops[1..]);
    }
  }

  // After a stop the system proxy is off, and no later operations in any order turn it on.
  lemma {:induction false} OffAfterStop(s: State, ops: seq<Op>)
    requires Inv(s) && AllNamed(ops)
    ensures var s' := AfterAll(After(s, Stop), ops);
            s'.os != None ==> s'.os == Some("")
    ensures AfterAll(After(s, Stop), ops).address == "" && AfterAll(After(s, Stop), ops).stopped
  {
    KeepOp(s, Stop);
    InvAlways(After(s, Stop), ops);
    StaysStopped(After(s, Stop), ops);
  }

  lemma {:induction false} StaysStopped(s: State, ops: seq<Op>)
    requires s.stopped
    ensures AfterAll(s, ops).stopped
    decreases |ops|
  {
    if ops != [] {
      StaysStopped(After(s, ops[0]), ops[1..]);
    }
  }

  // The first rule without a name that is a proxy on this machine has an address.
  ghost predicate NamelessProxy(rules: seq<RuleInfo>) {
    exists i :: FirstNameless(rules, i) && rules[i].address != ""
  }

  predicate FirstNameless(rules: seq<RuleInfo>, i: int) {
    0 <= i < |rules| && Nameless(rules[i]) && forall j :: 0 <= j < i ==> !Nameless(rules[j])
  }

  predicate Nameless(rule: RuleInfo) { rule.name == "" && rule.local }

  lemma {:induction false} NamelessAddress(rules: seq<RuleInfo>)
    ensures AddressOf(rules, "") != "" <==> NamelessProxy(rules)
  {
    if rules != [] && !Nameless(rules[0]) {
      NamelessAddress(rules[1..]);
      if NamelessProxy(rules) {
        var i :| FirstNameless(rules, i) && rules[i].address != "";
        assert forall j :: 0 <= j < i - 1 ==> rules[1..][j] == rules[j + 1];
        assert FirstNameless(rules[1..], i - 1) && rules[1..][i - 1] == rules[i];
      }
      if NamelessProxy(rules[1..]) {
        var i :| FirstNameless(rules[1..], i) && rules[1..][i].address != "";
        assert forall j :: 0 < j < i + 1 ==> rules[j] == rules[1..][j - 1];
        assert FirstNameless(rules, i + 1) && rules[i + 1] == rules[1..][i];
      }
    }
  }

  predicate Off(s: State) { s.os == None || s.os == Some("") }

  // The system proxy is off now and after each of the operations.
  predicate StaysOff(s: State, ops: seq<Op>)
    decreases |ops|
  {
    Off(s) && (ops == [] || StaysOff(After(s, ops[0]), ops[1..]))
  }

  // Whenever an operation restores, the rules published last hold no proxy without a name.
  ghost predicate NeverNameless(rules: seq<RuleInfo>, ops: seq<Op>)
    decreases |ops|
  {
    ops != [] ==>
      && (ops[0].Restore? ==> !NamelessProxy(rules))
      && NeverNameless(if ops[0].Publish? then ops[0].rules else rules, ops[1..])
  }

  lemma {:induction false} StoppedOff(s: State, ops: seq<Op>)
    requires Told(s) && s.stopped && Off(s)
    ensures StaysOff(s, ops) <==> NeverNameless(s.rules, ops)
    decreases |ops|
  {
    if ops != [] {
      NamelessAddress(s.rules);
      if Off(After(s, ops[0])) {
        StoppedOff(After(s, ops[0]), ops[1..]);
      }
    }
  }

  // Why that takes the names: after a stop, following any operations and followed by any, on rules of
  // any names, the system proxy stays off exactly if no restore meets a proxy without a name.
  lemma OffNeedsNames(before: seq<Op>, ops: seq<Op>)
    ensures var s := AfterAll(INITIAL, before); StaysOff(After(s, Stop), ops) <==> NeverNameless(s.rules, ops)
  {
    ToldAlways(INITIAL, before);
    StoppedOff(After(AfterAll(INITIAL, before), Stop), ops);
  }

  // Nobody has told the system anything, now or after any of the operations.
  predicate Untouched(s: State, ops: seq<Op>)
    decreases |ops|
  {
    s.os == None && (ops == [] || Untouched(After(s, ops[0]), ops[1..]))
  }

  // Before the first selection the setting is left alone, whatever is published, restored or stopped,
  // exactly if no restore meets a proxy without a name.
  lemma UntouchedBeforeSelection(ops: seq<Op>)
    requires forall op :: op in ops ==> !op.Select?
    ensures Untouched(INITIAL, ops) <==> NeverNameless([], ops)
  {
    UntouchedAlong(INITIAL, ops);
  }

  lemma {:induction false} UntouchedAlong(s: State, ops: seq<Op>)
    requires (forall op :: op in ops ==> !op.Select?) && s.os == None && s.rule == "" && s.address == ""
    ensures Untouched(s, ops) <==> NeverNameless(s.rules, ops)
    decreases |ops|
  {
    if ops != [] {
      assert ops[0] in ops;
      NamelessAddress(s.rules);
      if After(s, ops[0]).os == None {
        UntouchedAlong(After(s, ops[0]), ops[1..]);
      }
    }
  }

  // ------------------------------------------------------------------ the application's part

  function Display(format: Format, state: RuleState): string
    reads state
  {
    var address := if state.address == "" then state.listenAddress else state.address;
    if state.remote then address else format(address)
  }

  function Local(state: RuleState): bool { !state.remote && !state.virtual && state.target == "" && state.http }

  function Info(format: Format, state: RuleState): RuleInfo
    reads state
  {
    RuleInfo(state.name, Local(state), Display(format, state))
  }

  ghost function Infos(format: Format, rules: seq<RuleState>): (infos: seq<RuleInfo>)
    reads rules
    ensures |infos| == |rules| && forall i :: 0 <= i < |rules| ==> infos[i] == Info(format, rules[i])
  {
    if rules == [] then [] else [Info(format, rules[0])] + Infos(format, rules[1..])
  }

  // A rule of that name is an HTTP proxy that listens on an address of this machine.
  predicate IsLocalProxy(state: RuleState, name: string) {
    state.name == name && state.http && state.target == "" && !state.remote && !state.virtual
  }

  // Such is the state of a rule that serves a proxy with HTTP among its protocols, on no chain and no channel.
  lemma LocalProxyIs(state: RuleState, rule: Config.Rule)
    requires Reload.StateFor(state, rule)
    ensures IsLocalProxy(state, rule.name) <==>
            && rule.forward.IsProxy() && rule.listen.way == [] && rule.listen.virtual == ""
            && exists p :: p in rule.listen.Schemes() && p.kind == Config.HTTP
  {
    Config.TargetIs(rule.forward);
  }

  method LocalProxyAddress(format: Format, rules: seq<RuleState>, name: string) returns (address: string)
    ensures address == AddressOf(Infos(format, rules), name)
    ensures (forall i :: 0 <= i < |rules| ==> !IsLocalProxy(rules[i], name)) ==> address == ""
    ensures forall i :: 0 <= i < |rules| && IsLocalProxy(rules[i], name)
                        && (forall j :: 0 <= j < i ==> !IsLocalProxy(rules[j], name)) ==>
              address == format(if rules[i].address == "" then rules[i].listenAddress else rules[i].address)
  {
    for i := 0 to |rules|
      invariant AddressOf(Infos(format, rules), name) == AddressOf(Infos(format, rules[i..]), name)
      invariant forall j :: 0 <= j < i ==> !IsLocalProxy(rules[j], name)
    {
      var rule := rules[i];
      assert rules[i..][1..] == rules[i + 1..];
      if rule.name == name && Local(rule) {
        return Display(format, rule);
      }
    }
    address := "";
  }

  // What happens to the selection does not concern the runtimes.
  twostate lemma RuntimesKept(runtime: Reload.App)
    requires old(runtime.Valid()) && unchanged(runtime, old(runtime.all), old(runtime.States()), runtime.metrics)
    ensures runtime.Valid()
  {
    hide ReloadSteps.Inv;
    assert runtime.States() == old(runtime.States());
    assert runtime.Views() == old(runtime.Views());
    assert runtime.Now() == old(runtime.Now());
  }

  class App {
    const runtime: Reload.App
    var systemProxyRule: string
    var systemProxyAddress: string
    var stopped: bool
    // What the operating system was told last.
    var os: Option<string>

    ghost function Now(format: Format): State
      reads this, runtime, runtime.rules
    {
      State(Infos(format, runtime.rules), systemProxyRule, systemProxyAddress, stopped, os)
    }

    // The runtimes are in order, and the setting is as it should be.
    ghost predicate Valid(format: Format)
      reads this, runtime, runtime.rules, runtime.all, runtime.States(), runtime.metrics
    {
      runtime.Valid() && Inv(Now(format))
    }

    constructor (runtime: Reload.App)
      requires runtime.rules == [] && runtime.Valid()
      ensures this.runtime == runtime && forall format :: Now(format) == INITIAL && Valid(format)
    {
      hide ReloadSteps.Inv;
      this.runtime := runtime;
      systemProxyRule, systemProxyAddress, stopped, os := "", "", false, None;
      new;
      RuntimesKept(this.runtime);
    }

    method SetSystemProxy(address: string)
      modifies this`os
      ensures os == Some(address)
    {
      os := Some(address);
    }

    // What is selected now, whether that is news, and the rule that was dropped, if one was.
    method SyncSystemProxySelection(format: Format) returns (address: string, changed: bool, removed: string)
      modifies this`systemProxyRule, this`systemProxyAddress
      ensures Now(format) == Synced(old(Now(format))) && address == systemProxyAddress
      ensures changed == (systemProxyAddress != old(systemProxyAddress) || systemProxyRule != old(systemProxyRule))
      ensures removed == if systemProxyRule != old(systemProxyRule) then old(systemProxyRule) else ""
    {
      address := LocalProxyAddress(format, runtime.rules, systemProxyRule);
      removed := "";
      if systemProxyRule != "" && address == "" {
        removed := systemProxyRule;
        systemProxyRule := "";
      }
      changed := address != systemProxyAddress || removed != "";
      systemProxyAddress := address;
      assert Infos(format, runtime.rules) == old(Infos(format, runtime.rules));
    }

    method SelectSystemProxy(format: Format, name: string)
      requires Valid(format)
      modifies this`systemProxyRule, this`systemProxyAddress, this`os
      ensures Now(format) == After(old(Now(format)), Select(name)) && Valid(format)
    {
      hide Inv, Reload.App.Valid;
      KeepOp(Now(format), Select(name));
      if stopped {
        return;
      }
      systemProxyRule := name;
      assert Infos(format, runtime.rules) == old(Infos(format, runtime.rules));
      var address, _, removed := SyncSystemProxySelection(format);
      SetSystemProxy(address);
      assert Infos(format, runtime.rules) == old(Infos(format, runtime.rules));
      RuntimesKept(runtime);
    }

    method RestoreSystemProxy(format: Format)
      requires Valid(format)
      modifies this`systemProxyRule, this`systemProxyAddress, this`os
      ensures Now(format) == After(old(Now(format)), Restore) && Valid(format)
    {
      hide Inv, Reload.App.Valid;
      KeepOp(Now(format), Restore);
      var address, changed, removed := SyncSystemProxySelection(format);
      if changed {
        SetSystemProxy(address);
      }
      assert Infos(format, runtime.rules) == old(Infos(format, runtime.rules));
      RuntimesKept(runtime);
    }

    // A reload publishes the states of the enabled rules, which all have names.
    method ReloadRules(format: Format, redact: RegistrySteps.Redact, env: Validate.Env, conf: Option<Config.Config>,
                       noProxy: seq<string>)
      returns (err: Option<Validate.Error>)
      requires Valid(format) && runtime.metrics.Valid() && runtime.phase == ReloadSteps.Idle
      modifies runtime, runtime.all, runtime.States(), runtime.metrics, runtime.metrics.rules.Values
      ensures Valid(format) && runtime.metrics.Valid() && runtime.phase == ReloadSteps.Idle
      ensures Now(format) == After(old(Now(format)), Publish(Infos(format, runtime.rules)))
    {
      hide Registry.Registry.Valid, Reload.App.Valid;
      ghost var t;
      err, t := runtime.Reload(redact, env, conf, noProxy);
      RulesNamed(format);
    }

    // Reports of runtimes, too, publish anew.
    method Meantime(format: Format, ghost env: Validate.Env)
      requires Valid(format)
      modifies runtime`quit, runtime.all, runtime.States()
      ensures Valid(format) && Now(format) == After(old(Now(format)), Publish(Infos(format, runtime.rules)))
    {
      hide Reload.App.Valid;
      ghost var t := ReloadSteps.Trace([runtime.Now()], []);
      t := runtime.Meantime(env, t, t);
      RulesNamed(format);
    }

    // Whatever the runtimes did, the rules shown have names.
    lemma RulesNamed(format: Format)
      requires runtime.Valid()
      ensures Named(Infos(format, runtime.rules))
    {
      forall i | 0 <= i < |runtime.rules| ensures Infos(format, runtime.rules)[i].name != "" {
        assert runtime.rules[i] in runtime.rules;
      }
    }

    // The end: the system proxy is turned off, then the runtimes are cancelled.
    method Stop(format: Format)
      requires Valid(format)
      modifies this`stopped, this`systemProxyRule, this`systemProxyAddress, this`os, runtime`quit, runtime.all`cancelled
      ensures Now(format) == After(old(Now(format)), Op.Stop) && Valid(format)
      ensures runtime.rooted ==> runtime.quit && forall r :: r in runtime.all ==> r.cancelled
    {
      hide Inv, Reload.App.Valid;
      KeepOp(Now(format), Op.Stop);
      TurnOff(format);
      runtime.Quit();
      assert Infos(format, runtime.rules) == old(Infos(format, runtime.rules));
    }

    method TurnOff(format: Format)
      modifies this`stopped, this`systemProxyRule, this`systemProxyAddress, this`os
      ensures Now(format) == After(old(Now(format)), Op.Stop) && (old(runtime.Valid()) ==> runtime.Valid())
    {
      hide Reload.App.Valid;
      stopped := true;
      var address := systemProxyAddress;
      systemProxyRule, systemProxyAddress := "", "";
      if address != "" {
        SetSystemProxy("");
      }
      assert Infos(format, runtime.rules) == old(Infos(format, runtime.rules));
      if old(runtime.Valid()) {
        RuntimesKept(runtime);
      }
    }
  }
}

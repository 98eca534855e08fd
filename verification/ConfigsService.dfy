/** The web service that edits the stored configuration. */
module ConfigsService {
  import opened Text
  import opened Config
  import V = Validate

  datatype ServiceError =
    | LoadFailed | NilRule | NameEmpty
    | AlreadyExists(name: string) | NotFound(name: string)
    | Invalid(why: V.Error)
    | SaveFailed
    | SavedButReloadFailed

  // What one edit makes of the stored configuration.
  datatype Edit = Edited(conf: Config) | Refused(error: ServiceError)

  // How loading, saving and reloading turn out.
  datatype Io = Io(loads: bool, saves: bool, reloads: bool)

  predicate HasName(rules: seq<Rule>, name: string) {
    exists i :: 0 <= i < |rules| && rules[i].name == name
  }

  function IndexOf(rules: seq<Rule>, name: string): (index: Option<nat>)
    ensures index.None? <==> !HasName(rules, name)
    ensures index.Some? ==> index.value < |rules| && rules[index.value].name == name
                            && forall i :: 0 <= i < index.value ==> rules[i].name != name
  {
    if rules == [] then None
    else if rules[0].name == name then Some(0)
    else
      var rest := IndexOf(rules[1..], name);
      assert forall i :: 0 < i < |rules| ==> rules[i] == rules[1..][i - 1];
      if rest.None? then None else Some(rest.value + 1)
  }

  function Created(conf: Config, rule: Rule): Edit {
    if HasName(conf.rules, rule.name) then Refused(AlreadyExists(rule.name))
    else Edited(conf.(rules := conf.rules + [rule]))
  }

  // An empty name in the body keeps the old one.
  function Updated(conf: Config, name: string, rule: Rule): Edit {
    var index := IndexOf(conf.rules, name);
    var replacement := if rule.name == "" then rule.(name := name) else rule;
    if index.None? then Refused(NotFound(name))
    else if replacement.name != name && HasName(conf.rules, replacement.name)
        then Refused(AlreadyExists(replacement.name))
    else Edited(conf.(rules := conf.rules[index.value := replacement]))
  }

  function Deleted(conf: Config, name: string): Edit {
    var index := IndexOf(conf.rules, name);
    if index.None? then Refused(NotFound(name))
    else Edited(conf.(rules := conf.rules[..index.value] + conf.rules[index.value + 1..]))
  }

  // ------------------------------------------------------------------ what an edit may change

  // Nothing but the list of rules differs.
  predicate OnlyRules(before: Config, after: Config) { after.webUI == before.webUI && after.noProxy == before.noProxy }

  // The rule joins at the end.
  predicate Joined(before: Config, after: Config, rule: Rule) {
    && OnlyRules(before, after) && |after.rules| == |before.rules| + 1 && after.rules[|before.rules|] == rule
    && forall j :: 0 <= j < |before.rules| ==> after.rules[j] == before.rules[j]
  }

  // The rule takes the place of the first one called name, every other stays in its own.
  ghost predicate Replaced(before: Config, after: Config, name: string, rule: Rule) {
    && OnlyRules(before, after) && |after.rules| == |before.rules|
    && exists i :: FirstNamed(before.rules, i, name) && after.rules[i] == rule
                   && forall j :: 0 <= j < |before.rules| && j != i ==> after.rules[j] == before.rules[j]
  }

  // Exactly one rule is gone, the first one called name; all others are there, in their order.
  ghost predicate OneGone(before: Config, after: Config, name: string) {
    && OnlyRules(before, after) && |before.rules| == |after.rules| + 1
    && exists i :: FirstNamed(before.rules, i, name)
                   && multiset(before.rules) == multiset(after.rules) + multiset{before.rules[i]}
                   && forall j :: 0 <= j < |after.rules| ==> after.rules[j] == before.rules[if j < i then j else j + 1]
  }

  predicate FirstNamed(rules: seq<Rule>, i: int, name: string) {
    0 <= i < |rules| && rules[i].name == name && forall j :: 0 <= j < i ==> rules[j].name != name
  }

  // The rule an update stores.
  function Named(rule: Rule, name: string): Rule { if rule.name == "" then rule.(name := name) else rule }

  lemma CreatedJoins(conf: Config, rule: Rule)
    ensures Created(conf, rule).Edited? <==> forall j :: 0 <= j < |conf.rules| ==> conf.rules[j].name != rule.name
    ensures Created(conf, rule).Edited? ==> Joined(conf, Created(conf, rule).conf, rule)
  {
  }

  lemma UpdatedReplaces(conf: Config, name: string, rule: Rule)
    ensures Updated(conf, name, rule).Edited? <==>
            && HasName(conf.rules, name)
            && (Named(rule, name).name != name ==> !HasName(conf.rules, Named(rule, name).name))
    ensures Updated(conf, name, rule).Edited? ==>
              Replaced(conf, Updated(conf, name, rule).conf, name, Named(rule, name))
  {
    var index := IndexOf(conf.rules, name);
    assert index.Some? ==> FirstNamed(conf.rules, index.value, name);
  }

  lemma TakenOut(rules: seq<Rule>, i: nat)
    requires i < |rules|
    ensures multiset(rules) == multiset(rules[..i] + rules[i + 1..]) + multiset{rules[i]}
  {
    assert rules == rules[..i] + [rules[i]] + rules[i + 1..];
  }

  lemma GoneAt(conf: Config, i: nat, name: string)
    requires FirstNamed(conf.rules, i, name)
    ensures OneGone(conf, conf.(rules := conf.rules[..i] + conf.rules[i + 1..]), name)
  {
    var after := conf.rules[..i] + conf.rules[i + 1..];
    assert conf.rules[i].name == name && i < |conf.rules|;
    hide FirstNamed;
    TakenOut(conf.rules, i);
    forall j | 0 <= j < |after| ensures after[j] == conf.rules[if j < i then j else j + 1] {}
  }

  lemma DeletedTakesOne(conf: Config, name: string)
    ensures Deleted(conf, name).Edited? <==> HasName(conf.rules, name)
    ensures Deleted(conf, name).Edited? ==> OneGone(conf, Deleted(conf, name).conf, name)
  {
    hide OneGone;
    var index := IndexOf(conf.rules, name);
    if index.Some? {
      GoneAt(conf, index.value, name);
    }
  }

  class Service {
    const env: V.Env
    var stored: Config

    constructor (env: V.Env, stored: Config)
      ensures this.env == env && this.stored == stored
    {
      this.env, this.stored := env, stored;
    }

    // The edit reaches the store.
    ghost predicate Saves(conf: Config, edit: Edit, io: Io) {
      io.loads && edit.Edited? && V.ValidConfig(env, edit.conf) && io.saves
    }

    // Load, edit, validate, save, reload: only a valid configuration is ever saved, and any error
    // but a failed reload leaves the stored one as it was.
    method Modify(edit: Config -> Edit, io: Io) returns (err: Option<ServiceError>)
      modifies this
      ensures stored == if Saves(old(stored), edit(old(stored)), io) then edit(old(stored)).conf else old(stored)
      ensures stored != old(stored) ==> V.ValidConfig(env, stored)
      ensures err.None? <==> Saves(old(stored), edit(old(stored)), io) && io.reloads
      ensures Saves(old(stored), edit(old(stored)), io) && !io.reloads ==> err == Some(SavedButReloadFailed)
      ensures io.loads && edit(old(stored)).Refused? ==> err == Some(edit(old(stored)).error)
      ensures err.Some? && err.value.Invalid? && edit(old(stored)).Edited? ==>
              V.Explains(env, edit(old(stored)).conf, err.value.why)
    {
      hide V.ValidConfig, V.Explains;
      if !io.loads {
        return Some(LoadFailed);
      }
      var edited := edit(stored);
      if edited.Refused? {
        return Some(edited.error);
      }
      var why := V.Validate(env, Some(edited.conf));
      if why.Some? {
        return Some(Invalid(why.value));
      }
      if !io.saves {
        return Some(SaveFailed);
      }
      stored := edited.conf;
      if !io.reloads {
        return Some(SavedButReloadFailed);
      }
      return None;
    }

    method CreateRule(rule: Option<Rule>, io: Io) returns (err: Option<ServiceError>)
      modifies this
      ensures rule.None? || Trim(rule.value.name) == "" ==> err == Some(NameEmpty) && stored == old(stored)
      ensures rule.Some? && Trim(rule.value.name) != "" ==>
                var edit := Created(old(stored), rule.value);
                && stored == (if Saves(old(stored), edit, io) then edit.conf else old(stored))
                && (err.None? <==> Saves(old(stored), edit, io) && io.reloads)
                && (io.loads && edit.Refused? ==> err == Some(edit.error))
      ensures err.None? || stored != old(stored) ==> rule.Some? && Joined(old(stored), stored, rule.value)
    {
      if rule.None? || Trim(rule.value.name) == "" {
        return Some(NameEmpty);
      }
      CreatedJoins(stored, rule.value);
      err := Modify(conf => Created(conf, rule.value), io);
    }

    method UpdateRule(name: string, rule: Option<Rule>, io: Io) returns (err: Option<ServiceError>)
      modifies this
      ensures rule.None? ==> err == Some(NilRule) && stored == old(stored)
      ensures rule.Some? ==>
                var edit := Updated(old(stored), name, rule.value);
                && stored == (if Saves(old(stored), edit, io) then edit.conf else old(stored))
                && (err.None? <==> Saves(old(stored), edit, io) && io.reloads)
                && (io.loads && edit.Refused? ==> err == Some(edit.error))
      ensures err.None? || stored != old(stored) ==>
                rule.Some? && Replaced(old(stored), stored, name, Named(rule.value, name))
    {
      if rule.None? {
        return Some(NilRule);
      }
      UpdatedReplaces(stored, name, rule.value);
      err := Modify(conf => Updated(conf, name, rule.value), io);
    }

    method DeleteRule(name: string, io: Io) returns (err: Option<ServiceError>)
      modifies this
      ensures var edit := Deleted(old(stored), name);
              && stored == (if Saves(old(stored), edit, io) then edit.conf else old(stored))
              && (err.None? <==> Saves(old(stored), edit, io) && io.reloads)
              && (io.loads && edit.Refused? ==> err == Some(edit.error))
      ensures err.None? || stored != old(stored) ==> OneGone(old(stored), stored, name)
    {
      DeletedTakesOne(stored, name);
      err := Modify(conf => Deleted(conf, name), io);
    }
  }

  // Deleting a rule never makes a valid configuration invalid.
  lemma DeleteKeepsValid(env: V.Env, conf: Config, name: string)
    requires V.ValidConfig(env, conf) && HasName(conf.rules, name)
    ensures Deleted(conf, name).Edited? && V.ValidConfig(env, Deleted(conf, name).conf)
    ensures !HasName(Deleted(conf, name).conf.rules, name)
  {
    hide V.RuleOk, V.Clash, V.ClashesWebUI;
    var index := IndexOf(conf.rules, name).value;
    var edited := Deleted(conf, name).conf;
    forall i | 0 <= i < |edited.rules| ensures V.RuleOkAt(env, edited, i) && edited.rules[i].name != name {
      assert V.RuleOkAt(env, conf, if i < index then i else i + 1);
      assert forall j :: 0 <= j < i ==> edited.rules[j] == conf.rules[if j < index then j else j + 1];
    }
  }
}

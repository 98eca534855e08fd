/** Saving what the form accepts leaves a valid configuration. */
module EditorSave {
  import opened Text
  import opened Config
  import V = Validate
  import opened RuleEditor
  import opened EditorAgreement
  import opened ConfigsService

  // A valid configuration stays valid when rule k gives way to one that is fine by itself and
  // beside every other; with k one past the end, when that rule joins.
  lemma PlacedValid(env: V.Env, conf: Config, rules: seq<Rule>, k: nat, rule: Rule)
    requires V.ValidConfig(env, conf) && k <= |conf.rules|
    requires rules == if k < |conf.rules| then conf.rules[k := rule] else conf.rules + [rule]
    requires !V.ClashesWebUI(rule, conf.webUI)
    requires forall i :: 0 <= i < |conf.rules| && i != k ==>
               conf.rules[i].name != rule.name && !V.Clash(conf.rules[i], rule) && !V.Clash(rule, conf.rules[i])
    ensures V.ValidConfig(env, conf.(rules := rules)) <==> V.RuleOk(env, rule)
  {
    hide V.RuleOk, V.Clash, V.ClashesWebUI;
    var placed := conf.(rules := rules);
    if V.RuleOk(env, rule) {
      forall i | 0 <= i < |rules| ensures V.RuleOkAt(env, placed, i) {
        if i != k {
          assert V.RuleOkAt(env, conf, i);
        }
      }
    } else {
      assert !V.RuleOkAt(env, placed, k);
    }
  }

  lemma NamesDistinct(env: V.Env, conf: Config, i: nat, j: nat)
    requires V.ValidConfig(env, conf) && i < |conf.rules| && j < |conf.rules|
    requires conf.rules[i].name == conf.rules[j].name
    ensures i == j
  {
    hide V.RuleOk, V.Clash, V.ClashesWebUI;
    assert V.RuleOkAt(env, conf, i) && V.RuleOkAt(env, conf, j);
  }

  // A new rule the form accepts against the stored configuration is added by the server, and the
  // whole configuration is valid exactly when the rule is servable.
  lemma CreateAgrees(env: V.Env, browser: Browser, conf: Config, d: RuleDraft, rule: Rule)
    requires V.ValidConfig(env, conf) && RowsOk(d.listen.protocols)
    requires Read(browser, d, Some(ReadContext(conf.rules, None, Some(conf.webUI)))) == Accepted(rule)
    ensures Trim(rule.name) != ""
    ensures Created(conf, rule) == Edited(conf.(rules := conf.rules + [rule]))
    ensures V.ValidConfig(env, conf.(rules := conf.rules + [rule])) <==> Servable(env, d, rule)
  {
    hide V.RuleOk, V.Clash, V.ClashesWebUI, Servable, V.ValidConfig;
    var context := ReadContext(conf.rules, None, Some(conf.webUI));
    CleanFields(browser, d, Some(context));
    assert rule.name == Parts(browser, d).name;
    hide Read, Parts;
    AcceptedRuleOk(env, browser, d, Some(context), rule);
    AcceptedNotWebUI(browser, d, context, rule);
    forall i | 0 <= i < |conf.rules|
      ensures conf.rules[i].name != rule.name && !V.Clash(conf.rules[i], rule) && !V.Clash(rule, conf.rules[i])
    {
      AcceptedApart(browser, d, context, rule, conf.rules[i]);
    }
    PlacedValid(env, conf, conf.rules + [rule], |conf.rules|, rule);
  }

  // The same for rule k edited in place, whether or not it keeps its name.
  lemma UpdateAgrees(env: V.Env, browser: Browser, conf: Config, k: nat, d: RuleDraft, rule: Rule)
    requires V.ValidConfig(env, conf) && RowsOk(d.listen.protocols) && k < |conf.rules|
    requires Read(browser, d, Some(ReadContext(conf.rules, Some(conf.rules[k].name), Some(conf.webUI)))) ==
             Accepted(rule)
    ensures Updated(conf, conf.rules[k].name, rule) == Edited(conf.(rules := conf.rules[k := rule]))
    ensures V.ValidConfig(env, conf.(rules := conf.rules[k := rule])) <==> Servable(env, d, rule)
  {
    hide V.RuleOk, V.Clash, V.ClashesWebUI, Servable, V.ValidConfig;
    var self := conf.rules[k].name;
    var context := ReadContext(conf.rules, Some(self), Some(conf.webUI));
    CleanFields(browser, d, Some(context));
    assert rule.name == Parts(browser, d).name;
    hide Read, Parts;
    AcceptedRuleOk(env, browser, d, Some(context), rule);
    AcceptedNotWebUI(browser, d, context, rule);
    forall i | 0 <= i < |conf.rules| && i != k
      ensures conf.rules[i].name != rule.name && !V.Clash(conf.rules[i], rule) && !V.Clash(rule, conf.rules[i])
    {
      if conf.rules[i].name == self {
        NamesDistinct(env, conf, i, k);
      }
      AcceptedApart(browser, d, context, rule, conf.rules[i]);
    }
    var index := IndexOf(conf.rules, self).value;
    NamesDistinct(env, conf, index, k);
    PlacedValid(env, conf, conf.rules[k := rule], k, rule);
  }
}

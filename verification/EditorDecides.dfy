/** What decides whether the form accepts a draft: it refuses nothing the server would take, but for blank
    hops and an empty choice of protocols. */
module EditorDecides {
  import opened Text
  import opened Config
  import V = Validate
  import opened RuleEditor
  import opened EditorAgreement

  // Numbers and channel names can be read.
  predicate AllRead(p: Reading) {
    p.listenPort.Some? && p.listenChannel.Some? && p.targetPort.Some? && p.targetChannel.Some?
  }

  // A proxy has a protocol switched on, and no hop has only blank rows.
  predicate Filled(d: RuleDraft, p: Reading) {
    && (d.mode.ProxyMode? ==> p.protocols != [])
    && (d.listen.kind.ByAddress? ==> NoneBlank(d.listen.way))
    && (!TargetVirtual(d) ==> NoneBlank(d.forwardWay))
  }

  predicate NoneBlank(hops: seq<HopDraft>) {
    forall i :: 0 <= i < |hops| ==> hops[i].urls == [] || Usable(hops[i])
  }

  // No other rule has the rule's name or holds its address, nor does the web UI.
  predicate Free(context: Option<ReadContext>, rule: Rule) {
    context.Some? ==>
      && (forall other :: other in context.value.others && Some(other.name) != context.value.self ==>
           other.name != rule.name && !V.Clash(other, rule))
      && (context.value.webUI.Some? ==> !V.ClashesWebUI(rule, context.value.webUI.value))
  }

  // What stands in a row that is not blank is sent, in some hop.
  lemma RowSent(hops: seq<HopDraft>, i: nat, k: nat) returns (hop: Node)
    requires i < |hops| && k < |hops[i].urls| && Trim(hops[i].urls[k].value) != ""
    ensures hop in WayOf(hops) && Trim(hops[i].urls[k].value) in hop
  {
    var values := seq(|hops|, j requires 0 <= j < |hops| => ValuesOf(hops[j]));
    hop := SerializeUrls(values[i]);
    assert values[i][k] == hops[i].urls[k].value;
    assert Trim(values[i][k]) in hop;
  }

  lemma UrlAccepted(env: V.Env, way: seq<Node>, hop: Node, url: string)
    requires V.WayOk(env, way) && hop in way && url in hop
    ensures V.UrlOk(env, url)
  {
    var n :| 0 <= n < |way| && way[n] == hop;
  }

  lemma HopExactly(env: V.Env, hops: seq<HopDraft>, i: nat)
    requires i < |hops| && V.WayOk(env, WayOf(hops)) && (hops[i].urls == [] || Usable(hops[i]))
    ensures NoProblems(hops[i])
  {
    hide WayOf, V.WayOk;
    forall k | 0 <= k < |hops[i].urls| ensures UrlProblem(Usable(hops[i]), hops[i].urls[k]).None? {
      var url := Trim(hops[i].urls[k].value);
      if url != "" {
        var hop := RowSent(hops, i, k);
        UrlAccepted(env, WayOf(hops), hop, url);
        SchemesAgree(url);
      }
    }
  }

  lemma SchemesAgree(url: string)
    ensures HasScheme(url) <==> V.SchemeOf(url) != ""
  {
  }

  // The form finds no fault with a way, and every URL parses, exactly if the server takes the way and no
  // hop is blank.
  lemma WaysExactly(env: V.Env, hops: seq<HopDraft>)
    ensures (forall i :: 0 <= i < |hops| ==> NoProblems(hops[i])) && Parses(env, WayOf(hops)) <==>
            V.WayOk(env, WayOf(hops)) && NoneBlank(hops)
  {
    hide V.WayOk, Parses, WayOf;
    if forall i :: 0 <= i < |hops| ==> NoProblems(hops[i]) {
      WaysAgree(env, hops);
      forall i | 0 <= i < |hops| ensures hops[i].urls == [] || Usable(hops[i]) {
        assert NoProblems(hops[i]);
        if hops[i].urls != [] {
          assert UrlProblem(Usable(hops[i]), hops[i].urls[0]).None?;
        }
      }
    }
    if V.WayOk(env, WayOf(hops)) && NoneBlank(hops) {
      forall i | 0 <= i < |hops| ensures NoProblems(hops[i]) {
        HopExactly(env, hops, i);
      }
      WaysAgree(env, hops);
    }
  }

  // All the form checks.
  predicate Clean(d: RuleDraft, context: Option<ReadContext>, p: Reading)
    requires RowsOk(d.listen.protocols)
  {
    && AllRead(p) && p.name != "" && '/' !in p.name && !NameTaken(context, p.name)
    && (d.mode.ProxyMode? ==> p.protocols != [] && AuthClean(d.listen))
    && (p.targetChannel.value != "" ==> p.targetChannel != p.listenChannel)
    && (context.Some? ==>
          && AddressOwner(context.value, BoundAddress(d, p)).None?
          && !IsWebUI(context.value, BoundAddress(d, p)))
    && (d.listen.kind.ByAddress? ==> WayProblems(d.listen.way, map[]) == map[])
    && (!TargetVirtual(d) ==> WayProblems(d.forwardWay, map[]) == map[])
  }

  lemma CleanExactly(browser: Browser, d: RuleDraft, context: Option<ReadContext>)
    requires RowsOk(d.listen.protocols)
    ensures Read(browser, d, context) ==
            if Clean(d, context, Parts(browser, d)) then Accepted(RuleOf(d, Parts(browser, d)))
            else Rejected(Errors(d, context, Parts(browser, d)))
  {
    hide WayProblems, ProtocolErrors, SharedLacksUsername, MissesCipher, MissesPassword, BoundAddress, AddressOwner,
      IsWebUI, EntriesOf, WayOf, RowsOk, RuleOf;
    if Read(browser, d, context).Accepted? {
      CleanFields(browser, d, context);
    } else if Clean(d, context, Parts(browser, d)) {
      CleanAccepted(browser, d, context);
    }
  }

  lemma CleanAccepted(browser: Browser, d: RuleDraft, context: Option<ReadContext>)
    requires RowsOk(d.listen.protocols) && Clean(d, context, Parts(browser, d))
    ensures Errors(d, context, Parts(browser, d)) == NO_ERRORS
  {
    hide WayProblems, SharedLacksUsername, ProtocolErrors, MissesCipher, MissesPassword, BoundAddress, AddressOwner,
      IsWebUI, EntriesOf, WayOf, RowsOk, Trim, ParsePort, ParseChannel;
    var p := Parts(browser, d);
    assert FieldErrorsOf(d, context, p) == NO_ERRORS;
  }

  // The address of the draft is that of the rule it would send.
  lemma BoundExactly(browser: Browser, d: RuleDraft, rule: Rule)
    requires AllRead(Parts(browser, d)) && rule == RuleOf(d, Parts(browser, d))
    ensures BoundAddress(d, Parts(browser, d)) == if V.Binds(rule) then Some(rule.listen.Address()) else None
  {
    hide EntriesOf, WayOf, ParsePort;
    AddressesAgree(rule.listen);
  }

  // Whom the form meets there are those the server compares the rule with.
  lemma MeetsExactly(context: ReadContext, rule: Rule, bound: Option<string>)
    requires bound == if V.Binds(rule) then Some(rule.listen.Address()) else None
    ensures AddressOwner(context, bound).None? <==>
            (forall other :: other in context.others && Some(other.name) != context.self ==> !V.Clash(other, rule))
    ensures !IsWebUI(context, bound) <==> (context.webUI.Some? ==> !V.ClashesWebUI(rule, context.webUI.value))
  {
    if V.Binds(rule) {
      forall other: Rule
        ensures V.Clash(other, rule) <==> Listens(other) && ConfiguredAddress(other.listen) == bound.value
      {
        AddressesAgree(other.listen);
      }
      if AddressOwner(context, bound).None? {
        forall other | other in context.others && Some(other.name) != context.self ensures !V.Clash(other, rule) {
          var i :| 0 <= i < |context.others| && context.others[i] == other;
          assert !Holds(context.others[i], context.self, bound.value);
        }
      }
    }
  }

  lemma NameExactly(context: ReadContext, name: string)
    ensures NameTaken(Some(context), name) <==>
            exists other :: other in context.others && Some(other.name) != context.self && other.name == name
  {
    if other :| other in context.others && Some(other.name) != context.self && other.name == name {
      var i :| 0 <= i < |context.others| && context.others[i] == other;
    }
  }

  lemma FreeExactly(context: Option<ReadContext>, rule: Rule, bound: Option<string>)
    requires bound == if V.Binds(rule) then Some(rule.listen.Address()) else None
    ensures Free(context, rule) <==>
            && !NameTaken(context, rule.name)
            && (context.Some? ==> AddressOwner(context.value, bound).None? && !IsWebUI(context.value, bound))
  {
    hide V.Clash, V.ClashesWebUI, AddressOwner, IsWebUI;
    if context.Some? {
      hide NameTaken;
      MeetsExactly(context.value, rule, bound);
      NameExactly(context.value, rule.name);
      if Free(context, rule) {
        forall other | other in context.value.others && Some(other.name) != context.value.self
          ensures other.name != rule.name && !V.Clash(other, rule)
        {}
      }
    }
  }

  // What the server asks of the rule is what the form asks of the draft, beyond what the form cannot judge.
  lemma RuleExactly(env: V.Env, browser: Browser, d: RuleDraft, rule: Rule)
    requires RowsOk(d.listen.protocols) && AllRead(Parts(browser, d)) && rule == RuleOf(d, Parts(browser, d))
    requires Filled(d, Parts(browser, d))
    ensures var p := Parts(browser, d);
            V.RuleOk(env, rule) <==>
            && p.name != "" && '/' !in p.name && (d.mode.ProxyMode? ==> p.protocols != [] && AuthClean(d.listen))
            && (p.targetChannel.value != "" ==> p.targetChannel != p.listenChannel)
            && (d.listen.kind.ByAddress? ==> WayProblems(d.listen.way, map[]) == map[])
            && (!TargetVirtual(d) ==> WayProblems(d.forwardWay, map[]) == map[])
            && Servable(env, d, rule)
  {
    hide EntriesOf, WayOf, WayProblems, AuthClean, HiddenColon, CiphersSupported, V.AuthOk, V.WayOk, Parses, RowsOk,
      NoneBlank, V.EndpointOk;
    EndpointsOk(browser, d, Parts(browser, d));
    ListenWayExactly(env, browser, d);
    ForwardWayExactly(env, browser, d);
    if d.mode.ProxyMode? {
      AuthAgrees(env, d.listen, rule.listen);
    } else {
      BareAuthOk(env, rule.listen, false);
    }
  }

  lemma ListenWayExactly(env: V.Env, browser: Browser, d: RuleDraft)
    requires d.listen.kind.ByAddress? ==> NoneBlank(d.listen.way)
    ensures var way := Parts(browser, d).listenWay;
            V.WayOk(env, way) <==>
            (d.listen.kind.ByAddress? ==> WayProblems(d.listen.way, map[]) == map[]) && Parses(env, way)
  {
    hide EntriesOf, WayOf, WayProblems, V.WayOk, Parses, NoneBlank;
    EmptyWayOk(env);
    if d.listen.kind.ByAddress? {
      WayProblemsEmpty(d.listen.way, map[]);
      WaysExactly(env, d.listen.way);
    }
  }

  lemma ForwardWayExactly(env: V.Env, browser: Browser, d: RuleDraft)
    requires !TargetVirtual(d) ==> NoneBlank(d.forwardWay)
    ensures var way := Parts(browser, d).forwardWay;
            V.WayOk(env, way) <==>
            (!TargetVirtual(d) ==> WayProblems(d.forwardWay, map[]) == map[]) && Parses(env, way)
  {
    hide EntriesOf, WayOf, WayProblems, V.WayOk, Parses, NoneBlank;
    EmptyWayOk(env);
    if !TargetVirtual(d) {
      WayProblemsEmpty(d.forwardWay, map[]);
      WaysExactly(env, d.forwardWay);
    }
  }

  lemma CleanIsFilled(d: RuleDraft, context: Option<ReadContext>, p: Reading)
    requires RowsOk(d.listen.protocols) && Clean(d, context, p)
    ensures Filled(d, p)
  {
    hide AuthClean, WayProblems;
    forall hops: seq<HopDraft> | WayProblems(hops, map[]) == map[] ensures NoneBlank(hops) {
      WayProblemsEmpty(hops, map[]);
      forall i | 0 <= i < |hops| && hops[i].urls != [] ensures Usable(hops[i]) {
        assert NoProblems(hops[i]) && UrlProblem(Usable(hops[i]), hops[i].urls[0]).None?;
      }
    }
  }

  // The form accepts a draft whose rule it can judge, and the server then takes that rule, exactly if its
  // numbers and channels can be read, the server takes the rule by itself and beside all others, and
  // nothing is left blank. So the form refuses nothing it should not.
  lemma FormDecides(env: V.Env, browser: Browser, d: RuleDraft, context: Option<ReadContext>)
    requires RowsOk(d.listen.protocols)
    ensures var p := Parts(browser, d);
            (AllRead(p) && Read(browser, d, context) == Accepted(RuleOf(d, p)) && Servable(env, d, RuleOf(d, p))) <==>
            (AllRead(p) && Filled(d, p) && V.RuleOk(env, RuleOf(d, p)) && Free(context, RuleOf(d, p)))
    ensures Read(browser, d, context).Accepted? ==>
              AllRead(Parts(browser, d)) && Read(browser, d, context) == Accepted(RuleOf(d, Parts(browser, d)))
  {
    hide Read, V.RuleOk, Servable, Filled, Free, AuthClean, WayProblems, RowsOk, V.Clash, V.ClashesWebUI, AddressOwner,
      IsWebUI, NameTaken, BoundAddress, EntriesOf, WayOf, Trim, ParsePort, ParseChannel;
    var p := Parts(browser, d);
    CleanExactly(browser, d, context);
    if AllRead(p) {
      var rule := RuleOf(d, p);
      assert rule.name == p.name;
      BoundExactly(browser, d, rule);
      FreeExactly(context, rule, BoundAddress(d, p));
      hide Parts, RuleOf;
      if Clean(d, context, p) {
        CleanIsFilled(d, context, p);
      }
      if Filled(d, p) {
        RuleExactly(env, browser, d, rule);
      }
    }
  }
}

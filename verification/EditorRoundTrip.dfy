/** Opening a stored rule and saving it untouched keeps what it means. */
module EditorRoundTrip {
  import opened Text
  import opened Config
  import V = Validate
  import opened RuleEditor
  import opened EditorAgreement
  import opened ConfigsService
  import EditorSave

  // ------------------------------------------------------------------ what saving an untouched draft sends

  function TrimUrls(urls: Node): (trimmed: Node)
    ensures |trimmed| == |urls|
  {
    seq(|urls|, i requires 0 <= i < |urls| => Trim(urls[i]))
  }

  function TrimWay(way: seq<Node>): (trimmed: seq<Node>)
    ensures |trimmed| == |way|
  {
    seq(|way|, i requires 0 <= i < |way| => TrimUrls(way[i]))
  }

  // The explicit list the form migrates an entry to.
  function Migrated(listen: Listen): seq<Protocol> { EntriesOf(ProtocolsFrom(listen)) }

  // The rule with its outer whitespace gone and its served protocols spelled out.
  function Saved(rule: Rule): Rule {
    var listen, forward := rule.listen, rule.forward;
    Rule(
      Trim(rule.name),
      rule.disabled,
      Listen(Trim(listen.host), listen.port, listen.virtual, TrimWay(listen.way), listen.username, listen.password, "",
             if forward.IsProxy() then Migrated(listen) else []),
      Forward(Trim(forward.host), forward.port, forward.virtual, TrimWay(forward.way)))
  }

  predicate ReadsDecimals(browser: Browser) {
    forall n :: 0 <= n <= MAX_PORT ==> browser.number(Decimal(n)) == Some(n)
  }

  // The set of protocols a listener serves, credentials filled in.
  function Served(listen: Listen): set<Protocol> {
    set p | p in listen.Schemes()
  }

  // ------------------------------------------------------------------ ways

  lemma {:induction false} SerializeKeeps(urls: Node)
    requires forall url :: url in urls ==> Trim(url) != ""
    ensures SerializeUrls(urls) == TrimUrls(urls)
  {
    if urls != [] {
      SerializeKeeps(urls[1..]);
      assert TrimUrls(urls) == [Trim(urls[0])] + TrimUrls(urls[1..]);
    }
  }

  lemma {:induction false} SerializeWayKeeps(way: seq<Node>)
    requires forall i :: 0 <= i < |way| ==> way[i] != [] && forall url :: url in way[i] ==> Trim(url) != ""
    ensures SerializeWay(way) == TrimWay(way)
  {
    if way != [] {
      SerializeKeeps(way[0]);
      SerializeWayKeeps(way[1..]);
      assert TrimWay(way) == [TrimUrls(way[0])] + TrimWay(way[1..]);
    }
  }

  lemma TrimKeepsScheme(url: string)
    requires V.SchemeOf(url) != ""
    ensures HasScheme(Trim(url))
  {
    var j :| 1 <= j < |url| && url[j] == ':' && forall k :: 1 <= k < j ==> V.IsSchemeChar(url[k]);
    assert TrimLeft(url) == url;
    TrimRightPrefix(url);
    var t := Trim(url);
    assert j < |t| && t[j] == ':' && t[0] == url[0];
    assert forall k :: 1 <= k < j ==> t[k] == url[k];
  }

  lemma WayRoundTrip(env: V.Env, way: seq<Node>, last: nat)
    requires V.WayOk(env, way)
    ensures WayOf(HopsFrom(way, last)) == TrimWay(way)
    ensures WayProblems(HopsFrom(way, last), map[]) == map[]
  {
    var hops := HopsFrom(way, last);
    assert seq(|hops|, i requires 0 <= i < |hops| => ValuesOf(hops[i])) == way;
    SerializeWayKeeps(way);
    forall i, k | 0 <= i < |hops| && 0 <= k < |hops[i].urls|
      ensures UrlProblem(Usable(hops[i]), hops[i].urls[k]).None?
    {
      assert ValuesOf(hops[i])[k] in way[i];
      TrimKeepsScheme(hops[i].urls[k].value);
    }
    WayProblemsEmpty(hops, map[]);
  }

  // ------------------------------------------------------------------ protocols

  lemma {:induction false} FindUnique(stored: seq<Protocol>, p: Protocol)
    requires V.DistinctKinds(stored) && p in stored
    ensures Find(stored, p.kind) == Some(p)
  {
  }

  // The listener after migration; only its protocol list and flat cipher differ.
  function After(listen: Listen): Listen { listen.(cipher := "", protocols := Migrated(listen)) }

  // Every served protocol has an enabled row, and the row serves the same credentials and cipher.
  lemma RowServes(env: V.Env, listen: Listen, raw: Protocol)
    requires V.AuthOk(env, listen, true) && raw in listen.Entries()
    ensures raw.kind in PROTOCOLS
    ensures var row := RowFrom(listen, raw.kind);
            row.enabled && EntryOf(row).username == raw.username && EntryOf(row).password == raw.password
            && After(listen).Inherit(EntryOf(row)) == listen.Inherit(raw)
  {
    var i :| 0 <= i < |listen.Entries()| && listen.Entries()[i] == raw;
    assert V.SchemeOk(listen, listen.Entries()[i]);
    if listen.Explicit() {
      assert V.ProtocolOk(env, listen.protocols[i]);
      FindUnique(listen.protocols, raw);
    }
  }

  // An enabled row comes from a served protocol.
  lemma RowServed(listen: Listen, kind: string)
    requires kind in PROTOCOLS && RowFrom(listen, kind).enabled
    ensures exists raw :: raw in listen.Entries() && raw.kind == kind
  {
    if listen.Explicit() {
      assert Find(listen.protocols, kind).value in listen.Entries();
    } else if kind == SHADOWSOCKS {
      assert listen.Entries()[|DEFAULT_PROTOCOLS|] == Protocol(SHADOWSOCKS, "", "", "");
    } else {
      var i :| 0 <= i < |DEFAULT_PROTOCOLS| && DEFAULT_PROTOCOLS[i] == kind;
      assert listen.Entries()[i] == Protocol(kind, "", "", "");
    }
  }

  lemma MigratedHas(listen: Listen, kind: string)
    requires kind in PROTOCOLS && RowFrom(listen, kind).enabled
    ensures EntryOf(RowFrom(listen, kind)) in Migrated(listen)
  {
    var rows := ProtocolsFrom(listen);
    var i :| 0 <= i < |PROTOCOLS| && PROTOCOLS[i] == kind;
    assert rows[i] == RowFrom(listen, kind);
  }

  // Each migrated entry serves one of the protocols served before.
  lemma MigratedFrom(env: V.Env, listen: Listen, p: Protocol) returns (raw: Protocol)
    requires V.AuthOk(env, listen, true) && p in Migrated(listen)
    ensures raw in listen.Entries() && p == EntryOf(RowFrom(listen, raw.kind)) && p.kind == raw.kind
    ensures p.username == raw.username && p.password == raw.password && After(listen).Inherit(p) == listen.Inherit(raw)
  {
    hide V.AuthOk, RowFrom;
    var rows := ProtocolsFrom(listen);
    var i :| 0 <= i < |rows| && rows[i].enabled && EntryOf(rows[i]) == p;
    assert rows[i] == RowFrom(listen, PROTOCOLS[i]);
    RowServed(listen, PROTOCOLS[i]);
    raw :| raw in listen.Entries() && raw.kind == PROTOCOLS[i];
    RowServes(env, listen, raw);
  }

  // Whatever was served still is.
  lemma MigrationServesAll(env: V.Env, listen: Listen, s: Protocol)
    requires V.AuthOk(env, listen, true) && s in Served(listen)
    ensures Migrated(listen) != [] && s in Served(After(listen))
  {
    hide V.AuthOk, RowFrom, Migrated;
    var after := After(listen);
    var i :| 0 <= i < |listen.Entries()| && listen.Inherit(listen.Entries()[i]) == s;
    var raw := listen.Entries()[i];
    assert raw in listen.Entries();
    RowServes(env, listen, raw);
    MigratedHas(listen, raw.kind);
    var p := EntryOf(RowFrom(listen, raw.kind));
    var k :| 0 <= k < |Migrated(listen)| && Migrated(listen)[k] == p;
    assert after.Schemes()[k] == s;
  }

  // And nothing else is.
  lemma MigrationServesOnly(env: V.Env, listen: Listen, s: Protocol)
    requires V.AuthOk(env, listen, true) && Migrated(listen) != [] && s in Served(After(listen))
    ensures s in Served(listen)
  {
    hide V.AuthOk, RowFrom, Migrated;
    var after := After(listen);
    var k :| 0 <= k < |after.Entries()| && after.Inherit(after.Entries()[k]) == s;
    assert after.Entries()[k] in Migrated(listen);
    var raw := MigratedFrom(env, listen, after.Entries()[k]);
    var i :| 0 <= i < |listen.Entries()| && listen.Entries()[i] == raw;
    assert listen.Schemes()[i] == s;
  }

  // Spelling out a legacy list and moving the flat cipher into its row change nothing served.
  lemma MigrationServesTheSame(env: V.Env, listen: Listen)
    requires V.AuthOk(env, listen, true)
    ensures Migrated(listen) != []
    ensures Served(After(listen)) == Served(listen)
  {
    SomethingServed(listen);
    hide V.AuthOk, Served, Migrated, After;
    forall s | s in Served(listen) ensures s in Served(After(listen)) && Migrated(listen) != [] {
      MigrationServesAll(env, listen, s);
    }
    forall s | s in Served(After(listen)) ensures s in Served(listen) {
      MigrationServesOnly(env, listen, s);
    }
  }

  lemma SomethingServed(listen: Listen)
    ensures exists s :: s in Served(listen)
  {
    assert listen.Entries() != [];
    assert listen.Schemes()[0] in Served(listen);
  }

  // The migrated entry is one the server accepts.
  lemma MigratedAuthOk(env: V.Env, listen: Listen)
    requires V.AuthOk(env, listen, true)
    ensures V.AuthOk(env, After(listen), true)
  {
    hide RowFrom, Migrated;
    var after := After(listen);
    MigrationServesTheSame(env, listen);
    RowsDistinct(listen);
    EntriesDistinct(ProtocolsFrom(listen));
    SharedKept(env, listen);
    forall k | 0 <= k < |after.protocols|
      ensures V.ProtocolOk(env, after.protocols[k]) && V.SchemeOk(after, after.Entries()[k])
    {
      var p := after.protocols[k];
      assert p in Migrated(listen);
      MigratedEntryOk(env, listen, p);
    }
    assert V.DistinctKinds(after.protocols) by { assert after.protocols == Migrated(listen); MigratedIs(listen); }
  }

  lemma MigratedIs(listen: Listen)
    ensures Migrated(listen) == EntriesOf(ProtocolsFrom(listen))
  {
  }

  lemma RowsDistinct(listen: Listen)
    ensures RowsOk(ProtocolsFrom(listen))
  {
  }

  // The shared password serves ss after migration exactly when it did before.
  lemma SharedKept(env: V.Env, listen: Listen)
    requires V.AuthOk(env, listen, true)
    ensures Migrated(listen) != [] ==> (V.SharedForSS(After(listen)) <==> V.SharedForSS(listen))
  {
    hide V.AuthOk, RowFrom, Migrated;
    var after := After(listen);
    if V.SharedForSS(listen) {
      var raw := if listen.Explicit() then
          var p :| p in listen.protocols && p.kind == SHADOWSOCKS && p.password == ""; p
        else Protocol(SHADOWSOCKS, "", "", "");
      if !listen.Explicit() {
        assert listen.Entries()[|DEFAULT_PROTOCOLS|] == raw;
      }
      RowServes(env, listen, raw);
      MigratedHas(listen, raw.kind);
      assert EntryOf(RowFrom(listen, raw.kind)) in after.protocols;
    }
    if Migrated(listen) != [] && V.SharedForSS(after) {
      var p :| p in after.protocols && p.kind == SHADOWSOCKS && p.password == "";
      var raw := MigratedFrom(env, listen, p);
      var i :| 0 <= i < |listen.Entries()| && listen.Entries()[i] == raw;
      assert !listen.Explicit() && i < |DEFAULT_PROTOCOLS| ==> raw.kind == DEFAULT_PROTOCOLS[i];
    }
  }

  lemma MigratedEntryOk(env: V.Env, listen: Listen, p: Protocol)
    requires V.AuthOk(env, listen, true) && p in Migrated(listen)
    requires V.SharedForSS(After(listen)) <==> V.SharedForSS(listen)
    ensures V.ProtocolOk(env, p) && V.SchemeOk(After(listen), p)
  {
    var raw := MigratedFrom(env, listen, p);
    hide Migrated;
    var i :| 0 <= i < |listen.Entries()| && listen.Entries()[i] == raw;
    assert V.SchemeOk(listen, listen.Entries()[i]);
    if listen.Explicit() {
      assert V.ProtocolOk(env, listen.protocols[i]);
    }
  }

  // ------------------------------------------------------------------ the whole rule

  lemma PortRoundTrip(browser: Browser, port: uint32, minimum: nat)
    requires ReadsDecimals(browser) && minimum <= 1 && minimum <= port <= MAX_PORT
    ensures ParsePort(browser, Decimal(port), minimum) == Some(port)
  {
  }

  lemma ChannelRoundTrip(virtual: string)
    requires virtual != "" && V.ChannelOk(virtual)
    ensures ParseChannel(virtual) == Some(virtual)
  {
  }

  // The untouched draft reads as the saved rule's parts.
  lemma PartsRoundTrip(env: V.Env, browser: Browser, rule: Rule, last: nat)
    requires V.RuleOk(env, rule) && ReadsDecimals(browser)
    ensures var saved := Saved(rule);
            Parts(browser, DraftFrom(rule, last)) ==
            Reading(saved.name, Some(rule.listen.port), Some(rule.listen.virtual), saved.listen.way,
              saved.listen.protocols,
                    Some(rule.forward.port), Some(rule.forward.virtual), saved.forward.way)
  {
    hide V.AuthOk, EntriesOf, WayOf, Trim, V.WayOk, ParsePort, ParseChannel, HopsFrom, V.ChannelOk, ReadsDecimals,
      LastId;
    var listen, forward := rule.listen, rule.forward;
    PortRoundTrip(browser, listen.port, 0);
    if forward.port > 0 {
      PortRoundTrip(browser, forward.port, 1);
    }
    if listen.virtual != "" {
      ChannelRoundTrip(listen.virtual);
    }
    if forward.virtual != "" {
      ChannelRoundTrip(forward.virtual);
    }
    WayRoundTrip(env, listen.way, last);
    WayRoundTrip(env, forward.way, LastId(listen.way, last));
  }

  // The form finds no fault with the credentials of a stored proxy rule.
  lemma AuthRoundTrip(env: V.Env, listen: Listen, drafted: ListenDraft)
    requires V.AuthOk(env, listen, true)
    requires drafted.username == listen.username && drafted.password == listen.password
    requires drafted.protocols == ProtocolsFrom(listen)
    ensures RowsOk(drafted.protocols) && AuthClean(drafted)
  {
    hide V.AuthOk, EntriesOf, AuthClean;
    RowsDistinct(listen);
    MigrationServesTheSame(env, listen);
    MigratedAuthOk(env, listen);
    AuthAgrees(env, drafted, After(listen));
  }

  // A forwarding rule the server accepts carries no credentials.
  lemma ForwardIsBare(env: V.Env, listen: Listen)
    requires V.AuthOk(env, listen, false)
    ensures listen.username == "" && listen.password == "" && listen.cipher == "" && listen.protocols == []
  {
    assert V.SchemeOk(listen, listen.Entries()[0]);
  }

  lemma TrimmedNameKeeps(name: string)
    requires '/' !in name
    ensures '/' !in Trim(name)
  {
    var before, after := TrimTakesBlanks(name);
    assert forall i :: 0 <= i < |Trim(name)| ==> Trim(name)[i] == name[|before| + i];
  }

  // Looked at alone, the untouched draft has no error.
  lemma ErrorsRoundTrip(env: V.Env, browser: Browser, rule: Rule, last: nat)
    requires V.RuleOk(env, rule) && ReadsDecimals(browser)
    ensures var d := DraftFrom(rule, last);
            RowsOk(d.listen.protocols) && Errors(d, None, Parts(browser, d)) == NO_ERRORS
  {
    hide V.AuthOk, EntriesOf, WayOf, V.WayOk, ParsePort, ParseChannel, HopsFrom, V.ChannelOk, ReadsDecimals, LastId,
      WayProblems, MissesCipher, MissesPassword, ProtocolErrors, SharedLacksUsername, RowFrom, ProtocolsFrom, Trim;
    var d := DraftFrom(rule, last);
    PartsRoundTrip(env, browser, rule, last);
    hide Parts;
    RowsDistinct(rule.listen);
    TrimmedNameKeeps(rule.name);
    WayRoundTrip(env, rule.listen.way, last);
    WayRoundTrip(env, rule.forward.way, LastId(rule.listen.way, last));
    if rule.forward.IsProxy() {
      AuthRoundTrip(env, rule.listen, d.listen);
      MigrationServesTheSame(env, rule.listen);
    }
  }

  lemma RuleRoundTrip(env: V.Env, browser: Browser, rule: Rule, last: nat)
    requires V.RuleOk(env, rule) && ReadsDecimals(browser)
    ensures var d := DraftFrom(rule, last);
            var p := Parts(browser, d);
            && p.listenPort.Some? && p.listenChannel.Some? && p.targetPort.Some? && p.targetChannel.Some?
            && RuleOf(d, p) == Saved(rule)
  {
    hide V.AuthOk, EntriesOf, WayOf, V.WayOk, ParsePort, ParseChannel, HopsFrom, V.ChannelOk, ReadsDecimals, LastId,
      RowFrom, ProtocolsFrom, Trim;
    PartsRoundTrip(env, browser, rule, last);
    hide Parts;
    if !rule.forward.IsProxy() {
      ForwardIsBare(env, rule.listen);
    }
  }

  // Every stored rule the server accepts opens into a draft that saves at once, with its outer
  // whitespace gone and its served protocols spelled out.
  lemma SaveUntouched(env: V.Env, browser: Browser, rule: Rule, last: nat)
    requires V.RuleOk(env, rule) && ReadsDecimals(browser)
    ensures RowsOk(DraftFrom(rule, last).listen.protocols)
    ensures Read(browser, DraftFrom(rule, last), None) == Accepted(Saved(rule))
  {
    hide Parts, Errors, RuleOf, RowsOk, V.RuleOk;
    ErrorsRoundTrip(env, browser, rule, last);
    RuleRoundTrip(env, browser, rule, last);
  }

  // Name, host and URLs without outer whitespace.
  predicate TrimmedRule(rule: Rule) {
    && Trimmed(rule.name) && Trimmed(rule.listen.host) && Trimmed(rule.forward.host)
    && (forall hop, url :: hop in rule.listen.way && url in hop ==> Trimmed(url))
    && (forall hop, url :: hop in rule.forward.way && url in hop ==> Trimmed(url))
  }

  // Same name, entry, exit and switch; same protocols, credentials and ciphers served.
  predicate SameMeaning(a: Rule, b: Rule) {
    && a.name == b.name && a.disabled == b.disabled
    && a.listen.Address() == b.listen.Address() && a.listen.way == b.listen.way && a.listen.host == b.listen.host
    && a.forward == b.forward && a.forward.Target() == b.forward.Target()
    && Served(a.listen) == Served(b.listen)
  }

  lemma TrimWayKeeps(way: seq<Node>)
    requires forall hop, url :: hop in way && url in hop ==> Trimmed(url)
    ensures TrimWay(way) == way
  {
    forall i | 0 <= i < |way| ensures TrimUrls(way[i]) == way[i] {
      assert way[i] in way;
    }
  }

  // Saving keeps the meaning of a valid rule exactly if there is no outer whitespace to lose.
  lemma SavedMeansTheSame(env: V.Env, rule: Rule)
    requires V.RuleOk(env, rule)
    ensures SameMeaning(Saved(rule), rule) <==> TrimmedRule(rule)
  {
    hide V.AuthOk, Migrated, V.WayOk, Served, Trim;
    if TrimmedRule(rule) {
      TrimWayKeeps(rule.listen.way);
      TrimWayKeeps(rule.forward.way);
      if rule.forward.IsProxy() {
        MigrationServesTheSame(env, rule.listen);
      } else {
        ForwardIsBare(env, rule.listen);
        assert Saved(rule).listen == rule.listen;
      }
    }
  }

  // The untouched draft binds what its rule binds.
  lemma BoundRoundTrip(env: V.Env, browser: Browser, rule: Rule, last: nat)
    requires V.RuleOk(env, rule) && ReadsDecimals(browser) && TrimmedRule(rule)
    ensures var d := DraftFrom(rule, last);
            BoundAddress(d, Parts(browser, d)) == if V.Binds(rule) then Some(rule.listen.Address()) else None
  {
    hide V.AuthOk, V.WayOk, Trim, EntriesOf, HopsFrom, ProtocolsFrom, Migrated;
    PartsRoundTrip(env, browser, rule, last);
    hide Parts;
    AddressesAgree(rule.listen);
  }

  lemma PeersApart(env: V.Env, conf: Config, i: nat, k: nat)
    requires V.ValidConfig(env, conf) && i < |conf.rules| && k < |conf.rules| && i != k
    ensures conf.rules[i].name != conf.rules[k].name && !V.Clash(conf.rules[i], conf.rules[k])
  {
    hide V.RuleOk;
    assert V.RuleOkAt(env, conf, i) && V.RuleOkAt(env, conf, k);
  }

  // No peer and no web UI of a valid configuration stands in the way.
  lemma ContextAddsNothing(env: V.Env, browser: Browser, conf: Config, k: nat, last: nat)
    requires V.ValidConfig(env, conf) && k < |conf.rules| && ReadsDecimals(browser) && TrimmedRule(conf.rules[k])
    ensures var d := DraftFrom(conf.rules[k], last);
            var context := ReadContext(conf.rules, Some(conf.rules[k].name), Some(conf.webUI));
            && RowsOk(d.listen.protocols)
            && Errors(d, Some(context), Parts(browser, d)) == Errors(d, None, Parts(browser, d))
  {
    hide V.RuleOk, FieldErrorsOf, BoundAddress, TrimmedRule, V.ValidConfig, Parts, AuthErrors, RowsOk, ReadsDecimals;
    var rule := conf.rules[k];
    var d := DraftFrom(rule, last);
    var p := Parts(browser, d);
    var context := ReadContext(conf.rules, Some(rule.name), Some(conf.webUI));
    assert V.RuleOkAt(env, conf, k) by { RuleOkAtEach(env, conf, k); }
    BoundRoundTrip(env, browser, rule, last);
    RowsDistinct(rule.listen);
    SameFields(env, browser, rule, last, context);
    if V.Binds(rule) {
      forall i | 0 <= i < |conf.rules| ensures !Holds(conf.rules[i], context.self, rule.listen.Address()) {
        if i != k {
          PeersApart(env, conf, i, k);
          AddressesAgree(conf.rules[i].listen);
        }
      }
    }
  }

  lemma RuleOkAtEach(env: V.Env, conf: Config, k: nat)
    requires V.ValidConfig(env, conf) && k < |conf.rules|
    ensures V.RuleOkAt(env, conf, k)
  {
  }

  lemma SameFields(env: V.Env, browser: Browser, rule: Rule, last: nat, context: ReadContext)
    requires V.RuleOk(env, rule) && ReadsDecimals(browser) && TrimmedRule(rule) && context.self == Some(rule.name)
    ensures var d := DraftFrom(rule, last);
            FieldErrorsOf(d, Some(context), Parts(browser, d)) == FieldErrorsOf(d, None, Parts(browser, d))
  {
  }

  // What an untouched save sends of a rule without outer whitespace is one the server accepts.
  lemma SavedRuleOk(env: V.Env, rule: Rule)
    requires V.RuleOk(env, rule) && TrimmedRule(rule)
    ensures V.RuleOk(env, Saved(rule))
  {
    hide V.AuthOk, Migrated, V.WayOk, Trim;
    TrimWayKeeps(rule.listen.way);
    TrimWayKeeps(rule.forward.way);
    if rule.forward.IsProxy() {
      MigratedAuthOk(env, rule.listen);
    } else {
      ForwardIsBare(env, rule.listen);
    }
  }

  // The server makes that save, and the configuration stays valid.
  lemma SavedStaysValid(env: V.Env, browser: Browser, conf: Config, k: nat, last: nat)
    requires V.ValidConfig(env, conf) && k < |conf.rules| && TrimmedRule(conf.rules[k])
    requires RowsOk(DraftFrom(conf.rules[k], last).listen.protocols)
    requires Read(browser, DraftFrom(conf.rules[k], last),
             Some(ReadContext(conf.rules, Some(conf.rules[k].name), Some(conf.webUI))))
             == Accepted(Saved(conf.rules[k]))
    ensures var saved := conf.(rules := conf.rules[k := Saved(conf.rules[k])]);
            Updated(conf, conf.rules[k].name, Saved(conf.rules[k])) == Edited(saved) && V.ValidConfig(env, saved)
  {
    hide V.RuleOk, TrimmedRule, V.ValidConfig, Read, Saved, DraftFrom, RowsOk, Servable, Updated;
    var rule := conf.rules[k];
    var d := DraftFrom(rule, last);
    RuleOkAtEach(env, conf, k);
    SavedRuleOk(env, rule);
    AcceptedRuleOk(env, browser, d, Some(ReadContext(conf.rules, Some(rule.name), Some(conf.webUI))), Saved(rule));
    EditorSave.UpdateAgrees(env, browser, conf, k, d, Saved(rule));
  }

  // Opening a rule of a valid configuration and saving it untouched passes the form beside all its
  // peers and the web UI, passes the server, leaves a valid configuration and keeps what the rule means.
  lemma ReopenAndSave(env: V.Env, browser: Browser, conf: Config, k: nat, last: nat)
    requires V.ValidConfig(env, conf) && k < |conf.rules| && ReadsDecimals(browser)
    requires TrimmedRule(conf.rules[k])
    ensures var rule := conf.rules[k];
            && RowsOk(DraftFrom(rule, last).listen.protocols)
            && Read(browser, DraftFrom(rule, last),
                 Some(ReadContext(conf.rules, Some(rule.name), Some(conf.webUI)))) == Accepted(Saved(rule))
            && SameMeaning(Saved(rule), rule)
    ensures var saved := conf.(rules := conf.rules[k := Saved(conf.rules[k])]);
            Updated(conf, conf.rules[k].name, Saved(conf.rules[k])) == Edited(saved) && V.ValidConfig(env, saved)
  {
    var rule := conf.rules[k];
    var context := ReadContext(conf.rules, Some(rule.name), Some(conf.webUI));
    var d := DraftFrom(rule, last);
    var p := Parts(browser, d);
    hide Parts, Errors, RuleOf, RowsOk, V.RuleOk, SameMeaning, TrimmedRule, ReadsDecimals, V.ValidConfig;
    RuleOkAtEach(env, conf, k);
    ErrorsRoundTrip(env, browser, rule, last);
    RuleRoundTrip(env, browser, rule, last);
    SavedMeansTheSame(env, rule);
    ContextAddsNothing(env, browser, conf, k, last);
    assert Read(browser, d, Some(context)) == Accepted(Saved(rule));
    SavedStaysValid(env, browser, conf, k, last);
  }
}

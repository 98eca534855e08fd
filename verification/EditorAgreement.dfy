/** The form and the server, written apart, accept the same rules. */
module EditorAgreement {
  import opened Text
  import opened Config
  import V = Validate
  import opened RuleEditor

  // ------------------------------------------------------------------ addresses and URLs

  lemma AddressesAgree(listen: Listen)
    ensures ConfiguredAddress(listen) == listen.Address()
  {
  }

  predicate NoProblems(hop: HopDraft) {
    forall i :: 0 <= i < |hop.urls| ==> UrlProblem(Usable(hop), hop.urls[i]).None?
  }

  lemma {:induction false} HopProblemsEmpty(usable: bool, urls: seq<UrlDraft>, acc: map<nat, MessageKey>)
    ensures HopProblems(usable, urls, acc) == map[] <==>
            acc == map[] && forall i :: 0 <= i < |urls| ==> UrlProblem(usable, urls[i]).None?
  {
    hide UrlProblem;
    if urls != [] {
      var problem := UrlProblem(usable, urls[0]);
      HopProblemsEmpty(usable, urls[1..], if problem.Some? then acc[urls[0].id := problem.value] else acc);
      if problem.Some? {
        assert urls[0].id in acc[urls[0].id := problem.value];
      } else {
        assert forall i :: 0 < i < |urls| ==> urls[i] == urls[1..][i - 1];
      }
    }
  }

  // The form marks no URL exactly when no row of any hop has a problem.
  lemma {:induction false} WayProblemsEmpty(hops: seq<HopDraft>, acc: map<nat, MessageKey>)
    ensures WayProblems(hops, acc) == map[] <==> acc == map[] && forall i :: 0 <= i < |hops| ==> NoProblems(hops[i])
  {
    hide HopProblems;
    if hops != [] {
      var mid := HopProblems(Usable(hops[0]), hops[0].urls, acc);
      HopProblemsEmpty(Usable(hops[0]), hops[0].urls, acc);
      WayProblemsEmpty(hops[1..], mid);
      assert forall i :: 0 < i < |hops| ==> hops[i] == hops[1..][i - 1];
    }
  }

  predicate Parses(env: V.Env, way: seq<Node>) {
    forall hop, url :: hop in way && url in hop ==> env.parses(url)
  }

  // What a way without problems sends passes the server's check as soon as url.Parse accepts it.
  lemma WaysAgree(env: V.Env, hops: seq<HopDraft>)
    requires forall i :: 0 <= i < |hops| ==> NoProblems(hops[i])
    ensures V.WayOk(env, WayOf(hops)) <==> Parses(env, WayOf(hops))
  {
    var way := WayOf(hops);
    forall hop, url | hop in way && url in hop
      ensures hop != [] && Trim(url) != "" && V.SchemeOf(url) != ""
    {
      var values := seq(|hops|, i requires 0 <= i < |hops| => ValuesOf(hops[i]));
      var i :| 0 <= i < |values| && SerializeUrls(values[i]) == hop;
      var k :| 0 <= k < |ValuesOf(hops[i])| && Trim(ValuesOf(hops[i])[k]) == url;
      assert UrlProblem(Usable(hops[i]), hops[i].urls[k]).None?;
    }
    forall i | 0 <= i < |way| ensures way[i] in way && way[i] != [] {}
    if Parses(env, way) {
      forall i, url | 0 <= i < |way| && url in way[i] ensures V.UrlOk(env, url) {
        assert way[i] in way;
      }
    } else {
      var hop, url :| hop in way && url in hop && !env.parses(url);
      var i :| 0 <= i < |way| && way[i] == hop;
      assert !V.UrlOk(env, url);
    }
  }

  // ------------------------------------------------------------------ credentials

  predicate On(rows: seq<ProtocolDraft>, i: int) { 0 <= i < |rows| && rows[i].enabled }

  // The form shows no credential error.
  predicate AuthClean(listen: ListenDraft)
    requires RowsOk(listen.protocols)
  {
    !MissesCipher(listen.protocols) && !MissesPassword(listen) && AuthErrors(listen, NO_ERRORS) == NO_ERRORS
  }

  // A Shadowsocks row whose hidden username holds a colon: the form cannot show that error.
  predicate HiddenColon(rows: seq<ProtocolDraft>) {
    exists i :: 0 <= i < |rows| && rows[i].enabled && rows[i].kind == SHADOWSOCKS && ':' in rows[i].OwnUsername()
  }

  predicate CiphersSupported(env: V.Env, rows: seq<ProtocolDraft>) {
    forall i :: 0 <= i < |rows| && rows[i].enabled && rows[i].kind == SHADOWSOCKS ==> V.CipherOk(env, rows[i].cipher)
  }

  lemma {:induction false} ProtocolErrorsEmpty(listen: ListenDraft, n: nat)
    requires n <= |listen.protocols| && RowsOk(listen.protocols)
    ensures ProtocolErrors(listen, n) == map[] <==>
            forall i :: 0 <= i < n && listen.protocols[i].enabled ==>
                RowErrors(listen, listen.protocols[i]) == NO_FIELD_ERRORS
  {
    if n > 0 {
      ProtocolErrorsEmpty(listen, n - 1);
      var row := listen.protocols[n - 1];
      if row.enabled && RowErrors(listen, row) != NO_FIELD_ERRORS {
        assert row.kind in ProtocolErrors(listen, n);
      }
    }
  }

  lemma {:induction false} EntriesDistinct(rows: seq<ProtocolDraft>)
    requires RowsOk(rows)
    ensures V.DistinctKinds(EntriesOf(rows))
  {
    if rows != [] {
      EntriesDistinct(rows[1..]);
      var rest := EntriesOf(rows[1..]);
      forall i | 0 <= i < |rest| ensures rest[i].kind != rows[0].kind {
        assert rest[i] in rest;
      }
    }
  }

  // One enabled row: what the server asks of its entry is what the form asks of the row.
  predicate RowFine(env: V.Env, listen: ListenDraft, row: ProtocolDraft) {
    if row.kind == SHADOWSOCKS then
      ':' !in row.OwnUsername() && row.cipher != "" && env.isCipher(row.cipher) &&
        (row.OwnPassword() != "" || listen.password != "")
    else
      ':' !in row.OwnUsername() && !(LacksUsername(listen, row) && (row.OwnPassword() != "" || !SharedForSS(listen)))
  }

  predicate Sends(listen: ListenDraft, sent: Listen) {
    && sent.username == listen.username && sent.password == listen.password && sent.cipher == ""
    && sent.protocols == EntriesOf(listen.protocols)
  }

  lemma SharedAgrees(listen: ListenDraft, sent: Listen)
    requires Sends(listen, sent) && sent.Explicit()
    ensures V.SharedForSS(sent) <==> SharedForSS(listen)
  {
    var rows := listen.protocols;
    if SharedForSS(listen) {
      var i :| 0 <= i < |rows| && rows[i].enabled && rows[i].kind == SHADOWSOCKS && rows[i].OwnPassword() == "";
      assert EntryOf(rows[i]) in sent.protocols;
    }
  }

  lemma RowAgrees(env: V.Env, listen: ListenDraft, sent: Listen, row: ProtocolDraft)
    requires Sends(listen, sent) && sent.Explicit() && row.kind in PROTOCOLS
    ensures V.ProtocolOk(env, EntryOf(row)) && V.SchemeOk(sent, EntryOf(row)) <==> RowFine(env, listen, row)
  {
    SharedAgrees(listen, sent);
  }

  // The server's verdict, row by row.
  lemma ServerByRow(env: V.Env, listen: ListenDraft, sent: Listen)
    requires RowsOk(listen.protocols) && Sends(listen, sent) && sent.Explicit()
    ensures V.AuthOk(env, sent, true) <==>
            ':' !in listen.username && forall i :: On(listen.protocols, i) ==> RowFine(env, listen, listen.protocols[i])
  {
    hide RowFine;
    var rows := listen.protocols;
    EntriesDistinct(rows);
    forall i | On(rows, i)
      ensures EntryOf(rows[i]) in sent.protocols
      ensures V.ProtocolOk(env, EntryOf(rows[i])) && V.SchemeOk(sent, EntryOf(rows[i])) <==>
              RowFine(env, listen, rows[i])
    {
      RowAgrees(env, listen, sent, rows[i]);
    }
    if forall i :: On(rows, i) ==> RowFine(env, listen, rows[i]) {
      forall k | 0 <= k < |sent.protocols|
        ensures V.ProtocolOk(env, sent.protocols[k]) && V.SchemeOk(sent, sent.protocols[k])
      {
        assert sent.protocols[k] in sent.protocols;
        var i :| 0 <= i < |rows| && rows[i].enabled && EntryOf(rows[i]) == sent.protocols[k];
        assert On(rows, i);
      }
    } else {
      var i :| On(rows, i) && !RowFine(env, listen, rows[i]);
      var k :| 0 <= k < |sent.protocols| && sent.protocols[k] == EntryOf(rows[i]);
      assert !(V.ProtocolOk(env, sent.protocols[k]) && V.SchemeOk(sent, sent.Entries()[k]));
    }
  }

  // The form's verdict, row by row.
  lemma FormByRow(env: V.Env, listen: ListenDraft)
    requires RowsOk(listen.protocols)
    ensures AuthClean(listen) && !HiddenColon(listen.protocols) && CiphersSupported(env, listen.protocols) <==>
            ':' !in listen.username && forall i :: On(listen.protocols, i) ==> RowFine(env, listen, listen.protocols[i])
  {
    var rows := listen.protocols;
    ProtocolErrorsEmpty(listen, |rows|);
    assert AuthErrors(listen, NO_ERRORS) == NO_ERRORS <==>
           ':' !in listen.username && !SharedLacksUsername(listen) && ProtocolErrors(listen, |rows|) == map[];
    if AuthClean(listen) && !HiddenColon(rows) && CiphersSupported(env, rows) {
      forall i | On(rows, i) ensures RowFine(env, listen, rows[i]) {
        assert RowErrors(listen, rows[i]) == NO_FIELD_ERRORS;
      }
    }
    if ':' !in listen.username && forall i :: On(rows, i) ==> RowFine(env, listen, rows[i]) {
      forall i | 0 <= i < |rows| && rows[i].enabled
        ensures RowErrors(listen, rows[i]) == NO_FIELD_ERRORS
        ensures RowFine(env, listen, rows[i])
      {
        assert On(rows, i);
      }
    }
  }

  // For an explicit list the form flags exactly what the server refuses, save a colon it cannot
  // show and a cipher it cannot judge.
  lemma AuthAgrees(env: V.Env, listen: ListenDraft, sent: Listen)
    requires RowsOk(listen.protocols) && Sends(listen, sent) && sent.Explicit()
    ensures V.AuthOk(env, sent, true) <==>
            AuthClean(listen) && !HiddenColon(listen.protocols) && CiphersSupported(env, listen.protocols)
  {
    ServerByRow(env, listen, sent);
    FormByRow(env, listen);
  }

  // ------------------------------------------------------------------ one accepted rule

  // Beyond what the form checks: url.Parse, the cipher table and the colon it cannot show.
  predicate Servable(env: V.Env, d: RuleDraft, rule: Rule) {
    && Parses(env, rule.listen.way) && Parses(env, rule.forward.way)
    && (d.mode.ProxyMode? ==> !HiddenColon(d.listen.protocols) && CiphersSupported(env, d.listen.protocols))
  }

  // What an accepting form has checked.
  lemma CleanFields(browser: Browser, d: RuleDraft, context: Option<ReadContext>)
    requires RowsOk(d.listen.protocols) && Read(browser, d, context).Accepted?
    ensures var p := Parts(browser, d);
            var bound := BoundAddress(d, p);
            && p.name != "" && '/' !in p.name && !NameTaken(context, p.name)
            && (p.listenChannel.Some? && p.targetChannel.Some? && p.listenPort.Some? && p.targetPort.Some?)
            && (d.mode.ProxyMode? ==> p.protocols != [] && AuthClean(d.listen))
            && (p.targetChannel.value != "" ==> p.targetChannel != p.listenChannel)
            && (context.Some? ==> AddressOwner(context.value, bound).None? && !IsWebUI(context.value, bound))
            && (d.listen.kind.ByAddress? ==> WayProblems(d.listen.way, map[]) == map[])
            && (!TargetVirtual(d) ==> WayProblems(d.forwardWay, map[]) == map[])
  {
    hide WayProblems, ProtocolErrors, SharedLacksUsername, MissesCipher, MissesPassword, BoundAddress, AddressOwner,
      IsWebUI;
    var p := Parts(browser, d);
    assert FieldErrorsOf(d, context, p).urls == map[];
    if !TargetVirtual(d) && d.listen.kind.ByAddress? {
      WayProblemsEmpty(d.forwardWay, WayProblems(d.listen.way, map[]));
      WayProblemsEmpty(d.forwardWay, map[]);
    }
  }

  // Without credentials there is nothing to refuse.
  lemma BareAuthOk(env: V.Env, listen: Listen, proxy: bool)
    requires listen.username == "" && listen.password == "" && listen.cipher == "" && listen.protocols == []
    ensures V.AuthOk(env, listen, proxy)
  {
  }

  lemma AcceptedAuth(env: V.Env, browser: Browser, d: RuleDraft, context: Option<ReadContext>, rule: Rule)
    requires RowsOk(d.listen.protocols) && Read(browser, d, context) == Accepted(rule)
    ensures V.AuthOk(env, rule.listen, rule.forward.IsProxy()) <==>
            (d.mode.ProxyMode? ==> !HiddenColon(d.listen.protocols) && CiphersSupported(env, d.listen.protocols))
    ensures rule.forward.IsProxy() <==> d.mode.ProxyMode?
  {
    hide AuthClean, HiddenColon, CiphersSupported, EntriesOf, WayOf, V.AuthOk, Errors;
    CleanFields(browser, d, context);
    assert rule == RuleOf(d, Parts(browser, d));
    hide Read;
    if d.mode.ProxyMode? {
      AuthAgrees(env, d.listen, rule.listen);
    } else {
      BareAuthOk(env, rule.listen, false);
    }
  }

  lemma EndpointsOk(browser: Browser, d: RuleDraft, p: Reading)
    requires p == Parts(browser, d) && p.listenPort.Some? && p.listenChannel.Some? && p.targetPort.Some?
    requires p.targetChannel.Some?
    ensures var rule := RuleOf(d, p);
            && V.EndpointOk(rule.listen.virtual, rule.listen.host, rule.listen.port, rule.listen.way)
            && V.EndpointOk(rule.forward.virtual, rule.forward.host, rule.forward.port, rule.forward.way)
            && rule.listen.port <= MAX_PORT && rule.forward.port <= MAX_PORT
            && (rule.forward.host != "" ==> !rule.forward.IsProxy())
  {
  }

  lemma EmptyWayOk(env: V.Env)
    ensures V.WayOk(env, []) && Parses(env, [])
  {
  }

  lemma AcceptedWays(env: V.Env, browser: Browser, d: RuleDraft, context: Option<ReadContext>)
    requires RowsOk(d.listen.protocols) && Read(browser, d, context).Accepted?
    ensures var p := Parts(browser, d);
            && (V.WayOk(env, p.listenWay) <==> Parses(env, p.listenWay))
            && (V.WayOk(env, p.forwardWay) <==> Parses(env, p.forwardWay))
  {
    hide WayProblems, WayOf, Read, EntriesOf, V.WayOk, Parses;
    CleanFields(browser, d, context);
    EmptyWayOk(env);
    if d.listen.kind.ByAddress? {
      WayProblemsEmpty(d.listen.way, map[]);
      WaysAgree(env, d.listen.way);
    }
    if !TargetVirtual(d) {
      WayProblemsEmpty(d.forwardWay, map[]);
      WaysAgree(env, d.forwardWay);
    }
  }

  // Alone, an accepted rule is one the server accepts exactly when it is servable.
  lemma AcceptedRuleOk(env: V.Env, browser: Browser, d: RuleDraft, context: Option<ReadContext>, rule: Rule)
    requires RowsOk(d.listen.protocols) && Read(browser, d, context) == Accepted(rule)
    ensures V.RuleOk(env, rule) <==> Servable(env, d, rule)
  {
    hide HiddenColon, CiphersSupported, V.AuthOk, WayProblems, WayOf, Errors, EntriesOf, V.WayOk, Parses, V.EndpointOk,
      NameTaken, AddressOwner, IsWebUI, BoundAddress, AuthClean;
    var p := Parts(browser, d);
    CleanFields(browser, d, context);
    AcceptedAuth(env, browser, d, context, rule);
    EndpointsOk(browser, d, p);
    AcceptedWays(env, browser, d, context);
    assert rule == RuleOf(d, p);
    hide Read;
  }

  // Nor does it clash with another rule or the web UI.
  lemma AcceptedApart(browser: Browser, d: RuleDraft, context: ReadContext, rule: Rule, other: Rule)
    requires RowsOk(d.listen.protocols) && Read(browser, d, Some(context)) == Accepted(rule)
    requires other in context.others && Some(other.name) != context.self
    ensures other.name != rule.name && !V.Clash(other, rule) && !V.Clash(rule, other)
  {
    hide HiddenColon, CiphersSupported, WayProblems, WayOf, Errors, EntriesOf, AuthClean;
    CleanFields(browser, d, Some(context));
    var k :| 0 <= k < |context.others| && context.others[k] == other;
    if V.Binds(rule) && V.Binds(other) {
      AddressesAgree(rule.listen);
      AddressesAgree(other.listen);
      assert BoundAddress(d, Parts(browser, d)) == Some(ConfiguredAddress(rule.listen));
      assert !Holds(context.others[k], context.self, ConfiguredAddress(rule.listen));
    }
  }

  lemma AcceptedNotWebUI(browser: Browser, d: RuleDraft, context: ReadContext, rule: Rule)
    requires RowsOk(d.listen.protocols) && Read(browser, d, Some(context)) == Accepted(rule)
    requires context.webUI.Some?
    ensures !V.ClashesWebUI(rule, context.webUI.value)
  {
    hide HiddenColon, CiphersSupported, WayProblems, WayOf, Errors, EntriesOf, AuthClean;
    CleanFields(browser, d, Some(context));
    if V.Binds(rule) {
      AddressesAgree(rule.listen);
      assert BoundAddress(d, Parts(browser, d)) == Some(ConfiguredAddress(rule.listen));
    }
  }

  // ------------------------------------------------------------------ the colon that slips through

  // A stored rule whose only entry, for Shadowsocks, has a username with a colon: a configuration file
  // edited by hand can hold it, since loading does not check rules.
  const COLON_RULE := Rule(
    "r", false, Listen("", 0, "", [], "", "", "", [Protocol(SHADOWSOCKS, "a:b", "p", DEFAULT_CIPHER)]),
      Forward("", 0, "", []))

  // Opened in the form and saved as it is, the rule passes the form and not the server, whatever the
  // ciphers and URLs, since the form neither shows that username nor checks it.
  lemma ColonSlipsThrough(env: V.Env, browser: Browser, last: nat, webUI: Option<Address>)
    requires browser.number("0") == Some(0)
    ensures var d := DraftFrom(COLON_RULE, last);
            var context := Some(ReadContext([COLON_RULE], Some(COLON_RULE.name), webUI));
            && RowsOk(d.listen.protocols)
            && Read(browser, d, context).Accepted? && !V.RuleOk(env, Read(browser, d, context).rule)
  {
    var d := DraftFrom(COLON_RULE, last);
    var context := Some(ReadContext([COLON_RULE], Some("r"), webUI));
    var p := Parts(browser, d);
    var rows := d.listen.protocols;
    assert Trim("r") == "r" && Trim("0") == "0" && Decimal(0) == "0";
    assert p.protocols != [] by { assert EntryOf(rows[4]) in EntriesOf(rows); }
    ColonShown(d.listen, 5);
    assert WayProblems(d.listen.way, map[]) == map[];
    assert Errors(d, context, p) == NO_ERRORS;
    AcceptedRuleOk(env, browser, d, context, Read(browser, d, context).rule);
    assert HiddenColon(rows);
  }

  lemma {:induction false} ColonShown(listen: ListenDraft, n: nat)
    requires listen.protocols == ProtocolsFrom(COLON_RULE.listen) && n <= 5 && listen.username == ""
    requires listen.password == ""
    ensures |listen.protocols| == 5 && RowsOk(listen.protocols) && ProtocolErrors(listen, n) == map[]
  {
    if n > 0 {
      ColonShown(listen, n - 1);
    }
  }
}

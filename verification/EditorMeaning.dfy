/** What the form sends is what it shows: inputs that are switched off or out of sight have no say, each
    row serves the credentials beside it, and no hop gets lost. */
module EditorMeaning {
  import opened Text
  import opened Config
  import opened RuleEditor
  import opened EditorAgreement

  // ------------------------------------------------------------------ inputs out of sight

  // A row as the form shows it: one switched off has no inputs, custom credentials only where they are
  // switched on, and a cipher only for Shadowsocks.
  function ShownRow(row: ProtocolDraft): ProtocolDraft {
    if !row.enabled then ProtocolDraft(row.kind, false, false, "", "", "")
    else
      row.(username := if row.custom then row.username else "", password := if row.custom then row.password else "",
           cipher := if row.kind == SHADOWSOCKS then row.cipher else "")
  }

  function HiddenRow(row: ProtocolDraft): ProtocolDraft { ProtocolDraft(row.kind, false, false, "", "", "") }

  function ShownRows(rows: seq<ProtocolDraft>, proxy: bool): (shown: seq<ProtocolDraft>)
    ensures |shown| == |rows|
  {
    seq(|rows|, i requires 0 <= i < |rows| => if proxy then ShownRow(rows[i]) else HiddenRow(rows[i]))
  }

  function ShownListen(listen: ListenDraft, proxy: bool): ListenDraft {
    var channel := listen.kind.ByChannel?;
    ListenDraft(
      listen.kind, if channel then "" else listen.host, if channel then "" else listen.port,
      if channel then listen.virtual else "",
      if proxy then listen.username else "", if proxy then listen.password else "",
      ShownRows(listen.protocols, proxy), if channel then [] else listen.way)
  }

  function ShownTarget(d: RuleDraft): TargetDraft {
    if d.mode.ProxyMode? then TargetDraft(ByAddress, "", "", "")
    else if d.target.kind.ByChannel? then TargetDraft(ByChannel, "", "", d.target.virtual)
    else d.target.(virtual := "")
  }

  // The draft with every input blanked that the form does not show.
  function Shown(d: RuleDraft): RuleDraft {
    d.(listen := ShownListen(d.listen, d.mode.ProxyMode?), target := ShownTarget(d),
       forwardWay := if TargetVirtual(d) then [] else d.forwardWay)
  }

  lemma {:induction false} EntriesShown(rows: seq<ProtocolDraft>)
    ensures EntriesOf(ShownRows(rows, true)) == EntriesOf(rows)
  {
    if rows != [] {
      assert ShownRows(rows, true)[1..] == ShownRows(rows[1..], true);
      EntriesShown(rows[1..]);
    }
  }

  // What the form asks about one row does not depend on what it does not show.
  lemma RowShown(listen: ListenDraft, shown: ListenDraft, row: ProtocolDraft)
    requires row.enabled && shown.username == listen.username && shown.password == listen.password
    ensures RowErrors(shown, ShownRow(row)) == RowErrors(listen, row)
    ensures LacksUsername(shown, ShownRow(row)) == LacksUsername(listen, row)
    ensures ShownRow(row).OwnPassword() == row.OwnPassword()
  {
  }

  lemma {:induction false} ProtocolErrorsShown(listen: ListenDraft, shown: ListenDraft, n: nat)
    requires RowsOk(listen.protocols) && shown == ShownListen(listen, true) && n <= |listen.protocols|
    requires RowsOk(shown.protocols)
    ensures ProtocolErrors(shown, n) == ProtocolErrors(listen, n)
  {
    hide RowErrors, RowsOk;
    if n > 0 {
      ProtocolErrorsShown(listen, shown, n - 1);
      if listen.protocols[n - 1].enabled {
        RowShown(listen, shown, listen.protocols[n - 1]);
      }
    }
  }

  lemma AuthShown(listen: ListenDraft, shown: ListenDraft, errors: DraftErrors)
    requires RowsOk(listen.protocols) && shown == ShownListen(listen, true) && RowsOk(shown.protocols)
    ensures AuthErrors(shown, errors) == AuthErrors(listen, errors)
    ensures MissesCipher(shown.protocols) == MissesCipher(listen.protocols)
    ensures MissesPassword(shown) == MissesPassword(listen)
  {
    hide RowErrors, LacksUsername, RowsOk;
    ProtocolErrorsShown(listen, shown, |listen.protocols|);
    forall i | 0 <= i < |listen.protocols|
      ensures shown.protocols[i].enabled == listen.protocols[i].enabled
      ensures shown.protocols[i].kind == listen.protocols[i].kind
      ensures listen.protocols[i].enabled ==>
                && LacksUsername(shown, shown.protocols[i]) == LacksUsername(listen, listen.protocols[i])
                && shown.protocols[i].OwnPassword() == listen.protocols[i].OwnPassword()
                && (listen.protocols[i].kind == SHADOWSOCKS ==>
                      shown.protocols[i].cipher == listen.protocols[i].cipher)
    {
      if listen.protocols[i].enabled {
        RowShown(listen, shown, listen.protocols[i]);
      }
    }
    SharedShown(listen, shown);
    hide ShownListen;
  }

  lemma SharedShown(listen: ListenDraft, shown: ListenDraft)
    requires shown.username == listen.username && shown.password == listen.password
    requires |shown.protocols| == |listen.protocols|
    requires forall i :: 0 <= i < |listen.protocols| ==>
               && shown.protocols[i].enabled == listen.protocols[i].enabled
               && shown.protocols[i].kind == listen.protocols[i].kind
               && (listen.protocols[i].enabled ==>
                     && LacksUsername(shown, shown.protocols[i]) == LacksUsername(listen, listen.protocols[i])
                     && shown.protocols[i].OwnPassword() == listen.protocols[i].OwnPassword())
    ensures SharedForSS(shown) == SharedForSS(listen)
    ensures SharedLacksUsername(shown) == SharedLacksUsername(listen)
  {
    hide LacksUsername;
    forall i | 0 <= i < |listen.protocols|
      ensures listen.protocols[i].enabled == shown.protocols[i].enabled
      ensures listen.protocols[i].kind == shown.protocols[i].kind
    {}
  }

  lemma PartsShown(browser: Browser, d: RuleDraft)
    ensures Parts(browser, Shown(d)) == Parts(browser, d)
  {
    hide EntriesOf, WayOf, Trim, ParsePort, ParseChannel;
    EntriesShown(d.listen.protocols);
  }

  lemma ErrorsShown(browser: Browser, d: RuleDraft, context: Option<ReadContext>)
    requires RowsOk(d.listen.protocols) && RowsOk(Shown(d).listen.protocols)
    ensures Errors(Shown(d), context, Parts(browser, d)) == Errors(d, context, Parts(browser, d))
  {
    hide EntriesOf, WayOf, Trim, ParsePort, ParseChannel, WayProblems, AuthErrors, MissesCipher, MissesPassword,
      NameError, AddressOwner, IsWebUI, RuleEditor.JoinHostPort, RowsOk, ShownRows;
    if d.mode.ProxyMode? {
      forall errors ensures AuthErrors(Shown(d).listen, errors) == AuthErrors(d.listen, errors) {
        AuthShown(d.listen, Shown(d).listen, errors);
      }
      AuthShown(d.listen, Shown(d).listen, NO_ERRORS);
    }
  }

  // Whatever an input holds that the form does not show, the draft reads the same without it: with the
  // same errors, or as the same rule.
  lemma HiddenInputsIgnored(browser: Browser, d: RuleDraft, context: Option<ReadContext>)
    requires RowsOk(d.listen.protocols)
    ensures RowsOk(Shown(d).listen.protocols)
    ensures Read(browser, Shown(d), context) == Read(browser, d, context)
  {
    hide EntriesOf, WayOf, Trim, ParsePort, ParseChannel, Errors;
    PartsShown(browser, d);
    assert RowsOk(Shown(d).listen.protocols);
    hide ShownRows, RowsOk;
    ErrorsShown(browser, d, context);
  }

  // ------------------------------------------------------------------ what the rows serve

  // The positions of the rows switched on, in order.
  function EnabledFrom(rows: seq<ProtocolDraft>, i: nat): (at: seq<nat>)
    requires i <= |rows|
    ensures forall k :: 0 <= k < |at| ==> i <= at[k] < |rows| && rows[at[k]].enabled
    ensures forall k, l :: 0 <= k < l < |at| ==> at[k] < at[l]
    ensures forall n :: i <= n < |rows| && rows[n].enabled ==> n in at
    decreases |rows| - i
  {
    if i == |rows| then [] else (if rows[i].enabled then [i] else []) + EnabledFrom(rows, i + 1)
  }

  lemma {:induction false} EntriesAt(rows: seq<ProtocolDraft>, i: nat)
    requires i <= |rows|
    ensures |EntriesOf(rows[i..])| == |EnabledFrom(rows, i)|
    ensures forall k :: 0 <= k < |EnabledFrom(rows, i)| ==>
              EntriesOf(rows[i..])[k] == EntryOf(rows[EnabledFrom(rows, i)[k]])
    decreases |rows| - i
  {
    hide EntriesOf, EntryOf;
    if i == |rows| {
      EntriesEnd(rows);
    } else {
      EntriesNext(rows, i);
      EntriesAt(rows, i + 1);
    }
  }

  // A row's own credentials where they are switched on and filled in, else the shared ones.
  predicate Serves(listen: ListenDraft, row: ProtocolDraft, served: Protocol) {
    && served.kind == row.kind
    && served.username == (if row.custom && row.username != "" then row.username else listen.username)
    && served.password == (if row.custom && row.password != "" then row.password else listen.password)
    && served.cipher == (if row.kind == SHADOWSOCKS then row.cipher else "")
  }

  // The schemes served are those of the rows switched on, in order.
  ghost predicate ServedInOrder(listen: ListenDraft, schemes: seq<Protocol>) {
    var at := EnabledFrom(listen.protocols, 0);
    |schemes| == |at| && forall k :: 0 <= k < |at| ==> Serves(listen, listen.protocols[at[k]], schemes[k])
  }

  lemma RowsServed(listen: ListenDraft, sent: Listen)
    requires sent.username == listen.username && sent.password == listen.password && sent.cipher == ""
    requires sent.protocols == EntriesOf(listen.protocols) != []
    ensures ServedInOrder(listen, sent.Schemes())
  {
    hide EntriesOf, EntryOf, Serves, Listen.Inherit;
    var rows, at := listen.protocols, EnabledFrom(listen.protocols, 0);
    assert rows[0..] == rows;
    EntriesAt(rows, 0);
    forall k | 0 <= k < |at| ensures Serves(listen, rows[at[k]], sent.Schemes()[k]) {
      InheritServes(listen, sent, rows[at[k]]);
    }
  }

  // An accepted proxy draft serves exactly the rows switched on, in their order, each with the
  // credentials shown for it.
  lemma ServesWhatRowsShow(browser: Browser, d: RuleDraft, context: Option<ReadContext>, rule: Rule)
    requires RowsOk(d.listen.protocols) && d.mode.ProxyMode? && Read(browser, d, context) == Accepted(rule)
    ensures ServedInOrder(d.listen, rule.listen.Schemes())
  {
    hide EntriesOf, Read, RowsOk, ServedInOrder;
    AcceptedListen(browser, d, context, rule);
    RowsServed(d.listen, rule.listen);
  }

  lemma InheritServes(listen: ListenDraft, sent: Listen, row: ProtocolDraft)
    requires sent.username == listen.username && sent.password == listen.password && sent.cipher == ""
    ensures Serves(listen, row, sent.Inherit(EntryOf(row)))
  {
  }

  lemma AcceptedListen(browser: Browser, d: RuleDraft, context: Option<ReadContext>, rule: Rule)
    requires RowsOk(d.listen.protocols) && d.mode.ProxyMode? && Read(browser, d, context) == Accepted(rule)
    ensures rule.listen.username == d.listen.username && rule.listen.password == d.listen.password
    ensures rule.listen.protocols == EntriesOf(d.listen.protocols) != [] && rule.listen.cipher == ""
  {
    hide EntriesOf, WayOf, WayProblems, AuthErrors, AddressErrors, AuthClean;
    CleanFields(browser, d, context);
  }

  // ------------------------------------------------------------------ ways

  // An accepted way has every hop of the draft, none without a URL, each with the texts of its rows
  // trimmed and the blank ones left out.
  predicate KeepsHops(hops: seq<HopDraft>, way: seq<Node>) {
    && |way| == |hops|
    && forall i :: 0 <= i < |hops| ==> way[i] != [] && way[i] == SerializeUrls(ValuesOf(hops[i]))
  }

  lemma UsableSent(hop: HopDraft)
    requires NoProblems(hop)
    ensures SerializeUrls(ValuesOf(hop)) != [] <==> hop.urls != []
  {
    if hop.urls != [] {
      assert UrlProblem(Usable(hop), hop.urls[0]).None?;
      var k :| 0 <= k < |hop.urls| && Trim(hop.urls[k].value) != "";
      assert ValuesOf(hop)[k] == hop.urls[k].value;
      assert Trim(ValuesOf(hop)[k]) in SerializeUrls(ValuesOf(hop));
    }
  }

  lemma {:induction false} AllSent(way: seq<Node>)
    requires forall i :: 0 <= i < |way| ==> SerializeUrls(way[i]) != []
    ensures |SerializeWay(way)| == |way|
    ensures forall i :: 0 <= i < |way| ==> SerializeWay(way)[i] == SerializeUrls(way[i])
  {
    hide SerializeUrls;
    if way != [] {
      AllSent(way[1..]);
    }
  }

  // A hop gets lost only if it has no row at all.
  lemma HopsKept(hops: seq<HopDraft>)
    requires forall i :: 0 <= i < |hops| ==> NoProblems(hops[i])
    ensures KeepsHops(hops, WayOf(hops)) <==> forall i :: 0 <= i < |hops| ==> hops[i].urls != []
  {
    hide SerializeUrls, NoProblems;
    forall i | 0 <= i < |hops| ensures SerializeUrls(ValuesOf(hops[i])) != [] <==> hops[i].urls != [] {
      UsableSent(hops[i]);
    }
    if forall i :: 0 <= i < |hops| ==> hops[i].urls != [] {
      AllSent(seq(|hops|, i requires 0 <= i < |hops| => ValuesOf(hops[i])));
    }
  }

  // No hop of an accepted draft gets lost on the way to the server, unless it has no row.
  lemma WaysComplete(browser: Browser, d: RuleDraft, context: Option<ReadContext>, rule: Rule)
    requires RowsOk(d.listen.protocols) && Read(browser, d, context) == Accepted(rule)
    ensures d.listen.kind.ByAddress? ==>
              (KeepsHops(d.listen.way, rule.listen.way) <==>
                 forall i :: 0 <= i < |d.listen.way| ==> d.listen.way[i].urls != [])
    ensures !TargetVirtual(d) ==>
              (KeepsHops(d.forwardWay, rule.forward.way) <==>
                 forall i :: 0 <= i < |d.forwardWay| ==> d.forwardWay[i].urls != [])
  {
    hide EntriesOf, WayOf, WayProblems, AuthErrors, AddressErrors, AuthClean, NoProblems, KeepsHops;
    CleanFields(browser, d, context);
    if d.listen.kind.ByAddress? {
      WayProblemsEmpty(d.listen.way, map[]);
      HopsKept(d.listen.way);
    }
    if !TargetVirtual(d) {
      WayProblemsEmpty(d.forwardWay, map[]);
      HopsKept(d.forwardWay);
    }
  }

  // ------------------------------------------------------------------ ids

  // Every hop of the list has ids of its own, above the first number and not above the second, and all
  // smaller than those of the next hop.
  predicate OwnIds(hops: seq<HopDraft>, above: nat, upTo: nat) {
    && (forall i :: 0 <= i < |hops| ==> IdsWithin(hops[i], above, upTo))
    && forall i, j :: 0 <= i < j < |hops| ==> IdsBefore(hops[i], hops[j])
  }

  predicate IdsBefore(a: HopDraft, b: HopDraft) {
    a.id < b.id && forall k :: 0 <= k < |a.urls| ==> a.urls[k].id < b.id
  }

  lemma {:induction false} HopsHaveOwnIds(way: seq<Node>, last: nat)
    ensures OwnIds(HopsFrom(way, last), last, LastId(way, last))
  {
    if way != [] {
      var next := last + 1 + |way[0]|;
      HopsHaveOwnIds(way[1..], next);
      assert IdsWithin(NewHop(way[0], last), last, next);
      var hops := HopsFrom(way, last);
      forall i | 0 <= i < |hops| ensures IdsWithin(hops[i], last, LastId(way, last)) {
        if i > 0 {
          assert hops[i] == HopsFrom(way[1..], next)[i - 1];
        }
      }
    }
  }

  // An opened rule gives each of its hops and URLs an id of its own, across both ways, so an error shown
  // at one is shown at no other.
  lemma IdsApart(rule: Rule, last: nat)
    ensures var d, middle := DraftFrom(rule, last), LastId(rule.listen.way, last);
            OwnIds(d.listen.way, last, middle) && OwnIds(d.forwardWay, middle, LastId(rule.forward.way, middle))
  {
    HopsHaveOwnIds(rule.listen.way, last);
    HopsHaveOwnIds(rule.forward.way, LastId(rule.listen.way, last));
  }
}

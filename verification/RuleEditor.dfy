/** The rule form of the web UI: drafts, reading a draft back, and the errors it shows. */
module RuleEditor {
  import opened Text
  import opened Config

  // What JavaScript's Number makes of a trimmed text, when that is an integer.
  datatype Browser = Browser(number: string -> Option<int>)

  const PROTOCOLS: seq<string> := [HTTP, SOCKS5, SOCKS4, SSH, SHADOWSOCKS]
  const LEGACY_TYPES: set<string> := {HTTP, SOCKS5, SOCKS4, SSH}
  const DEFAULT_CIPHER := "aes-256-gcm"

  // Which inputs a row offers for credentials of its own, by protocol.
  predicate ShowsUsername(kind: string) { kind != SHADOWSOCKS }
  predicate ShowsPassword(kind: string) { kind != SOCKS4 }

  datatype ProtocolDraft = ProtocolDraft(kind: string, enabled: bool, custom: bool, username: string, password: string,
    cipher: string)
  {
    function OwnUsername(): string { if custom then username else "" }
    function OwnPassword(): string { if custom then password else "" }
  }

  datatype UrlDraft = UrlDraft(id: nat, value: string)
  datatype HopDraft = HopDraft(id: nat, urls: seq<UrlDraft>)
  datatype EndpointKind = ByAddress | ByChannel
  datatype Mode = ProxyMode | ForwardMode

  datatype ListenDraft = ListenDraft(
    kind: EndpointKind, host: string, port: string, virtual: string,
    username: string, password: string, protocols: seq<ProtocolDraft>, way: seq<HopDraft>)

  datatype TargetDraft = TargetDraft(kind: EndpointKind, host: string, port: string, virtual: string)

  datatype RuleDraft = RuleDraft(
    name: string, enabled: bool, listen: ListenDraft, mode: Mode, target: TargetDraft, forwardWay: seq<HopDraft>)

  // One row per protocol: known types, none twice.
  predicate RowsOk(rows: seq<ProtocolDraft>) {
    && (forall i :: 0 <= i < |rows| ==> rows[i].kind in PROTOCOLS)
    && (forall i, j :: 0 <= i < j < |rows| ==> rows[i].kind != rows[j].kind)
  }

  // ------------------------------------------------------------------ opening a rule

  // Drafts of URLs and hops take their ids from a running sequence; last is the last id used.
  function UrlsFrom(urls: Node, last: nat): (drafts: seq<UrlDraft>)
    ensures |drafts| == |urls|
    ensures forall i :: 0 <= i < |drafts| ==> drafts[i].value == urls[i] && drafts[i].id == last + 1 + i
  {
    seq(|urls|, i requires 0 <= i < |urls| => UrlDraft(last + 1 + i, urls[i]))
  }

  function NewHop(urls: Node, last: nat): HopDraft {
    HopDraft(last + 1, UrlsFrom(urls, last + 1))
  }

  function LastId(way: seq<Node>, last: nat): (id: nat)
    ensures id >= last
  {
    if way == [] then last else LastId(way[1..], last + 1 + |way[0]|)
  }

  function HopsFrom(way: seq<Node>, last: nat): (hops: seq<HopDraft>)
    ensures |hops| == |way|
    ensures forall i :: 0 <= i < |hops| ==> ValuesOf(hops[i]) == way[i]
  {
    if way == [] then [] else
      assert ValuesOf(NewHop(way[0], last)) == way[0];
      [NewHop(way[0], last)] + HopsFrom(way[1..], last + 1 + |way[0]|)
  }

  // All ids of a hop lie in a stretch of their own.
  predicate IdsWithin(hop: HopDraft, above: nat, upTo: nat) {
    && above < hop.id <= upTo && (forall k :: 0 <= k < |hop.urls| ==> hop.id < hop.urls[k].id <= upTo)
    && forall k, l :: 0 <= k < l < |hop.urls| ==> hop.urls[k].id < hop.urls[l].id
  }

  function ValuesOf(hop: HopDraft): Node {
    seq(|hop.urls|, i requires 0 <= i < |hop.urls| => hop.urls[i].value)
  }

  function KindOf(virtual: string): EndpointKind { if virtual != "" then ByChannel else ByAddress }

  function Find(stored: seq<Protocol>, kind: string): (entry: Option<Protocol>)
    ensures entry.Some? ==> entry.value in stored && entry.value.kind == kind
    ensures entry.None? ==> forall p :: p in stored ==> p.kind != kind
  {
    if stored == [] then None
    else if stored[0].kind == kind then Some(stored[0])
    else Find(stored[1..], kind)
  }

  // The row a stored listener opens into: without an explicit list the old protocols are switched on,
  // and the listener's own cipher finds its way into the Shadowsocks row.
  function RowFrom(listen: Listen, kind: string): ProtocolDraft {
    var entry := Find(listen.protocols, kind);
    var p := if entry.Some? then entry.value else Protocol(kind, "", "", "");
    var cipher := if kind != SHADOWSOCKS then "" else if p.cipher != "" then p.cipher
                  else if listen.cipher != "" then listen.cipher else DEFAULT_CIPHER;
    var enabled := if listen.Explicit() then entry.Some?
                   else kind in LEGACY_TYPES || (kind == SHADOWSOCKS && listen.cipher != "");
    ProtocolDraft(kind, enabled, p.username != "" || p.password != "", p.username, p.password, cipher)
  }

  function ProtocolsFrom(listen: Listen): seq<ProtocolDraft> {
    seq(|PROTOCOLS|, i requires 0 <= i < |PROTOCOLS| => RowFrom(listen, PROTOCOLS[i]))
  }

  function DraftFrom(rule: Rule, last: nat): RuleDraft {
    var listen, forward := rule.listen, rule.forward;
    RuleDraft(
      rule.name,
      !rule.disabled,
      ListenDraft(KindOf(listen.virtual), listen.host, Decimal(listen.port), listen.virtual, listen.username,
        listen.password,
                  ProtocolsFrom(listen), HopsFrom(listen.way, last)),
      if forward.port > 0 || forward.virtual != "" then ForwardMode else ProxyMode,
      TargetDraft(KindOf(forward.virtual), forward.host,
                  if forward.port > 0 then Decimal(forward.port) else "", forward.virtual),
      HopsFrom(forward.way, LastId(listen.way, last)))
  }

  // ------------------------------------------------------------------ reading a draft

  datatype MessageKey =
    | RuleNameRequired | RuleNameSlash | RuleNameTaken
    | InvalidPort | InvalidVirtualChannel | InvalidForwardPort | VirtualSelfLoop
    | ListenAddressTaken | ListenAddressWebUI
    | UsernameColon | PasswordNeedsUsername | ProtocolRequired | CipherRequired | PasswordRequired
    | HopUrlEmpty | HopUrlNoScheme

  datatype FieldErrors = FieldErrors(username: Option<MessageKey>, password: Option<MessageKey>)

  datatype DraftErrors = DraftErrors(
    name: Option<MessageKey>, listenPort: Option<MessageKey>, listenVirtual: Option<MessageKey>,
    listenAddressOwner: Option<string>, listenUsername: Option<MessageKey>, listenPassword: Option<MessageKey>,
    protocols: Option<MessageKey>, protocolErrors: map<string, FieldErrors>,
    ssCipher: Option<MessageKey>, ssPassword: Option<MessageKey>,
    targetPort: Option<MessageKey>, targetVirtual: Option<MessageKey>, urls: map<nat, MessageKey>)

  const NO_ERRORS := DraftErrors(None, None, None, None, None, None, None, map[], None, None, None, None, map[])

  // What a draft is compared with: all stored rules (self names the edited one among them) and the
  // web UI's address.
  datatype ReadContext = ReadContext(others: seq<Rule>, self: Option<string>, webUI: Option<Address>)

  datatype ReadResult = Accepted(rule: Rule) | Rejected(errors: DraftErrors)

  function ParsePort(browser: Browser, value: string, minimum: nat): (port: Option<uint32>)
    requires minimum <= 1
    ensures port.Some? ==> minimum <= port.value <= MAX_PORT
  {
    var trimmed := Trim(value);
    var number := browser.number(trimmed);
    if trimmed == "" || number.None? || number.value < minimum || number.value > MAX_PORT then None
        else Some(number.value)
  }

  // One or more characters, none of them whitespace or a slash.
  predicate IsVirtualChannel(channel: string) {
    channel != "" && forall i :: 0 <= i < |channel| ==> !IsSpace(channel[i]) && channel[i] != '/'
  }

  function ParseChannel(value: string): Option<string> {
    if IsVirtualChannel(Trim(value)) then Some(Trim(value)) else None
  }

  function VirtualAddress(channel: string): string { "virtual://" + channel }

  function JoinHostPort(host: string, port: uint32): string {
    var name := if host == "" then "127.0.0.1" else host;
    (if ':' in name then "[" + name + "]" else name) + ":" + Decimal(port)
  }

  // Some prefix is spelled like a URL scheme and ends in a colon.
  predicate HasScheme(url: string) {
    && url != "" && ('a' <= url[0] <= 'z' || 'A' <= url[0] <= 'Z')
    && exists j :: 1 <= j < |url| && url[j] == ':'
                   && forall k :: 1 <= k < j ==>
                        'a' <= url[k] <= 'z' || 'A' <= url[k] <= 'Z' || '0' <= url[k] <= '9' ||
                          url[k] in {'+', '.', '-'}
  }

  // Trimmed, blanks dropped.
  function SerializeUrls(urls: Node): (sent: Node)
    ensures forall u :: u in sent <==> u != "" && exists i :: 0 <= i < |urls| && Trim(urls[i]) == u
  {
    if urls == [] then [] else (if Trim(urls[0]) != "" then [Trim(urls[0])] else []) + SerializeUrls(urls[1..])
  }

  function SerializeWay(way: seq<Node>): (sent: seq<Node>)
    ensures forall hop :: hop in sent <==> hop != [] && exists i :: 0 <= i < |way| && SerializeUrls(way[i]) == hop
  {
    if way == [] then []
    else (if SerializeUrls(way[0]) != [] then [SerializeUrls(way[0])] else []) + SerializeWay(way[1..])
  }

  function WayOf(hops: seq<HopDraft>): seq<Node> {
    SerializeWay(seq(|hops|, i requires 0 <= i < |hops| => ValuesOf(hops[i])))
  }

  predicate Usable(hop: HopDraft) { exists i :: 0 <= i < |hop.urls| && Trim(hop.urls[i].value) != "" }

  // A blank row is an error only in a hop without a usable one.
  function UrlProblem(usable: bool, url: UrlDraft): Option<MessageKey> {
    var value := Trim(url.value);
    if value == "" then if usable then None else Some(HopUrlEmpty)
    else if !HasScheme(value) then Some(HopUrlNoScheme)
    else None
  }

  function HopProblems(usable: bool, urls: seq<UrlDraft>, acc: map<nat, MessageKey>): map<nat, MessageKey> {
    if urls == [] then acc
    else
      var problem := UrlProblem(usable, urls[0]);
      HopProblems(usable, urls[1..], if problem.Some? then acc[urls[0].id := problem.value] else acc)
  }

  function WayProblems(hops: seq<HopDraft>, acc: map<nat, MessageKey>): map<nat, MessageKey> {
    if hops == [] then acc else WayProblems(hops[1..], HopProblems(Usable(hops[0]), hops[0].urls, acc))
  }

  method ReadWay(hops: seq<HopDraft>, errors: DraftErrors) returns (way: seq<Node>, updated: DraftErrors)
    ensures way == WayOf(hops)
    ensures updated == errors.(urls := WayProblems(hops, errors.urls))
  {
    updated := errors;
    for i := 0 to |hops|
      invariant updated == errors.(urls := updated.urls)
      invariant WayProblems(hops[i..], updated.urls) == WayProblems(hops, errors.urls)
    {
      var hop := hops[i];
      var usable := exists k :: 0 <= k < |hop.urls| && Trim(hop.urls[k].value) != "";
      ghost var before := updated.urls;
      for k := 0 to |hop.urls|
        invariant updated == errors.(urls := updated.urls)
        invariant HopProblems(usable, hop.urls[k..], updated.urls) == HopProblems(usable, hop.urls, before)
      {
        var value := Trim(hop.urls[k].value);
        if value == "" {
          if !usable {
            updated := updated.(urls := updated.urls[hop.urls[k].id := HopUrlEmpty]);
          }
        } else if !HasScheme(value) {
          updated := updated.(urls := updated.urls[hop.urls[k].id := HopUrlNoScheme]);
        }
        assert hop.urls[k..][1..] == hop.urls[k + 1..];
      }
      assert hops[i..][1..] == hops[i + 1..];
    }
    way := WayOf(hops);
  }

  // The entry a row sends, without the pair shared by all rows.
  function EntryOf(row: ProtocolDraft): Protocol {
    Protocol(row.kind, row.OwnUsername(), row.OwnPassword(), if row.kind == SHADOWSOCKS then row.cipher else "")
  }

  function EntriesOf(rows: seq<ProtocolDraft>): (entries: seq<Protocol>)
    ensures forall p :: p in entries <==> exists i :: 0 <= i < |rows| && rows[i].enabled && EntryOf(rows[i]) == p
  {
    if rows == [] then [] else (if rows[0].enabled then [EntryOf(rows[0])] else []) + EntriesOf(rows[1..])
  }

  predicate SharedForSS(listen: ListenDraft) {
    exists i :: 0 <= i < |listen.protocols| && listen.protocols[i].enabled &&
        listen.protocols[i].kind == SHADOWSOCKS && listen.protocols[i].OwnPassword() == ""
  }

  // The row ends up with a password and no username.
  predicate LacksUsername(listen: ListenDraft, row: ProtocolDraft) {
    row.kind != SHADOWSOCKS && (row.OwnPassword() != "" || listen.password != "") && row.OwnUsername() == "" &&
      listen.username == ""
  }

  // The complaints about one row, each at an input the row offers.
  function RowErrors(listen: ListenDraft, row: ProtocolDraft): FieldErrors {
    var colon := if ':' in row.OwnUsername() && ShowsUsername(row.kind) then Some(UsernameColon) else None;
    if LacksUsername(listen, row) && row.OwnPassword() != "" then
      if ShowsPassword(row.kind) then FieldErrors(colon, Some(PasswordNeedsUsername))
      else FieldErrors(Some(PasswordNeedsUsername), None)
    else FieldErrors(colon, None)
  }

  const NO_FIELD_ERRORS := FieldErrors(None, None)

  function ProtocolErrors(listen: ListenDraft, n: nat): (shown: map<string, FieldErrors>)
    requires n <= |listen.protocols| && RowsOk(listen.protocols)
  {
    if n == 0 then map[]
    else
      var row := listen.protocols[n - 1];
      var shown := ProtocolErrors(listen, n - 1);
      if row.enabled && RowErrors(listen, row) != NO_FIELD_ERRORS then shown[row.kind := RowErrors(listen, row)]
          else shown
  }

  predicate SharedLacksUsername(listen: ListenDraft) {
    && !SharedForSS(listen)
    && exists i :: 0 <= i < |listen.protocols| && listen.protocols[i].enabled
                   && LacksUsername(listen, listen.protocols[i]) && listen.protocols[i].OwnPassword() == ""
  }

  function AuthErrors(listen: ListenDraft, errors: DraftErrors): DraftErrors
    requires RowsOk(listen.protocols)
  {
    errors.(
      listenUsername := if ':' in listen.username then Some(UsernameColon) else errors.listenUsername,
      listenPassword := if SharedLacksUsername(listen) then Some(PasswordNeedsUsername) else errors.listenPassword,
      protocolErrors := errors.protocolErrors + ProtocolErrors(listen, |listen.protocols|))
  }

  predicate MissesCipher(rows: seq<ProtocolDraft>) {
    exists i :: 0 <= i < |rows| && rows[i].enabled && rows[i].kind == SHADOWSOCKS && rows[i].cipher == ""
  }

  predicate MissesPassword(listen: ListenDraft) { listen.password == "" && SharedForSS(listen) }

  // An enabled rule that opens a port or a channel on this machine.
  predicate Listens(rule: Rule) {
    !rule.disabled && |rule.listen.way| == 0 && (rule.listen.port != 0 || rule.listen.virtual != "")
  }

  function ConfiguredAddress(listen: Listen): string {
    if listen.virtual != "" then VirtualAddress(listen.virtual) else JoinHostPort(listen.host, listen.port)
  }

  predicate Holds(rule: Rule, self: Option<string>, address: string) {
    Some(rule.name) != self && Listens(rule) && ConfiguredAddress(rule.listen) == address
  }

  function OwnerOf(others: seq<Rule>, self: Option<string>, address: string): (owner: Option<string>)
    ensures owner.None? <==> forall i :: 0 <= i < |others| ==> !Holds(others[i], self, address)
    ensures owner.Some? ==>
            exists i :: 0 <= i < |others| && Holds(others[i], self, address) && others[i].name == owner.value
                                        && forall k :: 0 <= k < i ==> !Holds(others[k], self, address)
  {
    if others == [] then None
    else if Holds(others[0], self, address) then Some(others[0].name)
    else
      var owner := OwnerOf(others[1..], self, address);
      assert forall i :: 0 < i < |others| ==> others[i] == others[1..][i - 1];
      owner
  }

  // The parts of a draft as they would be sent.
  datatype Reading = Reading(
    name: string,
    listenPort: Option<uint32>, listenChannel: Option<string>, listenWay: seq<Node>,
    protocols: seq<Protocol>,
    targetPort: Option<uint32>, targetChannel: Option<string>, forwardWay: seq<Node>)

  predicate TargetVirtual(d: RuleDraft) { d.mode.ForwardMode? && d.target.kind.ByChannel? }

  function Parts(browser: Browser, d: RuleDraft): Reading {
    var channel := d.listen.kind.ByChannel?;
    Reading(
      Trim(d.name),
      if channel then Some(0) else ParsePort(browser, d.listen.port, 0),
      if channel then ParseChannel(d.listen.virtual) else Some(""),
      if channel then [] else WayOf(d.listen.way),
      if d.mode.ForwardMode? then [] else EntriesOf(d.listen.protocols),
      if d.mode.ForwardMode? && !TargetVirtual(d) then ParsePort(browser, d.target.port, 1) else Some(0),
      if TargetVirtual(d) then ParseChannel(d.target.virtual) else Some(""),
      if TargetVirtual(d) then [] else WayOf(d.forwardWay))
  }

  predicate NameTaken(context: Option<ReadContext>, name: string) {
    context.Some? && exists i :: 0 <= i < |context.value.others| && context.value.others[i].name == name
                                 && Some(name) != context.value.self
  }

  function NameError(context: Option<ReadContext>, name: string): Option<MessageKey> {
    if name == "" then Some(RuleNameRequired)
    else if '/' in name then Some(RuleNameSlash)
    else if NameTaken(context, name) then Some(RuleNameTaken)
    else None
  }

  function TargetVirtualError(p: Reading): Option<MessageKey> {
    if p.targetChannel.None? then Some(InvalidVirtualChannel)
    else if p.targetChannel.value != "" && p.targetChannel == p.listenChannel then Some(VirtualSelfLoop)
    else None
  }

  // The address the draft would bind here, if any.
  function BoundAddress(d: RuleDraft, p: Reading): Option<string> {
    if !d.enabled || p.listenPort.None? || p.listenChannel.None? then None
    else if d.listen.kind.ByChannel? then Some(VirtualAddress(p.listenChannel.value))
    else if p.listenPort.value != 0 && |p.listenWay| == 0
        then Some(JoinHostPort(Trim(d.listen.host), p.listenPort.value))
    else None
  }

  function AddressOwner(context: ReadContext, address: Option<string>): Option<string> {
    if address.None? then None else OwnerOf(context.others, context.self, address.value)
  }

  predicate IsWebUI(context: ReadContext, address: Option<string>) {
    && address.Some? && context.webUI.Some? && context.webUI.value.port != 0
    && JoinHostPort(context.webUI.value.host, context.webUI.value.port) == address.value
  }

  function AddressErrors(d: RuleDraft, context: Option<ReadContext>, p: Reading, errors: DraftErrors): DraftErrors {
    var address := BoundAddress(d, p);
    if context.None? then errors
    else
      var owner := AddressOwner(context.value, address);
      if owner.Some? then
        (if d.listen.kind.ByChannel? then errors.(listenVirtual := Some(ListenAddressTaken))
         else errors.(listenPort := Some(ListenAddressTaken))).(listenAddressOwner := owner)
      else if IsWebUI(context.value, address) then
        if d.listen.kind.ByChannel? then errors.(listenVirtual := Some(ListenAddressWebUI))
        else errors.(listenPort := Some(ListenAddressWebUI))
      else errors
  }

  // Every error but those about credentials and the bound address.
  function FieldErrorsOf(d: RuleDraft, context: Option<ReadContext>, p: Reading): DraftErrors {
    var proxy := d.mode.ProxyMode?;
    DraftErrors(
      NameError(context, p.name),
      if p.listenPort.None? then Some(InvalidPort) else None,
      if p.listenChannel.None? then Some(InvalidVirtualChannel) else None,
      None, None, None,
      if proxy && p.protocols == [] then Some(ProtocolRequired) else None,
      map[],
      if proxy && MissesCipher(d.listen.protocols) then Some(CipherRequired) else None,
      if proxy && MissesPassword(d.listen) then Some(PasswordRequired) else None,
      if p.targetPort.None? then Some(InvalidForwardPort) else None,
      TargetVirtualError(p),
      var onListen := if d.listen.kind.ByChannel? then map[] else WayProblems(d.listen.way, map[]);
      if TargetVirtual(d) then onListen else WayProblems(d.forwardWay, onListen))
  }

  function Errors(d: RuleDraft, context: Option<ReadContext>, p: Reading): DraftErrors
    requires RowsOk(d.listen.protocols)
  {
    var fields := FieldErrorsOf(d, context, p);
    AddressErrors(d, context, p, if d.mode.ProxyMode? then AuthErrors(d.listen, fields) else fields)
  }

  // The rule a clean draft sends.
  function RuleOf(d: RuleDraft, p: Reading): Rule
    requires p.listenPort.Some? && p.listenChannel.Some? && p.targetPort.Some? && p.targetChannel.Some?
  {
    var proxy := d.mode.ProxyMode?;
    var address := d.listen.kind.ByAddress?;
    Rule(
      p.name,
      !d.enabled,
      Listen(
        if address then Trim(d.listen.host) else "",
        p.listenPort.value,
        p.listenChannel.value,
        p.listenWay,
        if proxy then d.listen.username else "",
        if proxy then d.listen.password else "",
        "",
        p.protocols),
      Forward(
        if proxy || TargetVirtual(d) then "" else Trim(d.target.host),
        p.targetPort.value,
        p.targetChannel.value,
        p.forwardWay))
  }

  function Read(browser: Browser, d: RuleDraft, context: Option<ReadContext>): ReadResult
    requires RowsOk(d.listen.protocols)
  {
    var p := Parts(browser, d);
    var errors := Errors(d, context, p);
    if p.listenPort.None? || p.listenChannel.None? || p.targetPort.None? || p.targetChannel.None? || errors != NO_ERRORS
    then Rejected(errors)
    else Accepted(RuleOf(d, p))
  }

  // ------------------------------------------------------------------ the form's own loops

  // One row: the errors it shows itself, and whether it misses a username for the shared password.
  method ReadRow(listen: ListenDraft, row: ProtocolDraft) returns (own: FieldErrors, lacksShared: bool)
    ensures own == RowErrors(listen, row)
    ensures lacksShared <==> LacksUsername(listen, row) && row.OwnPassword() == ""
  {
    own, lacksShared := NO_FIELD_ERRORS, false;
    var ownUsername := if row.custom then row.username else "";
    var ownPassword := if row.custom then row.password else "";
    if ':' in ownUsername && ShowsUsername(row.kind) {
      own := own.(username := Some(UsernameColon));
    }
    if row.kind == SHADOWSOCKS || (ownPassword == "" && listen.password == "") || ownUsername != "" ||
        listen.username != "" {
      return;
    }
    if ownPassword == "" {
      lacksShared := true;
    } else if ShowsPassword(row.kind) {
      own := own.(password := Some(PasswordNeedsUsername));
    } else {
      // Without a password input the complaint moves to the username's.
      own := own.(username := Some(PasswordNeedsUsername));
    }
  }

  method ReadAuth(listen: ListenDraft, errors: DraftErrors) returns (updated: DraftErrors)
    requires RowsOk(listen.protocols) && errors.protocolErrors == map[]
    ensures updated == AuthErrors(listen, errors)
  {
    hide RowErrors, LacksUsername, RowsOk;
    var rows := listen.protocols;
    var sharedForSS := exists i :: 0 <= i < |rows| && rows[i].enabled && rows[i].kind == SHADOWSOCKS
                                   && !(rows[i].custom && rows[i].password != "");
    assert sharedForSS == SharedForSS(listen);
    var shown: map<string, FieldErrors> := map[];
    var lacks := false;
    for i := 0 to |rows|
      invariant shown == ProtocolErrors(listen, i)
      invariant lacks <==>
                exists k :: 0 <= k < i && rows[k].enabled
                            && LacksUsername(listen, rows[k]) && rows[k].OwnPassword() == ""
    {
      if rows[i].enabled {
        var own, lacksShared := ReadRow(listen, rows[i]);
        if own != NO_FIELD_ERRORS {
          shown := shown[rows[i].kind := own];
        }
        lacks := lacks || lacksShared;
      }
    }
    updated := errors.(protocolErrors := shown);
    if ':' in listen.username {
      updated := updated.(listenUsername := Some(UsernameColon));
    }
    if lacks && !sharedForSS {
      updated := updated.(listenPassword := Some(PasswordNeedsUsername));
    }
    assert errors.protocolErrors + shown == shown;
  }

  lemma EntriesNext(rows: seq<ProtocolDraft>, i: nat)
    requires i < |rows|
    ensures EntriesOf(rows[i..]) == (if rows[i].enabled then [EntryOf(rows[i])] else []) + EntriesOf(rows[i + 1..])
  {
    assert rows[i..][1..] == rows[i + 1..];
  }

  lemma EntriesEnd(rows: seq<ProtocolDraft>)
    ensures EntriesOf(rows[|rows|..]) == []
  {
  }

  // The loop over the rows that collects what is sent and checks Shadowsocks.
  method ReadProtocols(d: RuleDraft, errors: DraftErrors) returns (protocols: seq<Protocol>, updated: DraftErrors)
    ensures protocols == if d.mode.ForwardMode? then [] else EntriesOf(d.listen.protocols)
    ensures updated == errors.(
                         ssCipher :=
                           if d.mode.ProxyMode? && MissesCipher(d.listen.protocols) then Some(CipherRequired)
                           else errors.ssCipher,
                         ssPassword :=
                           if d.mode.ProxyMode? && MissesPassword(d.listen) then Some(PasswordRequired)
                           else errors.ssPassword)
  {
    hide EntriesOf;
    protocols, updated := [], errors;
    if d.mode.ForwardMode? {
      return;
    }
    var rows := d.listen.protocols;
    ghost var cipher, password := false, false;
    for i := 0 to |rows|
      invariant protocols + EntriesOf(rows[i..]) == EntriesOf(rows)
      invariant cipher <==>
                exists k :: 0 <= k < i && rows[k].enabled && rows[k].kind == SHADOWSOCKS && rows[k].cipher == ""
      invariant password <==>
                && d.listen.password == ""
                && exists k :: 0 <= k < i && rows[k].enabled
                               && rows[k].kind == SHADOWSOCKS && rows[k].OwnPassword() == ""
      invariant updated == errors.(
                             ssCipher := if cipher then Some(CipherRequired) else errors.ssCipher,
                             ssPassword := if password then Some(PasswordRequired) else errors.ssPassword)
    {
      var row := rows[i];
      EntriesNext(rows, i);
      if !row.enabled {
        continue;
      }
      var entry := Protocol(row.kind, "", "", "");
      if row.custom && row.username != "" {
        entry := entry.(username := row.username);
      }
      if row.custom && row.password != "" {
        entry := entry.(password := row.password);
      }
      if row.kind == SHADOWSOCKS {
        if row.cipher != "" {
          entry := entry.(cipher := row.cipher);
        } else {
          updated := updated.(ssCipher := Some(CipherRequired));
          cipher := true;
        }
        if entry.password == "" && d.listen.password == "" {
          updated := updated.(ssPassword := Some(PasswordRequired));
          password := true;
        }
      }
      assert entry == EntryOf(row);
      protocols := protocols + [entry];
    }
    EntriesEnd(rows);
  }

  // Whether the address a draft would open is free: nobody is asked for rules that open none, and a
  // web UI with an arbitrary port occupies none.
  method ReadAddress(d: RuleDraft, context: Option<ReadContext>, p: Reading, errors: DraftErrors)
    returns (updated: DraftErrors)
    ensures updated == AddressErrors(d, context, p, errors)
  {
    updated := errors;
    var listenVirtual := d.listen.kind.ByChannel?;
    if context.None? || !d.enabled || p.listenPort.None? || p.listenChannel.None?
       || !(listenVirtual || (p.listenPort.value != 0 && |p.listenWay| == 0))
    {
      return;
    }
    var address := if listenVirtual then VirtualAddress(p.listenChannel.value)
                   else JoinHostPort(Trim(d.listen.host), p.listenPort.value);
    var owner := OwnerOf(context.value.others, context.value.self, address);
    var webUI := context.value.webUI;
    var problem := None;
    if owner.Some? {
      problem := Some(ListenAddressTaken);
      updated := updated.(listenAddressOwner := owner);
    } else if webUI.Some? && webUI.value.port != 0 && JoinHostPort(webUI.value.host, webUI.value.port) == address {
      problem := Some(ListenAddressWebUI);
    }
    if problem.Some? {
      if listenVirtual {
        updated := updated.(listenVirtual := problem);
      } else {
        updated := updated.(listenPort := problem);
      }
    }
  }

  // Every check that needs no address of another rule.
  method ReadFields(browser: Browser, d: RuleDraft, context: Option<ReadContext>)
    returns (p: Reading, errors: DraftErrors)
    requires RowsOk(d.listen.protocols)
    ensures p == Parts(browser, d)
    ensures errors == if d.mode.ProxyMode? then AuthErrors(d.listen, FieldErrorsOf(d, context, p))
            else FieldErrorsOf(d, context, p)
  {
    hide EntriesOf, WayOf, WayProblems, ProtocolErrors, SharedLacksUsername, MissesCipher, MissesPassword, Trim,
      ParsePort, ParseChannel, NameError, RowsOk;
    var name := Trim(d.name);
    errors := NO_ERRORS.(name := NameError(context, name));
    var listenVirtual := d.listen.kind.ByChannel?;
    var listenPort := if listenVirtual then Some(0) else ParsePort(browser, d.listen.port, 0);
    var listenChannel := if listenVirtual then ParseChannel(d.listen.virtual) else Some("");
    errors := errors.(
      listenPort := if listenPort.None? then Some(InvalidPort) else None,
      listenVirtual := if listenChannel.None? then Some(InvalidVirtualChannel) else None);
    var listenWay := [];
    if !listenVirtual {
      listenWay, errors := ReadWay(d.listen.way, errors);
    }
    var forwarding := d.mode.ForwardMode?;
    var protocols;
    protocols, errors := ReadProtocols(d, errors);
    if !forwarding {
      errors := errors.(protocols := if |protocols| == 0 then Some(ProtocolRequired) else None);
      errors := ReadAuth(d.listen, errors);
    }
    var targetVirtual := forwarding && d.target.kind.ByChannel?;
    var targetPort := if forwarding && !targetVirtual then ParsePort(browser, d.target.port, 1) else Some(0);
    var targetChannel := if targetVirtual then ParseChannel(d.target.virtual) else Some("");
    errors := errors.(
      targetPort := if targetPort.None? then Some(InvalidForwardPort) else None,
      targetVirtual := if targetChannel.None? then Some(InvalidVirtualChannel)
      else if targetChannel.value != "" && targetChannel == listenChannel then Some(VirtualSelfLoop)
      else None);
    var forwardWay := [];
    if !targetVirtual {
      forwardWay, errors := ReadWay(d.forwardWay, errors);
    }
    p := Reading(name, listenPort, listenChannel, listenWay, protocols, targetPort, targetChannel, forwardWay);
  }

  method ReadRule(browser: Browser, d: RuleDraft, context: Option<ReadContext>) returns (result: ReadResult)
    requires RowsOk(d.listen.protocols)
    ensures result == Read(browser, d, context)
  {
    hide RuleOf, FieldErrorsOf, AuthErrors, AddressErrors;
    var p, errors := ReadFields(browser, d, context);
    errors := ReadAddress(d, context, p, errors);
    if p.listenPort.None? || p.listenChannel.None? || p.targetPort.None? || p.targetChannel.None? ||
        errors != NO_ERRORS {
      return Rejected(errors);
    }
    var rule := BuildRule(d, p);
    return Accepted(rule);
  }

  // Absent fields stay at their zero value.
  method BuildRule(d: RuleDraft, p: Reading) returns (rule: Rule)
    requires p.listenPort.Some? && p.listenChannel.Some? && p.targetPort.Some? && p.targetChannel.Some?
    requires d.listen.kind.ByChannel? ==> p.listenPort == Some(0)
    requires d.listen.kind.ByAddress? ==> p.listenChannel == Some("")
    requires !TargetVirtual(d) ==> p.targetChannel == Some("")
    requires TargetVirtual(d) || d.mode.ProxyMode? ==> p.targetPort == Some(0)
    requires d.mode.ForwardMode? ==> p.protocols == []
    ensures rule == RuleOf(d, p)
  {
    var listen := if d.listen.kind.ByChannel? then Listen("", 0, p.listenChannel.value, [], "", "", "", [])
                  else Listen(Trim(d.listen.host), p.listenPort.value, "", [], "", "", "", []);
    if d.mode.ProxyMode? {
      listen := listen.(username := d.listen.username, password := d.listen.password, protocols := p.protocols);
    }
    listen := listen.(way := p.listenWay);
    var forward := Forward("", 0, "", []);
    if TargetVirtual(d) {
      forward := forward.(virtual := p.targetChannel.value);
    } else if d.mode.ForwardMode? {
      forward := forward.(host := Trim(d.target.host), port := p.targetPort.value);
    }
    forward := forward.(way := p.forwardWay);
    rule := Rule(p.name, !d.enabled, listen, forward);
  }
}

/** The server's checks on a whole configuration. */
module Validate {
  import opened Text
  import opened Config

  // The two library answers the checks depend on: does url.Parse succeed, is a cipher supported.
  datatype Env = Env(parses: string -> bool, isCipher: string -> bool)

  predicate IsLetter(c: char) { 'a' <= c <= 'z' || 'A' <= c <= 'Z' }

  predicate IsSchemeChar(c: char) { IsLetter(c) || '0' <= c <= '9' || c in {'+', '-', '.'} }

  // The scheme url.Parse finds, "" when there is none: text up to the first colon if every
  // character before it may stand in a scheme and the first is a letter.
  function SchemeOf(url: string): string {
    if url != "" && IsLetter(url[0]) then SchemeFrom(url, 1) else ""
  }

  function SchemeFrom(url: string, i: nat): (scheme: string)
    requires 0 < i <= |url|
    ensures scheme != "" <==> exists j :: i <= j < |url| && url[j] == ':' && forall k :: i <= k < j ==>
            IsSchemeChar(url[k])
    decreases |url| - i
  {
    if i == |url| then ""
    else if url[i] == ':' then url[..i]
    else if IsSchemeChar(url[i]) then SchemeFrom(url, i + 1)
    else ""
  }

  // ------------------------------------------------------------------ what a valid configuration is

  predicate CipherOk(env: Env, cipher: string) { cipher == "" || env.isCipher(cipher) }

  predicate ProtocolOk(env: Env, p: Protocol) {
    && p.kind in KNOWN_TYPES
    && ':' !in p.username
    && (p.cipher != "" ==> p.kind == SHADOWSOCKS && env.isCipher(p.cipher))
  }

  // Some ss entry is served by the shared password, so that password may stand without a username.
  predicate SharedForSS(listen: Listen) {
    if listen.Explicit()
    then exists p :: p in listen.protocols && p.kind == SHADOWSOCKS && p.password == ""
    else listen.cipher != ""
  }

  // The credentials a scheme ends up with are usable.
  predicate SchemeOk(listen: Listen, raw: Protocol) {
    var scheme := listen.Inherit(raw);
    if scheme.kind == SHADOWSOCKS then scheme.cipher != "" && scheme.password != ""
    else scheme.password == "" || scheme.username != "" || (raw.password == "" && SharedForSS(listen))
  }

  predicate DistinctKinds(protocols: seq<Protocol>) {
    forall i, j :: 0 <= i < j < |protocols| ==> protocols[i].kind != protocols[j].kind
  }

  predicate ProtocolsOk(env: Env, listen: Listen) {
    && (forall i :: 0 <= i < |listen.protocols| ==> ProtocolOk(env, listen.protocols[i]))
    && DistinctKinds(listen.protocols)
    && (listen.Explicit() && listen.cipher != "" ==> exists p :: p in listen.protocols && p.kind == SHADOWSOCKS)
  }

  predicate AuthOk(env: Env, listen: Listen, proxy: bool) {
    && ':' !in listen.username
    && CipherOk(env, listen.cipher)
    && (!proxy ==> listen.username == "" && listen.cipher == "" && listen.protocols == [])
    && ProtocolsOk(env, listen)
    && (forall i :: 0 <= i < |listen.Entries()| ==> SchemeOk(listen, listen.Entries()[i]))
  }

  predicate ChannelOk(name: string) { '/' !in name && forall c :: c in name ==> !IsSpace(c) }

  predicate EndpointOk(virtual: string, host: string, port: uint32, way: seq<Node>) {
    virtual != "" ==> ChannelOk(virtual) && host == "" && port == 0 && way == []
  }

  predicate UrlOk(env: Env, url: string) { Trim(url) != "" && env.parses(url) && SchemeOf(url) != "" }

  predicate WayOk(env: Env, way: seq<Node>) {
    forall i :: 0 <= i < |way| ==> way[i] != [] && forall url :: url in way[i] ==> UrlOk(env, url)
  }

  predicate FieldsOk(env: Env, rule: Rule) {
    && rule.listen.port <= MAX_PORT && rule.forward.port <= MAX_PORT
    && (rule.forward.host != "" ==> !rule.forward.IsProxy())
    && AuthOk(env, rule.listen, rule.forward.IsProxy())
    && EndpointOk(rule.listen.virtual, rule.listen.host, rule.listen.port, rule.listen.way)
    && EndpointOk(rule.forward.virtual, rule.forward.host, rule.forward.port, rule.forward.way)
    && (rule.listen.virtual != "" ==> rule.listen.virtual != rule.forward.virtual)
    && WayOk(env, rule.listen.way) && WayOk(env, rule.forward.way)
  }

  predicate RuleOk(env: Env, rule: Rule) {
    Trim(rule.name) != "" && '/' !in rule.name && FieldsOk(env, rule)
  }

  // Enabled and bound on this machine to a fixed port or a channel.
  predicate Binds(rule: Rule) {
    !rule.disabled && !rule.listen.Remote() && (rule.listen.port != 0 || rule.listen.virtual != "")
  }

  predicate Clash(a: Rule, b: Rule) { Binds(a) && Binds(b) && a.listen.Address() == b.listen.Address() }

  predicate ClashesWebUI(rule: Rule, webUI: Address) {
    Binds(rule) && webUI.port != 0 && rule.listen.Address() == webUI.String()
  }

  // Rule i is fine by itself and beside every rule before it.
  predicate RuleOkAt(env: Env, conf: Config, i: nat)
    requires i < |conf.rules|
  {
    && RuleOk(env, conf.rules[i])
    && !ClashesWebUI(conf.rules[i], conf.webUI)
    && forall j :: 0 <= j < i ==> conf.rules[j].name != conf.rules[i].name && !Clash(conf.rules[j], conf.rules[i])
  }

  predicate ValidConfig(env: Env, conf: Config) {
    && conf.webUI.port <= MAX_PORT
    && forall i :: 0 <= i < |conf.rules| ==> RuleOkAt(env, conf, i)
  }

  // ------------------------------------------------------------------ the checks

  datatype AuthError =
    | UsernameColon
    | CipherUnsupported
    | OnlyForProxy(field: string)
    | UnknownType(index: nat)
    | DuplicateType(index: nat)
    | ProtocolUsernameColon(index: nat)
    | CipherOnlySS(index: nat)
    | ProtocolCipherUnsupported(index: nat)
    | CipherWithoutSS
    | CipherEmpty(index: nat)
    | PasswordEmpty(index: nat, own: bool)
    | PasswordWithoutUsername(index: nat, own: bool)

  // The reported defect is really there.
  predicate AuthExplains(env: Env, listen: Listen, proxy: bool, e: AuthError) {
    match e
    case UsernameColon => ':' in listen.username
    case CipherUnsupported => listen.cipher != "" && !env.isCipher(listen.cipher)
    case OnlyForProxy(field) =>
      !proxy && ((field == "username" && listen.username != "") || (field == "cipher" && listen.cipher != "")
                 || (field == "protocols" && listen.protocols != []))
    case UnknownType(i) => i < |listen.protocols| && listen.protocols[i].kind !in KNOWN_TYPES
    case DuplicateType(i) =>
      i < |listen.protocols| && exists j :: 0 <= j < i && listen.protocols[j].kind == listen.protocols[i].kind
    case ProtocolUsernameColon(i) => i < |listen.protocols| && ':' in listen.protocols[i].username
    case CipherOnlySS(i) =>
      i < |listen.protocols| && listen.protocols[i].cipher != "" && listen.protocols[i].kind != SHADOWSOCKS
    case ProtocolCipherUnsupported(i) =>
      i < |listen.protocols| && listen.protocols[i].cipher != "" && !env.isCipher(listen.protocols[i].cipher)
    case CipherWithoutSS =>
      listen.Explicit() && listen.cipher != "" && forall p :: p in listen.protocols ==> p.kind != SHADOWSOCKS
    case CipherEmpty(i) =>
      i < |listen.Schemes()| && listen.Schemes()[i].kind == SHADOWSOCKS && listen.Schemes()[i].cipher == ""
    case PasswordEmpty(i, own) =>
      i < |listen.Schemes()| && listen.Schemes()[i].kind == SHADOWSOCKS && listen.Schemes()[i].password == ""
      && (own <==> listen.Entries()[i].cipher != "")
    case PasswordWithoutUsername(i, own) =>
      i < |listen.Schemes()| && listen.Schemes()[i].kind != SHADOWSOCKS && listen.Schemes()[i].password != ""
      && listen.Schemes()[i].username == "" && (own <==> listen.Entries()[i].password != "")
      && (!own ==> !SharedForSS(listen))
  }

  // The fields of one stored protocol of a known type.
  function CheckProtocol(env: Env, listen: Listen, proxy: bool, i: nat): (err: Option<AuthError>)
    requires i < |listen.protocols| && listen.protocols[i].kind in KNOWN_TYPES
    ensures err.None? <==> ProtocolOk(env, listen.protocols[i])
    ensures err.Some? ==> AuthExplains(env, listen, proxy, err.value)
  {
    var p := listen.protocols[i];
    if ':' in p.username then Some(ProtocolUsernameColon(i))
    else if p.cipher != "" && p.kind != SHADOWSOCKS then Some(CipherOnlySS(i))
    else if p.cipher != "" && !env.isCipher(p.cipher) then Some(ProtocolCipherUnsupported(i))
    else None
  }

  // The first n stored protocols are fine, and types are their types.
  ghost predicate Passed(env: Env, listen: Listen, n: nat, types: set<string>)
    requires n <= |listen.protocols|
  {
    && (forall i :: 0 <= i < n ==> ProtocolOk(env, listen.protocols[i]) && listen.protocols[i].kind in types)
    && (forall t :: t in types ==> exists i :: 0 <= i < n && listen.protocols[i].kind == t)
    && (forall i, j :: 0 <= i < j < n ==> listen.protocols[i].kind != listen.protocols[j].kind)
  }

  lemma PassedMore(env: Env, listen: Listen, n: nat, types: set<string>)
    requires n < |listen.protocols| && Passed(env, listen, n, types)
    requires listen.protocols[n].kind !in types && ProtocolOk(env, listen.protocols[n])
    ensures Passed(env, listen, n + 1, types + {listen.protocols[n].kind})
  {
    hide ProtocolOk;
  }

  // The pass over the stored list, which also finds out whether the shared password serves ss.
  method ValidateProtocols(env: Env, listen: Listen, proxy: bool) returns (err: Option<AuthError>, sharedForSS: bool)
    ensures err.None? <==> ProtocolsOk(env, listen)
    ensures err.None? ==> sharedForSS == SharedForSS(listen)
    ensures err.Some? ==> AuthExplains(env, listen, proxy, err.value)
  {
    err := None;
    var isExplicit := |listen.protocols| != 0;
    sharedForSS := !isExplicit && listen.cipher != "";
    var types: set<string> := {};
    for index := 0 to |listen.protocols|
      invariant err.None? && Passed(env, listen, index, types)
      invariant sharedForSS <==>
                if isExplicit
                then exists i :: 0 <= i < index
                                 && listen.protocols[i].kind == SHADOWSOCKS && listen.protocols[i].password == ""
                else listen.cipher != ""
    {
      hide Passed;
      var protocol := listen.protocols[index];
      if protocol.kind !in KNOWN_TYPES {
        err := Some(UnknownType(index));
        return;
      }
      if protocol.kind in types {
        err := Some(DuplicateType(index));
        return;
      }
      err := CheckProtocol(env, listen, proxy, index);
      if err.Some? {
        return;
      }
      PassedMore(env, listen, index, types);
      types := types + {protocol.kind};
      if protocol.kind == SHADOWSOCKS && protocol.password == "" {
        sharedForSS := true;
      }
    }
    hide Passed, ProtocolsOk;
    if isExplicit && listen.cipher != "" && SHADOWSOCKS !in types {
      err := Some(CipherWithoutSS);
    }
  }

  // The pass over the served list.
  method ValidateSchemes(env: Env, listen: Listen, proxy: bool, sharedForSS: bool) returns (err: Option<AuthError>)
    requires sharedForSS == SharedForSS(listen)
    ensures err.None? <==> forall i :: 0 <= i < |listen.Entries()| ==> SchemeOk(listen, listen.Entries()[i])
    ensures err.Some? ==> AuthExplains(env, listen, proxy, err.value)
  {
    var schemes := FillSchemes(listen);
    for index := 0 to |schemes|
      invariant forall i :: 0 <= i < index ==> SchemeOk(listen, listen.Entries()[i])
    {
      var scheme := schemes[index];
      var raw := if |listen.protocols| != 0 then listen.protocols[index] else Protocol("", "", "", "");
      assert listen.Entries()[index].password == raw.password && listen.Entries()[index].cipher == raw.cipher;
      assert SchemeOk(listen, listen.Entries()[index]) <==>
             if scheme.kind == SHADOWSOCKS then scheme.cipher != "" && scheme.password != ""
             else scheme.password == "" || scheme.username != "" || (raw.password == "" && sharedForSS);
      if scheme.kind == SHADOWSOCKS {
        if scheme.cipher == "" {
          return Some(CipherEmpty(index));
        } else if scheme.password == "" {
          return Some(PasswordEmpty(index, raw.cipher != ""));
        }
      } else if scheme.password != "" && scheme.username == "" {
        if raw.password != "" {
          return Some(PasswordWithoutUsername(index, true));
        } else if !sharedForSS {
          return Some(PasswordWithoutUsername(index, false));
        }
      }
    }
    return None;
  }

  method ValidateListenAuth(env: Env, listen: Listen, proxy: bool) returns (err: Option<AuthError>)
    ensures err.None? <==> AuthOk(env, listen, proxy)
    ensures err.Some? ==> AuthExplains(env, listen, proxy, err.value)
  {
    if ':' in listen.username {
      return Some(UsernameColon);
    }
    if listen.cipher != "" && !env.isCipher(listen.cipher) {
      return Some(CipherUnsupported);
    }
    if !proxy {
      if listen.username != "" {
        return Some(OnlyForProxy("username"));
      } else if listen.cipher != "" {
        return Some(OnlyForProxy("cipher"));
      } else if |listen.protocols| != 0 {
        return Some(OnlyForProxy("protocols"));
      }
    }
    var sharedForSS;
    err, sharedForSS := ValidateProtocols(env, listen, proxy);
    if err.None? {
      err := ValidateSchemes(env, listen, proxy, sharedForSS);
    }
  }

  datatype EndpointError = BadChannel | WithHost | WithPort | WithWay

  predicate EndpointExplains(virtual: string, host: string, port: uint32, way: seq<Node>, e: EndpointError) {
    virtual != "" &&
    match e
    case BadChannel => !ChannelOk(virtual)
    case WithHost => host != ""
    case WithPort => port != 0
    case WithWay => way != []
  }

  function ValidateVirtual(virtual: string, host: string, port: uint32, way: seq<Node>): (err: Option<EndpointError>)
    ensures err.None? <==> EndpointOk(virtual, host, port, way)
    ensures err.Some? ==> EndpointExplains(virtual, host, port, way, err.value)
  {
    if virtual == "" then None
    else if (exists c :: c in virtual && IsSpace(c)) || '/' in virtual then Some(BadChannel)
    else if host != "" then Some(WithHost)
    else if port != 0 then Some(WithPort)
    else if |way| != 0 then Some(WithWay)
    else None
  }

  datatype WayError = NoUrl(node: nat) | EmptyUrl(node: nat) | InvalidUrl(node: nat, url: string)
    | NoScheme(node: nat, url: string)

  predicate WayExplains(env: Env, way: seq<Node>, e: WayError) {
    e.node < |way| &&
    match e
    case NoUrl(n) => way[n] == []
    case EmptyUrl(n) => exists url :: url in way[n] && Trim(url) == ""
    case InvalidUrl(n, url) => url in way[n] && !env.parses(url)
    case NoScheme(n, url) => url in way[n] && SchemeOf(url) == ""
  }

  method ValidateWay(env: Env, way: seq<Node>) returns (err: Option<WayError>)
    ensures err.None? <==> WayOk(env, way)
    ensures err.Some? ==> WayExplains(env, way, err.value)
  {
    for n := 0 to |way|
      invariant forall i :: 0 <= i < n ==> way[i] != [] && forall url :: url in way[i] ==> UrlOk(env, url)
    {
      var node := way[n];
      if |node| == 0 {
        return Some(NoUrl(n));
      }
      for k := 0 to |node|
        invariant forall i :: 0 <= i < k ==> UrlOk(env, node[i])
      {
        assert node[k] in way[n];
        if Trim(node[k]) == "" {
          return Some(EmptyUrl(n));
        }
        if !env.parses(node[k]) {
          return Some(InvalidUrl(n, node[k]));
        }
        if SchemeOf(node[k]) == "" {
          return Some(NoScheme(n, node[k]));
        }
      }
    }
    return None;
  }

  datatype RuleError =
    | NameEmpty
    | NameSlash
    | DuplicateName
    | ListenPort
    | ForwardPort
    | HostWithoutPort
    | Auth(auth: AuthError)
    | ListenVirtual(listenEndpoint: EndpointError)
    | ForwardVirtual(forwardEndpoint: EndpointError)
    | SelfLoop
    | ListenWay(listenWay: WayError)
    | ForwardWay(forwardWay: WayError)
    | AddressTaken(owner: string)
    | AddressWebUI

  datatype Error = NilConfig | WebUIPort | InRule(index: nat, why: RuleError)

  // The reported defect is really in the fields of the rule.
  predicate FieldExplains(env: Env, rule: Rule, e: RuleError) {
    var listen, forward := rule.listen, rule.forward;
    match e
    case ListenPort => listen.port > MAX_PORT
    case ForwardPort => forward.port > MAX_PORT
    case HostWithoutPort => forward.host != "" && forward.IsProxy()
    case Auth(x) => AuthExplains(env, listen, forward.IsProxy(), x)
    case ListenVirtual(x) => EndpointExplains(listen.virtual, listen.host, listen.port, listen.way, x)
    case ForwardVirtual(x) => EndpointExplains(forward.virtual, forward.host, forward.port, forward.way, x)
    case SelfLoop => listen.virtual != "" && listen.virtual == forward.virtual
    case ListenWay(x) => WayExplains(env, listen.way, x)
    case ForwardWay(x) => WayExplains(env, forward.way, x)
    case _ => false
  }

  // The reported defect is really in the rule or its name.
  predicate RuleExplains(env: Env, rule: Rule, names: set<string>, e: RuleError) {
    if e.NameEmpty? then Trim(rule.name) == ""
    else if e.NameSlash? then '/' in rule.name
    else if e.DuplicateName? then rule.name in names
    else FieldExplains(env, rule, e)
  }

  function NamesBefore(conf: Config, n: nat): set<string>
    requires n <= |conf.rules|
  {
    set j | 0 <= j < n :: conf.rules[j].name
  }

  // One of the first n rules, of that name, binds the address.
  predicate BoundBefore(conf: Config, n: nat, address: string, owner: string)
    requires n <= |conf.rules|
  {
    exists j :: 0 <= j < n && Binds(conf.rules[j]) && conf.rules[j].listen.Address() == address &&
        conf.rules[j].name == owner
  }

  // The reported defect is really in rule i beside the rules before it.
  predicate ExplainsAt(env: Env, conf: Config, i: nat, why: RuleError)
    requires i < |conf.rules|
  {
    if why.AddressTaken? then
      Binds(conf.rules[i]) && BoundBefore(conf, i, conf.rules[i].listen.Address(), why.owner)
    else if why.AddressWebUI? then ClashesWebUI(conf.rules[i], conf.webUI)
    else RuleExplains(env, conf.rules[i], NamesBefore(conf, i), why)
  }

  // The reported defect is really there, and no earlier rule has any.
  predicate Explains(env: Env, conf: Config, e: Error) {
    match e
    case NilConfig => false
    case WebUIPort => conf.webUI.port > MAX_PORT
    case InRule(i, why) =>
      i < |conf.rules| && (forall j :: 0 <= j < i ==> RuleOkAt(env, conf, j)) && ExplainsAt(env, conf, i, why)
  }

  // A rule that stands on its own.
  method ValidateFields(env: Env, rule: Rule) returns (err: Option<RuleError>)
    ensures err.None? <==> FieldsOk(env, rule)
    ensures err.Some? ==> FieldExplains(env, rule, err.value)
  {
    if rule.listen.port > MAX_PORT {
      return Some(ListenPort);
    }
    if rule.forward.port > MAX_PORT {
      return Some(ForwardPort);
    }
    if rule.forward.host != "" && rule.forward.IsProxy() {
      return Some(HostWithoutPort);
    }
    var auth := ValidateListenAuth(env, rule.listen, rule.forward.IsProxy());
    if auth.Some? {
      return Some(Auth(auth.value));
    }
    var listen := ValidateVirtual(rule.listen.virtual, rule.listen.host, rule.listen.port, rule.listen.way);
    if listen.Some? {
      return Some(ListenVirtual(listen.value));
    }
    var forward := ValidateVirtual(rule.forward.virtual, rule.forward.host, rule.forward.port, rule.forward.way);
    if forward.Some? {
      return Some(ForwardVirtual(forward.value));
    }
    if rule.listen.virtual != "" && rule.listen.virtual == rule.forward.virtual {
      return Some(SelfLoop);
    }
    var way := ValidateWay(env, rule.listen.way);
    if way.Some? {
      return Some(ListenWay(way.value));
    }
    way := ValidateWay(env, rule.forward.way);
    if way.Some? {
      return Some(ForwardWay(way.value));
    }
    return None;
  }

  // One rule beside the names taken by the rules before it.
  method ValidateRule(env: Env, rule: Rule, names: set<string>) returns (err: Option<RuleError>)
    ensures err.None? <==> RuleOk(env, rule) && rule.name !in names
    ensures err.Some? ==> RuleExplains(env, rule, names, err.value)
  {
    if Trim(rule.name) == "" {
      return Some(NameEmpty);
    }
    if '/' in rule.name {
      return Some(NameSlash);
    }
    if rule.name in names {
      return Some(DuplicateName);
    }
    err := ValidateFields(env, rule);
  }

  // The address bookkeeping: a clash with an earlier rule or the web UI.
  method ValidateAddress(conf: Config, index: nat, addresses: map<string, string>)
    returns (err: Option<RuleError>, updated: map<string, string>)
    requires index < |conf.rules|
    requires Bookkept(conf, index, addresses)
    ensures err.None? <==>
              !ClashesWebUI(conf.rules[index], conf.webUI) && forall j :: 0 <= j < index ==>
                !Clash(conf.rules[j], conf.rules[index])
    ensures err.None? ==> Bookkept(conf, index + 1, updated)
    ensures err.Some? ==>
              match err.value
              case AddressTaken(owner) => Binds(conf.rules[index]) &&
                BoundBefore(conf, index, conf.rules[index].listen.Address(), owner)
              case AddressWebUI => ClashesWebUI(conf.rules[index], conf.webUI)
              case _ => false
  {
    var rule := conf.rules[index];
    err, updated := None, addresses;
    if rule.disabled || rule.listen.Remote() || (rule.listen.port == 0 && rule.listen.virtual == "") {
      return;
    }
    var address := rule.listen.Address();
    if address in addresses {
      err := Some(AddressTaken(addresses[address]));
      return;
    }
    if conf.webUI.port != 0 && address == conf.webUI.String() {
      err := Some(AddressWebUI);
      return;
    }
    updated := addresses[address := rule.name];
  }

  // addresses names an owner for exactly the addresses the first n rules bind.
  predicate Bookkept(conf: Config, n: nat, addresses: map<string, string>)
    requires n <= |conf.rules|
  {
    && (forall i :: 0 <= i < n && Binds(conf.rules[i]) ==> conf.rules[i].listen.Address() in addresses)
    && (forall a :: a in addresses ==> BoundBefore(conf, n, a, addresses[a]))
  }

  // Rule index, given what the rules before it took.
  method ValidateAt(env: Env, conf: Config, index: nat, names: set<string>, addresses: map<string, string>)
    returns (err: Option<RuleError>, updated: map<string, string>)
    requires index < |conf.rules|
    requires names == NamesBefore(conf, index) && Bookkept(conf, index, addresses)
    ensures err.None? <==> RuleOkAt(env, conf, index)
    ensures err.None? ==> Bookkept(conf, index + 1, updated)
    ensures err.Some? ==> ExplainsAt(env, conf, index, err.value)
  {
    hide RuleOk, Clash, ClashesWebUI, Bookkept;
    updated := addresses;
    err := ValidateRule(env, conf.rules[index], names);
    if err.None? {
      err, updated := ValidateAddress(conf, index, addresses);
    }
  }

  // conf is None for a nil pointer.
  method Validate(env: Env, conf: Option<Config>) returns (err: Option<Error>)
    ensures err.None? <==> conf.Some? && ValidConfig(env, conf.value)
    ensures conf.None? ==> err == Some(NilConfig)
    ensures conf.Some? && err.Some? ==> Explains(env, conf.value, err.value)
  {
    hide RuleOkAt, ExplainsAt;
    if conf.None? {
      return Some(NilConfig);
    }
    var conf := conf.value;
    if conf.webUI.port > MAX_PORT {
      return Some(WebUIPort);
    }
    var names: set<string> := {};
    var addresses: map<string, string> := map[];
    for index := 0 to |conf.rules|
      invariant forall i :: 0 <= i < index ==> RuleOkAt(env, conf, i)
      invariant names == NamesBefore(conf, index)
      invariant Bookkept(conf, index, addresses)
    {
      var why;
      why, addresses := ValidateAt(env, conf, index, names, addresses);
      if why.Some? {
        return Some(InRule(index, why.value));
      }
      names := names + {conf.rules[index].name};
    }
    return None;
  }
}

/** The stored configuration: rules, their entry and exit, and the listen protocols they serve. */
module Config {
  import opened Text

  type uint32 = n: nat | n < 0x1_0000_0000

  // The alternative proxy URLs at one position of a chain.
  type Node = seq<string>

  const VIRTUAL_SCHEME := "virtual://"
  const MAX_PORT := 65535

  const HTTP := "http"
  const SOCKS5 := "socks5"
  const SOCKS4 := "socks4"
  const SSH := "ssh"
  const SHADOWSOCKS := "ss"

  // Served when no protocol is listed, plus Shadowsocks when the flat cipher is set.
  const DEFAULT_PROTOCOLS: seq<string> := [HTTP, SOCKS5, SOCKS4, SSH]
  const KNOWN_TYPES: set<string> := {HTTP, SOCKS5, SOCKS4, SSH, SHADOWSOCKS}

  // Like net.JoinHostPort: any host with a colon is bracketed.
  function JoinHostPort(host: string, port: string): string {
    (if ':' in host then "[" + host + "]" else host) + ":" + port
  }

  datatype Address = Address(host: string, port: uint32) {
    function String(): string {
      JoinHostPort(if host == "" then "127.0.0.1" else host, Decimal(port))
    }
  }

  function LocalAddress(host: string, port: uint32): string {
    Address(host, port).String()
  }

  // Absent JSON fields are the zero value of their type.
  datatype Protocol = Protocol(kind: string, username: string, password: string, cipher: string)

  datatype Listen = Listen(
    host: string, port: uint32, virtual: string, way: seq<Node>,
    username: string, password: string, cipher: string, protocols: seq<Protocol>)
  {
    function Address(): string {
      if virtual != "" then VIRTUAL_SCHEME + virtual else LocalAddress(host, port)
    }

    predicate Remote() { |way| > 0 }

    predicate Explicit() { protocols != [] }

    // The entries served, before credentials are filled in: those stored, or else the old default set.
    function Entries(): seq<Protocol> {
      if Explicit() then protocols
      else
        seq(|DEFAULT_PROTOCOLS|, i requires 0 <= i < |DEFAULT_PROTOCOLS| => Protocol(DEFAULT_PROTOCOLS[i], "", "", ""))
        + if cipher != "" then [Protocol(SHADOWSOCKS, "", "", "")] else []
    }

    // What an entry is served with: gaps in its credentials are filled from the pair of the whole
    // listener, and a Shadowsocks entry without a cipher takes the listener's.
    function Inherit(p: Protocol): Protocol {
      Protocol(
        p.kind,
        if p.username == "" then username else p.username,
        if p.password == "" then password else p.password,
        if p.kind == SHADOWSOCKS && p.cipher == "" then cipher else p.cipher)
    }

    // What the entry serves, in order.
    function Schemes(): seq<Protocol> {
      seq(|Entries()|, i requires 0 <= i < |Entries()| => Inherit(Entries()[i]))
    }
  }

  datatype Forward = Forward(host: string, port: uint32, virtual: string, way: seq<Node>) {
    predicate IsProxy() { port == 0 && virtual == "" }

    function Target(): string {
      if virtual != "" then VIRTUAL_SCHEME + virtual
      else if IsProxy() then ""
      else LocalAddress(host, port)
    }
  }

  // A target is an address or a channel, and only a proxy has none.
  lemma TargetIs(forward: Forward)
    ensures forward.Target() == "" <==> forward.IsProxy()
    ensures forward.virtual != "" ==> forward.Target() == VIRTUAL_SCHEME + forward.virtual
    ensures forward.virtual == "" && forward.port != 0 ==> forward.Target() == LocalAddress(forward.host, forward.port)
  {
  }

  datatype Rule = Rule(name: string, disabled: bool, listen: Listen, forward: Forward)

  datatype NoProxy = NoProxy(list: seq<string>, fromEnv: seq<string>, fromFile: seq<string>)

  datatype Config = Config(webUI: Address, rules: seq<Rule>, noProxy: NoProxy)

  // Filling the served list in place leaves the stored list untouched.
  method FillSchemes(listen: Listen) returns (schemes: seq<Protocol>)
    ensures schemes == listen.Schemes()
  {
    var protocols := listen.protocols;
    if |protocols| == 0 {
      for index := 0 to |DEFAULT_PROTOCOLS|
        invariant protocols == listen.Entries()[..index]
      {
        protocols := protocols + [Protocol(DEFAULT_PROTOCOLS[index], "", "", "")];
      }
      if listen.cipher != "" {
        protocols := protocols + [Protocol(SHADOWSOCKS, "", "", "")];
      }
    }
    assert protocols == listen.Entries();
    schemes := [];
    for index := 0 to |protocols|
      invariant schemes == listen.Schemes()[..index]
    {
      var protocol := protocols[index];
      if protocol.username == "" {
        protocol := protocol.(username := listen.username);
      }
      if protocol.password == "" {
        protocol := protocol.(password := listen.password);
      }
      if protocol.kind == SHADOWSOCKS && protocol.cipher == "" {
        protocol := protocol.(cipher := listen.cipher);
      }
      schemes := schemes + [protocol];
    }
  }
}

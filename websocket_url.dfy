/**
 * How the WebSocket socket adapter builds the address and the upgrade request
 * it opens: `scheme://host:port` followed by the path, and the custom headers
 * plus the MQTT sub-protocol header.
 */
module WebSocketUrl {

  newtype uint16 = x: int | 0 <= x < 0x1_0000

  const DefaultUri: string := "/mqtt"
  const ProtocolHeader: string := "Sec-WebSocket-Protocol"
  const MqttProtocol: string := "mqtt"

  /** An HTTP upgrade request: the address and its header fields. */
  datatype Request = Request(url: string, headers: map<string, string>)

  predicate IsDigit(c: char) { '0' <= c <= '9' }

  function DigitChar(d: nat): (c: char)
    requires d < 10
    ensures IsDigit(c) && c as int - '0' as int == d
  {
    ('0' as int + d) as char
  }

  /** The decimal text of `n`, as string interpolation writes an unsigned number. */
  function Decimal(n: nat): (s: string)
    ensures |s| >= 1
    ensures forall k :: 0 <= k < |s| ==> IsDigit(s[k])
    ensures s[0] == '0' ==> n == 0
    decreases n
  {
    if n < 10 then [DigitChar(n)] else Decimal(n / 10) + [DigitChar(n % 10)]
  }

  /** The number a string of decimal digits denotes. */
  function DigitsValue(s: string): nat
    requires forall k :: 0 <= k < |s| ==> IsDigit(s[k])
    decreases |s|
  {
    if s == [] then 0
    else
      assert IsDigit(s[|s| - 1]);
      DigitsValue(s[..|s| - 1]) * 10 + (s[|s| - 1] as int - '0' as int)
  }

  /** Reading back the decimal text of a number gives the number. */
  lemma {:induction false} DecimalRoundTrip(n: nat)
    ensures DigitsValue(Decimal(n)) == n
    decreases n
  {
    if n >= 10 {
      DecimalRoundTrip(n / 10);
      var s := Decimal(n / 10) + [DigitChar(n % 10)];
      assert s[..|s| - 1] == Decimal(n / 10);
    }
  }

  /** `wss` when TLS is enabled, `ws` otherwise. */
  function Scheme(enableSSL: bool): string
  {
    if enableSSL then "wss" else "ws"
  }

  /** The address `connect(toHost:onPort:)` hands to the URL parser. */
  function SocketUrl(enableSSL: bool, host: string, port: uint16, uri: string): (r: string)
    ensures var hostStart := |Scheme(enableSSL)| + 3;
      var portStart := hostStart + |host| + 1;
      && |r| == portStart + |Decimal(port as nat)| + |uri|
      && r[hostStart..portStart - 1] == host
      && r[portStart - 1] == ':'
      && r[portStart..|r| - |uri|] == Decimal(port as nat)
  {
    Scheme(enableSSL) + "://" + host + ":" + Decimal(port as nat) + uri
  }

  lemma PrefixOfAppend(a: string, b: string, k: nat)
    requires k <= |a|
    ensures (a + b)[..k] == a[..k]
  {
  }

  lemma SuffixOfAppend(a: string, b: string)
    ensures (a + b)[|a + b| - |b|..] == b
  {
  }

  /** The address starts with `wss://` exactly when TLS is enabled, and with `ws://`
      exactly when it is not; it ends with the path. */
  lemma SocketUrlScheme(enableSSL: bool, host: string, port: uint16, uri: string)
    ensures var u := SocketUrl(enableSSL, host, port, uri);
      && (|u| >= 6 && u[..6] == "wss://" <==> enableSSL)
      && (u[..5] == "ws://" <==> !enableSSL)
      && u[|u| - |uri|..] == uri
  {
    var lead := Scheme(enableSSL) + "://";
    var withHost := lead + host;
    var withColon := withHost + ":";
    var authority := withColon + Decimal(port as nat);
    var u := authority + uri;
    assert u == SocketUrl(enableSSL, host, port, uri);
    var k := |lead|;
    PrefixOfAppend(authority, uri, k);
    PrefixOfAppend(withColon, Decimal(port as nat), k);
    PrefixOfAppend(withHost, ":", k);
    PrefixOfAppend(lead, host, k);
    assert u[..k] == lead;
    SuffixOfAppend(authority, uri);
    if enableSSL {
      assert lead == "wss://";
      assert u[..5][2] == 's';
    } else {
      assert lead == "ws://";
      assert u[..5][2] == ':';
      assert |u| >= 6 ==> u[..6][2] == ':';
    }
  }

  /** For a fixed host and path the address determines both the TLS flag and the port. */
  lemma SocketUrlInjective(ssl1: bool, ssl2: bool, host: string, p1: uint16, p2: uint16, uri: string)
    requires SocketUrl(ssl1, host, p1, uri) == SocketUrl(ssl2, host, p2, uri)
    ensures ssl1 == ssl2 && p1 == p2
  {
    var u := SocketUrl(ssl1, host, p1, uri);
    SocketUrlScheme(ssl1, host, p1, uri);
    SocketUrlScheme(ssl2, host, p2, uri);
    var prefix := Scheme(ssl1) + "://" + host + ":";
    var d1, d2 := Decimal(p1 as nat), Decimal(p2 as nat);
    assert u == prefix + d1 + uri;
    assert u == prefix + d2 + uri;
    assert d1 == u[|prefix|..|u| - |uri|];
    assert d2 == u[|prefix|..|u| - |uri|];
    DecimalRoundTrip(p1 as nat);
    DecimalRoundTrip(p2 as nat);
  }

  /** `URLRequest.addValue`: a field set once takes the value; a field already set
      gets the value appended after a comma. */
  function AddValue(fields: map<string, string>, name: string, value: string): (r: map<string, string>)
    ensures r.Keys == fields.Keys + {name}
    ensures forall k :: k in fields && k != name ==> r[k] == fields[k]
    ensures name !in fields ==> r[name] == value
    ensures name in fields ==> r[name] == fields[name] + "," + value
  {
    if name in fields then fields[name := fields[name] + "," + value] else fields[name := value]
  }

  /** The header fields of the upgrade request: every custom header, then the MQTT
      sub-protocol, which is `mqtt` when no custom header sets it and otherwise the
      custom value with `,mqtt` after it. */
  function RequestHeaders(custom: map<string, string>): (r: map<string, string>)
    ensures r.Keys == custom.Keys + {ProtocolHeader}
    ensures forall k :: k in custom && k != ProtocolHeader ==> r[k] == custom[k]
    ensures ProtocolHeader !in custom ==> r[ProtocolHeader] == MqttProtocol
    ensures ProtocolHeader in custom ==> r[ProtocolHeader] == custom[ProtocolHeader] + "," + MqttProtocol
  {
    AddValue(custom, ProtocolHeader, MqttProtocol)
  }

  /** `configureWebSocket`: adds every custom header to the request, one at a time and
      in whatever order the dictionary yields them, then adds the sub-protocol. */
  method BuildRequest(url: string, custom: map<string, string>) returns (r: Request)
    ensures r.url == url
    ensures r.headers == RequestHeaders(custom)
  {
    var fields: map<string, string> := map[];
    var pending := custom.Keys;
    while pending != {}
      invariant pending <= custom.Keys
      invariant fields.Keys == custom.Keys - pending
      invariant forall k :: k in fields ==> fields[k] == custom[k]
      decreases pending
    {
      var key :| key in pending;
      fields := AddValue(fields, key, custom[key]);
      pending := pending - {key};
    }
    assert fields == custom;
    fields := AddValue(fields, ProtocolHeader, MqttProtocol);
    r := Request(url, fields);
  }
}

/** Properties of the VMess builder that relate several calls or fix concrete links. */
module VMessProperties {
  import opened Wrappers
  import opened Strings
  import opened Strconv
  import opened XrayConfig
  import opened VMess

  /** A port text that is the decimal text of an integer ends up as that integer in the vnext. */
  lemma NumericPort(q: VMessQrCode, n: int)
    requires q.port == FormatInt(n)
    ensures Outbound(q).Success?
    ensures Outbound(q).value.settings.value.vnext[0].port == n
  {
    AtoiFormatInt(n);
  }

  /** Whether a link builds at all depends on its port text alone. */
  lemma OnlyThePortCanFail(q1: VMessQrCode, q2: VMessQrCode)
    requires q1.port == q2.port
    ensures Outbound(q1).Success? <==> Outbound(q2).Success?
  {
  }

  /** The transport step reads only `net`, `type`, `host` and `path`. */
  lemma TransportReadsOnlyTransportFields(q1: VMessQrCode, q2: VMessQrCode)
    requires q1.net == q2.net && q1.headerType == q2.headerType
    requires q1.host == q2.host && q1.path == q2.path
    ensures TransportSettings(q1) == TransportSettings(q2)
  {
  }

  /** The SNI repair depends on the order of the steps: run on the finished transport it
      takes the websocket host; run on a record that only names the network, it cannot. */
  lemma SecurityMustFollowTransport(q: VMessQrCode)
    requires q.net == "ws" && q.sni == "" && q.host != "" && q.tls == "tls"
    ensures StreamSettingsOf(q).tlsSettings.value.serverName == q.host
    ensures ApplySecurity(q, EmptyStreamSettings.(network := "ws")).tlsSettings.value.serverName == ""
  {
  }

  /** Network names match exactly: `WS` is not `ws`, is kept as it is, and selects nothing. */
  lemma NetworkMatchIsCaseSensitive(q: VMessQrCode)
    requires q.net == "WS"
    ensures TransportSettings(q).network == "WS"
    ensures TransportSettings(q).TransportCount() == 0
  {
  }

  /** Plain tcp, or tcp with a header type other than `http`, fills no transport variant. */
  lemma PlainTcpHasNoSettings(q: VMessQrCode)
    requires q.net in {"", "tcp"} && q.headerType != "http"
    ensures TransportSettings(q).network == "tcp"
    ensures TransportSettings(q).TransportCount() == 0
  {
  }

  /** Comma-splitting keeps order and empty segments: `/a,,/b` becomes three paths. */
  lemma TcpHttpPathsKeepEmptySegments(q: VMessQrCode)
    requires q.net == "tcp" && q.headerType == "http" && q.path == "/a,,/b"
    ensures TransportSettings(q).tcpSettings.value.header.value.request.value.path == Some(["/a", "", "/b"])
  {
    SplitWithoutSep("/b", ',');
    SplitAfterSegment("", "/b", ',');
    assert "" + [','] + "/b" == ",/b";
    SplitAfterSegment("/a", ",/b", ',');
    assert "/a" + [','] + ",/b" == "/a,,/b";
    assert Split("/a,,/b", ',') == ["/a"] + ([""] + ["/b"]) == ["/a", "", "/b"];
  }

  /** A whole websocket-over-TLS link whose SNI is left empty. */
  lemma WebsocketTlsLink(q: VMessQrCode)
    requires q == VMessQrCode("", "1.2.3.4", "443", "u-1", "auto", "ws", "", "cdn.example.com",
                              "/ray", "tls", "", "", "")
    ensures Outbound(q) == Success(XrayOutbound("vmess", "",
      Some(VMessSettings([VMessVnext("1.2.3.4", 443, [VMessUser("u-1", "auto")])])),
      Some(StreamSettings("ws", "tls", None, None,
                          Some(WsSettings("/ray", Some(WsHeaders("cdn.example.com")))),
                          None, None, None,
                          Some(TlsSettings("cdn.example.com", "", None))))))
  {
    AtoiFormatInt(443);
    assert FormatInt(443) == "443";
    var transport := EmptyStreamSettings.(network := "ws",
                                          wsSettings := Some(WsSettings("/ray", Some(WsHeaders("cdn.example.com")))));
    assert TransportSettings(q) == transport;
    assert SniFallback(q, transport);
  }
}

/** The VMess share-link builder: a decoded link descriptor becomes an outbound
    configuration in three steps: identity and port, transport, then security. */
module VMess {
  import opened Wrappers
  import opened Strings
  import opened Strconv
  import opened XrayConfig

  /** The decoded share-link descriptor. `port` is the text `%v` makes of the JSON value;
      `headerType` is the link's `type` key. */
  datatype VMessQrCode = VMessQrCode(
    ps: string,
    add: string,
    port: string,
    id: string,
    scy: string,
    net: string,
    headerType: string,
    host: string,
    path: string,
    tls: string,
    sni: string,
    alpn: string,
    fp: string)

  datatype Error =
    | JsonDecodeError(message: string)  // the link text was not a JSON descriptor
    | AtoiSyntaxError(num: string)      // strconv.Atoi rejected the port text

  // ---------------------------------------------------------------- transport

  /** The transport kind: `tcp` when the link names none, otherwise the link's value as it is,
      recognised or not. */
  function Network(q: VMessQrCode): (network: string)
    ensures network != ""
    ensures q.net != "" ==> network == q.net
    ensures q.net == "" ==> network == "tcp"
  {
    if |q.net| == 0 then "tcp" else q.net
  }

  /** tcp: an HTTP disguise header only when the header type is exactly `http`; paths and
      hosts are comma-split, and each list is present only when its text is non-empty. */
  function TcpSettingsFor(q: VMessQrCode): (t: Option<TcpSettings>)
    ensures t.Some? <==> q.headerType == "http"
    ensures t.Some? ==>
      && t.value.header.Some?
      && t.value.header.value.headerType == "http"
      && t.value.header.value.request.Some?
    ensures t.Some? ==>
      var request := t.value.header.value.request.value;
      && (request.path.Some? <==> q.path != "")
      && (request.path.Some? ==> request.path.value == Split(q.path, ',') && Join(request.path.value, ',') == q.path)
      && (request.headers.Some? <==> q.host != "")
      && (request.headers.Some? ==> request.headers.value.host.Some?)
      && (request.headers.Some? ==>
            request.headers.value.host.value == Split(q.host, ',')
            && Join(request.headers.value.host.value, ',') == q.host)
  {
    if q.headerType == "http" then
      JoinSplit(q.path, ',');
      JoinSplit(q.host, ',');
      var path := if |q.path| > 0 then Some(Split(q.path, ',')) else None;
      var headers := if |q.host| > 0 then Some(TcpRequestHeaders(Some(Split(q.host, ',')))) else None;
      Some(TcpSettings(Some(TcpHeader(q.headerType, Some(TcpHeaderRequest(path, headers))))))
    else
      None
  }

  /** kcp: a fake header only for a non-empty header type; the seed is the path, unsplit. */
  function KcpSettingsFor(q: VMessQrCode): (k: KcpSettings)
    ensures k.header.Some? <==> q.headerType != ""
    ensures k.header.Some? ==> k.header.value.headerType == q.headerType
    ensures k.seed == q.path
  {
    var header := if |q.headerType| > 0 then Some(FakeHeader(q.headerType)) else None;
    KcpSettings(header, q.path)
  }

  /** ws: the path as it is; a Host header only for a non-empty host, and then unsplit. */
  function WsSettingsFor(q: VMessQrCode): (w: WsSettings)
    ensures w.path == q.path
    ensures w.headers.Some? <==> q.host != ""
    ensures w.headers.Some? ==> w.headers.value.host == q.host
  {
    var headers := if |q.host| > 0 then Some(WsHeaders(q.host)) else None;
    WsSettings(q.path, headers)
  }

  /** grpc: the service name is the path; multi mode exactly when the header type is `multi`. */
  function GrpcSettingsFor(q: VMessQrCode): (g: GrpcSettings)
    ensures g.serviceName == q.path
    ensures g.multiMode <==> q.headerType == "multi"
  {
    GrpcSettings(q.path, q.headerType == "multi")
  }

  /** quic: a fake header only for a non-empty header type; the host names the encryption
      method and the path is the key. */
  function QuicSettingsFor(q: VMessQrCode): (u: QuicSettings)
    ensures u.header.Some? <==> q.headerType != ""
    ensures u.header.Some? ==> u.header.value.headerType == q.headerType
    ensures u.security == q.host && u.key == q.path
  {
    var header := if |q.headerType| > 0 then Some(FakeHeader(q.headerType)) else None;
    QuicSettings(header, q.host, q.path)
  }

  /** http (h2): the host list is always the comma-split of the host, so an empty host gives
      the one-element list `[""]`; the path is taken as it is. */
  function HttpSettingsFor(q: VMessQrCode): (h: HttpSettings)
    ensures h.host.Some? && |h.host.value| >= 1
    ensures h.host.value == Split(q.host, ',')
    ensures Join(h.host.value, ',') == q.host
    ensures q.host == "" ==> h.host.value == [""]
    ensures h.path == q.path
  {
    JoinSplit(q.host, ',');
    HttpSettings(Some(Split(q.host, ',')), q.path)
  }

  /** The transport half of stream settings: the network, and at most one transport variant,
      the one the network names (matched exactly and case-sensitively). Security and TLS are
      still at their zero values. */
  function TransportSettings(q: VMessQrCode): (r: StreamSettings)
    ensures r.network == Network(q)
    ensures r.security == "" && r.tlsSettings.None?
    ensures r.TransportCount() <= 1
    ensures r.tcpSettings.Some? <==> r.network == "tcp" && q.headerType == "http"
    ensures r.kcpSettings.Some? <==> r.network == "kcp"
    ensures r.wsSettings.Some? <==> r.network == "ws"
    ensures r.grpcSettings.Some? <==> r.network == "grpc"
    ensures r.quicSettings.Some? <==> r.network == "quic"
    ensures r.httpSettings.Some? <==> r.network == "http"
    ensures r.network !in {"tcp", "kcp", "ws", "grpc", "quic", "http"} ==> r.TransportCount() == 0
    ensures r.tcpSettings.Some? ==> Some(r.tcpSettings.value) == TcpSettingsFor(q)
    ensures r.kcpSettings.Some? ==> r.kcpSettings.value == KcpSettingsFor(q)
    ensures r.wsSettings.Some? ==> r.wsSettings.value == WsSettingsFor(q)
    ensures r.grpcSettings.Some? ==> r.grpcSettings.value == GrpcSettingsFor(q)
    ensures r.quicSettings.Some? ==> r.quicSettings.value == QuicSettingsFor(q)
    ensures r.httpSettings.Some? ==> r.httpSettings.value == HttpSettingsFor(q)
  {
    var base := EmptyStreamSettings.(network := Network(q));
    match base.network
    case "tcp" => base.(tcpSettings := TcpSettingsFor(q))
    case "kcp" => base.(kcpSettings := Some(KcpSettingsFor(q)))
    case "ws" => base.(wsSettings := Some(WsSettingsFor(q)))
    case "grpc" => base.(grpcSettings := Some(GrpcSettingsFor(q)))
    case "quic" => base.(quicSettings := Some(QuicSettingsFor(q)))
    case "http" => base.(httpSettings := Some(HttpSettingsFor(q)))
    case _ => base
  }

  // ---------------------------------------------------------------- security

  /** The security tag: `none` when the link leaves it empty, otherwise its value unchecked. */
  function SecurityTag(q: VMessQrCode): (tag: string)
    ensures tag != ""
    ensures q.tls != "" ==> tag == q.tls
    ensures q.tls == "" ==> tag == "none"
  {
    if |q.tls| == 0 then "none" else q.tls
  }

  /** The websocket compatibility repair applies: the network is `ws`, the link gives no SNI,
      and the transport step attached a websocket Host header. */
  predicate SniFallback(q: VMessQrCode, ss: StreamSettings)
  {
    ss.network == "ws" && q.sni == "" && ss.wsSettings.Some? && ss.wsSettings.value.headers.Some?
  }

  /** The security step on a stream-settings value: it sets the security tag and, for `tls`
      only, a TLS block; the server name falls back to the websocket Host already present in
      `ss`. Every other field of `ss` is left as it was. */
  function ApplySecurity(q: VMessQrCode, ss: StreamSettings): (r: StreamSettings)
    ensures r.(security := ss.security, tlsSettings := ss.tlsSettings) == ss
    ensures r.security == SecurityTag(q)
    ensures r.security != "tls" ==> r.tlsSettings == ss.tlsSettings
    ensures r.security == "tls" ==>
      && r.tlsSettings.Some?
      && r.tlsSettings.value.fingerprint == q.fp
      && (r.tlsSettings.value.alpn.Some? <==> q.alpn != "")
      && (r.tlsSettings.value.alpn.Some? ==>
            r.tlsSettings.value.alpn.value == Split(q.alpn, ',')
            && Join(r.tlsSettings.value.alpn.value, ',') == q.alpn)
    ensures r.security == "tls" && SniFallback(q, ss) ==>
      r.tlsSettings.value.serverName == ss.wsSettings.value.headers.value.host
    ensures r.security == "tls" && !SniFallback(q, ss) ==> r.tlsSettings.value.serverName == q.sni
  {
    JoinSplit(q.alpn, ',');
    var alpn := if |q.alpn| > 0 then Some(Split(q.alpn, ',')) else None;
    var serverName := if SniFallback(q, ss) then ss.wsSettings.value.headers.value.host else q.sni;
    var security := SecurityTag(q);
    ss.(security := security,
        tlsSettings := if security == "tls" then Some(TlsSettings(serverName, q.fp, alpn)) else ss.tlsSettings)
  }

  /** The finished stream settings: the transport step, then the security step over its
      output. In descriptor terms: a TLS block exactly when the tag is `tls`, and for `ws` with
      an empty SNI and a non-empty host, the host becomes the TLS server name. */
  function StreamSettingsOf(q: VMessQrCode): (r: StreamSettings)
    ensures r.(security := "", tlsSettings := None) == TransportSettings(q)
    ensures r.TransportCount() <= 1
    ensures r.security == SecurityTag(q)
    ensures r.tlsSettings.Some? <==> r.security == "tls"
    ensures r.tlsSettings.Some? ==>
      r.tlsSettings.value.serverName
        == if Network(q) == "ws" && q.sni == "" && q.host != "" then q.host else q.sni
  {
    ApplySecurity(q, TransportSettings(q))
  }

  /** The in-place form of the stream-settings struct the security step receives by pointer. */
  class MutableStreamSettings {
    var network: string
    var security: string
    var tcpSettings: Option<TcpSettings>
    var kcpSettings: Option<KcpSettings>
    var wsSettings: Option<WsSettings>
    var grpcSettings: Option<GrpcSettings>
    var quicSettings: Option<QuicSettings>
    var httpSettings: Option<HttpSettings>
    var tlsSettings: Option<TlsSettings>

    /** The record the fields currently hold. */
    function Value(): StreamSettings
      reads this
    {
      StreamSettings(network, security, tcpSettings, kcpSettings, wsSettings,
                     grpcSettings, quicSettings, httpSettings, tlsSettings)
    }

    constructor (v: StreamSettings)
      ensures Value() == v
    {
      network, security := v.network, v.security;
      tcpSettings, kcpSettings, wsSettings := v.tcpSettings, v.kcpSettings, v.wsSettings;
      grpcSettings, quicSettings, httpSettings := v.grpcSettings, v.quicSettings, v.httpSettings;
      tlsSettings := v.tlsSettings;
    }

    /** `parseSecurity`: updates `security` and, for `tls`, `tlsSettings` in place, reading
        the websocket settings an earlier step wrote. */
    method ParseSecurity(q: VMessQrCode)
      modifies this
      ensures Value() == ApplySecurity(q, old(Value()))
    {
      var tls := TlsSettings(q.sni, q.fp, None);
      if |q.alpn| > 0 {
        tls := tls.(alpn := Some(Split(q.alpn, ',')));
      }
      if |q.tls| == 0 {
        security := "none";
      } else {
        security := q.tls;
      }
      if network == "ws" && |tls.serverName| == 0 {
        if wsSettings.Some? && wsSettings.value.headers.Some? {
          tls := tls.(serverName := wsSettings.value.headers.value.host);
        }
      }
      if security == "tls" {
        tlsSettings := Some(tls);
      }
    }
  }

  /** `streamSettings`: fills a fresh record with the transport step, then hands it to the
      security step, which updates it in place. */
  method BuildStreamSettings(q: VMessQrCode) returns (s: MutableStreamSettings)
    ensures fresh(s)
    ensures s.Value() == StreamSettingsOf(q)
  {
    s := new MutableStreamSettings(TransportSettings(q));
    s.ParseSecurity(q);
  }

  // ---------------------------------------------------------------- outbound

  /** `outbound`: protocol `vmess`, the link's name, exactly one vnext holding exactly one
      user, all copied as they are. A port text `Atoi` rejects is the one failure, and then no
      outbound is built at all. */
  function Outbound(q: VMessQrCode): (r: Result<XrayOutbound, Error>)
    ensures r.Failure? <==> !IsIntegerText(q.port)
    ensures r.Failure? ==> r.error == AtoiSyntaxError(q.port)
    ensures r.Success? ==>
      && r.value.protocol == "vmess"
      && r.value.name == q.ps
      && r.value.settings.Some?
      && |r.value.settings.value.vnext| == 1
      && r.value.settings.value.vnext[0].address == q.add
      && Some(r.value.settings.value.vnext[0].port) == Atoi(q.port)
      && r.value.settings.value.vnext[0].users == [VMessUser(q.id, q.scy)]
      && r.value.streamSettings == Some(StreamSettingsOf(q))
  {
    match Atoi(q.port)
    case None => Failure(AtoiSyntaxError(q.port))
    case Some(port) =>
      var user := VMessUser(q.id, q.scy);
      var vnext := VMessVnext(q.add, port, [user]);
      Success(XrayOutbound("vmess", q.ps, Some(VMessSettings([vnext])), Some(StreamSettingsOf(q))))
  }

  /** `parseVMessQrCode`: a descriptor the JSON decoder rejected is reported as that error;
      a decoded one goes to `Outbound`. */
  function ParseVMessQrCode(decoded: Result<VMessQrCode, string>): (r: Result<XrayOutbound, Error>)
    ensures decoded.Failure? ==> r == Failure(JsonDecodeError(decoded.error))
    ensures decoded.Success? ==> r == Outbound(decoded.value)
  {
    match decoded
    case Failure(message) => Failure(JsonDecodeError(message))
    case Success(q) => Outbound(q)
  }
}

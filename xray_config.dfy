/** The outbound-configuration records the VMess builder fills, restricted to the fields it
    touches. Go pointers and slices that may be nil are `Option`s; `headerType` is the JSON
    `type` key. */
module XrayConfig {
  import opened Wrappers

  datatype VMessUser = VMessUser(id: string, security: string)

  datatype VMessVnext = VMessVnext(address: string, port: int, users: seq<VMessUser>)

  /** The protocol settings serialised into the outbound's `settings` field. */
  datatype VMessSettings = VMessSettings(vnext: seq<VMessVnext>)

  datatype TcpRequestHeaders = TcpRequestHeaders(host: Option<seq<string>>)

  datatype TcpHeaderRequest = TcpHeaderRequest(path: Option<seq<string>>, headers: Option<TcpRequestHeaders>)

  datatype TcpHeader = TcpHeader(headerType: string, request: Option<TcpHeaderRequest>)

  datatype TcpSettings = TcpSettings(header: Option<TcpHeader>)

  /** The obfuscation header shared by kcp and quic. */
  datatype FakeHeader = FakeHeader(headerType: string)

  datatype KcpSettings = KcpSettings(header: Option<FakeHeader>, seed: string)

  datatype WsHeaders = WsHeaders(host: string)

  datatype WsSettings = WsSettings(path: string, headers: Option<WsHeaders>)

  datatype GrpcSettings = GrpcSettings(serviceName: string, multiMode: bool)

  datatype QuicSettings = QuicSettings(header: Option<FakeHeader>, security: string, key: string)

  datatype HttpSettings = HttpSettings(host: Option<seq<string>>, path: string)

  datatype TlsSettings = TlsSettings(serverName: string, fingerprint: string, alpn: Option<seq<string>>)

  datatype StreamSettings = StreamSettings(
    network: string,
    security: string,
    tcpSettings: Option<TcpSettings>,
    kcpSettings: Option<KcpSettings>,
    wsSettings: Option<WsSettings>,
    grpcSettings: Option<GrpcSettings>,
    quicSettings: Option<QuicSettings>,
    httpSettings: Option<HttpSettings>,
    tlsSettings: Option<TlsSettings>)
  {
    /** How many transport-specific variants are present. */
    function TransportCount(): nat
    {
      (if tcpSettings.Some? then 1 else 0) + (if kcpSettings.Some? then 1 else 0)
      + (if wsSettings.Some? then 1 else 0) + (if grpcSettings.Some? then 1 else 0)
      + (if quicSettings.Some? then 1 else 0) + (if httpSettings.Some? then 1 else 0)
    }
  }

  /** Go's zero value of the stream-settings struct. */
  const EmptyStreamSettings: StreamSettings :=
    StreamSettings("", "", None, None, None, None, None, None, None)

  datatype XrayOutbound = XrayOutbound(
    protocol: string,
    name: string,
    settings: Option<VMessSettings>,
    streamSettings: Option<StreamSettings>)
}

# VMess share-link outbound builder, in Dafny

This project models how a decoded VMess share-link descriptor (`vmessQrCode`) becomes an
Xray outbound configuration, and proves what that mapping guarantees. The builder runs three
steps in a fixed order:

1. **Identity** (`outbound`): protocol `vmess`, the link's name, exactly one vnext with
   exactly one user, and the port text parsed by `strconv.Atoi`, which is the only way the
   build can fail.
2. **Transport** (`streamSettings`): the network defaults to `tcp`. A switch on the network
   string fills at most one of the tcp/kcp/ws/grpc/quic/http settings.
3. **Security** (`parseSecurity`): sets the security tag and, for `tls` only, a TLS block. It
   works in place on the stream-settings record the transport step built, and it reads that
   record's websocket Host to fill in a missing SNI.

Files:

- `wrappers.dfy` (`Wrappers`): `Option` for Go's nil pointers and slices, and `Result` for
  `(value, error)` returns.
- `strings.dfy` (`Strings`): Go's `strings.Split` on a one-character separator, and `Join`.
  Two round-trip lemmas show they are inverses.
- `strconv.dfy` (`Strconv`): `Atoi` as a function on the port text, with decimal formatting as
  its partner and a round-trip lemma between them.
- `xray_config.dfy` (`XrayConfig`): the output records. Only the fields the builder touches
  are modelled.
- `vmess.dfy` (`VMess`): the descriptor, the three steps as specification functions, and the
  in-place security step. The in-place step is a class `MutableStreamSettings` with method
  `ParseSecurity`, driven by `BuildStreamSettings`.
- `vmess_properties.dfy` (`VMessProperties`): lemmas that relate several calls, plus concrete
  links.

The code's behaviour, which the model follows:

- The network keeps a non-empty `Net` as it is (nodep/vmess.go:78) and is matched exactly and
  case-sensitively (nodep/vmess.go:81). An unrecognised network selects no variant.
- Plain `tcp` without header type `http` has no tcp settings (nodep/vmess.go:82-104), so at
  most one variant is present, not always exactly one.
- The security tag is the link's `tls` value, unchecked (nodep/vmess.go:171-176), so it is not
  always `none` or `tls`.
- The port only has to parse as an integer (nodep/vmess.go:50). Zero and negative values are
  accepted.

## Model

| member | source | states |
|---|---|---|
| `VMess.Outbound` | nodep/vmess.go:38-70 | fails exactly when the port text is not an integer, with an Atoi error carrying that text and nothing partial; otherwise protocol `vmess`, name = `Ps`, one vnext with address `Add` and port = Atoi(port), one user (`Id`, `Scy`) copied verbatim, and the full stream settings |
| `VMess.ParseVMessQrCode` | nodep/vmess.go:26-36 | a decoder failure is returned as a JSON error without building anything; a decoded descriptor goes to `Outbound` |
| `VMess.Network` | nodep/vmess.go:73-79 | network is never empty: `tcp` for an empty `Net`, otherwise `Net` verbatim |
| `VMess.TcpSettingsFor` | nodep/vmess.go:82-104 | tcp settings exist iff type is exactly `http`; then header type `http`, request paths present iff `Path` non-empty and then its comma-split, which rejoins to `Path`; Host headers present iff `Host` non-empty and then its comma-split, which rejoins to `Host` |
| `VMess.KcpSettingsFor` | nodep/vmess.go:105-115 | fake header present iff type non-empty, carrying the type; seed = `Path` unsplit |
| `VMess.WsSettingsFor` | nodep/vmess.go:116-126 | path = `Path`; headers present iff `Host` non-empty, with Host = `Host` unsplit |
| `VMess.GrpcSettingsFor` | nodep/vmess.go:127-133 | service name = `Path`; multi mode iff type is exactly `multi` |
| `VMess.QuicSettingsFor` | nodep/vmess.go:134-145 | fake header present iff type non-empty; security = `Host`, key = `Path` |
| `VMess.HttpSettingsFor` | nodep/vmess.go:146-152 | host list always present and equal to the comma-split of `Host`, so non-empty, rejoining to `Host`, and `[""]` for an empty host; path = `Path` |
| `VMess.TransportSettings` | nodep/vmess.go:72-153 | at most one variant, and the one present is the one the network names by exact match; an unknown network or tcp without `http` leaves all absent; security and TLS still zero |
| `VMess.SecurityTag` | nodep/vmess.go:171-176 | tag is never empty: `none` for an empty `Tls`, otherwise `Tls` verbatim |
| `VMess.ApplySecurity` | nodep/vmess.go:160-189 | only security and TLS change; a TLS block is attached iff the tag is `tls`, with fingerprint `Fp` and ALPN present iff `Alpn` non-empty as its comma-split; server name is the ws Host when network is `ws`, `Sni` is empty and ws headers exist, and `Sni` otherwise |
| `VMess.MutableStreamSettings.ParseSecurity` | nodep/vmess.go:160-189 | the in-place update leaves the record equal to `ApplySecurity` of its previous value |
| `VMess.BuildStreamSettings` | nodep/vmess.go:72-158 | a fresh record filled by the transport step and then updated in place by the security step equals `StreamSettingsOf` |
| `VMess.StreamSettingsOf` | nodep/vmess.go:155-157 | transport fields as `TransportSettings`; TLS block present iff security is `tls`; its server name is `Host` for ws with empty `Sni` and non-empty `Host`, else `Sni` |
| `Strings.Split` | nodep/vmess.go:88 | `strings.Split` never returns an empty list |
| `Strings.JoinSplit` | nodep/vmess.go:93 | rejoining the comma-split gives back the original text, so order and empty segments are kept |
| `Strings.SplitSegmentsHaveNoSep` | nodep/vmess.go:168 | no segment of a split contains the separator |
| `Strings.SplitJoin` | nodep/vmess.go:149 | a non-empty list of separator-free segments is recovered by splitting its join |
| `Strconv.AtoiFormatInt` | nodep/vmess.go:50 | Atoi reads back the decimal rendering of every integer |
| `VMessProperties.NumericPort` | nodep/vmess.go:49-54 | a port text that is the decimal text of an integer builds, with exactly that vnext port |
| `VMessProperties.OnlyThePortCanFail` | nodep/vmess.go:50-53 | success or failure depends on the port text alone |
| `VMessProperties.TransportReadsOnlyTransportFields` | nodep/vmess.go:72-153 | the transport step depends only on `Net`, `Type`, `Host`, `Path` |
| `VMessProperties.SecurityMustFollowTransport` | nodep/vmess.go:155 | the SNI repair needs the transport step first: after it, the ws Host becomes the server name; on a record with only the network set, the server name stays empty |
| `VMessProperties.NetworkMatchIsCaseSensitive` | nodep/vmess.go:81 | `WS` is kept as the network and selects no variant |
| `VMessProperties.PlainTcpHasNoSettings` | nodep/vmess.go:82-84 | tcp (explicit or default) without type `http` has no transport variant |
| `VMessProperties.TcpHttpPathsKeepEmptySegments` | nodep/vmess.go:86-89 | `/a,,/b` becomes the three paths `/a`, the empty path and `/b` |
| `VMessProperties.WebsocketTlsLink` | nodep/vmess.go:38-189 | a complete ws+tls link with an empty SNI builds the expected outbound, with the ws Host as TLS server name |

## Left out

- JSON decoding of the link text (nodep/vmess.go:30). The decoded descriptor is the input, and `ParseVMessQrCode` takes the decoder's outcome as a `Result`.
- JSON marshalling of the vnext settings into a raw message (nodep/vmess.go:61-65). The settings stay a structured value, and the marshal error cannot occur for these records.
- The dynamic type of `Port` and its `%v` formatting (nodep/vmess.go:13, 49). This includes float rendering of JSON numbers and `<nil>` for a missing port. The port is its formatted text.
- VMess.Outbound: does not model the range error `strconv.Atoi` gives for values outside Go's platform `int`; such ports parse here as unbounded integers.
- The outbound holds the stream settings as a value, not as a pointer to the record the security step updated. Nothing else holds that pointer, so no aliasing is lost.
- Fields of the Xray records that this builder never sets, and how the proxy engine serialises or uses the result.

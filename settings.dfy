/** The configuration records of the proxy (HostMapping.cs, QuicSettings.cs,
    CertValidationSettings.cs, ServerConfig.cs). They carry no logic; a C#
    property declared nullable (`T?`) is an `Option` here. */
module Settings {
  import opened Common

  /** The backend transport. Every value other than `Quic` takes the TCP path. */
  datatype ProtocolType = Quic | Tcp

  datatype QuicSettings = QuicSettings(
    alpn: string,
    defaultCloseErrorCode: uint32,
    defaultStreamErrorCode: uint32,
    handshakeTimeoutInSeconds: int32,
    idleTimeoutInSeconds: int32)

  /** The client-certificate trust policy of one host. Only the root
      thumbprint takes part in any decision; the tenant and group identifiers
      are carried but never read. */
  datatype CertValidationSettings = CertValidationSettings(
    rootCAThumbprint: string,
    entraTenantId: string,
    entraGroupIds: set<string>)

  /** One routing-table entry: where the backend of `hostName` lives and how
      to reach it. */
  datatype HostMapping = HostMapping(
    hostName: string,
    internalServerIp: string,
    internalServerPort: int32,
    certValidationSettings: CertValidationSettings,
    quicSettings: Option<QuicSettings>,
    internalServerProtocolType: ProtocolType)

  /** One entry of the `servers` list of the configuration file. */
  datatype ServerConfig = ServerConfig(
    hostName: string,
    ipAddress: string,
    port: int32,
    certPath: string,
    protocolType: ProtocolType,
    certValidationSettings: CertValidationSettings,
    quicSettings: Option<QuicSettings>)

  /** The whole configuration file. */
  datatype Config = Config(
    alpnList: seq<string>,
    ipAddress: string,
    port: int32,
    servers: seq<ServerConfig>)

  /** A server certificate with its private key, identified by the file it
      was loaded from (loading itself is outside the model). */
  datatype Certificate = CertificateFromFile(path: string)
}

/** The routing table (HostResolver.cs): a dictionary from host name to
    HostMapping, filled at startup and read for every handshake and every
    accepted connection. */
module Routing {
  import opened Common
  import opened Settings

  class HostResolver {
    /** `_hostMappings`, a Dictionary with the default (ordinal,
        case-sensitive) string comparer: keys match only when they are the
        same sequence of characters. */
    var hostMappings: map<string, HostMapping>

    /** Every entry is filed under its own host name: AddMapping uses one
        argument for both the key and the record's HostName. */
    ghost predicate Valid()
      reads this
    {
      forall h :: h in hostMappings ==> hostMappings[h].hostName == h
    }

    constructor ()
      ensures Valid()
      ensures hostMappings == map[]
    {
      hostMappings := map[];
    }

    /** Builds the mapping from the arguments and stores it under `hostname`,
        replacing any earlier entry for that name without complaint. */
    method AddMapping(hostname: string, internalServerIp: string, internalServerPort: int32,
                      protocolType: ProtocolType, certValidationSettings: CertValidationSettings,
                      quicSettings: Option<QuicSettings>)
      requires Valid()
      modifies this
      ensures Valid()
      ensures hostMappings == old(hostMappings)[hostname := HostMapping(hostname, internalServerIp,
                internalServerPort, certValidationSettings, quicSettings, protocolType)]
      ensures ResolveHostname(hostname) == Some(HostMapping(hostname, internalServerIp,
                internalServerPort, certValidationSettings, quicSettings, protocolType))
      ensures forall h :: h != hostname ==> ResolveHostname(h) == old(ResolveHostname(h))
    {
      var mapping := HostMapping(hostname, internalServerIp, internalServerPort,
                                 certValidationSettings, quicSettings, protocolType);
      hostMappings := hostMappings[hostname := mapping];
    }

    /** The mapping stored under exactly `hostname`, or None (C# null) when
        there is none. Reading the table changes nothing. */
    function ResolveHostname(hostname: string): (r: Option<HostMapping>)
      reads this
      ensures r.Some? <==> hostname in hostMappings
      ensures r.Some? ==> r.value == hostMappings[hostname]
      ensures Valid() && r.Some? ==> r.value.hostName == hostname
    {
      if hostname in hostMappings then Some(hostMappings[hostname]) else None
    }
  }
}

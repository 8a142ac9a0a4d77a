/** Start-up configuration (Program.cs, the loops of `Main`): register every
    configured server entry with the routing table and the certificate
    dictionary, in configuration order, aborting at the first entry that is
    rejected; then build the ALPN list; then create the server with a
    certificate resolver over that dictionary. */
module Startup {
  import opened Common
  import opened Settings
  import opened Routing
  import opened ConnectionManager
  import opened ProxyServer

  /** Why start-up stops at a server entry: a QUIC entry without
      QuicSettings (Environment.FailFast), or a host name already in the
      certificate dictionary (Dictionary.Add throws ArgumentException). */
  datatype LoadError = MissingQuicSettingsFor(hostName: string) | DuplicateHostName(hostName: string)

  /** The routing table, the certificate dictionary and the failure, if any,
      after some entries have been processed. */
  datatype LoadState = LoadState(routes: map<string, HostMapping>, certificates: map<string, Certificate>,
                                 failure: Option<LoadError>)

  /** The mapping AddMapping stores for an entry. */
  function MappingOf(e: ServerConfig): HostMapping {
    HostMapping(e.hostName, e.ipAddress, e.port, e.certValidationSettings, e.quicSettings, e.protocolType)
  }

  predicate RejectedUpFront(e: ServerConfig) {
    e.protocolType == Quic && e.quicSettings.None?
  }

  /** One iteration of the server loop. A duplicate host name is detected
      only after AddMapping has overwritten its route. */
  function Step(s: LoadState, e: ServerConfig): (r: LoadState)
    // the entry is taken exactly when it has its settings and a new host name
    ensures r.failure.None? <==> !RejectedUpFront(e) && e.hostName !in s.certificates
    ensures r.failure.Some? ==>
              r.failure == Some(if RejectedUpFront(e) then MissingQuicSettingsFor(e.hostName) else DuplicateHostName(e.hostName))
    // a rejected-up-front entry touches neither table
    ensures RejectedUpFront(e) ==> r.routes == s.routes && r.certificates == s.certificates
    // otherwise its route is stored, replacing any earlier one for that host only
    ensures !RejectedUpFront(e) ==>
              && r.routes.Keys == s.routes.Keys + {e.hostName} && r.routes[e.hostName] == MappingOf(e)
              && (forall h :: h in s.routes && h != e.hostName ==> r.routes[h] == s.routes[h])
    // a certificate is added only for an accepted entry, and none is ever replaced
    ensures r.certificates.Keys == s.certificates.Keys + (if r.failure.None? then {e.hostName} else {})
    ensures r.failure.None? ==> r.certificates[e.hostName] == CertificateFromFile(e.certPath)
    ensures forall h :: h in s.certificates ==> r.certificates[h] == s.certificates[h]
  {
    if RejectedUpFront(e) then s.(failure := Some(MissingQuicSettingsFor(e.hostName)))
    else
      var routes := s.routes[e.hostName := MappingOf(e)];
      if e.hostName in s.certificates then LoadState(routes, s.certificates, Some(DuplicateHostName(e.hostName)))
      else LoadState(routes, s.certificates[e.hostName := CertificateFromFile(e.certPath)], None)
  }

  /** The server loop from state `s` over `servers`; a failure stops it. */
  function Load(s: LoadState, servers: seq<ServerConfig>): (r: LoadState)
    // a failure is final: nothing after it is processed
    ensures s.failure.Some? ==> r == s
    // routes and certificates are only ever added, and no certificate is replaced
    ensures s.routes.Keys <= r.routes.Keys && s.certificates.Keys <= r.certificates.Keys
    ensures forall h :: h in s.certificates ==> r.certificates[h] == s.certificates[h]
    decreases |servers|
  {
    if servers == [] || s.failure.Some? then s else Load(Step(s, servers[0]), servers[1..])
  }

  lemma {:induction false} LoadAppend(s: LoadState, a: seq<ServerConfig>, b: seq<ServerConfig>)
    ensures Load(s, a + b) == Load(Load(s, a), b)
    decreases |a|
  {
    if a == [] {
      assert a + b == b;
    } else if s.failure.Some? {
      assert Load(s, b) == s;
    } else {
      assert (a + b)[0] == a[0] && (a + b)[1..] == a[1..] + b;
      LoadAppend(Step(s, a[0]), a[1..], b);
    }
  }

  /** The host names of the entries, in order. */
  function HostNames(servers: seq<ServerConfig>): (names: set<string>)
    ensures forall i :: 0 <= i < |servers| ==> servers[i].hostName in names
    ensures forall h :: h in names ==> exists i :: 0 <= i < |servers| && servers[i].hostName == h
  {
    if servers == [] then {} else {servers[0].hostName} + HostNames(servers[1..])
  }

  /** No entry is rejected when none is a QUIC entry without settings and
      the host names are pairwise distinct and new to the dictionary. */
  predicate AllAcceptable(servers: seq<ServerConfig>, known: set<string>) {
    && (forall i :: 0 <= i < |servers| ==> !RejectedUpFront(servers[i]) && servers[i].hostName !in known)
    && (forall i, j :: 0 <= i < j < |servers| ==> servers[i].hostName != servers[j].hostName)
  }

  /** AllAcceptable, one entry at a time: the first entry is acceptable and
      the rest are, with its host name now known. */
  lemma {:induction false} AllAcceptableUnfold(servers: seq<ServerConfig>, known: set<string>)
    requires servers != []
    ensures AllAcceptable(servers, known)
            <==> !RejectedUpFront(servers[0]) && servers[0].hostName !in known
                 && AllAcceptable(servers[1..], known + {servers[0].hostName})
  {
    var rest := servers[1..];
    if AllAcceptable(servers, known) {
      forall i | 0 <= i < |rest|
        ensures rest[i].hostName !in known + {servers[0].hostName}
      {
        assert rest[i] == servers[i + 1];
      }
      forall i, j | 0 <= i < j < |rest|
        ensures rest[i].hostName != rest[j].hostName
      {
        assert rest[i] == servers[i + 1] && rest[j] == servers[j + 1];
      }
    }
    if !RejectedUpFront(servers[0]) && servers[0].hostName !in known
       && AllAcceptable(rest, known + {servers[0].hostName}) {
      forall i | 0 <= i < |servers|
        ensures !RejectedUpFront(servers[i]) && servers[i].hostName !in known
      {
        if i > 0 { assert servers[i] == rest[i - 1]; }
      }
      forall i, j | 0 <= i < j < |servers|
        ensures servers[i].hostName != servers[j].hostName
      {
        assert servers[j] == rest[j - 1];
        if i > 0 { assert servers[i] == rest[i - 1]; }
      }
    }
  }

  /** Start-up gets through the server loop exactly when every entry is
      acceptable. */
  lemma {:induction false} LoadSucceedsIffAllAcceptable(s: LoadState, servers: seq<ServerConfig>)
    requires s.failure.None?
    ensures Load(s, servers).failure.None? <==> AllAcceptable(servers, s.certificates.Keys)
    decreases |servers|
  {
    if servers != [] {
      AllAcceptableUnfold(servers, s.certificates.Keys);
      var s1 := Step(s, servers[0]);
      if s1.failure.None? {
        assert s1.certificates.Keys == s.certificates.Keys + {servers[0].hostName};
        LoadSucceedsIffAllAcceptable(s1, servers[1..]);
      }
    }
  }

  /** When the server loop gets through, the tables gain exactly the
      entries' host names, and routes of other hosts are left alone. */
  lemma {:induction false} LoadedKeys(s: LoadState, servers: seq<ServerConfig>)
    requires s.failure.None?
    requires Load(s, servers).failure.None?
    ensures var t := Load(s, servers);
      && t.certificates.Keys == s.certificates.Keys + HostNames(servers)
      && t.routes.Keys == s.routes.Keys + HostNames(servers)
      && (forall h :: h in s.routes && h !in HostNames(servers) ==> t.routes[h] == s.routes[h])
    decreases |servers|
  {
    if servers != [] {
      var s1 := Step(s, servers[0]);
      LoadedKeys(s1, servers[1..]);
      assert HostNames(servers) == {servers[0].hostName} + HostNames(servers[1..]);
    }
  }

  /** When the server loop gets through, each entry's host carries that
      entry's mapping and certificate. */
  lemma {:induction false} LoadedEntries(s: LoadState, servers: seq<ServerConfig>)
    requires s.failure.None?
    requires Load(s, servers).failure.None?
    ensures var t := Load(s, servers);
      forall i :: 0 <= i < |servers| ==>
        && servers[i].hostName in t.certificates && servers[i].hostName in t.routes
        && t.certificates[servers[i].hostName] == CertificateFromFile(servers[i].certPath)
        && t.routes[servers[i].hostName] == MappingOf(servers[i])
    decreases |servers|
  {
    if servers != [] {
      var e := servers[0];
      var rest := servers[1..];
      var s1 := Step(s, e);
      LoadedEntries(s1, rest);
      LoadSucceedsIffAllAcceptable(s, servers);
      AllAcceptableUnfold(servers, s.certificates.Keys);
      LoadedKeys(s1, rest);
      var t := Load(s1, rest);
      assert e.hostName !in HostNames(rest);
      forall i | 0 <= i < |servers|
        ensures servers[i].hostName in t.certificates && servers[i].hostName in t.routes
        ensures t.certificates[servers[i].hostName] == CertificateFromFile(servers[i].certPath)
        ensures t.routes[servers[i].hostName] == MappingOf(servers[i])
      {
        if i > 0 { assert servers[i] == rest[i - 1]; }
      }
    }
  }

  /** When the server loop gets through, every entry is registered under its
      host name, with its own mapping and the certificate at its path;
      nothing else is added and no earlier entry is disturbed. */
  lemma LoadedWhenNoEntryRejected(s: LoadState, servers: seq<ServerConfig>)
    requires s.failure.None?
    requires Load(s, servers).failure.None?
    ensures var t := Load(s, servers);
      && t.certificates.Keys == s.certificates.Keys + HostNames(servers)
      && t.routes.Keys == s.routes.Keys + HostNames(servers)
      && (forall i :: 0 <= i < |servers| ==>
            && t.certificates[servers[i].hostName] == CertificateFromFile(servers[i].certPath)
            && t.routes[servers[i].hostName] == MappingOf(servers[i]))
      && (forall h :: h in s.certificates ==> t.certificates[h] == s.certificates[h])
      && (forall h :: h in s.routes && h !in HostNames(servers) ==> t.routes[h] == s.routes[h])
  {
    LoadedKeys(s, servers);
    LoadedEntries(s, servers);
  }

  /** The first rejected entry aborts start-up with its own error and
      nothing after it is looked at. A QUIC entry without settings leaves
      the tables as they were; a duplicate host name has already replaced
      that host's route, and the certificate dictionary keeps the first
      certificate. */
  lemma FirstRejectedEntryAborts(s: LoadState, servers: seq<ServerConfig>, k: nat)
    requires s.failure.None? && k < |servers|
    requires Load(s, servers[..k]).failure.None?
    requires Step(Load(s, servers[..k]), servers[k]).failure.Some?
    ensures var before := Load(s, servers[..k]);
      var e := servers[k];
      var t := Load(s, servers);
      && (RejectedUpFront(e) ==> t == before.(failure := Some(MissingQuicSettingsFor(e.hostName))))
      && (!RejectedUpFront(e) ==>
            t == LoadState(before.routes[e.hostName := MappingOf(e)], before.certificates, Some(DuplicateHostName(e.hostName)))
            && e.hostName in before.certificates)
  {
    assert servers == servers[..k] + [servers[k]] + servers[k + 1..];
    LoadAppend(s, servers[..k] + [servers[k]], servers[k + 1..]);
    LoadAppend(s, servers[..k], [servers[k]]);
  }

  /** The server loop of Main, run against the routing table. */
  method LoadServerConfigs(servers: seq<ServerConfig>, hostResolver: HostResolver)
    returns (certificates: map<string, Certificate>, failure: Option<LoadError>)
    requires hostResolver.Valid()
    modifies hostResolver
    ensures hostResolver.Valid()
    ensures LoadState(hostResolver.hostMappings, certificates, failure)
            == Load(LoadState(old(hostResolver.hostMappings), map[], None), servers)
  {
    certificates := map[];
    failure := None;
    ghost var start := LoadState(hostResolver.hostMappings, certificates, None);
    for i := 0 to |servers|
      invariant hostResolver.Valid()
      invariant failure.None?
      invariant Load(start, servers) == Load(LoadState(hostResolver.hostMappings, certificates, None), servers[i..])
    {
      var e := servers[i];
      assert servers[i..][0] == e && servers[i..][1..] == servers[i + 1..];
      if e.protocolType == Quic && e.quicSettings.None? {
        failure := Some(MissingQuicSettingsFor(e.hostName));
        return;
      }
      hostResolver.AddMapping(e.hostName, e.ipAddress, e.port, e.protocolType, e.certValidationSettings, e.quicSettings);
      if e.hostName in certificates {
        failure := Some(DuplicateHostName(e.hostName));
        return;
      }
      certificates := certificates[e.hostName := CertificateFromFile(e.certPath)];
    }
    assert servers[|servers|..] == [];
  }

  /** The ALPN loop of Main: one SslApplicationProtocol per configured name,
      in order; Err(i) when the constructor throws for the name at index i,
      the first such name. */
  method BuildAlpnList(names: seq<string>) returns (r: Result<seq<ApplicationProtocol>, nat>)
    ensures r.Ok? <==> forall i :: 0 <= i < |names| ==> NewApplicationProtocol(names[i]).Some?
    ensures r.Ok? ==> |r.value| == |names| && forall i :: 0 <= i < |names| ==> r.value[i] == ApplicationProtocol(names[i])
    ensures r.Err? ==> r.error < |names| && NewApplicationProtocol(names[r.error]).None?
                       && forall i :: 0 <= i < r.error ==> NewApplicationProtocol(names[i]).Some?
  {
    var alpnList: seq<ApplicationProtocol> := [];
    for i := 0 to |names|
      invariant |alpnList| == i
      invariant forall j :: 0 <= j < i ==> NewApplicationProtocol(names[j]).Some? && alpnList[j] == ApplicationProtocol(names[j])
    {
      var protocol := NewApplicationProtocol(names[i]);
      if protocol.None? {
        return Err(i);
      }
      alpnList := alpnList + [protocol.value];
    }
    return Ok(alpnList);
  }

  /** The certificate resolver handed to the server: a lookup in the
      dictionary, None where the indexer throws KeyNotFoundException. */
  function CertificateResolver(certificates: map<string, Certificate>): (resolve: string -> Option<Certificate>)
    ensures forall host :: resolve(host).Some? <==> host in certificates
    ensures forall host :: host in certificates ==> resolve(host) == Some(certificates[host])
  {
    host => if host in certificates then Some(certificates[host]) else None
  }

  datatype StartupError = ServerEntryRejected(error: LoadError) | InvalidAlpnName(index: nat)

  /** Main from the configuration up to the creation of the server: the
      server entries first, then the ALPN names; a failure in either stops
      start-up before any server exists. */
  method CreateServer(config: Config) returns (r: Result<QuicProxyServer, StartupError>)
    ensures var loaded := Load(LoadState(map[], map[], None), config.servers);
      && (loaded.failure.Some? <==> r.Err? && r.error.ServerEntryRejected?)
      && (loaded.failure.Some? ==> r == Err(ServerEntryRejected(loaded.failure.value)))
      && (r.Ok? ==>
            && fresh(r.value) && fresh(r.value.hostResolver) && r.value.Valid()
            && r.value.hostResolver.Valid() && r.value.hostResolver.hostMappings == loaded.routes
            && r.value.certResolver == CertificateResolver(loaded.certificates)
            && |r.value.alpnList| == |config.alpnList|
            && (forall i :: 0 <= i < |config.alpnList| ==> r.value.alpnList[i] == ApplicationProtocol(config.alpnList[i]))
            && r.value.listener.None?)
      && (r.Err? && r.error.InvalidAlpnName? ==>
            loaded.failure.None? && r.error.index < |config.alpnList|
            && NewApplicationProtocol(config.alpnList[r.error.index]).None?
            && forall i :: 0 <= i < r.error.index ==> NewApplicationProtocol(config.alpnList[i]).Some?)
      // the entries are accepted and some ALPN name is not: start-up stops at that name
      && (loaded.failure.None? && (exists i :: 0 <= i < |config.alpnList| && NewApplicationProtocol(config.alpnList[i]).None?) ==>
            r.Err? && r.error.InvalidAlpnName?)
  {
    var hostResolver := new HostResolver();
    var certificates, failure := LoadServerConfigs(config.servers, hostResolver);
    if failure.Some? {
      return Err(ServerEntryRejected(failure.value));
    }
    var alpnList := BuildAlpnList(config.alpnList);
    if alpnList.Err? {
      return Err(InvalidAlpnName(alpnList.error));
    }
    var server := new QuicProxyServer(alpnList.value, hostResolver, CertificateResolver(certificates));
    return Ok(server);
  }

  /** Start-up demands QuicSettings only of QUIC entries, but the handshake
      options read them for every host: a TCP entry without QuicSettings is
      accepted at start-up and then refused at every handshake. */
  lemma TcpEntryWithoutQuicSettingsIsUnreachable(servers: seq<ServerConfig>, i: nat, server: QuicProxyServer)
    requires i < |servers| && servers[i].protocolType == Tcp && servers[i].quicSettings.None?
    requires Load(LoadState(map[], map[], None), servers).failure.None?
    requires server.hostResolver.hostMappings == Load(LoadState(map[], map[], None), servers).routes
    ensures !RejectedUpFront(servers[i])
    ensures server.GetConnectionOptions(servers[i].hostName) == Err(MissingQuicSettings)
  {
    LoadedWhenNoEntryRejected(LoadState(map[], map[], None), servers);
  }
}

/** backend/security/ports.py: the risk rule for one network endpoint and the
    queries over a list of scanned connections. Enumerating connections with
    psutil is not part of this model; the queries take the scanned list as an
    argument instead of scanning again. */
module Ports {
  import opened Wrappers
  import opened Text
  import opened Seqs
  import opened Risk

  /** An IP address and port, as psutil reports `laddr` and `raddr`. */
  datatype Address = Address(ip: string, port: nat)

  /** One row of the port scan. Fields psutil may leave empty are options. */
  datatype Port = Port(
    localAddress: Option<string>,
    localPort: Option<nat>,
    remoteAddress: Option<string>,
    remotePort: Option<nat>,
    status: string,
    protocol: string,
    processName: Option<string>,
    pid: Option<nat>,
    risk: RiskLevel)

  function RiskOf(p: Port): RiskLevel { p.risk }

  /** What psutil reports for one socket (`psutil.net_connections`);
      `socketType` 1 is a stream (TCP) socket. */
  datatype Connection = Connection(
    laddr: Option<Address>,
    raddr: Option<Address>,
    status: string,
    socketType: int,
    pid: Option<nat>)

  const HighRiskPorts: seq<nat> := [1337, 4444, 5555, 6666, 31337, 12345, 54321]

  const MediumRiskPorts: seq<nat> := [21, 23, 135, 139, 445, 3389]

  /** `analyze_port_risk`: a connection without a local address is safe;
      otherwise the local port number decides. */
  function AnalyzePortRisk(conn: Connection): (r: RiskLevel)
    ensures conn.laddr.None? ==> r == Safe
    ensures conn.laddr.Some? && conn.laddr.value.port in HighRiskPorts ==> r == High
    ensures r == Medium ==> conn.laddr.Some? && conn.laddr.value.port in MediumRiskPorts
    ensures r == Low ==> conn.laddr.Some? && conn.laddr.value.port > 49152
  {
    match conn.laddr
    case None => Safe
    case Some(addr) =>
      var port := addr.port;
      if port in HighRiskPorts then High
      else if port in MediumRiskPorts then Medium
      else if port > 49152 then Low
      else if port <= 1023 then Safe
      else Safe
  }

  /** A connection without a local address is safe whatever else it has. */
  lemma NoLocalAddressIsSafe(conn: Connection)
    requires conn.laddr.None?
    ensures AnalyzePortRisk(conn) == Safe
  {
  }

  /** Each tier of the port rule, stated as the set of ports that receive it. */
  lemma PortRiskTiers(conn: Connection)
    requires conn.laddr.Some?
    ensures var port := conn.laddr.value.port;
            && (AnalyzePortRisk(conn) == High <==> port in {1337, 4444, 5555, 6666, 31337, 12345, 54321})
            && (AnalyzePortRisk(conn) == Medium <==> port in {21, 23, 135, 139, 445, 3389})
            && (AnalyzePortRisk(conn) == Low <==> port > 49152 && port != 54321)
            && (AnalyzePortRisk(conn) == Safe <==>
                  port <= 49152 && port !in {1337, 4444, 5555, 6666, 31337, 12345}
                  && port !in {21, 23, 135, 139, 445, 3389})
  {
  }

  /** The first dynamic port, 49152, is classified safe: only ports strictly
      above it are low risk. */
  lemma DynamicRangeBoundary(ip: string, c: Connection)
    ensures AnalyzePortRisk(c.(laddr := Some(Address(ip, 49152)))) == Safe
    ensures AnalyzePortRisk(c.(laddr := Some(Address(ip, 49153)))) == Low
  {
  }

  /** The row `scan_open_ports` records for one socket; `processName` is the
      name psutil gave for the owning process, if any. */
  function PortRecord(conn: Connection, processName: Option<string>): (p: Port)
    ensures p.localPort.None? ==> p.risk == Safe
    ensures p.localPort.Some? <==> conn.laddr.Some?
    ensures conn.laddr.Some? ==> p.localPort == Some(conn.laddr.value.port)
    ensures p.protocol in {"tcp", "udp"} && (p.protocol == "tcp" <==> conn.socketType == 1)
    ensures p.risk == AnalyzePortRisk(conn)
    ensures p.localAddress == if conn.laddr.Some? then Some(conn.laddr.value.ip) else None
    ensures p.remoteAddress.Some? <==> conn.raddr.Some?
    ensures conn.raddr.Some? ==> p.remoteAddress == Some(conn.raddr.value.ip)
                                 && p.remotePort == Some(conn.raddr.value.port)
    ensures conn.raddr.None? ==> p.remotePort.None?
    ensures p.status == conn.status && p.pid == conn.pid && p.processName == processName
  {
    Port(
      if conn.laddr.Some? then Some(conn.laddr.value.ip) else None,
      if conn.laddr.Some? then Some(conn.laddr.value.port) else None,
      if conn.raddr.Some? then Some(conn.raddr.value.ip) else None,
      if conn.raddr.Some? then Some(conn.raddr.value.port) else None,
      conn.status,
      if conn.socketType == 1 then "tcp" else "udp",
      processName,
      conn.pid,
      AnalyzePortRisk(conn))
  }

  predicate IsListening(p: Port)
  {
    p.status == "LISTEN"
  }

  predicate IsEstablished(p: Port)
  {
    p.status == "ESTABLISHED"
  }

  /** `get_listening_ports` over an already scanned list: the LISTEN entries. */
  function ListeningPorts(ports: seq<Port>): (r: seq<Port>)
    ensures forall p :: p in r <==> p in ports && p.status == "LISTEN"
  {
    var r := Filter(ports, IsListening);
    forall p ensures p in r <==> p in ports && p.status == "LISTEN" {
      FilterMembership(ports, IsListening, p);
    }
    r
  }

  /** The order of the scan is kept: listing the two halves of a scan and
      concatenating gives the listing of the whole, and a single entry is
      listed exactly when it is listening. */
  lemma ListeningPortsInOrder(a: seq<Port>, b: seq<Port>, p: Port)
    ensures ListeningPorts(a + b) == ListeningPorts(a) + ListeningPorts(b)
    ensures ListeningPorts([p]) == if p.status == "LISTEN" then [p] else []
  {
    FilterAppend(a, b, IsListening);
    assert [p][1..] == [];
  }

  /** `get_established_connections` over an already scanned list: the
      ESTABLISHED entries. */
  function EstablishedConnections(ports: seq<Port>): (r: seq<Port>)
    ensures forall p :: p in r <==> p in ports && p.status == "ESTABLISHED"
  {
    var r := Filter(ports, IsEstablished);
    forall p ensures p in r <==> p in ports && p.status == "ESTABLISHED" {
      FilterMembership(ports, IsEstablished, p);
    }
    r
  }

  /** As for listening ports, the scan order is kept. */
  lemma EstablishedConnectionsInOrder(a: seq<Port>, b: seq<Port>, p: Port)
    ensures EstablishedConnections(a + b) == EstablishedConnections(a) + EstablishedConnections(b)
    ensures EstablishedConnections([p]) == if p.status == "ESTABLISHED" then [p] else []
  {
    FilterAppend(a, b, IsEstablished);
    assert [p][1..] == [];
  }

  /** `is_port_open` over an already scanned list: Python's `any(...)`. */
  function IsPortOpen(ports: seq<Port>, port: nat, protocol: string): (b: bool)
    ensures b <==> exists i :: 0 <= i < |ports| && ports[i].localPort == Some(port)
                     && ports[i].protocol == protocol && ports[i].status == "LISTEN"
  {
    if ports == [] then false
    else
      var rest := IsPortOpen(ports[1..], port, protocol);
      assert forall i :: 1 <= i < |ports| ==> ports[1..][i - 1] == ports[i];
      (ports[0].localPort == Some(port) && ports[0].protocol == protocol && ports[0].status == "LISTEN")
      || rest
  }

  /** A port is open exactly when some listening entry has that port and protocol. */
  lemma IsPortOpenViaListening(ports: seq<Port>, port: nat, protocol: string)
    ensures IsPortOpen(ports, port, protocol) <==>
              exists p :: p in ListeningPorts(ports) && p.localPort == Some(port) && p.protocol == protocol
  {
    if IsPortOpen(ports, port, protocol) {
      var i :| 0 <= i < |ports| && ports[i].localPort == Some(port)
               && ports[i].protocol == protocol && ports[i].status == "LISTEN";
      assert ports[i] in ListeningPorts(ports);
    }
  }
}

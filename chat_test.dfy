/** messaging/chat_test.py: the subnet flood: one subscription to every host 1..254 of a
    /24 network on every port of `PORT_RANGE`, and a publisher bound to the first free port
    of that range. */
module ChatTest {
  import opened Wrappers
  import opened Text

  /** `range(9000, 9010)`. */
  const PORT_LOW := 9000
  const PORT_COUNT := 10
  const HOST_COUNT := 254

  function PortRange(): (ports: seq<int>)
    ensures |ports| == PORT_COUNT
    ensures forall i :: 0 <= i < |ports| ==> ports[i] == PORT_LOW + i
  {
    seq(PORT_COUNT, i => PORT_LOW + i)
  }

  /** A connection target of `listen`: network prefix, host number and port. */
  datatype TcpEndpoint = TcpEndpoint(masked: string, last: int, port: int)

  /** `"tcp://{0}.{1}:{2}".format(masked, last, port)`, the text handed to `connect`. */
  function EndpointText(e: TcpEndpoint): string {
    "tcp://" + e.masked + "." + IntToString(e.last) + ":" + IntToString(e.port)
  }

  /** For one network prefix, the endpoint text determines host and port, so the
      connections can be told apart by their targets. */
  lemma EndpointTextInjective(masked: string, last1: nat, port1: nat, last2: nat, port2: nat)
    requires EndpointText(TcpEndpoint(masked, last1, port1)) == EndpointText(TcpEndpoint(masked, last2, port2))
    ensures last1 == last2 && port1 == port2
  {
    var prefix := "tcp://" + masked + ".";
    var parts1 := [NatToString(last1), NatToString(port1)];
    var parts2 := [NatToString(last2), NatToString(port2)];
    EndpointShape(masked, last1, port1);
    EndpointShape(masked, last2, port2);
    assert (prefix + Join(parts1, ':'))[|prefix|..] == Join(parts1, ':');
    assert (prefix + Join(parts2, ':'))[|prefix|..] == Join(parts2, ':');
    assert ':' !in parts1[0] && ':' !in parts1[1] && ':' !in parts2[0] && ':' !in parts2[1];
    SplitOfJoin(parts1, ':');
    SplitOfJoin(parts2, ':');
    NatToStringInjective(last1, last2);
    NatToStringInjective(port1, port2);
  }

  /** The host and port of an endpoint text are its last two fields, joined by `:`. */
  lemma EndpointShape(masked: string, last: nat, port: nat)
    ensures EndpointText(TcpEndpoint(masked, last, port)) == "tcp://" + masked + "." + Join([NatToString(last), NatToString(port)], ':')
  {
    var parts := [NatToString(last), NatToString(port)];
    assert parts[1..] == [NatToString(port)];
  }

  /** The `i`-th connection of `listen`: host `i / 10 + 1`, port `9000 + i % 10`. */
  function EndpointAt(masked: string, i: int): TcpEndpoint {
    TcpEndpoint(masked, i / PORT_COUNT + 1, PORT_LOW + i % PORT_COUNT)
  }

  /** The endpoints `listen` connects to, in connection order: host-major, port-minor. */
  function ListenEndpoints(masked: string): seq<TcpEndpoint> {
    seq(HOST_COUNT * PORT_COUNT, i => EndpointAt(masked, i))
  }

  /** Every host 1..254 is paired with every port 9000..9009, at position
      `(last - 1) * 10 + (port - 9000)`, so 2540 connections in all. */
  lemma ListenCoversSubnet(masked: string, last: int, port: int)
    requires 1 <= last <= HOST_COUNT && PORT_LOW <= port < PORT_LOW + PORT_COUNT
    ensures |ListenEndpoints(masked)| == 2540
    ensures ListenEndpoints(masked)[(last - 1) * PORT_COUNT + (port - PORT_LOW)] == TcpEndpoint(masked, last, port)
  {
    var i := (last - 1) * PORT_COUNT + (port - PORT_LOW);
    DivModTen(last - 1, port - PORT_LOW);
    assert ListenEndpoints(masked)[i] == EndpointAt(masked, i);
  }

  /** Host-major, port-minor numbering: index `q * 10 + r` is host offset `q`, port offset `r`. */
  lemma DivModTen(q: nat, r: nat)
    requires r < 10
    ensures (q * 10 + r) / 10 == q && (q * 10 + r) % 10 == r
    ensures q < HOST_COUNT ==> q * 10 + r < HOST_COUNT * PORT_COUNT
  {
  }

  /** No two connections of `listen` go to the same target. */
  lemma ListenEndpointsDistinct(masked: string, i: int, j: int)
    requires 0 <= i < j < HOST_COUNT * PORT_COUNT
    ensures EndpointText(ListenEndpoints(masked)[i]) != EndpointText(ListenEndpoints(masked)[j])
  {
    var e1, e2 := ListenEndpoints(masked)[i], ListenEndpoints(masked)[j];
    if EndpointText(e1) == EndpointText(e2) {
      EndpointTextInjective(masked, e1.last, e1.port, e2.last, e2.port);
      assert false;
    }
  }

  /** Only hosts 1..254 and ports 9000..9009 are targeted: the network and broadcast
      addresses `.0` and `.255` never are. */
  lemma ListenTargetsOnlyHosts(masked: string, e: TcpEndpoint)
    requires e in ListenEndpoints(masked)
    ensures e.masked == masked && 1 <= e.last <= HOST_COUNT && PORT_LOW <= e.port < PORT_LOW + PORT_COUNT
  {
    var i :| 0 <= i < HOST_COUNT * PORT_COUNT && ListenEndpoints(masked)[i] == e;
    assert i / PORT_COUNT < HOST_COUNT;
  }

  /** `listen`'s nested loops: one `connect` per host and port, recorded in order; then the
      subscription to the empty topic prefix. The receive loop is not modelled. */
  method Listen(masked: string) returns (connected: seq<TcpEndpoint>, topicFilter: string)
    ensures connected == ListenEndpoints(masked)
    ensures forall topic: string :: StartsWith(topic, topicFilter)
  {
    connected := [];
    ghost var k := 0;
    var last := 1;
    while last < HOST_COUNT + 1
      invariant 1 <= last <= HOST_COUNT + 1
      invariant k == (last - 1) * PORT_COUNT
      invariant connected == ListenEndpoints(masked)[..k]
    {
      var ports := PortRange();
      var j := 0;
      while j < |ports|
        invariant 0 <= j <= |ports|
        invariant k == (last - 1) * PORT_COUNT + j
        invariant connected == ListenEndpoints(masked)[..k]
      {
        DivModTen(last - 1, j);
        assert ListenEndpoints(masked)[..k + 1] == ListenEndpoints(masked)[..k] + [EndpointAt(masked, k)];
        connected := connected + [TcpEndpoint(masked, last, ports[j])];
        j := j + 1;
        k := k + 1;
      }
      last := last + 1;
    }
    assert ListenEndpoints(masked)[..k] == ListenEndpoints(masked);
    topicFilter := "";
  }

  datatype UnpackError = NotEnoughValues   // `masked, last_octet = addr.rsplit('.', 1)` (ValueError)

  /** `masked, last_octet = addr.rsplit('.', 1)`: network prefix and host part. */
  function SplitAddress(addr: string): (r: Result<(string, string), UnpackError>)
    ensures r.Failure? <==> '.' !in addr
    ensures r.Success? ==> r.value.0 + "." + r.value.1 == addr && '.' !in r.value.1
  {
    var parts := RSplitOnce(addr, '.');
    if |parts| == 2 then Success((parts[0], parts[1])) else Failure(NotEnoughValues)
  }

  /** `main` as written hands the full address, not the prefix, to `listen`. */
  function MainListenTargetsAsWritten(addr: string): Result<seq<TcpEndpoint>, UnpackError> {
    match SplitAddress(addr)
    case Failure(e) => Failure(e)
    case Success(_) => Success(ListenEndpoints(addr))
  }

  /** `main` as intended: `listen` gets the prefix `masked`. */
  function MainListenTargets(addr: string): (r: Result<seq<TcpEndpoint>, UnpackError>)
    ensures r.Failure? <==> '.' !in addr
    ensures r.Success? ==> SplitAddress(addr).Success? && r.value == ListenEndpoints(SplitAddress(addr).value.0)
  {
    match SplitAddress(addr)
    case Failure(e) => Failure(e)
    case Success((masked, _)) => Success(ListenEndpoints(masked))
  }

  /** For the address 192.168.1.5 the code as written connects first to the non-address
      192.168.1.5.1, where the intended first target is 192.168.1.1. */
  lemma ListenWithFullAddress()
    ensures MainListenTargetsAsWritten("192.168.1.5").Success?
    ensures MainListenTargetsAsWritten("192.168.1.5").value[0] == TcpEndpoint("192.168.1.5", 1, 9000)
    ensures EndpointText(TcpEndpoint("192.168.1.5", 1, 9000)) == "tcp://" + "192.168.1.5" + ".1:9000"
    ensures MainListenTargets("192.168.1.5").Success?
    ensures MainListenTargets("192.168.1.5").value[0] == TcpEndpoint("192.168.1", 1, 9000)
    ensures EndpointText(TcpEndpoint("192.168.1", 1, 9000)) == "tcp://" + "192.168.1" + ".1:9000"
  {
    ExampleAddressSplits();
    assert ListenEndpoints("192.168.1.5")[0] == TcpEndpoint("192.168.1.5", 1, 9000);
    assert ListenEndpoints("192.168.1")[0] == TcpEndpoint("192.168.1", 1, 9000);
    FirstEndpointText("192.168.1.5");
    FirstEndpointText("192.168.1");
  }

  lemma ExampleAddressSplits()
    ensures SplitAddress("192.168.1.5") == Success(("192.168.1", "5"))
  {
    RSplitOnceAt("192.168.1", "5", '.');
    assert "192.168.1" + ['.'] + "5" == "192.168.1.5";
  }

  /** The text of the first connection: host 1 on port 9000. */
  lemma FirstEndpointText(masked: string)
    ensures EndpointText(TcpEndpoint(masked, 1, 9000)) == "tcp://" + masked + ".1:9000"
  {
    assert IntToString(1) == "1";
    assert IntToString(9000) == "9000" by {
      assert NatToString(9) == "9";
      assert NatToString(90) == "90";
      assert NatToString(900) == "900";
    }
  }

  datatype BindOutcome = Bound(port: int) | Exit(code: int)

  /** The port search of `main`: try the ports in order, keep the first that binds (`break`),
      otherwise exit with code 3. `canBind` stands for the outcome of `bcast.bind`; `tried`
      records the ports attempted. */
  method BindFirstFreePort(ports: seq<int>, canBind: int -> bool) returns (outcome: BindOutcome, tried: seq<int>)
    ensures |tried| <= |ports| && tried == ports[..|tried|]
    ensures outcome.Bound? ==>
      && |tried| >= 1 && outcome.port == tried[|tried| - 1] && canBind(outcome.port)
      && forall j :: 0 <= j < |tried| - 1 ==> !canBind(tried[j])
    ensures outcome.Exit? ==> outcome.code == 3 && tried == ports && forall j :: 0 <= j < |ports| ==> !canBind(ports[j])
  {
    var notFound := true;
    outcome := Exit(3);
    tried := [];
    var i := 0;
    while i < |ports|
      invariant 0 <= i <= |ports| && tried == ports[..i] && notFound
      invariant forall j :: 0 <= j < i ==> !canBind(ports[j])
    {
      tried := tried + [ports[i]];
      if canBind(ports[i]) {
        outcome := Bound(ports[i]);
        notFound := false;
        break;
      }
      i := i + 1;
    }
    if notFound {
      outcome := Exit(3);
    }
  }
}

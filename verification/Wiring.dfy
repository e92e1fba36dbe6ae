/** The two containers and the Service agree with each other, read off the arguments they are started with. */
module Wiring {
  import opened Types
  import opened Strings
  import opened Args
  import opened Builders
  import opened Decode

  const LOOPBACK := "http://127.0.0.1:"

  /** The port op-geth serves the engine API on: the flag it is given, or its own default. */
  function EnginePort(geth: seq<string>): int {
    match ReadAuth(geth)
    case Some(a) => a.port
    case None => 8551
  }

  /** op-node talks to the engine port of the op-geth beside it. */
  lemma EngineIsReached(key: Key, s: OpNodeSpec, net: Net)
    ensures Given(Node(s, net).args, "--l2") == LOOPBACK + Itoa(EnginePort(Geth(key, s, net).args))
  {
    hide Values, FlagName, Geth, Node, Itoa, ReadAuth;
    LinkSpelled();
    NodeSays(s, net, L2);
    AuthDecodes(key, s, net);
  }

  lemma SecretFiles()
    ensures JWT_MOUNT + "/" + JWT_ENTRY == "/secrets/jwt/jwt"
    ensures P2P_MOUNT + "/" + P2P_ENTRY == "/secrets/p2p/private-key"
  {
  }

  /** Both containers read the JWT from the same file, in the mounted Secret; op-geth only if its engine API is
      configured. */
  lemma JwtIsShared(key: Key, s: OpNodeSpec, net: Net)
    ensures Values(Node(s, net).args, "--l2.jwt-secret") == [Some(JWT_MOUNT + "/" + JWT_ENTRY)]
    ensures Values(Geth(key, s, net).args, "--authrpc.jwtsecret") ==
            if AuthOn(s) then Values(Node(s, net).args, "--l2.jwt-secret") else []
  {
    hide Values, FlagName, Geth, Node, Itoa;
    LinkSpelled();
    AuthSpelled();
    NodeSays(s, net, L2Jwt);
    GethSays(key, s, net, AuthJwt);
    SecretFiles();
  }

  /** A validated sequencer sends transactions to its own HTTP port, whatever its L2RpcUrl and SequencerRef say.  With
      HTTP enabled that is the port it is told to listen on; otherwise it is given no such flag, and nothing listens
      there. */
  lemma SequencerReachesItself(key: Key, s: OpNodeSpec, net: Net)
    requires NodeSpecError(s).None? && s.nodeType == "sequencer"
    ensures var args := Geth(key, s, net).args;
            var http := if s.opGeth.networking.Some? then s.opGeth.networking.value.http else None;
            var port := Itoa(if http.Some? && http.value.port != 0 then http.value.port else 8545);
            && Values(args, "--rollup.sequencerhttp") == [Some(LOOPBACK + port)]
            && Values(args, "--http.port") == if http.Some? && http.value.enabled then [Some(port)] else []
  {
    hide Values, FlagName, Geth, Itoa, LOOPBACK, SequencerEndpoint;
    GethSpelled();
    HttpSpelled();
    GethSays(key, s, net, SequencerHttp);
    GethSays(key, s, net, Flag.HttpPort);
    assert SequencerEndpoint(key, s, net) == LOOPBACK + Itoa(HttpPortOf(s)) by { SequencerEndpointOf(key, s, net); }
  }

  lemma SequencerEndpointOf(key: Key, s: OpNodeSpec, net: Net)
    requires SequencerOn(s)
    ensures SequencerEndpoint(key, s, net) == LOOPBACK + Itoa(HttpPortOf(s))
  {
    hide Itoa;
  }

  /** Where an OpNode that does not sequence sends transactions: to its L2RpcUrl if there is one; else to port 8545 of
      the sequencer it refers to, by a full name if that is in another namespace; else to port 8545 of the Service
      that a sequencer named after the network has. */
  lemma ReplicaReaches(key: Key, s: OpNodeSpec, net: Net)
    requires s.opNode.sequencer.None? || !s.opNode.sequencer.value.enabled
    ensures var urls, ref := Values(Geth(key, s, net).args, "--rollup.sequencerhttp"), s.sequencerRef;
            && (s.l2RpcUrl != "" ==> urls == [Some(s.l2RpcUrl)])
            && (s.l2RpcUrl == "" && ref.Some? && ref.value.namespace in {"", key.ns} ==>
                  urls == [Some("http://" + ref.value.name + ":8545")])
            && (s.l2RpcUrl == "" && ref.Some? && ref.value.namespace !in {"", key.ns} ==>
                  urls == [Some("http://" + ref.value.name + "." + ref.value.namespace + ".svc.cluster.local:8545")])
            && (s.l2RpcUrl == "" && ref.None? ==> urls == [Some("http://" + net.name + "-sequencer:8545")])
  {
    hide Values, FlagName, Geth, Itoa;
    GethSpelled();
    GethSays(key, s, net, SequencerHttp);
    HttpDefault();
    if s.sequencerRef.Some? {
      var ref := s.sequencerRef.value;
      assert "http://" + (ref.name + "." + ref.namespace + ".svc.cluster.local") + ":" + "8545" ==
             "http://" + ref.name + "." + ref.namespace + ".svc.cluster.local:8545";
      assert "http://" + ref.name + ":" + "8545" == "http://" + ref.name + ":8545";
    }
    assert "http://" + net.name + "-sequencer" + ":" + "8545" == "http://" + net.name + "-sequencer:8545";
  }

  lemma HttpDefault()
    ensures Itoa(8545) == "8545"
  {
    assert Decimal(8) == "8";
    assert Decimal(85) == "85";
    assert Decimal(854) == "854";
  }

  /** Validation says nothing about the sequencer settings of a replica: one that has them enabled passes, and then acts
      as a sequencer too. */
  lemma ReplicaMaySequence(key: Key, s: OpNodeSpec, net: Net, q: Option<SequencerConfig>)
    requires NodeSpecError(s).None? && s.nodeType == "replica"
    ensures var r := s.(opNode := s.opNode.(sequencer := q));
            && NodeSpecError(r).None?
            && (Present(Node(r, net).args, "--sequencer.enabled") <==> q.Some? && q.value.enabled)
  {
    hide Values, FlagName, Node, SharedFlag;
    var r := s.(opNode := s.opNode.(sequencer := q));
    SequencerSpelled();
    NodeSays(r, net, Flag.SequencerEnabled);
    NotShared(net, Flag.SequencerEnabled);
  }

  /* ----- The Service ----- */

  /** The numbers of the ports called `name`, in order. */
  function PortsNamed(ports: seq<ServicePort>, name: string): seq<int> {
    if ports == [] then []
    else (if ports[0].name == name then [ports[0].port as int] else []) + PortsNamed(ports[1..], name)
  }

  lemma {:induction false} PortsNamedConcat(a: seq<ServicePort>, b: seq<ServicePort>, name: string)
    ensures PortsNamed(a + b, name) == PortsNamed(a, name) + PortsNamed(b, name)
  {
    if a == [] {
      assert a + b == b;
    } else {
      PortsNamedConcat(a[1..], b, name);
      assert (a + b)[0] == a[0] && (a + b)[1..] == a[1..] + b;
      Associative(if a[0].name == name then [a[0].port as int] else [], PortsNamed(a[1..], name), PortsNamed(b, name));
    }
  }

  lemma PortsNamedOne(p: ServicePort, name: string)
    ensures PortsNamed([p], name) == if p.name == name then [p.port as int] else []
    ensures PortsNamed([], name) == []
  {
    assert [p][1..] == [];
  }

  /** The number a flag is given, if it is given. */
  function FlagNumber(args: seq<string>, name: string): seq<int> {
    if Present(args, name) then [ParseInt(Given(args, name))] else []
  }

  function Port(c: bool, name: string, n: int32): seq<ServicePort> {
    if c then [Tcp(name, n)] else []
  }

  lemma PortSays(c: bool, port: string, n: int32, name: string)
    ensures PortsNamed(Port(c, port, n), name) == if c && name == port then [n as int] else []
  {
    PortsNamedOne(Tcp(port, n), name);
  }

  function HttpNumber(s: OpNodeSpec): int32 {
    if HttpOn(s) then DefaultInt(s.opGeth.networking.value.http.value.port, 8545) else 0
  }

  function WsNumber(s: OpNodeSpec): int32 {
    if WsOn(s) then DefaultInt(s.opGeth.networking.value.ws.value.port, 8546) else 0
  }

  function RpcNumber(s: OpNodeSpec): int32 {
    if RpcOn(s) then DefaultInt(s.opNode.rpc.value.port, 9545) else 0
  }

  function P2pNumber(s: OpNodeSpec): int32 {
    if P2pOn(s) then DefaultInt(s.opNode.p2p.value.listenPort, 9003) else 0
  }

  predicate GethP2pOn(s: OpNodeSpec) {
    s.opGeth.networking.Some? && s.opGeth.networking.value.p2pPort.Some?
  }

  function GethP2pNumber(s: OpNodeSpec): int32 {
    if GethP2pOn(s) then DefaultInt(s.opGeth.networking.value.p2pPort.value, 30303) else 0
  }

  lemma DefaultPortsOf(s: OpNodeSpec)
    ensures DefaultPorts(s) ==
            Port(HttpOn(s), GETH_HTTP, HttpNumber(s)) + Port(WsOn(s), GETH_WS, WsNumber(s))
            + Port(GethP2pOn(s), GETH_P2P, GethP2pNumber(s)) + Port(RpcOn(s), NODE_RPC, RpcNumber(s))
            + Port(P2pOn(s), NODE_P2P, P2pNumber(s)) + Port(true, METRICS, 7300)
  {
    hide DefaultInt, Tcp;
  }

  lemma AllDiffer()
    ensures GETH_HTTP !in {GETH_WS, GETH_P2P, NODE_RPC, NODE_P2P, METRICS}
            && GETH_WS !in {GETH_P2P, NODE_RPC, NODE_P2P, METRICS}
    ensures GETH_P2P !in {NODE_RPC, NODE_P2P, METRICS} && NODE_RPC !in {NODE_P2P, METRICS} && NODE_P2P != METRICS
  {
    hide GETH_HTTP, GETH_WS, GETH_P2P, NODE_RPC, NODE_P2P, METRICS;
    PortNamesDiffer();
    var names := [GETH_HTTP, GETH_WS, GETH_P2P, NODE_RPC, NODE_P2P, METRICS];
    assert names[0] != names[1] && names[0] != names[2] && names[0] != names[3] && names[0] != names[4]
           && names[0] != names[5];
    assert names[1] != names[2] && names[1] != names[3] && names[1] != names[4] && names[1] != names[5];
    assert names[2] != names[3] && names[2] != names[4] && names[2] != names[5];
    assert names[3] != names[4] && names[3] != names[5] && names[4] != names[5];
  }

  lemma DefaultPortsSay(s: OpNodeSpec, name: string)
    ensures PortsNamed(DefaultPorts(s), name) ==
            (if HttpOn(s) && name == GETH_HTTP then [HttpNumber(s) as int] else [])
            + (if WsOn(s) && name == GETH_WS then [WsNumber(s) as int] else [])
            + (if GethP2pOn(s) && name == GETH_P2P then [GethP2pNumber(s) as int] else [])
            + (if RpcOn(s) && name == NODE_RPC then [RpcNumber(s) as int] else [])
            + (if P2pOn(s) && name == NODE_P2P then [P2pNumber(s) as int] else [])
            + (if name == METRICS then [7300] else [])
  {
    hide DefaultPorts, PortsNamed, Port, HttpNumber, WsNumber, GethP2pNumber, RpcNumber, P2pNumber, HttpOn;
    hide WsOn, RpcOn, P2pOn, GethP2pOn;
    var a, b := Port(HttpOn(s), GETH_HTTP, HttpNumber(s)), Port(WsOn(s), GETH_WS, WsNumber(s));
    var c := Port(GethP2pOn(s), GETH_P2P, GethP2pNumber(s));
    var d, e, f := Port(RpcOn(s), NODE_RPC, RpcNumber(s)), Port(P2pOn(s), NODE_P2P, P2pNumber(s)),
        Port(true, METRICS, 7300);
    DefaultPortsOf(s);
    PortsNamedConcat(a + b + c + d + e, f, name);
    PortsNamedConcat(a + b + c + d, e, name);
    PortsNamedConcat(a + b + c, d, name);
    PortsNamedConcat(a + b, c, name);
    PortsNamedConcat(a, b, name);
    PortSays(HttpOn(s), GETH_HTTP, HttpNumber(s), name);
    PortSays(WsOn(s), GETH_WS, WsNumber(s), name);
    PortSays(GethP2pOn(s), GETH_P2P, GethP2pNumber(s), name);
    PortSays(RpcOn(s), NODE_RPC, RpcNumber(s), name);
    PortSays(P2pOn(s), NODE_P2P, P2pNumber(s), name);
    PortSays(true, METRICS, 7300, name);
  }

  /** The flags carry the numbers. */
  lemma FlagsSay(key: Key, s: OpNodeSpec, net: Net)
    ensures FlagNumber(Geth(key, s, net).args, "--http.port") == if HttpOn(s) then [HttpNumber(s) as int] else []
    ensures FlagNumber(Geth(key, s, net).args, "--ws.port") == if WsOn(s) then [WsNumber(s) as int] else []
    ensures FlagNumber(Node(s, net).args, "--rpc.port") == if RpcOn(s) then [RpcNumber(s) as int] else []
    ensures FlagNumber(Node(s, net).args, "--p2p.listen.tcp") == if P2pOn(s) then [P2pNumber(s) as int] else []
  {
    hide Values, FlagName, Geth, Node, Itoa, ParseInt, DefaultInt, SharedFlag;
    HttpSpelled();
    WsSpelled();
    RpcSpelled();
    P2pSpelled();
    GethSays(key, s, net, Flag.HttpPort);
    GethSays(key, s, net, Flag.WsPort);
    NodeSays(s, net, Flag.RpcPort);
    NodeSays(s, net, P2pListen);
    NotShared(net, Flag.RpcPort);
    NotShared(net, P2pListen);
    ItoaRoundTrip(HttpNumber(s));
    ItoaRoundTrip(WsNumber(s));
    ItoaRoundTrip(RpcNumber(s));
    ItoaRoundTrip(P2pNumber(s));
  }

  /** op-geth is told nothing of its P2P port, which is open if the spec has the setting. */
  function GethP2pWanted(s: OpNodeSpec): seq<int> {
    match s.opGeth.networking
    case None => []
    case Some(net) => if net.p2pPort.None? then [] else [if net.p2pPort.value != 0 then net.p2pPort.value else 30303]
  }

  lemma GethP2pSays(s: OpNodeSpec)
    ensures GethP2pWanted(s) == if GethP2pOn(s) then [GethP2pNumber(s) as int] else []
  {
  }

  lemma PortsSpelled()
    ensures GETH_HTTP == "geth-http" && GETH_WS == "geth-ws" && GETH_P2P == "geth-p2p"
            && NODE_RPC == "node-rpc" && NODE_P2P == "node-p2p" && METRICS == "metrics"
  {
  }

  lemma HttpPortSays(s: OpNodeSpec)
    ensures PortsNamed(DefaultPorts(s), "geth-http") == if HttpOn(s) then [HttpNumber(s) as int] else []
  {
    hide PortsNamed, DefaultPorts, HttpNumber, WsNumber, RpcNumber, P2pNumber, GethP2pNumber, HttpOn, WsOn;
    hide RpcOn, P2pOn;
    hide GethP2pOn, GETH_HTTP, GETH_WS, GETH_P2P, NODE_RPC, NODE_P2P, METRICS;
    AllDiffer();
    PortsSpelled();
    DefaultPortsSay(s, GETH_HTTP);
  }

  lemma WsPortSays(s: OpNodeSpec)
    ensures PortsNamed(DefaultPorts(s), "geth-ws") == if WsOn(s) then [WsNumber(s) as int] else []
  {
    hide PortsNamed, DefaultPorts, HttpNumber, WsNumber, RpcNumber, P2pNumber, GethP2pNumber, HttpOn, WsOn;
    hide RpcOn, P2pOn;
    hide GethP2pOn, GETH_HTTP, GETH_WS, GETH_P2P, NODE_RPC, NODE_P2P, METRICS;
    AllDiffer();
    PortsSpelled();
    DefaultPortsSay(s, GETH_WS);
  }

  lemma GethP2pPortSays(s: OpNodeSpec)
    ensures PortsNamed(DefaultPorts(s), "geth-p2p") == if GethP2pOn(s) then [GethP2pNumber(s) as int] else []
  {
    hide PortsNamed, DefaultPorts, HttpNumber, WsNumber, RpcNumber, P2pNumber, GethP2pNumber, HttpOn, WsOn;
    hide RpcOn, P2pOn;
    hide GethP2pOn, GETH_HTTP, GETH_WS, GETH_P2P, NODE_RPC, NODE_P2P, METRICS;
    AllDiffer();
    PortsSpelled();
    DefaultPortsSay(s, GETH_P2P);
  }

  lemma RpcPortSays(s: OpNodeSpec)
    ensures PortsNamed(DefaultPorts(s), "node-rpc") == if RpcOn(s) then [RpcNumber(s) as int] else []
  {
    hide PortsNamed, DefaultPorts, HttpNumber, WsNumber, RpcNumber, P2pNumber, GethP2pNumber, HttpOn, WsOn;
    hide RpcOn, P2pOn;
    hide GethP2pOn, GETH_HTTP, GETH_WS, GETH_P2P, NODE_RPC, NODE_P2P, METRICS;
    AllDiffer();
    PortsSpelled();
    DefaultPortsSay(s, NODE_RPC);
  }

  lemma P2pPortSays(s: OpNodeSpec)
    ensures PortsNamed(DefaultPorts(s), "node-p2p") == if P2pOn(s) then [P2pNumber(s) as int] else []
  {
    hide PortsNamed, DefaultPorts, HttpNumber, WsNumber, RpcNumber, P2pNumber, GethP2pNumber, HttpOn, WsOn;
    hide RpcOn, P2pOn;
    hide GethP2pOn, GETH_HTTP, GETH_WS, GETH_P2P, NODE_RPC, NODE_P2P, METRICS;
    AllDiffer();
    PortsSpelled();
    DefaultPortsSay(s, NODE_P2P);
  }

  lemma MetricsPortSays(s: OpNodeSpec, name: string)
    ensures PortsNamed(DefaultPorts(s), "metrics") == [7300] && |PortsNamed(DefaultPorts(s), name)| <= 1
  {
    hide PortsNamed, DefaultPorts, HttpNumber, WsNumber, RpcNumber, P2pNumber, GethP2pNumber, HttpOn, WsOn;
    hide RpcOn, P2pOn;
    hide GethP2pOn, GETH_HTTP, GETH_WS, GETH_P2P, NODE_RPC, NODE_P2P, METRICS;
    AllDiffer();
    PortsSpelled();
    DefaultPortsSay(s, METRICS);
    DefaultPortsSay(s, name);
  }

  /** Without custom ports, the Service has a port of each of these names exactly when the matching flag is given, with
      the number the flag has; no name occurs twice. */
  lemma ServiceMatchesFlags(key: Key, s: OpNodeSpec, net: Net, name: string)
    requires !HasCustomPorts(s)
    ensures var ports := DesiredService(key, s, net).ports;
            var (geth, node) := (Geth(key, s, net).args, Node(s, net).args);
            && PortsNamed(ports, "geth-http") == FlagNumber(geth, "--http.port")
            && PortsNamed(ports, "geth-ws") == FlagNumber(geth, "--ws.port")
            && PortsNamed(ports, "node-rpc") == FlagNumber(node, "--rpc.port")
            && PortsNamed(ports, "node-p2p") == FlagNumber(node, "--p2p.listen.tcp")
            && PortsNamed(ports, "geth-p2p") == GethP2pWanted(s)
            && PortsNamed(ports, "metrics") == [7300]
            && |PortsNamed(ports, name)| <= 1
  {
    hide PortsNamed, DefaultPorts, FlagNumber, Geth, Node, HttpNumber, WsNumber, RpcNumber, P2pNumber, GethP2pNumber;
    hide HttpOn, WsOn, RpcOn, P2pOn, GethP2pOn;
    FlagsSay(key, s, net);
    GethP2pSays(s);
    HttpPortSays(s);
    WsPortSays(s);
    GethP2pPortSays(s);
    RpcPortSays(s);
    P2pPortSays(s);
    MetricsPortSays(s, name);
  }

  /** The metrics port of the Service does not follow the flag: they agree exactly if metrics are enabled on the
      default port. */
  lemma MetricsPortIsFixed(key: Key, s: OpNodeSpec, net: Net)
    requires !HasCustomPorts(s)
    ensures PortsNamed(DesiredService(key, s, net).ports, METRICS) ==
            FlagNumber(Node(s, net).args, "--metrics.port") <==>
            && net.spec.shared.Some? && net.spec.shared.value.metrics.Some?
               && net.spec.shared.value.metrics.value.enabled
            && net.spec.shared.value.metrics.value.port in {0, 7300}
  {
    hide Values, FlagName, Node, Itoa, ParseInt, PortsNamed, DefaultPorts;
    var args := Node(s, net).args;
    SharedSpelled();
    NodeSays(s, net, Flag.MetricsPort);
    DefaultPortsSay(s, METRICS);
    assert PortsNamed(DefaultPorts(s), METRICS) == [7300];
    if net.spec.shared.Some? && net.spec.shared.value.metrics.Some? && net.spec.shared.value.metrics.value.enabled {
      var n := DefaultInt(net.spec.shared.value.metrics.value.port, 7300);
      ItoaRoundTrip(n);
      assert FlagNumber(args, "--metrics.port") == [n as int];
      assert [n as int] == [7300] <==> n == 7300 by {
        assert [n as int][0] == n;
      }
    } else {
      assert Values(args, "--metrics.port") == [];
    }
  }

  /* ----- Volumes ----- */

  predicate Provides(p: StatefulSetSpec, volume: string) {
    (exists v :: v in p.volumes && v.name == volume) || (exists c :: c in p.claims && c.name == volume)
  }

  predicate Mounts(c: Container, volume: string, path: string) {
    Mount(volume, path) in c.mounts
  }

  /** Every mount of both containers is provided by a volume of the pod or the claim. */
  lemma MountsResolve(key: Key, s: OpNodeSpec, net: Net, c: Container, m: Mount)
    requires c in DesiredSet(key, s, net).containers && m in c.mounts
    ensures Provides(DesiredSet(key, s, net), m.volume)
  {
    hide Labels, GethArgs, NodeArgs, RenderAll, DataDirOf;
    var p := DesiredSet(key, s, net);
    var vs := Volumes(key, s, net);
    assert vs[0] in p.volumes && vs[1] in p.volumes;
    assert p.claims[0].name == "geth-data" && p.claims[0] in p.claims;
    if HasP2pKey(s) {
      assert vs[2] in p.volumes && vs[2].name == "p2p-key";
    }
  }

  /** The paths the containers are told are those of the mounts: the data directory, and the P2P key, which op-node is
      told of exactly when P2P is on and the key is mounted. */
  lemma PathsAreMounted(key: Key, s: OpNodeSpec, net: Net)
    ensures var (geth, node) := (Geth(key, s, net), Node(s, net));
            && Mounts(geth, "geth-data", Given(geth.args, "--datadir"))
            && (Present(node.args, "--p2p.priv.path") <==> P2pOn(s) && Mounts(node, "p2p-key", "/secrets/p2p"))
            && (Mounts(node, "p2p-key", "/secrets/p2p") <==>
                  && s.opNode.p2p.Some? && s.opNode.p2p.value.privateKey.Some?
                  && var k := s.opNode.p2p.value.privateKey.value; k.generate || k.secretRef.Some?)
  {
    hide Values, FlagName, RenderAll, GethArgs, NodeArgs, DataDirOf, SharedFlag;
    GethSpelled();
    P2pSpelled();
    GethSays(key, s, net, DataDir);
    NodeSays(s, net, P2pKeyPath);
    NotShared(net, P2pKeyPath);
    assert Geth(key, s, net).mounts[0] == Mount("geth-data", DataDirOf(s));
    if HasP2pKey(s) {
      assert Node(s, net).mounts[2] == Mount("p2p-key", "/secrets/p2p");
    }
  }

  /** `path` is the file that shows `entry` of a Secret or ConfigMap in a container of the pod. */
  ghost predicate Shows(p: StatefulSetSpec, c: Container, path: string, source: Source, entry: string) {
    exists v, m :: v in p.volumes && m in c.mounts && v.name == m.volume && v.source == source
                   && path == m.path + "/" + entry
  }

  lemma ShowsIt(p: StatefulSetSpec, c: Container, v: Volume, m: Mount, path: string, source: Source, entry: string)
    requires v in p.volumes && m in c.mounts && v.name == m.volume && v.source == source
    requires path == m.path + "/" + entry
    ensures Shows(p, c, path, source, entry)
  {
  }

  /** The JWT file each container is told of is the entry the operator puts in the JWT Secret of that OpNode. */
  lemma JwtFileIsTheSecret(key: Key, s: OpNodeSpec, net: Net)
    ensures var p, path := DesiredSet(key, s, net), JWT_MOUNT + "/" + JWT_ENTRY;
            && Values(Node(s, net).args, "--l2.jwt-secret") == [Some(path)]
            && Shows(p, Node(s, net), path, FromSecret(key.name + "-jwt"), JWT_ENTRY)
            && (AuthOn(s) ==> Values(Geth(key, s, net).args, "--authrpc.jwtsecret") == [Some(path)])
            && Shows(p, Geth(key, s, net), path, FromSecret(key.name + "-jwt"), JWT_ENTRY)
  {
    hide Values, FlagName, GethArgs, NodeArgs, RenderAll, Labels, DataClaim, DataDirOf, Shows;
    JwtIsShared(key, s, net);
    var p, path, geth, node := DesiredSet(key, s, net), JWT_MOUNT + "/" + JWT_ENTRY, Geth(key, s, net), Node(s, net);
    var v := Volumes(key, s, net)[0];
    assert v in p.volumes;
    assert geth.mounts[1] == node.mounts[0] == Mount("jwt-secret", JWT_MOUNT);
    ShowsIt(p, geth, v, geth.mounts[1], path, FromSecret(key.name + "-jwt"), JWT_ENTRY);
    ShowsIt(p, node, v, node.mounts[0], path, FromSecret(key.name + "-jwt"), JWT_ENTRY);
  }

  /** The same of the P2P key file: it is the entry of the Secret the operator generates, or of the user's own. */
  lemma P2pFileIsTheSecret(key: Key, s: OpNodeSpec, net: Net)
    requires P2pOn(s) && HasP2pKey(s)
    ensures var (path, k) := (P2P_MOUNT + "/" + P2P_ENTRY, s.opNode.p2p.value.privateKey.value);
            && Values(Node(s, net).args, "--p2p.priv.path") == [Some(path)]
            && (k.generate || k.secretRef.Some?)
            && Shows(DesiredSet(key, s, net), Node(s, net), path,
                     FromSecret(if k.generate then key.name + "-p2p" else k.secretRef.value), P2P_ENTRY)
  {
    hide Values, FlagName, Geth, NodeArgs, RenderAll, Labels, DataClaim, Shows, SharedFlag;
    P2pSpelled();
    NodeSays(s, net, P2pKeyPath);
    SecretFiles();
    var p, path, node := DesiredSet(key, s, net), P2P_MOUNT + "/" + P2P_ENTRY, Node(s, net);
    var v := Volumes(key, s, net)[2];
    assert v in p.volumes;
    assert node.mounts[2] == Mount("p2p-key", P2P_MOUNT);
    ShowsIt(p, node, v, node.mounts[2], path, FromSecret(P2pSecretName(key, s)), P2P_ENTRY);
  }
}

/** pkg/resources: the StatefulSet and the Service an OpNode and its OptimismNetwork ask for. */
module Builders {
  import opened Types
  import opened Strings
  import opened Args
  import Images

  /** Namespace and name of one stored object. */
  datatype Key = Key(ns: string, name: string)

  /** What the builders read of an OptimismNetwork. */
  datatype Net = Net(name: string, spec: OptimismNetworkSpec)

  datatype Mount = Mount(volume: string, path: string)
  datatype Source = FromSecret(name: string) | FromConfigMap(name: string)
  datatype Volume = Volume(name: string, source: Source)
  datatype Container = Container(name: string, image: string, args: seq<string>, mounts: seq<Mount>)
  datatype Claim = Claim(name: string, labels: map<string, string>, accessMode: string, size: int, storageClass: string)
  datatype StatefulSetSpec = StatefulSetSpec(
    replicas: int, serviceName: string,
    selector: map<string, string>, podLabels: map<string, string>,
    containers: seq<Container>, volumes: seq<Volume>, claims: seq<Claim>)
  datatype ServicePort = ServicePort(name: string, port: int32, target: PortTarget, protocol: string)
  datatype ServiceSpec = ServiceSpec(serviceType: string, selector: map<string, string>, ports: seq<ServicePort>)

  /** The entries of the Secrets the operator makes, where the Secrets are mounted, and the files that result. */
  const JWT_ENTRY := "jwt"
  const P2P_ENTRY := "private-key"
  const JWT_MOUNT := "/secrets/jwt"
  const P2P_MOUNT := "/secrets/p2p"

  const TEBIBYTE := 0x100_0000_0000

  function DefaultString(v: string, d: string): string {
    if v == "" then d else v
  }

  function DefaultInt(v: int32, d: int32): int32 {
    if v == 0 then d else v
  }

  function Labels(key: Key, s: OpNodeSpec, net: Net): map<string, string> {
    map["app.kubernetes.io/name" := "opnode",
        "app.kubernetes.io/instance" := key.name,
        "app.kubernetes.io/component" := "consensus-layer",
        "app.kubernetes.io/part-of" := "op-stack",
        "app.kubernetes.io/managed-by" := "op-stack-operator",
        "optimism.io/network" := net.spec.networkName,
        "optimism.io/node-type" := s.nodeType]
  }

  /* ----- What a spec switches on ----- */

  predicate HttpOn(s: OpNodeSpec) {
    s.opGeth.networking.Some? && s.opGeth.networking.value.http.Some? && s.opGeth.networking.value.http.value.enabled
  }

  predicate WsOn(s: OpNodeSpec) {
    s.opGeth.networking.Some? && s.opGeth.networking.value.ws.Some? && s.opGeth.networking.value.ws.value.enabled
  }

  predicate AuthOn(s: OpNodeSpec) {
    s.opGeth.networking.Some? && s.opGeth.networking.value.authrpc.Some?
  }

  predicate RpcOn(s: OpNodeSpec) {
    s.opNode.rpc.Some? && s.opNode.rpc.value.enabled
  }

  predicate P2pOn(s: OpNodeSpec) {
    s.opNode.p2p.Some? && s.opNode.p2p.value.enabled
  }

  predicate KeyGiven(p: P2PConfig) {
    p.privateKey.Some? && (p.privateKey.value.generate || p.privateKey.value.secretRef.Some?)
  }

  predicate HasP2pKey(s: OpNodeSpec) {
    s.opNode.p2p.Some? && KeyGiven(s.opNode.p2p.value)
  }

  /* ----- Ports and endpoints ----- */

  function HttpPortOf(s: OpNodeSpec): int32 {
    if s.opGeth.networking.Some? && s.opGeth.networking.value.http.Some?
    then DefaultInt(s.opGeth.networking.value.http.value.port, 8545) else 8545
  }

  function AuthPortOf(s: OpNodeSpec): int32 {
    if AuthOn(s) then DefaultInt(s.opGeth.networking.value.authrpc.value.port, 8551) else 8551
  }

  function SequencerEndpoint(key: Key, s: OpNodeSpec, net: Net): string {
    if SequencerOn(s) then "http://127.0.0.1:" + Itoa(HttpPortOf(s))
    else if s.l2RpcUrl != "" then s.l2RpcUrl
    else if s.sequencerRef.Some? then
      var ref := s.sequencerRef.value;
      var service := if ref.namespace != "" && ref.namespace != key.ns
                     then ref.name + "." + ref.namespace + ".svc.cluster.local" else ref.name;
      "http://" + service + ":" + Itoa(8545)
    else "http://" + net.name + "-sequencer" + ":" + Itoa(8545)
  }

  /* ----- op-geth arguments ----- */

  function When(c: bool, a: Arg): seq<Arg> {
    if c then [a] else []
  }

  function DataDirOf(s: OpNodeSpec): string {
    if s.opGeth.dataDir != "" then s.opGeth.dataDir else "/data/geth"
  }

  function BaseArgs(key: Key, s: OpNodeSpec, net: Net): seq<Arg> {
    [Arg(DataDir, Some(DataDirOf(s))),
     Arg(NetworkId, Some(Itoa(net.spec.chainID))),
     Arg(SequencerHttp, Some(SequencerEndpoint(key, s, net))),
     Arg(SyncMode, Some(if s.opGeth.syncMode != "" then s.opGeth.syncMode else "snap"))]
  }

  function HttpArgs(h: HTTPConfig): seq<Arg> {
    [Arg(Http, None),
     Arg(HttpAddr, Some(DefaultString(h.host, "0.0.0.0"))),
     Arg(HttpPort, Some(Itoa(DefaultInt(h.port, 8545))))]
    + When(|h.apis| > 0, Arg(HttpApi, Some(Join(h.apis, ','))))
    + When(h.cors.Some? && |h.cors.value| > 0, Arg(HttpCors, Some(Join(h.cors.GetOr([]), ','))))
  }

  function WsArgs(w: WSConfig): seq<Arg> {
    [Arg(Ws, None),
     Arg(WsAddr, Some(DefaultString(w.host, "0.0.0.0"))),
     Arg(WsPort, Some(Itoa(DefaultInt(w.port, 8546))))]
    + When(|w.apis| > 0, Arg(WsApi, Some(Join(w.apis, ','))))
    + When(|w.origins| > 0, Arg(WsOrigins, Some(Join(w.origins, ','))))
  }

  function AuthArgs(a: AuthRPCConfig): seq<Arg> {
    [Arg(AuthAddr, Some(DefaultString(a.host, "127.0.0.1"))),
     Arg(AuthPort, Some(Itoa(DefaultInt(a.port, 8551)))),
     Arg(AuthJwt, Some("/secrets/jwt/jwt"))]
  }

  function GethArgs(key: Key, s: OpNodeSpec, net: Net): seq<Arg> {
    BaseArgs(key, s, net)
    + (if HttpOn(s) then HttpArgs(s.opGeth.networking.value.http.value) else [])
    + (if WsOn(s) then WsArgs(s.opGeth.networking.value.ws.value) else [])
    + (if AuthOn(s) then AuthArgs(s.opGeth.networking.value.authrpc.value) else [])
  }

  /* ----- op-node arguments ----- */

  function LinkArgs(s: OpNodeSpec, net: Net): seq<Arg> {
    [Arg(L1, Some(net.spec.l1RpcUrl)),
     Arg(L2, Some("http://127.0.0.1:" + Itoa(AuthPortOf(s)))),
     Arg(L2Jwt, Some("/secrets/jwt/jwt")),
     Arg(RollupFile, Some("/config/rollup.json"))]
    + When(net.spec.networkName != "", Arg(Flag.NetworkName, Some(net.spec.networkName)))
  }

  function RpcArgs(r: RPCConfig): seq<Arg> {
    [Arg(RpcAddr, Some(DefaultString(r.host, "0.0.0.0"))),
     Arg(RpcPort, Some(Itoa(DefaultInt(r.port, 9545))))]
    + When(r.enableAdmin, Arg(RpcAdmin, None))
  }

  function StaticArgs(peers: seq<string>): seq<Arg> {
    if peers == [] then [] else [Arg(P2pStatic, Some(peers[0]))] + StaticArgs(peers[1..])
  }

  function P2pArgs(p: P2PConfig): seq<Arg> {
    [Arg(P2pListen, Some(Itoa(DefaultInt(p.listenPort, 9003))))]
    + When(p.discovery == Some(false), Arg(P2pNoDiscovery, None))
    + StaticArgs(p.staticPeers)
    + When(KeyGiven(p),
           Arg(P2pKeyPath, Some("/secrets/p2p/private-key")))
  }

  function SequencerArgs(q: SequencerConfig): seq<Arg> {
    [Arg(Flag.SequencerEnabled, None)] + When(q.blockTime != "", Arg(SequencerConfs, Some("4")))
  }

  function SharedArgs(c: SharedConfig): seq<Arg> {
    (if c.logging.Some? then
       When(c.logging.value.level != "", Arg(LogLevel, Some(c.logging.value.level)))
       + When(c.logging.value.format != "", Arg(LogFormat, Some(c.logging.value.format)))
     else [])
    + (if c.metrics.Some? && c.metrics.value.enabled then
         [Arg(MetricsEnabled, None), Arg(MetricsAddr, Some("0.0.0.0")),
          Arg(MetricsPort, Some(Itoa(DefaultInt(c.metrics.value.port, 7300))))]
       else [])
  }

  function NodeArgs(s: OpNodeSpec, net: Net): seq<Arg> {
    LinkArgs(s, net)
    + (if RpcOn(s) then RpcArgs(s.opNode.rpc.value) else [])
    + (if P2pOn(s) then P2pArgs(s.opNode.p2p.value) else [])
    + (if SequencerOn(s) then SequencerArgs(s.opNode.sequencer.value) else [])
    + (if net.spec.shared.Some? then SharedArgs(net.spec.shared.value) else [])
  }

  /* ----- Pod ----- */

  function Geth(key: Key, s: OpNodeSpec, net: Net): Container {
    Container("op-geth", Images.Image(Images.OpGeth, Images.DEFAULTS.opGeth), RenderAll(GethArgs(key, s, net)),
              [Mount("geth-data", DataDirOf(s)), Mount("jwt-secret", JWT_MOUNT), Mount("rollup-config", "/config")])
  }

  function Node(s: OpNodeSpec, net: Net): Container {
    Container("op-node", Images.Image(Images.OpNode, Images.DEFAULTS.opNode), RenderAll(NodeArgs(s, net)),
              [Mount("jwt-secret", JWT_MOUNT), Mount("rollup-config", "/config")]
              + if HasP2pKey(s) then [Mount("p2p-key", P2P_MOUNT)] else [])
  }

  function P2pSecretName(key: Key, s: OpNodeSpec): string
    requires HasP2pKey(s)
  {
    var k := s.opNode.p2p.value.privateKey.value;
    if k.generate then key.name + "-p2p" else k.secretRef.value
  }

  function Volumes(key: Key, s: OpNodeSpec, net: Net): seq<Volume> {
    [Volume("jwt-secret", FromSecret(key.name + "-jwt")),
     Volume("rollup-config", FromConfigMap(net.name + "-rollup-config"))]
    + if HasP2pKey(s) then [Volume("p2p-key", FromSecret(P2pSecretName(key, s)))] else []
  }

  function DataClaim(labels: map<string, string>, storage: Option<StorageConfig>): Claim {
    Claim("geth-data", labels,
          if storage.Some? && storage.value.accessMode != "" then storage.value.accessMode else "ReadWriteOnce",
          if storage.Some? && storage.value.size != 0 then storage.value.size else TEBIBYTE,
          if storage.Some? && storage.value.storageClass != "" then storage.value.storageClass else "fast-ssd")
  }

  function DesiredSet(key: Key, s: OpNodeSpec, net: Net): StatefulSetSpec {
    var labels := Labels(key, s, net);
    StatefulSetSpec(1, key.name, labels, labels, [Geth(key, s, net), Node(s, net)],
                    Volumes(key, s, net), [DataClaim(labels, s.opGeth.storage)])
  }

  /* ----- Service ----- */

  /** The names of the default ports. */
  const GETH_HTTP := "geth-http"
  const GETH_WS := "geth-ws"
  const GETH_P2P := "geth-p2p"
  const NODE_RPC := "node-rpc"
  const NODE_P2P := "node-p2p"
  const METRICS := "metrics"

  lemma PortNamesDiffer()
    ensures Different([GETH_HTTP, GETH_WS, GETH_P2P, NODE_RPC, NODE_P2P, METRICS])
  {
    assert GETH_WS[0] != METRICS[0];
    assert GETH_P2P[0] != NODE_RPC[0] && GETH_P2P[0] != NODE_P2P[0] && NODE_RPC[5] != NODE_P2P[5];
  }

  predicate Different(names: seq<string>) {
    forall i, j :: 0 <= i < j < |names| ==> names[i] != names[j]
  }

  function Tcp(name: string, port: int32): ServicePort {
    ServicePort(name, port, PortTarget(port, ""), "TCP")
  }

  function CustomPort(c: ServicePortConfig): ServicePort {
    ServicePort(c.name, c.port,
                if c.target.intVal != 0 || c.target.strVal != "" then c.target else PortTarget(c.port, ""),
                if c.protocol != "" then c.protocol else "TCP")
  }

  function HttpPorts(s: OpNodeSpec): seq<ServicePort> {
    if HttpOn(s) then [Tcp(GETH_HTTP, DefaultInt(s.opGeth.networking.value.http.value.port, 8545))] else []
  }

  function WsPorts(s: OpNodeSpec): seq<ServicePort> {
    if WsOn(s) then [Tcp(GETH_WS, DefaultInt(s.opGeth.networking.value.ws.value.port, 8546))] else []
  }

  function GethP2pPorts(s: OpNodeSpec): seq<ServicePort> {
    if s.opGeth.networking.Some? && s.opGeth.networking.value.p2pPort.Some?
    then [Tcp(GETH_P2P, DefaultInt(s.opGeth.networking.value.p2pPort.value, 30303))] else []
  }

  function RpcPorts(s: OpNodeSpec): seq<ServicePort> {
    if RpcOn(s) then [Tcp(NODE_RPC, DefaultInt(s.opNode.rpc.value.port, 9545))] else []
  }

  function P2pPorts(s: OpNodeSpec): seq<ServicePort> {
    if P2pOn(s) then [Tcp(NODE_P2P, DefaultInt(s.opNode.p2p.value.listenPort, 9003))] else []
  }

  function DefaultPorts(s: OpNodeSpec): seq<ServicePort> {
    HttpPorts(s) + WsPorts(s) + GethP2pPorts(s) + RpcPorts(s) + P2pPorts(s) + [Tcp(METRICS, 7300)]
  }

  predicate HasCustomPorts(s: OpNodeSpec) {
    s.service.Some? && |s.service.value.ports| > 0
  }

  function Ports(s: OpNodeSpec): seq<ServicePort> {
    if HasCustomPorts(s) then
      var ports := s.service.value.ports;
      seq(|ports|, i requires 0 <= i < |ports| => CustomPort(ports[i]))
    else DefaultPorts(s)
  }

  function DesiredService(key: Key, s: OpNodeSpec, net: Net): ServiceSpec {
    ServiceSpec(if s.service.Some? && s.service.value.serviceType != "" then s.service.value.serviceType
                else "ClusterIP",
                Labels(key, s, net), Ports(s))
  }

  /** A selector takes the pods that have all its labels. */
  predicate Selects(selector: map<string, string>, labels: map<string, string>) {
    forall l :: l in selector ==> l in labels && labels[l] == selector[l]
  }

  function ServiceAnnotations(s: OpNodeSpec): map<string, string> {
    if s.service.Some? then s.service.value.annotations else map[]
  }
}

/** The values the operator reads and writes: specs, statuses and conditions of the two
    custom resources.  A Go pointer to a struct is an Option.  Fields no modelled code reads
    are gathered in one `unread` field, so that an edit to them still is a spec change. */
module Types {

  datatype Option<+T> = None | Some(value: T) {
    function GetOr(d: T): T {
      if Some? then value else d
    }
  }

  type int32 = x: int | -0x8000_0000 <= x < 0x8000_0000
  type int64 = x: int | -0x8000_0000_0000_0000 <= x < 0x8000_0000_0000_0000

  /* ----- OpNode spec ----- */

  datatype SecretKeyRef = SecretKeyRef(secretRef: Option<string>, generate: bool)
  datatype P2PConfig = P2PConfig(enabled: bool, listenPort: int32, discovery: Option<bool>,
                                 staticPeers: seq<string>, privateKey: Option<SecretKeyRef>)
  datatype RPCConfig = RPCConfig(enabled: bool, host: string, port: int32, enableAdmin: bool)
  datatype SequencerConfig = SequencerConfig(enabled: bool, blockTime: string)
  datatype OpNodeConfig = OpNodeConfig(p2p: Option<P2PConfig>, rpc: Option<RPCConfig>,
                                       sequencer: Option<SequencerConfig>)

  datatype StorageConfig = StorageConfig(size: int, storageClass: string, accessMode: string)
  datatype HTTPConfig = HTTPConfig(enabled: bool, host: string, port: int32, apis: seq<string>,
                                   cors: Option<seq<string>>)
  datatype WSConfig = WSConfig(enabled: bool, host: string, port: int32, apis: seq<string>,
                               origins: seq<string>)
  datatype AuthRPCConfig = AuthRPCConfig(host: string, port: int32)
  datatype GethNetworking = GethNetworking(http: Option<HTTPConfig>, ws: Option<WSConfig>,
                                           authrpc: Option<AuthRPCConfig>, p2pPort: Option<int32>)
  datatype OpGethConfig = OpGethConfig(dataDir: string, storage: Option<StorageConfig>, syncMode: string,
                                       networking: Option<GethNetworking>)

  datatype PortTarget = PortTarget(intVal: int32, strVal: string)
  datatype ServicePortConfig = ServicePortConfig(name: string, port: int32, target: PortTarget, protocol: string)
  datatype ServiceConfig = ServiceConfig(serviceType: string, annotations: map<string, string>,
                                         ports: seq<ServicePortConfig>)
  datatype Reference = Reference(name: string, namespace: string)

  datatype OpNodeSpec = OpNodeSpec(
    networkRef: Reference,
    nodeType: string,
    sequencerRef: Option<Reference>,
    l2RpcUrl: string,
    opNode: OpNodeConfig,
    opGeth: OpGethConfig,
    service: Option<ServiceConfig>,
    unread: string)

  /* ----- OptimismNetwork spec ----- */

  datatype ConfigSource = ConfigSource(inlined: string, configMapRef: Option<string>, autoDiscover: bool)
  datatype ContractAddressConfig = ContractAddressConfig(
    systemConfig: string, l2OutputOracle: string, disputeGameFactory: string, optimismPortal: string,
    discoveryMethod: string, cacheTimeout: int64)
  datatype LoggingConfig = LoggingConfig(level: string, format: string)
  datatype MetricsConfig = MetricsConfig(enabled: bool, port: int32)
  datatype SharedConfig = SharedConfig(logging: Option<LoggingConfig>, metrics: Option<MetricsConfig>)

  datatype OptimismNetworkSpec = OptimismNetworkSpec(
    networkName: string,
    chainID: int64,
    l1ChainID: int64,
    l1RpcUrl: string,
    rollupConfig: Option<ConfigSource>,
    l2Genesis: Option<ConfigSource>,
    contracts: Option<ContractAddressConfig>,
    shared: Option<SharedConfig>,
    unread: string)

  datatype Addresses = Addresses(
    l2OutputOracle: string, disputeGameFactory: string, optimismPortal: string, systemConfig: string,
    l1CrossDomainMessenger: string, l1StandardBridge: string,
    l2CrossDomainMessenger: string, l2StandardBridge: string, l2ToL1MessagePasser: string,
    lastDiscoveryTime: int, discoveryMethod: string)

  /* ----- Status ----- */

  datatype Phase = NoPhase | Pending | Initializing | Running | Error | Stopped | Ready

  /** The condition types the two controllers use, and every other one. */
  datatype ConditionType =
    | ConfigurationValid | NetworkReference | NetworkReady | SecretsReady | StatefulSetReady | ServiceReady
    | L1Connected | ContractsDiscovered
    | Named(name: string)

  datatype ConditionStatus = True | False | Unknown

  datatype Condition = Condition(ctype: ConditionType, status: ConditionStatus, reason: string, message: string,
                                 lastTransition: int, observedGeneration: int)

  datatype ChainHead = ChainHead(blockNumber: int64, blockHash: string, timestamp: int)
  datatype SyncStatus = SyncStatus(currentBlock: int64, highestBlock: int64, syncing: bool)
  datatype NodeInfo = NodeInfo(chainHead: Option<ChainHead>, syncStatus: Option<SyncStatus>,
                               peerCount: int32, engineConnected: bool)
  datatype NetworkInfo = NetworkInfo(deployed: int, lastUpdated: int, contracts: Option<Addresses>)

  /** Both resources have a phase, conditions and an observed generation; each has one kind of info. */
  datatype Status = Status(phase: Phase, conditions: seq<Condition>, observedGeneration: int,
                           nodeInfo: Option<NodeInfo>, networkInfo: Option<NetworkInfo>)

  const EMPTY_STATUS := Status(NoPhase, [], 0, None, None)

  /* ----- Validation ----- */

  /** `validateConfiguration` of an OpNode: the first complaint, or None. */
  function NodeSpecError(s: OpNodeSpec): Option<string> {
    if s.networkRef.name == "" then Some("optimismNetworkRef.name is required")
    else if s.nodeType == "" then Some("nodeType is required")
    else if s.nodeType != "sequencer" && s.nodeType != "replica" then Some("nodeType must be 'sequencer' or 'replica'")
    else if s.nodeType == "sequencer" && (s.opNode.sequencer.None? || !s.opNode.sequencer.value.enabled) then
      Some("sequencer configuration is required for sequencer nodes")
    else if s.nodeType == "sequencer" && s.opNode.p2p.Some? && s.opNode.p2p.value.discovery == Some(true) then
      Some("sequencer nodes should have P2P discovery disabled for security")
    else if s.nodeType == "sequencer" && s.l2RpcUrl != "" &&
            (|s.l2RpcUrl| < 7 || (!("http://" <= s.l2RpcUrl) && !("https://" <= s.l2RpcUrl))) then
      Some("L2RpcUrl must be a valid HTTP/HTTPS URL")
    else if s.opGeth.storage.Some? && s.opGeth.storage.value.size == 0 then Some("storage size must be specified")
    else None
  }

  /** `validateConfigSource`: more than one of the three sources is an error. */
  function SourceCount(c: ConfigSource): nat {
    (if c.inlined != "" then 1 else 0) + (if c.configMapRef.Some? then 1 else 0) + (if c.autoDiscover then 1 else 0)
  }

  predicate SourceOk(c: Option<ConfigSource>) {
    c.None? || SourceCount(c.value) <= 1
  }

  /** `validateConfiguration` of an OptimismNetwork. */
  function NetworkSpecError(s: OptimismNetworkSpec): Option<string> {
    if s.chainID == 0 then Some("chainID is required")
    else if s.l1ChainID == 0 then Some("l1ChainID is required")
    else if s.l1RpcUrl == "" then Some("l1RpcUrl is required")
    else if s.chainID == s.l1ChainID then Some("chainID cannot be the same as l1ChainID")
    else if !SourceOk(s.rollupConfig)
        then Some("rollupConfig: only one of inline, configMapRef, or autoDiscover can be specified")
    else if !SourceOk(s.l2Genesis)
        then Some("l2Genesis: only one of inline, configMapRef, or autoDiscover can be specified")
    else None
  }

  predicate SequencerOn(s: OpNodeSpec) {
    s.opNode.sequencer.Some? && s.opNode.sequencer.value.enabled
  }

  predicate Discovers(s: OpNodeSpec) {
    s.opNode.p2p.Some? && s.opNode.p2p.value.discovery == Some(true)
  }

  /** The specs an OpNode may have.  The demands on the sequencer section, on P2P discovery and on the URL bind
      sequencers only; the length of the URL plays no part of its own. */
  lemma NodeSpecAccepted(s: OpNodeSpec)
    ensures NodeSpecError(s).None? <==>
            && s.networkRef.name != ""
            && (s.nodeType == "replica" || s.nodeType == "sequencer")
            && (s.nodeType == "sequencer" ==>
                  SequencerOn(s) && !Discovers(s)
                  && (s.l2RpcUrl == "" || "http://" <= s.l2RpcUrl || "https://" <= s.l2RpcUrl))
            && (s.opGeth.storage.Some? ==> s.opGeth.storage.value.size != 0)
  {
  }

  /** What an OpNode is told: a spec with one fault is told that fault. */
  lemma NodeFaultIsNamed(s: OpNodeSpec)
    ensures s.networkRef.name == "" ==> NodeSpecError(s) == Some("optimismNetworkRef.name is required")
    ensures s.networkRef.name != "" ==>
              && (s.nodeType == "" ==> NodeSpecError(s) == Some("nodeType is required"))
              && (s.nodeType !in {"", "sequencer", "replica"} ==>
                    NodeSpecError(s) == Some("nodeType must be 'sequencer' or 'replica'"))
              && (s.nodeType == "sequencer" && !SequencerOn(s) ==>
                    NodeSpecError(s) == Some("sequencer configuration is required for sequencer nodes"))
              && (s.nodeType == "sequencer" && SequencerOn(s) && Discovers(s) ==>
                    NodeSpecError(s) == Some("sequencer nodes should have P2P discovery disabled for security"))
              && (s.nodeType == "sequencer" && SequencerOn(s) && !Discovers(s) && s.l2RpcUrl != ""
                  && !("http://" <= s.l2RpcUrl) && !("https://" <= s.l2RpcUrl) ==>
                    NodeSpecError(s) == Some("L2RpcUrl must be a valid HTTP/HTTPS URL"))
              && (s.nodeType == "replica" && NodeSpecError(s).Some? ==>
                    NodeSpecError(s) == Some("storage size must be specified"))
  {
  }

  /** No two of the three sources of one configuration. */
  predicate AtMostOneSource(c: ConfigSource) {
    && !(c.inlined != "" && c.configMapRef.Some?) && !(c.inlined != "" && c.autoDiscover)
    && !(c.configMapRef.Some? && c.autoDiscover)
  }

  lemma SourceAccepted(c: Option<ConfigSource>)
    ensures SourceOk(c) <==> (c.Some? ==> AtMostOneSource(c.value))
  {
  }

  lemma NetworkSpecAccepted(s: OptimismNetworkSpec)
    ensures NetworkSpecError(s).None? <==>
            && s.chainID != 0 && s.l1ChainID != 0 && s.chainID != s.l1ChainID && s.l1RpcUrl != ""
            && (s.rollupConfig.Some? ==> AtMostOneSource(s.rollupConfig.value))
            && (s.l2Genesis.Some? ==> AtMostOneSource(s.l2Genesis.value))
  {
    hide SourceOk, AtMostOneSource;
    SourceAccepted(s.rollupConfig);
    SourceAccepted(s.l2Genesis);
  }

  /** What a network is told: a spec with one fault is told that fault. */
  lemma NetworkFaultIsNamed(s: OptimismNetworkSpec)
    ensures s.chainID == 0 ==> NetworkSpecError(s) == Some("chainID is required")
    ensures s.chainID != 0 ==>
              && (s.l1ChainID == 0 ==> NetworkSpecError(s) == Some("l1ChainID is required"))
              && (s.l1ChainID != 0 && s.l1RpcUrl == "" ==> NetworkSpecError(s) == Some("l1RpcUrl is required"))
              && (s.l1ChainID == s.chainID && s.l1RpcUrl != "" ==>
                    NetworkSpecError(s) == Some("chainID cannot be the same as l1ChainID"))
    ensures s.chainID != 0 && s.l1ChainID != 0 && s.l1ChainID != s.chainID && s.l1RpcUrl != "" ==>
              && (!SourceOk(s.rollupConfig) ==>
                    NetworkSpecError(s) ==
                    Some("rollupConfig: only one of inline, configMapRef, or autoDiscover can be specified"))
              && (SourceOk(s.rollupConfig) && !SourceOk(s.l2Genesis) ==>
                    NetworkSpecError(s) ==
                    Some("l2Genesis: only one of inline, configMapRef, or autoDiscover can be specified"))
  {
    hide SourceOk;
  }

  predicate Generates(s: OpNodeSpec) {
    s.opNode.p2p.Some? && s.opNode.p2p.value.privateKey.Some? && s.opNode.p2p.value.privateKey.value.generate
  }

  predicate AutoDiscovers(c: Option<ConfigSource>) {
    c.Some? && c.value.autoDiscover
  }
}

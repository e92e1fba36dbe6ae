/** What the StatefulSet and the Service ask the cluster for, in the terms of the spec. */
module Manifests {
  import opened Types
  import opened Strings
  import opened Args
  import opened Builders
  import opened Decode
  import opened Wiring
  import Images

  /* ----- Selectors ----- */

  /** The Service of one OpNode selects the pods of another exactly if they agree on name, network name and node type.
      */
  lemma SelectsIff(k: Key, s: OpNodeSpec, net: Net, k': Key, s': OpNodeSpec, net': Net)
    ensures Selects(DesiredService(k, s, net).selector, DesiredSet(k', s', net').podLabels) <==>
            k.name == k'.name && net.spec.networkName == net'.spec.networkName && s.nodeType == s'.nodeType
  {
    hide Geth, Node, Volumes, DataClaim, Ports;
    LabelsDiffer();
    var l, l' := Labels(k, s, net), Labels(k', s', net');
    assert "app.kubernetes.io/instance" in l && "optimism.io/network" in l && "optimism.io/node-type" in l;
    if k.name == k'.name && net.spec.networkName == net'.spec.networkName && s.nodeType == s'.nodeType {
      assert l == l';
    }
  }

  lemma LabelsDiffer()
    ensures "app.kubernetes.io/instance" != "optimism.io/network" && "optimism.io/network" != "optimism.io/node-type"
  {
    assert "optimism.io/network"[13] != "optimism.io/node-type"[13];
  }

  /** The labels that are the same for all: what the objects of the operator are found by. */
  lemma CommonLabels(k: Key, s: OpNodeSpec, net: Net)
    ensures Selects(map["app.kubernetes.io/name" := "opnode", "app.kubernetes.io/component" := "consensus-layer",
                        "app.kubernetes.io/part-of" := "op-stack",
                        "app.kubernetes.io/managed-by" := "op-stack-operator"],
                    Labels(k, s, net))
  {
  }

  /* ----- The pod ----- */

  /** One pod with two containers of the default images, whose Service has the OpNode's name, and one claim. */
  lemma PodSays(key: Key, s: OpNodeSpec, net: Net)
    ensures var p := DesiredSet(key, s, net);
            && p.replicas == 1 && p.serviceName == key.name && p.selector == p.podLabels
            && p.containers == [Geth(key, s, net), Node(s, net)] && |p.claims| == 1
            && p.containers[0].name == "op-geth" && p.containers[1].name == "op-node"
            && p.containers[0].image == Images.REGISTRY + "/op-geth:v1.101511.0"
            && p.containers[1].image == Images.REGISTRY + "/op-node:v1.13.3"
  {
    hide Labels, GethArgs, NodeArgs, RenderAll, Volumes, DataClaim, DataDirOf, HasP2pKey, Images.Image;
    Images.DefaultImages();
  }

  /** The claim is what the spec says of storage, where it says something. */
  lemma ClaimSays(key: Key, s: OpNodeSpec, net: Net)
    ensures var p := DesiredSet(key, s, net);
            && |p.claims| == 1
            && var (c, g) := (p.claims[0], s.opGeth.storage);
               && c.name == "geth-data" && c.labels == p.podLabels
               && (g.Some? && g.value.size != 0 ==> c.size == g.value.size)
               && (g.None? || g.value.size == 0 ==> c.size == 1024 * 1024 * 1024 * 1024)
               && (g.Some? && g.value.storageClass != "" ==> c.storageClass == g.value.storageClass)
               && (g.None? || g.value.storageClass == "" ==> c.storageClass == "fast-ssd")
               && (g.Some? && g.value.accessMode != "" ==> c.accessMode == g.value.accessMode)
               && (g.None? || g.value.accessMode == "" ==> c.accessMode == "ReadWriteOnce")
  {
    hide Labels, Geth, Node, Volumes;
  }

  /** The rollup configuration op-node is told of is a file of the ConfigMap named after the network. */
  lemma RollupFileIsTheConfigMap(key: Key, s: OpNodeSpec, net: Net)
    ensures var node := Node(s, net);
            Shows(DesiredSet(key, s, net), node, Given(node.args, "--rollup.config"),
                  FromConfigMap(net.name + "-rollup-config"), "rollup.json")
  {
    hide Values, GethArgs, NodeArgs, RenderAll, Labels, DataClaim, Shows, DataDirOf, HasP2pKey;
    BaseDecodes(key, s, net);
    var p, node := DesiredSet(key, s, net), Node(s, net);
    var v := Volumes(key, s, net)[1];
    assert v in p.volumes;
    assert node.mounts[1] == Mount("rollup-config", "/config");
    assert "/config" + "/" + "rollup.json" == "/config/rollup.json";
    ShowsIt(p, node, v, node.mounts[1], "/config/rollup.json", FromConfigMap(net.name + "-rollup-config"),
            "rollup.json");
  }

  /* ----- The Service ----- */

  /** The Service goes by the spec where that says something. */
  lemma ServiceSays(key: Key, s: OpNodeSpec, net: Net)
    ensures var (p, c) := (DesiredService(key, s, net), s.service);
            && p.selector == DesiredSet(key, s, net).podLabels
            && (c.Some? && c.value.serviceType != "" ==> p.serviceType == c.value.serviceType)
            && (c.None? || c.value.serviceType == "" ==> p.serviceType == "ClusterIP")
            && ServiceAnnotations(s) == (if c.Some? then c.value.annotations else map[])
  {
    hide Labels, Geth, Node, Volumes, DataClaim, Ports;
  }

  /** Custom ports, in order: a port without a target goes to the same number, and one without a protocol is TCP. */
  lemma CustomPortsSay(key: Key, s: OpNodeSpec, net: Net, i: nat)
    requires s.service.Some? && i < |s.service.value.ports|
    ensures var ports := DesiredService(key, s, net).ports;
            && |ports| == |s.service.value.ports|
            && var (p, c) := (ports[i], s.service.value.ports[i]);
               && p.name == c.name && p.port == c.port
               && (c.target == PortTarget(0, "") ==> p.target == PortTarget(c.port, ""))
               && (c.target != PortTarget(0, "") ==> p.target == c.target)
               && (c.protocol == "" ==> p.protocol == "TCP") && (c.protocol != "" ==> p.protocol == c.protocol)
  {
    hide Labels;
  }

  predicate OwnTarget(p: ServicePort) {
    p.target == PortTarget(p.port, "") && p.protocol == "TCP"
  }

  predicate OwnTargets(ports: seq<ServicePort>) {
    forall i :: 0 <= i < |ports| ==> OwnTarget(ports[i])
  }

  lemma OwnConcat(a: seq<ServicePort>, b: seq<ServicePort>)
    ensures OwnTargets(a) && OwnTargets(b) ==> OwnTargets(a + b)
  {
    hide OwnTarget;
  }

  lemma PartsOwn(s: OpNodeSpec)
    ensures OwnTargets(HttpPorts(s)) && OwnTargets(WsPorts(s)) && OwnTargets(GethP2pPorts(s))
    ensures OwnTargets(RpcPorts(s)) && OwnTargets(P2pPorts(s)) && OwnTargets([Tcp(METRICS, 7300)])
  {
    hide DefaultInt, GETH_HTTP, GETH_WS, GETH_P2P, NODE_RPC, NODE_P2P, METRICS;
  }

  /** Every default port is TCP and goes to its own number. */
  lemma DefaultPortsAreOwn(key: Key, s: OpNodeSpec, net: Net, i: nat)
    requires !HasCustomPorts(s) && i < |DesiredService(key, s, net).ports|
    ensures var p := DesiredService(key, s, net).ports[i];
            p.target == PortTarget(p.port, "") && p.protocol == "TCP"
  {
    hide Labels, OwnTargets, HttpPorts, WsPorts, GethP2pPorts, RpcPorts, P2pPorts, Tcp;
    PartsOwn(s);
    var (a, b) := (HttpPorts(s) + WsPorts(s), HttpPorts(s) + WsPorts(s) + GethP2pPorts(s));
    OwnConcat(HttpPorts(s), WsPorts(s));
    OwnConcat(a, GethP2pPorts(s));
    OwnConcat(b, RpcPorts(s));
    OwnConcat(b + RpcPorts(s), P2pPorts(s));
    OwnConcat(b + RpcPorts(s) + P2pPorts(s), [Tcp(METRICS, 7300)]);
    OwnAt(DefaultPorts(s), i);
  }

  lemma OwnAt(ports: seq<ServicePort>, i: nat)
    requires OwnTargets(ports) && i < |ports|
    ensures OwnTarget(ports[i])
  {
  }
}

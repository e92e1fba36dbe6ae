/** pkg/resources as the source writes it: argument lists, volumes and ports grown step by step.  Each method is
    proved to build what the functions of Builders describe. */
module Assembly {
  import opened Types
  import opened Strings
  import opened Args
  import opened Builders
  import opened Decode
  import Images

  /** `"--flag=" + v` */
  function Opt(f: Flag, v: string): (r: string)
    ensures r == Render(Arg(f, Some(v)))
  {
    FlagName(f) + ("=" + v)
  }

  function Switch(f: Flag): (r: string)
    ensures r == Render(Arg(f, None))
  {
    FlagName(f)
  }

  lemma RenderWhen(c: bool, a: Arg)
    ensures RenderAll(When(c, a)) == if c then [Render(a)] else []
  {
    hide Render;
  }

  lemma RenderConcat(l: seq<Arg>, m: seq<Arg>)
    ensures RenderAll(l + m) == RenderAll(l) + RenderAll(m)
  {
    hide Render;
  }

  lemma RenderThree(a: Arg, b: Arg, c: Arg)
    ensures RenderAll([a, b, c]) == [Render(a), Render(b), Render(c)]
  {
    hide Render;
  }

  lemma RenderTwo(a: Arg, b: Arg)
    ensures RenderAll([a, b]) == [Render(a), Render(b)]
    ensures RenderAll([a]) == [Render(a)]
  {
    hide Render;
  }

  method HttpFlags(args: seq<string>, s: OpNodeSpec) returns (r: seq<string>)
    ensures r == args + RenderAll(Decode.HttpSection(s))
  {
    hide RenderAll, Render, Join, Itoa, FlagName, DefaultString, DefaultInt, When, Opt, Switch;
    r := args;
    if s.opGeth.networking.Some? && s.opGeth.networking.value.http.Some?
       && s.opGeth.networking.value.http.value.enabled {
      var h := s.opGeth.networking.value.http.value;
      ghost var origins := h.cors.GetOr([]);
      ghost var a := [Arg(Http, None), Arg(HttpAddr, Some(DefaultString(h.host, "0.0.0.0"))),
                      Arg(Flag.HttpPort, Some(Itoa(DefaultInt(h.port, 8545))))];
      ghost var b := When(|h.apis| > 0, Arg(HttpApi, Some(Join(h.apis, ','))));
      ghost var c := When(h.cors.Some? && |h.cors.value| > 0, Arg(HttpCors, Some(Join(origins, ','))));
      RenderThree(a[0], a[1], a[2]);
      RenderWhen(|h.apis| > 0, Arg(HttpApi, Some(Join(h.apis, ','))));
      RenderWhen(h.cors.Some? && |h.cors.value| > 0, Arg(HttpCors, Some(Join(origins, ','))));
      RenderConcat(a + b, c);
      RenderConcat(a, b);
      r := r + [Switch(Http)];
      r := r + [Opt(HttpAddr, DefaultString(h.host, "0.0.0.0"))];
      r := r + [Opt(Flag.HttpPort, Itoa(DefaultInt(h.port, 8545)))];
      assert r == args + RenderAll(a);
      if |h.apis| > 0 {
        var apis := JoinStrings(h.apis);
        r := r + [Opt(HttpApi, apis)];
      }
      assert r == args + RenderAll(a + b);
      if h.cors.Some? && |h.cors.value| > 0 {
        var joined := JoinStrings(h.cors.value);
        r := r + [Opt(HttpCors, joined)];
      }
    }
  }

  method WsFlags(args: seq<string>, s: OpNodeSpec) returns (r: seq<string>)
    ensures r == args + RenderAll(Decode.WsSection(s))
  {
    hide RenderAll, Render, Join, Itoa, FlagName, DefaultString, DefaultInt, When, Opt, Switch;
    r := args;
    if s.opGeth.networking.Some? && s.opGeth.networking.value.ws.Some? && s.opGeth.networking.value.ws.value.enabled {
      var w := s.opGeth.networking.value.ws.value;
      ghost var a := [Arg(Ws, None), Arg(WsAddr, Some(DefaultString(w.host, "0.0.0.0"))),
                      Arg(Flag.WsPort, Some(Itoa(DefaultInt(w.port, 8546))))];
      ghost var b := When(|w.apis| > 0, Arg(WsApi, Some(Join(w.apis, ','))));
      ghost var c := When(|w.origins| > 0, Arg(WsOrigins, Some(Join(w.origins, ','))));
      RenderThree(a[0], a[1], a[2]);
      RenderWhen(|w.apis| > 0, Arg(WsApi, Some(Join(w.apis, ','))));
      RenderWhen(|w.origins| > 0, Arg(WsOrigins, Some(Join(w.origins, ','))));
      RenderConcat(a + b, c);
      RenderConcat(a, b);
      r := r + [Switch(Ws)];
      r := r + [Opt(WsAddr, DefaultString(w.host, "0.0.0.0"))];
      r := r + [Opt(Flag.WsPort, Itoa(DefaultInt(w.port, 8546)))];
      assert r == args + RenderAll(a);
      if |w.apis| > 0 {
        var apis := JoinStrings(w.apis);
        r := r + [Opt(WsApi, apis)];
      }
      assert r == args + RenderAll(a + b);
      if |w.origins| > 0 {
        var origins := JoinStrings(w.origins);
        r := r + [Opt(WsOrigins, origins)];
      }
    }
  }

  method AuthFlags(args: seq<string>, s: OpNodeSpec) returns (r: seq<string>)
    ensures r == args + RenderAll(Decode.AuthSection(s))
  {
    hide RenderAll, Render, Itoa, FlagName, DefaultString, DefaultInt, Opt, Switch;
    r := args;
    if s.opGeth.networking.Some? && s.opGeth.networking.value.authrpc.Some? {
      var a := s.opGeth.networking.value.authrpc.value;
      RenderThree(AuthArgs(a)[0], AuthArgs(a)[1], AuthArgs(a)[2]);
      r := r + [Opt(AuthAddr, DefaultString(a.host, "127.0.0.1"))];
      r := r + [Opt(Flag.AuthPort, Itoa(DefaultInt(a.port, 8551)))];
      r := r + [Opt(AuthJwt, "/secrets/jwt/jwt")];
    }
  }

  method CreateOpGethContainer(key: Key, s: OpNodeSpec, net: Net) returns (c: Container)
    ensures c == Geth(key, s, net)
  {
    hide RenderAll, Render, Itoa, FlagName, Opt, Switch, SequencerEndpoint, Decode.HttpSection, Decode.WsSection;
    hide Decode.AuthSection;
    var dataDir := "/data/geth";
    if s.opGeth.dataDir != "" {
      dataDir := s.opGeth.dataDir;
    }
    var args := [Opt(DataDir, dataDir), Opt(Flag.NetworkId, Itoa(net.spec.chainID)),
                 Opt(SequencerHttp, SequencerEndpoint(key, s, net))];
    var syncMode := "snap";
    if s.opGeth.syncMode != "" {
      syncMode := s.opGeth.syncMode;
    }
    args := args + [Opt(SyncMode, syncMode)];
    ghost var b := BaseArgs(key, s, net);
    assert b == [b[0], b[1], b[2]] + [b[3]];
    RenderConcat([b[0], b[1], b[2]], [b[3]]);
    RenderThree(b[0], b[1], b[2]);
    RenderTwo(b[3], b[3]);
    assert args == RenderAll(b);
    args := HttpFlags(args, s);
    RenderConcat(b, Decode.HttpSection(s));
    args := WsFlags(args, s);
    RenderConcat(b + Decode.HttpSection(s), Decode.WsSection(s));
    args := AuthFlags(args, s);
    RenderConcat(b + Decode.HttpSection(s) + Decode.WsSection(s), Decode.AuthSection(s));
    GethParts(key, s, net);
    c := Container("op-geth", Images.Image(Images.OpGeth, Images.DEFAULTS.opGeth), args,
                   [Mount("geth-data", dataDir), Mount("jwt-secret", "/secrets/jwt"),
                    Mount("rollup-config", "/config")]);
  }

  /* ----- op-node ----- */

  method LinkFlags(s: OpNodeSpec, net: Net) returns (args: seq<string>)
    ensures args == RenderAll(LinkArgs(s, net))
  {
    hide RenderAll, Render, Itoa, FlagName, When, Opt, AuthPortOf;
    args := [Opt(L1, net.spec.l1RpcUrl), Opt(L2, "http://127.0.0.1:" + Itoa(AuthPortOf(s))),
             Opt(L2Jwt, "/secrets/jwt/jwt"), Opt(RollupFile, "/config/rollup.json")];
    ghost var a := [Arg(L1, Some(net.spec.l1RpcUrl)), Arg(L2, Some("http://127.0.0.1:" + Itoa(AuthPortOf(s)))),
                    Arg(L2Jwt, Some("/secrets/jwt/jwt")), Arg(RollupFile, Some("/config/rollup.json"))];
    assert a == [a[0], a[1]] + [a[2], a[3]];
    RenderConcat([a[0], a[1]], [a[2], a[3]]);
    RenderTwo(a[0], a[1]);
    RenderTwo(a[2], a[3]);
    assert args == RenderAll(a);
    if net.spec.networkName != "" {
      args := args + [Opt(Flag.NetworkName, net.spec.networkName)];
    }
    RenderWhen(net.spec.networkName != "", Arg(Flag.NetworkName, Some(net.spec.networkName)));
    RenderConcat(a, When(net.spec.networkName != "", Arg(Flag.NetworkName, Some(net.spec.networkName))));
  }

  method RpcFlags(args: seq<string>, s: OpNodeSpec) returns (r: seq<string>)
    ensures r == args + RenderAll(Decode.RpcSection(s))
  {
    hide RenderAll, Render, Itoa, FlagName, DefaultString, DefaultInt, When, Opt, Switch;
    r := args;
    if s.opNode.rpc.Some? && s.opNode.rpc.value.enabled {
      var c := s.opNode.rpc.value;
      ghost var a := [Arg(RpcAddr, Some(DefaultString(c.host, "0.0.0.0"))),
                      Arg(Flag.RpcPort, Some(Itoa(DefaultInt(c.port, 9545))))];
      RenderTwo(a[0], a[1]);
      RenderWhen(c.enableAdmin, Arg(RpcAdmin, None));
      RenderConcat(a, When(c.enableAdmin, Arg(RpcAdmin, None)));
      r := r + [Opt(RpcAddr, DefaultString(c.host, "0.0.0.0"))];
      r := r + [Opt(Flag.RpcPort, Itoa(DefaultInt(c.port, 9545)))];
      assert r == args + RenderAll(a);
      if c.enableAdmin {
        r := r + [Switch(RpcAdmin)];
      }
    }
  }

  lemma {:induction false} StaticSnoc(peers: seq<string>, p: string)
    ensures StaticArgs(peers + [p]) == StaticArgs(peers) + [Arg(P2pStatic, Some(p))]
  {
    if peers == [] {
      assert [p][1..] == [];
    } else {
      StaticSnoc(peers[1..], p);
      assert (peers + [p])[1..] == peers[1..] + [p];
    }
  }

  /** One argument for each static peer. */
  method StaticFlags(args: seq<string>, peers: seq<string>) returns (r: seq<string>)
    ensures r == args + RenderAll(StaticArgs(peers))
  {
    hide Render, FlagName;
    r := args;
    for i := 0 to |peers|
      invariant r == args + RenderAll(StaticArgs(peers[..i]))
    {
      assert peers[..i + 1] == peers[..i] + [peers[i]];
      StaticSnoc(peers[..i], peers[i]);
      r := r + [Opt(P2pStatic, peers[i])];
    }
    assert peers[..|peers|] == peers;
  }

  method P2pFlags(args: seq<string>, s: OpNodeSpec) returns (r: seq<string>)
    ensures r == args + RenderAll(Decode.P2pSection(s))
  {
    hide RenderAll, Render, Itoa, FlagName, DefaultInt, When, Opt, Switch, StaticArgs;
    r := args;
    if s.opNode.p2p.Some? && s.opNode.p2p.value.enabled {
      var p := s.opNode.p2p.value;
      ghost var a := [Arg(P2pListen, Some(Itoa(DefaultInt(p.listenPort, 9003))))];
      ghost var b := When(p.discovery == Some(false), Arg(P2pNoDiscovery, None));
      ghost var c := StaticArgs(p.staticPeers);
      ghost var d := When(KeyGiven(p), Arg(P2pKeyPath, Some("/secrets/p2p/private-key")));
      RenderTwo(a[0], a[0]);
      RenderWhen(p.discovery == Some(false), Arg(P2pNoDiscovery, None));
      RenderWhen(KeyGiven(p), Arg(P2pKeyPath, Some("/secrets/p2p/private-key")));
      RenderConcat(a, b);
      RenderConcat(a + b, c);
      RenderConcat(a + b + c, d);
      r := r + [Opt(P2pListen, Itoa(DefaultInt(p.listenPort, 9003)))];
      if p.discovery.Some? && !p.discovery.value {
        r := r + [Switch(P2pNoDiscovery)];
      }
      assert r == args + RenderAll(a + b);
      if |p.staticPeers| > 0 {
        r := StaticFlags(r, p.staticPeers);
      } else {
        NoPeers();
      }
      assert r == args + RenderAll(a + b + c);
      if p.privateKey.Some? && (p.privateKey.value.generate || p.privateKey.value.secretRef.Some?) {
        r := r + [Opt(P2pKeyPath, "/secrets/p2p/private-key")];
      }
    }
  }

  lemma NoPeers()
    ensures RenderAll(StaticArgs([])) == []
  {
  }

  method SequencerFlags(args: seq<string>, s: OpNodeSpec) returns (r: seq<string>)
    ensures r == args + RenderAll(Decode.SequencerSection(s))
  {
    hide RenderAll, Render, FlagName, When, Opt, Switch;
    r := args;
    if s.opNode.sequencer.Some? && s.opNode.sequencer.value.enabled {
      var q := s.opNode.sequencer.value;
      RenderTwo(Arg(Flag.SequencerEnabled, None), Arg(Flag.SequencerEnabled, None));
      RenderWhen(q.blockTime != "", Arg(SequencerConfs, Some("4")));
      RenderConcat([Arg(Flag.SequencerEnabled, None)], When(q.blockTime != "", Arg(SequencerConfs, Some("4"))));
      r := r + [Switch(Flag.SequencerEnabled)];
      if q.blockTime != "" {
        r := r + [Opt(SequencerConfs, "4")];
      }
    }
  }

  method LogFlags(args: seq<string>, net: Net) returns (r: seq<string>)
    ensures r == args + RenderAll(Decode.LogSection(net))
  {
    hide RenderAll, Render, FlagName, When, Opt;
    r := args;
    if net.spec.shared.Some? && net.spec.shared.value.logging.Some? {
      var g := net.spec.shared.value.logging.value;
      RenderWhen(g.level != "", Arg(LogLevel, Some(g.level)));
      RenderWhen(g.format != "", Arg(LogFormat, Some(g.format)));
      RenderConcat(When(g.level != "", Arg(LogLevel, Some(g.level))),
                   When(g.format != "", Arg(LogFormat, Some(g.format))));
      if g.level != "" {
        r := r + [Opt(LogLevel, g.level)];
      }
      if g.format != "" {
        r := r + [Opt(LogFormat, g.format)];
      }
    }
  }

  method MetricsFlags(args: seq<string>, net: Net) returns (r: seq<string>)
    ensures r == args + RenderAll(Decode.MetricsSection(net))
  {
    hide RenderAll, Render, FlagName, Itoa, DefaultInt, Opt, Switch;
    r := args;
    if net.spec.shared.Some? && net.spec.shared.value.metrics.Some? && net.spec.shared.value.metrics.value.enabled {
      var m := net.spec.shared.value.metrics.value;
      ghost var l := Decode.MetricsSection(net);
      RenderThree(l[0], l[1], l[2]);
      r := r + [Switch(Flag.MetricsEnabled)];
      r := r + [Opt(MetricsAddr, "0.0.0.0")];
      r := r + [Opt(Flag.MetricsPort, Itoa(DefaultInt(m.port, 7300)))];
    }
  }

  method CreateOpNodeContainer(s: OpNodeSpec, net: Net) returns (c: Container)
    ensures c == Node(s, net)
  {
    hide RenderAll, LinkArgs, Decode.RpcSection, Decode.P2pSection, Decode.SequencerSection, Decode.LogSection;
    hide Decode.MetricsSection;
    var args := LinkFlags(s, net);
    ghost var l := LinkArgs(s, net);
    args := RpcFlags(args, s);
    RenderConcat(l, Decode.RpcSection(s));
    l := l + Decode.RpcSection(s);
    args := P2pFlags(args, s);
    RenderConcat(l, Decode.P2pSection(s));
    l := l + Decode.P2pSection(s);
    args := SequencerFlags(args, s);
    RenderConcat(l, Decode.SequencerSection(s));
    l := l + Decode.SequencerSection(s);
    args := LogFlags(args, net);
    args := MetricsFlags(args, net);
    RenderConcat(Decode.LogSection(net), Decode.MetricsSection(net));
    RenderConcat(l, Decode.LogSection(net) + Decode.MetricsSection(net));
    Associative(RenderAll(l), RenderAll(Decode.LogSection(net)), RenderAll(Decode.MetricsSection(net)));
    NodeParts(s, net);
    var mounts := [Mount("jwt-secret", "/secrets/jwt"), Mount("rollup-config", "/config")];
    if s.opNode.p2p.Some? && s.opNode.p2p.value.privateKey.Some?
       && (s.opNode.p2p.value.privateKey.value.generate || s.opNode.p2p.value.privateKey.value.secretRef.Some?) {
      mounts := mounts + [Mount("p2p-key", "/secrets/p2p")];
    }
    c := Container("op-node", Images.Image(Images.OpNode, Images.DEFAULTS.opNode), args, mounts);
  }

  /* ----- Pod and Service ----- */

  method CreateVolumes(key: Key, s: OpNodeSpec, net: Net) returns (volumes: seq<Volume>)
    ensures volumes == Volumes(key, s, net)
  {
    volumes := [Volume("jwt-secret", FromSecret(key.name + "-jwt")),
                Volume("rollup-config", FromConfigMap(net.name + "-rollup-config"))];
    if s.opNode.p2p.Some? && s.opNode.p2p.value.privateKey.Some?
       && (s.opNode.p2p.value.privateKey.value.generate || s.opNode.p2p.value.privateKey.value.secretRef.Some?) {
      var secretName := "";
      if s.opNode.p2p.value.privateKey.value.generate {
        secretName := key.name + "-p2p";
      } else if s.opNode.p2p.value.privateKey.value.secretRef.Some? {
        secretName := s.opNode.p2p.value.privateKey.value.secretRef.value;
      }
      volumes := volumes + [Volume("p2p-key", FromSecret(secretName))];
    }
  }

  method CreateOpNodeStatefulSet(key: Key, s: OpNodeSpec, net: Net) returns (p: StatefulSetSpec)
    ensures p == DesiredSet(key, s, net)
  {
    hide Geth, Node, Volumes, Labels;
    var accessMode, storageClass, size := "ReadWriteOnce", "fast-ssd", TEBIBYTE;
    if s.opGeth.storage.Some? {
      var storage := s.opGeth.storage.value;
      if storage.size != 0 {
        size := storage.size;
      }
      if storage.storageClass != "" {
        storageClass := storage.storageClass;
      }
      if storage.accessMode != "" {
        accessMode := storage.accessMode;
      }
    }
    var labels := Labels(key, s, net);
    var geth := CreateOpGethContainer(key, s, net);
    var node := CreateOpNodeContainer(s, net);
    var volumes := CreateVolumes(key, s, net);
    p := StatefulSetSpec(1, key.name, labels, labels, [geth, node], volumes,
                         [Claim("geth-data", labels, accessMode, size, storageClass)]);
  }

  method BuildDefaultServicePorts(s: OpNodeSpec) returns (ports: seq<ServicePort>)
    ensures ports == DefaultPorts(s)
  {
    hide GETH_HTTP, GETH_WS, GETH_P2P, NODE_RPC, NODE_P2P, METRICS, DefaultInt;
    ports := [];
    if s.opGeth.networking.Some? && s.opGeth.networking.value.http.Some?
       && s.opGeth.networking.value.http.value.enabled {
      var port := DefaultInt(s.opGeth.networking.value.http.value.port, 8545);
      ports := ports + [ServicePort(GETH_HTTP, port, PortTarget(port, ""), "TCP")];
    }
    assert ports == HttpPorts(s);
    if s.opGeth.networking.Some? && s.opGeth.networking.value.ws.Some? && s.opGeth.networking.value.ws.value.enabled {
      var port := DefaultInt(s.opGeth.networking.value.ws.value.port, 8546);
      ports := ports + [ServicePort(GETH_WS, port, PortTarget(port, ""), "TCP")];
    }
    assert ports == HttpPorts(s) + WsPorts(s);
    if s.opGeth.networking.Some? && s.opGeth.networking.value.p2pPort.Some? {
      var port := DefaultInt(s.opGeth.networking.value.p2pPort.value, 30303);
      ports := ports + [ServicePort(GETH_P2P, port, PortTarget(port, ""), "TCP")];
    }
    assert ports == HttpPorts(s) + WsPorts(s) + GethP2pPorts(s);
    if s.opNode.rpc.Some? && s.opNode.rpc.value.enabled {
      var port := DefaultInt(s.opNode.rpc.value.port, 9545);
      ports := ports + [ServicePort(NODE_RPC, port, PortTarget(port, ""), "TCP")];
    }
    assert ports == HttpPorts(s) + WsPorts(s) + GethP2pPorts(s) + RpcPorts(s);
    if s.opNode.p2p.Some? && s.opNode.p2p.value.enabled {
      var port := DefaultInt(s.opNode.p2p.value.listenPort, 9003);
      ports := ports + [ServicePort(NODE_P2P, port, PortTarget(port, ""), "TCP")];
    }
    assert ports == HttpPorts(s) + WsPorts(s) + GethP2pPorts(s) + RpcPorts(s) + P2pPorts(s);
    ports := ports + [ServicePort(METRICS, 7300, PortTarget(7300, ""), "TCP")];
  }

  /** Custom ports replace the default ones; what a custom port leaves out is filled in. */
  method BuildServicePorts(s: OpNodeSpec) returns (ports: seq<ServicePort>)
    ensures ports == Ports(s)
  {
    hide DefaultPorts;
    if s.service.Some? && |s.service.value.ports| > 0 {
      var configs := s.service.value.ports;
      ports := [];
      for i := 0 to |configs|
        invariant |ports| == i && forall j :: 0 <= j < i ==> ports[j] == CustomPort(configs[j])
      {
        var c := configs[i];
        var port := ServicePort(c.name, c.port, PortTarget(c.port, ""), "TCP");
        if c.target.intVal != 0 || c.target.strVal != "" {
          port := port.(target := c.target);
        }
        if c.protocol != "" {
          port := port.(protocol := c.protocol);
        }
        ports := ports + [port];
      }
    } else {
      ports := BuildDefaultServicePorts(s);
    }
  }

  method CreateOpNodeService(key: Key, s: OpNodeSpec, net: Net)
    returns (p: ServiceSpec, annotations: map<string, string>)
    ensures p == DesiredService(key, s, net) && annotations == ServiceAnnotations(s)
  {
    hide Ports, Labels;
    var labels := Labels(key, s, net);
    var serviceType := "ClusterIP";
    if s.service.Some? && s.service.value.serviceType != "" {
      serviceType := s.service.value.serviceType;
    }
    annotations := map[];
    if s.service.Some? && |s.service.value.annotations| > 0 {
      annotations := s.service.value.annotations;
    }
    var ports := BuildServicePorts(s);
    p := ServiceSpec(serviceType, labels, ports);
  }
}

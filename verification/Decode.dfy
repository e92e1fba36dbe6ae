/** The argument lists read back: splitting every argument at its first `=` recovers the settings of the spec. */
module Decode {
  import opened Types
  import opened Strings
  import opened Args
  import opened Builders

  /* ----- Finding a flag in a list made of parts ----- */

  predicate AllOf(l: seq<Arg>, p: Part) {
    forall i :: 0 <= i < |l| ==> PartOf(l[i].flag) == p
  }

  lemma {:induction false} ChosenElsewhere(l: seq<Arg>, p: Part, f: Flag)
    requires AllOf(l, p) && PartOf(f) != p
    ensures Chosen(l, f) == []
  {
    hide PartOf;
    if l != [] {
      assert PartOf(l[0].flag) == p;
      ChosenElsewhere(l[1..], p, f);
    }
  }

  function OneIf(c: bool, v: Option<string>): seq<Option<string>> {
    if c then [v] else []
  }

  lemma ChosenOne(a: Arg, f: Flag)
    ensures Chosen([a], f) == OneIf(a.flag == f, a.value)
  {
    assert [a][1..] == [];
  }

  lemma ChosenTwo(a: Arg, b: Arg, f: Flag)
    ensures Chosen([a, b], f) == OneIf(a.flag == f, a.value) + OneIf(b.flag == f, b.value)
  {
    ChosenOne(b, f);
    assert [a, b][1..] == [b];
  }

  lemma ChosenThree(a: Arg, b: Arg, c: Arg, f: Flag)
    ensures Chosen([a, b, c], f) == OneIf(a.flag == f, a.value) + OneIf(b.flag == f, b.value)
            + OneIf(c.flag == f, c.value)
  {
    ChosenTwo(a, b, f);
    ChosenOne(c, f);
    ChosenConcat([a, b], [c], f);
    assert [a, b] + [c] == [a, b, c];
  }

  lemma ChosenFour(a: Arg, b: Arg, c: Arg, d: Arg, f: Flag)
    ensures Chosen([a, b, c, d], f) ==
            OneIf(a.flag == f, a.value) + OneIf(b.flag == f, b.value) + OneIf(c.flag == f, c.value)
                + OneIf(d.flag == f, d.value)
  {
    ChosenThree(a, b, c, f);
    ChosenOne(d, f);
    ChosenConcat([a, b, c], [d], f);
    assert [a, b, c] + [d] == [a, b, c, d];
  }

  lemma ChosenWhen(c: bool, a: Arg, f: Flag)
    ensures Chosen(When(c, a), f) == OneIf(c && a.flag == f, a.value)
  {
    ChosenOne(a, f);
  }

  /* ----- The parts of the two lists ----- */

  function HttpSection(s: OpNodeSpec): seq<Arg> {
    if HttpOn(s) then HttpArgs(s.opGeth.networking.value.http.value) else []
  }

  function WsSection(s: OpNodeSpec): seq<Arg> {
    if WsOn(s) then WsArgs(s.opGeth.networking.value.ws.value) else []
  }

  function AuthSection(s: OpNodeSpec): seq<Arg> {
    if AuthOn(s) then AuthArgs(s.opGeth.networking.value.authrpc.value) else []
  }

  function RpcSection(s: OpNodeSpec): seq<Arg> {
    if RpcOn(s) then RpcArgs(s.opNode.rpc.value) else []
  }

  function P2pSection(s: OpNodeSpec): seq<Arg> {
    if P2pOn(s) then P2pArgs(s.opNode.p2p.value) else []
  }

  function SequencerSection(s: OpNodeSpec): seq<Arg> {
    if SequencerOn(s) then SequencerArgs(s.opNode.sequencer.value) else []
  }

  function LogSection(net: Net): seq<Arg> {
    if net.spec.shared.Some? && net.spec.shared.value.logging.Some? then
      When(net.spec.shared.value.logging.value.level != "",
           Arg(LogLevel, Some(net.spec.shared.value.logging.value.level)))
      + When(net.spec.shared.value.logging.value.format != "",
             Arg(LogFormat, Some(net.spec.shared.value.logging.value.format)))
    else []
  }

  function MetricsSection(net: Net): seq<Arg> {
    if net.spec.shared.Some? && net.spec.shared.value.metrics.Some? && net.spec.shared.value.metrics.value.enabled then
      [Arg(MetricsEnabled, None), Arg(MetricsAddr, Some("0.0.0.0")),
       Arg(MetricsPort, Some(Itoa(DefaultInt(net.spec.shared.value.metrics.value.port, 7300))))]
    else []
  }

  /** The part of the two lists a flag can occur in. */
  function PartArgs(p: Part, key: Key, s: OpNodeSpec, net: Net): seq<Arg> {
    match p
    case BasePart => BaseArgs(key, s, net)
    case HttpPart => HttpSection(s)
    case WsPart => WsSection(s)
    case AuthPart => AuthSection(s)
    case LinkPart => LinkArgs(s, net)
    case RpcPart => RpcSection(s)
    case P2pPart => P2pSection(s)
    case SequencerPart => SequencerSection(s)
    case LogPart => LogSection(net)
    case MetricsPart => MetricsSection(net)
  }

  lemma StaticOf(peers: seq<string>)
    ensures AllOf(StaticArgs(peers), Part.P2pPart)
  {
  }

  lemma P2pPure(s: OpNodeSpec)
    ensures AllOf(P2pSection(s), Part.P2pPart)
  {
    hide Itoa, DefaultInt;
    if P2pOn(s) {
      StaticOf(s.opNode.p2p.value.staticPeers);
    }
  }

  lemma GethPartsPure(p: Part, key: Key, s: OpNodeSpec, net: Net)
    requires p in {Part.BasePart, Part.HttpPart, Part.WsPart, Part.AuthPart}
    ensures AllOf(PartArgs(p, key, s, net), p)
  {
    hide SequencerEndpoint, Itoa, Join, DefaultString, DefaultInt, DataDirOf, HttpOn, WsOn, AuthOn;
  }

  lemma NodePartsPure(p: Part, key: Key, s: OpNodeSpec, net: Net)
    requires p in {Part.LinkPart, Part.RpcPart, Part.SequencerPart}
    ensures AllOf(PartArgs(p, key, s, net), p)
  {
    hide Itoa, AuthPortOf, DefaultString, DefaultInt, RpcOn, SequencerOn;
  }

  lemma SharedPartsPure(net: Net)
    ensures AllOf(LogSection(net), Part.LogPart) && AllOf(MetricsSection(net), Part.MetricsPart)
  {
    hide Itoa, DefaultInt;
  }

  lemma PartsArePure(p: Part, key: Key, s: OpNodeSpec, net: Net)
    ensures AllOf(PartArgs(p, key, s, net), p)
  {
    hide AllOf, P2pSection, LogSection, MetricsSection;
    if p.P2pPart? {
      P2pPure(s);
    } else if p in {Part.BasePart, Part.HttpPart, Part.WsPart, Part.AuthPart} {
      GethPartsPure(p, key, s, net);
    } else {
      SharedPartsPure(net);
      if !p.LogPart? && !p.MetricsPart? {
        NodePartsPure(p, key, s, net);
      }
    }
  }

  predicate OfGeth(f: Flag) {
    PartOf(f) in {Part.BasePart, Part.HttpPart, Part.WsPart, Part.AuthPart}
  }

  lemma GethParts(key: Key, s: OpNodeSpec, net: Net)
    ensures GethArgs(key, s, net) == BaseArgs(key, s, net) + HttpSection(s) + WsSection(s) + AuthSection(s)
  {
    hide BaseArgs, HttpArgs, WsArgs, AuthArgs;
  }

  lemma NodeParts(s: OpNodeSpec, net: Net)
    ensures NodeArgs(s, net) == LinkArgs(s, net) + RpcSection(s) + P2pSection(s) + SequencerSection(s)
            + (LogSection(net) + MetricsSection(net))
  {
    hide LinkArgs, RpcArgs, P2pArgs, SequencerArgs;
  }

  lemma ChosenInFour(a: seq<Arg>, b: seq<Arg>, c: seq<Arg>, d: seq<Arg>, f: Flag)
    ensures Chosen(a + b + c + d, f) == Chosen(a, f) + Chosen(b, f) + Chosen(c, f) + Chosen(d, f)
  {
    hide Chosen;
    ChosenConcat(a + b + c, d, f);
    ChosenConcat(a + b, c, f);
    ChosenConcat(a, b, f);
  }

  /** A flag is found in no part but its own. */
  lemma PartSays(p: Part, key: Key, s: OpNodeSpec, net: Net, f: Flag)
    requires p != PartOf(f)
    ensures Chosen(PartArgs(p, key, s, net), f) == []
  {
    hide PartOf, PartArgs, Chosen, AllOf;
    PartsArePure(p, key, s, net);
    ChosenElsewhere(PartArgs(p, key, s, net), p, f);
  }

  lemma GethChosen(key: Key, s: OpNodeSpec, net: Net, f: Flag)
    ensures Chosen(GethArgs(key, s, net), f) ==
            PartFor(Part.BasePart, key, s, net, f) + PartFor(Part.HttpPart, key, s, net, f)
            + PartFor(Part.WsPart, key, s, net, f) + PartFor(Part.AuthPart, key, s, net, f)
  {
    hide Chosen, PartOf, BaseArgs, HttpSection, WsSection, AuthSection, GethArgs;
    GethParts(key, s, net);
    ChosenInFour(BaseArgs(key, s, net), HttpSection(s), WsSection(s), AuthSection(s), f);
    if PartOf(f) != Part.BasePart { PartSays(Part.BasePart, key, s, net, f); }
    if PartOf(f) != Part.HttpPart { PartSays(Part.HttpPart, key, s, net, f); }
    if PartOf(f) != Part.WsPart { PartSays(Part.WsPart, key, s, net, f); }
    if PartOf(f) != Part.AuthPart { PartSays(Part.AuthPart, key, s, net, f); }
  }

  function PartFor(p: Part, key: Key, s: OpNodeSpec, net: Net, f: Flag): seq<Option<string>> {
    if PartOf(f) == p then Chosen(PartArgs(p, key, s, net), f) else []
  }

  /** A flag of op-geth is looked up in its own part of the list. */
  lemma GethLookup(key: Key, s: OpNodeSpec, net: Net, f: Flag)
    ensures Values(Geth(key, s, net).args, FlagName(f)) ==
            if OfGeth(f) then Chosen(PartArgs(PartOf(f), key, s, net), f) else []
  {
    hide Chosen, PartArgs, PartOf, FlagName, GethArgs, Values;
    ReadBackAll(GethArgs(key, s, net), f);
    GethChosen(key, s, net, f);
  }

  lemma NodeChosen(s: OpNodeSpec, net: Net, f: Flag)
    ensures var key := Key("", "");
            Chosen(NodeArgs(s, net), f) ==
            PartFor(Part.LinkPart, key, s, net, f) + PartFor(Part.RpcPart, key, s, net, f)
            + PartFor(Part.P2pPart, key, s, net, f) + PartFor(Part.SequencerPart, key, s, net, f)
            + (PartFor(Part.LogPart, key, s, net, f) + PartFor(Part.MetricsPart, key, s, net, f))
  {
    hide Chosen, PartOf, LinkArgs, RpcSection, P2pSection, SequencerSection, LogSection, MetricsSection, NodeArgs;
    var key := Key("", "");
    NodeParts(s, net);
    ChosenConcat(LinkArgs(s, net) + RpcSection(s) + P2pSection(s) + SequencerSection(s),
                 LogSection(net) + MetricsSection(net), f);
    ChosenInFour(LinkArgs(s, net), RpcSection(s), P2pSection(s), SequencerSection(s), f);
    ChosenConcat(LogSection(net), MetricsSection(net), f);
    if PartOf(f) != Part.LinkPart { PartSays(Part.LinkPart, key, s, net, f); }
    if PartOf(f) != Part.RpcPart { PartSays(Part.RpcPart, key, s, net, f); }
    if PartOf(f) != Part.P2pPart { PartSays(Part.P2pPart, key, s, net, f); }
    if PartOf(f) != Part.SequencerPart { PartSays(Part.SequencerPart, key, s, net, f); }
    if PartOf(f) != Part.LogPart { PartSays(Part.LogPart, key, s, net, f); }
    if PartOf(f) != Part.MetricsPart { PartSays(Part.MetricsPart, key, s, net, f); }
  }

  lemma NodeLookup(s: OpNodeSpec, net: Net, f: Flag)
    ensures Values(Node(s, net).args, FlagName(f)) ==
            if OfGeth(f) then [] else Chosen(PartArgs(PartOf(f), Key("", ""), s, net), f)
  {
    hide Chosen, PartArgs, PartOf, FlagName, NodeArgs, Values;
    ReadBackAll(NodeArgs(s, net), f);
    NodeChosen(s, net, f);
  }

  /* ----- What each part says ----- */

  lemma HttpSays(h: HTTPConfig, f: Flag)
    ensures Chosen(HttpArgs(h), f) ==
            OneIf(f.Http?, None) + OneIf(f.HttpAddr?, Some(DefaultString(h.host, "0.0.0.0")))
            + OneIf(f.HttpPort?, Some(Itoa(DefaultInt(h.port, 8545))))
            + OneIf(|h.apis| > 0 && f.HttpApi?, Some(Join(h.apis, ',')))
            + OneIf(|h.cors.GetOr([])| > 0 && f.HttpCors?, Some(Join(h.cors.GetOr([]), ',')))
  {
    hide OneIf, Chosen, Itoa, Join, DefaultString, DefaultInt, When;
    var a := [Arg(Http, None), Arg(HttpAddr, Some(DefaultString(h.host, "0.0.0.0"))),
              Arg(HttpPort, Some(Itoa(DefaultInt(h.port, 8545))))];
    var b := When(|h.apis| > 0, Arg(HttpApi, Some(Join(h.apis, ','))));
    var c := When(h.cors.Some? && |h.cors.value| > 0, Arg(HttpCors, Some(Join(h.cors.GetOr([]), ','))));
    ChosenConcat(a + b, c, f);
    ChosenConcat(a, b, f);
    ChosenThree(a[0], a[1], a[2], f);
    ChosenWhen(|h.apis| > 0, Arg(HttpApi, Some(Join(h.apis, ','))), f);
    ChosenWhen(h.cors.Some? && |h.cors.value| > 0, Arg(HttpCors, Some(Join(h.cors.GetOr([]), ','))), f);
  }

  lemma WsSays(w: WSConfig, f: Flag)
    ensures Chosen(WsArgs(w), f) ==
            OneIf(f.Ws?, None) + OneIf(f.WsAddr?, Some(DefaultString(w.host, "0.0.0.0")))
            + OneIf(f.WsPort?, Some(Itoa(DefaultInt(w.port, 8546))))
            + OneIf(|w.apis| > 0 && f.WsApi?, Some(Join(w.apis, ',')))
            + OneIf(|w.origins| > 0 && f.WsOrigins?, Some(Join(w.origins, ',')))
  {
    hide OneIf, Chosen, Itoa, Join, DefaultString, DefaultInt, When;
    var a := [Arg(Ws, None), Arg(WsAddr, Some(DefaultString(w.host, "0.0.0.0"))),
              Arg(WsPort, Some(Itoa(DefaultInt(w.port, 8546))))];
    var b := When(|w.apis| > 0, Arg(WsApi, Some(Join(w.apis, ','))));
    var c := When(|w.origins| > 0, Arg(WsOrigins, Some(Join(w.origins, ','))));
    ChosenConcat(a + b, c, f);
    ChosenConcat(a, b, f);
    ChosenThree(a[0], a[1], a[2], f);
    ChosenWhen(|w.apis| > 0, Arg(WsApi, Some(Join(w.apis, ','))), f);
    ChosenWhen(|w.origins| > 0, Arg(WsOrigins, Some(Join(w.origins, ','))), f);
  }

  lemma AuthSays(a: AuthRPCConfig, f: Flag)
    ensures Chosen(AuthArgs(a), f) ==
            OneIf(f.AuthAddr?, Some(DefaultString(a.host, "127.0.0.1")))
            + OneIf(f.AuthPort?, Some(Itoa(DefaultInt(a.port, 8551)))) + OneIf(f.AuthJwt?, Some("/secrets/jwt/jwt"))
  {
    hide OneIf, Chosen, Itoa, DefaultString, DefaultInt;
    var l := AuthArgs(a);
    ChosenThree(l[0], l[1], l[2], f);
  }

  lemma BaseSays(key: Key, s: OpNodeSpec, net: Net, f: Flag)
    ensures Chosen(BaseArgs(key, s, net), f) ==
            OneIf(f.DataDir?, Some(DataDirOf(s))) + OneIf(f.NetworkId?, Some(Itoa(net.spec.chainID)))
            + OneIf(f.SequencerHttp?, Some(SequencerEndpoint(key, s, net)))
            + OneIf(f.SyncMode?, Some(DefaultString(s.opGeth.syncMode, "snap")))
  {
    hide OneIf, Chosen, Itoa, SequencerEndpoint, DataDirOf;
    var l := BaseArgs(key, s, net);
    ChosenFour(l[0], l[1], l[2], l[3], f);
  }

  lemma LinkSays(s: OpNodeSpec, net: Net, f: Flag)
    ensures Chosen(LinkArgs(s, net), f) ==
            OneIf(f.L1?, Some(net.spec.l1RpcUrl)) + OneIf(f.L2?, Some("http://127.0.0.1:" + Itoa(AuthPortOf(s))))
            + OneIf(f.L2Jwt?, Some("/secrets/jwt/jwt")) + OneIf(f.RollupFile?, Some("/config/rollup.json"))
            + OneIf(net.spec.networkName != "" && f.NetworkName?, Some(net.spec.networkName))
  {
    hide OneIf, Chosen, Itoa, AuthPortOf, When;
    var c := When(net.spec.networkName != "", Arg(Flag.NetworkName, Some(net.spec.networkName)));
    var a := [Arg(L1, Some(net.spec.l1RpcUrl)), Arg(L2, Some("http://127.0.0.1:" + Itoa(AuthPortOf(s)))),
              Arg(L2Jwt, Some("/secrets/jwt/jwt")), Arg(RollupFile, Some("/config/rollup.json"))];
    ChosenConcat(a, c, f);
    ChosenFour(a[0], a[1], a[2], a[3], f);
    ChosenWhen(net.spec.networkName != "", Arg(Flag.NetworkName, Some(net.spec.networkName)), f);
  }

  lemma RpcSays(r: RPCConfig, f: Flag)
    ensures Chosen(RpcArgs(r), f) ==
            OneIf(f.RpcAddr?, Some(DefaultString(r.host, "0.0.0.0")))
                + OneIf(f.RpcPort?, Some(Itoa(DefaultInt(r.port, 9545))))
            + OneIf(r.enableAdmin && f.RpcAdmin?, None)
  {
    hide OneIf, Chosen, Itoa, DefaultString, DefaultInt, When;
    var a := [Arg(RpcAddr, Some(DefaultString(r.host, "0.0.0.0"))), Arg(RpcPort, Some(Itoa(DefaultInt(r.port, 9545))))];
    ChosenConcat(a, When(r.enableAdmin, Arg(RpcAdmin, None)), f);
    ChosenTwo(a[0], a[1], f);
    ChosenWhen(r.enableAdmin, Arg(RpcAdmin, None), f);
  }

  function Somes(peers: seq<string>): (r: seq<Option<string>>)
    ensures |r| == |peers| && forall i :: 0 <= i < |r| ==> r[i] == Some(peers[i])
  {
    seq(|peers|, i requires 0 <= i < |peers| => Some(peers[i]))
  }

  lemma {:induction false} StaticSays(peers: seq<string>, f: Flag)
    ensures Chosen(StaticArgs(peers), f) == if f.P2pStatic? then Somes(peers) else []
  {
    if peers != [] {
      StaticSays(peers[1..], f);
      assert StaticArgs(peers)[1..] == StaticArgs(peers[1..]);
      assert [Some(peers[0])] + Somes(peers[1..]) == Somes(peers);
    }
  }

  lemma P2pSays(p: P2PConfig, f: Flag)
    ensures Chosen(P2pArgs(p), f) ==
            OneIf(f.P2pListen?, Some(Itoa(DefaultInt(p.listenPort, 9003))))
            + OneIf(p.discovery == Some(false) && f.P2pNoDiscovery?, None)
            + (if f.P2pStatic? then Somes(p.staticPeers) else [])
            + OneIf(KeyGiven(p) && f.P2pKeyPath?, Some("/secrets/p2p/private-key"))
  {
    hide OneIf, Chosen, Itoa, DefaultInt, When, StaticArgs;
    var a := [Arg(P2pListen, Some(Itoa(DefaultInt(p.listenPort, 9003))))];
    var b := When(p.discovery == Some(false), Arg(P2pNoDiscovery, None));
    var c := StaticArgs(p.staticPeers);
    var d := When(KeyGiven(p), Arg(P2pKeyPath, Some("/secrets/p2p/private-key")));
    ChosenConcat(a + b + c, d, f);
    ChosenConcat(a + b, c, f);
    ChosenConcat(a, b, f);
    ChosenOne(a[0], f);
    ChosenWhen(p.discovery == Some(false), Arg(P2pNoDiscovery, None), f);
    StaticSays(p.staticPeers, f);
    ChosenWhen(KeyGiven(p), Arg(P2pKeyPath, Some("/secrets/p2p/private-key")), f);
  }

  lemma SequencerSays(q: SequencerConfig, f: Flag)
    ensures Chosen(SequencerArgs(q), f) ==
            OneIf(f.SequencerEnabled?, None) + OneIf(q.blockTime != "" && f.SequencerConfs?, Some("4"))
  {
    hide OneIf, Chosen, When;
    ChosenConcat([Arg(Flag.SequencerEnabled, None)], When(q.blockTime != "", Arg(SequencerConfs, Some("4"))), f);
    ChosenOne(Arg(Flag.SequencerEnabled, None), f);
    ChosenWhen(q.blockTime != "", Arg(SequencerConfs, Some("4")), f);
  }

  lemma LogSays(net: Net, f: Flag)
    ensures Chosen(LogSection(net), f) ==
            if net.spec.shared.None? || net.spec.shared.value.logging.None? then []
            else
              var g := net.spec.shared.value.logging.value;
              OneIf(g.level != "" && f.LogLevel?, Some(g.level)) + OneIf(g.format != "" && f.LogFormat?, Some(g.format))
  {
    hide OneIf, Chosen, When;
    if net.spec.shared.Some? && net.spec.shared.value.logging.Some? {
      var g := net.spec.shared.value.logging.value;
      ChosenConcat(When(g.level != "", Arg(LogLevel, Some(g.level))),
                   When(g.format != "", Arg(LogFormat, Some(g.format))), f);
      ChosenWhen(g.level != "", Arg(LogLevel, Some(g.level)), f);
      ChosenWhen(g.format != "", Arg(LogFormat, Some(g.format)), f);
    } else {
      NothingChosen(f);
    }
  }

  lemma NothingChosen(f: Flag)
    ensures Chosen([], f) == []
  {
  }

  lemma MetricsSays(net: Net, f: Flag)
    ensures Chosen(MetricsSection(net), f) ==
            if net.spec.shared.None? || net.spec.shared.value.metrics.None?
                || !net.spec.shared.value.metrics.value.enabled then []
            else
              OneIf(f.MetricsEnabled?, None) + OneIf(f.MetricsAddr?, Some("0.0.0.0"))
              + OneIf(f.MetricsPort?, Some(Itoa(DefaultInt(net.spec.shared.value.metrics.value.port, 7300))))
  {
    hide OneIf, Chosen, Itoa, DefaultInt;
    var l := MetricsSection(net);
    if l != [] {
      ChosenThree(l[0], l[1], l[2], f);
    } else {
      NothingChosen(f);
    }
  }

  /* ----- What each flag is given ----- */

  /** The values of a flag in the arguments of op-geth. */
  function GethFlag(f: Flag, key: Key, s: OpNodeSpec, net: Net): seq<Option<string>> {
    match f
    case DataDir => [Some(DataDirOf(s))]
    case NetworkId => [Some(Itoa(net.spec.chainID))]
    case SequencerHttp => [Some(SequencerEndpoint(key, s, net))]
    case SyncMode => [Some(DefaultString(s.opGeth.syncMode, "snap"))]
    case _ =>
      if PartOf(f).HttpPart? && HttpOn(s) then HttpFlag(f, s.opGeth.networking.value.http.value)
      else if PartOf(f).WsPart? && WsOn(s) then WsFlag(f, s.opGeth.networking.value.ws.value)
      else if PartOf(f).AuthPart? && AuthOn(s) then AuthFlag(f, s.opGeth.networking.value.authrpc.value)
      else []
  }

  function HttpFlag(f: Flag, h: HTTPConfig): seq<Option<string>> {
    match f
    case Http => [None]
    case HttpAddr => [Some(DefaultString(h.host, "0.0.0.0"))]
    case HttpPort => [Some(Itoa(DefaultInt(h.port, 8545)))]
    case HttpApi => OneIf(|h.apis| > 0, Some(Join(h.apis, ',')))
    case HttpCors => OneIf(|h.cors.GetOr([])| > 0, Some(Join(h.cors.GetOr([]), ',')))
    case _ => []
  }

  function WsFlag(f: Flag, w: WSConfig): seq<Option<string>> {
    match f
    case Ws => [None]
    case WsAddr => [Some(DefaultString(w.host, "0.0.0.0"))]
    case WsPort => [Some(Itoa(DefaultInt(w.port, 8546)))]
    case WsApi => OneIf(|w.apis| > 0, Some(Join(w.apis, ',')))
    case WsOrigins => OneIf(|w.origins| > 0, Some(Join(w.origins, ',')))
    case _ => []
  }

  function AuthFlag(f: Flag, a: AuthRPCConfig): seq<Option<string>> {
    match f
    case AuthAddr => [Some(DefaultString(a.host, "127.0.0.1"))]
    case AuthPort => [Some(Itoa(DefaultInt(a.port, 8551)))]
    case AuthJwt => [Some("/secrets/jwt/jwt")]
    case _ => []
  }

  /** The values of a flag in the arguments of op-node. */
  function NodeFlag(f: Flag, s: OpNodeSpec, net: Net): seq<Option<string>> {
    match f
    case L1 => [Some(net.spec.l1RpcUrl)]
    case L2 => [Some("http://127.0.0.1:" + Itoa(AuthPortOf(s)))]
    case L2Jwt => [Some("/secrets/jwt/jwt")]
    case RollupFile => [Some("/config/rollup.json")]
    case NetworkName => OneIf(net.spec.networkName != "", Some(net.spec.networkName))
    case _ =>
      if PartOf(f).RpcPart? && RpcOn(s) then RpcFlag(f, s.opNode.rpc.value)
      else if PartOf(f).P2pPart? && P2pOn(s) then P2pFlag(f, s.opNode.p2p.value)
      else if PartOf(f).SequencerPart? && SequencerOn(s) then
        OneIf(f.SequencerEnabled?, None)
        + OneIf(s.opNode.sequencer.value.blockTime != "" && f.SequencerConfs?, Some("4"))
      else if net.spec.shared.Some? then SharedFlag(f, net.spec.shared.value)
      else []
  }

  function RpcFlag(f: Flag, r: RPCConfig): seq<Option<string>> {
    match f
    case RpcAddr => [Some(DefaultString(r.host, "0.0.0.0"))]
    case RpcPort => [Some(Itoa(DefaultInt(r.port, 9545)))]
    case RpcAdmin => OneIf(r.enableAdmin, None)
    case _ => []
  }

  function P2pFlag(f: Flag, p: P2PConfig): seq<Option<string>> {
    match f
    case P2pListen => [Some(Itoa(DefaultInt(p.listenPort, 9003)))]
    case P2pNoDiscovery => OneIf(p.discovery == Some(false), None)
    case P2pStatic => Somes(p.staticPeers)
    case P2pKeyPath => OneIf(KeyGiven(p), Some("/secrets/p2p/private-key"))
    case _ => []
  }

  function SharedFlag(f: Flag, c: SharedConfig): seq<Option<string>> {
    if PartOf(f).LogPart? && c.logging.Some? then
      OneIf(c.logging.value.level != "" && f.LogLevel?, Some(c.logging.value.level))
      + OneIf(c.logging.value.format != "" && f.LogFormat?, Some(c.logging.value.format))
    else if PartOf(f).MetricsPart? && c.metrics.Some? && c.metrics.value.enabled then
      OneIf(f.MetricsEnabled?, None) + OneIf(f.MetricsAddr?, Some("0.0.0.0"))
      + OneIf(f.MetricsPort?, Some(Itoa(DefaultInt(c.metrics.value.port, 7300))))
    else []
  }

  lemma HttpTable(h: HTTPConfig, f: Flag)
    ensures Chosen(HttpArgs(h), f) == HttpFlag(f, h)
  {
    hide Chosen, HttpArgs, Itoa, Join, DefaultString, DefaultInt;
    HttpSays(h, f);
  }

  lemma WsTable(w: WSConfig, f: Flag)
    ensures Chosen(WsArgs(w), f) == WsFlag(f, w)
  {
    hide Chosen, WsArgs, Itoa, Join, DefaultString, DefaultInt;
    WsSays(w, f);
  }

  lemma AuthTable(a: AuthRPCConfig, f: Flag)
    ensures Chosen(AuthArgs(a), f) == AuthFlag(f, a)
  {
    hide Chosen, AuthArgs, Itoa, DefaultString, DefaultInt;
    AuthSays(a, f);
  }

  lemma RpcTable(r: RPCConfig, f: Flag)
    ensures Chosen(RpcArgs(r), f) == RpcFlag(f, r)
  {
    hide Chosen, RpcArgs, Itoa, DefaultString, DefaultInt;
    RpcSays(r, f);
  }

  lemma P2pTable(p: P2PConfig, f: Flag)
    ensures Chosen(P2pArgs(p), f) == P2pFlag(f, p)
  {
    hide Chosen, P2pArgs, Itoa, DefaultInt, KeyGiven;
    P2pSays(p, f);
  }

  lemma SharedTable(net: Net, f: Flag)
    requires PartOf(f).LogPart? || PartOf(f).MetricsPart?
    ensures Chosen(if PartOf(f).LogPart? then LogSection(net) else MetricsSection(net), f) ==
            if net.spec.shared.Some? then SharedFlag(f, net.spec.shared.value) else []
  {
    hide Chosen, LogSection, MetricsSection, Itoa, DefaultInt, OneIf;
    LogSays(net, f);
    MetricsSays(net, f);
  }

  /** Reading the arguments of op-geth finds for every flag exactly the values of the table. */
  lemma GethSays(key: Key, s: OpNodeSpec, net: Net, f: Flag)
    ensures Values(Geth(key, s, net).args, FlagName(f)) == GethFlag(f, key, s, net)
  {
    hide Values, Chosen, FlagName, Geth, BaseArgs, HttpArgs, WsArgs, AuthArgs, HttpFlag, WsFlag, AuthFlag, Itoa;
    hide SequencerEndpoint, DataDirOf, DefaultString;
    GethLookup(key, s, net, f);
    NothingChosen(f);
    match PartOf(f)
    case BasePart => BaseSays(key, s, net, f);
    case HttpPart => if HttpOn(s) { HttpTable(s.opGeth.networking.value.http.value, f); }
    case WsPart => if WsOn(s) { WsTable(s.opGeth.networking.value.ws.value, f); }
    case AuthPart => if AuthOn(s) { AuthTable(s.opGeth.networking.value.authrpc.value, f); }
    case _ =>
  }

  lemma NodeSays(s: OpNodeSpec, net: Net, f: Flag)
    ensures Values(Node(s, net).args, FlagName(f)) == NodeFlag(f, s, net)
  {
    hide Values, Chosen, FlagName, Node, LinkArgs, RpcArgs, P2pArgs, SequencerArgs, RpcFlag, P2pFlag;
    hide SharedFlag, Itoa, AuthPortOf, LogSection, MetricsSection;
    NodeLookup(s, net, f);
    NothingChosen(f);
    if !PartOf(f).LogPart? && !PartOf(f).MetricsPart? {
      NotShared(net, f);
    }
    match PartOf(f)
    case LinkPart => LinkSays(s, net, f);
    case RpcPart => if RpcOn(s) { RpcTable(s.opNode.rpc.value, f); }
    case P2pPart => if P2pOn(s) { P2pTable(s.opNode.p2p.value, f); }
    case SequencerPart => if SequencerOn(s) { SequencerSays(s.opNode.sequencer.value, f); }
    case LogPart => SharedTable(net, f);
    case MetricsPart => SharedTable(net, f);
    case _ =>
  }

  /* ----- Reading whole settings back ----- */

  predicate Present(args: seq<string>, name: string) {
    Values(args, name) != []
  }

  /** The value of a flag given exactly once. */
  function Given(args: seq<string>, name: string): string {
    var vs := Values(args, name);
    if |vs| == 1 then vs[0].GetOr("") else ""
  }

  function Listed(args: seq<string>, name: string): seq<string> {
    if Present(args, name) then Split(Given(args, name), ',') else []
  }

  datatype Listener = Listener(host: string, port: int, apis: seq<string>, origins: seq<string>)
  datatype Auth = Auth(host: string, port: int, jwt: string)
  datatype Rpc = Rpc(host: string, port: int, admin: bool)
  datatype P2p = P2p(port: int, discovery: bool, peers: seq<Option<string>>, key: bool)

  function ReadHttp(args: seq<string>): Option<Listener> {
    if !Present(args, "--http") then None
    else Some(Listener(Given(args, "--http.addr"), ParseInt(Given(args, "--http.port")),
                       Listed(args, "--http.api"), Listed(args, "--http.corsdomain")))
  }

  function ReadWs(args: seq<string>): Option<Listener> {
    if !Present(args, "--ws") then None
    else Some(Listener(Given(args, "--ws.addr"), ParseInt(Given(args, "--ws.port")),
                       Listed(args, "--ws.api"), Listed(args, "--ws.origins")))
  }

  function ReadAuth(args: seq<string>): Option<Auth> {
    if !Present(args, "--authrpc.addr") then None
    else Some(Auth(Given(args, "--authrpc.addr"), ParseInt(Given(args, "--authrpc.port")),
                   Given(args, "--authrpc.jwtsecret")))
  }

  function ReadRpc(args: seq<string>): Option<Rpc> {
    if !Present(args, "--rpc.addr") then None
    else Some(Rpc(Given(args, "--rpc.addr"), ParseInt(Given(args, "--rpc.port")),
                  Present(args, "--rpc.enable-admin")))
  }

  function ReadP2p(args: seq<string>): Option<P2p> {
    if !Present(args, "--p2p.listen.tcp") then None
    else Some(P2p(ParseInt(Given(args, "--p2p.listen.tcp")), !Present(args, "--p2p.no-discovery"),
                  Values(args, "--p2p.static"), Present(args, "--p2p.priv.path")))
  }

  /** The settings a spec asks for, with the operator's defaults. */
  function HttpWanted(s: OpNodeSpec): Option<Listener> {
    match s.opGeth.networking
    case None => None
    case Some(net) =>
      if net.http.None? || !net.http.value.enabled then None
      else
        var h := net.http.value;
        Some(Listener(if h.host != "" then h.host else "0.0.0.0", if h.port != 0 then h.port else 8545, h.apis,
                      if h.cors.Some? then h.cors.value else []))
  }

  function WsWanted(s: OpNodeSpec): Option<Listener> {
    match s.opGeth.networking
    case None => None
    case Some(net) =>
      if net.ws.None? || !net.ws.value.enabled then None
      else
        var w := net.ws.value;
        Some(Listener(if w.host != "" then w.host else "0.0.0.0", if w.port != 0 then w.port else 8546, w.apis,
                      w.origins))
  }

  function AuthWanted(s: OpNodeSpec): Option<Auth> {
    match s.opGeth.networking
    case None => None
    case Some(net) =>
      if net.authrpc.None? then None
      else
        var a := net.authrpc.value;
        Some(Auth(if a.host != "" then a.host else "127.0.0.1", if a.port != 0 then a.port else 8551,
                  "/secrets/jwt/jwt"))
  }

  function RpcWanted(s: OpNodeSpec): Option<Rpc> {
    match s.opNode.rpc
    case None => None
    case Some(c) =>
      if !c.enabled then None
      else Some(Rpc(if c.host != "" then c.host else "0.0.0.0", if c.port != 0 then c.port else 9545, c.enableAdmin))
  }

  function P2pWanted(s: OpNodeSpec): Option<P2p> {
    match s.opNode.p2p
    case None => None
    case Some(p) =>
      if !p.enabled then None
      else Some(P2p(if p.listenPort != 0 then p.listenPort else 9003, p.discovery != Some(false), Somes(p.staticPeers),
                    p.privateKey.Some? && (p.privateKey.value.generate || p.privateKey.value.secretRef.Some?)))
  }

  /* ----- How the flags are spelled ----- */

  lemma GethSpelled()
    ensures FlagName(DataDir) == "--datadir" && FlagName(NetworkId) == "--networkid"
            && FlagName(SequencerHttp) == "--rollup.sequencerhttp" && FlagName(SyncMode) == "--syncmode"
  {
  }

  lemma HttpSpelled()
    ensures FlagName(Http) == "--http" && FlagName(HttpAddr) == "--http.addr"
            && FlagName(Flag.HttpPort) == "--http.port" && FlagName(HttpApi) == "--http.api"
            && FlagName(HttpCors) == "--http.corsdomain"
  {
  }

  lemma WsSpelled()
    ensures FlagName(Ws) == "--ws" && FlagName(WsAddr) == "--ws.addr" && FlagName(Flag.WsPort) == "--ws.port"
            && FlagName(WsApi) == "--ws.api" && FlagName(WsOrigins) == "--ws.origins"
  {
  }

  lemma AuthSpelled()
    ensures FlagName(AuthAddr) == "--authrpc.addr" && FlagName(Flag.AuthPort) == "--authrpc.port"
            && FlagName(AuthJwt) == "--authrpc.jwtsecret"
  {
  }

  lemma LinkSpelled()
    ensures FlagName(L1) == "--l1" && FlagName(L2) == "--l2" && FlagName(L2Jwt) == "--l2.jwt-secret"
            && FlagName(RollupFile) == "--rollup.config" && FlagName(Flag.NetworkName) == "--network"
  {
  }

  lemma RpcSpelled()
    ensures FlagName(RpcAddr) == "--rpc.addr" && FlagName(Flag.RpcPort) == "--rpc.port"
            && FlagName(RpcAdmin) == "--rpc.enable-admin"
  {
  }

  lemma P2pSpelled()
    ensures FlagName(P2pListen) == "--p2p.listen.tcp" && FlagName(P2pNoDiscovery) == "--p2p.no-discovery"
            && FlagName(P2pStatic) == "--p2p.static" && FlagName(P2pKeyPath) == "--p2p.priv.path"
  {
  }

  lemma SequencerSpelled()
    ensures FlagName(Flag.SequencerEnabled) == "--sequencer.enabled"
            && FlagName(SequencerConfs) == "--sequencer.l1-confs"
  {
  }

  lemma SharedSpelled()
    ensures FlagName(LogLevel) == "--log.level" && FlagName(LogFormat) == "--log.format"
            && FlagName(Flag.MetricsEnabled) == "--metrics.enabled" && FlagName(MetricsAddr) == "--metrics.addr"
            && FlagName(Flag.MetricsPort) == "--metrics.port"
  {
  }

  predicate CommaFree(items: seq<string>) {
    forall p :: p in items ==> ',' !in p
  }

  /** A list survives printing and reading exactly when no item holds a comma. */
  lemma ListDecodes(items: seq<string>, args: seq<string>, name: string)
    requires Values(args, name) == OneIf(|items| > 0, Some(Join(items, ',')))
    ensures Listed(args, name) == items <==> CommaFree(items)
  {
    hide Values;
    if items != [] && CommaFree(items) {
      SplitJoin(items, ',');
    }
  }

  lemma HttpDecodes(key: Key, s: OpNodeSpec, net: Net)
    ensures var w := HttpWanted(s);
            ReadHttp(Geth(key, s, net).args) == w <==>
              (w.Some? ==> CommaFree(w.value.apis) && CommaFree(w.value.origins))
  {
    hide Values, FlagName, Geth, Itoa, ParseInt, Listed, CommaFree, Join, SequencerEndpoint;
    var args := Geth(key, s, net).args;
    forall f ensures Values(args, FlagName(f)) == GethFlag(f, key, s, net) {
      GethSays(key, s, net, f);
    }
    HttpSpelled();
    if HttpOn(s) {
      var h := s.opGeth.networking.value.http.value;
      ItoaRoundTrip(DefaultInt(h.port, 8545));
      ListDecodes(h.apis, args, FlagName(HttpApi));
      ListDecodes(h.cors.GetOr([]), args, FlagName(HttpCors));
    }
  }

  lemma WsDecodes(key: Key, s: OpNodeSpec, net: Net)
    ensures var w := WsWanted(s);
            ReadWs(Geth(key, s, net).args) == w <==> (w.Some? ==> CommaFree(w.value.apis) && CommaFree(w.value.origins))
  {
    hide Values, FlagName, Geth, Itoa, ParseInt, Listed, CommaFree, Join, SequencerEndpoint;
    var args := Geth(key, s, net).args;
    forall f ensures Values(args, FlagName(f)) == GethFlag(f, key, s, net) {
      GethSays(key, s, net, f);
    }
    WsSpelled();
    if WsOn(s) {
      var w := s.opGeth.networking.value.ws.value;
      ItoaRoundTrip(DefaultInt(w.port, 8546));
      ListDecodes(w.apis, args, FlagName(WsApi));
      ListDecodes(w.origins, args, FlagName(WsOrigins));
    }
  }

  lemma AuthDecodes(key: Key, s: OpNodeSpec, net: Net)
    ensures ReadAuth(Geth(key, s, net).args) == AuthWanted(s)
  {
    hide Values, FlagName, Geth, Itoa, ParseInt, SequencerEndpoint;
    GethSays(key, s, net, AuthAddr);
    GethSays(key, s, net, Flag.AuthPort);
    GethSays(key, s, net, AuthJwt);
    AuthSpelled();
    if AuthOn(s) {
      ItoaRoundTrip(DefaultInt(s.opGeth.networking.value.authrpc.value.port, 8551));
    }
  }

  lemma RpcDecodes(s: OpNodeSpec, net: Net)
    ensures ReadRpc(Node(s, net).args) == RpcWanted(s)
  {
    hide Values, FlagName, Node, Itoa, ParseInt, SharedFlag;
    NodeSays(s, net, RpcAddr);
    NodeSays(s, net, Flag.RpcPort);
    NodeSays(s, net, RpcAdmin);
    RpcSpelled();
    if RpcOn(s) {
      ItoaRoundTrip(DefaultInt(s.opNode.rpc.value.port, 9545));
    } else {
      NotShared(net, RpcAddr);
    }
  }

  lemma NotShared(net: Net, f: Flag)
    requires !PartOf(f).LogPart? && !PartOf(f).MetricsPart?
    ensures net.spec.shared.Some? ==> SharedFlag(f, net.spec.shared.value) == []
  {
  }

  /** Static peers keep their order and multiplicity. */
  lemma P2pDecodes(s: OpNodeSpec, net: Net)
    ensures ReadP2p(Node(s, net).args) == P2pWanted(s)
  {
    hide Values, FlagName, Node, Itoa, ParseInt, SharedFlag;
    NodeSays(s, net, P2pListen);
    NodeSays(s, net, P2pNoDiscovery);
    NodeSays(s, net, P2pStatic);
    NodeSays(s, net, P2pKeyPath);
    P2pSpelled();
    if P2pOn(s) {
      ItoaRoundTrip(DefaultInt(s.opNode.p2p.value.listenPort, 9003));
    } else {
      NotShared(net, P2pListen);
    }
  }

  /** The settings both containers always have. */
  lemma BaseDecodes(key: Key, s: OpNodeSpec, net: Net)
    ensures var geth, node := Geth(key, s, net).args, Node(s, net).args;
            && Given(geth, "--datadir") == (if s.opGeth.dataDir != "" then s.opGeth.dataDir else "/data/geth")
            && ParseInt(Given(geth, "--networkid")) == net.spec.chainID
            && Given(geth, "--syncmode") == (if s.opGeth.syncMode != "" then s.opGeth.syncMode else "snap")
            && Given(node, "--l1") == net.spec.l1RpcUrl
            && Given(node, "--rollup.config") == "/config/rollup.json"
            && Values(node, "--network") == (if net.spec.networkName != "" then [Some(net.spec.networkName)] else [])
  {
    hide Values, FlagName, Geth, Node, Itoa, ParseInt, SequencerEndpoint;
    GethSpelled();
    LinkSpelled();
    GethSays(key, s, net, DataDir);
    GethSays(key, s, net, Flag.NetworkId);
    GethSays(key, s, net, SyncMode);
    ItoaRoundTrip(net.spec.chainID);
    NodeSays(s, net, L1);
    NodeSays(s, net, RollupFile);
    NodeSays(s, net, Flag.NetworkName);
  }

  /** The sequencer settings of op-node. */
  lemma SequencerDecodes(s: OpNodeSpec, net: Net)
    ensures var on := s.opNode.sequencer.Some? && s.opNode.sequencer.value.enabled;
            && (Present(Node(s, net).args, "--sequencer.enabled") <==> on)
            && Values(Node(s, net).args, "--sequencer.l1-confs") ==
               if on && s.opNode.sequencer.value.blockTime != "" then [Some("4")] else []
  {
    hide Values, FlagName, Node, SharedFlag;
    SequencerSpelled();
    NodeSays(s, net, Flag.SequencerEnabled);
    NodeSays(s, net, SequencerConfs);
    NotShared(net, Flag.SequencerEnabled);
    NotShared(net, SequencerConfs);
  }

  /** The logging and metrics settings the network shares. */
  lemma SharedDecodes(s: OpNodeSpec, net: Net)
    ensures var args := Node(s, net).args;
            var log := if net.spec.shared.Some? then net.spec.shared.value.logging else None;
            var on := net.spec.shared.Some? && net.spec.shared.value.metrics.Some?
                      && net.spec.shared.value.metrics.value.enabled;
            && Values(args, "--log.level") ==
               (if log.Some? && log.value.level != "" then [Some(log.value.level)] else [])
            && Values(args, "--log.format") ==
               (if log.Some? && log.value.format != "" then [Some(log.value.format)] else [])
            && (Present(args, "--metrics.enabled") <==> on)
            && (on ==>
                  && Given(args, "--metrics.addr") == "0.0.0.0"
                  && var port := net.spec.shared.value.metrics.value.port;
                     ParseInt(Given(args, "--metrics.port")) == if port != 0 then port else 7300)
  {
    hide Values, FlagName, Node, Itoa, ParseInt;
    SharedSpelled();
    NodeSays(s, net, LogLevel);
    NodeSays(s, net, LogFormat);
    NodeSays(s, net, Flag.MetricsEnabled);
    NodeSays(s, net, MetricsAddr);
    NodeSays(s, net, Flag.MetricsPort);
    if net.spec.shared.Some? && net.spec.shared.value.metrics.Some? {
      ItoaRoundTrip(DefaultInt(net.spec.shared.value.metrics.value.port, 7300));
    }
  }

  /** Every flag but the one for static peers is given at most once to each container. */
  lemma SingleValued(key: Key, s: OpNodeSpec, net: Net, f: Flag)
    requires !f.P2pStatic?
    ensures |Values(Geth(key, s, net).args, FlagName(f))| <= 1
    ensures |Values(Node(s, net).args, FlagName(f))| <= 1
  {
    hide Values, FlagName, Geth, Node, GethFlag, NodeFlag;
    GethSays(key, s, net, f);
    GethFlagOnce(key, s, net, f);
    NodeSays(s, net, f);
    NodeFlagOnce(s, net, f);
  }

  lemma GethFlagOnce(key: Key, s: OpNodeSpec, net: Net, f: Flag)
    ensures |GethFlag(f, key, s, net)| <= 1
  {
    hide Itoa, SequencerEndpoint, Join, HttpOn, WsOn, AuthOn, DefaultString;
  }

  lemma NodeFlagOnce(s: OpNodeSpec, net: Net, f: Flag)
    requires !f.P2pStatic?
    ensures |NodeFlag(f, s, net)| <= 1
  {
    hide Itoa, AuthPortOf, KeyGiven, RpcOn, P2pOn, SequencerOn, DefaultString;
  }
}

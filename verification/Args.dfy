/** Command-line arguments: the flags the two containers are started with, how one is printed,
    and how a printed list is read back by splitting each argument at its first `=`. */
module Args {
  import opened Types
  import opened Strings

  datatype Flag =
    | DataDir | NetworkId | SequencerHttp | SyncMode | Http | HttpAddr | HttpPort | HttpApi | HttpCors
    | Ws | WsAddr | WsPort | WsApi | WsOrigins | AuthAddr | AuthPort | AuthJwt | L1
    | L2 | L2Jwt | RollupFile | NetworkName | RpcAddr | RpcPort | RpcAdmin | P2pListen | P2pNoDiscovery
    | P2pStatic | P2pKeyPath | SequencerEnabled | SequencerConfs
    | LogLevel | LogFormat | MetricsEnabled | MetricsAddr | MetricsPort

  function FlagName(f: Flag): string {
    match f
    case DataDir => "--datadir"
    case NetworkId => "--networkid"
    case SequencerHttp => "--rollup.sequencerhttp"
    case SyncMode => "--syncmode"
    case Http => "--http"
    case HttpAddr => "--http.addr"
    case HttpPort => "--http.port"
    case HttpApi => "--http.api"
    case HttpCors => "--http.corsdomain"
    case Ws => "--ws"
    case WsAddr => "--ws.addr"
    case WsPort => "--ws.port"
    case WsApi => "--ws.api"
    case WsOrigins => "--ws.origins"
    case AuthAddr => "--authrpc.addr"
    case AuthPort => "--authrpc.port"
    case AuthJwt => "--authrpc.jwtsecret"
    case L1 => "--l1"
    case L2 => "--l2"
    case L2Jwt => "--l2.jwt-secret"
    case RollupFile => "--rollup.config"
    case NetworkName => "--network"
    case RpcAddr => "--rpc.addr"
    case RpcPort => "--rpc.port"
    case RpcAdmin => "--rpc.enable-admin"
    case P2pListen => "--p2p.listen.tcp"
    case P2pNoDiscovery => "--p2p.no-discovery"
    case P2pStatic => "--p2p.static"
    case P2pKeyPath => "--p2p.priv.path"
    case SequencerEnabled => "--sequencer.enabled"
    case SequencerConfs => "--sequencer.l1-confs"
    case LogLevel => "--log.level"
    case LogFormat => "--log.format"
    case MetricsEnabled => "--metrics.enabled"
    case MetricsAddr => "--metrics.addr"
    case MetricsPort => "--metrics.port"
  }

  /** Length, third and last character tell every two flag names apart. */
  function ByMark(length: nat, third: char, last: char): Flag {
    if length == 9 && third == 'd' && last == 'r' then DataDir
    else if length == 11 && third == 'n' && last == 'd' then NetworkId
    else if length == 22 && third == 'r' && last == 'p' then SequencerHttp
    else if length == 10 && third == 's' && last == 'e' then SyncMode
    else if length == 6 && third == 'h' && last == 'p' then Http
    else if length == 11 && third == 'h' && last == 'r' then HttpAddr
    else if length == 11 && third == 'h' && last == 't' then HttpPort
    else if length == 10 && third == 'h' && last == 'i' then HttpApi
    else if length == 17 && third == 'h' && last == 'n' then HttpCors
    else if length == 4 && third == 'w' && last == 's' then Ws
    else if length == 9 && third == 'w' && last == 'r' then WsAddr
    else if length == 9 && third == 'w' && last == 't' then WsPort
    else if length == 8 && third == 'w' && last == 'i' then WsApi
    else if length == 12 && third == 'w' && last == 's' then WsOrigins
    else if length == 14 && third == 'a' && last == 'r' then AuthAddr
    else if length == 14 && third == 'a' && last == 't' then AuthPort
    else if length == 19 && third == 'a' && last == 't' then AuthJwt
    else if length == 4 && third == 'l' && last == '1' then L1
    else if length == 4 && third == 'l' && last == '2' then L2
    else if length == 15 && third == 'l' && last == 't' then L2Jwt
    else if length == 15 && third == 'r' && last == 'g' then RollupFile
    else if length == 9 && third == 'n' && last == 'k' then NetworkName
    else if length == 10 && third == 'r' && last == 'r' then RpcAddr
    else if length == 10 && third == 'r' && last == 't' then RpcPort
    else if length == 18 && third == 'r' && last == 'n' then RpcAdmin
    else if length == 16 && third == 'p' && last == 'p' then P2pListen
    else if length == 18 && third == 'p' && last == 'y' then P2pNoDiscovery
    else if length == 12 && third == 'p' && last == 'c' then P2pStatic
    else if length == 15 && third == 'p' && last == 'h' then P2pKeyPath
    else if length == 19 && third == 's' && last == 'd' then SequencerEnabled
    else if length == 20 && third == 's' && last == 's' then SequencerConfs
    else if length == 11 && third == 'l' && last == 'l' then LogLevel
    else if length == 12 && third == 'l' && last == 't' then LogFormat
    else if length == 17 && third == 'm' && last == 'd' then MetricsEnabled
    else if length == 14 && third == 'm' && last == 'r' then MetricsAddr
    else if length == 14 && third == 'm' && last == 't' then MetricsPort
    else DataDir
  }

  /** A name without `=` that `ByMark` maps to `f`. */
  ghost predicate Marks(name: string, f: Flag) {
    |name| >= 4 && '=' !in name && ByMark(|name|, name[2], name[|name| - 1]) == f
  }

  /** Which part of the argument lists a flag belongs to. */
  datatype Part =
    | BasePart | HttpPart | WsPart | AuthPart
    | LinkPart | RpcPart | P2pPart | SequencerPart | LogPart | MetricsPart

  function PartOf(f: Flag): Part {
    match f
    case DataDir | NetworkId | SequencerHttp | SyncMode => BasePart
    case Http | HttpAddr | HttpPort | HttpApi | HttpCors => HttpPart
    case Ws | WsAddr | WsPort | WsApi | WsOrigins => WsPart
    case AuthAddr | AuthPort | AuthJwt => AuthPart
    case L1 | L2 | L2Jwt | RollupFile | NetworkName => LinkPart
    case RpcAddr | RpcPort | RpcAdmin => RpcPart
    case P2pListen | P2pNoDiscovery | P2pStatic | P2pKeyPath => P2pPart
    case SequencerEnabled | SequencerConfs => SequencerPart
    case LogLevel | LogFormat => LogPart
    case MetricsEnabled | MetricsAddr | MetricsPort => MetricsPart
  }

  lemma BaseMarks(f: Flag)
    requires PartOf(f).BasePart?
    ensures Marks(FlagName(f), f)
  {
  }

  lemma HttpMarks(f: Flag)
    requires PartOf(f).HttpPart?
    ensures Marks(FlagName(f), f)
  {
  }

  lemma WsMarks(f: Flag)
    requires PartOf(f).WsPart?
    ensures Marks(FlagName(f), f)
  {
  }

  lemma AuthMarks(f: Flag)
    requires PartOf(f).AuthPart?
    ensures Marks(FlagName(f), f)
  {
  }

  lemma LinkMarks(f: Flag)
    requires PartOf(f).LinkPart?
    ensures Marks(FlagName(f), f)
  {
  }

  lemma RpcMarks(f: Flag)
    requires PartOf(f).RpcPart?
    ensures Marks(FlagName(f), f)
  {
  }

  lemma P2pMarks(f: Flag)
    requires PartOf(f).P2pPart?
    ensures Marks(FlagName(f), f)
  {
  }

  lemma SequencerMarks(f: Flag)
    requires PartOf(f).SequencerPart?
    ensures Marks(FlagName(f), f)
  {
  }

  lemma LogMarks(f: Flag)
    requires PartOf(f).LogPart?
    ensures Marks(FlagName(f), f)
  {
  }

  lemma MetricsMarks(f: Flag)
    requires PartOf(f).MetricsPart?
    ensures Marks(FlagName(f), f)
  {
  }

  lemma FlagMark(f: Flag)
    ensures Marks(FlagName(f), f)
  {
    hide FlagName, Marks, PartOf;
    match PartOf(f)
    case BasePart => BaseMarks(f);
    case HttpPart => HttpMarks(f);
    case WsPart => WsMarks(f);
    case AuthPart => AuthMarks(f);
    case LinkPart => LinkMarks(f);
    case RpcPart => RpcMarks(f);
    case P2pPart => P2pMarks(f);
    case SequencerPart => SequencerMarks(f);
    case LogPart => LogMarks(f);
    case MetricsPart => MetricsMarks(f);
  }

  lemma FlagNamesDiffer(f: Flag, g: Flag)
    ensures '=' !in FlagName(f)
    ensures FlagName(f) == FlagName(g) ==> f == g
  {
    hide FlagName, ByMark;
    FlagMark(f);
    FlagMark(g);
  }

  /** One argument, with or without a value. */
  datatype Arg = Arg(flag: Flag, value: Option<string>)

  function Render(a: Arg): string {
    FlagName(a.flag) + (match a.value case None => "" case Some(v) => "=" + v)
  }

  function RenderAll(l: seq<Arg>): (r: seq<string>)
    ensures |r| == |l| && forall i :: 0 <= i < |l| ==> r[i] == Render(l[i])
  {
    seq(|l|, i requires 0 <= i < |l| => Render(l[i]))
  }

  /** Reading one argument: its name, and what follows the first `=`. */
  function NameOf(s: string): string {
    s[..IndexOf(s, '=')]
  }

  function ValueOf(s: string): Option<string> {
    var i := IndexOf(s, '=');
    if i == |s| then None else Some(s[i + 1..])
  }

  /** All values given to the flag called `name`, in order. */
  function Values(args: seq<string>, name: string): seq<Option<string>> {
    if args == [] then []
    else (if NameOf(args[0]) == name then [ValueOf(args[0])] else []) + Values(args[1..], name)
  }

  function Chosen(l: seq<Arg>, f: Flag): seq<Option<string>> {
    if l == [] then [] else (if l[0].flag == f then [l[0].value] else []) + Chosen(l[1..], f)
  }

  lemma ReadBack(a: Arg)
    ensures NameOf(Render(a)) == FlagName(a.flag) && ValueOf(Render(a)) == a.value
  {
    hide FlagName;
    var n := FlagName(a.flag);
    FlagNamesDiffer(a.flag, a.flag);
    match a.value
    case None =>
      assert Render(a) == n;
      IndexOfNone(n, '=');
    case Some(v) =>
      assert Render(a) == n + ['='] + v;
      IndexOfFirst(n, '=', v);
      assert Render(a)[|n| + 1..] == v;
  }

  /** Reading a printed list finds for each flag exactly the values it was given, in order. */
  lemma {:induction false} ReadBackAll(l: seq<Arg>, f: Flag)
    ensures Values(RenderAll(l), FlagName(f)) == Chosen(l, f)
  {
    hide FlagName;
    if l != [] {
      ReadBack(l[0]);
      ReadBackAll(l[1..], f);
      FlagNamesDiffer(f, l[0].flag);
      assert RenderAll(l)[1..] == RenderAll(l[1..]);
    }
  }

  lemma {:induction false} ChosenConcat(a: seq<Arg>, b: seq<Arg>, f: Flag)
    ensures Chosen(a + b, f) == Chosen(a, f) + Chosen(b, f)
  {
    if a == [] {
      assert a + b == b;
    } else {
      ChosenConcat(a[1..], b, f);
      assert (a + b)[0] == a[0] && (a + b)[1..] == a[1..] + b;
      Associative(if a[0].flag == f then [a[0].value] else [], Chosen(a[1..], f), Chosen(b, f));
    }
  }
}

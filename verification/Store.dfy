/** The versioned object store behind the Kubernetes API, and the API calls the operator makes.

    Rules of the store: a write with a stale resource version is a conflict; the generation grows exactly
    when the spec changes; Update leaves the status alone and UpdateStatus everything else; a write that
    changes nothing leaves the resource version alone; a deleting object without finalizers is gone; Create
    fails if the name exists; a StatefulSet keeps its selector, service name and claim templates.  Any call may fail. */
module Store {
  import opened Types
  import opened Builders

  /* ----- Custom resources ----- */

  datatype Kind = NodeKind | NetworkKind
  datatype Id = Id(kind: Kind, ns: string, name: string)

  datatype Finalizer = NodeFinalizer | NetworkFinalizer | Foreign(name: string)

  /** The finalizer the operator puts on objects of a kind. */
  function Own(k: Kind): Finalizer {
    match k
    case NodeKind => NodeFinalizer
    case NetworkKind => NetworkFinalizer
  }

  datatype Spec = NodeSpec(node: OpNodeSpec) | NetworkSpec(network: OptimismNetworkSpec)

  predicate Fits(k: Kind, s: Spec) {
    k.NodeKind? <==> s.NodeSpec?
  }

  /** A stored object, or a client's copy of one.  `past` is a history variable: the specs before the
      present one, so that the generation is the number of specs there have been. */
  datatype Object = Object(uid: nat, rv: nat, past: seq<Spec>, spec: Spec, finalizers: set<Finalizer>,
                           deleting: bool, status: Status)
  {
    function History(): (h: seq<Spec>)
      ensures |h| > 0
    {
      past + [spec]
    }

    function Generation(): int {
      |past| + 1
    }

    function WithSpec(s: Spec): Object {
      if s == spec then this else this.(past := History(), spec := s)
    }
  }

  /* ----- Children ----- */

  /** `owner` is the UID in the controller reference; a Secret somebody else made has none. */
  datatype Secret = Secret(owner: Option<nat>, data: map<string, string>)
  datatype StatefulSet = StatefulSet(owner: nat, rv: nat, labels: map<string, string>,
                                     annotations: map<string, string>, spec: StatefulSetSpec)
  datatype Service = Service(owner: nat, rv: nat, labels: map<string, string>,
                             annotations: map<string, string>, spec: ServiceSpec)
  datatype ConfigData =
    | RollupJson(l1ChainID: int, l2ChainID: int, portal: string, systemConfig: string)
    | GenesisJson(chainID: int)
  datatype ConfigMap = ConfigMap(owner: nat, rv: nat, data: ConfigData)

  /** History variable: the spec and network a StatefulSet was last written from. */
  datatype Built = Built(spec: OpNodeSpec, net: Net)

  datatype State = State(
    objs: map<Id, Object>,
    secrets: map<Key, Secret>,
    sets: map<Key, StatefulSet>,
    built: map<Key, Built>,
    svcs: map<Key, Service>,
    configs: map<Key, ConfigMap>,
    heirs: set<Id>, // history variable: who was created while children of an earlier object of that name were left
    next: nat)      // the next unused UID and resource version

  function KeyOf(id: Id): Key {
    Key(id.ns, id.name)
  }

  function JwtKey(id: Id): Key {
    Key(id.ns, id.name + "-jwt")
  }

  function P2pKey(id: Id): Key {
    Key(id.ns, id.name + "-p2p")
  }

  function RollupKey(id: Id): Key {
    Key(id.ns, id.name + "-rollup-config")
  }

  function GenesisKey(id: Id): Key {
    Key(id.ns, id.name + "-genesis")
  }

  /* ----- Calls and their answers ----- */

  /** A call is answered, or lost before it reaches the store, or takes effect while its caller is told it failed. */
  datatype Fault = NoFault | Lost | Unseen

  datatype Reply<+T> = Got(value: T) | Missing | Unavailable
  datatype Ack = Ok | NotFound | Conflict | Exists | Refused

  function Answer(s: State, r: (State, Ack), f: Fault): (State, Ack) {
    match f
    case NoFault => r
    case Lost => (s, Refused)
    case Unseen => (r.0, Refused)
  }

  function Lookup<K, V>(m: map<K, V>, k: K, f: Fault): Reply<V> {
    if !f.NoFault? then Unavailable else if k in m then Got(m[k]) else Missing
  }

  /** Stores `o` under `id`: nothing happens when nothing changes, and a deleting object without finalizers goes. */
  function Commit(s: State, id: Id, o: Object): State
    requires id in s.objs
  {
    if o == s.objs[id] then s
    else if o.deleting && o.finalizers == {} then s.(objs := s.objs - {id}, next := s.next + 1)
    else s.(objs := s.objs[id := o.(rv := s.next)], next := s.next + 1)
  }

  function UpdateObject(s: State, id: Id, o: Object, f: Fault): (State, Ack) {
    Answer(s,
           if id !in s.objs then (s, NotFound)
           else if s.objs[id].rv != o.rv then (s, Conflict)
           else (Commit(s, id, s.objs[id].WithSpec(o.spec).(finalizers := o.finalizers)), Ok),
           f)
  }

  function UpdateStatus(s: State, id: Id, o: Object, f: Fault): (State, Ack) {
    Answer(s,
           if id !in s.objs then (s, NotFound)
           else if s.objs[id].rv != o.rv then (s, Conflict)
           else (Commit(s, id, s.objs[id].(status := o.status)), Ok),
           f)
  }

  function CreateSecret(s: State, k: Key, v: Secret, f: Fault): (State, Ack) {
    Answer(s, if k in s.secrets then (s, Exists) else (s.(secrets := s.secrets[k := v]), Ok), f)
  }

  function CreateSet(s: State, k: Key, v: StatefulSet, b: Built, f: Fault): (State, Ack) {
    Answer(s,
           if k in s.sets then (s, Exists)
           else (ReplaceSet(s, k, v, b), Ok),
           f)
  }

  /** Stores `v` under `k`; nothing but the history variable changes when it is there already. */
  function ReplaceSet(s: State, k: Key, v: StatefulSet, b: Built): State {
    if k in s.sets && s.sets[k] == v then s.(built := s.built[k := b])
    else s.(sets := s.sets[k := v.(rv := s.next)], built := s.built[k := b], next := s.next + 1)
  }

  /** What an update of a StatefulSet must leave alone. */
  predicate Replaceable(p: StatefulSetSpec, q: StatefulSetSpec) {
    p.selector == q.selector && p.serviceName == q.serviceName && p.claims == q.claims
  }

  function UpdateSet(s: State, k: Key, v: StatefulSet, b: Built, f: Fault): (State, Ack) {
    Answer(s,
           if k !in s.sets then (s, NotFound)
           else if s.sets[k].rv != v.rv then (s, Conflict)
           else if !Replaceable(s.sets[k].spec, v.spec) then (s, Refused)
           else (ReplaceSet(s, k, v, b), Ok),
           f)
  }

  function CreateService(s: State, k: Key, v: Service, f: Fault): (State, Ack) {
    Answer(s,
           if k in s.svcs then (s, Exists)
           else (s.(svcs := s.svcs[k := v.(rv := s.next)], next := s.next + 1), Ok),
           f)
  }

  function UpdateService(s: State, k: Key, v: Service, f: Fault): (State, Ack) {
    Answer(s,
           if k !in s.svcs then (s, NotFound)
           else if s.svcs[k].rv != v.rv then (s, Conflict)
           else if s.svcs[k] == v then (s, Ok)
           else (s.(svcs := s.svcs[k := v.(rv := s.next)], next := s.next + 1), Ok),
           f)
  }

  function CreateConfig(s: State, k: Key, v: ConfigMap, f: Fault): (State, Ack) {
    Answer(s,
           if k in s.configs then (s, Exists)
           else (s.(configs := s.configs[k := v.(rv := s.next)], next := s.next + 1), Ok),
           f)
  }

  function UpdateConfig(s: State, k: Key, v: ConfigMap, f: Fault): (State, Ack) {
    Answer(s,
           if k !in s.configs then (s, NotFound)
           else if s.configs[k].rv != v.rv then (s, Conflict)
           else if s.configs[k] == v then (s, Ok)
           else (s.(configs := s.configs[k := v.(rv := s.next)], next := s.next + 1), Ok),
           f)
  }
}

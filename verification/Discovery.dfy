/** pkg/discovery: contract discovery behind a cache that expires. */
module Discovery {
  import opened Types
  import opened Strings

  /* ----- The cache key ----- */

  function CacheKey(name: string, chainID: int): string {
    name + ("-" + Itoa(chainID))
  }

  /** The number of digits at the end of `s`. */
  function DigitTail(s: string): nat {
    if s == "" || !('0' <= s[|s| - 1] <= '9') then 0 else 1 + DigitTail(s[..|s| - 1])
  }

  lemma {:induction false} DigitTailOf(a: string, d: string)
    requires forall i :: 0 <= i < |d| ==> '0' <= d[i] <= '9'
    ensures DigitTail(a + ['-'] + d) == |d|
  {
    var s := a + ['-'] + d;
    if d != "" {
      DigitTailOf(a, d[..|d| - 1]);
      assert s[..|s| - 1] == a + ['-'] + d[..|d| - 1];
    }
  }

  /** The name and the number in front of and behind the last `-` that digits follow. */
  lemma PlainInjective(a: string, m: nat, b: string, n: nat)
    requires a + ['-'] + Decimal(m) == b + ['-'] + Decimal(n)
    ensures a == b && m == n
  {
    DecimalRoundTrip(m);
    DecimalRoundTrip(n);
    var s, d, e := a + ['-'] + Decimal(m), Decimal(m), Decimal(n);
    hide Decimal, ParseDecimal, DigitTail;
    DigitTailOf(a, d);
    DigitTailOf(b, e);
    assert |d| == |e| && |a| == |b|;
    assert a == s[..|s| - |d| - 1] && b == s[..|s| - |e| - 1];
    assert d == s[|s| - |d|..] && e == s[|s| - |e|..];
  }

  /** The name and number the key shows: a negative ID lends its sign to the name. */
  function Shown(name: string, chainID: int): (string, nat) {
    if chainID >= 0 then (name, chainID) else (name + ['-'], -chainID)
  }

  lemma KeyShows(name: string, chainID: int)
    ensures var (a, m) := Shown(name, chainID);
            CacheKey(name, chainID) == a + ['-'] + Decimal(m)
  {
    hide Decimal;
    if chainID >= 0 {
      assert name + ("-" + Decimal(chainID)) == name + ['-'] + Decimal(chainID);
    } else {
      assert name + ("-" + ("-" + Decimal(-chainID))) == name + ['-'] + ['-'] + Decimal(-chainID);
    }
  }

  predicate Collide(name: string, chainID: int, name': string, chainID': int) {
    chainID > 0 && chainID' == -chainID && name == name' + ['-']
  }

  /** Two networks share a cache key exactly if they have the same name and chain ID, or opposite IDs and names that
      differ by one trailing dash. */
  lemma KeysCollide(name: string, chainID: int, name': string, chainID': int)
    ensures CacheKey(name, chainID) == CacheKey(name', chainID') <==>
            || (name == name' && chainID == chainID')
            || Collide(name, chainID, name', chainID')
            || Collide(name', chainID', name, chainID)
  {
    hide CacheKey, Decimal;
    KeyShows(name, chainID);
    KeyShows(name', chainID');
    var (a, m) := Shown(name, chainID);
    var (b, n) := Shown(name', chainID');
    if CacheKey(name, chainID) == CacheKey(name', chainID') {
      PlainInjective(a, m, b, n);
      if chainID < 0 && chainID' < 0 {
        assert name == a[..|a| - 1] && name' == b[..|b| - 1];
      }
    }
  }

  /** Between networks with non-negative IDs, the key tells every two apart. */
  lemma KeyInjective(name: string, chainID: int, name': string, chainID': int)
    requires chainID >= 0 && chainID' >= 0 && CacheKey(name, chainID) == CacheKey(name', chainID')
    ensures name == name' && chainID == chainID'
  {
    hide CacheKey;
    KeysCollide(name, chainID, name', chainID');
  }

  /* ----- Uncached discovery ----- */

  /** The errors of discovery; `Wrapped` is one handed on. */
  datatype Error =
    | UnknownMethod(discoveryMethod: string)
    | RegistryNotImplemented
    | NoStrategyWorked
    | NothingKnown(networkName: string, chainID: int)
    | Wrapped(cause: Error)

  datatype Answer = Produced(addresses: Addresses) | Refused(error: Error)

  function Official(l2OutputOracle: string, disputeGameFactory: string, portal: string, systemConfig: string,
                    messenger: string, bridge: string): Addresses
  {
    Addresses(l2OutputOracle, disputeGameFactory, portal, systemConfig, messenger, bridge,
              "0x4200000000000000000000000000000000000007", "0x4200000000000000000000000000000000000010",
              "0x4200000000000000000000000000000000000016", 0, "well-known")
  }

  const OP_MAINNET := Official(
    "0xdfe97868233d1aa22e815a266982f2cf17685a27", "0xe5965Ab5962eDc7477C8520243A95517CD252fA9",
    "0xbEb5Fc579115071764c7423A4f12eDde41f106Ed", "0x229047fed2591dbec1eF1118d64F7aF3dB9EB290",
    "0x25ace71c97B33Cc4729CF772ae268934F7ab5fA1", "0x99C9fc46f92E8a1c0deC1b1747d010903E884bE1")
  const OP_SEPOLIA := Official(
    "0x90E9c4f8a994a250F6aEfd61CAFb4F2e895D458F", "0x05F9613aDB30026FFd634f38e5C4dFd30a197Fa1",
    "0x16Fc5058F25648194471939df75CF27A2fdC48BC", "0x034edD2A225f7f429A63E0f1D2084B9E0A93b538",
    "0x58Cc85b8D04EA49cC6DBd3CbFFd00B4B8D6cb3ef", "0xFBb0621E0B23b5478B630BD55a5f21f67730B0F1")
  const BASE_MAINNET := Official(
    "0x56315b90c40730925ec5485cf004d835058518A0", "0x43edB88C4B80fDD2AdFF2412A7BebF9dF42cB40e",
    "0x49048044D57e1C92A77f79988d21Fa8fAF74E97e", "0x73a79Fab69143498Ed3712e519A88a918e1f4072",
    "0x866E82a600A1414e583f7F13623F1aC5d58b0Afa", "0x3154Cf16ccdb4C6d922629664174b904d80F2C35")

  predicate IsMainnet(name: string, chainID: int) {
    name == "op-mainnet" || chainID == 10
  }

  predicate IsSepolia(name: string, chainID: int) {
    name == "op-sepolia" || chainID == 11155420
  }

  predicate IsBase(name: string, chainID: int) {
    name == "base-mainnet" || chainID == 8453
  }

  /** The first network whose name or chain ID fits. */
  function WellKnown(name: string, chainID: int): Option<Addresses> {
    if IsMainnet(name, chainID) then Some(OP_MAINNET)
    else if IsSepolia(name, chainID) then Some(OP_SEPOLIA)
    else if IsBase(name, chainID) then Some(BASE_MAINNET)
    else None
  }

  const NO_ADDRESSES := Addresses("", "", "", "", "", "", "", "", "", 0, "")

  function Manual(c: ContractAddressConfig): Addresses {
    NO_ADDRESSES.(systemConfig := c.systemConfig, l2OutputOracle := c.l2OutputOracle,
                  disputeGameFactory := c.disputeGameFactory, optimismPortal := c.optimismPortal,
                  discoveryMethod := "manual")
  }

  function MethodOf(n: OptimismNetworkSpec): string {
    if n.contracts.Some? && n.contracts.value.discoveryMethod != "" then n.contracts.value.discoveryMethod else "auto"
  }

  /** `dial` says whether the L1 endpoint can be dialled. */
  function Auto(n: OptimismNetworkSpec, dial: bool): Answer {
    if n.contracts.Some? && n.contracts.value.systemConfig != "" && dial then
      Produced(NO_ADDRESSES.(systemConfig := n.contracts.value.systemConfig, discoveryMethod := "system-config"))
    else match WellKnown(n.networkName, n.chainID)
         case Some(a) => Produced(a.(discoveryMethod := "well-known"))
         case None => Refused(Wrapped(NoStrategyWorked))
  }

  /** What discovery finds without a cache, but for the time. */
  function Unstamped(n: OptimismNetworkSpec, dial: bool): Answer {
    var m := MethodOf(n);
    if m == "auto" then Auto(n, dial)
    else if m == "superchain-registry" then Refused(Wrapped(RegistryNotImplemented))
    else if m == "well-known" then
      (match WellKnown(n.networkName, n.chainID)
       case Some(a) => Produced(a)
       case None => Refused(NothingKnown(n.networkName, n.chainID)))
    else if m == "manual" then Produced(Manual(n.contracts.value))
    else Refused(UnknownMethod(m))
  }

  /** What discovery answers without a cache, at time `stamp`. */
  function Uncached(n: OptimismNetworkSpec, dial: bool, stamp: int): Answer {
    match Unstamped(n, dial)
    case Produced(a) => Produced(a.(lastDiscoveryTime := stamp))
    case Refused(e) => Refused(e)
  }

  /** What each method owes its caller, whatever way it takes: `a` is the answer but for the time. */
  ghost predicate Owed(n: OptimismNetworkSpec, dial: bool, a: Answer) {
    && (n.contracts.None? || n.contracts.value.discoveryMethod in {"", "auto"} ==> OwedByAuto(n, dial, a))
    && (n.contracts.Some? ==>
          var c := n.contracts.value;
          && (c.discoveryMethod == "well-known" ==> OwedByName(n, a))
          && (c.discoveryMethod == "manual" ==>
                && a.Produced? && a.addresses.discoveryMethod == "manual"
                && a.addresses.systemConfig == c.systemConfig && a.addresses.l2OutputOracle == c.l2OutputOracle
                && a.addresses.disputeGameFactory == c.disputeGameFactory
                && a.addresses.optimismPortal == c.optimismPortal && NoBridges(a.addresses))
          && (c.discoveryMethod !in {"", "auto", "well-known", "manual"} ==> a.Refused?))
  }

  predicate NoBridges(a: Addresses) {
    && a.l1CrossDomainMessenger == a.l1StandardBridge == ""
    && a.l2CrossDomainMessenger == a.l2StandardBridge == a.l2ToL1MessagePasser == ""
  }

  /** The system config of the spec counts if the L1 endpoint answers, and then it is all that is known; otherwise the
      published addresses of a known network do, and there is nothing else. */
  ghost predicate OwedByAuto(n: OptimismNetworkSpec, dial: bool, a: Answer) {
    if n.contracts.Some? && n.contracts.value.systemConfig != "" && dial then
      && a.Produced? && a.addresses.discoveryMethod == "system-config"
      && a.addresses.systemConfig == n.contracts.value.systemConfig
      && a.addresses.l2OutputOracle == a.addresses.disputeGameFactory == a.addresses.optimismPortal == ""
      && NoBridges(a.addresses)
    else OwedByName(n, a)
  }

  ghost predicate OwedByName(n: OptimismNetworkSpec, a: Answer) {
    match WellKnown(n.networkName, n.chainID)
    case Some(w) => a == Produced(w)
    case None => a.Refused?
  }

  /** A network is known by its name or by its chain ID, and an earlier one of the list goes first. */
  lemma WellKnownIs(name: string, chainID: int)
    ensures var known := WellKnown(name, chainID);
            if name == "op-mainnet" || chainID == 10 then known == Some(OP_MAINNET)
            else if name == "op-sepolia" || chainID == 11155420 then known == Some(OP_SEPOLIA)
            else if name == "base-mainnet" || chainID == 8453 then known == Some(BASE_MAINNET)
            else known == None
  {
    hide Official, OP_MAINNET, OP_SEPOLIA, BASE_MAINNET;
  }

  lemma WellKnownIsStamped(name: string, chainID: int)
    ensures WellKnown(name, chainID).Some? ==> WellKnown(name, chainID).value.discoveryMethod == "well-known"
  {
    hide IsMainnet, IsSepolia, IsBase;
  }

  /** Uncached discovery gives every caller its due. */
  lemma UncachedIsOwed(n: OptimismNetworkSpec, dial: bool)
    ensures Owed(n, dial, Unstamped(n, dial))
  {
    hide WellKnown;
    WellKnownIsStamped(n.networkName, n.chainID);
  }

  /** How long an answer given at time `now` is kept: the spec's own timeout if it is positive. */
  predicate LastsFor(expiresAt: int, now: int, n: OptimismNetworkSpec, default_: int) {
    var own := if n.contracts.Some? then n.contracts.value.cacheTimeout else 0;
    && (own > 0 ==> expiresAt == now + own)
    && (own <= 0 ==> expiresAt == now + default_)
  }

  lemma TimeoutLasts(now: int, n: OptimismNetworkSpec, default_: int)
    ensures LastsFor(now + TimeoutOf(n, default_), now, n, default_)
  {
  }

  function TimeoutOf(n: OptimismNetworkSpec, default_: int): int {
    if n.contracts.Some? && n.contracts.value.cacheTimeout > 0 then n.contracts.value.cacheTimeout else default_
  }

  /* ----- The service ----- */

  /** One production of uncached discovery that was cached, with the time of insertion. */
  datatype Production = Production(spec: OptimismNetworkSpec, dial: bool, stamp: int, at: int, addresses: Addresses)

  /** A record of addresses, shared by reference with the callers. */
  class Record {
    var addresses: Addresses

    constructor (addresses: Addresses)
      ensures this.addresses == addresses
    {
      this.addresses := addresses;
    }
  }

  datatype Entry = Entry(record: Record, expiresAt: int)

  datatype Outcome = Found(record: Record) | Failed(error: Error)

  /** The clock: every reading is at or after the one before. */
  class Clock {
    var now: int
    var steps: seq<nat>

    constructor (now: int, steps: seq<nat>)
      ensures this.now == now && this.steps == steps
    {
      this.now := now;
      this.steps := steps;
    }

    method Now() returns (t: int)
      modifies this
      ensures t == now && now >= old(now)
    {
      if steps != [] {
        now := now + steps[0];
        steps := steps[1..];
      }
      t := now;
    }
  }

  class ContractDiscoveryService {
    var cache: map<string, Entry>
    const cacheTimeout: int
    const clock: Clock
    /** Every production so far, and which of them each entry of the cache came from. */
    ghost var log: seq<Production>
    ghost var origin: map<string, nat>

    ghost predicate Genuine(p: Production) {
      p.stamp <= p.at && Uncached(p.spec, p.dial, p.stamp) == Produced(p.addresses)
    }

    ghost function Records(): set<Record>
      reads this
    {
      set k | k in cache :: cache[k].record
    }

    /** An entry holds, unchanged, what uncached discovery produced for its key. */
    ghost predicate EntryOk(k: string)
      requires k in cache
      reads this, cache[k].record
    {
      && k in origin && origin[k] < |log|
      && var p := log[origin[k]];
         && CacheKey(p.spec.networkName, p.spec.chainID) == k
         && cache[k].record.addresses == p.addresses
         && cache[k].expiresAt == p.at + TimeoutOf(p.spec, cacheTimeout)
    }

    ghost predicate Valid()
      reads this, Records()
    {
      && (forall i :: 0 <= i < |log| ==> Genuine(log[i]))
      && (forall k :: k in cache ==> EntryOk(k))
    }

    constructor (cacheTimeout: int, clock: Clock)
      ensures Valid() && cache == map[] && log == [] && this.cacheTimeout == cacheTimeout && this.clock == clock
    {
      this.cacheTimeout := cacheTimeout;
      this.clock := clock;
      cache := map[];
      log := [];
      origin := map[];
    }

    method IsCacheExpired(e: Entry) returns (expired: bool)
      modifies clock
      ensures clock.now >= old(clock.now) && (expired <==> clock.now > e.expiresAt)
    {
      var t := clock.Now();
      expired := t > e.expiresAt;
    }

    method GetWellKnownAddresses(name: string, chainID: int) returns (r: Record?)
      ensures r == null <==> WellKnown(name, chainID).None?
      ensures r != null ==> fresh(r) && Some(r.addresses) == WellKnown(name, chainID)
    {
      hide Official, OP_MAINNET, OP_SEPOLIA, BASE_MAINNET, IsMainnet, IsSepolia, IsBase;
      if IsMainnet(name, chainID) {
        r := new Record(OP_MAINNET);
      } else if IsSepolia(name, chainID) {
        r := new Record(OP_SEPOLIA);
      } else if IsBase(name, chainID) {
        r := new Record(BASE_MAINNET);
      } else {
        r := null;
      }
    }

    /** Not implemented: always an error. */
    method DiscoverFromSuperchainRegistry(chainID: int) returns (r: Record?, error: Option<Error>)
      ensures r == null && error == Some(RegistryNotImplemented)
    {
      return null, Some(RegistryNotImplemented);
    }

    /** The strategies in order; each sets the method on a record of its own. */
    method AutoDiscoverContracts(n: OptimismNetworkSpec, dial: bool) returns (r: Record?, error: Option<Error>)
      ensures r == null <==> error.Some?
      ensures r != null ==> fresh(r) && Auto(n, dial) == Produced(r.addresses)
      ensures r == null ==> Auto(n, dial) == Refused(Wrapped(error.value))
    {
      hide WellKnown;
      error := None;
      if n.contracts.Some? && n.contracts.value.systemConfig != "" {
        if dial {
          r := new Record(NO_ADDRESSES.(systemConfig := n.contracts.value.systemConfig));
          r.addresses := r.addresses.(discoveryMethod := "system-config");
          return;
        }
      }
      // The registry, asked next, is not implemented and answers with an error.
      r, error := DiscoverFromSuperchainRegistry(n.chainID);
      error := None;
      r := GetWellKnownAddresses(n.networkName, n.chainID);
      if r != null {
        r.addresses := r.addresses.(discoveryMethod := "well-known");
        return;
      }
      error := Some(NoStrategyWorked);
    }

    method GetManualAddresses(n: OptimismNetworkSpec) returns (r: Record?)
      ensures r == null <==> n.contracts.None?
      ensures r != null ==> fresh(r) && r.addresses == Manual(n.contracts.value)
    {
      if n.contracts.None? {
        return null;
      }
      var c := n.contracts.value;
      r := new Record(NO_ADDRESSES.(systemConfig := c.systemConfig, l2OutputOracle := c.l2OutputOracle,
                                    disputeGameFactory := c.disputeGameFactory, optimismPortal := c.optimismPortal,
                                    discoveryMethod := "manual"));
    }

    /** Discovery by the method the spec names, without the cache.  The record is new. */
    method Produce(n: OptimismNetworkSpec, dial: bool) returns (r: Record?, error: Option<Error>)
      ensures r == null <==> error.Some?
      ensures r != null ==> fresh(r) && Unstamped(n, dial) == Produced(r.addresses)
      ensures r == null ==> Unstamped(n, dial) == Refused(error.value)
      ensures Owed(n, dial, if r == null then Refused(error.value) else Produced(r.addresses))
    {
      hide Auto, WellKnown, Owed;
      UncachedIsOwed(n, dial);
      var discoveryMethod := "auto";
      if n.contracts.Some? && n.contracts.value.discoveryMethod != "" {
        discoveryMethod := n.contracts.value.discoveryMethod;
      }
      r, error := null, None;
      if discoveryMethod == "auto" {
        r, error := AutoDiscoverContracts(n, dial);
      } else if discoveryMethod == "superchain-registry" {
        r, error := DiscoverFromSuperchainRegistry(n.chainID);
      } else if discoveryMethod == "well-known" {
        r := GetWellKnownAddresses(n.networkName, n.chainID);
      } else if discoveryMethod == "manual" {
        r := GetManualAddresses(n);
      } else {
        return null, Some(UnknownMethod(discoveryMethod));
      }
      if error.Some? {
        return null, Some(Wrapped(error.value));
      }
      if r == null {
        error := Some(NothingKnown(n.networkName, n.chainID));
      }
    }

    /** A hit returns the cached record, a genuine production for the same key that has not expired.  A miss answers
        as uncached discovery does, and caches the answer if it is not an error.  No record that existed before is
        written to. */
    method DiscoverContracts(n: OptimismNetworkSpec, dial: bool) returns (r: Outcome, ghost hit: bool, ghost stamp: int)
      requires Valid()
      modifies this, clock
      ensures Valid() && old(clock.now) <= stamp <= clock.now
      ensures hit ==>
                var k := CacheKey(n.networkName, n.chainID);
                && k in old(cache) && r == Found(old(cache)[k].record) && clock.now <= old(cache)[k].expiresAt
                && cache == old(cache) && log == old(log)
                && Cached(r.record.addresses, n, clock.now)
      ensures !hit ==>
                var k := CacheKey(n.networkName, n.chainID);
                && (k in old(cache) ==> old(cache)[k].expiresAt < clock.now)
                && match r
                   case Failed(e) =>
                     && Uncached(n, dial, stamp) == Refused(e) && cache == old(cache) && log == old(log)
                     && Owed(n, dial, Refused(e))
                   case Found(record) =>
                     && fresh(record) && Uncached(n, dial, stamp) == Produced(record.addresses)
                     && Owed(n, dial, Produced(record.addresses.(lastDiscoveryTime := 0)))
                     && record.addresses.lastDiscoveryTime == stamp
                     && k in cache && LastsFor(cache[k].expiresAt, clock.now, n, cacheTimeout)
                     && cache == old(cache)[k := Entry(record, clock.now + TimeoutOf(n, cacheTimeout))]
                     && log == old(log) + [Production(n, dial, stamp, clock.now, record.addresses)]
    {
      hide Uncached, CacheKey, TimeoutOf, Cached, Genuine, Owed, LastsFor;
      var k := CacheKey(n.networkName, n.chainID);
      hit, stamp := false, clock.now;
      if k in cache {
        var expired := IsCacheExpired(cache[k]);
        stamp := clock.now;
        if !expired {
          EntryServes(n);
          return Found(cache[k].record), true, stamp;
        }
      }
      r, stamp := Refresh(n, dial);
      TimeoutLasts(clock.now, n, cacheTimeout);
      AnswerIsOwed(n, dial, stamp);
    }

    lemma AnswerIsOwed(n: OptimismNetworkSpec, dial: bool, stamp: int)
      ensures match Uncached(n, dial, stamp)
              case Refused(e) => Owed(n, dial, Refused(e))
              case Produced(a) =>
                a.lastDiscoveryTime == stamp && Owed(n, dial, Produced(a.(lastDiscoveryTime := 0)))
    {
      hide Unstamped, Owed;
      UncachedIsOwed(n, dial);
      UntimedAnswer(n, dial);
    }

    lemma UntimedAnswer(n: OptimismNetworkSpec, dial: bool)
      ensures Unstamped(n, dial).Produced? ==> Unstamped(n, dial).addresses.lastDiscoveryTime == 0
    {
      hide IsMainnet, IsSepolia, IsBase;
    }

    /** The rest of a miss. */
    method Refresh(n: OptimismNetworkSpec, dial: bool) returns (r: Outcome, ghost stamp: int)
      requires Valid()
      modifies this, clock
      ensures Valid() && old(clock.now) <= stamp <= clock.now
      ensures match r
              case Failed(e) => Uncached(n, dial, stamp) == Refused(e) && cache == old(cache) && log == old(log)
              case Found(record) =>
                && fresh(record) && Uncached(n, dial, stamp) == Produced(record.addresses)
                && cache == old(cache)[CacheKey(n.networkName, n.chainID) :=
                                       Entry(record, clock.now + TimeoutOf(n, cacheTimeout))]
                && log == old(log) + [Production(n, dial, stamp, clock.now, record.addresses)]
    {
      hide Unstamped, CacheKey, TimeoutOf, Genuine;
      stamp := clock.now;
      var record, error := Produce(n, dial);
      if error.Some? {
        return Failed(error.value), stamp;
      }
      var time := clock.Now();
      stamp := time;
      record.addresses := record.addresses.(lastDiscoveryTime := time);
      Remember(n, dial, time, record);
      return Found(record), stamp;
    }

    lemma EntryServes(n: OptimismNetworkSpec)
      requires Valid() && CacheKey(n.networkName, n.chainID) in cache
      requires clock.now <= cache[CacheKey(n.networkName, n.chainID)].expiresAt
      ensures Cached(cache[CacheKey(n.networkName, n.chainID)].record.addresses, n, clock.now)
    {
      hide CacheKey, Uncached;
      var k := CacheKey(n.networkName, n.chainID);
      assert EntryOk(k);
      assert Serves(log[origin[k]], cache[k].record.addresses, n, clock.now);
    }

    /** Caches a production for its timeout from now on. */
    method Remember(n: OptimismNetworkSpec, ghost dial: bool, ghost stamp: int, record: Record)
      requires Valid() && stamp <= clock.now && Uncached(n, dial, stamp) == Produced(record.addresses)
      modifies this, clock
      ensures Valid() && clock.now >= old(clock.now)
      ensures cache == old(cache)[CacheKey(n.networkName, n.chainID) :=
                                  Entry(record, clock.now + TimeoutOf(n, cacheTimeout))]
      ensures log == old(log) + [Production(n, dial, stamp, clock.now, record.addresses)]
    {
      hide Uncached, CacheKey;
      var timeout := cacheTimeout;
      if n.contracts.Some? && n.contracts.value.cacheTimeout > 0 {
        timeout := n.contracts.value.cacheTimeout;
      }
      var now := clock.Now();
      var k := CacheKey(n.networkName, n.chainID);
      log := log + [Production(n, dial, stamp, now, record.addresses)];
      origin := origin[k := |log| - 1];
      cache := cache[k := Entry(record, now + timeout)];
    }

    /** Forgets every entry; records that were handed out stay as they are. */
    method ClearCache()
      requires Valid()
      modifies this
      ensures Valid() && cache == map[] && log == old(log)
    {
      cache := map[];
    }

    /** `a` is what some earlier uncached discovery produced for the key of `n`, not longer ago than that production's
        own timeout. */
    ghost predicate Cached(a: Addresses, n: OptimismNetworkSpec, now: int)
      reads this
    {
      exists i :: 0 <= i < |log| && Serves(log[i], a, n, now)
    }

    ghost predicate Serves(p: Production, a: Addresses, n: OptimismNetworkSpec, now: int) {
      && Genuine(p) && p.addresses == a
      && CacheKey(p.spec.networkName, p.spec.chainID) == CacheKey(n.networkName, n.chainID)
      && now <= p.at + TimeoutOf(p.spec, cacheTimeout)
    }
  }
}

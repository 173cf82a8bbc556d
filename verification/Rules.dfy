/** Forwarding rules: normalisation, validation, and when a change needs no restart. */
module Rules {
  import opened Wrappers
  import opened Text
  import SourceIp

  datatype Protocol = TCP | UDP | TCPUDP | HTTP | HTTPS | Other(name: string)

  datatype Bandwidth = Bandwidth(rate: int, upload: int, download: int)

  /** `loads` is the time-zone database's answer for `name`. */
  datatype Timezone = Timezone(name: string, loads: bool)

  datatype TrafficQuota = TrafficQuota(daily: int, monthly: int, timezone: Timezone, action: string)

  datatype Rule = Rule(
    ruleId: string,
    name: string,
    protocol: Protocol,
    listenAddr: string,
    listenPort: int,
    targetAddr: string,
    targetPort: int,
    enabled: bool,
    speedLimit: int,
    bandwidth: Option<Bandwidth>,
    quota: Option<TrafficQuota>,
    maxConn: int,
    idleTimeout: int,
    sourceMode: SourceIp.Mode,
    sourceIPs: seq<SourceIp.Entry>,
    domains: seq<string>,
    remark: string,
    revision: int,
    createdTime: int,
    updatedTime: int)

  // ---------- Normalisation ----------

  function StandardizeQuota(q: TrafficQuota): TrafficQuota
  {
    var zone := TrimSpace(q.timezone.name);
    var action := ToLower(TrimSpace(q.action));
    TrafficQuota(q.daily, q.monthly,
                 if zone == "" then Timezone("UTC", true) else Timezone(zone, q.timezone.loads),
                 if action == "" then "block" else action)
  }

  function Standardize(r: Rule): Rule
  {
    r.(ruleId := TrimSpace(r.ruleId),
       name := TrimSpace(r.name),
       listenAddr := TrimSpace(r.listenAddr),
       targetAddr := TrimSpace(r.targetAddr),
       quota := if r.quota.Some? then Some(StandardizeQuota(r.quota.value)) else None,
       remark := TrimSpace(r.remark))
  }

  lemma StandardizeQuotaStable(q: TrafficQuota)
    ensures StandardizeQuota(StandardizeQuota(q)) == StandardizeQuota(q)
  {
    TrimSpaceTrims(q.timezone.name);
    TrimSpaceTrims(TrimSpace(q.timezone.name));
    TrimSpaceTrims("UTC");
    TrimSpaceTrims(q.action);
    ToLowerStable(TrimSpace(q.action));
    TrimSpaceTrims(ToLower(TrimSpace(q.action)));
    TrimSpaceTrims("block");
    assert ToLower("block") == "block";
  }

  /** Normalising twice changes nothing. */
  lemma StandardizeStable(r: Rule)
    ensures Standardize(Standardize(r)) == Standardize(r)
  {
    TrimSpaceTrims(r.ruleId);
    TrimSpaceTrims(TrimSpace(r.ruleId));
    TrimSpaceTrims(r.name);
    TrimSpaceTrims(TrimSpace(r.name));
    TrimSpaceTrims(r.listenAddr);
    TrimSpaceTrims(TrimSpace(r.listenAddr));
    TrimSpaceTrims(r.targetAddr);
    TrimSpaceTrims(TrimSpace(r.targetAddr));
    TrimSpaceTrims(r.remark);
    TrimSpaceTrims(TrimSpace(r.remark));
    if r.quota.Some? { StandardizeQuotaStable(r.quota.value); }
  }

  predicate Standard(r: Rule) { Standardize(r) == r }

  // ---------- Validation ----------

  predicate PortOk(p: int) { 0 < p <= 65535 }

  predicate BandwidthOk(b: Bandwidth)
  {
    b.rate >= 0 && b.upload >= 0 && b.download >= 0 &&
    !(b.rate > 0 && (b.upload > 0 || b.download > 0)) &&
    !(b.rate == 0 && b.upload == 0 && b.download == 0)
  }

  predicate QuotaOk(q: TrafficQuota)
  {
    q.daily >= 0 && q.monthly >= 0 && !(q.daily == 0 && q.monthly == 0) && q.action == "block" && q.timezone.loads
  }

  /** Validate reports no error.  The HTTP and HTTPS protocols are disabled in this build. */
  predicate Valid(rule: Rule)
  {
    var r := Standardize(rule);
    && r.ruleId != "" && r.name != ""
    && PortOk(r.listenPort)
    && (r.protocol == TCP || r.protocol == UDP || r.protocol == TCPUDP)
    && r.targetAddr != "" && PortOk(r.targetPort)
    && r.speedLimit >= 0
    && (r.bandwidth.Some? ==> BandwidthOk(r.bandwidth.value))
    && (r.quota.Some? ==> QuotaOk(r.quota.value))
    && r.maxConn >= 0 && r.idleTimeout >= 0
    && SourceIp.Compiles(r.sourceMode, r.sourceIPs)
  }

  // ---------- Runtime equality ----------

  function CanonicalListenAddr(addr: string): string
  {
    var a := TrimSpace(ToLower(addr));
    if a == "0.0.0.0" || a == "::" then "" else a
  }

  function RuntimeMaxConn(r: Rule): int
  {
    if r.protocol == UDP && r.maxConn == 0 then DEFAULT_UDP_SESSIONS else r.maxConn
  }

  predicate EqualFold(a: string, b: string) { ToLower(a) == ToLower(b) }

  /** The change from one rule to the other needs no restart of its runners. */
  predicate RuntimeEqual(rule: Rule, other: Rule)
  {
    var l, r := Standardize(rule), Standardize(other);
    && l.protocol == r.protocol
    && CanonicalListenAddr(l.listenAddr) == CanonicalListenAddr(r.listenAddr)
    && l.listenPort == r.listenPort
    && EqualFold(l.targetAddr, r.targetAddr)
    && l.targetPort == r.targetPort
    && l.enabled == r.enabled
    && l.speedLimit == r.speedLimit
    && l.bandwidth == r.bandwidth
    && l.quota == r.quota
    && RuntimeMaxConn(l) == RuntimeMaxConn(r)
    && l.idleTimeout == r.idleTimeout
    && SourceIp.PoliciesEqual(l.sourceMode, l.sourceIPs, r.sourceMode, r.sourceIPs)
  }

  /** Everything about a rule its runners depend on. */
  datatype RuntimeKey = RuntimeKey(
    protocol: Protocol, listenAddr: string, listenPort: int, targetAddr: string, targetPort: int,
    enabled: bool, speedLimit: int, bandwidth: Option<Bandwidth>, quota: Option<TrafficQuota>,
    maxConn: int, idleTimeout: int, sourceMode: SourceIp.Mode, sources: set<SourceIp.Prefix>)

  function KeyOf(rule: Rule): RuntimeKey
  {
    var r := Standardize(rule);
    RuntimeKey(r.protocol, CanonicalListenAddr(r.listenAddr), r.listenPort, ToLower(r.targetAddr), r.targetPort,
               r.enabled, r.speedLimit, r.bandwidth, r.quota, RuntimeMaxConn(r), r.idleTimeout, r.sourceMode,
               if SourceIp.AllParse(r.sourceIPs) then SourceIp.Parsed(r.sourceIPs) else {})
  }

  /** On rules with a well-formed source policy RuntimeEqual compares one key, so it is an equivalence there. */
  lemma RuntimeEqualIsKeyEquality(a: Rule, b: Rule)
    requires Valid(a) && Valid(b)
    ensures RuntimeEqual(a, b) <==> KeyOf(a) == KeyOf(b)
  {
  }

  /** RuntimeEqual relates a rule to itself exactly when its source policy compiles. */
  lemma RuntimeEqualReflexiveIff(a: Rule)
    ensures RuntimeEqual(a, a) <==> SourceIp.Compiles(a.sourceMode, a.sourceIPs)
  {
  }

  // ---------- Endpoints ----------

  datatype Network = NetTCP | NetUDP

  /** A listening endpoint, its wildcard addresses written as "". */
  datatype Endpoint = Endpoint(network: Network, addr: string, port: int)

  predicate Conflicts(a: Endpoint, b: Endpoint)
  {
    a.network == b.network && a.port == b.port && (a.addr == b.addr || a.addr == "" || b.addr == "")
  }

  function EndpointsOf(k: RuntimeKey): seq<Endpoint>
  {
    match k.protocol
    case TCP => [Endpoint(NetTCP, k.listenAddr, k.listenPort)]
    case UDP => [Endpoint(NetUDP, k.listenAddr, k.listenPort)]
    case TCPUDP => [Endpoint(NetTCP, k.listenAddr, k.listenPort), Endpoint(NetUDP, k.listenAddr, k.listenPort)]
    case _ => []
  }
}

/** Decoded remote Type-2 routes, the import policy, and what one complete reading means. */
module RemoteRoutes {
  import opened Basics

  datatype Class = Remote | LocalPath | WithdrawnPath

  /** A decoded path. `sourceKey` hashes the NLRI and the path's source, `attributeKey` its attributes. */
  datatype Decoded = Decoded(
    sourceKey: string, kind: Class, routeType: nat, rd: string, ethernetTag: nat, esi: string,
    mac: string, ip: string, labels: seq<nat>, routeTargets: seq<string>, encapsulation: seq<string>,
    nextHop: string, best: bool, stale: bool, filtered: bool, nexthopInvalid: bool, attributeKey: string)

  datatype ImportNetwork = ImportNetwork(networkID: string, vni: nat, importRouteTargets: seq<string>,
                                         allowedVTEPs: seq<string>)

  /** Address and route-target parsing, and `remoteHash` of network, MAC and IP. */
  datatype Parsers = Parsers(
    unicastIPv4: string -> bool, validRD: string -> bool, canonicalRT: string -> bool,
    unicastMAC: string -> bool, hash: (string, string, string) -> string)

  datatype ImportConfig = ImportConfig(localVTEP: string, networks: seq<ImportNetwork>, parsers: Parsers)

  const MAC_IP_ADVERTISEMENT := 2
  const MAX_VNI := 16777215
  const ZERO_ESI := "00000000000000000000"

  ghost predicate ValidNetwork(c: ImportConfig, n: ImportNetwork)
  {
    && !Blank(n.networkID) && 0 < n.vni <= MAX_VNI && n.importRouteTargets != [] && n.allowedVTEPs != []
    && (forall rt | rt in n.importRouteTargets :: c.parsers.canonicalRT(rt))
    && (forall ip | ip in n.allowedVTEPs :: c.parsers.unicastIPv4(ip) && ip != c.localVTEP)
  }

  ghost predicate ValidConfig(c: ImportConfig)
  {
    && c.parsers.unicastIPv4(c.localVTEP) && c.networks != []
    && (forall i | 0 <= i < |c.networks| :: ValidNetwork(c, c.networks[i]))
    && (forall i, j | 0 <= i < j < |c.networks| ::
          c.networks[i].networkID != c.networks[j].networkID && c.networks[i].vni != c.networks[j].vni)
  }

  ghost predicate HashInjective(p: Parsers)
  {
    forall a, b, c, x, y, z {:trigger p.hash(a, b, c), p.hash(x, y, z)} ::
      p.hash(a, b, c) == p.hash(x, y, z) ==> a == x && b == y && c == z
  }

  datatype Validated = Validated(networkID: string, vni: nat, route: Decoded)

  datatype Reason = NotEligible | InvalidRD | UnsupportedAddress | UnsupportedEncapsulation | InvalidNextHop
                  | VTEPNotAllowed | NoRouteTarget | NoVNI | Undecoded(error: string)

  datatype Verdict = Accepted(v: Validated) | Rejected(reason: Reason)

  function NetworkOf(networks: seq<ImportNetwork>, vni: nat): (n: Option<ImportNetwork>)
    ensures n.Some? ==> n.value in networks && n.value.vni == vni
    ensures n.None? ==> forall x | x in networks :: x.vni != vni
  {
    if networks == [] then None
    else if networks[0].vni == vni then Some(networks[0])
    else NetworkOf(networks[1..], vni)
  }

  function ValidateRoute(c: ImportConfig, r: Decoded): Verdict
  {
    if r.kind != Remote || r.routeType != MAC_IP_ADVERTISEMENT || r.stale || r.filtered || r.nexthopInvalid then
      Rejected(NotEligible)
    else if !c.parsers.validRD(r.rd) then Rejected(InvalidRD)
    else if !c.parsers.unicastMAC(r.mac) || r.mac == "00:00:00:00:00:00" || (r.ip != "" && !c.parsers.unicastIPv4(r.ip)) then
      Rejected(UnsupportedAddress)
    else if r.esi != ZERO_ESI || r.ethernetTag != 0 || |r.labels| != 1 || r.encapsulation != ["vxlan"] then
      Rejected(UnsupportedEncapsulation)
    else if !c.parsers.unicastIPv4(r.nextHop) || r.nextHop == c.localVTEP then Rejected(InvalidNextHop)
    else
      var n := NetworkOf(c.networks, r.labels[0]);
      if n.None? then Rejected(NoVNI)
      else if r.nextHop !in n.value.allowedVTEPs then Rejected(VTEPNotAllowed)
      else if exists rt :: rt in n.value.importRouteTargets && rt in r.routeTargets then
        Accepted(Validated(n.value.networkID, n.value.vni, r))
      else Rejected(NoRouteTarget)
  }

  lemma AcceptedSound(c: ImportConfig, r: Decoded)
    requires ValidateRoute(c, r).Accepted?
    ensures var v := ValidateRoute(c, r).v;
      v.route == r && exists n :: n in c.networks && n.networkID == v.networkID && n.vni == v.vni
  {
    var n := NetworkOf(c.networks, r.labels[0]).value;
    assert n in c.networks;
  }

  /** Everything about a route that involves no network. */
  predicate Eligible(c: ImportConfig, r: Decoded)
  {
    && r.kind == Remote && r.routeType == MAC_IP_ADVERTISEMENT && !r.stale && !r.filtered && !r.nexthopInvalid
    && c.parsers.validRD(r.rd) && c.parsers.unicastMAC(r.mac) && r.mac != "00:00:00:00:00:00"
    && (r.ip == "" || c.parsers.unicastIPv4(r.ip)) && r.esi == ZERO_ESI && r.ethernetTag == 0
    && r.encapsulation == ["vxlan"] && c.parsers.unicastIPv4(r.nextHop) && r.nextHop != c.localVTEP
  }

  /** The network's policy lets the route in. */
  ghost predicate Permits(n: ImportNetwork, r: Decoded)
  {
    r.labels == [n.vni] && r.nextHop in n.allowedVTEPs
    && exists rt :: rt in n.importRouteTargets && rt in r.routeTargets
  }

  /** The first-match search over the networks decides the policy: a route is accepted exactly when
      it is eligible and some network permits it, and then under that network. */
  lemma PolicyIff(c: ImportConfig, r: Decoded)
    requires ValidConfig(c)
    ensures ValidateRoute(c, r).Accepted? <==> Eligible(c, r) && exists n :: n in c.networks && Permits(n, r)
    ensures forall n | ValidateRoute(c, r).Accepted? && n in c.networks && Permits(n, r) ::
      ValidateRoute(c, r).v == Validated(n.networkID, n.vni, r)
  {
    if ValidateRoute(c, r).Accepted? {
      var m := NetworkOf(c.networks, r.labels[0]).value;
      assert r.labels == [m.vni] && Permits(m, r);
    }
    forall n | n in c.networks && Permits(n, r) ensures NetworkOf(c.networks, r.labels[0]) == Some(n) {
      var m := NetworkOf(c.networks, r.labels[0]).value;
      var i :| 0 <= i < |c.networks| && c.networks[i] == n;
      var j :| 0 <= j < |c.networks| && c.networks[j] == m;
    }
  }

  /** Unique network identifiers give accepted routes of one network one VNI. */
  lemma SameNetworkSameVNI(c: ImportConfig, r: Decoded, s: Decoded)
    requires ValidConfig(c) && ValidateRoute(c, r).Accepted? && ValidateRoute(c, s).Accepted?
    requires ValidateRoute(c, r).v.networkID == ValidateRoute(c, s).v.networkID
    ensures ValidateRoute(c, r).v.vni == ValidateRoute(c, s).v.vni
  {
    var n, m := NetworkOf(c.networks, r.labels[0]).value, NetworkOf(c.networks, s.labels[0]).value;
    var i :| 0 <= i < |c.networks| && c.networks[i] == n;
    var j :| 0 <= j < |c.networks| && c.networks[j] == m;
  }

  // ---------------------------------------------------------------- one reading

  datatype Raw = Undecodable(pathKey: string, error: string) | Decodes(value: Decoded)

  predicate IsRemote(p: Raw)
  {
    p.Decodes? && p.value.kind == Remote
  }

  /** Every path decodes, no remote path is of doubtful validity, and one path identity
      never carries two different attribute sets. */
  ghost predicate Readable(paths: seq<Raw>)
  {
    && (forall p | p in paths :: p.Decodes?)
    && (forall p | p in paths && IsRemote(p) :: !p.value.stale && !p.value.filtered && !p.value.nexthopInvalid)
    && (forall p, q | p in paths && q in paths && IsRemote(p) && IsRemote(q) && p.value.sourceKey == q.value.sourceKey ::
          p.value.attributeKey == q.value.attributeKey)
  }

  ghost predicate Known(R: set<Decoded>, sourceKey: string)
  {
    exists r :: r in R && r.sourceKey == sourceKey
  }

  /** The remote paths that count: the first occurrence of each path identity. */
  ghost function Firsts(paths: seq<Raw>): set<Decoded>
  {
    if paths == [] then {}
    else
      var rest, p := Firsts(paths[..|paths| - 1]), paths[|paths| - 1];
      if IsRemote(p) && !Known(rest, p.value.sourceKey) then rest + {p.value} else rest
  }

  lemma {:induction false} FirstsSound(paths: seq<Raw>)
    ensures forall r | r in Firsts(paths) :: Decodes(r) in paths && r.kind == Remote
    ensures forall r, s | r in Firsts(paths) && s in Firsts(paths) && r.sourceKey == s.sourceKey :: r == s
  {
    if paths != [] {
      var init, p := paths[..|paths| - 1], paths[|paths| - 1];
      FirstsSound(init);
      assert paths == init + [p];
    }
  }

  lemma {:induction false} FirstsComplete(paths: seq<Raw>, r: Decoded)
    requires Decodes(r) in paths && r.kind == Remote
    ensures Known(Firsts(paths), r.sourceKey)
  {
    var init, p := paths[..|paths| - 1], paths[|paths| - 1];
    assert paths == init + [p];
    if Decodes(r) in init {
      FirstsComplete(init, r);
      var x :| x in Firsts(init) && x.sourceKey == r.sourceKey;
      assert x in Firsts(paths);
    } else if !Known(Firsts(init), r.sourceKey) {
      assert r in Firsts(paths);
    }
  }

  ghost function Valids(c: ImportConfig, R: set<Decoded>): set<Validated>
  {
    set r | r in R && ValidateRoute(c, r).Accepted? :: ValidateRoute(c, r).v
  }

  type Slot = (string, string)

  function MacSlot(v: Validated): Slot { (v.networkID, v.route.mac) }

  function IPSlot(v: Validated): Slot { (v.networkID, v.route.ip) }

  ghost predicate Compatible(a: Validated, b: Validated)
  {
    && (a.networkID == b.networkID && a.route.mac == b.route.mac ==>
          a.route.nextHop == b.route.nextHop && (a.route.ip == "" || b.route.ip == "" || a.route.ip == b.route.ip))
    && (a.networkID == b.networkID && a.route.ip == b.route.ip && a.route.ip != "" ==> a.route.mac == b.route.mac)
  }

  /** Each network MAC has one next hop and at most one IP; each network IP has one MAC. */
  ghost predicate Consistent(V: set<Validated>)
  {
    forall a, b | a in V && b in V :: Compatible(a, b)
  }

  /** A rejected route and an address of a network contest each other: the route's first label is the VNI of
      the network, and the MACs are equal or the IPs are equal and not empty. */
  ghost predicate Contests(c: ImportConfig, r: Decoded, networkID: string, mac: string, ip: string)
  {
    && (exists n :: n in c.networks && n.networkID == networkID && |r.labels| > 0 && n.vni == r.labels[0])
    && (r.mac == mac || (ip != "" && r.ip == ip))
  }

  lemma OverlapsIff(c: ImportConfig, r: Decoded, networkID: string, mac: string, ip: string)
    ensures Overlaps(c, r, networkID, mac, ip) <==> Contests(c, r, networkID, mac, ip)
  {
  }

  predicate Overlaps(c: ImportConfig, r: Decoded, networkID: string, mac: string, ip: string)
  {
    && r.labels != [] && (exists n :: n in c.networks && n.networkID == networkID && n.vni == r.labels[0])
    && (mac == r.mac || (r.ip != "" && ip == r.ip))
  }
}

/** Local endpoints, the routes built from them and the speaker's view of those routes.
    GoBGP's parsing and serialization are taken as arbitrary functions. */
module Endpoints {
  import opened Basics

  datatype LocalEndpoint = LocalEndpoint(
    networkID: string, endpointID: string, incarnation: string, mac: string,
    ipAddresses: seq<string>, vni: nat, routeDistinguisher: string, routeTargets: seq<string>,
    localVTEP: string, nodeName: string, chassis: string, advertise: bool, macOnly: bool)

  /** An NLRI printed and serialized. Equal texts do not imply equal bytes or conversely. */
  datatype Nlri = Nlri(text: string, bytes: Option<string>)

  datatype WireRoute = WireRoute(nlri: Nlri, attributes: seq<string>)

  datatype Owned = Owned(endpoint: LocalEndpoint, pathUUID: string)

  datatype RibPath = RibPath(pathUUID: string, local: bool, nlri: Option<Nlri>, attributes: seq<string>)

  /** `address` trims and parses one host or CIDR address to its canonical text; `build` is
      BuildType2Route; `sameAttributes` compares origin, next hop and extended communities. */
  datatype Codec = Codec(
    address: string -> Option<string>,
    build: LocalEndpoint -> Option<WireRoute>,
    sameAttributes: (seq<string>, seq<string>) -> bool,
    parseUUID: string -> Option<string>)

  /** The first address that parses, or the empty string. */
  function PrimaryIP(c: Codec, addresses: seq<string>): string
  {
    if addresses == [] then ""
    else match c.address(addresses[0])
         case Some(ip) => ip
         case None => PrimaryIP(c, addresses[1..])
  }

  lemma SortedEqualIffSameElements(lhs: seq<string>, rhs: seq<string>)
    ensures SortStrings(lhs) == SortStrings(rhs) <==> multiset(lhs) == multiset(rhs)
  {
    if multiset(lhs) == multiset(rhs) { SortedUnique(SortStrings(lhs), SortStrings(rhs)); }
  }

  method SameElementwise(left: seq<string>, right: seq<string>) returns (same: bool)
    requires |left| == |right|
    ensures same <==> left == right
  {
    for i := 0 to |left|
      invariant left[..i] == right[..i]
    {
      if left[i] != right[i] { return false; }
    }
    assert left == left[..|left|] && right == right[..|right|];
    return true;
  }

  /** Sort copies of both lists and compare element by element: duplicates count. */
  method EqualStringSet(lhs: seq<string>, rhs: seq<string>) returns (equal: bool)
    ensures equal <==> multiset(lhs) == multiset(rhs)
  {
    SortedEqualIffSameElements(lhs, rhs);
    if |lhs| != |rhs| { return false; }
    equal := SameElementwise(SortStrings(lhs), SortStrings(rhs));
  }

  predicate Equivalent(c: Codec, a: LocalEndpoint, b: LocalEndpoint)
  {
    && a.networkID == b.networkID && a.endpointID == b.endpointID && a.incarnation == b.incarnation
    && a.routeDistinguisher == b.routeDistinguisher && a.mac == b.mac && a.vni == b.vni
    && a.macOnly == b.macOnly && PrimaryIP(c, a.ipAddresses) == PrimaryIP(c, b.ipAddresses)
    && a.localVTEP == b.localVTEP && multiset(a.routeTargets) == multiset(b.routeTargets)
  }

  /** The first address that parses, or the empty string where none does. */
  ghost predicate FirstAddress(c: Codec, addresses: seq<string>, ip: string)
  {
    || (exists i :: 0 <= i < |addresses| && c.address(addresses[i]) == Some(ip)
                    && forall j | 0 <= j < i :: c.address(addresses[j]).None?)
    || (ip == "" && forall j | 0 <= j < |addresses| :: c.address(addresses[j]).None?)
  }

  lemma {:induction false} PrimaryIsFirst(c: Codec, addresses: seq<string>)
    ensures FirstAddress(c, addresses, PrimaryIP(c, addresses))
  {
    if addresses != [] && c.address(addresses[0]).None? {
      var rest, ip := addresses[1..], PrimaryIP(c, addresses[1..]);
      PrimaryIsFirst(c, rest);
      if i :| 0 <= i < |rest| && c.address(rest[i]) == Some(ip) && forall j | 0 <= j < i :: c.address(rest[j]).None? {
        assert c.address(addresses[i + 1]) == Some(ip);
        forall j | 0 <= j < i + 1 ensures c.address(addresses[j]).None? { if j > 0 { assert rest[j - 1] == addresses[j]; } }
      } else {
        forall j | 0 <= j < |addresses| ensures c.address(addresses[j]).None? { if j > 0 { assert rest[j - 1] == addresses[j]; } }
      }
    }
  }

  lemma FirstIsUnique(c: Codec, addresses: seq<string>, a: string, b: string)
    requires FirstAddress(c, addresses, a) && FirstAddress(c, addresses, b)
    ensures a == b
  {
  }

  /** Two endpoints that are exported alike: the same network, endpoint, incarnation, distinguisher, MAC, VNI,
      VTEP and kind, the same first address, and each route target equally often. */
  ghost predicate SameExport(c: Codec, a: LocalEndpoint, b: LocalEndpoint)
  {
    && (a.networkID, a.endpointID, a.incarnation) == (b.networkID, b.endpointID, b.incarnation)
    && (a.routeDistinguisher, a.mac, a.vni, a.macOnly, a.localVTEP) == (b.routeDistinguisher, b.mac, b.vni, b.macOnly, b.localVTEP)
    && (exists ip :: FirstAddress(c, a.ipAddresses, ip) && FirstAddress(c, b.ipAddresses, ip))
    && forall target :: multiset(a.routeTargets)[target] == multiset(b.routeTargets)[target]
  }

  lemma EquivalentIffSameExport(c: Codec, a: LocalEndpoint, b: LocalEndpoint)
    ensures Equivalent(c, a, b) <==> SameExport(c, a, b)
  {
    var p, q := PrimaryIP(c, a.ipAddresses), PrimaryIP(c, b.ipAddresses);
    PrimaryIsFirst(c, a.ipAddresses);
    PrimaryIsFirst(c, b.ipAddresses);
    if SameExport(c, a, b) {
      var ip :| FirstAddress(c, a.ipAddresses, ip) && FirstAddress(c, b.ipAddresses, ip);
      FirstIsUnique(c, a.ipAddresses, p, ip);
      FirstIsUnique(c, b.ipAddresses, q, ip);
    }
  }

  predicate RibPathMatches(c: Codec, path: RibPath, ep: LocalEndpoint)
  {
    var want := c.build(ep);
    && want.Some? && path.nlri.Some? && path.nlri.value.bytes.Some?
    && path.nlri.value.bytes == want.value.nlri.bytes
    && c.sameAttributes(path.attributes, want.value.attributes)
  }

  /** The path carries the serialized NLRI and the attributes of the endpoint's route. */
  ghost predicate Shows(c: Codec, path: RibPath, ep: LocalEndpoint)
  {
    && c.build(ep).Some? && path.nlri.Some? && path.nlri.value.bytes.Some?
    && c.build(ep).value.nlri.bytes == path.nlri.value.bytes
    && c.sameAttributes(path.attributes, c.build(ep).value.attributes)
  }
}

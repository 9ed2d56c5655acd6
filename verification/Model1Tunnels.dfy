/** From a confirmed snapshot to the provider-bridge tunnel it asks for. */
module Model1Tunnels {
  import opened Basics
  import opened RemoteRoutes
  import opened RemoteBindings

  datatype Model1Network = Model1Network(networkID: string, logicalSwitch: string, physnet: string, bridge: string, vni: nat)

  datatype TunnelKey = TunnelKey(networkID: string, logicalSwitch: string, vni: nat, vtep: string)

  datatype Tunnel = Tunnel(key: TunnelKey, name: string, addresses: seq<string>, udpPort: nat, bridge: string)

  /** The single configured network, and the digests and address parser the handler uses. */
  datatype Model1Config = Model1Config(network: Model1Network, udpPort: nat, policy: ImportConfig,
                                       id: TunnelKey -> string, name: TunnelKey -> string, parsesMAC: string -> bool)

  type Tunnels = map<string, Tunnel>

  function KeyOf(c: Model1Config, ep: Endpoint): TunnelKey
  {
    TunnelKey(ep.networkID, c.network.logicalSwitch, ep.vni, ep.vtep)
  }

  function Address(ep: Endpoint): string
  {
    if ep.ip == "" then ep.mac else ep.mac + " " + ep.ip
  }

  /** The text a tunnel lists for an endpoint: its MAC, a space and its IP, or its MAC alone. */
  ghost predicate Reads(ep: Endpoint, a: string)
  {
    if ep.ip != "" then a == ep.mac + " " + ep.ip else a == ep.mac
  }

  predicate EndpointOk(c: Model1Config, ep: Endpoint)
  {
    && ep.validationState == "validated" && ep.routes != []
    && ep.key == c.policy.parsers.hash(ep.networkID, ep.mac, ep.ip)
    && ep.networkID == c.network.networkID && ep.vni == c.network.vni && c.policy.parsers.unicastIPv4(ep.vtep)
    && c.parsesMAC(ep.mac) && Supported(c.policy, ep)
  }

  /** Two endpoints that disagree about a MAC or an IP. */
  ghost predicate Clash(a: Endpoint, b: Endpoint)
  {
    || (a.mac == b.mac && (a.ip != b.ip || a.vtep != b.vtep))
    || (a.ip != "" && a.ip == b.ip && (a.mac != b.mac || a.vtep != b.vtep))
  }

  /** A validated endpoint of the one network, with its own key, and evidence the policy still accepts. */
  ghost predicate Admissible(c: Model1Config, ep: Endpoint)
  {
    && ep.validationState == "validated" && |ep.routes| > 0 && Evidenced(c.policy, ep)
    && ep.networkID == c.network.networkID && ep.vni == c.network.vni
    && ep.key == c.policy.parsers.hash(c.network.networkID, ep.mac, ep.ip)
    && c.parsesMAC(ep.mac) && c.policy.parsers.unicastIPv4(ep.vtep)
  }

  lemma EndpointOkIff(c: Model1Config, ep: Endpoint)
    requires ValidConfig(c.policy)
    ensures EndpointOk(c, ep) <==> Admissible(c, ep)
  {
    SupportedIff(c.policy, ep);
  }

  ghost predicate ProgrammableAt(c: Model1Config, endpoints: seq<Endpoint>, i: int, j: int)
  {
    0 <= i < |endpoints| && 0 <= j < |endpoints| ==>
      EndpointOk(c, endpoints[i]) && !Clash(endpoints[i], endpoints[j]) && endpoints[i].vtep == endpoints[j].vtep
  }

  /** Valid endpoints of the one network, no disagreement, and one remote VTEP for all. */
  ghost predicate Programmable(c: Model1Config, endpoints: seq<Endpoint>)
  {
    forall i, j :: ProgrammableAt(c, endpoints, i, j)
  }

  // ---------------------------------------------------------------- addresses

  /** Drops neighbouring duplicates; on a sorted list that leaves each value once. */
  method Compact(values: seq<string>) returns (out: seq<string>)
    requires Sorted(values)
    ensures StrictlySorted(out) && forall x :: x in out <==> x in values
  {
    if |values| < 2 { return values; }
    out := values[..1];
    for k := 1 to |values|
      invariant out != [] && out[|out| - 1] == values[k - 1] && StrictlySorted(out)
      invariant forall x :: x in out <==> x in values[..k]
    {
      assert values[..k + 1] == values[..k] + [values[k]];
      if values[k] != out[|out| - 1] {
        CompactStep(values, k, out);
        out := out + [values[k]];
      }
    }
    assert values[..|values|] == values;
  }

  lemma CompactStep(values: seq<string>, k: nat, out: seq<string>)
    requires Sorted(values) && 0 < k < |values| && StrictlySorted(out) && out != []
    requires out[|out| - 1] == values[k - 1] != values[k] && forall x | x in out :: x in values[..k]
    ensures StrictlySorted(out + [values[k]])
  {
    var more := out + [values[k]];
    forall i, j | 0 <= i < j < |more| ensures Leq(more[i], more[j]) && more[i] != more[j] {
      if j == |out| {
        assert out[i] in values[..k];
        var l :| 0 <= l < k && values[l] == out[i];
        assert Leq(values[l], values[k - 1]) || l == k - 1;
        assert Leq(values[k - 1], values[k]);
        if out[i] == values[k] { LeqAntisymmetric(values[k - 1], values[k]); }
      }
    }
  }

  // ---------------------------------------------------------------- the pass over the snapshot

  /** What the pass remembers: the last endpoint of each MAC and IP, and a tunnel per VTEP. */
  datatype Pass = Pass(macs: map<string, Endpoint>, ips: map<string, Endpoint>, desired: Tunnels)

  ghost predicate SeenAt(c: Model1Config, p: Pass, done: seq<Endpoint>, i: int)
  {
    0 <= i < |done| ==>
      var ep := done[i];
      && EndpointOk(c, ep)
      && ep.mac in p.macs && p.macs[ep.mac].ip == ep.ip && p.macs[ep.mac].vtep == ep.vtep
      && (ep.ip != "" ==> ep.ip in p.ips && p.ips[ep.ip].mac == ep.mac && p.ips[ep.ip].vtep == ep.vtep)
      && c.id(KeyOf(c, ep)) in p.desired && p.desired[c.id(KeyOf(c, ep))].key == KeyOf(c, ep)
      && Address(ep) in p.desired[c.id(KeyOf(c, ep))].addresses
  }

  ghost predicate OriginAt(c: Model1Config, p: Pass, done: seq<Endpoint>, id: string, a: string)
  {
    id in p.desired && a in p.desired[id].addresses ==>
      exists i :: 0 <= i < |done| && KeyOf(c, done[i]) == p.desired[id].key && Address(done[i]) == a
  }

  predicate ShapeAt(c: Model1Config, p: Pass, id: string)
  {
    id in p.desired ==>
      var t := p.desired[id];
      id == c.id(t.key) && t == Tunnel(t.key, c.name(t.key), t.addresses, c.udpPort, c.network.bridge) && t.addresses != []
  }

  ghost predicate MacFromAt(p: Pass, done: seq<Endpoint>, mac: string)
  {
    mac in p.macs ==> p.macs[mac].mac == mac && p.macs[mac] in done
  }

  ghost predicate IPFromAt(p: Pass, done: seq<Endpoint>, ip: string)
  {
    ip in p.ips ==> p.ips[ip].ip == ip != "" && p.ips[ip] in done
  }

  ghost predicate Tracks(c: Model1Config, p: Pass, done: seq<Endpoint>)
  {
    && (forall i :: SeenAt(c, p, done, i))
    && (forall id, a :: OriginAt(c, p, done, id, a))
    && (forall id :: ShapeAt(c, p, id))
    && (forall mac :: MacFromAt(p, done, mac))
    && (forall ip :: IPFromAt(p, done, ip))
  }

  predicate Conflicts(p: Pass, ep: Endpoint)
  {
    || (ep.mac in p.macs && (p.macs[ep.mac].ip != ep.ip || p.macs[ep.mac].vtep != ep.vtep))
    || (ep.ip != "" && ep.ip in p.ips && (p.ips[ep.ip].mac != ep.mac || p.ips[ep.ip].vtep != ep.vtep))
  }

  predicate Collides(c: Model1Config, p: Pass, ep: Endpoint)
  {
    var key := KeyOf(c, ep);
    c.id(key) in p.desired && p.desired[c.id(key)].key != key
  }

  function Absorb(c: Model1Config, p: Pass, ep: Endpoint): Pass
  {
    var key := KeyOf(c, ep);
    var id := c.id(key);
    var t := if id in p.desired then p.desired[id] else Tunnel(key, c.name(key), [], c.udpPort, c.network.bridge);
    Pass(p.macs[ep.mac := ep], if ep.ip == "" then p.ips else p.ips[ep.ip := ep],
         p.desired[id := t.(addresses := t.addresses + [Address(ep)])])
  }

  lemma AbsorbSeen(c: Model1Config, p: Pass, done: seq<Endpoint>, ep: Endpoint, i: int)
    requires Tracks(c, p, done) && EndpointOk(c, ep) && !Conflicts(p, ep) && !Collides(c, p, ep)
    ensures SeenAt(c, Absorb(c, p, ep), done + [ep], i)
  {
    assert SeenAt(c, p, done, i);
    if 0 <= i < |done| {
      assert MacFromAt(p, done, ep.mac) && IPFromAt(p, done, ep.ip);
    }
  }

  lemma AbsorbOrigin(c: Model1Config, p: Pass, done: seq<Endpoint>, ep: Endpoint, id: string, a: string)
    requires Tracks(c, p, done) && !Collides(c, p, ep)
    ensures OriginAt(c, Absorb(c, p, ep), done + [ep], id, a)
  {
    var q, more := Absorb(c, p, ep), done + [ep];
    assert OriginAt(c, p, done, id, a);
    if id in q.desired && a in q.desired[id].addresses {
      if id in p.desired && a in p.desired[id].addresses {
        var i :| 0 <= i < |done| && KeyOf(c, done[i]) == p.desired[id].key && Address(done[i]) == a;
        assert more[i] == done[i];
      } else {
        assert more[|done|] == ep;
      }
    }
  }

  lemma AbsorbTracks(c: Model1Config, p: Pass, done: seq<Endpoint>, ep: Endpoint)
    requires Tracks(c, p, done) && EndpointOk(c, ep) && !Conflicts(p, ep) && !Collides(c, p, ep)
    ensures Tracks(c, Absorb(c, p, ep), done + [ep])
  {
    var q, more := Absorb(c, p, ep), done + [ep];
    assert more[|done|] == ep;
    forall i ensures SeenAt(c, q, more, i) { AbsorbSeen(c, p, done, ep, i); }
    forall id, a ensures OriginAt(c, q, more, id, a) { AbsorbOrigin(c, p, done, ep, id, a); }
    forall id ensures ShapeAt(c, q, id) { assert ShapeAt(c, p, id); }
    forall mac ensures MacFromAt(q, more, mac) { assert MacFromAt(p, done, mac); }
    forall ip ensures IPFromAt(q, more, ip) { assert IPFromAt(p, done, ip); }
  }

  /** A refusal during the pass always has its reason in the snapshot itself. */
  lemma RefusalHasReason(c: Model1Config, p: Pass, endpoints: seq<Endpoint>, k: nat)
    requires k < |endpoints| && Tracks(c, p, endpoints[..k])
    requires !EndpointOk(c, endpoints[k]) || Conflicts(p, endpoints[k]) || Collides(c, p, endpoints[k])
    ensures !Programmable(c, endpoints)
  {
    var done, ep := endpoints[..k], endpoints[k];
    if !EndpointOk(c, ep) {
      assert !ProgrammableAt(c, endpoints, k, k);
    } else if Collides(c, p, ep) {
      var id := c.id(KeyOf(c, ep));
      assert ShapeAt(c, p, id);
      var a := p.desired[id].addresses[0];
      assert OriginAt(c, p, done, id, a);
      var i :| 0 <= i < |done| && KeyOf(c, done[i]) == p.desired[id].key && Address(done[i]) == a;
      assert SeenAt(c, p, done, i) && endpoints[i] == done[i];
      assert !ProgrammableAt(c, endpoints, i, k);
    } else if ep.mac in p.macs && (p.macs[ep.mac].ip != ep.ip || p.macs[ep.mac].vtep != ep.vtep) {
      assert MacFromAt(p, done, ep.mac);
      var i :| 0 <= i < |done| && done[i] == p.macs[ep.mac];
      assert endpoints[i] == done[i] && !ProgrammableAt(c, endpoints, i, k);
    } else {
      assert IPFromAt(p, done, ep.ip);
      var i :| 0 <= i < |done| && done[i] == p.ips[ep.ip];
      assert endpoints[i] == done[i] && !ProgrammableAt(c, endpoints, i, k);
    }
  }

  /** Nothing but several VTEPs can still be wrong after the pass. */
  lemma PassedExceptVTEPs(c: Model1Config, p: Pass, endpoints: seq<Endpoint>, i: int, j: int)
    requires Tracks(c, p, endpoints)
    requires forall x, y | x in p.desired && y in p.desired :: p.desired[x].key.vtep == p.desired[y].key.vtep
    ensures ProgrammableAt(c, endpoints, i, j)
  {
    assert SeenAt(c, p, endpoints, i) && SeenAt(c, p, endpoints, j);
  }

  lemma SeveralVTEPs(c: Model1Config, p: Pass, endpoints: seq<Endpoint>, x: string, y: string)
    requires Tracks(c, p, endpoints) && x in p.desired && y in p.desired
    requires p.desired[x].key.vtep != p.desired[y].key.vtep
    ensures !Programmable(c, endpoints)
  {
    assert ShapeAt(c, p, x) && ShapeAt(c, p, y);
    var a, b := p.desired[x].addresses[0], p.desired[y].addresses[0];
    assert OriginAt(c, p, endpoints, x, a) && OriginAt(c, p, endpoints, y, b);
    var i :| 0 <= i < |endpoints| && KeyOf(c, endpoints[i]) == p.desired[x].key && Address(endpoints[i]) == a;
    var j :| 0 <= j < |endpoints| && KeyOf(c, endpoints[j]) == p.desired[y].key && Address(endpoints[j]) == b;
    assert !ProgrammableAt(c, endpoints, i, j);
  }

  // ---------------------------------------------------------------- what is asked for

  ghost predicate Listed(endpoints: seq<Endpoint>, addresses: seq<string>, a: string)
  {
    a in addresses <==> exists i :: 0 <= i < |endpoints| && Reads(endpoints[i], a)
  }

  /** The tunnel to the one VTEP, with every endpoint's address once and in order. */
  ghost predicate TunnelFor(c: Model1Config, endpoints: seq<Endpoint>, id: string, t: Tunnel)
  {
    && id == c.id(t.key) && t == Tunnel(t.key, c.name(t.key), t.addresses, c.udpPort, c.network.bridge)
    && t.key == TunnelKey(c.network.networkID, c.network.logicalSwitch, c.network.vni, t.key.vtep)
    && (forall i | 0 <= i < |endpoints| :: endpoints[i].vtep == t.key.vtep)
    && StrictlySorted(t.addresses) && forall a :: Listed(endpoints, t.addresses, a)
  }

  ghost predicate AsksFor(c: Model1Config, endpoints: seq<Endpoint>, desired: Tunnels)
  {
    && (desired == map[] <==> endpoints == [])
    && (forall x, y | x in desired && y in desired :: x == y)
    && (forall id | id in desired :: TunnelFor(c, endpoints, id, desired[id]))
  }

  /** A snapshot determines its tunnel, in whatever order its endpoints are listed. */
  lemma TunnelUnique(c: Model1Config, d: seq<Endpoint>, e: seq<Endpoint>, x: string, s: Tunnel, y: string, t: Tunnel)
    requires multiset(d) == multiset(e) && d != [] && TunnelFor(c, d, x, s) && TunnelFor(c, e, y, t)
    ensures x == y && s == t
  {
    assert d[0] in multiset(e);
    var j :| 0 <= j < |e| && e[j] == d[0];
    assert s.key.vtep == t.key.vtep;
    forall a ensures a in s.addresses <==> a in t.addresses {
      assert Listed(d, s.addresses, a) && Listed(e, t.addresses, a);
      if i :| 0 <= i < |d| && Reads(d[i], a) {
        assert d[i] in multiset(e);
        var k :| 0 <= k < |e| && e[k] == d[i];
      }
      if i :| 0 <= i < |e| && Reads(e[i], a) {
        assert e[i] in multiset(d);
        var k :| 0 <= k < |d| && d[k] == e[i];
      }
    }
    StrictlySortedUnique(s.addresses, t.addresses);
  }

  lemma PassIsTunnel(c: Model1Config, p: Pass, endpoints: seq<Endpoint>, id: string, addresses: seq<string>)
    requires Tracks(c, p, endpoints) && Programmable(c, endpoints) && id in p.desired
    requires StrictlySorted(addresses) && forall a :: a in addresses <==> a in p.desired[id].addresses
    ensures TunnelFor(c, endpoints, id, p.desired[id].(addresses := addresses))
  {
    var t := p.desired[id];
    assert ShapeAt(c, p, id);
    var first := t.addresses[0];
    assert OriginAt(c, p, endpoints, id, first);
    var o :| 0 <= o < |endpoints| && KeyOf(c, endpoints[o]) == t.key && Address(endpoints[o]) == first;
    assert SeenAt(c, p, endpoints, o);
    forall i | 0 <= i < |endpoints| ensures endpoints[i].vtep == t.key.vtep && KeyOf(c, endpoints[i]) == t.key {
      assert ProgrammableAt(c, endpoints, i, o) && SeenAt(c, p, endpoints, i);
    }
    forall a ensures Listed(endpoints, addresses, a) {
      assert OriginAt(c, p, endpoints, id, a);
      if i :| 0 <= i < |endpoints| && Reads(endpoints[i], a) {
        assert SeenAt(c, p, endpoints, i) && Address(endpoints[i]) == a;
      }
      if i :| 0 <= i < |endpoints| && Address(endpoints[i]) == a { assert Reads(endpoints[i], a); }
    }
  }

  lemma PassIsSingle(c: Model1Config, p: Pass, endpoints: seq<Endpoint>, x: string, y: string)
    requires Tracks(c, p, endpoints) && x in p.desired && y in p.desired
    requires p.desired[x].key.vtep == p.desired[y].key.vtep
    ensures x == y
  {
    assert ShapeAt(c, p, x) && ShapeAt(c, p, y);
    var a, b := p.desired[x].addresses[0], p.desired[y].addresses[0];
    assert OriginAt(c, p, endpoints, x, a) && OriginAt(c, p, endpoints, y, b);
    var i :| 0 <= i < |endpoints| && KeyOf(c, endpoints[i]) == p.desired[x].key && Address(endpoints[i]) == a;
    var j :| 0 <= j < |endpoints| && KeyOf(c, endpoints[j]) == p.desired[y].key && Address(endpoints[j]) == b;
    assert SeenAt(c, p, endpoints, i) && SeenAt(c, p, endpoints, j);
  }

  /** The pass over the endpoints. */
  method Scan(c: Model1Config, endpoints: seq<Endpoint>) returns (p: Option<Pass>)
    ensures p.Some? ==> Tracks(c, p.value, endpoints)
    ensures p.None? ==> !Programmable(c, endpoints)
  {
    var pass := Pass(map[], map[], map[]);
    for k := 0 to |endpoints|
      invariant Tracks(c, pass, endpoints[..k])
    {
      var ep := endpoints[k];
      if !EndpointOk(c, ep) || Conflicts(pass, ep) || Collides(c, pass, ep) {
        RefusalHasReason(c, pass, endpoints, k);
        return None;
      }
      AbsorbTracks(c, pass, endpoints[..k], ep);
      assert endpoints[..k + 1] == endpoints[..k] + [ep];
      pass := Absorb(c, pass, ep);
    }
    assert endpoints[..|endpoints|] == endpoints;
    return Some(pass);
  }

  /** Sorts and compacts the addresses of every tunnel. */
  method Tidy(c: Model1Config, p: Pass, endpoints: seq<Endpoint>) returns (desired: Tunnels)
    requires Tracks(c, p, endpoints) && Programmable(c, endpoints)
    ensures desired.Keys == p.desired.Keys
    ensures forall id | id in desired :: TunnelFor(c, endpoints, id, desired[id])
  {
    desired := map[];
    var todo := p.desired.Keys;
    while todo != {}
      invariant todo <= p.desired.Keys && desired.Keys == p.desired.Keys - todo
      invariant forall id | id in desired :: TunnelFor(c, endpoints, id, desired[id])
      decreases |todo|
    {
      var id :| id in todo;
      var sorted := SortStrings(p.desired[id].addresses);
      forall a ensures a in sorted <==> a in p.desired[id].addresses {
        assert a in sorted <==> a in multiset(sorted);
      }
      var addresses := Compact(sorted);
      PassIsTunnel(c, p, endpoints, id, addresses);
      desired, todo := desired[id := p.desired[id].(addresses := addresses)], todo - {id};
    }
  }

  /** Builds the tunnel of a snapshot, or refuses exactly the snapshots that are not programmable. */
  method BuildTunnels(c: Model1Config, endpoints: seq<Endpoint>) returns (desired: Option<Tunnels>)
    ensures desired.Some? <==> Programmable(c, endpoints)
    ensures desired.Some? ==> AsksFor(c, endpoints, desired.value)
  {
    var p := Scan(c, endpoints);
    if p.None? { return None; }
    if x, y :| x in p.value.desired && y in p.value.desired && p.value.desired[x].key.vtep != p.value.desired[y].key.vtep {
      SeveralVTEPs(c, p.value, endpoints, x, y);
      return None;
    }
    forall i, j ensures ProgrammableAt(c, endpoints, i, j) { PassedExceptVTEPs(c, p.value, endpoints, i, j); }
    var tunnels := Tidy(c, p.value, endpoints);
    forall x, y | x in tunnels && y in tunnels ensures x == y { PassIsSingle(c, p.value, endpoints, x, y); }
    PassEmpty(c, p.value, endpoints);
    return Some(tunnels);
  }

  lemma PassEmpty(c: Model1Config, p: Pass, endpoints: seq<Endpoint>)
    requires Tracks(c, p, endpoints)
    ensures p.desired.Keys == {} <==> endpoints == []
  {
    if endpoints != [] { assert SeenAt(c, p, endpoints, 0); }
    forall id | id in p.desired ensures endpoints != [] {
      assert ShapeAt(c, p, id);
      assert OriginAt(c, p, endpoints, id, p.desired[id].addresses[0]);
    }
  }
}

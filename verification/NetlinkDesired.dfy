/** From a confirmed snapshot to the routes the kernel writer is asked for. */
module NetlinkDesired {
  import opened Basics
  import opened RemoteRoutes
  import opened RemoteBindings
  import opened RemotePolling
  import opened NetlinkReceipts
  import opened NetlinkBackend

  predicate Identity(c: ImportConfig, ep: Endpoint, generation: nat)
  {
    ep.validationState == "validated" && ep.routes != [] && generation != 0
    && ep.key == c.parsers.hash(ep.networkID, ep.mac, ep.ip)
  }

  /** The last mapping of the endpoint's network. */
  function MappingOf(networks: seq<Network>, ep: Endpoint): (n: Option<Network>)
    ensures n.Some? ==> n.value in networks && n.value.networkID == ep.networkID && n.value.vni == ep.vni
    ensures n.None? ==> forall m | m in networks :: m.networkID != ep.networkID || m.vni != ep.vni
  {
    if networks == [] then None
    else
      var last := networks[|networks| - 1];
      assert networks == networks[..|networks| - 1] + [last];
      if last.networkID == ep.networkID && last.vni == ep.vni then Some(last)
      else MappingOf(networks[..|networks| - 1], ep)
  }

  function RouteOf(networks: seq<Network>, ep: Endpoint, generation: nat): Route
    requires MappingOf(networks, ep).Some?
  {
    var n := MappingOf(networks, ep).value;
    Route(ep, n.vxlan, n.bridge, 0, generation, false)
  }

  /** Kernel slots by device name: a MAC on the tunnel, an IP on the bridge. */
  function Wanted(r: Route): set<(string, bool, string)>
  {
    {(r.vxlan, true, r.endpoint.mac)} + if r.endpoint.ip != "" then {(r.bridge, false, r.endpoint.ip)} else {}
  }

  predicate Admitted(c: ImportConfig, networks: seq<Network>, ep: Endpoint, generation: nat)
  {
    Identity(c, ep, generation) && Supported(c, ep) && MappingOf(networks, ep).Some?
  }

  ghost predicate UnsharedAt(networks: seq<Network>, endpoints: seq<Endpoint>, generation: nat, i: int, j: int)
  {
    0 <= i < j < |endpoints| && MappingOf(networks, endpoints[i]).Some? && MappingOf(networks, endpoints[j]).Some? ==>
      Wanted(RouteOf(networks, endpoints[i], generation)) !! Wanted(RouteOf(networks, endpoints[j], generation))
  }

  /** No two endpoints want the same slot. */
  ghost predicate Unshared(networks: seq<Network>, endpoints: seq<Endpoint>, generation: nat)
  {
    forall i, j :: UnsharedAt(networks, endpoints, generation, i, j)
  }

  ghost predicate AdmittedAt(c: ImportConfig, networks: seq<Network>, endpoints: seq<Endpoint>, generation: nat, ep: Endpoint)
  {
    ep in endpoints ==> Admitted(c, networks, ep, generation)
  }

  /** When a snapshot's endpoints may be installed at all. */
  ghost predicate Installable(c: ImportConfig, networks: seq<Network>, endpoints: seq<Endpoint>, generation: nat)
  {
    && (forall ep :: AdmittedAt(c, networks, endpoints, generation, ep))
    && Unshared(networks, endpoints, generation)
  }

  ghost predicate CoveredAt(networks: seq<Network>, endpoints: seq<Endpoint>, generation: nat,
                            desired: map<string, Route>, ep: Endpoint)
  {
    ep in endpoints ==>
      MappingOf(networks, ep).Some? && ep.key in desired && desired[ep.key] == RouteOf(networks, ep, generation)
  }

  ghost predicate WantedAt(endpoints: seq<Endpoint>, desired: map<string, Route>, key: string)
  {
    key in desired ==> desired[key].endpoint.key == key && desired[key].endpoint in endpoints
  }

  /** One route per endpoint and nothing else. */
  ghost predicate Covers(networks: seq<Network>, endpoints: seq<Endpoint>, generation: nat, desired: map<string, Route>)
  {
    && (forall ep :: CoveredAt(networks, endpoints, generation, desired, ep))
    && (forall key :: WantedAt(endpoints, desired, key))
  }

  lemma {:induction false} SameMapping(networks: seq<Network>, a: Endpoint, b: Endpoint)
    requires a.networkID == b.networkID && a.vni == b.vni
    ensures MappingOf(networks, a) == MappingOf(networks, b)
  {
    if networks != [] { SameMapping(networks[..|networks| - 1], a, b); }
  }

  /** Endpoints that share a key share a MAC slot, so unshared slots keep the keys apart. */
  lemma KeysDetermineSlots(c: ImportConfig, networks: seq<Network>, a: Endpoint, b: Endpoint, generation: nat)
    requires ValidConfig(c) && HashInjective(c.parsers)
    requires Admitted(c, networks, a, generation) && Admitted(c, networks, b, generation) && a.key == b.key
    ensures !(Wanted(RouteOf(networks, a, generation)) !! Wanted(RouteOf(networks, b, generation)))
  {
    assert c.parsers.hash(a.networkID, a.mac, a.ip) == c.parsers.hash(b.networkID, b.mac, b.ip);
    var v, w := a.routes[0], b.routes[0];
    assert Supports(c, a, v) && Supports(c, b, w);
    SameNetworkSameVNI(c, v.route, w.route);
    SameMapping(networks, a, b);
    var slot := (RouteOf(networks, a, generation).vxlan, true, a.mac);
    assert slot in Wanted(RouteOf(networks, a, generation)) && slot in Wanted(RouteOf(networks, b, generation));
  }

  // ---------------------------------------------------------------- the pass over the snapshot

  ghost predicate TakenAt(networks: seq<Network>, done: seq<Endpoint>, generation: nat,
                          slots: set<(string, bool, string)>, i: int)
  {
    0 <= i < |done| ==>
      MappingOf(networks, done[i]).Some? && Wanted(RouteOf(networks, done[i], generation)) <= slots
  }

  ghost predicate Taker(networks: seq<Network>, done: seq<Endpoint>, generation: nat,
                        slots: set<(string, bool, string)>, x: (string, bool, string))
  {
    x in slots ==> exists i :: 0 <= i < |done| && MappingOf(networks, done[i]).Some?
                               && x in Wanted(RouteOf(networks, done[i], generation))
  }

  /** `slots` are exactly the slots wanted by `done`. */
  ghost predicate Taken(networks: seq<Network>, done: seq<Endpoint>, generation: nat, slots: set<(string, bool, string)>)
  {
    && (forall i :: TakenAt(networks, done, generation, slots, i))
    && (forall x :: Taker(networks, done, generation, slots, x))
  }

  lemma TakenExtends(networks: seq<Network>, done: seq<Endpoint>, generation: nat, slots: set<(string, bool, string)>,
                     ep: Endpoint)
    requires Taken(networks, done, generation, slots) && MappingOf(networks, ep).Some?
    ensures Taken(networks, done + [ep], generation, slots + Wanted(RouteOf(networks, ep, generation)))
  {
    var now, all := done + [ep], slots + Wanted(RouteOf(networks, ep, generation));
    forall i ensures TakenAt(networks, now, generation, all, i) { assert TakenAt(networks, done, generation, slots, i); }
    forall x ensures Taker(networks, now, generation, all, x) {
      assert Taker(networks, done, generation, slots, x);
      if x in slots {
        var i :| 0 <= i < |done| && MappingOf(networks, done[i]).Some? && x in Wanted(RouteOf(networks, done[i], generation));
        assert now[i] == done[i];
      } else if x in all {
        assert now[|done|] == ep;
      }
    }
  }

  lemma UnsharedExtends(networks: seq<Network>, done: seq<Endpoint>, generation: nat, slots: set<(string, bool, string)>,
                        ep: Endpoint)
    requires Taken(networks, done, generation, slots) && MappingOf(networks, ep).Some?
    requires Unshared(networks, done, generation)
    ensures Unshared(networks, done + [ep], generation) <==> Wanted(RouteOf(networks, ep, generation)) !! slots
  {
    var now := done + [ep];
    if Wanted(RouteOf(networks, ep, generation)) !! slots {
      forall i, j ensures UnsharedAt(networks, now, generation, i, j) {
        assert UnsharedAt(networks, done, generation, i, j) && TakenAt(networks, done, generation, slots, i);
      }
    } else {
      var x :| x in Wanted(RouteOf(networks, ep, generation)) && x in slots;
      assert Taker(networks, done, generation, slots, x);
      var i :| 0 <= i < |done| && MappingOf(networks, done[i]).Some? && x in Wanted(RouteOf(networks, done[i], generation));
      assert now[i] == done[i] && now[|done|] == ep && !UnsharedAt(networks, now, generation, i, |done|);
    }
  }

  lemma CoversExtends(c: ImportConfig, networks: seq<Network>, done: seq<Endpoint>, generation: nat,
                      desired: map<string, Route>, ep: Endpoint)
    requires ValidConfig(c) && HashInjective(c.parsers)
    requires Covers(networks, done, generation, desired)
    requires MappingOf(networks, ep).Some? && Installable(c, networks, done + [ep], generation)
    ensures Covers(networks, done + [ep], generation, desired[ep.key := RouteOf(networks, ep, generation)])
  {
    var now := done + [ep];
    assert now[|done|] == ep && AdmittedAt(c, networks, now, generation, ep);
    forall d | d in done ensures d.key != ep.key {
      var i :| 0 <= i < |done| && done[i] == d;
      assert now[i] == d && AdmittedAt(c, networks, now, generation, d) && UnsharedAt(networks, now, generation, i, |done|);
      if d.key == ep.key { KeysDetermineSlots(c, networks, d, ep, generation); }
    }
    var more := desired[ep.key := RouteOf(networks, ep, generation)];
    forall d ensures CoveredAt(networks, now, generation, more, d) {
      assert CoveredAt(networks, done, generation, desired, d);
    }
    forall key ensures WantedAt(now, more, key) { assert WantedAt(done, desired, key); }
  }

  lemma InstallablePrefix(c: ImportConfig, networks: seq<Network>, endpoints: seq<Endpoint>, generation: nat, k: nat)
    requires k <= |endpoints| && Installable(c, networks, endpoints, generation)
    ensures Installable(c, networks, endpoints[..k], generation)
  {
    forall ep ensures AdmittedAt(c, networks, endpoints[..k], generation, ep) {
      assert AdmittedAt(c, networks, endpoints, generation, ep);
    }
    forall i, j ensures UnsharedAt(networks, endpoints[..k], generation, i, j) {
      assert UnsharedAt(networks, endpoints, generation, i, j);
    }
  }

  lemma InstallableExtends(c: ImportConfig, networks: seq<Network>, done: seq<Endpoint>, generation: nat,
                           slots: set<(string, bool, string)>, ep: Endpoint)
    requires Installable(c, networks, done, generation) && Taken(networks, done, generation, slots)
    ensures Installable(c, networks, done + [ep], generation) <==>
      Admitted(c, networks, ep, generation) && Wanted(RouteOf(networks, ep, generation)) !! slots
  {
    var now := done + [ep];
    assert now[|done|] == ep && ep in now;
    if Admitted(c, networks, ep, generation) {
      UnsharedExtends(networks, done, generation, slots, ep);
      forall d ensures AdmittedAt(c, networks, now, generation, d) { assert AdmittedAt(c, networks, done, generation, d); }
    } else {
      assert !AdmittedAt(c, networks, now, generation, ep);
    }
  }

  /** Builds the desired routes, or refuses exactly the snapshots that are not installable. */
  method BuildDesired(c: ImportConfig, networks: seq<Network>, endpoints: seq<Endpoint>, generation: nat)
    returns (desired: Option<map<string, Route>>)
    requires ValidConfig(c) && HashInjective(c.parsers)
    ensures desired.Some? <==> Installable(c, networks, endpoints, generation)
    ensures desired.Some? ==> Covers(networks, endpoints, generation, desired.value)
  {
    var routes: map<string, Route>, slots := map[], {};
    for k := 0 to |endpoints|
      invariant Installable(c, networks, endpoints[..k], generation)
      invariant Taken(networks, endpoints[..k], generation, slots)
      invariant Covers(networks, endpoints[..k], generation, routes)
    {
      var ep := endpoints[k];
      assert endpoints[..k + 1] == endpoints[..k] + [ep];
      InstallableExtends(c, networks, endpoints[..k], generation, slots, ep);
      if !Admitted(c, networks, ep, generation) || !(Wanted(RouteOf(networks, ep, generation)) !! slots) {
        if Installable(c, networks, endpoints, generation) { InstallablePrefix(c, networks, endpoints, generation, k + 1); }
        return None;
      }
      var route := RouteOf(networks, ep, generation);
      CoversExtends(c, networks, endpoints[..k], generation, routes, ep);
      TakenExtends(networks, endpoints[..k], generation, slots, ep);
      routes, slots := routes[ep.key := route], slots + Wanted(route);
    }
    assert endpoints[..|endpoints|] == endpoints;
    return Some(routes);
  }
}

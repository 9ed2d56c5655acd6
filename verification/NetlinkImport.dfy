/** Installing confirmed snapshots: withdrawals first, then applications, one receipt per route. */
module NetlinkImport {
  import opened Basics
  import opened RemoteRoutes
  import opened RemoteBindings
  import opened RemotePolling
  import opened OwnershipJournal
  import opened NetlinkReceipts
  import opened NetlinkKernel
  import opened NetlinkBackend
  import opened NetlinkRecovery
  import opened NetlinkDesired

  /** A receipt records the active route of its key. */
  predicate Backs(r: Receipt, owner: string, route: Route)
  {
    Belongs(r, owner, route) && r.network.vxlan == route.vxlan && r.network.bridge == route.bridge
    && (r.retiring ==> route.retiring)
  }

  predicate ActiveOk(kit: Kit, key: string, route: Route, epoch: nat, generation: nat)
  {
    && route.endpoint.key == key == kit.hash(route.endpoint.networkID, route.endpoint.mac, route.endpoint.ip)
    && 0 < route.incarnation <= epoch && 0 < route.generation <= generation
  }

  ghost predicate ActiveAt(kit: Kit, active: map<string, Route>, epoch: nat, generation: nat, key: string)
  {
    key in active ==> ActiveOk(kit, key, active[key], epoch, generation)
  }

  ghost predicate BackedAt(active: map<string, Route>, receipts: map<string, Receipt>, owner: string, key: string)
  {
    key in receipts ==> key in active && Backs(receipts[key], owner, active[key])
  }

  ghost predicate EpochAt(latest: map<string, nat>, epoch: nat, key: string)
  {
    key in latest ==> latest[key] <= epoch
  }

  predicate SameTarget(a: Route, b: Route)
  {
    a.endpoint == b.endpoint && a.vxlan == b.vxlan && a.bridge == b.bridge
  }

  ghost predicate AlignedAt(active: map<string, Route>, desired: map<string, Route>, key: string)
  {
    key in active ==> key in desired && !active[key].retiring && SameTarget(active[key], desired[key])
  }

  ghost predicate CompleteAt(receipts: map<string, Receipt>, done: set<string>, key: string)
  {
    key in done ==> key in receipts && Complete(receipts[key])
  }

  /** Distinct device names are distinct interfaces, so routes that want different named slots
      get different kernel slots. */
  lemma DistinctSlotsByName(kit: Kit, st: State, links: map<string, Device>, r: Receipt, n: Network, route: Route, p: Part, q: Part)
    requires LinksOk(links) && Mapped(kit, st, r) && n in st.networks && Serves(n, route) && TopologyOk(st.devices, n)
    requires BoundNetwork(st.devices, links, n) && BoundNetwork(st.devices, links, r.network)
    requires Wanted(Route(r.endpoint, r.network.vxlan, r.network.bridge, 0, 0, false)) !! Wanted(route)
    requires Has(r, p) && Has(NewReceipt(kit, st, n, route), q)
    ensures !SameSlot(Get(r, p).request, Get(NewReceipt(kit, st, n, route), q).request)
  {
    var other := Route(r.endpoint, r.network.vxlan, r.network.bridge, 0, 0, false);
    assert p == FDB || p == Neighbor;
    assert q == FDB || q == Neighbor;
    assert (other.vxlan, true, other.endpoint.mac) in Wanted(other);
    assert (route.vxlan, true, route.endpoint.mac) in Wanted(route);
    if p == Neighbor { assert (other.bridge, false, other.endpoint.ip) in Wanted(other); }
    if q == Neighbor { assert (route.bridge, false, route.endpoint.ip) in Wanted(route); }
  }

  lemma DesiredApart(c: ImportConfig, networks: seq<Network>, s: Snapshot, desired: map<string, Route>, k: string, l: string)
    requires Plan(c, networks, s, desired) && k in desired && l in desired && k != l
    ensures Wanted(desired[k]) !! Wanted(desired[l])
  {
    var endpoints := s.content.endpoints;
    assert WantedAt(endpoints, desired, k) && WantedAt(endpoints, desired, l);
    assert CoveredAt(networks, endpoints, s.generation, desired, desired[k].endpoint);
    assert CoveredAt(networks, endpoints, s.generation, desired, desired[l].endpoint);
    var i :| 0 <= i < |endpoints| && endpoints[i] == desired[k].endpoint;
    var j :| 0 <= j < |endpoints| && endpoints[j] == desired[l].endpoint;
    assert UnsharedAt(networks, endpoints, s.generation, i, j) && UnsharedAt(networks, endpoints, s.generation, j, i);
  }

  ghost predicate Plan(c: ImportConfig, networks: seq<Network>, s: Snapshot, desired: map<string, Route>)
  {
    && Installable(c, networks, s.content.endpoints, s.generation)
    && Covers(networks, s.content.endpoints, s.generation, desired)
  }

  function ReceiptRoute(r: Receipt): Route
  {
    Route(r.endpoint, r.network.vxlan, r.network.bridge, r.incarnation, r.generation, r.retiring)
  }

  ghost predicate SiftedAt(was: map<string, Route>, had: set<string>, active: map<string, Route>,
                           desired: map<string, Route>, todo: set<string>, k: string)
  {
    && (k in todo ==> k in was && k in active && active[k] == was[k])
    && (k !in todo ==> AlignedAt(active, desired, k) && KeptAt(was, had, desired, k))
  }

  /** An active route without a receipt is still wanted exactly as it is. */
  ghost predicate KeptAt(was: map<string, Route>, had: set<string>, desired: map<string, Route>, k: string)
  {
    k in was && k !in had ==> k in desired && !was[k].retiring && SameTarget(was[k], desired[k])
  }

  ghost predicate Sifted(was: map<string, Route>, had: set<string>, active: map<string, Route>,
                         desired: map<string, Route>, todo: set<string>)
  {
    forall k :: SiftedAt(was, had, active, desired, todo, k)
  }

  lemma SiftStep(was: map<string, Route>, had: set<string>, before: map<string, Route>, active: map<string, Route>,
                 desired: map<string, Route>, todo: set<string>, key: string)
    requires Sifted(was, had, before, desired, todo) && key in todo
    requires || (active == before && AlignedAt(active, desired, key) && key in desired)
             || (active == before - {key} && key in had)
    ensures Sifted(was, had, active, desired, todo - {key})
  {
    var rest := todo - {key};
    forall k ensures SiftedAt(was, had, active, desired, rest, k) { assert SiftedAt(was, had, before, desired, todo, k); }
  }

  /** A failed withdrawal leaves every receiptless retiring route where it is. */
  lemma StuckStays(was: map<string, Route>, had: set<string>, before: map<string, Route>, active: map<string, Route>,
                   desired: map<string, Route>, todo: set<string>, key: string)
    requires Sifted(was, had, before, desired, todo) && key in todo && key in before
    requires active == before[key := before[key].(retiring := true)]
    ensures forall k | k in was && k !in had && was[k].retiring :: k in active && active[k].retiring
  {
    forall k | k in was && k !in had && was[k].retiring ensures k in active && active[k].retiring {
      assert SiftedAt(was, had, before, desired, todo, k);
    }
  }

  lemma SiftDone(was: map<string, Route>, had: set<string>, active: map<string, Route>, desired: map<string, Route>)
    requires Sifted(was, had, active, desired, {})
    ensures forall key :: AlignedAt(active, desired, key)
    ensures forall key :: KeptAt(was, had, desired, key)
    ensures forall key | key in was && key !in had :: !was[key].retiring
  {
    forall key | key in was && key !in had ensures !was[key].retiring { assert SiftedAt(was, had, active, desired, {}, key); }
    forall key ensures AlignedAt(active, desired, key) { assert SiftedAt(was, had, active, desired, {}, key); }
    forall key ensures KeptAt(was, had, desired, key) { assert SiftedAt(was, had, active, desired, {}, key); }
  }

  /** Once every active route is wanted as it is, no receipt stands in the way of another route. */
  lemma VacantAligned(b: Backend, c: ImportConfig, s: Snapshot, active: map<string, Route>, desired: map<string, Route>,
                      route: Route)
    requires b.Valid() && Bound(b) && Plan(c, b.networks, s, desired)
    requires forall k :: BackedAt(active, b.receipts, b.owner, k)
    requires forall k :: AlignedAt(active, desired, k)
    requires route.endpoint.key in desired && SameTarget(route, desired[route.endpoint.key])
    ensures RouteVacant(b.kit, b.Durable(), route)
  {
    var st, key := b.Durable(), route.endpoint.key;
    forall n | n in st.networks && TopologyOk(st.devices, n) && Serves(n, route)
      ensures Vacant(st.receipts, key, NewReceipt(b.kit, st, n, route))
    {
      forall k, p, q | k in st.receipts && k != key && Has(st.receipts[k], p) && Has(NewReceipt(b.kit, st, n, route), q)
        ensures !SameSlot(Get(st.receipts[k], p).request, Get(NewReceipt(b.kit, st, n, route), q).request)
      {
        assert BackedAt(active, b.receipts, b.owner, k) && AlignedAt(active, desired, k) && ShapedAt(b.kit, st, k);
        DesiredApart(c, b.networks, s, desired, k, key);
        DistinctSlotsByName(b.kit, st, b.kernel.links, st.receipts[k], n, route, p, q);
      }
    }
  }

  // ---------------------------------------------------------------- what installation means

  /** The mapping of the endpoint's network and VNI, the last one where there are several. */
  ghost predicate MapsTo(networks: seq<Network>, ep: Endpoint, n: Network)
  {
    exists i :: 0 <= i < |networks| && networks[i] == n && n.networkID == ep.networkID && n.vni == ep.vni
                && forall j | i < j < |networks| :: networks[j].networkID != ep.networkID || networks[j].vni != ep.vni
  }

  lemma {:induction false} MappingIsLast(networks: seq<Network>, ep: Endpoint)
    requires MappingOf(networks, ep).Some?
    ensures MapsTo(networks, ep, MappingOf(networks, ep).value)
  {
    var last, init := networks[|networks| - 1], networks[..|networks| - 1];
    if last.networkID == ep.networkID && last.vni == ep.vni {
      assert networks[|networks| - 1] == MappingOf(networks, ep).value;
    } else {
      MappingIsLast(init, ep);
      var n := MappingOf(init, ep).value;
      var i :| 0 <= i < |init| && init[i] == n && n.networkID == ep.networkID && n.vni == ep.vni
               && forall j | i < j < |init| :: init[j].networkID != ep.networkID || init[j].vni != ep.vni;
      forall j | i < j < |networks| ensures networks[j].networkID != ep.networkID || networks[j].vni != ep.vni {
        if j < |init| { assert init[j] == networks[j]; }
      }
      assert networks[i] == n;
    }
  }

  /** On the tunnel device, the endpoint's MAC behind its VTEP: no ARP and permanent (0x40, 0x80), on the
      device itself and externally learned (0x02, 0x10), unicast. */
  predicate TunnelEntry(tunnel: Device, ep: Endpoint, e: Entry)
  {
    && e.family == Bridge && e.ifindex == tunnel.ifindex && e.mac == ep.mac && e.ip == ep.vtep
    && e.state == 0xC0 && e.flags == 0x12 && e.kind == 1 && e.rest == 0
  }

  /** On the bridge, the endpoint's IP at its MAC: no ARP, externally learned, unicast or broadcast. */
  predicate NeighborEntry(kit: Kit, bridge: Device, ep: Endpoint, e: Entry)
  {
    && ep.ip != "" && (if kit.isIPv4(ep.ip) then e.family == Inet else e.family == Inet6)
    && e.ifindex == bridge.ifindex && e.mac == ep.mac && e.ip == ep.ip
    && e.state == 0x40 && e.flags == 0x10 && (e.kind == 1 || e.kind == 3) && e.rest == 0
  }

  /** The links of a network: a tunnel with its VNI, enslaved to its bridge. */
  predicate Wired(links: map<string, Device>, n: Network)
  {
    && n.vxlan in links && n.bridge in links
    && links[n.vxlan].name == n.vxlan && links[n.vxlan].kind == "vxlan" && links[n.vxlan].vni == n.vni
    && links[n.bridge].name == n.bridge && links[n.bridge].kind == "bridge" && links[n.vxlan].master == links[n.bridge].ifindex
  }

  /** An entry a snapshot endpoint asks for on the links of its network. */
  ghost predicate AskedFor(kit: Kit, links: map<string, Device>, networks: seq<Network>, ep: Endpoint, e: Entry)
  {
    exists n :: MapsTo(networks, ep, n) && Wired(links, n)
                && (TunnelEntry(links[n.vxlan], ep, e) || NeighborEntry(kit, links[n.bridge], ep, e))
  }

  ghost predicate InPlace(kit: Kit, links: map<string, Device>, networks: seq<Network>, ep: Endpoint, mine: set<Entry>)
  {
    exists n :: MapsTo(networks, ep, n) && Wired(links, n)
                && (exists e :: e in mine && TunnelEntry(links[n.vxlan], ep, e))
                && (ep.ip != "" ==> exists e :: e in mine && NeighborEntry(kit, links[n.bridge], ep, e))
  }

  ghost predicate InPlaceAt(b: Backend, endpoints: seq<Endpoint>, mine: set<Entry>, ep: Endpoint)
  {
    ep in endpoints ==> InPlace(b.kit, b.kernel.links, b.networks, ep, mine)
  }

  ghost predicate AskedAt(b: Backend, endpoints: seq<Endpoint>, mine: set<Entry>, e: Entry)
  {
    e in mine ==> exists ep :: ep in endpoints && AskedFor(b.kit, b.kernel.links, b.networks, ep, e)
  }

  ghost predicate AllInPlace(b: Backend, endpoints: seq<Endpoint>, mine: set<Entry>)
  {
    forall ep :: InPlaceAt(b, endpoints, mine, ep)
  }

  ghost predicate OnlyAskedFor(b: Backend, endpoints: seq<Endpoint>, mine: set<Entry>)
  {
    forall e :: AskedAt(b, endpoints, mine, e)
  }

  /** One destination per device and MAC, one MAC per device and IP. */
  ghost predicate OnePerSlot(mine: set<Entry>)
  {
    && (forall e, f | e in mine && f in mine && e.family == Bridge == f.family && e.ifindex == f.ifindex && e.mac == f.mac ::
          e == f)
    && (forall e, f | e in mine && f in mine && e.family != Bridge && e.family == f.family && e.ifindex == f.ifindex
                      && e.ip == f.ip :: e == f)
  }

  /** Our kernel entries are the bridge entry of every endpoint and the neighbor of every endpoint
      with an IP, one per slot, and nothing more. */
  ghost predicate ExactlyInstalled(b: Backend, endpoints: seq<Endpoint>, mine: set<Entry>)
  {
    AllInPlace(b, endpoints, mine) && OnlyAskedFor(b, endpoints, mine) && OnePerSlot(mine)
  }

  /** What the receipt of an aligned route claims. */
  lemma HeldByAligned(b: Backend, active: map<string, Route>, desired: map<string, Route>, s: Snapshot, key: string, part: Part)
    requires b.Valid() && Bound(b) && Settled(b.receipts)
    requires Covers(b.networks, s.content.endpoints, s.generation, desired)
    requires BackedAt(active, b.receipts, b.owner, key) && AlignedAt(active, desired, key)
    requires key in b.receipts && Holds(b.receipts[key], part)
    ensures key in desired
    ensures var ep, e := desired[key].endpoint, Get(b.receipts[key], part).observed;
      && ep in s.content.endpoints && MappingOf(b.networks, ep).Some?
      && var n := MappingOf(b.networks, ep).value;
         && Wired(b.kernel.links, n)
         && (part == FDB ==> TunnelEntry(b.kernel.links[n.vxlan], ep, e))
         && (part == Neighbor ==> NeighborEntry(b.kit, b.kernel.links[n.bridge], ep, e))
  {
    assert ShapedAt(b.kit, b.Durable(), key) && WantedAt(s.content.endpoints, desired, key);
    assert CoveredAt(b.networks, s.content.endpoints, s.generation, desired, desired[key].endpoint);
    SettledReadsBack(b.receipts, key, part);
  }

  lemma CompleteInPlace(b: Backend, active: map<string, Route>, desired: map<string, Route>, s: Snapshot, ep: Endpoint)
    requires b.Valid() && Bound(b) && Settled(b.receipts)
    requires Covers(b.networks, s.content.endpoints, s.generation, desired)
    requires ep in s.content.endpoints && ep.key in b.receipts && Complete(b.receipts[ep.key])
    requires BackedAt(active, b.receipts, b.owner, ep.key) && AlignedAt(active, desired, ep.key)
    ensures InPlace(b.kit, b.kernel.links, b.networks, ep, Held(b.receipts))
  {
    var r := b.receipts[ep.key];
    assert CoveredAt(b.networks, s.content.endpoints, s.generation, desired, ep);
    MappingIsLast(b.networks, ep);
    HeldByAligned(b, active, desired, s, ep.key, FDB);
    HeldMembers(b.receipts, r.fdb.observed);
    assert HeldBy(b.receipts, ep.key, FDB, r.fdb.observed);
    if ep.ip != "" {
      assert ShapedAt(b.kit, b.Durable(), ep.key);
      HeldByAligned(b, active, desired, s, ep.key, Neighbor);
      HeldMembers(b.receipts, r.neighbor.value.observed);
      assert HeldBy(b.receipts, ep.key, Neighbor, r.neighbor.value.observed);
    }
  }

  /** Every active route is wanted as it is and every wanted route is complete. */
  ghost predicate Accomplished(b: Backend, active: map<string, Route>, desired: map<string, Route>)
    reads b
  {
    && (forall k :: BackedAt(active, b.receipts, b.owner, k))
    && (forall k :: AlignedAt(active, desired, k))
    && (forall k :: CompleteAt(b.receipts, desired.Keys, k))
  }

  lemma HeldIsAskedFor(b: Backend, active: map<string, Route>, desired: map<string, Route>, s: Snapshot, e: Entry)
    requires b.Valid() && Bound(b) && Settled(b.receipts) && Accomplished(b, active, desired)
    requires Covers(b.networks, s.content.endpoints, s.generation, desired) && e in Held(b.receipts)
    ensures exists ep :: ep in s.content.endpoints && AskedFor(b.kit, b.kernel.links, b.networks, ep, e)
  {
    HeldMembers(b.receipts, e);
    var key, part :| HeldBy(b.receipts, key, part, e);
    assert BackedAt(active, b.receipts, b.owner, key) && AlignedAt(active, desired, key);
    HeldByAligned(b, active, desired, s, key, part);
    MappingIsLast(b.networks, desired[key].endpoint);
    assert part == FDB || part == Neighbor;
    assert AskedFor(b.kit, b.kernel.links, b.networks, desired[key].endpoint, e);
  }

  lemma WantedIsInPlace(b: Backend, active: map<string, Route>, desired: map<string, Route>, s: Snapshot, ep: Endpoint)
    requires b.Valid() && Bound(b) && Settled(b.receipts) && Accomplished(b, active, desired)
    requires Covers(b.networks, s.content.endpoints, s.generation, desired) && ep in s.content.endpoints
    ensures InPlace(b.kit, b.kernel.links, b.networks, ep, Held(b.receipts))
  {
    assert CoveredAt(b.networks, s.content.endpoints, s.generation, desired, ep);
    assert CompleteAt(b.receipts, desired.Keys, ep.key);
    assert BackedAt(active, b.receipts, b.owner, ep.key) && AlignedAt(active, desired, ep.key);
    CompleteInPlace(b, active, desired, s, ep);
  }

  lemma AccomplishedInPlace(b: Backend, active: map<string, Route>, desired: map<string, Route>, s: Snapshot)
    requires b.Valid() && Bound(b) && Settled(b.receipts) && Accomplished(b, active, desired)
    requires Covers(b.networks, s.content.endpoints, s.generation, desired)
    ensures AllInPlace(b, s.content.endpoints, Held(b.receipts))
  {
    forall ep ensures InPlaceAt(b, s.content.endpoints, Held(b.receipts), ep) {
      if ep in s.content.endpoints { WantedIsInPlace(b, active, desired, s, ep); }
    }
  }

  lemma AccomplishedAskedFor(b: Backend, active: map<string, Route>, desired: map<string, Route>, s: Snapshot)
    requires b.Valid() && Bound(b) && Settled(b.receipts) && Accomplished(b, active, desired)
    requires Covers(b.networks, s.content.endpoints, s.generation, desired)
    ensures OnlyAskedFor(b, s.content.endpoints, Held(b.receipts))
  {
    forall e ensures AskedAt(b, s.content.endpoints, Held(b.receipts), e) {
      if e in Held(b.receipts) { HeldIsAskedFor(b, active, desired, s, e); }
    }
  }

  lemma AccomplishedIsInstalled(b: Backend, active: map<string, Route>, desired: map<string, Route>, s: Snapshot)
    requires b.Valid() && Bound(b) && Settled(b.receipts) && Accomplished(b, active, desired)
    requires Covers(b.networks, s.content.endpoints, s.generation, desired)
    ensures ExactlyInstalled(b, s.content.endpoints, Held(b.receipts))
  {
    AccomplishedInPlace(b, active, desired, s);
    AccomplishedAskedFor(b, active, desired, s);
    forall e, f | e in Held(b.receipts) && f in Held(b.receipts) && SameSlot(e, f) ensures e == f {
      HeldSlotsUnique(b.receipts, e, f);
    }
    assert OnePerSlot(Held(b.receipts)) by {
      forall e, f | e in Held(b.receipts) && f in Held(b.receipts) && e.family == Bridge == f.family
                    && e.ifindex == f.ifindex && e.mac == f.mac ensures SameSlot(e, f) { }
      forall e, f | e in Held(b.receipts) && f in Held(b.receipts) && e.family != Bridge && e.family == f.family
                    && e.ifindex == f.ifindex && e.ip == f.ip ensures SameSlot(e, f) { }
    }
  }

  /** With nothing wanted nothing is claimed, whatever state the backend is in. */
  lemma NothingInstalled(b: Backend, active: map<string, Route>, desired: map<string, Route>)
    requires Accomplished(b, active, desired) && desired == map[]
    ensures ExactlyInstalled(b, [], Held(b.receipts))
  {
    forall e ensures e !in Held(b.receipts) {
      HeldMembers(b.receipts, e);
      forall key, part ensures !HeldBy(b.receipts, key, part, e) {
        assert BackedAt(active, b.receipts, b.owner, key) && AlignedAt(active, desired, key);
      }
    }
  }

  lemma NoneDone(desired: map<string, Route>)
    ensures desired.Keys - desired.Keys == {}
  {
  }

  lemma OneDone(desired: map<string, Route>, todo: set<string>, key: string)
    requires todo <= desired.Keys && key in todo
    ensures desired.Keys - (todo - {key}) == (desired.Keys - todo) + {key} && todo - {key} != desired.Keys
  {
  }

  lemma AllDone(desired: map<string, Route>)
    ensures desired.Keys - {} == desired.Keys
  {
  }

  /** The snapshot has the route's endpoint, unchanged and on the same devices. */
  ghost predicate StillWanted(networks: seq<Network>, endpoints: seq<Endpoint>, route: Route)
  {
    route.endpoint in endpoints && MappingOf(networks, route.endpoint).Some?
    && MappingOf(networks, route.endpoint).value.vxlan == route.vxlan
    && MappingOf(networks, route.endpoint).value.bridge == route.bridge
  }

  lemma WantedIffKept(networks: seq<Network>, s: Snapshot, desired: map<string, Route>, was: map<string, Route>,
                      had: set<string>)
    requires Covers(networks, s.content.endpoints, s.generation, desired)
    requires forall key | key in was :: was[key].endpoint.key == key
    ensures forall key | key in was && key !in had ::
      KeptAt(was, had, desired, key) <==> !was[key].retiring && StillWanted(networks, s.content.endpoints, was[key])
  {
    forall key | key in was && key !in had
      ensures KeptAt(was, had, desired, key) <==> !was[key].retiring && StillWanted(networks, s.content.endpoints, was[key])
    {
      assert WantedAt(s.content.endpoints, desired, key);
      assert CoveredAt(networks, s.content.endpoints, s.generation, desired, was[key].endpoint);
    }
  }

  lemma NothingDesired(networks: seq<Network>, s: Snapshot, desired: map<string, Route>)
    requires Covers(networks, s.content.endpoints, s.generation, desired)
    ensures desired == map[] ==> s.content.endpoints == []
    ensures forall key | key in desired :: exists ep :: ep in s.content.endpoints && ep.key == key
  {
    forall ep | ep in s.content.endpoints ensures ep.key in desired {
      assert CoveredAt(networks, s.content.endpoints, s.generation, desired, ep);
    }
    forall key | key in desired ensures exists ep :: ep in s.content.endpoints && ep.key == key {
      assert WantedAt(s.content.endpoints, desired, key);
    }
    if s.content.endpoints != [] { assert s.content.endpoints[0].key in desired; }
  }

  /** Generations never go back, and one generation never names two contents. */
  ghost predicate Current(s: Snapshot, last: Snapshot)
  {
    s.authoritative && last.generation <= s.generation
    && (s.generation == last.generation ==> s.content.endpoints == last.content.endpoints)
  }

  lemma RestoredLatest(b: Backend, epoch: nat, key: string)
    requires b.Valid() && key in b.receipts && EpochAt(b.latest, epoch, key)
    ensures 0 < b.receipts[key].incarnation <= epoch
  {
    assert ShapedAt(b.kit, b.Durable(), key);
  }

  class RemoteImporter {
    const backend: Backend
    const config: ImportConfig
    var active: map<string, Route>
    var epoch: nat
    var confirmedGeneration: nat
    var confirmed: seq<Endpoint>

    ghost predicate Indexed()
      reads this, backend
    {
      && (forall key :: ActiveAt(backend.kit, active, epoch, confirmedGeneration, key))
      && (forall key :: BackedAt(active, backend.receipts, backend.owner, key))
      && (forall key :: EpochAt(backend.latest, epoch, key))
    }

    ghost predicate Valid()
      reads this, backend, backend.kernel, backend.journal, backend.journal.disk
    {
      && backend.Valid() && Bound(backend) && ValidConfig(config) && HashInjective(config.parsers)
      && backend.kit.hash == config.parsers.hash
      && confirmedGeneration == backend.snapshot.generation && confirmed == backend.snapshot.content.endpoints
      && Indexed()
    }

    constructor (backend: Backend, config: ImportConfig, epoch: nat)
      requires backend.Valid() && Bound(backend) && ValidConfig(config) && HashInjective(config.parsers)
      requires backend.kit.hash == config.parsers.hash && forall key :: EpochAt(backend.latest, epoch, key)
      ensures Valid() && this.backend == backend && this.config == config && this.epoch == epoch
      ensures active == map key | key in backend.receipts :: ReceiptRoute(backend.receipts[key])
    {
      this.backend, this.config, this.epoch := backend, config, epoch;
      active := map key | key in backend.receipts :: ReceiptRoute(backend.receipts[key]);
      confirmedGeneration, confirmed := backend.snapshot.generation, backend.snapshot.content.endpoints;
      new;
      forall key
        ensures ActiveAt(backend.kit, active, epoch, confirmedGeneration, key)
        ensures BackedAt(active, backend.receipts, backend.owner, key)
      {
        assert ShapedAt(backend.kit, backend.Durable(), key);
        if key in backend.receipts { RestoredLatest(backend, epoch, key); }
      }
    }

    /** Restores the active routes from recovered receipts, each validated again under the
        current policy; one receipt the policy no longer supports refuses the restart. */
    static method Restore(backend: Backend, config: ImportConfig) returns (i: RemoteImporter?)
      requires backend.Valid() && Bound(backend) && ValidConfig(config) && HashInjective(config.parsers)
      requires backend.kit.hash == config.parsers.hash
      ensures i != null ==> fresh(i) && i.backend == backend && i.config == config && i.Valid()
      ensures i != null ==> i.active == map key | key in backend.receipts :: ReceiptRoute(backend.receipts[key])
      ensures i != null <==>
        && (forall n | n in backend.networks :: exists p | p in config.networks :: p.networkID == n.networkID && p.vni == n.vni)
        && (forall key | key in backend.receipts :: Evidenced(config, backend.receipts[key].endpoint))
    {
      i := null;
      if exists n | n in backend.networks ::
           !exists p | p in config.networks :: p.networkID == n.networkID && p.vni == n.vni { return; }
      var epoch, todo := 0, backend.latest.Keys;
      while todo != {}
        invariant todo <= backend.latest.Keys
        invariant forall key | key !in todo :: EpochAt(backend.latest, epoch, key)
        decreases |todo|
      {
        var key :| key in todo;
        forall k | k !in todo ensures EpochAt(backend.latest, epoch, k) { }
        epoch := if backend.latest[key] > epoch then backend.latest[key] else epoch;
        todo := todo - {key};
      }
      forall key | key in backend.receipts
        ensures Supported(config, backend.receipts[key].endpoint) <==> Evidenced(config, backend.receipts[key].endpoint)
      {
        SupportedIff(config, backend.receipts[key].endpoint);
      }
      if exists key | key in backend.receipts :: !Supported(config, backend.receipts[key].endpoint) { return; }
      i := new RemoteImporter(backend, config, epoch);
    }

    /** Withdraws one active route; it stays marked as retiring until its receipt is gone. */
    method WithdrawOne(key: string, cancelled: bool) returns (ok: bool)
      requires Valid() && key in active
      modifies this`active, backend`blocked, backend`receipts, backend.journal`record, backend.journal`blocked,
               backend.journal.disk, backend.kernel
      ensures Valid() && (!backend.kernel.foreign ==> backend.kernel.others == old(backend.kernel.others))
      ensures backend.receipts.Keys <= old(backend.receipts).Keys
      ensures ok ==> active == old(active) - {key} && key in old(backend.receipts) && backend.Live()
      ensures !ok ==> active == old(active)[key := old(active)[key].(retiring := true)]
    {
      ghost var was, had := active, backend.receipts;
      assert ActiveAt(backend.kit, active, epoch, confirmedGeneration, key);
      var current := active[key].(retiring := true);
      active := active[key := current];
      ok := backend.Withdraw(current, cancelled);
      if ok { active := active - {key}; }
      forall k
        ensures ActiveAt(backend.kit, active, epoch, confirmedGeneration, k)
        ensures BackedAt(active, backend.receipts, backend.owner, k)
      {
        assert ActiveAt(backend.kit, was, epoch, confirmedGeneration, k) && BackedAt(was, had, backend.owner, k);
        if k != key { Elsewhere(had, backend.receipts, key, k); }
      }
      forall k | k in backend.receipts ensures k in had {
        if k != key { Elsewhere(had, backend.receipts, key, k); }
      }
    }

    /** A route that never got a receipt and is marked as retiring. */
    ghost predicate StuckAt(key: string)
      reads this, backend
    {
      key in active && key !in backend.receipts && active[key].retiring
    }

    /** Withdrawals come first, in key order: afterwards every active route is wanted as it is. An
        active route without a receipt cannot be withdrawn, so success means that it is still wanted
        as it is; one that is retiring fails every time and stays. */
    method WithdrawStale(desired: map<string, Route>, cancelled: bool) returns (ok: bool)
      requires Valid() && !backend.journal.blocked && backend.journal.record.pending.None?
      modifies this`active, backend`blocked, backend`receipts, backend.journal`record, backend.journal`blocked,
               backend.journal.disk, backend.kernel
      ensures Valid() && (!backend.kernel.foreign ==> backend.kernel.others == old(backend.kernel.others))
      ensures ok ==> forall key :: AlignedAt(active, desired, key)
      ensures ok ==> forall key :: KeptAt(old(active), old(backend.receipts).Keys, desired, key)
      ensures ok ==> backend.Live() || (active == old(active) && old(backend.blocked)
                                        && !backend.journal.blocked && backend.journal.record.pending.None?)
      ensures forall key | old(StuckAt(key)) :: !ok && StuckAt(key)
      ensures old(active) == map[] ==> ok && active == map[] && backend.blocked == old(backend.blocked)
      ensures old(active) == map[] ==>
        Untouched(old(backend.receipts), old(backend.journal.record), old(backend.journal.blocked))
      ensures forall key | old(active).Keys == {key} && key !in old(backend.receipts) && !ok :: StuckAt(key)
    {
      var todo := active.Keys;
      ghost var had := backend.receipts.Keys;
      while todo != {}
        invariant Valid() && (!backend.kernel.foreign ==> backend.kernel.others == old(backend.kernel.others))
        invariant backend.receipts.Keys <= had && Sifted(old(active), had, active, desired, todo)
        invariant todo <= old(active).Keys && (old(active) == map[] ==> active == map[] && backend.blocked == old(backend.blocked))
        invariant old(active) == map[] ==>
          Untouched(old(backend.receipts), old(backend.journal.record), old(backend.journal.blocked))
        invariant backend.Live() || (active == old(active) && old(backend.blocked)
                                     && !backend.journal.blocked && backend.journal.record.pending.None?)
        decreases |todo|
      {
        var key := Least(todo);
        assert SiftedAt(old(active), had, active, desired, todo, key);
        ghost var before := active;
        if key !in desired || active[key].retiring || !SameTarget(active[key], desired[key]) {
          ok := WithdrawOne(key, cancelled);
          if !ok {
            StuckStays(old(active), had, before, active, desired, todo, key);
            return;
          }
        }
        SiftStep(old(active), had, before, active, desired, todo, key);
        todo := todo - {key};
      }
      SiftDone(old(active), had, active, desired);
      return true;
    }

    /** Makes a wanted route active, in a new incarnation unless it is already active. */
    method Activate(key: string, desired: map<string, Route>) returns (ok: bool)
      requires Valid() && Plan(config, backend.networks, backend.snapshot, desired) && key in desired
      requires forall k :: AlignedAt(active, desired, k)
      modifies this`active, this`epoch
      ensures Valid() && forall k :: AlignedAt(active, desired, k)
      ensures ok <==> key in old(active) || old(epoch) < MAX_SEQUENCE
      ensures if ok then active.Keys == old(active).Keys + {key} else active == old(active)
    {
      ghost var was, since := active, epoch;
      var wanted := desired[key];
      assert WantedAt(backend.snapshot.content.endpoints, desired, key);
      assert CoveredAt(backend.networks, backend.snapshot.content.endpoints, backend.snapshot.generation, desired, wanted.endpoint);
      assert AdmittedAt(config, backend.networks, backend.snapshot.content.endpoints, backend.snapshot.generation, wanted.endpoint);
      if key in active { return true; }
      if epoch >= MAX_SEQUENCE { return false; }
      epoch := epoch + 1;
      active := active[key := wanted.(incarnation := epoch)];
      forall k
        ensures ActiveAt(backend.kit, active, epoch, confirmedGeneration, k)
        ensures BackedAt(active, backend.receipts, backend.owner, k) && AlignedAt(active, desired, k)
        ensures EpochAt(backend.latest, epoch, k)
      {
        assert ActiveAt(backend.kit, was, since, confirmedGeneration, k);
        assert BackedAt(was, backend.receipts, backend.owner, k) && AlignedAt(was, desired, k);
        assert EpochAt(backend.latest, since, k);
      }
      return true;
    }

    method ApplyActive(key: string, desired: map<string, Route>, cancelled: bool) returns (ok: bool)
      requires Valid() && Plan(config, backend.networks, backend.snapshot, desired) && key in active
      requires forall k :: AlignedAt(active, desired, k)
      modifies backend`blocked, backend`receipts, backend`latest, backend.journal`record, backend.journal`blocked,
               backend.journal.disk, backend.kernel
      ensures Valid() && (!backend.kernel.foreign ==> backend.kernel.others == old(backend.kernel.others))
      ensures backend.receipts - {key} == old(backend.receipts) - {key}
      ensures ok ==> backend.Live() && key in backend.receipts && Complete(backend.receipts[key])
      ensures cancelled ==> !ok && Untouched(old(backend.receipts), old(backend.journal.record), old(backend.journal.blocked))
    {
      ghost var had, known := backend.receipts, backend.latest;
      var route := active[key];
      assert AlignedAt(active, desired, key) && ActiveAt(backend.kit, active, epoch, confirmedGeneration, key);
      assert BackedAt(active, had, backend.owner, key);
      VacantAligned(backend, config, backend.snapshot, active, desired, route);
      ok := backend.Apply(route, cancelled);
      forall k
        ensures BackedAt(active, backend.receipts, backend.owner, k)
        ensures EpochAt(backend.latest, epoch, k)
      {
        assert BackedAt(active, had, backend.owner, k) && EpochAt(known, epoch, k);
        if k != key { Elsewhere(had, backend.receipts, key, k); }
      }
    }

    ghost predicate Untouched(receipts: map<string, Receipt>, record: Record<State, Payload>, blocked: bool)
      reads backend, backend.journal
    {
      backend.receipts == receipts && backend.journal.record == record && backend.journal.blocked == blocked
    }

    /** Midway through the applications: the routes in `done` are complete. */
    ghost predicate Advancing(desired: map<string, Route>, done: set<string>)
      reads this, backend, backend.kernel, backend.journal, backend.journal.disk
    {
      && Valid() && Plan(config, backend.networks, backend.snapshot, desired)
      && (forall k :: AlignedAt(active, desired, k))
      && (forall k :: CompleteAt(backend.receipts, done, k))
    }

    method ApplyOne(key: string, desired: map<string, Route>, ghost done: set<string>, cancelled: bool) returns (ok: bool)
      requires Advancing(desired, done) && key in desired
      modifies this`active, this`epoch, backend`blocked, backend`receipts, backend`latest, backend.journal`record,
               backend.journal`blocked, backend.journal.disk, backend.kernel
      ensures Valid() && (!backend.kernel.foreign ==> backend.kernel.others == old(backend.kernel.others))
      ensures ok ==> backend.Live() && Advancing(desired, done + {key})
      ensures active.Keys <= old(active).Keys + {key}
      ensures cancelled ==> !ok && Untouched(old(backend.receipts), old(backend.journal.record), old(backend.journal.blocked))
      ensures cancelled && old(epoch) < MAX_SEQUENCE ==> active.Keys == old(active).Keys + {key}
      ensures forall k :: AlignedAt(active, desired, k)
    {
      ok := Activate(key, desired);
      if !ok { return; }
      ghost var had, more := backend.receipts, done + {key};
      ok := ApplyActive(key, desired, cancelled);
      if !ok { return; }
      forall k ensures CompleteAt(backend.receipts, more, k) {
        assert CompleteAt(had, done, k);
        if k != key { Elsewhere(had, backend.receipts, key, k); }
      }
    }

    method ApplyAll(desired: map<string, Route>, cancelled: bool) returns (ok: bool)
      requires Advancing(desired, {})
      modifies this`active, this`epoch, backend`blocked, backend`receipts, backend`latest, backend.journal`record,
               backend.journal`blocked, backend.journal.disk, backend.kernel
      ensures Valid() && (!backend.kernel.foreign ==> backend.kernel.others == old(backend.kernel.others))
      ensures ok ==> Advancing(desired, desired.Keys)
      ensures ok && (desired != map[] || old(backend.Live())) ==> backend.Live()
      ensures cancelled || desired == map[] ==>
        Untouched(old(backend.receipts), old(backend.journal.record), old(backend.journal.blocked))
      ensures cancelled && desired != map[] ==> !ok
      ensures cancelled && desired != map[] && old(epoch) < MAX_SEQUENCE ==>
        active.Keys == old(active).Keys + {Least(desired.Keys)}
      ensures forall k :: AlignedAt(active, desired, k)
    {
      var todo := desired.Keys;
      NoneDone(desired);
      while todo != {}
        invariant todo <= desired.Keys && Advancing(desired, desired.Keys - todo)
        invariant !backend.kernel.foreign ==> backend.kernel.others == old(backend.kernel.others)
        invariant todo != desired.Keys || old(backend.Live()) ==> backend.Live()
        invariant cancelled ==> todo == desired.Keys
        invariant todo == desired.Keys ==> active == old(active) && epoch == old(epoch)
        invariant todo == desired.Keys ==>
          Untouched(old(backend.receipts), old(backend.journal.record), old(backend.journal.blocked))
        decreases |todo|
      {
        var key := Least(todo);
        ok := ApplyOne(key, desired, desired.Keys - todo, cancelled);
        if !ok { return; }
        OneDone(desired, todo, key);
        todo := todo - {key};
      }
      AllDone(desired);
      return true;
    }

    /** Withdraws and applies an accepted snapshot. */
    method Carry(desired: map<string, Route>, cancelled: bool) returns (ok: bool)
      requires Valid() && Plan(config, backend.networks, backend.snapshot, desired)
      modifies this`active, this`epoch, backend`blocked, backend`receipts, backend`latest, backend.journal`record,
               backend.journal`blocked, backend.journal.disk, backend.kernel
      ensures Valid() && (!backend.kernel.foreign ==> backend.kernel.others == old(backend.kernel.others))
      ensures ok ==> Accomplished(backend, active, desired) && JournalIdle()
      ensures ok ==> backend.Live() || (desired == map[] && old(active) == map[] && old(backend.blocked))
      ensures ok ==> forall key :: KeptAt(old(active), old(backend.receipts).Keys, desired, key)
      ensures forall key | old(StuckAt(key)) :: !ok && StuckAt(key)
      ensures old(Ready()) ==>
        && (cancelled && old(active) == map[] && desired != map[] && old(epoch) < MAX_SEQUENCE ==>
              !ok && JournalIdle() && backend.receipts == old(backend.receipts)
              && active.Keys == {Least(desired.Keys)} && (forall k :: AlignedAt(active, desired, k))
              && backend.journal.record.sequence == old(backend.journal.record.sequence) + 1)
        && (forall key | old(active).Keys == {key} && key !in old(backend.receipts)
                         && !KeptAt(old(active), old(backend.receipts).Keys, desired, key) :: !ok && StuckAt(key))
    {
      ok := backend.Checkpoint();
      forall key | old(StuckAt(key)) ensures StuckAt(key) { }
      if !ok { return; }
      ok := WithdrawStale(desired, cancelled);
      if !ok { return; }
      if desired == map[] {
        forall k ensures k !in active { assert AlignedAt(active, desired, k); }
      }
      forall k ensures CompleteAt(backend.receipts, {}, k) { }
      ok := ApplyAll(desired, cancelled);
    }

    /** A checkpoint is certain to succeed. */
    ghost predicate Ready()
      reads backend, backend.journal, backend.journal.disk
    {
      backend.journal.disk.reliable && backend.journal.CanBegin(CHECKPOINT)
    }

    /** Nothing is pending or blocked in the journal. */
    ghost predicate JournalIdle()
      reads backend, backend.journal
    {
      !backend.journal.blocked && backend.journal.record.pending.None?
    }

    /** Installs an authoritative snapshot. Success leaves our kernel entries exactly those of the
        snapshot and nobody else's changed. A backend that is already quarantined can succeed only
        when there is nothing to withdraw and nothing to apply. A route that never got a receipt
        cannot be withdrawn: success means that the snapshot wants it exactly as it is, and once it
        is retiring no snapshot succeeds again. */
    method Install(s: Snapshot, cancelled: bool) returns (ok: bool)
      requires Valid()
      modifies this, backend, backend.journal`record, backend.journal`blocked, backend.journal.disk, backend.kernel
      ensures Valid() && (!backend.kernel.foreign ==> backend.kernel.others == old(backend.kernel.others))
      ensures ok ==> Current(s, old(backend.snapshot)) && backend.snapshot == s
      ensures backend.snapshot == if Accepts(s, old(backend.snapshot)) then s else old(backend.snapshot)
      ensures ok ==> backend.Live() || (s.content.endpoints == [] && old(active) == map[] && old(backend.blocked))
      ensures ok ==> ExactlyInstalled(backend, s.content.endpoints, Held(backend.receipts))
      ensures ok && !backend.kernel.foreign ==> ExactlyInstalled(backend, s.content.endpoints, backend.kernel.mine)
      ensures ok && backend.Live() ==> backend.kernel.mine <= Held(backend.receipts)
      ensures ok ==> forall key | key in old(active) && key !in old(backend.receipts) ::
        !old(active)[key].retiring && StillWanted(backend.networks, s.content.endpoints, old(active)[key])
      ensures forall key | old(StuckAt(key)) :: !ok && StuckAt(key)
      ensures !Current(s, old(backend.snapshot))
              || !Installable(config, backend.networks, s.content.endpoints, s.generation) ==>
        !ok && active == old(active) && backend.kernel.mine == old(backend.kernel.mine)
      ensures Accepts(s, old(backend.snapshot)) && old(Ready()) ==>
        && (cancelled && old(active) == map[] && s.content.endpoints != [] && old(epoch) < MAX_SEQUENCE ==>
              !ok && JournalIdle() && backend.receipts == old(backend.receipts) && |active| == 1 && backend.snapshot == s
              && (forall key | key in active :: active[key].endpoint in s.content.endpoints)
              && backend.journal.record.sequence == old(backend.journal.record.sequence) + 1)
        && (forall key | old(active).Keys == {key} && key !in old(backend.receipts)
                         && !StillWanted(backend.networks, s.content.endpoints, old(active)[key]) :: !ok && StuckAt(key))
    {
      if !s.authoritative { return false; }
      if s.generation < confirmedGeneration
         || (s.generation == confirmedGeneration && confirmed != s.content.endpoints) { return false; }
      var desired := BuildDesired(config, backend.networks, s.content.endpoints, s.generation);
      if desired.None? { return false; }
      assert Numbered(s) by {
        if s.content.endpoints != [] {
          assert AdmittedAt(config, backend.networks, s.content.endpoints, s.generation, s.content.endpoints[0]);
        }
      }
      Confirm(s);
      forall key | old(StuckAt(key)) ensures StuckAt(key) { }
      ok := Fulfil(s, desired.value, cancelled);
    }

    /** Carries out the plan of an accepted snapshot; what that means is said in terms of the snapshot. */
    method Fulfil(s: Snapshot, desired: map<string, Route>, cancelled: bool) returns (ok: bool)
      requires Valid() && backend.snapshot == s && Plan(config, backend.networks, s, desired)
      modifies this`active, this`epoch, backend`blocked, backend`receipts, backend`latest, backend.journal`record,
               backend.journal`blocked, backend.journal.disk, backend.kernel
      ensures Valid() && (!backend.kernel.foreign ==> backend.kernel.others == old(backend.kernel.others))
      ensures ok ==> backend.Live() || (s.content.endpoints == [] && old(active) == map[] && old(backend.blocked))
      ensures ok ==> ExactlyInstalled(backend, s.content.endpoints, Held(backend.receipts)) && JournalIdle()
      ensures ok ==> forall key | key in old(active) && key !in old(backend.receipts) ::
        !old(active)[key].retiring && StillWanted(backend.networks, s.content.endpoints, old(active)[key])
      ensures forall key | old(StuckAt(key)) :: !ok && StuckAt(key)
      ensures old(Ready()) ==>
        && (cancelled && old(active) == map[] && s.content.endpoints != [] && old(epoch) < MAX_SEQUENCE ==>
              !ok && JournalIdle() && backend.receipts == old(backend.receipts) && |active| == 1
              && (forall key | key in active :: active[key].endpoint in s.content.endpoints)
              && backend.journal.record.sequence == old(backend.journal.record.sequence) + 1)
        && (forall key | old(active).Keys == {key} && key !in old(backend.receipts)
                         && !StillWanted(backend.networks, s.content.endpoints, old(active)[key]) :: !ok && StuckAt(key))
    {
      ghost var was, had := active, backend.receipts.Keys;
      forall key | key in was ensures was[key].endpoint.key == key {
        assert ActiveAt(backend.kit, was, epoch, confirmedGeneration, key);
      }
      ok := Carry(desired, cancelled);
      WantedIffKept(backend.networks, s, desired, was, had);
      NothingDesired(backend.networks, s, desired);
      forall key | key in active && (forall k :: AlignedAt(active, desired, k))
        ensures active[key].endpoint in s.content.endpoints
      {
        assert AlignedAt(active, desired, key) && WantedAt(s.content.endpoints, desired, key);
      }
      if ok {
        if backend.Live() {
          AccomplishedIsInstalled(backend, active, desired, s);
        } else {
          NothingInstalled(backend, active, desired);
        }
      }
    }

    ghost predicate Accepts(s: Snapshot, last: Snapshot)
    {
      Current(s, last) && Installable(config, backend.networks, s.content.endpoints, s.generation)
    }

    method Confirm(s: Snapshot)
      requires Valid() && confirmedGeneration <= s.generation && Numbered(s)
      modifies this`confirmedGeneration, this`confirmed, backend`snapshot
      ensures Valid() && backend.snapshot == s
    {
      ghost var was := confirmedGeneration;
      confirmedGeneration, confirmed := s.generation, s.content.endpoints;
      backend.Adopt(s);
      forall key ensures ActiveAt(backend.kit, active, epoch, confirmedGeneration, key) {
        assert ActiveAt(backend.kit, active, epoch, was, key);
      }
    }
  }

  lemma Elsewhere(before: map<string, Receipt>, after: map<string, Receipt>, key: string, k: string)
    requires before - {key} == after - {key} && k != key
    ensures (k in before <==> k in after) && (k in before ==> before[k] == after[k])
  {
    assert k in before <==> k in before - {key};
    assert k in after <==> k in after - {key};
    if k in before { assert (before - {key})[k] == (after - {key})[k]; }
  }

  // ---------------------------------------------------------------- a route without a receipt

  /** How an importer gets stuck: the context is cancelled before the first application of snapshot
      `a`, so its route is active without a receipt; snapshot `b` does not have it, so its withdrawal
      fails and leaves it retiring; from then on nothing succeeds, whatever is delivered. */
  method StuckRun(i: RemoteImporter, a: Snapshot, b: Snapshot, later: seq<Snapshot>) returns (results: seq<bool>)
    requires i.Valid() && i.Ready() && i.active == map[] && i.epoch < MAX_SEQUENCE
    requires i.backend.journal.record.sequence + 1 < MAX_SEQUENCE
    requires i.Accepts(a, i.backend.snapshot) && a.content.endpoints != []
    requires i.Accepts(b, a) && forall ep | ep in a.content.endpoints :: ep !in b.content.endpoints
    modifies i, i.backend, i.backend.journal`record, i.backend.journal`blocked, i.backend.journal.disk, i.backend.kernel
    ensures i.Valid() && exists key :: i.StuckAt(key)
    ensures |results| == |later| + 2 && forall k | 0 <= k < |results| :: !results[k]
  {
    var first, second := GetStuck(i, a, b);
    ghost var key :| i.StuckAt(key);
    results := [first, second];
    for k := 0 to |later|
      invariant i.Valid() && i.StuckAt(key)
      invariant |results| == k + 2 && forall j | 0 <= j < |results| :: !results[j]
    {
      var ok := i.Install(later[k], false);
      results := results + [ok];
    }
  }

  method GetStuck(i: RemoteImporter, a: Snapshot, b: Snapshot) returns (first: bool, second: bool)
    requires i.Valid() && i.Ready() && i.active == map[] && i.epoch < MAX_SEQUENCE
    requires i.backend.journal.record.sequence + 1 < MAX_SEQUENCE
    requires i.Accepts(a, i.backend.snapshot) && a.content.endpoints != []
    requires i.Accepts(b, a) && forall ep | ep in a.content.endpoints :: ep !in b.content.endpoints
    modifies i, i.backend, i.backend.journal`record, i.backend.journal`blocked, i.backend.journal.disk, i.backend.kernel
    ensures i.Valid() && !first && !second && exists key :: i.StuckAt(key)
  {
    forall key ensures key !in i.backend.receipts {
      assert BackedAt(i.active, i.backend.receipts, i.backend.owner, key);
    }
    first := i.Install(a, true);
    ghost var key :| key in i.active;
    assert i.active.Keys == {key} by { OneKey(i.active, key); }
    second := i.Install(b, false);
    assert i.StuckAt(key);
  }

  lemma OneKey(active: map<string, Route>, key: string)
    requires |active| == 1 && key in active
    ensures active.Keys == {key}
  {
    assert |active.Keys - {key}| == 0;
  }

  // ---------------------------------------------------------------- what can be installed

  /** A validated endpoint of a numbered snapshot, with its own key, evidence and a network with devices. */
  ghost predicate Fit(c: ImportConfig, networks: seq<Network>, ep: Endpoint, generation: nat)
  {
    && generation > 0 && ep.validationState == "validated" && |ep.routes| > 0 && Evidenced(c, ep)
    && ep.key == c.parsers.hash(ep.networkID, ep.mac, ep.ip) && exists n :: MapsTo(networks, ep, n)
  }

  /** Two endpoints whose networks have one tunnel device differ in MAC, and on one bridge in IP, if any. */
  ghost predicate ApartOn(networks: seq<Network>, d: Endpoint, e: Endpoint)
  {
    forall m, n | MapsTo(networks, d, m) && MapsTo(networks, e, n) ::
      && (m.vxlan == n.vxlan ==> d.mac != e.mac)
      && (m.bridge == n.bridge && d.ip != "" ==> d.ip != e.ip)
  }

  lemma MappingIff(networks: seq<Network>, ep: Endpoint, n: Network)
    ensures MapsTo(networks, ep, n) <==> MappingOf(networks, ep) == Some(n)
  {
    if MappingOf(networks, ep).Some? { MappingIsLast(networks, ep); }
    if MapsTo(networks, ep, n) {
      assert n in networks;
      var m := MappingOf(networks, ep).value;
      var i :| 0 <= i < |networks| && networks[i] == n && n.networkID == ep.networkID && n.vni == ep.vni
               && forall j | i < j < |networks| :: networks[j].networkID != ep.networkID || networks[j].vni != ep.vni;
      var k :| 0 <= k < |networks| && networks[k] == m && m.networkID == ep.networkID && m.vni == ep.vni
               && forall j | k < j < |networks| :: networks[j].networkID != ep.networkID || networks[j].vni != ep.vni;
    }
  }

  lemma FitIff(c: ImportConfig, networks: seq<Network>, ep: Endpoint, generation: nat)
    requires ValidConfig(c)
    ensures Admitted(c, networks, ep, generation) <==> Fit(c, networks, ep, generation)
  {
    SupportedIff(c, ep);
    if MappingOf(networks, ep).Some? { MappingIff(networks, ep, MappingOf(networks, ep).value); }
    forall n | MapsTo(networks, ep, n) ensures MappingOf(networks, ep).Some? { MappingIff(networks, ep, n); }
  }

  lemma ApartIff(networks: seq<Network>, endpoints: seq<Endpoint>, generation: nat, i: int, j: int)
    requires 0 <= i < j < |endpoints|
    ensures UnsharedAt(networks, endpoints, generation, i, j) <==> ApartOn(networks, endpoints[i], endpoints[j])
  {
    var d, e := endpoints[i], endpoints[j];
    forall n ensures MapsTo(networks, d, n) <==> MappingOf(networks, d) == Some(n) { MappingIff(networks, d, n); }
    forall n ensures MapsTo(networks, e, n) <==> MappingOf(networks, e) == Some(n) { MappingIff(networks, e, n); }
    if MappingOf(networks, d).Some? && MappingOf(networks, e).Some? {
      WantedApart(RouteOf(networks, d, generation), RouteOf(networks, e, generation));
    }
  }

  lemma WantedApart(a: Route, b: Route)
    ensures Wanted(a) !! Wanted(b) <==>
      && (a.vxlan == b.vxlan ==> a.endpoint.mac != b.endpoint.mac)
      && (a.bridge == b.bridge && a.endpoint.ip != "" ==> a.endpoint.ip != b.endpoint.ip)
  {
    assert (a.vxlan, true, a.endpoint.mac) in Wanted(a) && (b.vxlan, true, b.endpoint.mac) in Wanted(b);
    if a.endpoint.ip != "" { assert (a.bridge, false, a.endpoint.ip) in Wanted(a); }
    if b.endpoint.ip != "" { assert (b.bridge, false, b.endpoint.ip) in Wanted(b); }
  }

  /** When a snapshot can be installed, endpoint by endpoint and pair by pair. */
  lemma InstallableIff(c: ImportConfig, networks: seq<Network>, endpoints: seq<Endpoint>, generation: nat)
    requires ValidConfig(c)
    ensures Installable(c, networks, endpoints, generation) <==>
      && (forall i | 0 <= i < |endpoints| :: Fit(c, networks, endpoints[i], generation))
      && (forall i, j | 0 <= i < j < |endpoints| :: ApartOn(networks, endpoints[i], endpoints[j]))
  {
    forall ep ensures Admitted(c, networks, ep, generation) <==> Fit(c, networks, ep, generation) {
      FitIff(c, networks, ep, generation);
    }
    forall i, j | 0 <= i < j < |endpoints|
      ensures UnsharedAt(networks, endpoints, generation, i, j) <==> ApartOn(networks, endpoints[i], endpoints[j])
    {
      ApartIff(networks, endpoints, generation, i, j);
    }
    if Installable(c, networks, endpoints, generation) {
      forall i | 0 <= i < |endpoints| ensures Fit(c, networks, endpoints[i], generation) {
        assert AdmittedAt(c, networks, endpoints, generation, endpoints[i]);
      }
    } else {
      AllApart(c, networks, endpoints, generation);
    }
  }

  lemma AllApart(c: ImportConfig, networks: seq<Network>, endpoints: seq<Endpoint>, generation: nat)
    requires !Installable(c, networks, endpoints, generation)
    ensures || (exists i :: 0 <= i < |endpoints| && !Admitted(c, networks, endpoints[i], generation))
            || (exists i, j :: 0 <= i < j < |endpoints| && !UnsharedAt(networks, endpoints, generation, i, j))
  {
    if ep :| !AdmittedAt(c, networks, endpoints, generation, ep) {
      var i :| 0 <= i < |endpoints| && endpoints[i] == ep;
    }
  }

  // ---------------------------------------------------------------- producer and consumer

  /** `RemoteNetlinkConfig.Validate`: every network has devices of its own. */
  predicate OwnDevices(networks: seq<Network>)
  {
    forall i, j | 0 <= i < j < |networks| ::
      networks[i].vxlan != networks[j].vxlan && networks[i].bridge != networks[j].bridge
  }

  lemma SameDeviceSameNetwork(networks: seq<Network>, d: Endpoint, e: Endpoint)
    requires OwnDevices(networks) && MappingOf(networks, d).Some? && MappingOf(networks, e).Some?
    requires || MappingOf(networks, d).value.vxlan == MappingOf(networks, e).value.vxlan
             || MappingOf(networks, d).value.bridge == MappingOf(networks, e).value.bridge
    ensures d.networkID == e.networkID
  {
    var n, m := MappingOf(networks, d).value, MappingOf(networks, e).value;
    var i :| 0 <= i < |networks| && networks[i] == n;
    var j :| 0 <= j < |networks| && networks[j] == m;
  }

  /** Every route behind the endpoint names its source. */
  predicate Sourced(e: Endpoint)
  {
    forall v | v in e.routes :: v.route.sourceKey != ""
  }

  lemma NormalIsSupported(c: ImportConfig, R: set<Decoded>, content: Content, generation: nat, e: Endpoint)
    requires NormalForm(c, R, content) && e in content.endpoints
    ensures Identity(c, e, generation) <==> generation != 0
    ensures Supported(c, e) <==> Sourced(e)
  {
    var V := Valids(c, R);
    assert NormalEndpoint(c, V, e);
    var slot := (e.networkID, e.mac);
    forall v | v in e.routes ensures Supports(c, e, v) <==> v.route.sourceKey != "" {
      assert v in V && MacSlot(v) == slot;
    }
    if e.ip != "" {
      var v :| v in V && MacSlot(v) == slot && v.route.ip == e.ip;
      assert v in e.routes;
    }
  }

  lemma NormalDistinct(c: ImportConfig, V: set<Validated>, d: Endpoint, e: Endpoint)
    requires RemoteRoutes.Consistent(V) && NormalEndpoint(c, V, d) && NormalEndpoint(c, V, e)
    requires d != e && d.networkID == e.networkID
    ensures d.mac != e.mac && (d.ip == "" || d.ip != e.ip)
  {
    if d.mac == e.mac { NormalEndpointUnique(c, V, d, e); }
    if d.ip != "" && e.ip != "" {
      var v :| v in V && MacSlot(v) == (d.networkID, d.mac) && v.route.ip == d.ip;
      var w :| w in V && MacSlot(w) == (e.networkID, e.mac) && w.route.ip == e.ip;
      assert Compatible(v, w);
    }
  }

  lemma NormalSlotsApart(c: ImportConfig, networks: seq<Network>, V: set<Validated>, generation: nat, d: Endpoint, e: Endpoint)
    requires RemoteRoutes.Consistent(V) && NormalEndpoint(c, V, d) && NormalEndpoint(c, V, e) && d != e
    requires OwnDevices(networks) && MappingOf(networks, d).Some? && MappingOf(networks, e).Some?
    ensures Wanted(RouteOf(networks, d, generation)) !! Wanted(RouteOf(networks, e, generation))
  {
    if d.networkID == e.networkID {
      NormalDistinct(c, V, d, e);
    } else if || MappingOf(networks, d).value.vxlan == MappingOf(networks, e).value.vxlan
              || MappingOf(networks, d).value.bridge == MappingOf(networks, e).value.bridge {
      SameDeviceSameNetwork(networks, d, e);
    }
  }

  /** What polling confirms, installation accepts, exactly when every endpoint's network has devices
      and, for a snapshot with endpoints, the generation is not zero and every route names its source. */
  lemma ConfirmedIsInstallable(c: ImportConfig, networks: seq<Network>, R: set<Decoded>, content: Content, generation: nat)
    requires NormalForm(c, R, content) && RemoteRoutes.Consistent(Valids(c, R)) && OwnDevices(networks)
    ensures Installable(c, networks, content.endpoints, generation) <==>
      forall e | e in content.endpoints :: MappingOf(networks, e).Some? && generation != 0 && Sourced(e)
  {
    var endpoints := content.endpoints;
    forall e ensures AdmittedAt(c, networks, endpoints, generation, e) <==>
      (e in endpoints ==> MappingOf(networks, e).Some? && generation != 0 && Sourced(e))
    {
      if e in endpoints { NormalIsSupported(c, R, content, generation, e); }
    }
    forall i, j ensures UnsharedAt(networks, endpoints, generation, i, j) {
      if 0 <= i < j < |endpoints| && MappingOf(networks, endpoints[i]).Some? && MappingOf(networks, endpoints[j]).Some? {
        assert EndpointKey(endpoints[i]) != EndpointKey(endpoints[j]);
        assert NormalEndpoint(c, Valids(c, R), endpoints[i]) && NormalEndpoint(c, Valids(c, R), endpoints[j]);
        NormalSlotsApart(c, networks, Valids(c, R), generation, endpoints[i], endpoints[j]);
      }
    }
  }

  /** One reconciliation: poll, and install what the poll confirms. Success means that the RIB was
      read twice with equal content and that the kernel now holds exactly the endpoints of that
      content, the normal form of the paths just read; any other poll freezes the kernel. */
  method ReconcileValidated(reader: ReadOnlyImporter, i: RemoteImporter, raw: Option<seq<Raw>>)
    returns (ok: bool, ghost reading: Reading)
    requires reader.Valid() && i.Valid() && reader.config == i.config
    modifies reader, i, i.backend, i.backend.journal`record, i.backend.journal`blocked, i.backend.journal.disk, i.backend.kernel
    ensures reader.Valid() && i.Valid()
    ensures !i.backend.kernel.foreign ==> i.backend.kernel.others == old(i.backend.kernel.others)
    ensures ok ==> raw.Some? && Publishes(old(reader.State()), Poll(reading))
    ensures ok ==> NormalForm(i.config, Firsts(raw.value), reading.content)
    ensures ok && !i.backend.kernel.foreign ==>
      ExactlyInstalled(i.backend, reading.content.endpoints, i.backend.kernel.mine)
    ensures !Publishes(old(reader.State()), Poll(reading)) ==>
      !ok && i.active == old(i.active) && i.backend.kernel.mine == old(i.backend.kernel.mine)
    ensures reader.State() == Next(old(reader.State()), Poll(reading))
    ensures old(InStep(reader.confirmed, i.backend.snapshot)) ==> InStep(reader.confirmed, i.backend.snapshot)
    ensures old(InStep(reader.confirmed, i.backend.snapshot)) && OwnDevices(i.backend.networks)
            && Publishes(old(reader.State()), Poll(reading)) ==>
      i.backend.snapshot == if AllServed(i.backend.networks, reading.content.endpoints) then reader.confirmed
                            else old(i.backend.snapshot)
  {
    var result;
    result, reading := reader.PollOnce(raw);
    if !result.authoritative { return false, reading; }
    PublishedIsAccepted(i, old(reader.State()), reading.content, Firsts(raw.value));
    var cancelled: bool := *;
    ok := i.Install(result, cancelled);
  }

  /** The reader is not behind the writer, and where they have one generation they agree. */
  ghost predicate InStep(confirmed: Snapshot, last: Snapshot)
  {
    && last.generation <= confirmed.generation && Numbered(confirmed)
    && (last.generation == confirmed.generation ==> last.content.endpoints == confirmed.content.endpoints)
  }

  /** Every endpoint's network has devices and every route names its source. */
  ghost predicate AllServed(networks: seq<Network>, endpoints: seq<Endpoint>)
  {
    forall e | e in endpoints :: MappingOf(networks, e).Some? && Sourced(e)
  }

  /** What a reader in step publishes is current for the writer, and passes all its checks exactly when
      every endpoint is served. */
  lemma PublishedIsAccepted(i: RemoteImporter, s: ImporterState, content: Content, R: set<Decoded>)
    requires Publishes(s, Poll(Observed(content)))
    requires NormalForm(i.config, R, content) && RemoteRoutes.Consistent(Valids(i.config, R))
    ensures
      var published := Next(s, Poll(Observed(content))).confirmed;
      InStep(s.confirmed, i.backend.snapshot) ==>
        && InStep(published, i.backend.snapshot) && InStep(published, published) && Current(published, i.backend.snapshot)
        && (OwnDevices(i.backend.networks) ==>
              (i.Accepts(published, i.backend.snapshot) <==> AllServed(i.backend.networks, content.endpoints)))
  {
    var published := Next(s, Poll(Observed(content))).confirmed;
    if InStep(s.confirmed, i.backend.snapshot) && OwnDevices(i.backend.networks) {
      ConfirmedIsInstallable(i.config, i.backend.networks, R, content, published.generation);
    }
  }

  // ---------------------------------------------------------------- every run

  datatype Call = Restart(faulty: bool) | PollRIB(raw: Option<seq<Raw>>) | RebindSource

  /** One call, what it read, whether it was authoritative without the writer taking its snapshot over, and
      our kernel entries before and after it. */
  datatype Moment = Moment(call: Call, reading: Option<Reading>, refused: bool, before: set<Entry>, after: set<Entry>)

  /** An authoritative poll whose snapshot the writer did not take over found an endpoint that is not served. */
  ghost predicate Excused(networks: seq<Network>, trace: seq<Moment>, k: int)
  {
    0 <= k < |trace| && trace[k].refused ==>
      && trace[k].reading.Some? && trace[k].reading.value.Observed?
      && !AllServed(networks, trace[k].reading.value.content.endpoints)
  }

  lemma ExcusedExtends(networks: seq<Network>, trace: seq<Moment>, m: Moment)
    requires forall k :: Excused(networks, trace, k)
    requires m.refused ==>
      m.reading.Some? && m.reading.value.Observed? && !AllServed(networks, m.reading.value.content.endpoints)
    ensures forall k :: Excused(networks, trace + [m], k)
  {
    var more := trace + [m];
    forall k ensures Excused(networks, more, k) { assert Excused(networks, trace, k); }
  }

  /** Our entries change only in a poll that repeats the content of the poll right before it. */
  ghost predicate Earned(trace: seq<Moment>, k: int)
  {
    0 <= k < |trace| && trace[k].before != trace[k].after ==>
      && 0 < k && trace[k].call.PollRIB? && trace[k - 1].call.PollRIB?
      && trace[k].reading == trace[k - 1].reading && trace[k].reading.Some? && trace[k].reading.value.Observed?
  }

  ghost predicate Records(trace: seq<Moment>, calls: seq<Call>, k: int)
  {
    0 <= k < |trace| && k < |calls| ==> trace[k].call == calls[k]
  }

  lemma RecordsExtends(trace: seq<Moment>, calls: seq<Call>, m: Moment)
    requires (forall k :: Records(trace, calls, k)) && |trace| < |calls| && m.call == calls[|trace|]
    ensures forall k :: Records(trace + [m], calls, k)
  {
    var more := trace + [m];
    forall k ensures Records(more, calls, k) { assert Records(trace, calls, k); }
  }

  ghost predicate Joins(trace: seq<Moment>, k: int)
  {
    0 < k < |trace| ==> trace[k].before == trace[k - 1].after
  }

  /** The moments lead from one content of the kernel to another without a gap. */
  ghost predicate Spans(trace: seq<Moment>, first: set<Entry>, last: set<Entry>)
  {
    && (forall k :: Joins(trace, k))
    && if trace == [] then first == last else trace[0].before == first && trace[|trace| - 1].after == last
  }

  lemma SpansExtends(trace: seq<Moment>, first: set<Entry>, m: Moment)
    requires Spans(trace, first, m.before)
    ensures Spans(trace + [m], first, m.after)
  {
    var more := trace + [m];
    forall k ensures Joins(more, k) { assert Joins(trace, k); }
  }

  /** The pending reading is the one of the last call. */
  ghost predicate Remembers(pending: Option<Content>, trace: seq<Moment>)
  {
    pending.Some? ==> trace != [] && trace[|trace| - 1].call.PollRIB?
                      && trace[|trace| - 1].reading == Some(Observed(pending.value))
  }

  lemma EarnedExtends(trace: seq<Moment>, m: Moment)
    requires forall k :: Earned(trace, k)
    requires m.before != m.after ==>
      && trace != [] && m.call.PollRIB? && trace[|trace| - 1].call.PollRIB?
      && m.reading == trace[|trace| - 1].reading && m.reading.Some? && m.reading.value.Observed?
    ensures forall k :: Earned(trace + [m], k)
  {
    var more := trace + [m];
    forall k ensures Earned(more, k) { assert Earned(trace, k); }
  }

  /** Opens the writer, restores the importer from its receipts and the reader from its snapshot. */
  method StartImporter(kit: Kit, kernel: Kernel, disk: Disk<State, Payload>, domain: Domain, networks: seq<Network>,
                       config: ImportConfig, faulty: bool)
    returns (i: RemoteImporter?, reader: ReadOnlyImporter)
    requires SiteFits(kit, kernel, disk) && ValidConfig(config) && HashInjective(config.parsers)
    requires kit.hash == config.parsers.hash
    modifies kernel, disk
    ensures SiteFits(kit, kernel, disk)
    ensures !kernel.foreign ==> kernel.mine == old(kernel.mine) && kernel.others == old(kernel.others)
    ensures fresh(reader) && reader.Valid() && reader.config == config && reader.pending.None?
    ensures i != null ==> fresh(i) && fresh(i.backend) && fresh(i.backend.journal) && i.Valid() && i.config == config
    ensures i != null ==> i.backend.kit == kit && i.backend.kernel == kernel && i.backend.journal.disk == disk
    ensures i != null ==> reader.State() == Restored(i.backend.snapshot) && i.backend.networks == networks
    ensures i != null ==> InStep(reader.confirmed, i.backend.snapshot)
  {
    reader := new ReadOnlyImporter(config);
    i := null;
    var owner: string := *;
    var b := NetlinkRecovery.Open(kit, kernel, disk, domain, networks, owner, faulty);
    if b == null { return; }
    i := RemoteImporter.Restore(b, config);
    if i != null { reader.Restore(b.snapshot); }
  }

  /** One call to a running importer. */
  method Attend(i: RemoteImporter, reader: ReadOnlyImporter, call: Call)
    returns (ghost reading: Option<Reading>, ghost refused: bool)
    requires i.Valid() && reader.Valid() && reader.config == i.config && !call.Restart?
    requires InStep(reader.confirmed, i.backend.snapshot)
    modifies reader, i, i.backend, i.backend.journal`record, i.backend.journal`blocked, i.backend.journal.disk, i.backend.kernel
    ensures i.Valid() && reader.Valid() && InStep(reader.confirmed, i.backend.snapshot)
    ensures (reading.Some? <==> call.PollRIB?)
            && (refused <==> reading.Some? && Publishes(old(reader.State()), Poll(reading.value))
                             && i.backend.snapshot != reader.confirmed)
    ensures refused && OwnDevices(i.backend.networks) ==> !AllServed(i.backend.networks, reading.value.content.endpoints)
    ensures !i.backend.kernel.foreign ==> i.backend.kernel.others == old(i.backend.kernel.others)
    ensures !i.backend.kernel.foreign && i.backend.kernel.mine != old(i.backend.kernel.mine) ==>
      call.PollRIB? && old(reader.pending).Some? && reading == Some(Observed(old(reader.pending).value))
    ensures reader.pending.Some? ==> call.PollRIB? && reading == Some(Observed(reader.pending.value))
  {
    reading, refused := None, false;
    if call.RebindSource? {
      reader.RebindSource();
    } else {
      var ok;
      ghost var seen;
      ok, seen := ReconcileValidated(reader, i, call.raw);
      reading := Some(seen);
      refused := Publishes(old(reader.State()), Poll(seen)) && i.backend.snapshot != reader.confirmed;
    }
  }

  /** Any polls and rebinds, any RIB contents, kernel answers, cancellations, failed writes, crashes and
      restarts: what the journal promises about the kernel always holds; without foreign writers no
      entry of anyone else ever changes, and ours change only in a poll that repeats the content of the
      poll right before it, so never before two equal readings after a restart. With devices of its own
      for every network, the writer takes over every authoritative snapshot, also after a restart, unless
      an endpoint has no devices or a route no source. */
  method AnyImportRun(kit: Kit, kernel: Kernel, disk: Disk<State, Payload>, domain: Domain, networks: seq<Network>,
                      config: ImportConfig, calls: seq<Call>)
    returns (ghost trace: seq<Moment>)
    requires SiteFits(kit, kernel, disk) && ValidConfig(config) && HashInjective(config.parsers)
    requires kit.hash == config.parsers.hash
    modifies kernel, disk
    ensures SiteFits(kit, kernel, disk)
    ensures !kernel.foreign ==> kernel.others == old(kernel.others)
    ensures Traced(trace, calls, |calls|, networks, kernel.foreign, old(kernel.mine), kernel.mine)
  {
    var i: RemoteImporter? := null;
    var reader := new ReadOnlyImporter(config);
    trace := [];
    NothingTraced(calls, networks, kernel.foreign, kernel.mine);
    for k := 0 to |calls|
      invariant SiteFits(kit, kernel, disk)
      invariant !kernel.foreign ==> kernel.others == old(kernel.others)
      invariant fresh(reader) && reader.Valid() && reader.config == config && Remembers(reader.pending, trace)
      invariant i == null ==> reader.pending.None?
      invariant i != null ==> fresh(i) && fresh(i.backend) && fresh(i.backend.journal)
      invariant i != null ==> Running(i, reader, kit, kernel, disk, networks, config)
      invariant Traced(trace, calls, k, networks, kernel.foreign, old(kernel.mine), kernel.mine)
    {
      ghost var before := kernel.mine;
      ghost var reading: Option<Reading>, refused := None, false;
      if calls[k].Restart? {
        i, reader := StartImporter(kit, kernel, disk, domain, networks, config, calls[k].faulty);
      } else if i != null {
        reading, refused := Attend(i, reader, calls[k]);
      }
      ghost var m := Moment(calls[k], reading, refused, before, kernel.mine);
      TracedExtends(trace, calls, networks, kernel.foreign, old(kernel.mine), m);
      trace := trace + [m];
    }
  }

  /** A started importer and its reader, on this site. */
  ghost predicate Running(i: RemoteImporter, reader: ReadOnlyImporter, kit: Kit, kernel: Kernel, disk: Disk<State, Payload>,
                          networks: seq<Network>, config: ImportConfig)
    reads i, i.backend, i.backend.kernel, i.backend.journal, i.backend.journal.disk, reader
  {
    && i.Valid() && i.config == config && InStep(reader.confirmed, i.backend.snapshot)
    && i.backend.kit == kit && i.backend.kernel == kernel && i.backend.journal.disk == disk && i.backend.networks == networks
  }

  /** What the trace of the first `n` calls says. */
  ghost predicate Traced(trace: seq<Moment>, calls: seq<Call>, n: nat, networks: seq<Network>, foreign: bool,
                         first: set<Entry>, last: set<Entry>)
  {
    && |trace| == n && (forall k :: Records(trace, calls, k))
    && (!foreign ==> (forall k :: Earned(trace, k)) && Spans(trace, first, last))
    && (OwnDevices(networks) ==> forall k :: Excused(networks, trace, k))
  }

  lemma NothingTraced(calls: seq<Call>, networks: seq<Network>, foreign: bool, first: set<Entry>)
    ensures Traced([], calls, 0, networks, foreign, first, first)
  {
    forall k ensures Records([], calls, k) && Earned([], k) && Joins([], k) && Excused(networks, [], k) { }
  }

  lemma TracedExtends(trace: seq<Moment>, calls: seq<Call>, networks: seq<Network>, foreign: bool, first: set<Entry>, m: Moment)
    requires Traced(trace, calls, |trace|, networks, foreign, first, m.before) && |trace| < |calls| && m.call == calls[|trace|]
    requires !foreign && m.before != m.after ==>
      && trace != [] && m.call.PollRIB? && trace[|trace| - 1].call.PollRIB?
      && m.reading == trace[|trace| - 1].reading && m.reading.Some? && m.reading.value.Observed?
    requires OwnDevices(networks) && m.refused ==>
      m.reading.Some? && m.reading.value.Observed? && !AllServed(networks, m.reading.value.content.endpoints)
    ensures Traced(trace + [m], calls, |trace| + 1, networks, foreign, first, m.after)
  {
    RecordsExtends(trace, calls, m);
    if !foreign {
      EarnedExtends(trace, m);
      SpansExtends(trace, first, m);
    }
    if OwnDevices(networks) { ExcusedExtends(networks, trace, m); }
  }
}

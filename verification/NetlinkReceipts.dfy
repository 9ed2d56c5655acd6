/** Receipts of the kernel entries the importer creates, and when a stored set of them is valid. */
module NetlinkReceipts {
  import opened Basics
  import opened RemoteRoutes
  import opened RemoteBindings
  import opened RemotePolling

  datatype Network = Network(networkID: string, logicalSwitch: string, vni: nat, bridge: string, vxlan: string)

  /** `rest` stands for the local address, port, MAC and alias of the full identity. */
  datatype Device = Device(name: string, ifindex: int, kind: string, master: int, vni: nat, rest: string)

  datatype Family = Bridge | Inet | Inet6

  /** `kind` is the route type; `rest` the extended flags, VLAN, VNI and master, zero in requests. */
  datatype Entry = Entry(family: Family, ifindex: int, mac: string, ip: string, state: nat, flags: nat,
                         kind: nat, rest: nat)

  const NUD_NOARP := 0x40
  const NUD_PERMANENT := 0x80
  const NTF_SELF := 0x02
  const NTF_EXT_LEARNED := 0x10
  const RTN_UNICAST := 1
  const RTN_BROADCAST := 3
  const NO_ENTRY := Entry(Bridge, 0, "", "", 0, 0, 0, 0)

  datatype Status = Unattempted | Pending | Confirmed | Failed | OutcomeUnknown | Conflict | AbsentConfirmed

  datatype Object = Object(request: Entry, observed: Entry, status: Status, ack: bool, deleteAck: bool)

  datatype RouteStatus = PartiallyApplied | Applied | PartiallyWithdrawn | Withdrawn

  /** `owner` stands for controller and target together. */
  datatype Receipt = Receipt(owner: string, network: Network, endpoint: Endpoint, incarnation: nat, generation: nat,
                             devices: seq<Device>, fdb: Object, neighbor: Option<Object>, status: RouteStatus,
                             retiring: bool)

  datatype State = State(owner: string, networks: seq<Network>, devices: map<string, Device>,
                         receipts: map<string, Receipt>, latest: map<string, nat>, snapshot: Snapshot,
                         quarantined: bool)

  /** `remoteHash` of network, MAC and IP, and the IPv4 test behind the neighbor family. */
  datatype Kit = Kit(hash: (string, string, string) -> string, isIPv4: string -> bool)

  // ---------------------------------------------------------------- kernel slots

  /** All destinations of a MAC on the tunnel device, or one IP on the bridge. */
  predicate SameSlot(a: Entry, b: Entry)
  {
    a.family == b.family && a.ifindex == b.ifindex && if a.family == Bridge then a.mac == b.mac else a.ip == b.ip
  }

  function FDBRequest(vxlan: Device, ep: Endpoint): Entry
  {
    Entry(Bridge, vxlan.ifindex, ep.mac, ep.vtep, NUD_NOARP + NUD_PERMANENT, NTF_SELF + NTF_EXT_LEARNED, RTN_UNICAST, 0)
  }

  function NeighborRequest(kit: Kit, bridge: Device, ep: Endpoint): Entry
  {
    Entry(if kit.isIPv4(ep.ip) then Inet else Inet6, bridge.ifindex, ep.mac, ep.ip, NUD_NOARP, NTF_EXT_LEARNED, 0, 0)
  }

  /** The kernel derives a neighbor's route type; everything else must read back unchanged. */
  predicate ReadsBack(request: Entry, observed: Entry)
  {
    && observed == request.(kind := observed.kind)
    && if request.family == Bridge then observed.kind == request.kind
       else observed.kind == RTN_UNICAST || observed.kind == RTN_BROADCAST
  }

  // ---------------------------------------------------------------- parts of a receipt

  datatype Part = FDB | Neighbor

  predicate Has(r: Receipt, part: Part)
  {
    part == Neighbor ==> r.neighbor.Some?
  }

  function Get(r: Receipt, part: Part): Object
    requires Has(r, part)
  {
    if part == FDB then r.fdb else r.neighbor.value
  }

  function Put(r: Receipt, part: Part, o: Object): Receipt
  {
    if part == FDB then r.(fdb := o) else r.(neighbor := Some(o))
  }

  predicate Holds(r: Receipt, part: Part)
  {
    Has(r, part) && Get(r, part).status == Confirmed
  }

  ghost predicate HeldBy(receipts: map<string, Receipt>, key: string, part: Part, e: Entry)
  {
    key in receipts && Holds(receipts[key], part) && Get(receipts[key], part).observed == e
  }

  /** The kernel entries a set of receipts claims. */
  ghost function Held(receipts: map<string, Receipt>): set<Entry>
  {
    (set key | key in receipts && Holds(receipts[key], FDB) :: receipts[key].fdb.observed)
    + (set key | key in receipts && Holds(receipts[key], Neighbor) :: receipts[key].neighbor.value.observed)
  }

  lemma HeldMembers(receipts: map<string, Receipt>, e: Entry)
    ensures e in Held(receipts) <==> exists key, part :: HeldBy(receipts, key, part, e)
  {
    if e in Held(receipts) {
      if key :| key in receipts && Holds(receipts[key], FDB) && receipts[key].fdb.observed == e {
        assert HeldBy(receipts, key, FDB, e);
      } else {
        var key :| key in receipts && Holds(receipts[key], Neighbor) && receipts[key].neighbor.value.observed == e;
        assert HeldBy(receipts, key, Neighbor, e);
      }
    }
    if key, part :| HeldBy(receipts, key, part, e) {
      assert part == FDB || part == Neighbor;
    }
  }

  // ---------------------------------------------------------------- validity

  predicate TopologyOk(devices: map<string, Device>, n: Network)
  {
    && n.bridge in devices && n.vxlan in devices
    && var br, vx := devices[n.bridge], devices[n.vxlan];
       && br.name == n.bridge && vx.name == n.vxlan && br.ifindex > 0 && vx.ifindex > 0
       && br.kind == "bridge" && vx.kind == "vxlan" && vx.vni == n.vni && vx.master == br.ifindex
  }

  predicate Topology(st: State)
  {
    forall n | n in st.networks :: TopologyOk(st.devices, n)
  }

  function Latest(st: State, key: string): nat
  {
    if key in st.latest then st.latest[key] else 0
  }

  predicate Identified(kit: Kit, st: State, key: string, r: Receipt)
  {
    && r.owner == st.owner && r.endpoint.key == key
    && key == kit.hash(r.endpoint.networkID, r.endpoint.mac, r.endpoint.ip)
    && r.incarnation != 0 && 0 < r.generation <= st.snapshot.generation && Latest(st, key) == r.incarnation
    && r.endpoint.validationState == "validated" && r.endpoint.routes != []
  }

  predicate Mapped(kit: Kit, st: State, r: Receipt)
  {
    && r.network in st.networks && TopologyOk(st.devices, r.network)
    && r.network.networkID == r.endpoint.networkID && r.network.vni == r.endpoint.vni
    && r.devices == [st.devices[r.network.bridge], st.devices[r.network.vxlan]]
    && r.fdb.request == FDBRequest(st.devices[r.network.vxlan], r.endpoint)
    && (r.neighbor.Some? <==> r.endpoint.ip != "")
    && (r.neighbor.Some? ==> r.neighbor.value.request == NeighborRequest(kit, st.devices[r.network.bridge], r.endpoint))
  }

  predicate Staged(r: Receipt)
  {
    r.status != Withdrawn && (r.retiring <==> r.status == PartiallyWithdrawn)
  }

  predicate ObjectValid(o: Object)
  {
    match o.status
    case Confirmed => o.ack && !o.deleteAck && ReadsBack(o.request, o.observed)
    case Unattempted => !o.ack && !o.deleteAck && o.observed == NO_ENTRY
    case Failed => !o.ack && !o.deleteAck && o.observed == NO_ENTRY
    case AbsentConfirmed => true
    case _ => false
  }

  predicate ObjectsValid(r: Receipt)
  {
    ObjectValid(r.fdb) && (r.neighbor.Some? ==> ObjectValid(r.neighbor.value))
  }

  predicate ReceiptValid(kit: Kit, st: State, key: string, r: Receipt)
  {
    Identified(kit, st, key, r) && Staged(r) && Mapped(kit, st, r) && ObjectsValid(r)
  }

  /** A confirmed object reads back as requested, up to a derived neighbor type, with an acknowledged addition; an
      unattempted or failed one has no readback and no acknowledgement; or its absence is confirmed. */
  ghost predicate ObjectTrusted(o: Object)
  {
    var want, e := o.request, o.observed;
    || (o.status == Confirmed && o.ack && !o.deleteAck
        && (e.family, e.ifindex, e.mac, e.ip) == (want.family, want.ifindex, want.mac, want.ip)
        && (e.state, e.flags, e.rest) == (want.state, want.flags, want.rest)
        && (if want.family == Bridge then e.kind == want.kind else e.kind in {1, 3}))
    || (o.status in {Unattempted, Failed} && !o.ack && !o.deleteAck && e == Entry(Bridge, 0, "", "", 0, 0, 0, 0))
    || o.status == AbsentConfirmed
  }

  /** What makes a stored receipt trustworthy, field by field. */
  ghost predicate Trusted(kit: Kit, st: State, key: string, r: Receipt)
  {
    var ep, n := r.endpoint, r.network;
    && r.owner == st.owner && ep.key == key == kit.hash(ep.networkID, ep.mac, ep.ip)
    && ep.validationState == "validated" && |ep.routes| > 0
    && r.incarnation > 0 && key in st.latest && st.latest[key] == r.incarnation && 0 < r.generation <= st.snapshot.generation
    && r.status in {PartiallyApplied, Applied, PartiallyWithdrawn} && r.retiring == (r.status == PartiallyWithdrawn)
    && n in st.networks && n.networkID == ep.networkID && n.vni == ep.vni && TopologyOk(st.devices, n)
    && r.devices == [st.devices[n.bridge], st.devices[n.vxlan]]
    && r.fdb.request == Entry(Bridge, st.devices[n.vxlan].ifindex, ep.mac, ep.vtep, 0xC0, 0x12, 1, 0) && ObjectTrusted(r.fdb)
    && (if ep.ip == "" then r.neighbor == None
        else && r.neighbor.Some? && ObjectTrusted(r.neighbor.value)
             && r.neighbor.value.request
                == Entry(if kit.isIPv4(ep.ip) then Inet else Inet6, st.devices[n.bridge].ifindex, ep.mac, ep.ip, 0x40, 0x10, 0, 0))
  }

  lemma TrustedIff(kit: Kit, st: State, key: string, r: Receipt)
    ensures ReceiptValid(kit, st, key, r) <==> Trusted(kit, st, key, r)
  {
    assert ObjectValid(r.fdb) <==> ObjectTrusted(r.fdb);
    if r.neighbor.Some? { assert ObjectValid(r.neighbor.value) <==> ObjectTrusted(r.neighbor.value); }
  }

  ghost predicate Apart(receipts: map<string, Receipt>, k: string, p: Part, l: string, q: Part)
  {
    k in receipts && l in receipts && Has(receipts[k], p) && Has(receipts[l], q) && (k != l || p != q) ==>
      !SameSlot(Get(receipts[k], p).request, Get(receipts[l], q).request)
  }

  /** No two objects claim one kernel slot. */
  ghost predicate Unaliased(receipts: map<string, Receipt>)
  {
    forall k, p, l, q :: Apart(receipts, k, p, l, q)
  }

  /** What a recovered state must satisfy before anything is trusted. */
  ghost predicate ValidReceipts(kit: Kit, st: State)
  {
    && Topology(st)
    && (forall key | key in st.receipts :: ReceiptValid(kit, st, key, st.receipts[key]))
    && Unaliased(st.receipts)
  }

  // ---------------------------------------------------------------- the running invariant

  ghost predicate ShapedAt(kit: Kit, st: State, key: string)
  {
    key in st.receipts ==> Identified(kit, st, key, st.receipts[key]) && Mapped(kit, st, st.receipts[key])
  }

  /** Holds in memory at all times: identities, device mapping and distinct slots. */
  ghost predicate Shaped(kit: Kit, st: State)
  {
    Topology(st) && (forall key :: ShapedAt(kit, st, key)) && Unaliased(st.receipts) && Numbered(st.snapshot)
  }

  /** A snapshot with endpoints has a generation. */
  predicate Numbered(s: Snapshot)
  {
    s.generation == 0 ==> s.content.endpoints == []
  }

  /** Only retiring receipts have objects whose absence is confirmed; nothing is in doubt. */
  predicate ObjectSettled(o: Object, retiring: bool)
  {
    ObjectValid(o) && o.status != Failed && (o.status == AbsentConfirmed ==> retiring)
  }

  predicate ReceiptSettled(r: Receipt)
  {
    && Staged(r) && ObjectSettled(r.fdb, r.retiring)
    && (r.neighbor.Some? ==> ObjectSettled(r.neighbor.value, r.retiring))
  }

  ghost predicate SettledAt(receipts: map<string, Receipt>, key: string)
  {
    key in receipts ==> ReceiptSettled(receipts[key])
  }

  ghost predicate Settled(receipts: map<string, Receipt>)
  {
    forall key :: SettledAt(receipts, key)
  }

  lemma SettledIsValid(kit: Kit, st: State)
    requires Shaped(kit, st) && Settled(st.receipts)
    ensures ValidReceipts(kit, st)
  {
    forall key | key in st.receipts ensures ReceiptValid(kit, st, key, st.receipts[key]) {
      assert SettledAt(st.receipts, key) && ShapedAt(kit, st, key);
    }
  }

  // ---------------------------------------------------------------- changing one object

  lemma PutOther(r: Receipt, part: Part, o: Object, other: Part)
    requires part != other
    ensures Holds(Put(r, part, o), other) <==> Holds(r, other)
    ensures Has(r, other) ==> Has(Put(r, part, o), other) && Get(Put(r, part, o), other) == Get(r, other)
  {
  }

  lemma HeldByAfterPut(receipts: map<string, Receipt>, key: string, part: Part, o: Object, k: string, p: Part, e: Entry)
    requires key in receipts && Has(receipts[key], part)
    ensures HeldBy(receipts[key := Put(receipts[key], part, o)], k, p, e) <==>
      if k == key && p == part then o.status == Confirmed && o.observed == e else HeldBy(receipts, k, p, e)
  {
    if k == key && p != part { PutOther(receipts[key], part, o, p); }
  }

  /** Confirming an object adds exactly its observed entry. */
  lemma HeldAfterConfirm(receipts: map<string, Receipt>, key: string, part: Part, o: Object)
    requires key in receipts && Has(receipts[key], part) && !Holds(receipts[key], part) && o.status == Confirmed
    ensures Held(receipts[key := Put(receipts[key], part, o)]) == Held(receipts) + {o.observed}
  {
    var after := receipts[key := Put(receipts[key], part, o)];
    forall e ensures e in Held(after) <==> e in Held(receipts) + {o.observed} {
      HeldMembers(after, e);
      HeldMembers(receipts, e);
      if e in Held(after) {
        var k, p :| HeldBy(after, k, p, e);
        HeldByAfterPut(receipts, key, part, o, k, p, e);
      }
      if e in Held(receipts) {
        var k, p :| HeldBy(receipts, k, p, e);
        HeldByAfterPut(receipts, key, part, o, k, p, e);
        assert HeldBy(after, k, p, e);
      }
      if e == o.observed {
        HeldByAfterPut(receipts, key, part, o, key, part, e);
        assert HeldBy(after, key, part, e);
      }
    }
  }

  lemma ObservedApart(receipts: map<string, Receipt>, k: string, p: Part, l: string, q: Part)
    requires Unaliased(receipts) && k in receipts && l in receipts && Holds(receipts[k], p) && Holds(receipts[l], q)
    requires ReadsBack(Get(receipts[k], p).request, Get(receipts[k], p).observed)
    requires ReadsBack(Get(receipts[l], q).request, Get(receipts[l], q).observed)
    requires Get(receipts[k], p).observed == Get(receipts[l], q).observed
    ensures k == l && p == q
  {
    assert Apart(receipts, k, p, l, q);
  }

  lemma SettledReadsBack(receipts: map<string, Receipt>, k: string, p: Part)
    requires Settled(receipts) && k in receipts && Holds(receipts[k], p)
    ensures ReadsBack(Get(receipts[k], p).request, Get(receipts[k], p).observed) && Get(receipts[k], p).ack
  {
    assert SettledAt(receipts, k);
  }

  /** Releasing a confirmed object removes exactly its observed entry: no other receipt claims it. */
  lemma HeldAfterRelease(receipts: map<string, Receipt>, key: string, part: Part, o: Object)
    requires Unaliased(receipts) && Settled(receipts)
    requires key in receipts && Holds(receipts[key], part) && o.status != Confirmed
    ensures Held(receipts[key := Put(receipts[key], part, o)]) == Held(receipts) - {Get(receipts[key], part).observed}
  {
    var after, gone := receipts[key := Put(receipts[key], part, o)], Get(receipts[key], part).observed;
    forall e ensures e in Held(after) <==> e in Held(receipts) && e != gone {
      HeldMembers(after, e);
      HeldMembers(receipts, e);
      if e in Held(after) {
        var k, p :| HeldBy(after, k, p, e);
        HeldByAfterPut(receipts, key, part, o, k, p, e);
        assert HeldBy(receipts, k, p, e);
        SettledReadsBack(receipts, k, p);
        SettledReadsBack(receipts, key, part);
        if e == gone { ObservedApart(receipts, k, p, key, part); }
      }
      if e in Held(receipts) && e != gone {
        var k, p :| HeldBy(receipts, k, p, e);
        HeldByAfterPut(receipts, key, part, o, k, p, e);
        assert HeldBy(after, k, p, e);
      }
    }
  }

  /** Changing an object that is confirmed neither before nor after changes no claim. */
  lemma HeldUnchanged(receipts: map<string, Receipt>, key: string, part: Part, o: Object)
    requires key in receipts && Has(receipts[key], part) && !Holds(receipts[key], part) && o.status != Confirmed
    ensures Held(receipts[key := Put(receipts[key], part, o)]) == Held(receipts)
  {
    var after := receipts[key := Put(receipts[key], part, o)];
    forall e ensures e in Held(after) <==> e in Held(receipts) {
      HeldMembers(after, e);
      HeldMembers(receipts, e);
      if e in Held(after) {
        var k, p :| HeldBy(after, k, p, e);
        HeldByAfterPut(receipts, key, part, o, k, p, e);
        assert HeldBy(receipts, k, p, e);
      }
      if e in Held(receipts) {
        var k, p :| HeldBy(receipts, k, p, e);
        HeldByAfterPut(receipts, key, part, o, k, p, e);
        assert HeldBy(after, k, p, e);
      }
    }
  }

  /** Replacing a receipt by one with the same objects, or none confirmed, changes no claim. */
  lemma HeldSameObjects(receipts: map<string, Receipt>, key: string, r: Receipt)
    requires if key in receipts then r.fdb == receipts[key].fdb && r.neighbor == receipts[key].neighbor
             else !Holds(r, FDB) && !Holds(r, Neighbor)
    ensures Held(receipts[key := r]) == Held(receipts)
  {
    var after := receipts[key := r];
    forall e ensures e in Held(after) <==> e in Held(receipts) {
      HeldMembers(after, e);
      HeldMembers(receipts, e);
      if e in Held(after) {
        var k, p :| HeldBy(after, k, p, e);
        assert p == FDB || p == Neighbor;
        assert HeldBy(receipts, k, p, e);
      }
      if e in Held(receipts) {
        var k, p :| HeldBy(receipts, k, p, e);
        assert HeldBy(after, k, p, e);
      }
    }
  }

  lemma HeldAfterRemoval(receipts: map<string, Receipt>, key: string)
    requires key in receipts && !Holds(receipts[key], FDB) && !Holds(receipts[key], Neighbor)
    ensures Held(receipts - {key}) == Held(receipts)
  {
    var after := receipts - {key};
    forall e ensures e in Held(after) <==> e in Held(receipts) {
      HeldMembers(after, e);
      HeldMembers(receipts, e);
      if e in Held(after) {
        var k, p :| HeldBy(after, k, p, e);
        assert HeldBy(receipts, k, p, e);
      }
      if e in Held(receipts) {
        var k, p :| HeldBy(receipts, k, p, e);
        assert p == FDB || p == Neighbor;
        assert HeldBy(after, k, p, e);
      }
    }
  }

  lemma UnaliasedSameRequests(receipts: map<string, Receipt>, key: string, r: Receipt)
    requires Unaliased(receipts) && key in receipts
    requires r.fdb.request == receipts[key].fdb.request && (r.neighbor.Some? <==> receipts[key].neighbor.Some?)
    requires r.neighbor.Some? ==> r.neighbor.value.request == receipts[key].neighbor.value.request
    ensures Unaliased(receipts[key := r])
  {
    var after := receipts[key := r];
    forall k, p, l, q ensures Apart(after, k, p, l, q) {
      assert Apart(receipts, k, p, l, q);
      assert p == FDB || p == Neighbor;
      assert q == FDB || q == Neighbor;
    }
  }

  lemma UnaliasedRemoval(receipts: map<string, Receipt>, key: string)
    requires Unaliased(receipts)
    ensures Unaliased(receipts - {key})
  {
    var after := receipts - {key};
    forall k, p, l, q ensures Apart(after, k, p, l, q) { assert Apart(receipts, k, p, l, q); }
  }

  /** Settled receipts never claim two entries of one slot. */
  lemma HeldSlotsUnique(receipts: map<string, Receipt>, e: Entry, f: Entry)
    requires Unaliased(receipts) && Settled(receipts) && e in Held(receipts) && f in Held(receipts) && SameSlot(e, f)
    ensures e == f
  {
    HeldMembers(receipts, e);
    HeldMembers(receipts, f);
    var k, p :| HeldBy(receipts, k, p, e);
    var l, q :| HeldBy(receipts, l, q, f);
    SettledReadsBack(receipts, k, p);
    SettledReadsBack(receipts, l, q);
    assert Apart(receipts, k, p, l, q);
  }
}

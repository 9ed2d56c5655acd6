/** Opening the kernel writer: what a restarted process may trust. */
module NetlinkRecovery {
  import opened Basics
  import opened RemoteRoutes
  import opened RemoteBindings
  import opened RemotePolling
  import opened OwnershipJournal
  import opened NetlinkReceipts
  import opened NetlinkKernel
  import opened NetlinkBackend

  /** The devices of a network are the kernel's own links of those names. */
  predicate BoundNetwork(devices: map<string, Device>, links: map<string, Device>, n: Network)
  {
    && n.bridge in links && n.vxlan in links && n.bridge in devices && n.vxlan in devices
    && devices[n.bridge] == links[n.bridge] && devices[n.vxlan] == links[n.vxlan]
  }

  ghost predicate Bound(b: Backend)
  {
    forall n | n in b.networks :: BoundNetwork(b.devices, b.kernel.links, n)
  }

  /** Every remote-looking entry in the three tables of a network is claimed. */
  ghost predicate Claimed(visible: set<Entry>, devices: map<string, Device>, n: Network, held: set<Entry>)
  {
    forall e | e in visible && Remotely(e) && n.bridge in devices && n.vxlan in devices &&
      (|| (e.family == Bridge && e.ifindex == devices[n.vxlan].ifindex)
       || (e.family != Bridge && e.ifindex == devices[n.bridge].ifindex)) :: e in held
  }

  method LookUp(kernel: Kernel, networks: seq<Network>) returns (devices: Option<map<string, Device>>)
    requires kernel.Valid()
    ensures devices.Some? ==> forall n | n in networks ::
      TopologyOk(devices.value, n) && BoundNetwork(devices.value, kernel.links, n)
  {
    var found: map<string, Device> := map[];
    for i := 0 to |networks|
      invariant forall name | name in found :: name in kernel.links && found[name] == kernel.links[name]
      invariant forall j | 0 <= j < i :: TopologyOk(found, networks[j]) && BoundNetwork(found, kernel.links, networks[j])
    {
      var n := networks[i];
      var bridge := kernel.Link(n.bridge);
      if bridge.None? { return None; }
      var vxlan := kernel.Link(n.vxlan);
      if vxlan.None? { return None; }
      found := found[n.bridge := bridge.value][n.vxlan := vxlan.value];
      if bridge.value.kind != "bridge" || vxlan.value.kind != "vxlan" || vxlan.value.vni != n.vni
         || vxlan.value.master != bridge.value.ifindex {
        return None;
      }
    }
    return Some(found);
  }

  /** Recovered devices must still be the kernel's devices. */
  method VerifyDevices(b: Backend) returns (ok: bool)
    requires b.Valid() && !b.blocked
    modifies b`blocked, b.journal`record, b.journal`blocked, b.journal.disk
    ensures b.Valid()
    ensures ok ==> Bound(b) && !b.blocked && b.journal.record == old(b.journal.record) && b.journal.blocked == old(b.journal.blocked)
  {
    for i := 0 to |b.networks|
      invariant b.Valid() && !b.blocked && b.journal.record == old(b.journal.record) && b.journal.blocked == old(b.journal.blocked)
      invariant forall j | 0 <= j < i :: BoundNetwork(b.devices, b.kernel.links, b.networks[j])
    {
      var n := b.networks[i];
      assert TopologyOk(b.devices, n);
      var bridge := b.kernel.Link(n.bridge);
      if bridge.None? { return false; }
      var vxlan := b.kernel.Link(n.vxlan);
      if vxlan.None? { return false; }
      if b.devices[n.bridge] != bridge.value || b.devices[n.vxlan] != vxlan.value {
        b.Block();
        b.Quarantine();
        return false;
      }
    }
    return true;
  }

  method ObserveNetworks(b: Backend) returns (ok: bool)
    requires b.Valid() && !b.blocked
    modifies b`blocked, b.journal`record, b.journal`blocked, b.journal.disk, b.kernel
    ensures b.Valid()
    ensures !b.kernel.foreign ==> b.kernel.mine == old(b.kernel.mine) && b.kernel.others == old(b.kernel.others)
    ensures ok ==> !b.blocked && b.journal.record == old(b.journal.record)
    ensures ok && !b.kernel.foreign ==> forall n | n in b.networks ::
      Claimed(b.kernel.Visible(), b.devices, n, Held(b.receipts))
  {
    for i := 0 to |b.networks|
      invariant b.Valid() && !b.blocked && b.journal.record == old(b.journal.record)
      invariant !b.kernel.foreign ==> b.kernel.mine == old(b.kernel.mine) && b.kernel.others == old(b.kernel.others)
      invariant !b.kernel.foreign ==> forall j | 0 <= j < i ::
        Claimed(b.kernel.Visible(), b.devices, b.networks[j], Held(b.receipts))
    {
      var n := b.networks[i];
      assert TopologyOk(b.devices, n);
      ok := b.Observe(b.devices[n.vxlan].ifindex, Bridge);
      if !ok { return; }
      ok := b.Observe(b.devices[n.bridge].ifindex, Inet);
      if !ok { return; }
      ok := b.Observe(b.devices[n.bridge].ifindex, Inet6);
      if !ok { return; }
    }
    return true;
  }

  function Empty(owner: string, networks: seq<Network>, devices: map<string, Device>): State
  {
    State(owner, networks, devices, map[], map[], EMPTY_SNAPSHOT, false)
  }

  /** The steps of opening that follow the journal; recovered devices are looked up again. */
  method Start(b: Backend, recovered: bool) returns (ok: bool)
    requires b.Valid() && b.Live() && (recovered || Bound(b))
    modifies b`blocked, b`receipts, b.journal`record, b.journal`blocked, b.journal.disk, b.kernel
    ensures b.Valid() && SameClaims(b.receipts, old(b.receipts))
    ensures !b.kernel.foreign ==> b.kernel.mine == old(b.kernel.mine) && b.kernel.others == old(b.kernel.others)
    ensures ok ==> b.Live() && Bound(b)
    ensures ok && !b.kernel.foreign ==> AllAsRecorded(b.kernel.Visible(), b.receipts, b.receipts.Keys)
    ensures ok && !b.kernel.foreign ==> forall n | n in b.networks ::
      Claimed(b.kernel.Visible(), b.devices, n, b.kernel.mine)
  {
    forall k ensures SameClaimAt(b.receipts, b.receipts, k) { }
    if recovered {
      ok := VerifyDevices(b);
      if !ok { return; }
    }
    ok := ObserveNetworks(b);
    if ok { ok := b.Check(false); }
    if ok && !recovered {
      ok := b.Checkpoint();
      var marked: bool := *;
      ok := ok && marked;
    }
    if ok { ok := b.VerifyRecovered(); }
  }

  /** Opens the writer. A pending intent or a quarantine refuses every restart; otherwise the
      recovered receipts are those of the last durable state, and without foreign writers the
      kernel tables of every claimed slot are exactly as the receipts say. `faulty` stands for any
      failing file test and `marked` for the marker file. */
  method Open(kit: Kit, kernel: Kernel, disk: Disk<State, Payload>, domain: Domain, networks: seq<Network>,
              newOwner: string, faulty: bool)
    returns (b: Backend?)
    requires SiteFits(kit, kernel, disk)
    modifies kernel, disk
    ensures SiteFits(kit, kernel, disk)
    ensures !kernel.foreign ==> kernel.mine == old(kernel.mine) && kernel.others == old(kernel.others)
    ensures old(disk.files).Stored? && old(disk.files).record.pending.Some? ==> b == null
    ensures b != null ==> fresh(b) && fresh(b.journal) && b.kit == kit && b.kernel == kernel && b.journal.disk == disk
    ensures b != null ==> b.networks == networks && b.Valid() && b.Live() && Bound(b)
    ensures b != null && old(disk.files).Stored? && old(disk.files).record.state.Some? ==>
      var st := old(disk.files).record.state.value;
      !st.quarantined && SameClaims(b.receipts, st.receipts) && b.latest == st.latest && b.snapshot == st.snapshot
    ensures b != null && (!old(disk.files).Stored? || old(disk.files).record.state.None?) ==>
      b.receipts == map[] && b.latest == map[] && b.snapshot == EMPTY_SNAPSHOT
    ensures b != null && !kernel.foreign ==> AllAsRecorded(kernel.Visible(), b.receipts, b.receipts.Keys)
    ensures b != null && !kernel.foreign ==> forall n | n in networks ::
      Claimed(kernel.Visible(), b.devices, n, kernel.mine)
  {
    b := null;
    var journal := Journal.Open(disk, domain, true, faulty);
    if journal == null { return; }
    var s := journal.Snapshot();
    if s.Blocked? || s.pending.Some? { return; }
    var st := Load(kit, kernel, s.state, networks, newOwner);
    if st.None? { return; }
    var backend := new Backend(kit, kernel, journal, st.value);
    var ok := Start(backend, s.state.Some?);
    if ok { b := backend; }
  }

  /** The state to start from: the durable one if recovery accepts it, or an empty one on the
      devices just looked up. */
  method Load(kit: Kit, kernel: Kernel, durable: Option<State>, networks: seq<Network>, newOwner: string)
    returns (st: Option<State>)
    requires kernel.Valid()
    ensures st.Some? ==> st.value.networks == networks && !st.value.quarantined
    ensures st.Some? && durable.Some? ==> st == durable
    ensures st.Some? && durable.None? ==> st.value == Empty(newOwner, networks, st.value.devices)
    ensures st.Some? && durable.None? ==> forall n | n in networks ::
      TopologyOk(st.value.devices, n) && BoundNetwork(st.value.devices, kernel.links, n)
  {
    if durable.None? {
      var devices := LookUp(kernel, networks);
      if devices.None? { return None; }
      return Some(Empty(newOwner, networks, devices.value));
    }
    var found := durable.value;
    if found.quarantined || found.networks != networks || |found.devices| != 2 * |found.networks| { return None; }
    var marked: bool := *;
    if !marked { return None; }
    var valid := ValidateReceipts(kit, found);
    st := if valid then Some(found) else None;
  }

  /** Whatever a crash leaves on disk, a restart either stops at a pending intent or a quarantine,
      or finds receipts that pass the recovery gate. */
  lemma BlockedOrValid(kit: Kit, kernel: Kernel, disk: Disk<State, Payload>)
    requires SiteFits(kit, kernel, disk) && disk.files.Stored?
    ensures var r := disk.files.record;
      r.pending.Some? || r.state.None? || r.state.value.quarantined || ValidReceipts(kit, r.state.value)
  {
    var r := disk.files.record;
    if r.pending.None? && r.state.Some? && !r.state.value.quarantined { SettledIsValid(kit, r.state.value); }
  }

  /** Without foreign writers, whenever the running backend has no pending intent, blocked or not,
      the entries we created and did not delete are exactly the observed entries of its confirmed
      receipts. Each of our entries is alone in its slot at all times. */
  lemma Conservation(b: Backend, e: Entry, f: Entry)
    requires b.Valid() && !b.kernel.foreign
    ensures b.journal.record.pending.None? ==> b.kernel.mine == Held(b.receipts)
    ensures e in b.kernel.mine && f in b.kernel.Visible() && e.family == f.family && e.ifindex == f.ifindex ==>
      (if e.family == Bridge then e.mac == f.mac else e.ip == f.ip) ==> e == f
  {
    assert AloneAt(b.kernel.mine, b.kernel.others, e, f);
  }

  /** The same for whatever a crash leaves on disk, quarantined or not. */
  lemma DurableConservation(kit: Kit, kernel: Kernel, disk: Disk<State, Payload>, e: Entry, f: Entry)
    requires SiteFits(kit, kernel, disk) && !kernel.foreign
    ensures disk.files.Stored? && disk.files.record.pending.None? ==>
      kernel.mine == if disk.files.record.state.None? then {} else Held(disk.files.record.state.value.receipts)
    ensures e in kernel.mine && f in kernel.Visible() && e.family == f.family && e.ifindex == f.ifindex ==>
      (if e.family == Bridge then e.mac == f.mac else e.ip == f.ip) ==> e == f
  {
    assert AloneAt(kernel.mine, kernel.others, e, f);
  }
}
